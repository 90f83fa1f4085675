/** Properties of every stack of layers, whatever calls fail. */
module Layers {
  import opened Keys
  import opened Filters
  import opened Stores

  // ---------------------------------------------------------------------------
  // Which backend objects a logical key stands for
  // ---------------------------------------------------------------------------

  /** The backend prefix under which everything in the stack lives. */
  function Pre(s: Store): string {
    match s
    case Base => ""
    case Prefixed(p, inner) => Pre(inner) + p
    case Encrypted(_, _, inner) => Pre(inner)
    case Cleanable(inner) => Pre(inner)
  }

  /** The backend object holding the data of logical key `k`. */
  function Full(s: Store, k: string): string {
    Pre(s) + k
  }

  /** Every backend object that belongs to `k`: its data and its headers. */
  function Owns(s: Store, k: string): set<string> {
    match s
    case Base => {k}
    case Prefixed(p, inner) => Owns(inner, p + k)
    case Encrypted(_, x, inner) => Owns(inner, k) + Owns(inner, k + x)
    case Cleanable(inner) => Owns(inner, k)
  }

  ghost predicate Owned(s: Store, ks: seq<string>, o: string) {
    exists k :: k in ks && o in Owns(s, k)
  }

  /** `k` is not the name of a header object at any encryption layer. */
  predicate Proper(s: Store, k: string) {
    match s
    case Base => true
    case Prefixed(p, inner) => Proper(inner, p + k)
    case Encrypted(_, x, inner) => !EndsWith(k, x) && Proper(inner, k) && Proper(inner, k + x)
    case Cleanable(inner) => Proper(inner, k)
  }

  /** The specification of visibility: at every encryption layer the data and the
      header are both visible beneath it, and the key is not a header's. */
  predicate Visible(s: Store, objs: map<string, Bytes>, k: string) {
    match s
    case Base => k in objs
    case Prefixed(p, inner) => Visible(inner, objs, p + k)
    case Encrypted(_, x, inner) =>
      !EndsWith(k, x) && Visible(inner, objs, k) && Visible(inner, objs, k + x)
    case Cleanable(inner) => Visible(inner, objs, k)
  }

  /** The specification of reading: what the stored objects decrypt to. */
  function View(s: Store, objs: map<string, Bytes>, k: string): (r: Stream)
    requires Visible(s, objs, k)
  {
    match s
    case Base => Delivers(objs[k])
    case Prefixed(p, inner) => View(inner, objs, p + k)
    case Encrypted(provider, x, inner) =>
      var header := View(inner, objs, k + x);
      if header.FailsAtEnd? then FailsAtEnd
      else Decrypted(provider, View(inner, objs, k), header.bytes)
    case Cleanable(inner) => View(inner, objs, k)
  }

  lemma {:induction false} OwnsFull(s: Store, k: string)
    ensures Full(s, k) in Owns(s, k)
    ensures forall o :: o in Owns(s, k) ==> StartsWith(o, Full(s, k))
  {
    match s
    case Base => assert Full(s, k) == k;
    case Prefixed(p, inner) =>
      OwnsFull(inner, p + k);
      assert Full(s, k) == Full(inner, p + k);
    case Encrypted(_, x, inner) =>
      OwnsFull(inner, k);
      OwnsFull(inner, k + x);
      assert Full(inner, k + x) == Full(inner, k) + x;
    case Cleanable(inner) => OwnsFull(inner, k);
  }

  lemma {:induction false} VisibleIsProper(s: Store, objs: map<string, Bytes>, k: string)
    requires Visible(s, objs, k)
    ensures Proper(s, k) && Full(s, k) in objs
  {
    match s
    case Base => assert Full(s, k) == k;
    case Prefixed(p, inner) =>
      VisibleIsProper(inner, objs, p + k);
      assert Full(s, k) == Full(inner, p + k);
    case Encrypted(_, x, inner) =>
      VisibleIsProper(inner, objs, k);
      VisibleIsProper(inner, objs, k + x);
    case Cleanable(inner) => VisibleIsProper(inner, objs, k);
  }

  /** Distinct logical keys share no backend object. */
  lemma {:induction false} OwnsDisjoint(s: Store, k: string, k': string)
    requires k != k' && Proper(s, k) && Proper(s, k')
    ensures Owns(s, k) !! Owns(s, k')
  {
    match s
    case Base =>
    case Prefixed(p, inner) =>
      assert (p + k)[|p|..] == k && (p + k')[|p|..] == k';
      OwnsDisjoint(inner, p + k, p + k');
    case Encrypted(_, x, inner) =>
      assert EndsWith(k + x, x) && EndsWith(k' + x, x);
      assert (k + x)[..|k|] == k && (k' + x)[..|k'|] == k';
      OwnsDisjoint(inner, k, k');
      OwnsDisjoint(inner, k, k' + x);
      OwnsDisjoint(inner, k + x, k');
      OwnsDisjoint(inner, k + x, k' + x);
    case Cleanable(inner) => OwnsDisjoint(inner, k, k');
  }

  ghost predicate Agree(a: map<string, Bytes>, b: map<string, Bytes>, o: string) {
    (o in a <==> o in b) && (o in a ==> a[o] == b[o])
  }

  /** Visibility and content of a key depend only on the objects it owns. */
  lemma {:induction false} ViewFrame(s: Store, a: map<string, Bytes>, b: map<string, Bytes>, k: string)
    requires forall o :: o in Owns(s, k) ==> Agree(a, b, o)
    ensures Visible(s, a, k) <==> Visible(s, b, k)
    ensures Visible(s, a, k) ==> View(s, a, k) == View(s, b, k)
  {
    match s
    case Base => assert Agree(a, b, k);
    case Prefixed(p, inner) => ViewFrame(inner, a, b, p + k);
    case Encrypted(_, x, inner) =>
      ViewFrame(inner, a, b, k);
      ViewFrame(inner, a, b, k + x);
    case Cleanable(inner) => ViewFrame(inner, a, b, k);
  }

  /** Removing objects can hide a key but never changes what a visible key reads. */
  lemma {:induction false} ViewShrinks(s: Store, a: map<string, Bytes>, b: map<string, Bytes>, k: string)
    requires forall o :: o in a ==> o in b && a[o] == b[o]
    requires Visible(s, a, k)
    ensures Visible(s, b, k) && View(s, a, k) == View(s, b, k)
  {
    match s
    case Base =>
    case Prefixed(p, inner) => ViewShrinks(inner, a, b, p + k);
    case Encrypted(_, x, inner) =>
      ViewShrinks(inner, a, b, k);
      ViewShrinks(inner, a, b, k + x);
    case Cleanable(inner) => ViewShrinks(inner, a, b, k);
  }

  // ---------------------------------------------------------------------------
  // Reads: exists, get, list and visit agree with the specification
  // ---------------------------------------------------------------------------

  lemma {:induction false} ExistsExact(s: Store, w: World, k: string)
    ensures Exists(s, w, k).0.objs == w.objs
    ensures Exists(s, w, k).1.Ok? ==> Exists(s, w, k).1.value == Visible(s, w.objs, k)
  {
    match s
    case Base =>
    case Prefixed(p, inner) => ExistsExact(inner, w, p + k);
    case Encrypted(_, x, inner) =>
      ExistsExact(inner, w, k);
      ExistsExact(inner, Exists(inner, w, k).0, k + x);
    case Cleanable(inner) => ExistsExact(inner, w, k);
  }

  /** A successful `get` streams exactly the specified content; `NotFound` is
      reported only for invisible keys, and only under the caller's own key. */
  lemma {:induction false} GetExact(s: Store, w: World, k: string)
    ensures Get(s, w, k).0.objs == w.objs
    ensures Get(s, w, k).1.Ok? ==> Visible(s, w.objs, k) && Get(s, w, k).1.value == View(s, w.objs, k)
    ensures Get(s, w, k).1.Err? && Get(s, w, k).1.error.NotFound? ==>
              !Visible(s, w.objs, k) && Get(s, w, k).1.error.key == k
  {
    match s
    case Base =>
    case Prefixed(p, inner) => GetExact(inner, w, p + k);
    case Encrypted(_, x, inner) =>
      GetExact(inner, w, k);
      GetExact(inner, Get(inner, w, k).0, k + x);
    case Cleanable(inner) => GetExact(inner, w, k);
  }

  ghost function VisibleKeys(s: Store, objs: map<string, Bytes>, f: Filter): (r: set<string>)
    ensures forall k :: k in r <==> Visible(s, objs, k) && f.matches(k)
  {
    var stripped := set o | o in objs && StartsWith(o, Pre(s)) :: o[|Pre(s)|..];
    forall k | Visible(s, objs, k)
      ensures k in stripped
    {
      VisibleIsProper(s, objs, k);
      assert Full(s, k)[..|Pre(s)|] == Pre(s) && Full(s, k)[|Pre(s)|..] == k;
    }
    set k | k in stripped && Visible(s, objs, k) && f.matches(k)
  }

  lemma StillSorted(kept: seq<string>, candidates: seq<string>)
    requires StrictlySorted(kept + candidates) && candidates != []
    ensures StrictlySorted(kept + [candidates[0]] + candidates[1..])
    ensures StrictlySorted(kept + candidates[1..])
  {
    var all, shorter := kept + candidates, kept + candidates[1..];
    assert all == kept + [candidates[0]] + candidates[1..];
    forall i, j | 0 <= i < j < |shorter|
      ensures Less(shorter[i], shorter[j])
    {
      var i' := if i < |kept| then i else i + 1;
      var j' := if j < |kept| then j else j + 1;
      assert Less(all[i'], all[j']);
    }
  }

  lemma {:induction false} KeepWithHeaderExact(x: string, inner: Store, w: World, candidates: seq<string>,
                                               kept: seq<string>)
    requires StrictlySorted(kept + candidates)
    ensures KeepWithHeader(x, inner, w, candidates, kept).0.objs == w.objs
    ensures var r := KeepWithHeader(x, inner, w, candidates, kept).1;
            r.Ok? ==> StrictlySorted(r.value) &&
                      forall k :: k in r.value <==> k in kept || (k in candidates && Visible(inner, w.objs, k + x))
    decreases |candidates|
  {
    if candidates == [] {
      assert kept + candidates == kept;
    } else {
      var c := candidates[0];
      var (w1, r) := Exists(inner, w, c + x);
      ExistsExact(inner, w, c + x);
      if r.Ok? {
        StillSorted(kept, candidates);
        KeepWithHeaderExact(x, inner, w1, candidates[1..], if r.value then kept + [c] else kept);
        assert forall k :: k in candidates <==> k == c || k in candidates[1..];
      }
    }
  }

  lemma ListPrefixed(p: string, inner: Store, objs: map<string, Bytes>, f: Filter, ks: seq<string>)
    requires HintSound(f)
    requires ks == Listing(VisibleKeys(inner, objs, CombinedPrefixFilter(p, f)))
    ensures Keep(StripAll(p, ks), f.matches) == Listing(VisibleKeys(Prefixed(p, inner), objs, f))
  {
    var stripped := StripAll(p, ks);
    StripSorted(p, ks);
    StripMembers(p, ks);
    KeepSorted(stripped, f.matches);
    KeepMembers(stripped, f.matches);
    forall k | f.matches(k)
      ensures CombinedPrefixFilter(p, f).matches(p + k)
    {
      CombinedKeepsMatches(p, f, k);
    }
    ListingIs(Keep(stripped, f.matches), VisibleKeys(Prefixed(p, inner), objs, f));
  }

  lemma CandidateKeys(x: string, f: Filter, ks: seq<string>)
    requires StrictlySorted(ks)
    ensures var c := Keep(Keep(ks, NotHeader(x)), f.matches);
            StrictlySorted(c) && forall k :: k in c <==> k in ks && !EndsWith(k, x) && f.matches(k)
  {
    var data := Keep(ks, NotHeader(x));
    KeepSorted(ks, NotHeader(x));
    KeepMembers(ks, NotHeader(x));
    KeepSorted(data, f.matches);
    KeepMembers(data, f.matches);
  }

  lemma AllVisible(s: Store, objs: map<string, Bytes>)
    ensures forall k :: k in VisibleKeys(s, objs, SuffixFilter("")) <==> Visible(s, objs, k)
  {
    forall k
      ensures SuffixFilter("").matches(k)
    {
      Everything(k);
    }
  }

  lemma KeptAreVisible(provider: Provider, x: string, inner: Store, objs: map<string, Bytes>, f: Filter,
                       ks: seq<string>, kept: seq<string>)
    requires ks == Listing(VisibleKeys(inner, objs, SuffixFilter("")))
    requires forall k :: k in kept <==> k in ks && !EndsWith(k, x) && f.matches(k) && Visible(inner, objs, k + x)
    ensures forall k :: k in kept <==> k in VisibleKeys(Encrypted(provider, x, inner), objs, f)
  {
    AllVisible(inner, objs);
    forall k
      ensures k in kept <==> k in VisibleKeys(Encrypted(provider, x, inner), objs, f)
    {
      assert k in ks <==> Visible(inner, objs, k);
    }
  }

  lemma ListEncrypted(provider: Provider, x: string, inner: Store, w: World, f: Filter, ks: seq<string>)
    requires ks == Listing(VisibleKeys(inner, w.objs, SuffixFilter("")))
    ensures var (w', r) := KeepWithHeader(x, inner, w, Keep(Keep(ks, NotHeader(x)), f.matches), []);
            w'.objs == w.objs &&
            (r.Ok? ==> r.value == Listing(VisibleKeys(Encrypted(provider, x, inner), w.objs, f)))
  {
    var c := Keep(Keep(ks, NotHeader(x)), f.matches);
    CandidateKeys(x, f, ks);
    assert [] + c == c;
    KeepWithHeaderExact(x, inner, w, c, []);
    var kept := KeepWithHeader(x, inner, w, c, []).1;
    if kept.Ok? {
      KeptAreVisible(provider, x, inner, w.objs, f, ks, kept.value);
      ListingIs(kept.value, VisibleKeys(Encrypted(provider, x, inner), w.objs, f));
    }
  }

  /** `list` returns exactly the visible matching keys, sorted, whenever it returns
      `Ok`: for every stack, every world and every filter honouring its hint. */
  lemma {:induction false} ListExact(s: Store, w: World, f: Filter)
    requires HintSound(f)
    ensures List(s, w, f).0.objs == w.objs
    ensures List(s, w, f).1.Ok? ==> List(s, w, f).1.value == Listing(VisibleKeys(s, w.objs, f))
    decreases s
  {
    match s
    case Base =>
      var found := set k | k in w.objs && Selects(f, k);
      assert found == VisibleKeys(s, w.objs, f);
    case Prefixed(p, inner) =>
      var f' := CombinedPrefixFilter(p, f);
      ListExact(inner, w, f');
      var (_, r) := List(inner, w, f');
      if r.Ok? { ListPrefixed(p, inner, w.objs, f, r.value); }
    case Encrypted(provider, x, inner) =>
      ListExact(inner, w, SuffixFilter(""));
      var (w1, r) := List(inner, w, SuffixFilter(""));
      if r.Ok? { ListEncrypted(provider, x, inner, w1, f, r.value); }
    case Cleanable(inner) =>
      ListExact(inner, w, f);
      assert VisibleKeys(s, w.objs, f) == VisibleKeys(inner, w.objs, f);
  }

  /** `full` is the data object of the visible matching key `k`. */
  ghost predicate Names(s: Store, objs: map<string, Bytes>, f: Filter, full: string, k: string) {
    full == Full(s, k) && Visible(s, objs, k) && f.matches(k)
  }

  ghost predicate ReachesExactly(s: Store, w: World, f: Filter, full: string) {
    var (w', r) := Reach(s, w, f, full);
    && w'.objs == w.objs
    && (r.Ok? && full in w.objs ==> forall k :: r.value == Some(k) <==> Names(s, w.objs, f, full, k))
    && (r.Ok? && r.value.Some? ==> full == Full(s, r.value.value) && f.matches(r.value.value))
  }

  lemma FullPrefixed(p: string, inner: Store, k: string)
    ensures Full(Prefixed(p, inner), k) == Full(inner, p + k)
    ensures StartsWith(p + k, p) && (p + k)[|p|..] == k
  {
    Assoc(Pre(inner), p, k);
    assert (p + k)[..|p|] == p;
  }

  lemma NamesPrefixed(p: string, inner: Store, objs: map<string, Bytes>, f: Filter, full: string, k: string)
    requires HintSound(f) && f.matches(k)
    ensures Names(Prefixed(p, inner), objs, f, full, k) <==> Names(inner, objs, CombinedPrefixFilter(p, f), full, p + k)
  {
    FullPrefixed(p, inner, k);
    CombinedKeepsMatches(p, f, k);
  }

  lemma ReachPrefixed(p: string, inner: Store, w: World, f: Filter, full: string)
    requires HintSound(f) && ReachesExactly(inner, w, CombinedPrefixFilter(p, f), full)
    ensures ReachesExactly(Prefixed(p, inner), w, f, full)
  {
    var s, f' := Prefixed(p, inner), CombinedPrefixFilter(p, f);
    var (_, r) := Reach(inner, w, f', full);
    var (_, r') := Reach(s, w, f, full);
    if r.Ok? {
      if r.value.Some? && StartsWith(r.value.value, p) {
        assert r.value.value == p + r.value.value[|p|..];
        FullPrefixed(p, inner, r.value.value[|p|..]);
      }
      if full in w.objs {
        forall k
          ensures r'.value == Some(k) <==> Names(s, w.objs, f, full, k)
        {
          FullPrefixed(p, inner, k);
          assert r.value == Some(p + k) <==> Names(inner, w.objs, f', full, p + k);
          if f.matches(k) { NamesPrefixed(p, inner, w.objs, f, full, k); }
        }
      }
    }
  }

  lemma ReachEncrypted(provider: Provider, x: string, inner: Store, w: World, f: Filter, full: string)
    requires ReachesExactly(inner, w, SuffixFilter(""), full)
    ensures ReachesExactly(Encrypted(provider, x, inner), w, f, full)
  {
    var all := SuffixFilter("");
    forall k
      ensures all.matches(k) && Full(Encrypted(provider, x, inner), k) == Full(inner, k)
    {
      Everything(k);
    }
    var (w1, r) := Reach(inner, w, all, full);
    if r.Ok? && r.value.Some? {
      ExistsExact(inner, w1, r.value.value + x);
      forall k | Full(inner, k) == full
        ensures k == r.value.value
      {
        assert Full(inner, k)[|Pre(inner)|..] == k;
        assert Full(inner, r.value.value)[|Pre(inner)|..] == r.value.value;
      }
    }
  }

  lemma {:induction false} Reaches(s: Store, w: World, f: Filter, full: string)
    requires HintSound(f)
    ensures ReachesExactly(s, w, f, full)
    decreases s
  {
    match s
    case Base =>
      forall k
        ensures Full(s, k) == k
      {}
    case Prefixed(p, inner) =>
      Reaches(inner, w, CombinedPrefixFilter(p, f), full);
      ReachPrefixed(p, inner, w, f, full);
    case Encrypted(provider, x, inner) =>
      Reaches(inner, w, SuffixFilter(""), full);
      ReachEncrypted(provider, x, inner, w, f, full);
    case Cleanable(inner) =>
      Reaches(inner, w, f, full);
      assert forall k :: Full(s, k) == Full(inner, k);
  }

  /** `visit` forwards a backend object exactly when it is the data object of a
      visible matching key, and then under that logical key. */
  lemma ReachExact(s: Store, w: World, f: Filter, full: string)
    requires HintSound(f)
    ensures Reach(s, w, f, full).0.objs == w.objs
    ensures var r := Reach(s, w, f, full).1;
            r.Ok? && full in w.objs ==>
              forall k :: r.value == Some(k) <==> full == Full(s, k) && Visible(s, w.objs, k) && f.matches(k)
    ensures var r := Reach(s, w, f, full).1;
            r.Ok? && r.value.Some? ==> full == Full(s, r.value.value) && f.matches(r.value.value)
  {
    Reaches(s, w, f, full);
  }
}
