/** The two maintenance tasks on a whole store: cleanup without failures drops the
    matching keys from the map, and re-keying, failing or not, leaves the map alone. */
module MapMaintenance {
  import opened Keys
  import opened Filters
  import opened Stores
  import opened Layers
  import opened Writes
  import opened Sorting
  import opened Cleanup
  import opened MapStore
  import Rekeys

  // ---------------------------------------------------------------------------
  // Names that no layer refuses
  // ---------------------------------------------------------------------------

  /** Whatever key of the stack has its data under the name `o` is accepted. */
  ghost predicate NameAccepted(s: Store, o: string) {
    forall k :: Proper(s, k) && o == Full(s, k) ==> Accepts(s, k)
  }

  /** Every header an encryption layer looks for when a traversal comes to `o` has a name
      accepted beneath it. */
  ghost predicate Probes(s: Store, o: string) {
    match s
    case Base => true
    case Prefixed(_, inner) => Probes(inner, o)
    case Encrypted(_, x, inner) =>
      && Probes(inner, o)
      && forall k :: Proper(inner, k) && !EndsWith(k, x) && o == Full(inner, k) ==> Accepts(inner, k + x)
    case Cleanable(inner) => Probes(inner, o)
  }

  ghost predicate Handled(s: Store, o: string) {
    Probes(s, o) && NameAccepted(s, o)
  }

  ghost predicate AllHandled(s: Store, order: seq<string>) {
    forall o {:trigger Handled(s, o)} :: o in order ==> Handled(s, o)
  }

  lemma {:induction false} FlatNameAccepted(s: Store, k: string)
    requires Encryptions(s) == 0 && DirectoryPrefixes(s) && Valid(Full(s, k))
    ensures Accepts(s, k)
  {
    match s
    case Base => assert Full(s, k) == k;
    case Prefixed(p, inner) =>
      Assoc(Pre(inner), p, k);
      FlatNameAccepted(inner, p + k);
      AcceptsValid(inner, p + k);
      StrippedValidity(p, k);
    case Cleanable(inner) => FlatNameAccepted(inner, k);
  }

  lemma {:induction false} DataNameAccepted(s: Store, k: string)
    requires Encryptions(s) <= 1 && GoodSuffixes(s) && DirectoryPrefixes(s)
    requires Valid(Full(s, k)) && Proper(s, k)
    ensures Accepts(s, k)
  {
    match s
    case Base => assert Full(s, k) == k;
    case Prefixed(p, inner) =>
      Assoc(Pre(inner), p, k);
      DataNameAccepted(inner, p + k);
      AcceptsValid(inner, p + k);
      StrippedValidity(p, k);
    case Encrypted(_, x, inner) =>
      FlatNameAccepted(inner, k);
      RefusedBeneath(x, inner, k);
    case Cleanable(inner) => DataNameAccepted(inner, k);
  }

  lemma {:induction false} HeaderNamesAccepted(s: Store, o: string)
    requires Encryptions(s) <= 1 && GoodSuffixes(s) && DirectoryPrefixes(s) && Valid(o)
    ensures Probes(s, o)
  {
    match s
    case Base =>
    case Prefixed(_, inner) => HeaderNamesAccepted(inner, o);
    case Encrypted(_, x, inner) =>
      HeaderNamesAccepted(inner, o);
      forall k | Proper(inner, k) && !EndsWith(k, x) && o == Full(inner, k)
        ensures Accepts(inner, k + x)
      {
        FlatNameAccepted(inner, k);
        RefusedBeneath(x, inner, k);
      }
    case Cleanable(inner) => HeaderNamesAccepted(inner, o);
  }

  /** A stack of directory prefixes with at most one encryption layer refuses no name on
      a backend of valid keys, whoever wrote the object. */
  lemma NamesAreHandled(s: Store, objs: Contents, order: seq<string>)
    requires Encryptions(s) <= 1 && GoodSuffixes(s) && DirectoryPrefixes(s)
    requires AllKeysValid(objs) && forall o :: o in order ==> o in objs
    ensures AllHandled(s, order)
  {
    forall o | o in order
      ensures Handled(s, o)
    {
      HeaderNamesAccepted(s, o);
      forall k | Proper(s, k) && o == Full(s, k) { DataNameAccepted(s, k); }
    }
  }

  /** `o` belongs to a key the stack accepts. */
  ghost predicate Claimed(s: Store, o: string) {
    exists k :: Accepts(s, k) && o in Owns(s, k)
  }

  lemma ClaimantBeneath(s: Store, o: string, k: string)
    requires Accepts(s, k) && o in Owns(s, k) && !s.Base?
    ensures Claimed(s.inner, o)
  {
    match s
    case Prefixed(p, inner) => assert Accepts(inner, p + k);
    case Encrypted(_, x, inner) => assert Accepts(inner, k) && Accepts(inner, k + x);
    case Cleanable(inner) => assert Accepts(inner, k);
  }

  lemma ClaimedBeneath(s: Store, o: string)
    requires Claimed(s, o) && !s.Base?
    ensures Claimed(s.inner, o)
  {
    var k :| Accepts(s, k) && o in Owns(s, k);
    ClaimantBeneath(s, o, k);
  }

  lemma HeaderOfClaimant(x: string, inner: Store, o: string, k: string, k': string)
    requires Accepts(inner, k) && Accepts(inner, k + x) && (o in Owns(inner, k) || o in Owns(inner, k + x))
    requires Proper(inner, k') && !EndsWith(k', x) && o == Full(inner, k')
    ensures k' == k
  {
    assert EndsWith(k + x, x);
    OwnsFull(inner, k');
    if o in Owns(inner, k) { OwnerIs(inner, k, k', o); } else { OwnerIs(inner, k + x, k', o); }
  }

  lemma {:induction false} ClaimedProbes(s: Store, o: string)
    requires Claimed(s, o)
    ensures Probes(s, o)
  {
    match s
    case Base =>
    case Prefixed(_, inner) =>
      ClaimedBeneath(s, o);
      ClaimedProbes(inner, o);
    case Encrypted(_, x, inner) =>
      ClaimedBeneath(s, o);
      ClaimedProbes(inner, o);
      var k :| Accepts(s, k) && o in Owns(s, k);
      forall k' | Proper(inner, k') && !EndsWith(k', x) && o == Full(inner, k')
        ensures Accepts(inner, k' + x)
      {
        HeaderOfClaimant(x, inner, o, k, k');
      }
    case Cleanable(inner) =>
      ClaimedBeneath(s, o);
      ClaimedProbes(inner, o);
  }

  lemma ClaimedIsHandled(s: Store, o: string)
    requires Claimed(s, o)
    ensures Handled(s, o)
  {
    ClaimedProbes(s, o);
    var k :| Accepts(s, k) && o in Owns(s, k);
    forall k' | Proper(s, k') && o == Full(s, k')
      ensures k' == k
    {
      OwnsFull(s, k');
      OwnerIs(s, k, k', o);
    }
  }

  /** Nor does a stack of any depth refuse a name on a whole backend. */
  lemma WholeIsHandled(s: Store, objs: Contents, order: seq<string>)
    requires Whole(s, objs) && forall o :: o in order ==> o in objs
    ensures AllHandled(s, order)
  {
    forall o | o in order
      ensures Handled(s, o)
    {
      assert HasOwner(s, objs, o);
      var k :| Readable(s, objs, k) && o in Owns(s, k);
      assert Claimed(s, o);
      ClaimedIsHandled(s, o);
    }
  }

  // ---------------------------------------------------------------------------
  // Cleanup without failures
  // ---------------------------------------------------------------------------

  lemma {:induction false} ReachSucceeds(s: Store, w: World, f: Filter, o: string)
    requires HintSound(f) && w.faults == [] && Probes(s, o)
    ensures var (w', r) := Reach(s, w, f, o);
            r.Ok? && w'.faults == []
    decreases s
  {
    match s
    case Base =>
    case Prefixed(p, inner) => ReachSucceeds(inner, w, CombinedPrefixFilter(p, f), o);
    case Encrypted(_, x, inner) =>
      ReachSucceeds(inner, w, SuffixFilter(""), o);
      var (w1, r) := Reach(inner, w, SuffixFilter(""), o);
      if r.value.Some? && !EndsWith(r.value.value, x) {
        ReachExact(inner, w, SuffixFilter(""), o);
        ReachProper(inner, w, SuffixFilter(""), o);
        ExistsSucceeds(inner, w1, r.value.value + x);
      }
    case Cleanable(inner) => ReachSucceeds(inner, w, f, o);
  }

  /** What holds between two visits of a failure-free sweep. */
  ghost predicate Smooth(s: Store, v: Sweep) {
    v.w.faults == [] && AllAccepted(s, v.batch) && Cleared(s, Flat(v.calls), v.w.objs)
  }

  lemma FlushSucceeds(s: Store, v: Sweep)
    requires Smooth(s, v)
    ensures var (v', e) := Flush(s, v);
            e.None? && Smooth(s, v')
  {
    if v.batch != [] {
      DeleteSucceeds(s, v.w, v.batch);
      DeleteTouches(s, v.w, v.batch);
      FlatAppend(v.calls, v.batch);
      forall o { OwnedConcat(s, Flat(v.calls), v.batch, o); }
    }
  }

  lemma VisitSucceeds(s: Store, matches: string -> bool, size: nat, v: Sweep, k: string)
    requires Smooth(s, v) && Accepts(s, k)
    ensures var (v', e) := VisitKey(s, matches, size, v, k);
            e.None? && Smooth(s, v')
  {
    if matches(k) {
      var v1 := v.(batch := v.batch + [k]);
      if |v1.batch| >= size { FlushSucceeds(s, v1); }
    }
  }

  lemma {:induction false} SweepSucceeds(s: Store, matches: string -> bool, size: nat, v: Sweep, order: seq<string>,
                                         stale: string -> bool)
    requires Smooth(s, v) && AllHandled(s, order)
    ensures var (v', e) := SweepFrom(s, matches, size, v, order, stale);
            e.None? && Smooth(s, v')
    decreases |order|
  {
    if order != [] {
      var o := order[0];
      assert Handled(s, o);
      if o !in v.w.objs && !stale(o) {
        SweepSucceeds(s, matches, size, v, order[1..], stale);
      } else {
        PrefixHintSound("");
        ReachSucceeds(s, v.w, PrefixFilter(""), o);
        ReachExact(s, v.w, PrefixFilter(""), o);
        var (w1, r) := Reach(s, v.w, PrefixFilter(""), o);
        var v1 := v.(w := w1);
        if r.value.None? {
          SweepSucceeds(s, matches, size, v1, order[1..], stale);
        } else {
          ReachProper(s, v.w, PrefixFilter(""), o);
          VisitSucceeds(s, matches, size, v1, r.value.value);
          SweepSucceeds(s, matches, size, VisitKey(s, matches, size, v1, r.value.value).0, order[1..], stale);
        }
      }
    }
  }

  function Without(m: Contents, matches: string -> bool): Contents {
    map k | k in m && !matches(k) :: m[k]
  }

  ghost predicate MatchesCleared(s: Store, matches: string -> bool, objs: Contents, objs': Contents) {
    forall k :: matches(k) && Visible(s, objs, k) ==> Cleared(s, [k], objs')
  }

  lemma ShownAfter(s: Store, matches: string -> bool, objs: Contents, objs': Contents, k: string)
    requires OnlyMatches(s, matches, objs, objs') && MatchesCleared(s, matches, objs, objs')
    ensures Visible(s, objs', k) <==> Visible(s, objs, k) && !matches(k)
    ensures Visible(s, objs', k) ==> View(s, objs', k) == View(s, objs, k)
  {
    if Visible(s, objs', k) {
      ViewShrinks(s, objs', objs, k);
      VisibleIsProper(s, objs', k);
      OwnsFull(s, k);
      assert Owned(s, [k], Full(s, k));
    }
    if Visible(s, objs, k) && !matches(k) { Spared(s, matches, objs, objs', k); }
  }

  lemma WholeAfter(s: Store, matches: string -> bool, objs: Contents, objs': Contents)
    requires Whole(s, objs) && OnlyMatches(s, matches, objs, objs') && MatchesCleared(s, matches, objs, objs')
    ensures Whole(s, objs')
  {
    forall o | o in objs'
      ensures HasOwner(s, objs', o)
    {
      assert HasOwner(s, objs, o);
      var k :| Readable(s, objs, k) && o in Owns(s, k);
      assert Owned(s, [k], o);
      ShownAfter(s, matches, objs, objs', k);
      assert Readable(s, objs', k);
    }
  }

  /** When a sweep has ended with all objects of matching keys gone, a whole backend is
      whole again and shows the other keys. */
  lemma FilteredRepresents(s: Store, matches: string -> bool, objs: Contents, objs': Contents, m: Contents)
    requires Represents(s, objs, m) && OnlyMatches(s, matches, objs, objs') && MatchesCleared(s, matches, objs, objs')
    ensures Represents(s, objs', Without(m, matches))
  {
    WholeAfter(s, matches, objs, objs');
    forall k
      ensures k in Without(m, matches) <==> Visible(s, objs', k)
      ensures k in Without(m, matches) ==> Holds(s, objs', k, m[k])
    {
      ShownAfter(s, matches, objs, objs', k);
    }
  }

  lemma Spared(s: Store, matches: string -> bool, objs: Contents, objs': Contents, k: string)
    requires OnlyMatches(s, matches, objs, objs') && !matches(k) && Visible(s, objs, k)
    ensures Visible(s, objs', k) && View(s, objs', k) == View(s, objs, k)
  {
    VisibleIsProper(s, objs, k);
    forall o | o in Owns(s, k)
      ensures Agree(objs, objs', o)
    {
      if o in objs && o !in objs' {
        assert MatchOwns(s, matches, objs, o);
        var k' :| matches(k') && Visible(s, objs, k') && o in Owns(s, k');
        VisibleIsProper(s, objs, k');
        OwnsDisjoint(s, k, k');
      }
    }
    ViewFrame(s, objs, objs', k);
  }

  lemma CleanSucceeds(s: Store, matches: string -> bool, size: nat, w: World, order: seq<string>,
                      stale: string -> bool)
    requires w.faults == [] && AllHandled(s, order)
    ensures var (v, e) := Clean(s, matches, size, w, order, stale);
            e.None? && Smooth(s, v)
  {
    var v0 := Sweep(w, [], 0, []);
    assert Flat([]) == [];
    SweepSucceeds(s, matches, size, v0, order, stale);
    FlushSucceeds(s, SweepFrom(s, matches, size, v0, order, stale).0);
  }

  /** After a successful cleanup every matching key has been in a delete call. */
  lemma TakenAtEnd(s: Store, matches: string -> bool, size: nat, w: World, order: seq<string>, stale: string -> bool)
    requires Distinct(order) && forall o :: o in order <==> o in w.objs
    ensures var (v, e) := Clean(s, matches, size, w, order, stale);
            e.None? ==> forall k :: matches(k) && Visible(s, w.objs, k) ==> k in Flat(v.calls)
  {
    var v0 := Sweep(w, [], 0, []);
    SweptAtStart(s, matches, size, w);
    assert [] + order == order;
    SweepInvariant(s, matches, size, w.objs, v0, [], order, stale);
    var (v1, e1) := SweepFrom(s, matches, size, v0, order, stale);
    if e1.None? {
      FlushSwept(s, matches, size, w.objs, v1, order);
      forall k | matches(k) && Visible(s, w.objs, k)
        ensures k in Taken(v1)
      {
        VisibleIsProper(s, w.objs, k);
      }
    }
  }

  lemma ClearedKey(s: Store, ks: seq<string>, objs: Contents, k: string)
    requires Cleared(s, ks, objs) && k in ks
    ensures Cleared(s, [k], objs)
  {
    forall o | Owned(s, [k], o)
      ensures o !in objs
    {
      OwnedSubset(s, [k], ks, o);
    }
  }

  lemma MatchingKeys(s: Store, objs: Contents, m: Contents, matches: string -> bool)
    requires Represents(s, objs, m)
    ensures VisibleKeys(s, objs, Filter(matches, NoHint)) == set k | k in m && matches(k)
  {}

  /** Exactly the data and header objects of the visible matching keys are gone; orphans
      and everything outside the store's prefix are still there. */
  ghost predicate MatchesGone(s: Store, matches: string -> bool, objs: Contents, objs': Contents) {
    && Submap(objs', objs)
    && forall o {:trigger MatchOwns(s, matches, objs, o)} ::
         o in objs ==> (o in objs' <==> !MatchOwns(s, matches, objs, o))
  }

  lemma ClearedAreGone(s: Store, matches: string -> bool, objs: Contents, objs': Contents)
    requires OnlyMatches(s, matches, objs, objs') && MatchesCleared(s, matches, objs, objs')
    ensures MatchesGone(s, matches, objs, objs')
  {
    forall o | o in objs && MatchOwns(s, matches, objs, o)
      ensures o !in objs'
    {
      var k :| matches(k) && Visible(s, objs, k) && o in Owns(s, k);
      assert Owned(s, [k], o);
    }
  }

  /** Cleanup of any backend with names no layer refuses, orphans included: without
      failures it succeeds and removes the data and header objects of exactly the visible
      matching keys. */
  lemma CleanupClears(s: Store, matches: string -> bool, size: nat, w: World, order: seq<string>,
                      stale: string -> bool)
    requires w.faults == [] && AllHandled(s, order)
    requires Distinct(order) && forall o :: o in order <==> o in w.objs
    ensures var (v, e) := Clean(s, matches, size, w, order, stale);
            && e.None?
            && v.deleted == |VisibleKeys(s, w.objs, Filter(matches, NoHint))|
            && OnlyMatches(s, matches, w.objs, v.w.objs)
            && MatchesCleared(s, matches, w.objs, v.w.objs)
            && MatchesGone(s, matches, w.objs, v.w.objs)
  {
    CleanSucceeds(s, matches, size, w, order, stale);
    CleanupExact(s, matches, size, w, order, stale);
    TakenAtEnd(s, matches, size, w, order, stale);
    var v := Clean(s, matches, size, w, order, stale).0;
    forall k | matches(k) && Visible(s, w.objs, k)
      ensures Cleared(s, [k], v.w.objs)
    {
      ClearedKey(s, Flat(v.calls), v.w.objs, k);
    }
    ClearedAreGone(s, matches, w.objs, v.w.objs);
  }

  /** On a backend shared with others and holding orphans, a stack of directory prefixes
      with at most one encryption layer is cleaned without failing: exactly the objects of
      its matching keys go. */
  lemma CleanupOnShared(s: Store, matches: string -> bool, size: nat, w: World, order: seq<string>,
                        stale: string -> bool)
    requires Encryptions(s) <= 1 && GoodSuffixes(s) && DirectoryPrefixes(s) && AllKeysValid(w.objs)
    requires w.faults == [] && Distinct(order) && forall o :: o in order <==> o in w.objs
    ensures var (v, e) := Clean(s, matches, size, w, order, stale);
            && e.None?
            && v.deleted == |VisibleKeys(s, w.objs, Filter(matches, NoHint))|
            && MatchesGone(s, matches, w.objs, v.w.objs)
  {
    NamesAreHandled(s, w.objs, order);
    CleanupClears(s, matches, size, w, order, stale);
  }

  /** Cleanup of a whole store: it succeeds, counts the matching keys, and leaves the map
      without them. */
  lemma CleanupIsFilter(s: Store, matches: string -> bool, size: nat, w: World, order: seq<string>,
                        stale: string -> bool, m: Contents)
    requires w.faults == [] && Represents(s, w.objs, m)
    requires Distinct(order) && forall o :: o in order <==> o in w.objs
    ensures var (v, e) := Clean(s, matches, size, w, order, stale);
            && e.None?
            && v.deleted == |set k | k in m && matches(k)|
            && Represents(s, v.w.objs, Without(m, matches))
  {
    WholeIsHandled(s, w.objs, order);
    CleanupClears(s, matches, size, w, order, stale);
    MatchingKeys(s, w.objs, m, matches);
    FilteredRepresents(s, matches, w.objs, Clean(s, matches, size, w, order, stale).0.w.objs, m);
  }

  /** Whatever calls fail while re-keying, the store still shows the same map. */
  lemma RekeyKeepsMap(p: Provider, x: string, inner: Store, w: World, order: seq<string>, count: nat, m: Contents)
    requires Lawful(p) && Encryptions(inner) == 0
    requires Represents(Encrypted(p, x, inner), w.objs, m)
    ensures Represents(Encrypted(p, x, inner), Rekeys.RekeyFrom(p, x, inner, w, order, count).0.objs, m)
  {
    var s := Encrypted(p, x, inner);
    var objs' := Rekeys.RekeyFrom(p, x, inner, w, order, count).0.objs;
    Rekeys.RekeyRewraps(p, x, inner, w, order, count);
    forall k
      ensures Visible(s, objs', k) <==> Visible(s, w.objs, k)
      ensures forall data :: Holds(s, w.objs, k, data) ==> Holds(s, objs', k, data)
    {
      Rekeys.RekeyKeepsReadings(p, x, inner, w, order, count, k);
    }
    forall o | o in objs'
      ensures HasOwner(s, objs', o)
    {
      assert HasOwner(s, w.objs, o);
      var k :| Readable(s, w.objs, k) && o in Owns(s, k);
      assert Holds(s, w.objs, k, View(s, w.objs, k).bytes);
      assert Readable(s, objs', k);
    }
  }
}
