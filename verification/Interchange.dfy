/** Encrypting below a prefix and prefixing below encryption are the same store. */
module Interchange {
  import opened Keys
  import opened Filters
  import opened Stores
  import opened Layers
  import opened Writes
  import opened Rekeys
  import opened Sorting
  import M = MapStore

  /** The prefix ends in '/' (or is empty) and the header suffix has no '/'. */
  ghost predicate Separable(p: string, x: string) {
    DirectoryPrefix(p) && SEPARATOR !in x
  }

  // ---------------------------------------------------------------------------
  // Invalid keys reach no backend
  // ---------------------------------------------------------------------------

  lemma {:induction false} GetRejects(s: Store, w: World, k: string)
    requires !Valid(k)
    ensures Get(s, w, k) == (w, Err(InvalidInput))
    ensures Exists(s, w, k) == (w, Err(InvalidInput))
  {
    match s
    case Base =>
    case Prefixed(_, _) =>
    case Encrypted(_, _, inner) => GetRejects(inner, w, k);
    case Cleanable(inner) => GetRejects(inner, w, k);
  }

  lemma {:induction false} DeleteRejects(s: Store, w: World, ks: seq<string>, k: string)
    requires k in ks && !Valid(k)
    ensures Delete(s, w, ks) == (w, Err(InvalidInput))
  {
    match s
    case Base =>
    case Prefixed(_, _) =>
    case Encrypted(_, x, inner) =>
      WithHeadersMembers(x, ks);
      DeleteRejects(inner, w, WithHeaders(x, ks), k);
    case Cleanable(inner) => DeleteRejects(inner, w, ks, k);
  }

  lemma AcceptBoth(p: string, x: string, k: string)
    requires Separable(p, x)
    ensures EncryptAccepts(x, k) && PrefixAccepts(p, k) && PrefixAccepts(p, k + x) <==>
            PrefixAccepts(p, k) && EncryptAccepts(x, p + k)
    ensures EndsWith(p + k, x) <==> EndsWith(k, x)
    ensures PrefixAccepts(p, k + x) <==> Valid(p + k + x)
    ensures EncryptAccepts(x, k) && GoodPrefix(p) ==> PrefixAccepts(p, k) && EncryptAccepts(x, p + k)
    ensures PrefixAccepts(p, k) ==> GoodPrefix(p)
  {
    SuffixIgnoresPrefix(p, k, x);
    assert p + k + x == p + (k + x);
    if Valid(p + (k + x)) { StrippedValidity(p, k + x); }
    if Valid(p + k) { StrippedValidity(p, k); }
    if Valid(k + x) { PrefixedValidity(p, k + x); }
    if Valid(k) { PrefixedValidity(p, k); }
  }

  // ---------------------------------------------------------------------------
  // Reads
  // ---------------------------------------------------------------------------

  /** `get` through both layers, in terms of the store beneath them. */
  function GetThrough(provider: Provider, p: string, x: string, inner: Store, w: World, k: string)
    : (World, Result<Stream>)
  {
    if !PrefixAccepts(p, k) || EndsWith(k, x) then (w, Err(InvalidInput))
    else
      var (w1, data) := Get(inner, w, p + k);
      if data.Err? then (w1, RelabelNotFound(k, data))
      else if !Valid(p + k + x) then (w1, Err(InvalidInput))
      else
        var (w2, header) := Get(inner, w1, p + k + x);
        (w2, DecryptedWith(provider, k, data.value, header))
  }

  lemma GetBelow(provider: Provider, p: string, x: string, inner: Store, w: World, k: string)
    requires Separable(p, x)
    ensures Get(Encrypted(provider, x, Prefixed(p, inner)), w, k) == GetThrough(provider, p, x, inner, w, k)
  {
    AcceptBoth(p, x, k);
    Assoc(p, k, x);
  }

  lemma EncryptedGet(provider: Provider, x: string, inner: Store, w: World, k: string)
    requires !EndsWith(k, x)
    ensures Get(Encrypted(provider, x, inner), w, k)
         == (var (w1, data) := Get(inner, w, k);
             if data.Err? then (w1, RelabelNotFound(k, data))
             else (Get(inner, w1, k + x).0, DecryptedWith(provider, k, data.value, Get(inner, w1, k + x).1)))
  {}

  lemma RelabelTwice(provider: Provider, k: string, k': string, data: Stream, r: Result<Stream>)
    ensures RelabelNotFound(k, RelabelNotFound(k', r)) == RelabelNotFound(k, r)
    ensures RelabelNotFound(k, DecryptedWith(provider, k', data, r)) == DecryptedWith(provider, k, data, r)
  {}

  lemma GetAbove(provider: Provider, p: string, x: string, inner: Store, w: World, k: string)
    requires Separable(p, x)
    ensures Get(Prefixed(p, Encrypted(provider, x, inner)), w, k) == GetThrough(provider, p, x, inner, w, k)
  {
    AcceptBoth(p, x, k);
    if PrefixAccepts(p, k) && !EndsWith(k, x) {
      EncryptedGet(provider, x, inner, w, p + k);
      var (w1, data) := Get(inner, w, p + k);
      RelabelTwice(provider, k, p + k, FailsAtEnd, data);
      if data.Ok? {
        RelabelTwice(provider, k, p + k, data.value, Get(inner, w1, p + k + x).1);
        if !Valid(p + k + x) { GetRejects(inner, w1, p + k + x); }
      }
    }
  }

  lemma GetSame(provider: Provider, p: string, x: string, inner: Store, w: World, k: string)
    requires Separable(p, x)
    ensures Get(Encrypted(provider, x, Prefixed(p, inner)), w, k)
         == Get(Prefixed(p, Encrypted(provider, x, inner)), w, k)
  {
    GetBelow(provider, p, x, inner, w, k);
    GetAbove(provider, p, x, inner, w, k);
  }

  lemma {:induction false} ExistsNeverNotFound(s: Store, w: World, k: string)
    ensures Exists(s, w, k).1.Err? ==> !Exists(s, w, k).1.error.NotFound?
  {
    match s
    case Base =>
    case Prefixed(p, inner) => ExistsNeverNotFound(inner, w, p + k);
    case Encrypted(_, x, inner) =>
      ExistsNeverNotFound(inner, w, k);
      ExistsNeverNotFound(inner, Exists(inner, w, k).0, k + x);
    case Cleanable(inner) => ExistsNeverNotFound(inner, w, k);
  }

  lemma ExistsSame(provider: Provider, p: string, x: string, inner: Store, w: World, k: string)
    requires Separable(p, x)
    ensures Exists(Encrypted(provider, x, Prefixed(p, inner)), w, k)
         == Exists(Prefixed(p, Encrypted(provider, x, inner)), w, k)
  {
    AcceptBoth(p, x, k);
    assert p + k + x == p + (k + x);
    var w1 := Exists(inner, w, p + k).0;
    ExistsNeverNotFound(inner, w, p + k);
    ExistsNeverNotFound(inner, w1, p + k + x);
    if !Valid(p + k + x) { GetRejects(inner, w1, p + k + x); }
  }

  /** Both stacks show the same keys, so their listings agree whenever both succeed. */
  lemma ListSame(provider: Provider, p: string, x: string, inner: Store, w: World, w': World, f: Filter)
    requires Separable(p, x) && HintSound(f) && w.objs == w'.objs
    ensures var a := List(Encrypted(provider, x, Prefixed(p, inner)), w, f).1;
            var b := List(Prefixed(p, Encrypted(provider, x, inner)), w', f).1;
            a.Ok? && b.Ok? ==> a == b
  {
    var l, r := Encrypted(provider, x, Prefixed(p, inner)), Prefixed(p, Encrypted(provider, x, inner));
    ListExact(l, w, f);
    ListExact(r, w', f);
    forall k
      ensures Visible(l, w.objs, k) <==> Visible(r, w.objs, k)
    {
      SuffixIgnoresPrefix(p, k, x);
      assert p + k + x == p + (k + x);
    }
    assert VisibleKeys(l, w.objs, f) == VisibleKeys(r, w.objs, f);
  }

  // ---------------------------------------------------------------------------
  // Put
  // ---------------------------------------------------------------------------

  /** A put of one blob below the prefix, seen from above it. */
  ghost predicate SameUnder(p: string, k: string, a: (World, Result<seq<string>>), b: (World, Result<seq<string>>)) {
    a.0 == b.0 && if b.1.Ok? then b.1.value == [p + k] && a.1 == Ok([k]) else a.1 == b.1
  }

  lemma PutOneSame(provider: Provider, p: string, x: string, inner: Store, w: World, b: Blob)
    requires PrefixAccepts(p, b.key) && PrefixAccepts(p, b.key + x)
    requires EncryptAccepts(x, b.key) && EncryptAccepts(x, p + b.key)
    ensures SameUnder(p, b.key, EncryptedPutOne(provider, x, Prefixed(p, inner), w, b),
                      EncryptedPutOne(provider, x, inner, w, b.(key := p + b.key)))
  {
    var b' := b.(key := p + b.key);
    var data := b.(data := Ciphertext(provider, b));
    assert data.(key := p + data.key) == b'.(data := Ciphertext(provider, b'));
    PrefixedPutSingle(p, inner, w, data);
    var (w1, stored) := Put(Prefixed(p, inner), w, [data]);
    if stored.Ok? {
      FinishSame(provider, p, x, inner, w1, b);
    }
  }

  lemma FinishSame(provider: Provider, p: string, x: string, inner: Store, w: World, b: Blob)
    requires PrefixAccepts(p, b.key) && PrefixAccepts(p, b.key + x)
    requires EncryptAccepts(x, b.key) && EncryptAccepts(x, p + b.key)
    ensures SameUnder(p, b.key, FinishPut(provider, x, Prefixed(p, inner), w, b, [b.key]),
                      FinishPut(provider, x, inner, w, b.(key := p + b.key), [p + b.key]))
  {
    if b.sealing.Breaks? {
      PrefixedDeleteSingle(p, inner, w, b.key);
    } else {
      var header := Blob(b.key + x, provider.seal(b.sealing.nonce, b.data).header, b.sealing);
      Assoc(p, b.key, x);
      PrefixedPutSingle(p, inner, w, header);
      PrefixedDeleteSingle(p, inner, Put(Prefixed(p, inner), w, [header]).0, b.key);
      KeepOwn(x, b.key);
      KeepOwn(x, p + b.key);
    }
  }

  lemma KeepOwn(x: string, k: string)
    requires !EndsWith(k, x)
    ensures Keep([k], NotHeader(x)) == [k]
  {}

  lemma PrefixedPutSingle(p: string, inner: Store, w: World, b: Blob)
    requires PrefixAccepts(p, b.key)
    ensures var (w1, r1) := Put(Prefixed(p, inner), w, [b]);
            var (w2, r2) := Put(inner, w, [b.(key := p + b.key)]);
            w1 == w2 && if r2.Ok? then r1 == Ok([b.key]) && r2 == Ok([p + b.key]) else r1 == r2
  {
    var b' := b.(key := p + b.key);
    assert PrefixBlobs(p, [b]) == [b'];
    PutReturns(inner, w, [b']);
    assert KeysOf([b']) == [p + b.key];
    StripAdded(p, [b.key]);
    assert AddPrefix(p, [b.key]) == [p + b.key];
  }

  lemma PrefixedDeleteSingle(p: string, inner: Store, w: World, k: string)
    requires PrefixAccepts(p, k)
    ensures Delete(Prefixed(p, inner), w, [k]).0 == Delete(inner, w, [p + k]).0
  {
    assert AddPrefix(p, [k]) == [p + k];
  }

  ghost predicate AcceptedBoth(p: string, x: string, blobs: seq<Blob>) {
    forall b :: b in blobs ==>
      PrefixAccepts(p, b.key) && PrefixAccepts(p, b.key + x) && EncryptAccepts(x, b.key) && EncryptAccepts(x, p + b.key)
  }

  /** The two loops end alike. */
  ghost predicate SameFrom(provider: Provider, p: string, x: string, inner: Store, w: World, blobs: seq<Blob>,
                           metas: seq<string>) {
    var (w1, r1) := EncryptedPutFrom(provider, x, Prefixed(p, inner), w, blobs, metas);
    var (w2, r2) := EncryptedPutFrom(provider, x, inner, w, PrefixBlobs(p, blobs), AddPrefix(p, metas));
    w1 == w2 && r1 == if r2.Ok? then Ok(StripEach(p, r2.value)) else r2
  }

  lemma SameOnward(provider: Provider, p: string, x: string, inner: Store, w: World, b: Blob, rest: seq<Blob>,
                   metas: seq<string>)
    requires AcceptedBoth(p, x, [b])
    requires var (w1, r) := EncryptedPutOne(provider, x, Prefixed(p, inner), w, b);
             r.Ok? ==> SameFrom(provider, p, x, inner, w1, rest, metas + [b.key])
    ensures SameFrom(provider, p, x, inner, w, [b] + rest, metas)
  {
    var b' := b.(key := p + b.key);
    assert b in [b];
    assert PrefixBlobs(p, [b] + rest) == [b'] + PrefixBlobs(p, rest);
    assert AddPrefix(p, metas + [b.key]) == AddPrefix(p, metas) + [p + b.key];
    PutFromStep(provider, x, Prefixed(p, inner), w, b, rest, metas);
    PutFromStep(provider, x, inner, w, b', PrefixBlobs(p, rest), AddPrefix(p, metas));
    PutOneSame(provider, p, x, inner, w, b);
  }

  lemma SameAtEnd(provider: Provider, p: string, x: string, inner: Store, w: World, metas: seq<string>)
    ensures SameFrom(provider, p, x, inner, w, [], metas)
  {
    StripAdded(p, metas);
  }

  lemma AcceptedSplits(p: string, x: string, b: Blob, rest: seq<Blob>)
    requires AcceptedBoth(p, x, [b] + rest)
    ensures AcceptedBoth(p, x, [b]) && AcceptedBoth(p, x, rest)
  {
    assert b in [b] + rest;
    assert forall b' :: b' in rest ==> b' in [b] + rest;
  }

  lemma {:induction false} PutFromSame(provider: Provider, p: string, x: string, inner: Store, w: World,
                                       blobs: seq<Blob>, metas: seq<string>)
    requires AcceptedBoth(p, x, blobs)
    ensures SameFrom(provider, p, x, inner, w, blobs, metas)
    decreases |blobs|
  {
    if blobs == [] {
      SameAtEnd(provider, p, x, inner, w, metas);
    } else {
      var b, rest := blobs[0], blobs[1..];
      assert blobs == [b] + rest;
      AcceptedSplits(p, x, b, rest);
      var (w1, r) := EncryptedPutOne(provider, x, Prefixed(p, inner), w, b);
      if r.Ok? { PutFromSame(provider, p, x, inner, w1, rest, metas + [b.key]); }
      SameOnward(provider, p, x, inner, w, b, rest, metas);
    }
  }

  /** The outer prefix layer, when the encryption layer beneath it is unfolded. */
  lemma PutAbove(provider: Provider, p: string, x: string, inner: Store, w: World, blobs: seq<Blob>)
    ensures Put(Prefixed(p, Encrypted(provider, x, inner)), w, blobs)
         == if !PrefixAcceptsBlobs(p, blobs) || !EncryptAcceptsBlobs(x, PrefixBlobs(p, blobs))
            then (w, Err(InvalidInput))
            else var (w1, r) := EncryptedPutFrom(provider, x, inner, w, PrefixBlobs(p, blobs), []);
                 (w1, if r.Ok? then Ok(StripEach(p, r.value)) else r)
  {}

  lemma PutBadPrefix(provider: Provider, p: string, x: string, inner: Store, w: World, blobs: seq<Blob>)
    requires blobs != [] && !PrefixAccepts(p, blobs[0].key)
    ensures EncryptedPutFrom(provider, x, Prefixed(p, inner), w, blobs, []) == (w, Err(InvalidInput))
  {
    var b := blobs[0];
    var data := b.(data := Ciphertext(provider, b));
    assert data in [data] && !PrefixAcceptsBlobs(p, [data]);
    assert EncryptedPutOne(provider, x, Prefixed(p, inner), w, b) == (w, Err(InvalidInput));
  }

  lemma PutSame(provider: Provider, p: string, x: string, inner: Store, w: World, blobs: seq<Blob>)
    requires Separable(p, x)
    ensures Put(Encrypted(provider, x, Prefixed(p, inner)), w, blobs)
         == Put(Prefixed(p, Encrypted(provider, x, inner)), w, blobs)
  {
    PutAbove(provider, p, x, inner, w, blobs);
    BlobsAcceptedBoth(p, x, blobs);
    if EncryptAcceptsBlobs(x, blobs) {
      if GoodPrefix(p) || blobs == [] {
        PutFromSame(provider, p, x, inner, w, blobs, []);
      } else {
        assert blobs[0] in blobs;
        AcceptBoth(p, x, blobs[0].key);
        PutBadPrefix(provider, p, x, inner, w, blobs);
      }
    }
  }

  lemma BlobsAcceptedBoth(p: string, x: string, blobs: seq<Blob>)
    requires Separable(p, x)
    ensures PrefixAcceptsBlobs(p, blobs) && EncryptAcceptsBlobs(x, PrefixBlobs(p, blobs))
            ==> EncryptAcceptsBlobs(x, blobs)
    ensures EncryptAcceptsBlobs(x, blobs) && GoodPrefix(p) ==>
              PrefixAcceptsBlobs(p, blobs) && EncryptAcceptsBlobs(x, PrefixBlobs(p, blobs)) &&
              forall b :: b in blobs ==> PrefixAccepts(p, b.key + x) && EncryptAccepts(x, p + b.key)
    ensures blobs != [] && PrefixAcceptsBlobs(p, blobs) ==> GoodPrefix(p)
  {
    var prefixed := PrefixBlobs(p, blobs);
    forall b | b in blobs
      ensures b.(key := p + b.key) in prefixed
      ensures PrefixAccepts(p, b.key) && EncryptAccepts(x, p + b.key) ==> EncryptAccepts(x, b.key)
      ensures EncryptAccepts(x, b.key) && GoodPrefix(p) ==>
                PrefixAccepts(p, b.key) && PrefixAccepts(p, b.key + x) && EncryptAccepts(x, p + b.key)
    {
      AcceptBoth(p, x, b.key);
      var i :| 0 <= i < |blobs| && blobs[i] == b;
      assert prefixed[i] in prefixed;
    }
    forall b' | b' in prefixed
      ensures exists b :: b in blobs && b' == b.(key := p + b.key)
    {
      var i :| 0 <= i < |prefixed| && prefixed[i] == b';
      assert blobs[i] in blobs;
    }
    if blobs != [] {
      assert blobs[0] in blobs;
      AcceptBoth(p, x, blobs[0].key);
    }
  }

  // ---------------------------------------------------------------------------
  // Delete
  // ---------------------------------------------------------------------------

  ghost predicate Within(ks: seq<string>, r: Result<Unit>) {
    r.Err? && r.error.Batch? ==>
      (forall k :: k in r.error.succeeded ==> k in ks) && (forall k :: k in r.error.errors ==> k in ks)
  }

  lemma {:induction false} BaseDeleteWithin(w: World, ks: seq<string>, done: seq<string>, failed: seq<string>,
                                            all: seq<string>)
    requires forall k :: k in ks || k in done || k in failed ==> k in all
    ensures Within(all, BaseDeleteFrom(w, ks, done, failed).1)
    decreases |ks|
  {
    if ks != [] {
      BaseDeleteWithin(Pop(w).(objs := w.objs - {ks[0]}), ks[1..], done + [ks[0]], failed, all);
      BaseDeleteWithin(Pop(w), ks[1..], done, failed + [ks[0]], all);
    }
  }

  lemma {:induction false} AddPrefixMembers(p: string, ks: seq<string>)
    ensures forall k' :: k' in AddPrefix(p, ks) <==> StartsWith(k', p) && k'[|p|..] in ks
  {
    forall k'
      ensures k' in AddPrefix(p, ks) <==> StartsWith(k', p) && k'[|p|..] in ks
    {
      if k' in AddPrefix(p, ks) {
        var i :| 0 <= i < |ks| && AddPrefix(p, ks)[i] == k';
        assert k'[..|p|] == p && k'[|p|..] == ks[i];
      }
      if StartsWith(k', p) && k'[|p|..] in ks {
        var i :| 0 <= i < |ks| && ks[i] == k'[|p|..];
        assert k' == p + ks[i] == AddPrefix(p, ks)[i];
      }
    }
  }

  lemma {:induction false} StripEachWithin(p: string, ks: seq<string>, es: seq<string>)
    requires forall e :: e in es ==> e in AddPrefix(p, ks)
    ensures forall e :: e in StripEach(p, es) ==> e in ks
  {
    if es != [] {
      AddPrefixMembers(p, ks);
      assert es[0] in es;
      StripEachWithin(p, ks, es[1..]);
    }
  }

  /** A batch error speaks only of the keys the call was given. */
  lemma {:induction false} DeleteWithin(s: Store, w: World, ks: seq<string>)
    ensures Within(ks, Delete(s, w, ks).1)
  {
    match s
    case Base => BaseDeleteWithin(Logged(w, DeleteCall(ks)), ks, [], [], ks);
    case Prefixed(p, inner) =>
      DeleteWithin(inner, w, AddPrefix(p, ks));
      var r := Delete(inner, w, AddPrefix(p, ks)).1;
      if r.Err? && r.error.Batch? {
        StripEachWithin(p, ks, r.error.errors);
        StripMembers(p, r.error.succeeded);
        AddPrefixMembers(p, ks);
        forall k | p + k in r.error.succeeded
          ensures k in ks
        {
          assert (p + k)[|p|..] == k;
        }
      }
    case Encrypted(_, x, inner) =>
      var r := Delete(inner, w, WithHeaders(x, ks)).1;
      if r.Err? && r.error.Batch? {
        KeepMembers(r.error.errors, (k: string) => k in ks);
        KeepMembers(r.error.succeeded, (k: string) => k in ks);
      }
    case Cleanable(inner) => DeleteWithin(inner, w, ks);
  }

  lemma {:induction false} StripKeep(p: string, ks: seq<string>, es: seq<string>, own: string -> bool,
                                     own': string -> bool)
    requires forall e :: e in es ==> StartsWith(e, p) && own'(e) == own(e[|p|..])
    ensures Keep(StripEach(p, es), own) == StripEach(p, Keep(es, own'))
    ensures Keep(StripAll(p, es), own) == StripAll(p, Keep(es, own'))
    ensures Keep(StripEach(p, es), own) == [] <==> Keep(es, own') == []
  {
    if es != [] {
      var e := es[0];
      assert e in es;
      StripKeep(p, ks, es[1..], own, own');
      var rest, rest' := Keep(StripEach(p, es[1..]), own), Keep(es[1..], own');
      assert ([e] + rest')[1..] == rest' && [] + rest' == rest' && [] + rest == rest;
      assert StripEach(p, es)[1..] == StripEach(p, es[1..]);
      assert StripAll(p, es)[1..] == StripAll(p, es[1..]);
    }
  }

  lemma HeadersOfPrefixed(p: string, x: string, ks: seq<string>)
    ensures AddPrefix(p, WithHeaders(x, ks)) == WithHeaders(x, AddPrefix(p, ks))
  {
    if ks != [] {
      HeadersOfPrefixed(p, x, ks[1..]);
      var k := ks[0];
      assert p + k + x == p + (k + x);
      var rest := WithHeaders(x, ks[1..]);
      assert WithHeaders(x, ks)[1..] == [k + x] + rest && ([k + x] + rest)[1..] == rest;
      assert AddPrefix(p, [k + x] + rest) == [p + (k + x)] + AddPrefix(p, rest);
      assert AddPrefix(p, WithHeaders(x, ks)) == [p + k] + ([p + (k + x)] + AddPrefix(p, rest));
    }
  }

  lemma HideStripped(p: string, ks: seq<string>, all: seq<string>, r: Result<Unit>)
    requires Within(AddPrefix(p, all), r)
    ensures HideHeaders(ks, StripBatch(p, r)) == StripBatch(p, HideHeaders(AddPrefix(p, ks), r))
  {
    if r.Err? && r.error.Batch? {
      AddPrefixMembers(p, all);
      AddPrefixMembers(p, ks);
      var own := (k: string) => k in ks;
      var own' := (k: string) => k in AddPrefix(p, ks);
      StripKeep(p, ks, r.error.errors, own, own');
      StripKeep(p, ks, r.error.succeeded, own, own');
    }
  }

  lemma DeleteBelow(provider: Provider, p: string, x: string, inner: Store, w: World, ks: seq<string>)
    ensures Delete(Encrypted(provider, x, Prefixed(p, inner)), w, ks)
         == if !NoHeaderKeys(x, ks) || !PrefixAcceptsAll(p, WithHeaders(x, ks)) then (w, Err(InvalidInput))
            else var (w1, r) := Delete(inner, w, AddPrefix(p, WithHeaders(x, ks)));
                 (w1, HideHeaders(ks, StripBatch(p, r)))
  {}

  lemma DeleteAbove(provider: Provider, p: string, x: string, inner: Store, w: World, ks: seq<string>)
    ensures Delete(Prefixed(p, Encrypted(provider, x, inner)), w, ks)
         == if !PrefixAcceptsAll(p, ks) || !NoHeaderKeys(x, AddPrefix(p, ks)) then (w, Err(InvalidInput))
            else var (w1, r) := Delete(inner, w, WithHeaders(x, AddPrefix(p, ks)));
                 (w1, StripBatch(p, HideHeaders(AddPrefix(p, ks), r)))
  {}

  lemma HeaderKeysBoth(p: string, x: string, ks: seq<string>)
    requires Separable(p, x)
    ensures NoHeaderKeys(x, AddPrefix(p, ks)) <==> NoHeaderKeys(x, ks)
  {
    var pks := AddPrefix(p, ks);
    forall i | 0 <= i < |ks|
      ensures EndsWith(pks[i], x) <==> EndsWith(ks[i], x)
    {
      SuffixIgnoresPrefix(p, ks[i], x);
    }
    if NoHeaderKeys(x, ks) {
      forall k' | k' in pks
        ensures !EndsWith(k', x)
      {
        var i :| 0 <= i < |pks| && pks[i] == k';
        assert ks[i] in ks;
      }
    }
    if NoHeaderKeys(x, pks) {
      forall k | k in ks
        ensures !EndsWith(k, x)
      {
        var i :| 0 <= i < |ks| && ks[i] == k;
        assert pks[i] in pks;
      }
    }
  }

  lemma KeysAcceptedBoth(p: string, x: string, ks: seq<string>)
    requires Separable(p, x)
    ensures PrefixAcceptsAll(p, WithHeaders(x, ks)) <==>
            PrefixAcceptsAll(p, ks) && forall k :: k in ks ==> Valid(p + k + x)
  {
    WithHeadersMembers(x, ks);
    forall k | k in ks
      ensures PrefixAccepts(p, k + x) <==> Valid(p + k + x)
    {
      AcceptBoth(p, x, k);
    }
  }

  lemma DeleteSame(provider: Provider, p: string, x: string, inner: Store, w: World, ks: seq<string>)
    requires Separable(p, x)
    ensures Delete(Encrypted(provider, x, Prefixed(p, inner)), w, ks)
         == Delete(Prefixed(p, Encrypted(provider, x, inner)), w, ks)
  {
    DeleteBelow(provider, p, x, inner, w, ks);
    DeleteAbove(provider, p, x, inner, w, ks);
    HeaderKeysBoth(p, x, ks);
    KeysAcceptedBoth(p, x, ks);
    var full := AddPrefix(p, WithHeaders(x, ks));
    HeadersOfPrefixed(p, x, ks);
    DeleteWithin(inner, w, full);
    HideStripped(p, ks, WithHeaders(x, ks), Delete(inner, w, full).1);
    if k :| k in ks && !Valid(p + k + x) {
      HeaderListed(p, x, ks, k);
      DeleteRejects(inner, w, full, p + k + x);
    }
  }

  lemma HeaderListed(p: string, x: string, ks: seq<string>, k: string)
    requires k in ks
    ensures p + k + x in AddPrefix(p, WithHeaders(x, ks))
  {
    WithHeadersMembers(x, ks);
    AddPrefixMembers(p, WithHeaders(x, ks));
    var h := p + k + x;
    assert h[..|p|] == p && h[|p|..] == k + x;
  }

  // ---------------------------------------------------------------------------
  // Re-keying
  // ---------------------------------------------------------------------------

  lemma VisitSame(provider: Provider, p: string, x: string, inner: Store, w: World, k: string, count: nat)
    requires Separable(p, x) && Encryptions(inner) == 0
    ensures RekeyVisit(provider, Prefixed(p, inner), w, k, count) == RekeyVisit(provider, inner, w, p + k, count)
  {
    if Accepts(inner, p + k) {
      AcceptsValid(inner, p + k);
      StrippedValidity(p, k);
      Assoc(Pre(inner), p, k);
      VisitAccepted(provider, inner, w, p + k, count);
      VisitAccepted(provider, Prefixed(p, inner), w, k, count);
    } else {
      VisitRejected(provider, inner, w, p + k, count);
      VisitRejected(provider, Prefixed(p, inner), w, k, count);
    }
  }

  /** Both traversals come to a header object under its own name. */
  lemma ReachBoth(p: string, x: string, inner: Store, w: World, o: string, k: string)
    requires Separable(p, x) && Encryptions(inner) == 0 && o == Pre(inner) + p + k
    ensures Reach(Prefixed(p, inner), w, SuffixFilter(x), o) == (w, Ok(if EndsWith(k, x) then Some(k) else None))
    ensures Reach(inner, w, SuffixFilter(x), o) == (w, Ok(if EndsWith(k, x) then Some(p + k) else None))
  {
    SuffixHintSound(x);
    Assoc(Pre(inner), p, k);
    assert o[..|Pre(inner)|] == Pre(inner) && o[|Pre(inner)|..] == p + k;
    assert o[..|Pre(inner) + p|] == Pre(inner) + p && o[|Pre(inner) + p|..] == k;
    SuffixIgnoresPrefix(p, k, x);
    ReachFlat(Prefixed(p, inner), w, SuffixFilter(x), o);
    ReachFlat(inner, w, SuffixFilter(x), o);
  }

  /** A header object the inner stack can rewrite, outside the prefix: another tenant's. */
  predicate Foreign(p: string, x: string, inner: Store, o: string) {
    && !StartsWith(o, Pre(inner) + p)
    && IsHeader(inner, x, o) && Accepts(inner, o[|Pre(inner)|..])
  }

  ghost predicate NoneForeign(p: string, x: string, inner: Store, order: seq<string>) {
    forall o :: o in order ==> !Foreign(p, x, inner, o)
  }

  /** Two passes over objects none of which is foreign make the same calls and give the
      same result, whatever fails. */
  lemma {:induction false} RekeySame(provider: Provider, p: string, x: string, inner: Store, w: World,
                                     order: seq<string>, count: nat)
    requires Separable(p, x) && Encryptions(inner) == 0
    requires NoneForeign(p, x, inner, order)
    ensures RekeyFrom(provider, x, Prefixed(p, inner), w, order, count)
         == RekeyFrom(provider, x, inner, w, order, count)
    decreases |order|
  {
    if order != [] && Head(w) == Fine {
      var o, w0 := order[0], Pop(w);
      assert o in order;
      if StartsWith(o, Pre(inner) + p) {
        var k := o[|Pre(inner) + p|..];
        ReachBoth(p, x, inner, w0, o, k);
        VisitSame(provider, p, x, inner, w0, k, count);
        var (w1, r) := if EndsWith(k, x) then RekeyVisit(provider, inner, w0, p + k, count) else (w0, Ok(count));
        if r.Ok? { RekeySame(provider, p, x, inner, w1, order[1..], r.value); }
      } else {
        HeaderReached(Prefixed(p, inner), x, w0, o);
        HeaderReached(inner, x, w0, o);
        if IsHeader(inner, x, o) { VisitRejected(provider, inner, w0, o[|Pre(inner)|..], count); }
        RekeySame(provider, p, x, inner, w0, order[1..], count);
      }
    }
  }

  /** Without failures that condition is exact: with one foreign object in the traversal
      the two passes make different calls. */
  lemma RekeySameExactly(provider: Provider, p: string, x: string, inner: Store, w: World, order: seq<string>,
                         count: nat)
    requires Separable(p, x) && Lawful(provider) && Encryptions(inner) == 0 && w.faults == []
    ensures RekeyFrom(provider, x, Prefixed(p, inner), w, order, count)
         == RekeyFrom(provider, x, inner, w, order, count)
       <==> NoneForeign(p, x, inner, order)
  {
    if NoneForeign(p, x, inner, order) {
      RekeySame(provider, p, x, inner, w, order, count);
    } else {
      var o :| o in order && Foreign(p, x, inner, o);
      RekeyCompletes(provider, x, inner, w, order, count);
      RekeyReads(provider, x, inner, w, order, count, o);
      RekeyCalls(provider, x, Prefixed(p, inner), w, order, count);
      NotCalled(w.log, RekeyFrom(provider, x, Prefixed(p, inner), w, order, count).0.log, Pre(inner) + p, o);
    }
  }

  lemma NotCalled(a: seq<Call>, b: seq<Call>, pre: string, o: string)
    requires CallsUnder(a, b, pre) && !StartsWith(o, pre)
    ensures !Called(a, b, GetCall(o))
  {
  }

  lemma HeaderAcceptedBoth(p: string, x: string, inner: Store, o: string)
    requires Separable(p, x) && StartsWith(o, Pre(inner) + p)
    ensures IsHeader(Prefixed(p, inner), x, o) <==> IsHeader(inner, x, o)
    ensures Accepts(Prefixed(p, inner), o[|Pre(inner) + p|..]) <==> Accepts(inner, o[|Pre(inner)|..])
  {
    var k := o[|Pre(inner) + p|..];
    assert o == Pre(inner) + p + k;
    Assoc(Pre(inner), p, k);
    assert o[..|Pre(inner)|] == Pre(inner) && o[|Pre(inner)|..] == p + k;
    SuffixIgnoresPrefix(p, k, x);
    if Accepts(inner, p + k) {
      AcceptsValid(inner, p + k);
      StrippedValidity(p, k);
    }
  }

  /** Nothing to do at `o` for the one pass means nothing to do for the other, unless the
      object is foreign: that one the prefixed pass leaves alone. */
  lemma SettledBoth(provider: Provider, p: string, x: string, inner: Store, objs: map<string, Bytes>, o: string)
    requires Separable(p, x)
    ensures Settled(provider, x, Prefixed(p, inner), objs, o)
       <==> Settled(provider, x, inner, objs, o) || Foreign(p, x, inner, o)
  {
    if StartsWith(o, Pre(inner) + p) { HeaderAcceptedBoth(p, x, inner, o); }
  }

  ghost predicate ForeignSettled(provider: Provider, p: string, x: string, inner: Store, objs: map<string, Bytes>,
                                 order: seq<string>) {
    forall o :: o in order && Foreign(p, x, inner, o) ==> Settled(provider, x, inner, objs, o)
  }

  /** Calls aside, two failure-free passes leave the same objects and report the same
      count exactly if no foreign header in the traversal needs re-wrapping: the
      encryption layer above the prefix spares it, the one beneath rewrites it. */
  lemma RekeyResultSame(provider: Provider, p: string, x: string, inner: Store, w: World, order: seq<string>)
    requires Separable(p, x) && Lawful(provider) && Encryptions(inner) == 0 && w.faults == []
    requires Distinct(order)
    ensures var (wa, a) := RekeyFrom(provider, x, Prefixed(p, inner), w, order, 0);
            var (wb, b) := RekeyFrom(provider, x, inner, w, order, 0);
            wa.objs == wb.objs && a == b <==> ForeignSettled(provider, p, x, inner, w.objs, order)
  {
    var below := Prefixed(p, inner);
    var (wa, a) := RekeyFrom(provider, x, below, w, order, 0);
    var (wb, b) := RekeyFrom(provider, x, inner, w, order, 0);
    RekeyRewraps(provider, x, below, w, order, 0);
    RekeyRewraps(provider, x, inner, w, order, 0);
    RekeyCounts(provider, x, below, w, order, 0);
    RekeyCounts(provider, x, inner, w, order, 0);
    PassCompletes(provider, x, below, w, order);
    PassCompletes(provider, x, inner, w, order);
    forall o | o in w.objs
      ensures wa.objs[o] == wb.objs[o] <==>
              !(o in order && Foreign(p, x, inner, o) && !Settled(provider, x, inner, w.objs, o))
    {
      RenewedBoth(provider, p, x, inner, w, order, o);
    }
    assert wa.objs == wb.objs <==> forall o :: o in w.objs ==> wa.objs[o] == wb.objs[o];
  }

  lemma PassCompletes(provider: Provider, x: string, inner: Store, w: World, order: seq<string>)
    requires Lawful(provider) && Encryptions(inner) == 0 && w.faults == []
    ensures RekeyFrom(provider, x, inner, w, order, 0).1.Ok?
  {
    if order == [] {
    } else {
      RekeySettles(provider, x, inner, w, order, 0, order[0]);
    }
  }

  lemma RenewedBoth(provider: Provider, p: string, x: string, inner: Store, w: World, order: seq<string>, o: string)
    requires Separable(p, x) && Lawful(provider) && Encryptions(inner) == 0 && w.faults == [] && o in w.objs
    ensures var a := RekeyFrom(provider, x, Prefixed(p, inner), w, order, 0).0.objs;
            var b := RekeyFrom(provider, x, inner, w, order, 0).0.objs;
            o in a && o in b &&
            (a[o] == b[o] <==> !(o in order && Foreign(p, x, inner, o) && !Settled(provider, x, inner, w.objs, o)))
  {
    RekeyRenews(provider, x, Prefixed(p, inner), w, order, 0, o);
    RekeyRenews(provider, x, inner, w, order, 0, o);
    SettledBoth(provider, p, x, inner, w.objs, o);
    assert provider.rewrap(w.objs[o]).Rewrapped? ==> provider.rewrap(provider.rewrap(w.objs[o]).header) == UpToDate;
  }

  lemma ForeignSpared(provider: Provider, p: string, x: string, inner: Store, w: World, o: string)
    requires Encryptions(inner) == 0 && w.faults == [] && Foreign(p, x, inner, o)
    ensures RekeyFrom(provider, x, Prefixed(p, inner), w, [o], 0) == (w, Ok(0))
  {
    HeaderReached(Prefixed(p, inner), x, w, o);
    assert [o][1..] == [];
    assert RekeyFrom(provider, x, Prefixed(p, inner), w, [], 0) == (w, Ok(0));
  }

  /** The smallest case: shown one foreign header that needs re-wrapping, the one pass
      counts nothing and the other counts one and rewrites it. */
  lemma ForeignHeaderRewritten(provider: Provider, p: string, x: string, inner: Store, w: World, o: string)
    requires Encryptions(inner) == 0 && w.faults == []
    requires o in w.objs && Foreign(p, x, inner, o) && provider.rewrap(w.objs[o]).Rewrapped?
    ensures RekeyFrom(provider, x, Prefixed(p, inner), w, [o], 0) == (w, Ok(0))
    ensures var (w', r) := RekeyFrom(provider, x, inner, w, [o], 0);
            r == Ok(1) && w'.objs == w.objs[o := provider.rewrap(w.objs[o]).header]
  {
    ForeignSpared(provider, p, x, inner, w, o);
    HeaderReached(inner, x, w, o);
    VisitAccepted(provider, inner, w, o[|Pre(inner)|..], 0);
    var w1 := FlatVisit(provider, w, o, 0).0;
    assert [o][1..] == [];
    assert RekeyFrom(provider, x, inner, w1, [], 1) == (w1, Ok(1));
  }

  // ---------------------------------------------------------------------------
  // Whole sessions
  // ---------------------------------------------------------------------------

  datatype Request =
    | DoPut(blobs: seq<Blob>)
    | DoGet(key: string)
    | DoDelete(keys: seq<string>)
    | DoExists(key: string)
    | DoRekey(traversal: seq<string>)

  datatype Response =
    | PutDone(result: Result<seq<string>>)
    | GetDone(content: Result<Stream>)
    | DeleteDone(deleted: Result<Unit>)
    | ExistsDone(found: Result<bool>)
    | RekeyDone(rekeyed: Result<nat>)

  /** A traversal presents objects that exist. */
  function Present(w: World, traversal: seq<string>): seq<string> {
    Keep(traversal, (o: string) => o in w.objs)
  }

  /** `s` serves the request; re-keying is done by the encryption layer, over `below`. */
  function Serve(s: Store, provider: Provider, x: string, below: Store, w: World, q: Request): (World, Response) {
    match q
    case DoPut(blobs) => var (w1, r) := Put(s, w, blobs); (w1, PutDone(r))
    case DoGet(k) => var (w1, r) := Get(s, w, k); (w1, GetDone(r))
    case DoDelete(ks) => var (w1, r) := Delete(s, w, ks); (w1, DeleteDone(r))
    case DoExists(k) => var (w1, r) := Exists(s, w, k); (w1, ExistsDone(r))
    case DoRekey(t) => var (w1, r) := RekeyFrom(provider, x, below, w, Present(w, t), 0); (w1, RekeyDone(r))
  }

  function Session(s: Store, provider: Provider, x: string, below: Store, w: World, qs: seq<Request>)
    : (World, seq<Response>)
    decreases |qs|
  {
    if qs == [] then (w, [])
    else
      var (w1, a) := Serve(s, provider, x, below, w, qs[0]);
      var (w2, rest) := Session(s, provider, x, below, w1, qs[1..]);
      (w2, [a] + rest)
  }

  ghost predicate NoForeigners(p: string, x: string, inner: Store, objs: map<string, Bytes>) {
    forall o :: o in objs ==> !Foreign(p, x, inner, o)
  }

  /** No operation through the prefix brings a foreign header into the backend. */
  lemma ServeAddsNoForeigners(provider: Provider, p: string, x: string, inner: Store, w: World, q: Request)
    requires Lawful(provider) && Encryptions(inner) == 0 && NoForeigners(p, x, inner, w.objs)
    ensures var below := Prefixed(p, inner);
            NoForeigners(p, x, inner, Serve(Encrypted(provider, x, below), provider, x, below, w, q).0.objs)
  {
    var below := Prefixed(p, inner);
    var s := Encrypted(provider, x, below);
    var w' := Serve(s, provider, x, below, w, q).0;
    match q
    case DoPut(blobs) =>
      assert Pre(s) == Pre(inner) + p;
      forall o | o in w'.objs && !StartsWith(o, Pre(s))
        ensures o in w.objs
      {
        Confined(s, w, blobs, [], o);
      }
    case DoGet(k) => GetExact(s, w, k);
    case DoDelete(ks) => DeleteTouches(s, w, ks);
    case DoExists(k) => ExistsExact(s, w, k);
    case DoRekey(t) => RekeyRewraps(provider, x, below, w, Present(w, t), 0);
  }

  ghost predicate Rekeying(qs: seq<Request>) {
    exists q :: q in qs && q.DoRekey?
  }

  /** What re-keying asks for; nothing else in a session asks for anything. */
  ghost predicate TenantAlone(provider: Provider, p: string, x: string, inner: Store, w: World) {
    Lawful(provider) && Encryptions(inner) == 0 && NoForeigners(p, x, inner, w.objs)
  }

  lemma ServeSame(provider: Provider, p: string, x: string, inner: Store, w: World, q: Request)
    requires Separable(p, x)
    requires q.DoRekey? ==> TenantAlone(provider, p, x, inner, w)
    ensures Serve(Encrypted(provider, x, Prefixed(p, inner)), provider, x, Prefixed(p, inner), w, q)
         == Serve(Prefixed(p, Encrypted(provider, x, inner)), provider, x, inner, w, q)
  {
    match q
    case DoPut(blobs) => PutSame(provider, p, x, inner, w, blobs);
    case DoGet(k) => GetSame(provider, p, x, inner, w, k);
    case DoDelete(ks) => DeleteSame(provider, p, x, inner, w, ks);
    case DoExists(k) => ExistsSame(provider, p, x, inner, w, k);
    case DoRekey(t) =>
      KeepMembers(t, (o: string) => o in w.objs);
      RekeySame(provider, p, x, inner, w, Present(w, t), 0);
  }

  /** The two stacks answer every session alike and make the same backend calls in the
      same order, whatever fails and whatever else the backend holds (equal worlds
      include equal call logs); only a session that re-keys must not find foreign
      headers there, and `RekeySameExactly` shows that it must not. */
  lemma {:induction false} SessionsSame(provider: Provider, p: string, x: string, inner: Store, w: World,
                                        qs: seq<Request>)
    requires Separable(p, x)
    requires Rekeying(qs) ==> TenantAlone(provider, p, x, inner, w)
    ensures Session(Encrypted(provider, x, Prefixed(p, inner)), provider, x, Prefixed(p, inner), w, qs)
         == Session(Prefixed(p, Encrypted(provider, x, inner)), provider, x, inner, w, qs)
    decreases |qs|
  {
    if qs != [] {
      assert qs[0] in qs;
      ServeSame(provider, p, x, inner, w, qs[0]);
      var w1 := Serve(Encrypted(provider, x, Prefixed(p, inner)), provider, x, Prefixed(p, inner), w, qs[0]).0;
      if Rekeying(qs) { ServeAddsNoForeigners(provider, p, x, inner, w, qs[0]); }
      if Rekeying(qs[1..]) {
        var q :| q in qs[1..] && q.DoRekey?;
        assert q in qs;
      }
      SessionsSame(provider, p, x, inner, w1, qs[1..]);
    }
  }

  // ---------------------------------------------------------------------------
  // Listings too, when nothing fails
  // ---------------------------------------------------------------------------

  lemma SameKeyByKey(provider: Provider, p: string, x: string, inner: Store, objs: map<string, Bytes>, k: string)
    requires Separable(p, x)
    ensures var a, b := Encrypted(provider, x, Prefixed(p, inner)), Prefixed(p, Encrypted(provider, x, inner));
            && (Accepts(a, k) <==> Accepts(b, k)) && Owns(a, k) == Owns(b, k)
            && (Visible(a, objs, k) <==> Visible(b, objs, k))
            && (Visible(a, objs, k) ==> View(a, objs, k) == View(b, objs, k))
  {
    AcceptBoth(p, x, k);
    Assoc(p, k, x);
    if Accepts(inner, p + k + x) { AcceptsValid(inner, p + k + x); }
  }

  lemma RepresentsBoth(provider: Provider, p: string, x: string, inner: Store, objs: map<string, Bytes>,
                       m: map<string, Bytes>)
    requires Separable(p, x)
    requires M.Represents(Encrypted(provider, x, Prefixed(p, inner)), objs, m)
    ensures M.Represents(Prefixed(p, Encrypted(provider, x, inner)), objs, m)
  {
    var a, b := Encrypted(provider, x, Prefixed(p, inner)), Prefixed(p, Encrypted(provider, x, inner));
    forall k
      ensures Visible(a, objs, k) <==> Visible(b, objs, k)
      ensures forall data :: M.Holds(a, objs, k, data) ==> M.Holds(b, objs, k, data)
    {
      SameKeyByKey(provider, p, x, inner, objs, k);
    }
    forall o | o in objs
      ensures M.HasOwner(b, objs, o)
    {
      assert M.HasOwner(a, objs, o);
      var k :| M.Readable(a, objs, k) && o in Owns(a, k);
      SameKeyByKey(provider, p, x, inner, objs, k);
      assert M.Readable(b, objs, k);
    }
  }

  /** Without failures the two stacks answer every history alike, listings included, on
      every backend where the one shows a map. */
  lemma HistoriesSame(provider: Provider, p: string, x: string, inner: Store, w: World, m: map<string, Bytes>,
                      history: seq<M.Action>)
    requires Separable(p, x) && w.faults == []
    requires var a := Encrypted(provider, x, Prefixed(p, inner));
             M.LawfulStack(a) && M.Represents(a, w.objs, m) && M.AllCovered(a, history)
    ensures M.Answers(Encrypted(provider, x, Prefixed(p, inner)), w, history)
         == M.Answers(Prefixed(p, Encrypted(provider, x, inner)), w, history)
  {
    var a, b := Encrypted(provider, x, Prefixed(p, inner)), Prefixed(p, Encrypted(provider, x, inner));
    RepresentsBoth(provider, p, x, inner, w.objs, m);
    forall k
      ensures Accepts(a, k) <==> Accepts(b, k)
    {
      SameKeyByKey(provider, p, x, inner, map[], k);
    }
    forall action | action in history
      ensures M.Covered(b, action)
    {
      assert M.Covered(a, action);
      CoveredBoth(a, b, action);
    }
    M.HistoryFromMap(a, w, m, history);
    M.HistoryFromMap(b, w, m, history);
    MapSame(a, b, m, history);
  }

  lemma CoveredBoth(a: Store, b: Store, action: M.Action)
    requires (forall k :: Accepts(a, k) <==> Accepts(b, k)) && M.Covered(a, action)
    requires Encryptions(a) == Encryptions(b) && (M.GoodSuffixes(a) <==> M.GoodSuffixes(b))
    ensures M.Covered(b, action)
  {
    assert forall ks :: AllAccepted(a, ks) <==> AllAccepted(b, ks);
  }

  /** The map's answers depend on the stack only through the keys it accepts. */
  lemma {:induction false} MapSame(a: Store, b: Store, m: map<string, Bytes>, history: seq<M.Action>)
    requires forall k :: Accepts(a, k) <==> Accepts(b, k)
    ensures M.MapAnswers(a, m, history) == M.MapAnswers(b, m, history)
    decreases |history|
  {
    if history != [] {
      assert forall ks :: AllAccepted(a, ks) <==> AllAccepted(b, ks);
      assert M.MapServe(a, m, history[0]) == M.MapServe(b, m, history[0]);
      MapSame(a, b, M.MapServe(a, m, history[0]).0, history[1..]);
    }
  }
}
