/** What `put` and `delete` do to the backend through every stack of layers. */
module Writes {
  import opened Keys
  import opened Stores
  import opened Layers

  // ---------------------------------------------------------------------------
  // Validation before any write
  // ---------------------------------------------------------------------------

  /** No layer of the stack rejects `k` as invalid input. */
  predicate Accepts(s: Store, k: string) {
    match s
    case Base => Valid(k)
    case Prefixed(p, inner) => PrefixAccepts(p, k) && Accepts(inner, p + k)
    case Encrypted(_, x, inner) => EncryptAccepts(x, k) && Accepts(inner, k) && Accepts(inner, k + x)
    case Cleanable(inner) => Accepts(inner, k)
  }

  predicate AllAccepted(s: Store, ks: seq<string>) {
    forall k :: k in ks ==> Accepts(s, k)
  }

  function Encryptions(s: Store): nat {
    match s
    case Base => 0
    case Prefixed(_, inner) => Encryptions(inner)
    case Encrypted(_, _, inner) => 1 + Encryptions(inner)
    case Cleanable(inner) => Encryptions(inner)
  }

  lemma {:induction false} AcceptsValid(s: Store, k: string)
    requires Accepts(s, k)
    ensures Valid(k)
  {
    if s.Cleanable? { AcceptsValid(s.inner, k); }
  }

  /** Without encryption a stack accepts all valid keys or none of them. */
  lemma {:induction false} AcceptsUniform(s: Store, k: string, k': string)
    requires Encryptions(s) == 0 && Valid(k) && Valid(k')
    ensures Accepts(s, k) <==> Accepts(s, k')
  {
    match s
    case Base =>
    case Prefixed(p, inner) =>
      PrefixedValidity(p, k);
      PrefixedValidity(p, k');
      if GoodPrefix(p) { AcceptsUniform(inner, p + k, p + k'); }
    case Cleanable(inner) => AcceptsUniform(inner, k, k');
  }

  lemma {:induction false} KeysOfMembers(blobs: seq<Blob>)
    ensures forall k :: k in KeysOf(blobs) <==> exists b :: b in blobs && b.key == k
    ensures |KeysOf(blobs)| == |blobs|
  {
    if blobs != [] {
      KeysOfMembers(blobs[1..]);
      forall k
        ensures k in KeysOf(blobs) <==> exists b :: b in blobs && b.key == k
      {
        if k in KeysOf(blobs[1..]) {
          var b :| b in blobs[1..] && b.key == k;
          assert b in blobs;
        }
        assert blobs[0] in blobs;
        assert blobs == [blobs[0]] + blobs[1..];
      }
    }
  }

  lemma KeysOfOne(b: Blob)
    ensures KeysOf([b]) == [b.key]
  {
    assert [b][1..] == [];
  }

  lemma {:induction false} BasePutNotInvalid(w: World, blobs: seq<Blob>, metas: seq<string>)
    ensures BasePutFrom(w, blobs, metas).1 != Err(InvalidInput)
    decreases |blobs|
  {
    if blobs != [] {
      var w1 := Logged(w, PutCall(blobs[0].key, blobs[0].data));
      BasePutNotInvalid(Pop(w1).(objs := w1.objs[blobs[0].key := blobs[0].data]), blobs[1..], metas + [blobs[0].key]);
    }
  }

  lemma AcceptedPrefixed(p: string, inner: Store, blobs: seq<Blob>)
    ensures AllAccepted(Prefixed(p, inner), KeysOf(blobs)) <==>
            (forall b :: b in blobs ==> PrefixAccepts(p, b.key)) &&
            AllAccepted(inner, KeysOf(PrefixBlobs(p, blobs)))
  {
    KeysOfMembers(blobs);
    assert forall b :: b in blobs ==> b.key in KeysOf(blobs);
    KeysOfPrefixed(p, blobs);
    var ks, pks := KeysOf(blobs), AddPrefix(p, KeysOf(blobs));
    forall k | k in ks
      ensures p + k in pks
    {
      var i :| 0 <= i < |ks| && ks[i] == k;
      assert pks[i] in pks;
    }
    forall k' | k' in pks
      ensures exists k :: k in ks && k' == p + k
    {
      var i :| 0 <= i < |pks| && pks[i] == k';
      assert ks[i] in ks;
    }
  }

  /** A batch is rejected as invalid exactly when some layer rejects one of its keys,
      and then nothing has happened: no object changed and no backend call was made.
      This needs at most one encryption layer (see `Builder.NestedPutDestroys`). */
  lemma {:induction false} PutRejects(s: Store, w: World, blobs: seq<Blob>)
    requires Encryptions(s) <= 1
    ensures !AllAccepted(s, KeysOf(blobs)) ==> Put(s, w, blobs) == (w, Err(InvalidInput))
    ensures AllAccepted(s, KeysOf(blobs)) ==> Put(s, w, blobs).1 != Err(InvalidInput)
    decreases s, 0
  {
    KeysOfMembers(blobs);
    assert forall b :: b in blobs ==> b.key in KeysOf(blobs);
    match s
    case Base =>
      BasePutNotInvalid(w, blobs, []);
    case Prefixed(p, inner) =>
      PutRejects(inner, w, PrefixBlobs(p, blobs));
      AcceptedPrefixed(p, inner, blobs);
    case Encrypted(provider, x, inner) =>
      if blobs != [] && forall b :: b in blobs ==> EncryptAccepts(x, b.key) {
        PutEncryptedRejects(provider, x, inner, w, blobs);
      }
    case Cleanable(inner) =>
      PutRejects(inner, w, blobs);
  }

  lemma {:induction false} PutEncryptedRejects(provider: Provider, x: string, inner: Store, w: World, blobs: seq<Blob>)
    requires Encryptions(inner) == 0 && blobs != []
    requires forall b :: b in blobs ==> EncryptAccepts(x, b.key)
    ensures var s := Encrypted(provider, x, inner);
            if AllAccepted(s, KeysOf(blobs)) then
              EncryptedPutFrom(provider, x, inner, w, blobs, []).1 != Err(InvalidInput)
            else EncryptedPutFrom(provider, x, inner, w, blobs, []) == (w, Err(InvalidInput))
    decreases inner, 1
  {
    KeysOfMembers(blobs);
    var b0 := blobs[0];
    assert b0 in blobs;
    forall b | b in blobs
      ensures Accepts(inner, b.key) <==> Accepts(inner, b0.key)
      ensures Accepts(inner, b.key + x) <==> Accepts(inner, b0.key)
    {
      AcceptsUniform(inner, b.key, b0.key);
      AcceptsUniform(inner, b.key + x, b0.key);
    }
    if Accepts(inner, b0.key) {
      PutEncryptedNotInvalid(provider, x, inner, w, blobs, []);
    } else {
      var first := b0.(data := Ciphertext(provider, b0));
      assert KeysOf([first]) == [b0.key];
      PutRejects(inner, w, [first]);
    }
  }

  lemma {:induction false} PutEncryptedNotInvalid(provider: Provider, x: string, inner: Store, w: World,
                                                  blobs: seq<Blob>, metas: seq<string>)
    requires Encryptions(inner) == 0
    requires forall b :: b in blobs ==> Accepts(inner, b.key) && Accepts(inner, b.key + x)
    ensures EncryptedPutFrom(provider, x, inner, w, blobs, metas).1 != Err(InvalidInput)
    decreases inner, 0, |blobs|
  {
    if blobs != [] {
      var b := blobs[0];
      assert b in blobs;
      PutOneNotInvalid(provider, x, inner, w, b);
      var (w1, r) := EncryptedPutOne(provider, x, inner, w, b);
      if r.Ok? {
        PutEncryptedNotInvalid(provider, x, inner, w1, blobs[1..], metas + r.value);
      }
    }
  }

  lemma PutOneNotInvalid(provider: Provider, x: string, inner: Store, w: World, b: Blob)
    requires Encryptions(inner) == 0 && Accepts(inner, b.key) && Accepts(inner, b.key + x)
    ensures EncryptedPutOne(provider, x, inner, w, b).1 != Err(InvalidInput)
  {
    var data := b.(data := Ciphertext(provider, b));
    PutSingleNotInvalid(inner, w, data);
    var (w1, stored) := Put(inner, w, [data]);
    if stored.Ok? && b.sealing.Completes? {
      PutSingleNotInvalid(inner, w1, Blob(b.key + x, provider.seal(b.sealing.nonce, b.data).header, b.sealing));
      assert FinishPut(provider, x, inner, w1, b, stored.value).1 != Err(InvalidInput);
    }
  }

  lemma {:induction false} PutSingleNotInvalid(s: Store, w: World, b: Blob)
    requires Encryptions(s) == 0 && Accepts(s, b.key)
    ensures Put(s, w, [b]).1 != Err(InvalidInput)
    decreases s, 0
  {
    match s
    case Base =>
      BasePutNotInvalid(w, [b], []);
    case Prefixed(p, inner) =>
      assert PrefixBlobs(p, [b]) == [b.(key := p + b.key)];
      PutSingleNotInvalid(inner, w, b.(key := p + b.key));
    case Cleanable(inner) =>
      PutSingleNotInvalid(inner, w, b);
  }

  // ---------------------------------------------------------------------------
  // Whether what is listed can be used
  // ---------------------------------------------------------------------------

  ghost predicate AllKeysValid(objs: map<string, Bytes>) {
    forall o :: o in objs ==> Valid(o)
  }

  predicate DirectoryPrefixes(s: Store) {
    match s
    case Base => true
    case Prefixed(p, inner) => DirectoryPrefix(p) && DirectoryPrefixes(inner)
    case Encrypted(_, _, inner) => DirectoryPrefixes(inner)
    case Cleanable(inner) => DirectoryPrefixes(inner)
  }

  /** Where every prefix is empty or ends in '/', every key the stack shows is one all
      its operations accept. */
  lemma {:induction false} VisibleIsAccepted(s: Store, objs: map<string, Bytes>, k: string)
    requires DirectoryPrefixes(s) && AllKeysValid(objs) && Visible(s, objs, k)
    ensures Accepts(s, k)
  {
    match s
    case Base =>
    case Prefixed(p, inner) =>
      VisibleIsAccepted(inner, objs, p + k);
      AcceptsValid(inner, p + k);
      StrippedValidity(p, k);
    case Encrypted(_, x, inner) =>
      VisibleIsAccepted(inner, objs, k);
      VisibleIsAccepted(inner, objs, k + x);
      AcceptsValid(inner, k);
      AcceptsValid(inner, k + x);
    case Cleanable(inner) => VisibleIsAccepted(inner, objs, k);
  }

  ghost predicate ShowsOnlyAccepted(p: string) {
    forall objs, k :: AllKeysValid(objs) && Visible(Prefixed(p, Base), objs, k) ==> Accepts(Prefixed(p, Base), k)
  }

  /** For other prefixes this fails on some backend, unless the prefix is one under which
      no valid key exists at all. */
  lemma PrefixesThatShow(p: string)
    ensures ShowsOnlyAccepted(p) <==> DirectoryPrefix(p) || !GoodPrefix(p)
  {
    var s := Prefixed(p, Base);
    if DirectoryPrefix(p) {
      forall objs, k | AllKeysValid(objs) && Visible(s, objs, k) { VisibleIsAccepted(s, objs, k); }
    } else if !GoodPrefix(p) {
      forall objs, k | AllKeysValid(objs)
        ensures !Visible(s, objs, k)
      {
        if Visible(Base, objs, p + k) { UsablePrefix(p, k); }
      }
    } else {
      OtherPrefixesLeak(p);
      var objs := map[p + ".." := []];
      assert Visible(Base, objs, p + "..") && !PrefixAccepts(p, "..");
      assert AllKeysValid(objs) && Visible(s, objs, "..") && !Accepts(s, "..");
    }
  }

  // ---------------------------------------------------------------------------
  // What a write may touch
  // ---------------------------------------------------------------------------

  /** Nothing outside the objects owned by `ks` differs. */
  ghost predicate TouchesOnly(s: Store, ks: seq<string>, a: map<string, Bytes>, b: map<string, Bytes>) {
    forall o :: !Owned(s, ks, o) ==> Agree(a, b, o)
  }

  lemma {:induction false} BasePutTouches(w: World, blobs: seq<Blob>, metas: seq<string>)
    ensures TouchesOnly(Base, KeysOf(blobs), w.objs, BasePutFrom(w, blobs, metas).0.objs)
    decreases |blobs|
  {
    if blobs != [] {
      var k := blobs[0].key;
      var w1 := Logged(w, PutCall(k, blobs[0].data));
      var w2 := Pop(w1).(objs := w1.objs[k := blobs[0].data]);
      BasePutTouches(w2, blobs[1..], metas + [k]);
      forall o | !Owned(Base, KeysOf(blobs), o)
        ensures !Owned(Base, KeysOf(blobs[1..]), o) && Agree(w.objs, w2.objs, o)
      {
        assert k in KeysOf(blobs) && k in Owns(Base, k);
      }
    }
  }

  lemma OwnedSubset(s: Store, a: seq<string>, b: seq<string>, o: string)
    requires (forall k :: k in a ==> k in b) && Owned(s, a, o)
    ensures Owned(s, b, o)
  {}

  lemma OwnedPrefixed(p: string, inner: Store, ks: seq<string>, o: string)
    ensures Owned(Prefixed(p, inner), ks, o) <==> Owned(inner, AddPrefix(p, ks), o)
  {
    var s := Prefixed(p, inner);
    if Owned(s, ks, o) {
      var k :| k in ks && o in Owns(s, k);
      var i :| 0 <= i < |ks| && ks[i] == k;
      assert AddPrefix(p, ks)[i] in AddPrefix(p, ks);
    }
    if Owned(inner, AddPrefix(p, ks), o) {
      var k' :| k' in AddPrefix(p, ks) && o in Owns(inner, k');
      var i :| 0 <= i < |ks| && AddPrefix(p, ks)[i] == k';
      assert ks[i] in ks && o in Owns(s, ks[i]);
    }
  }

  lemma {:induction false} WithHeadersMembers(x: string, ks: seq<string>)
    ensures forall k' :: k' in WithHeaders(x, ks) <==> k' in ks || exists k :: k in ks && k' == k + x
  {
    if ks != [] {
      WithHeadersMembers(x, ks[1..]);
      assert ks == [ks[0]] + ks[1..];
      assert ks[0] in ks;
    }
  }

  lemma OwnedEncrypted(provider: Provider, x: string, inner: Store, ks: seq<string>, o: string)
    ensures Owned(Encrypted(provider, x, inner), ks, o) <==> Owned(inner, WithHeaders(x, ks), o)
  {
    var s := Encrypted(provider, x, inner);
    WithHeadersMembers(x, ks);
    if Owned(s, ks, o) {
      var k :| k in ks && o in Owns(s, k);
      assert k in WithHeaders(x, ks) && k + x in WithHeaders(x, ks);
    }
    if Owned(inner, WithHeaders(x, ks), o) {
      var k' :| k' in WithHeaders(x, ks) && o in Owns(inner, k');
      if k' in ks {
        assert o in Owns(s, k');
      } else {
        var k :| k in ks && k' == k + x;
        assert o in Owns(s, k);
      }
    }
  }

  lemma {:induction false} KeysOfPrefixed(p: string, blobs: seq<Blob>)
    ensures KeysOf(PrefixBlobs(p, blobs)) == AddPrefix(p, KeysOf(blobs))
  {
    if blobs != [] { KeysOfPrefixed(p, blobs[1..]); }
  }

  /** Whatever fails, `put` changes only objects owned by keys of the batch. */
  lemma {:induction false} PutTouches(s: Store, w: World, blobs: seq<Blob>)
    ensures TouchesOnly(s, KeysOf(blobs), w.objs, Put(s, w, blobs).0.objs)
    decreases s, 1
  {
    match s
    case Base => BasePutTouches(w, blobs, []);
    case Prefixed(p, inner) =>
      PutTouches(inner, w, PrefixBlobs(p, blobs));
      KeysOfPrefixed(p, blobs);
      forall o { OwnedPrefixed(p, inner, KeysOf(blobs), o); }
    case Encrypted(provider, x, inner) =>
      PutEncryptedTouches(provider, x, inner, w, blobs, []);
    case Cleanable(inner) =>
      PutTouches(inner, w, blobs);
      assert forall o :: Owned(s, KeysOf(blobs), o) <== Owned(inner, KeysOf(blobs), o);
  }

  lemma {:induction false} PutEncryptedTouches(provider: Provider, x: string, inner: Store, w: World,
                                               blobs: seq<Blob>, metas: seq<string>)
    ensures TouchesOnly(Encrypted(provider, x, inner), KeysOf(blobs), w.objs,
                        EncryptedPutFrom(provider, x, inner, w, blobs, metas).0.objs)
    decreases inner, 3, |blobs|
  {
    if blobs != [] {
      var s := Encrypted(provider, x, inner);
      var (w1, r) := EncryptedPutOne(provider, x, inner, w, blobs[0]);
      PutOneTouches(provider, x, inner, w, blobs[0]);
      forall o | !Owned(s, KeysOf(blobs), o)
        ensures !Owned(s, [blobs[0].key], o) && !Owned(s, KeysOf(blobs[1..]), o)
      {
        if Owned(s, [blobs[0].key], o) { OwnedSubset(s, [blobs[0].key], KeysOf(blobs), o); }
        if Owned(s, KeysOf(blobs[1..]), o) { OwnedSubset(s, KeysOf(blobs[1..]), KeysOf(blobs), o); }
      }
      if r.Ok? {
        PutEncryptedTouches(provider, x, inner, w1, blobs[1..], metas + r.value);
      }
    }
  }

  lemma {:induction false} PutOneTouches(provider: Provider, x: string, inner: Store, w: World, b: Blob)
    ensures TouchesOnly(Encrypted(provider, x, inner), [b.key], w.objs,
                        EncryptedPutOne(provider, x, inner, w, b).0.objs)
    decreases inner, 2
  {
    var data := b.(data := Ciphertext(provider, b));
    var (w1, stored) := Put(inner, w, [data]);
    PutTouches(inner, w, [data]);
    assert KeysOf([data]) == [b.key];
    assert WithHeaders(x, [b.key]) == [b.key, b.key + x];
    DeleteTouches(inner, w1, [b.key]);
    if stored.Ok? && b.sealing.Completes? {
      var header := Blob(b.key + x, provider.seal(b.sealing.nonce, b.data).header, b.sealing);
      var (w2, _) := Put(inner, w1, [header]);
      PutTouches(inner, w1, [header]);
      assert KeysOf([header]) == [b.key + x];
      DeleteTouches(inner, w2, [b.key]);
    }
    forall o
      ensures Owned(inner, [b.key], o) || Owned(inner, [b.key + x], o)
              ==> Owned(Encrypted(provider, x, inner), [b.key], o)
    {
      OwnedEncrypted(provider, x, inner, [b.key], o);
      if Owned(inner, [b.key], o) { OwnedSubset(inner, [b.key], WithHeaders(x, [b.key]), o); }
      if Owned(inner, [b.key + x], o) { OwnedSubset(inner, [b.key + x], WithHeaders(x, [b.key]), o); }
    }
  }

  ghost predicate Submap(a: map<string, Bytes>, b: map<string, Bytes>) {
    forall o :: o in a ==> o in b && a[o] == b[o]
  }

  lemma {:induction false} BaseDeleteTouches(w: World, keys: seq<string>, done: seq<string>, failed: seq<string>)
    ensures var objs := BaseDeleteFrom(w, keys, done, failed).0.objs;
            TouchesOnly(Base, keys, w.objs, objs) && Submap(objs, w.objs)
    decreases |keys|
  {
    if keys != [] {
      var k := keys[0];
      var w1 := Pop(w).(objs := w.objs - {k});
      match Head(w) {
        case Fine => BaseDeleteTouches(w1, keys[1..], done + [k], failed);
        case KeyFails => BaseDeleteTouches(Pop(w), keys[1..], done, failed + [k]);
        case CallFails =>
      }
      forall o | !Owned(Base, keys, o)
        ensures !Owned(Base, keys[1..], o) && Agree(w.objs, w1.objs, o)
      {
        assert k in keys && k in Owns(Base, k);
        if Owned(Base, keys[1..], o) { OwnedSubset(Base, keys[1..], keys, o); }
      }
    }
  }

  /** Whatever fails, `delete` only removes objects, and only ones owned by its keys. */
  lemma {:induction false} DeleteTouches(s: Store, w: World, keys: seq<string>)
    ensures TouchesOnly(s, keys, w.objs, Delete(s, w, keys).0.objs)
    ensures Submap(Delete(s, w, keys).0.objs, w.objs)
    decreases s, 0
  {
    match s
    case Base => BaseDeleteTouches(Logged(w, DeleteCall(keys)), keys, [], []);
    case Prefixed(p, inner) =>
      DeleteTouches(inner, w, AddPrefix(p, keys));
      forall o { OwnedPrefixed(p, inner, keys, o); }
    case Encrypted(provider, x, inner) =>
      DeleteTouches(inner, w, WithHeaders(x, keys));
      forall o { OwnedEncrypted(provider, x, inner, keys, o); }
    case Cleanable(inner) =>
      DeleteTouches(inner, w, keys);
      assert forall o :: Owned(s, keys, o) <== Owned(inner, keys, o);
  }

  /** A stack never touches a backend object outside its own prefix. */
  lemma Confined(s: Store, w: World, blobs: seq<Blob>, keys: seq<string>, o: string)
    requires !StartsWith(o, Pre(s))
    ensures Agree(w.objs, Put(s, w, blobs).0.objs, o)
    ensures Agree(w.objs, Delete(s, w, keys).0.objs, o)
  {
    PutTouches(s, w, blobs);
    DeleteTouches(s, w, keys);
    forall k
      ensures o !in Owns(s, k)
    {
      OwnsFull(s, k);
      if o in Owns(s, k) {
        StartsWithShorter(o, Pre(s), k);
      }
    }
  }

  // ---------------------------------------------------------------------------
  // What a put returns
  // ---------------------------------------------------------------------------

  lemma {:induction false} BasePutReturns(w: World, blobs: seq<Blob>, metas: seq<string>)
    ensures BasePutFrom(w, blobs, metas).1.Ok? ==> BasePutFrom(w, blobs, metas).1.value == metas + KeysOf(blobs)
    decreases |blobs|
  {
    if blobs != [] {
      var k := blobs[0].key;
      var w1 := Logged(w, PutCall(k, blobs[0].data));
      BasePutReturns(Pop(w1).(objs := w1.objs[k := blobs[0].data]), blobs[1..], metas + [k]);
      assert metas + [k] + KeysOf(blobs[1..]) == metas + KeysOf(blobs);
    }
  }

  lemma {:induction false} StripAdded(p: string, ks: seq<string>)
    ensures StripEach(p, AddPrefix(p, ks)) == ks
  {
    if ks != [] {
      StripAdded(p, ks[1..]);
      assert (p + ks[0])[..|p|] == p && (p + ks[0])[|p|..] == ks[0];
    }
  }

  lemma PutFromStep(provider: Provider, x: string, inner: Store, w: World, b: Blob, rest: seq<Blob>, metas: seq<string>)
    ensures EncryptedPutFrom(provider, x, inner, w, [b] + rest, metas)
         == (var (w1, r) := EncryptedPutOne(provider, x, inner, w, b);
             if r.Err? then (w1, r) else EncryptedPutFrom(provider, x, inner, w1, rest, metas + r.value))
  {
    assert ([b] + rest)[1..] == rest;
  }

  /** A successful put reports exactly the caller's keys, in the caller's order: no
      prefix and no header key shows. */
  lemma {:induction false} PutReturns(s: Store, w: World, blobs: seq<Blob>)
    ensures Put(s, w, blobs).1.Ok? ==> Put(s, w, blobs).1.value == KeysOf(blobs)
    decreases s, 1
  {
    match s
    case Base => BasePutReturns(w, blobs, []);
    case Prefixed(p, inner) =>
      PutReturns(inner, w, PrefixBlobs(p, blobs));
      KeysOfPrefixed(p, blobs);
      StripAdded(p, KeysOf(blobs));
    case Encrypted(provider, x, inner) =>
      if forall b :: b in blobs ==> EncryptAccepts(x, b.key) {
        PutEncryptedReturns(provider, x, inner, w, blobs, []);
      }
    case Cleanable(inner) => PutReturns(inner, w, blobs);
  }

  lemma {:induction false} PutOneReturns(provider: Provider, x: string, inner: Store, w: World, b: Blob)
    requires EncryptAccepts(x, b.key)
    ensures var r := EncryptedPutOne(provider, x, inner, w, b).1;
            r.Ok? ==> r.value == [b.key]
    decreases inner, 2, 0
  {
    var data := b.(data := Ciphertext(provider, b));
    PutReturns(inner, w, [data]);
    assert KeysOf([data]) == [b.key];
    assert Keep([b.key], NotHeader(x)) == [b.key];
    var (w1, stored) := Put(inner, w, [data]);
    if stored.Ok? {
      var (w2, r) := FinishPut(provider, x, inner, w1, b, stored.value);
      assert r.Ok? ==> r.value == Keep(stored.value, NotHeader(x));
    }
  }

  lemma {:induction false} PutEncryptedReturns(provider: Provider, x: string, inner: Store, w: World,
                                               blobs: seq<Blob>, metas: seq<string>)
    requires forall b :: b in blobs ==> EncryptAccepts(x, b.key)
    ensures var r := EncryptedPutFrom(provider, x, inner, w, blobs, metas).1;
            r.Ok? ==> r.value == metas + KeysOf(blobs)
    decreases inner, 3, |blobs|
  {
    if blobs != [] {
      var b := blobs[0];
      assert b in blobs;
      PutOneReturns(provider, x, inner, w, b);
      var (w1, r) := EncryptedPutOne(provider, x, inner, w, b);
      if r.Ok? {
        Assoc(metas, r.value, KeysOf(blobs[1..]));
        assert KeysOf(blobs) == r.value + KeysOf(blobs[1..]);
        PutEncryptedReturns(provider, x, inner, w1, blobs[1..], metas + r.value);
      }
    }
  }

  // ---------------------------------------------------------------------------
  // Single-object writes through layers without encryption
  // ---------------------------------------------------------------------------

  function Stored(w: World, o: string, data: Bytes): World {
    var w1 := Pop(Logged(w, PutCall(o, data)));
    if Head(w) == Fine then w1.(objs := w.objs[o := data]) else w1
  }

  function Removed(w: World, o: string): World {
    var w1 := Pop(Logged(w, DeleteCall([o])));
    if Head(w) == Fine then w1.(objs := w.objs - {o}) else w1
  }

  lemma BasePutSingle(w: World, b: Blob)
    requires Valid(b.key)
    ensures Put(Base, w, [b]) == (Stored(w, b.key, b.data), if Head(w) == Fine then Ok([b.key]) else Err(Storage))
  {
    assert !exists b' :: b' in [b] && !Valid(b'.key);
    var w1 := Logged(w, PutCall(b.key, b.data));
    var w2 := Pop(w1).(objs := w1.objs[b.key := b.data]);
    assert [b][1..] == [] && [] + [b.key] == [b.key];
    assert BasePutFrom(w2, [], [b.key]) == (w2, Ok([b.key]));
    assert BasePutFrom(w, [b], [])
         == if Head(w1) != Fine then (Pop(w1), Err(Storage)) else BasePutFrom(w2, [], [b.key]);
  }

  lemma BaseDeleteSingle(w: World, k: string)
    requires Valid(k)
    ensures Delete(Base, w, [k]).0 == Removed(w, k)
  {
    assert AllValid([k]);
    var w1 := Logged(w, DeleteCall([k]));
    var w2 := Pop(w1).(objs := w1.objs - {k});
    assert [k][1..] == [];
    assert BaseDeleteFrom(w1, [k], [], []).0
        == match Head(w1)
           case Fine => BaseDeleteFrom(w2, [], [] + [k], []).0
           case KeyFails => BaseDeleteFrom(Pop(w1), [], [], [] + [k]).0
           case CallFails => Pop(w1);
  }

  lemma PutSinglePrefixed(p: string, inner: Store, w: World, b: Blob)
    requires PrefixAccepts(p, b.key)
    requires Put(inner, w, [b.(key := p + b.key)]).1 in {Ok([p + b.key]), Err(Storage)}
    ensures var done := Put(inner, w, [b.(key := p + b.key)]);
            Put(Prefixed(p, inner), w, [b]) == (done.0, if done.1.Ok? then Ok([b.key]) else done.1)
  {
    assert PrefixBlobs(p, [b]) == [b.(key := p + b.key)];
    StripAdded(p, [b.key]);
    assert AddPrefix(p, [b.key]) == [p + b.key];
  }

  lemma {:induction false} PutSingle(s: Store, w: World, b: Blob)
    requires Encryptions(s) == 0 && Accepts(s, b.key)
    ensures Put(s, w, [b]).0 == Stored(w, Full(s, b.key), b.data)
    ensures Put(s, w, [b]).1 == if Head(w) == Fine then Ok([b.key]) else Err(Storage)
  {
    match s
    case Base =>
      assert Full(s, b.key) == b.key;
      BasePutSingle(w, b);
    case Prefixed(p, inner) =>
      var b' := b.(key := p + b.key);
      PutSingle(inner, w, b');
      Assoc(Pre(inner), p, b.key);
      PutSinglePrefixed(p, inner, w, b);
    case Cleanable(inner) =>
      PutSingle(inner, w, b);
  }

  lemma {:induction false} DeleteSingle(s: Store, w: World, k: string)
    requires Encryptions(s) == 0 && Accepts(s, k)
    ensures Delete(s, w, [k]).0 == Removed(w, Full(s, k))
  {
    match s
    case Base =>
      assert Full(s, k) == k;
      BaseDeleteSingle(w, k);
    case Prefixed(p, inner) =>
      assert AddPrefix(p, [k]) == [p + k];
      DeleteSingle(inner, w, p + k);
      assert Full(s, k) == Full(inner, p + k);
    case Cleanable(inner) =>
      DeleteSingle(inner, w, k);
  }
}
