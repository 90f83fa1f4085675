/** When no call fails, a stack of any depth, with any number of prefixes and encryption
    layers, cannot be told from a plain map. */
module MapStore {
  import opened Keys
  import opened Filters
  import opened Stores
  import opened Layers
  import opened Writes

  type Contents = map<string, Bytes>

  ghost predicate LawfulStack(s: Store) {
    match s
    case Base => true
    case Prefixed(_, inner) => LawfulStack(inner)
    case Encrypted(p, _, inner) => Lawful(p) && LawfulStack(inner)
    case Cleanable(inner) => LawfulStack(inner)
  }

  predicate AllComplete(blobs: seq<Blob>) {
    forall b :: b in blobs ==> b.sealing.Completes?
  }

  ghost predicate Holds(s: Store, objs: Contents, k: string, data: Bytes) {
    Visible(s, objs, k) && View(s, objs, k) == Delivers(data)
  }

  /** The data a batch leaves under `k`: that of its last blob with this key. */
  function LastData(blobs: seq<Blob>, k: string): Bytes
    requires k in KeysOf(blobs)
  {
    if k in KeysOf(blobs[1..]) then LastData(blobs[1..], k) else blobs[0].data
  }

  lemma {:induction false} AcceptedIsProper(s: Store, k: string)
    requires Accepts(s, k)
    ensures Proper(s, k)
  {
    match s
    case Base =>
    case Prefixed(p, inner) => AcceptedIsProper(inner, p + k);
    case Encrypted(_, x, inner) =>
      AcceptedIsProper(inner, k);
      AcceptedIsProper(inner, k + x);
    case Cleanable(inner) => AcceptedIsProper(inner, k);
  }

  /** What an operation on `ks` leaves of every other key. */
  lemma OthersKept(s: Store, ks: seq<string>, a: Contents, b: Contents, k: string)
    requires TouchesOnly(s, ks, a, b) && AllAccepted(s, ks) && Proper(s, k) && k !in ks
    ensures Visible(s, a, k) <==> Visible(s, b, k)
    ensures Visible(s, a, k) ==> View(s, a, k) == View(s, b, k)
  {
    forall o | o in Owns(s, k)
      ensures Agree(a, b, o)
    {
      forall k' | k' in ks
        ensures o !in Owns(s, k')
      {
        AcceptedIsProper(s, k');
        OwnsDisjoint(s, k, k');
      }
    }
    ViewFrame(s, a, b, k);
  }

  // ---------------------------------------------------------------------------
  // Put
  // ---------------------------------------------------------------------------

  /** Every blob of the batch is stored and readable. */
  ghost predicate Written(s: Store, blobs: seq<Blob>, objs: Contents) {
    forall k :: k in KeysOf(blobs) ==> Holds(s, objs, k, LastData(blobs, k))
  }

  /** An accepted batch goes through, whatever the providers do. */
  lemma {:induction false} PutCompletes(s: Store, w: World, blobs: seq<Blob>)
    requires AllAccepted(s, KeysOf(blobs)) && AllComplete(blobs) && w.faults == []
    ensures Put(s, w, blobs).1.Ok? && Put(s, w, blobs).0.faults == []
    decreases s, 1
  {
    KeysOfMembers(blobs);
    assert forall b :: b in blobs ==> b.key in KeysOf(blobs);
    match s
    case Base =>
      BasePutWorks(w, blobs, []);
    case Prefixed(p, inner) =>
      AcceptedPrefixed(p, inner, blobs);
      PutCompletes(inner, w, PrefixBlobs(p, blobs));
    case Encrypted(provider, x, inner) =>
      PutEncryptedCompletes(provider, x, inner, w, blobs, []);
    case Cleanable(inner) =>
      PutCompletes(inner, w, blobs);
  }

  lemma {:induction false} PutEncryptedCompletes(provider: Provider, x: string, inner: Store, w: World,
                                                 blobs: seq<Blob>, metas: seq<string>)
    requires AllAccepted(Encrypted(provider, x, inner), KeysOf(blobs)) && AllComplete(blobs) && w.faults == []
    ensures var (w', r) := EncryptedPutFrom(provider, x, inner, w, blobs, metas);
            r.Ok? && w'.faults == []
    decreases inner, 3, |blobs|
  {
    if blobs != [] {
      var b, rest := blobs[0], blobs[1..];
      assert KeysOf(blobs) == [b.key] + KeysOf(rest);
      PutOneCompletes(provider, x, inner, w, b);
      var (w1, r) := EncryptedPutOne(provider, x, inner, w, b);
      PutEncryptedCompletes(provider, x, inner, w1, rest, metas + r.value);
    }
  }

  lemma {:induction false} PutOneCompletes(provider: Provider, x: string, inner: Store, w: World, b: Blob)
    requires Accepts(Encrypted(provider, x, inner), b.key) && b.sealing.Completes? && w.faults == []
    ensures var (w', r) := EncryptedPutOne(provider, x, inner, w, b);
            r.Ok? && w'.faults == []
    decreases inner, 2
  {
    var data := b.(data := Ciphertext(provider, b));
    var header := Blob(b.key + x, provider.seal(b.sealing.nonce, b.data).header, b.sealing);
    KeysOfOne(data);
    KeysOfOne(header);
    PutCompletes(inner, w, [data]);
    var (w1, r1) := Put(inner, w, [data]);
    PutCompletes(inner, w1, [header]);
    assert EncryptedPutOne(provider, x, inner, w, b) == FinishPut(provider, x, inner, w1, b, r1.value);
  }

  ghost predicate PutWorks(s: Store, blobs: seq<Blob>, w: World, r: Result<seq<string>>) {
    r.Ok? && w.faults == [] && Written(s, blobs, w.objs)
  }

  lemma {:induction false} BasePutWorks(w: World, blobs: seq<Blob>, metas: seq<string>)
    requires w.faults == []
    ensures var (w', r) := BasePutFrom(w, blobs, metas);
            && PutWorks(Base, blobs, w', r)
            && forall k :: k !in KeysOf(blobs) ==> Agree(w.objs, w'.objs, k)
    decreases |blobs|
  {
    if blobs != [] {
      var b := blobs[0];
      var w1 := Logged(w, PutCall(b.key, b.data)).(objs := w.objs[b.key := b.data]);
      BasePutWorks(w1, blobs[1..], metas + [b.key]);
      var (w', r) := BasePutFrom(w1, blobs[1..], metas + [b.key]);
      assert BasePutFrom(w, blobs, metas) == (w', r);
      if b.key !in KeysOf(blobs[1..]) { assert Agree(w1.objs, w'.objs, b.key); }
    }
  }

  lemma {:induction false} LastDataPrefixed(p: string, blobs: seq<Blob>, k: string)
    requires k in KeysOf(blobs)
    ensures p + k in KeysOf(PrefixBlobs(p, blobs)) && LastData(PrefixBlobs(p, blobs), p + k) == LastData(blobs, k)
  {
    var rest := blobs[1..];
    assert PrefixBlobs(p, blobs)[1..] == PrefixBlobs(p, rest);
    if k in KeysOf(rest) {
      LastDataPrefixed(p, rest, k);
    } else {
      KeysOfPrefixed(p, rest);
      if p + k in AddPrefix(p, KeysOf(rest)) { PrefixedMember(p, KeysOf(rest), k); }
    }
  }

  lemma PrefixedMember(p: string, ks: seq<string>, k: string)
    requires p + k in AddPrefix(p, ks)
    ensures k in ks
  {
    var i :| 0 <= i < |ks| && AddPrefix(p, ks)[i] == p + k;
    assert (p + k)[|p|..] == k && (p + ks[i])[|p|..] == ks[i];
    assert ks[i] in ks;
  }

  /** Every layer stores every accepted batch. */
  lemma {:induction false} PutSucceeds(s: Store, w: World, blobs: seq<Blob>)
    requires LawfulStack(s) && AllAccepted(s, KeysOf(blobs)) && AllComplete(blobs) && w.faults == []
    ensures PutWorks(s, blobs, Put(s, w, blobs).0, Put(s, w, blobs).1)
    decreases s, 1
  {
    KeysOfMembers(blobs);
    assert forall b :: b in blobs ==> b.key in KeysOf(blobs);
    match s
    case Base =>
      BasePutWorks(w, blobs, []);
    case Prefixed(p, inner) =>
      AcceptedPrefixed(p, inner, blobs);
      PutSucceeds(inner, w, PrefixBlobs(p, blobs));
      forall k | k in KeysOf(blobs) { LastDataPrefixed(p, blobs, k); }
    case Encrypted(provider, x, inner) =>
      PutEncryptedSucceeds(provider, x, inner, w, blobs, []);
    case Cleanable(inner) =>
      PutSucceeds(inner, w, blobs);
  }

  lemma {:induction false} PutEncryptedSucceeds(provider: Provider, x: string, inner: Store, w: World,
                                                blobs: seq<Blob>, metas: seq<string>)
    requires LawfulStack(Encrypted(provider, x, inner)) && AllComplete(blobs) && w.faults == []
    requires AllAccepted(Encrypted(provider, x, inner), KeysOf(blobs))
    ensures var (w', r) := EncryptedPutFrom(provider, x, inner, w, blobs, metas);
            PutWorks(Encrypted(provider, x, inner), blobs, w', r)
    decreases inner, 3, |blobs|
  {
    if blobs != [] {
      var s := Encrypted(provider, x, inner);
      var b, rest := blobs[0], blobs[1..];
      assert KeysOf(blobs) == [b.key] + KeysOf(rest);
      PutOneSucceeds(provider, x, inner, w, b);
      var (w1, r) := EncryptedPutOne(provider, x, inner, w, b);
      PutEncryptedSucceeds(provider, x, inner, w1, rest, metas + r.value);
      PutEncryptedTouches(provider, x, inner, w1, rest, metas + r.value);
      var (w2, _) := EncryptedPutFrom(provider, x, inner, w1, rest, metas + r.value);
      if b.key !in KeysOf(rest) {
        AcceptedIsProper(s, b.key);
        OthersKept(s, KeysOf(rest), w1.objs, w2.objs, b.key);
      }
    }
  }

  lemma HeldAfterPut(s: Store, w: World, b: Blob, k: string, data: Bytes)
    requires Accepts(s, b.key) && Proper(s, k) && k != b.key && Holds(s, w.objs, k, data)
    ensures Holds(s, Put(s, w, [b]).0.objs, k, data)
  {
    PutTouches(s, w, [b]);
    KeysOfOne(b);
    OthersKept(s, [b.key], w.objs, Put(s, w, [b]).0.objs, k);
  }

  lemma PutSingleSucceeds(s: Store, w: World, b: Blob)
    requires PutWorks(s, [b], Put(s, w, [b]).0, Put(s, w, [b]).1)
    ensures Holds(s, Put(s, w, [b]).0.objs, b.key, b.data)
  {
    assert KeysOf([b]) == [b.key];
    assert LastData([b], b.key) == b.data;
    assert b.key in KeysOf([b]);
  }

  lemma PairHolds(provider: Provider, x: string, inner: Store, objs: Contents, k: string, nonce: Bytes, plain: Bytes)
    requires Lawful(provider) && !EndsWith(k, x)
    requires Holds(inner, objs, k, provider.seal(nonce, plain).data)
    requires Holds(inner, objs, k + x, provider.seal(nonce, plain).header)
    ensures Holds(Encrypted(provider, x, inner), objs, k, plain)
  {}

  lemma {:induction false} PutOneSucceeds(provider: Provider, x: string, inner: Store, w: World, b: Blob)
    requires LawfulStack(Encrypted(provider, x, inner)) && b.sealing.Completes? && w.faults == []
    requires Accepts(Encrypted(provider, x, inner), b.key)
    ensures var (w', r) := EncryptedPutOne(provider, x, inner, w, b);
            r.Ok? && w'.faults == [] && Holds(Encrypted(provider, x, inner), w'.objs, b.key, b.data)
    decreases inner, 2
  {
    var sealed := provider.seal(b.sealing.nonce, b.data);
    var data := b.(data := sealed.data);
    var header := Blob(b.key + x, sealed.header, b.sealing);
    KeysOfOne(data);
    KeysOfOne(header);
    PutSucceeds(inner, w, [data]);
    PutSingleSucceeds(inner, w, data);
    var (w1, r1) := Put(inner, w, [data]);
    PutSucceeds(inner, w1, [header]);
    PutSingleSucceeds(inner, w1, header);
    AcceptedIsProper(inner, b.key);
    assert x != "" by { assert b.key[|b.key|..] == ""; }
    HeldAfterPut(inner, w1, header, b.key, sealed.data);
    var (w2, r2) := Put(inner, w1, [header]);
    PairHolds(provider, x, inner, w2.objs, b.key, b.sealing.nonce, b.data);
    assert EncryptedPutOne(provider, x, inner, w, b) == (w2, Ok(Keep(r1.value, NotHeader(x))));
  }

  // ---------------------------------------------------------------------------
  // Delete
  // ---------------------------------------------------------------------------

  ghost predicate Cleared(s: Store, ks: seq<string>, objs: Contents) {
    forall o :: Owned(s, ks, o) ==> o !in objs
  }

  lemma {:induction false} BaseDeleteWorks(w: World, ks: seq<string>, done: seq<string>)
    requires w.faults == []
    ensures var (w', r) := BaseDeleteFrom(w, ks, done, []);
            r == Ok(Unit) && w'.faults == [] && Submap(w'.objs, w.objs) && forall k :: k in ks ==> k !in w'.objs
    decreases |ks|
  {
    if ks != [] {
      BaseDeleteWorks(w.(objs := w.objs - {ks[0]}), ks[1..], done + [ks[0]]);
    }
  }

  /** Every layer deletes every accepted batch: all objects of its keys go, the header
      objects included. */
  lemma {:induction false} DeleteSucceeds(s: Store, w: World, ks: seq<string>)
    requires AllAccepted(s, ks) && w.faults == []
    ensures var (w', r) := Delete(s, w, ks);
            r == Ok(Unit) && w'.faults == [] && Cleared(s, ks, w'.objs)
  {
    match s
    case Base =>
      BaseDeleteWorks(Logged(w, DeleteCall(ks)), ks, []);
    case Prefixed(p, inner) =>
      var pks := AddPrefix(p, ks);
      forall k' | k' in pks
        ensures Accepts(inner, k')
      {
        var i :| 0 <= i < |ks| && pks[i] == k';
        assert ks[i] in ks;
      }
      DeleteSucceeds(inner, w, pks);
      forall o { OwnedPrefixed(p, inner, ks, o); }
    case Encrypted(provider, x, inner) =>
      WithHeadersMembers(x, ks);
      DeleteSucceeds(inner, w, WithHeaders(x, ks));
      forall o { OwnedEncrypted(provider, x, inner, ks, o); }
    case Cleanable(inner) =>
      DeleteSucceeds(inner, w, ks);
      forall o | Owned(s, ks, o)
        ensures Owned(inner, ks, o)
      {}
  }

  /** What a prefix layer lets pass but the stack refuses is refused beneath it. */
  lemma RefusedUnderPrefix(p: string, inner: Store, ks: seq<string>)
    requires PrefixAcceptsAll(p, ks) && !AllAccepted(Prefixed(p, inner), ks)
    ensures !AllAccepted(inner, AddPrefix(p, ks))
  {
    var k :| k in ks && !Accepts(Prefixed(p, inner), k);
    var i :| 0 <= i < |ks| && ks[i] == k;
    assert AddPrefix(p, ks)[i] in AddPrefix(p, ks);
  }

  /** Likewise what an encryption layer lets pass. */
  lemma RefusedUnderEncryption(provider: Provider, x: string, inner: Store, ks: seq<string>)
    requires NoHeaderKeys(x, ks) && !AllAccepted(Encrypted(provider, x, inner), ks)
    ensures !AllAccepted(inner, WithHeaders(x, ks))
  {
    var k :| k in ks && !Accepts(Encrypted(provider, x, inner), k);
    WithHeadersMembers(x, ks);
    if Accepts(inner, k) && Accepts(inner, k + x) {
      AcceptsValid(inner, k);
      AcceptsValid(inner, k + x);
    }
  }

  /** A batch with a key some layer rejects deletes nothing, at any depth. */
  lemma {:induction false} DeleteRejectsAll(s: Store, w: World, ks: seq<string>)
    requires !AllAccepted(s, ks)
    ensures Delete(s, w, ks) == (w, Err(InvalidInput))
  {
    match s
    case Base =>
    case Prefixed(p, inner) =>
      if PrefixAcceptsAll(p, ks) {
        RefusedUnderPrefix(p, inner, ks);
        DeleteRejectsAll(inner, w, AddPrefix(p, ks));
      }
    case Encrypted(provider, x, inner) =>
      if NoHeaderKeys(x, ks) {
        RefusedUnderEncryption(provider, x, inner, ks);
        DeleteRejectsAll(inner, w, WithHeaders(x, ks));
      }
    case Cleanable(inner) => DeleteRejectsAll(inner, w, ks);
  }

  // ---------------------------------------------------------------------------
  // Whole backends: every object belongs to a readable key
  // ---------------------------------------------------------------------------

  ghost predicate Readable(s: Store, objs: Contents, k: string) {
    Accepts(s, k) && Visible(s, objs, k) && View(s, objs, k).Delivers?
  }

  ghost predicate HasOwner(s: Store, objs: Contents, o: string) {
    exists k :: Readable(s, objs, k) && o in Owns(s, k)
  }

  /** No orphans, no headers without data, nothing outside the prefix. */
  ghost predicate Whole(s: Store, objs: Contents) {
    forall o {:trigger HasOwner(s, objs, o)} :: o in objs ==> HasOwner(s, objs, o)
  }

  lemma ReadableBeneath(s: Store, objs: Contents, k: string, o: string)
    requires Readable(s, objs, k) && o in Owns(s, k) && !s.Base?
    ensures HasOwner(s.inner, objs, o)
  {
    match s
    case Prefixed(p, inner) =>
      assert Readable(inner, objs, p + k);
    case Encrypted(_, x, inner) =>
      assert Readable(inner, objs, k) && Readable(inner, objs, k + x);
    case Cleanable(inner) =>
      assert Readable(inner, objs, k);
  }

  lemma WholeBeneath(s: Store, objs: Contents)
    requires Whole(s, objs) && !s.Base?
    ensures Whole(s.inner, objs)
  {
    forall o | o in objs
      ensures HasOwner(s.inner, objs, o)
    {
      assert HasOwner(s, objs, o);
      var k :| Readable(s, objs, k) && o in Owns(s, k);
      ReadableBeneath(s, objs, k, o);
    }
  }

  lemma OwnerIs(s: Store, k: string, k': string, o: string)
    requires Accepts(s, k) && Proper(s, k') && o in Owns(s, k) && o in Owns(s, k')
    ensures k == k'
  {
    AcceptedIsProper(s, k);
    if k != k' { OwnsDisjoint(s, k, k'); }
  }

  /** In a whole backend a visible key is accepted and readable. */
  lemma VisibleIsReadable(s: Store, objs: Contents, k: string)
    requires Whole(s, objs) && Visible(s, objs, k)
    ensures Readable(s, objs, k)
  {
    VisibleIsProper(s, objs, k);
    OwnsFull(s, k);
    assert HasOwner(s, objs, Full(s, k));
    var k' :| Readable(s, objs, k') && Full(s, k) in Owns(s, k');
    OwnerIs(s, k', k, Full(s, k));
  }

  /** A key visible beneath an encryption layer of a whole backend is that of a header or
      of a readable blob of the layer. */
  lemma DataOrHeader(p: Provider, x: string, inner: Store, objs: Contents, k: string)
    requires Whole(Encrypted(p, x, inner), objs) && Visible(inner, objs, k)
    ensures EndsWith(k, x) || Readable(Encrypted(p, x, inner), objs, k)
  {
    var s := Encrypted(p, x, inner);
    VisibleIsProper(inner, objs, k);
    OwnsFull(inner, k);
    var o := Full(inner, k);
    assert HasOwner(s, objs, o);
    var k' :| Readable(s, objs, k') && o in Owns(s, k');
    assert EndsWith(k' + x, x);
    if o in Owns(inner, k') { OwnerIs(inner, k', k, o); } else { OwnerIs(inner, k' + x, k, o); }
  }

  // ---------------------------------------------------------------------------
  // Reads
  // ---------------------------------------------------------------------------

  lemma {:induction false} ExistsSucceeds(s: Store, w: World, k: string)
    requires Accepts(s, k) && w.faults == []
    ensures Exists(s, w, k).1 == Ok(Visible(s, w.objs, k)) && Exists(s, w, k).0.faults == []
  {
    match s
    case Base =>
    case Prefixed(p, inner) => ExistsSucceeds(inner, w, p + k);
    case Encrypted(_, x, inner) =>
      ExistsSucceeds(inner, w, k);
      ExistsExact(inner, w, k);
      ExistsSucceeds(inner, Exists(inner, w, k).0, k + x);
    case Cleanable(inner) => ExistsSucceeds(inner, w, k);
  }

  lemma {:induction false} GetSucceeds(s: Store, w: World, k: string, data: Bytes)
    requires Accepts(s, k) && w.faults == [] && Holds(s, w.objs, k, data)
    ensures Get(s, w, k).1 == Ok(Delivers(data)) && Get(s, w, k).0.faults == []
  {
    match s
    case Base =>
    case Prefixed(p, inner) => GetSucceeds(inner, w, p + k, data);
    case Encrypted(provider, x, inner) =>
      var cipher, header := View(inner, w.objs, k), View(inner, w.objs, k + x);
      assert header.Delivers? && cipher.Delivers?;
      GetSucceeds(inner, w, k, cipher.bytes);
      GetExact(inner, w, k);
      GetSucceeds(inner, Get(inner, w, k).0, k + x, header.bytes);
    case Cleanable(inner) => GetSucceeds(inner, w, k, data);
  }

  lemma {:induction false} GetMisses(s: Store, w: World, k: string)
    requires Accepts(s, k) && w.faults == [] && Whole(s, w.objs) && !Visible(s, w.objs, k)
    ensures Get(s, w, k).1 == Err(NotFound(k)) && Get(s, w, k).0.faults == []
  {
    match s
    case Base =>
    case Prefixed(p, inner) =>
      WholeBeneath(s, w.objs);
      GetMisses(inner, w, p + k);
    case Encrypted(provider, x, inner) =>
      WholeBeneath(s, w.objs);
      if Visible(inner, w.objs, k) { DataOrHeader(provider, x, inner, w.objs, k); }
      GetMisses(inner, w, k);
    case Cleanable(inner) =>
      WholeBeneath(s, w.objs);
      GetMisses(inner, w, k);
  }

  /** Every header on the way to `k` can be read to its end. */
  ghost predicate HeadersRead(s: Store, objs: Contents, k: string)
    requires Visible(s, objs, k)
  {
    match s
    case Base => true
    case Prefixed(p, inner) => HeadersRead(inner, objs, p + k)
    case Encrypted(_, x, inner) =>
      HeadersRead(inner, objs, k) && HeadersRead(inner, objs, k + x) && View(inner, objs, k + x).Delivers?
    case Cleanable(inner) => HeadersRead(inner, objs, k)
  }

  /** What `get` answers without failures, on any backend: the stream of a visible key, even
      one that will break, but an error already if a header does. */
  lemma {:induction false} GetAnswers(s: Store, w: World, k: string)
    requires Accepts(s, k) && w.faults == []
    ensures Get(s, w, k).0.faults == [] && Get(s, w, k).0.objs == w.objs
    ensures Visible(s, w.objs, k) ==>
              Get(s, w, k).1 == if HeadersRead(s, w.objs, k) then Ok(View(s, w.objs, k)) else Err(Storage)
    ensures !Visible(s, w.objs, k) && Encryptions(s) <= 1 ==> Get(s, w, k).1 == Err(NotFound(k))
  {
    match s
    case Base =>
    case Prefixed(p, inner) => GetAnswers(inner, w, p + k);
    case Encrypted(_, x, inner) =>
      GetAnswers(inner, w, k);
      GetAnswers(inner, Get(inner, w, k).0, k + x);
      if Encryptions(inner) == 0 { FlatHeaders(inner, w.objs, k); }
    case Cleanable(inner) => GetAnswers(inner, w, k);
  }

  lemma {:induction false} FlatHeaders(s: Store, objs: Contents, k: string)
    requires Encryptions(s) == 0
    ensures Visible(s, objs, k) ==> HeadersRead(s, objs, k)
  {
    match s
    case Base =>
    case Prefixed(p, inner) => FlatHeaders(inner, objs, p + k);
    case Cleanable(inner) => FlatHeaders(inner, objs, k);
  }

  /** No header suffix of the stack is one that makes every header key invalid. */
  predicate GoodSuffixes(s: Store) {
    match s
    case Base => true
    case Prefixed(_, inner) => GoodSuffixes(inner)
    case Encrypted(_, x, inner) => GoodSuffix(x) && GoodSuffixes(inner)
    case Cleanable(inner) => GoodSuffixes(inner)
  }

  /** With at most one encryption layer, reads of a key some layer refuses are refused
      before any backend call. */
  lemma {:induction false} ReadsReject(s: Store, w: World, k: string)
    requires Encryptions(s) <= 1 && GoodSuffixes(s) && !Accepts(s, k)
    ensures Get(s, w, k) == (w, Err(InvalidInput)) && Exists(s, w, k) == (w, Err(InvalidInput))
  {
    match s
    case Base =>
    case Prefixed(p, inner) =>
      if PrefixAccepts(p, k) { ReadsReject(inner, w, p + k); }
    case Encrypted(_, x, inner) =>
      if !EndsWith(k, x) {
        if Accepts(inner, k) { RefusedBeneath(x, inner, k); }
        ReadsReject(inner, w, k);
      }
    case Cleanable(inner) => ReadsReject(inner, w, k);
  }

  lemma RefusedBeneath(x: string, inner: Store, k: string)
    requires Encryptions(inner) == 0 && GoodSuffix(x) && Accepts(inner, k)
    ensures EncryptAccepts(x, k) <==> !EndsWith(k, x)
    ensures Accepts(inner, k + x)
  {
    AcceptsValid(inner, k);
    SuffixedValidity(k, x);
    AcceptsUniform(inner, k, k + x);
  }

  lemma {:induction false} HeadersProbed(x: string, inner: Store, w: World, candidates: seq<string>, kept: seq<string>)
    requires w.faults == [] && forall k :: k in candidates ==> Accepts(inner, k + x)
    ensures var (w', r) := KeepWithHeader(x, inner, w, candidates, kept);
            r.Ok? && w'.faults == []
    decreases |candidates|
  {
    if candidates != [] {
      assert candidates[0] in candidates;
      ExistsSucceeds(inner, w, candidates[0] + x);
      var (w1, r) := Exists(inner, w, candidates[0] + x);
      HeadersProbed(x, inner, w1, candidates[1..], if r.value then kept + [candidates[0]] else kept);
    }
  }

  lemma {:induction false} ListSucceeds(s: Store, w: World, f: Filter)
    requires HintSound(f) && w.faults == [] && Whole(s, w.objs)
    ensures List(s, w, f).1 == Ok(Listing(VisibleKeys(s, w.objs, f))) && List(s, w, f).0.faults == []
    decreases s
  {
    ListExact(s, w, f);
    match s
    case Base =>
    case Prefixed(p, inner) =>
      WholeBeneath(s, w.objs);
      ListSucceeds(inner, w, CombinedPrefixFilter(p, f));
    case Encrypted(provider, x, inner) =>
      WholeBeneath(s, w.objs);
      ListSucceeds(inner, w, SuffixFilter(""));
      ListExact(inner, w, SuffixFilter(""));
      var (w1, r) := List(inner, w, SuffixFilter(""));
      var candidates := Keep(Keep(r.value, NotHeader(x)), f.matches);
      CandidateKeys(x, f, r.value);
      forall k | k in candidates
        ensures Accepts(inner, k + x)
      {
        DataOrHeader(provider, x, inner, w.objs, k);
      }
      HeadersProbed(x, inner, w1, candidates, []);
    case Cleanable(inner) =>
      WholeBeneath(s, w.objs);
      ListSucceeds(inner, w, f);
  }

  /** Nor do orphans or the objects of others keep a listing from succeeding, where every
      prefix is empty or ends in '/' and there is at most one encryption layer. */
  lemma {:induction false} ListOnShared(s: Store, w: World, f: Filter)
    requires Encryptions(s) <= 1 && GoodSuffixes(s) && DirectoryPrefixes(s) && AllKeysValid(w.objs)
    requires HintSound(f) && w.faults == []
    ensures List(s, w, f).1 == Ok(Listing(VisibleKeys(s, w.objs, f))) && List(s, w, f).0.faults == []
    decreases s
  {
    ListExact(s, w, f);
    match s
    case Base =>
    case Prefixed(p, inner) => ListOnShared(inner, w, CombinedPrefixFilter(p, f));
    case Encrypted(_, x, inner) =>
      ListOnShared(inner, w, SuffixFilter(""));
      ListExact(inner, w, SuffixFilter(""));
      var (w1, r) := List(inner, w, SuffixFilter(""));
      var candidates := Keep(Keep(r.value, NotHeader(x)), f.matches);
      CandidateKeys(x, f, r.value);
      forall k | k in candidates
        ensures Accepts(inner, k + x)
      {
        VisibleIsAccepted(inner, w.objs, k);
        RefusedBeneath(x, inner, k);
      }
      HeadersProbed(x, inner, w1, candidates, []);
    case Cleanable(inner) => ListOnShared(inner, w, f);
  }

  // ---------------------------------------------------------------------------
  // The refinement
  // ---------------------------------------------------------------------------

  /** The store is whole and shows exactly the entries of `m`. */
  ghost predicate Represents(s: Store, objs: Contents, m: Contents) {
    && Whole(s, objs)
    && (forall k :: k in m <==> Visible(s, objs, k))
    && (forall k :: k in m ==> Holds(s, objs, k, m[k]))
  }

  datatype Action =
    | PutAll(blobs: seq<Blob>)
    | Remove(keys: seq<string>)
    | Fetch(key: string)
    | Check(key: string)
    | Enumerate(filter: Filter)

  datatype Answer =
    | Stored(keys: Result<seq<string>>)
    | Removed(done: Result<Unit>)
    | Fetched(content: Result<Stream>)
    | Checked(found: Result<bool>)
    | Enumerated(listing: Result<seq<string>>)

  ghost function Serve(s: Store, w: World, a: Action): (World, Answer) {
    match a
    case PutAll(blobs) => var (w1, r) := Put(s, w, blobs); (w1, Stored(r))
    case Remove(ks) => var (w1, r) := Delete(s, w, ks); (w1, Removed(r))
    case Fetch(k) => var (w1, r) := Get(s, w, k); (w1, Fetched(r))
    case Check(k) => var (w1, r) := Exists(s, w, k); (w1, Checked(r))
    case Enumerate(f) => var (w1, r) := List(s, w, f); (w1, Enumerated(r))
  }

  function Update(m: Contents, blobs: seq<Blob>): Contents {
    map k | k in m.Keys + (set k' | k' in KeysOf(blobs)) :: if k in KeysOf(blobs) then LastData(blobs, k) else m[k]
  }

  ghost function MapServe(s: Store, m: Contents, a: Action): (Contents, Answer) {
    match a
    case PutAll(blobs) =>
      if AllAccepted(s, KeysOf(blobs)) then (Update(m, blobs), Stored(Ok(KeysOf(blobs))))
      else (m, Stored(Err(InvalidInput)))
    case Remove(ks) =>
      if AllAccepted(s, ks) then (m - (set k | k in ks), Removed(Ok(Unit)))
      else (m, Removed(Err(InvalidInput)))
    case Fetch(k) =>
      (m, Fetched(if !Accepts(s, k) then Err(InvalidInput)
                  else if k in m then Ok(Delivers(m[k])) else Err(NotFound(k))))
    case Check(k) => (m, Checked(if !Accepts(s, k) then Err(InvalidInput) else Ok(k in m)))
    case Enumerate(f) => (m, Enumerated(Ok(Listing(set k | k in m && f.matches(k)))))
  }

  /** What the theorem covers: encryption completes and filters honour their hints. With
      at most one encryption layer and a sensible suffix that is all; deeper stacks can lose data when they
      refuse a put (see `Builder.NestedPutDestroys`), and notice a bad key of a read only
      on the way, so there puts and reads are of keys they accept. */
  ghost predicate Covered(s: Store, a: Action) {
    match a
    case PutAll(blobs) => AllComplete(blobs) && (AllAccepted(s, KeysOf(blobs)) || Encryptions(s) <= 1)
    case Remove(_) => true
    case Fetch(k) => Accepts(s, k) || (Encryptions(s) <= 1 && GoodSuffixes(s))
    case Check(k) => Accepts(s, k) || (Encryptions(s) <= 1 && GoodSuffixes(s))
    case Enumerate(f) => HintSound(f)
  }

  /** Replacing the objects of some keys keeps a whole backend whole if those keys end
      up readable or without objects. */
  lemma StaysWhole(s: Store, ks: seq<string>, a: Contents, b: Contents)
    requires Whole(s, a) && AllAccepted(s, ks) && TouchesOnly(s, ks, a, b)
    requires Cleared(s, ks, b) || forall k :: k in ks ==> Readable(s, b, k)
    ensures Whole(s, b)
  {
    forall o | o in b
      ensures HasOwner(s, b, o)
    {
      if Owned(s, ks, o) {
        var k :| k in ks && o in Owns(s, k);
        assert Readable(s, b, k);
      } else {
        assert Agree(a, b, o);
        assert HasOwner(s, a, o);
        var k :| Readable(s, a, k) && o in Owns(s, k);
        AcceptedIsProper(s, k);
        OthersKept(s, ks, a, b, k);
        assert Readable(s, b, k);
      }
    }
  }

  lemma PutRepresents(s: Store, w: World, m: Contents, blobs: seq<Blob>)
    requires LawfulStack(s) && w.faults == [] && Represents(s, w.objs, m)
    requires AllAccepted(s, KeysOf(blobs)) && AllComplete(blobs)
    ensures var (w', r) := Put(s, w, blobs);
            r == Ok(KeysOf(blobs)) && w'.faults == [] && Represents(s, w'.objs, Update(m, blobs))
  {
    var (w', r) := Put(s, w, blobs);
    var ks, m' := KeysOf(blobs), Update(m, blobs);
    PutSucceeds(s, w, blobs);
    PutReturns(s, w, blobs);
    PutTouches(s, w, blobs);
    StaysWhole(s, ks, w.objs, w'.objs);
    forall k
      ensures k in m' <==> Visible(s, w'.objs, k)
      ensures k in m' ==> Holds(s, w'.objs, k, m'[k])
    {
      if k !in ks { Elsewhere(s, ks, w.objs, w'.objs, m, k); }
    }
  }

  /** Keys outside the batch are shown as before. */
  lemma Elsewhere(s: Store, ks: seq<string>, a: Contents, b: Contents, m: Contents, k: string)
    requires TouchesOnly(s, ks, a, b) && AllAccepted(s, ks) && k !in ks && Represents(s, a, m)
    ensures k in m <==> Visible(s, b, k)
    ensures k in m ==> Holds(s, b, k, m[k])
  {
    if Visible(s, a, k) { VisibleIsProper(s, a, k); }
    if Visible(s, b, k) { VisibleIsProper(s, b, k); }
    if Proper(s, k) { OthersKept(s, ks, a, b, k); }
  }

  lemma DeleteRepresents(s: Store, w: World, m: Contents, ks: seq<string>)
    requires w.faults == [] && Represents(s, w.objs, m) && AllAccepted(s, ks)
    ensures var (w', r) := Delete(s, w, ks);
            r == Ok(Unit) && w'.faults == [] && Represents(s, w'.objs, m - (set k | k in ks))
  {
    var (w', r) := Delete(s, w, ks);
    DeleteSucceeds(s, w, ks);
    DeleteTouches(s, w, ks);
    StaysWhole(s, ks, w.objs, w'.objs);
    forall k
      ensures k in m && k !in ks <==> Visible(s, w'.objs, k)
      ensures k in m && k !in ks ==> Holds(s, w'.objs, k, m[k])
    {
      if k in ks {
        OwnsFull(s, k);
        assert Owned(s, ks, Full(s, k));
        if Visible(s, w'.objs, k) { VisibleIsProper(s, w'.objs, k); }
      } else {
        Elsewhere(s, ks, w.objs, w'.objs, m, k);
      }
    }
  }

  lemma ReadRepresents(s: Store, w: World, m: Contents, a: Action)
    requires w.faults == [] && Represents(s, w.objs, m) && Covered(s, a)
    requires a.Fetch? || a.Check? || a.Enumerate?
    ensures Serve(s, w, a).1 == MapServe(s, m, a).1
    ensures Serve(s, w, a).0.faults == [] && Serve(s, w, a).0.objs == w.objs
  {
    match a
    case Fetch(k) =>
      GetExact(s, w, k);
      if !Accepts(s, k) {
        ReadsReject(s, w, k);
      } else if k in m {
        GetSucceeds(s, w, k, m[k]);
      } else {
        GetMisses(s, w, k);
      }
    case Check(k) =>
      ExistsExact(s, w, k);
      if !Accepts(s, k) { ReadsReject(s, w, k); } else { ExistsSucceeds(s, w, k); }
    case Enumerate(f) =>
      ListExact(s, w, f);
      ListSucceeds(s, w, f);
      assert VisibleKeys(s, w.objs, f) == set k | k in m && f.matches(k);
  }

  lemma ServeRepresents(s: Store, w: World, m: Contents, a: Action)
    requires LawfulStack(s) && w.faults == [] && Represents(s, w.objs, m) && Covered(s, a)
    ensures var (w', r) := Serve(s, w, a);
            var (m', r') := MapServe(s, m, a);
            r == r' && w'.faults == [] && Represents(s, w'.objs, m')
  {
    match a
    case PutAll(blobs) =>
      if AllAccepted(s, KeysOf(blobs)) { PutRepresents(s, w, m, blobs); } else { PutRejects(s, w, blobs); }
    case Remove(ks) =>
      if AllAccepted(s, ks) { DeleteRepresents(s, w, m, ks); } else { DeleteRejectsAll(s, w, ks); }
    case _ => ReadRepresents(s, w, m, a);
  }

  ghost function Answers(s: Store, w: World, history: seq<Action>): seq<Answer>
    decreases |history|
  {
    if history == [] then []
    else
      var (w', r) := Serve(s, w, history[0]);
      [r] + Answers(s, w', history[1..])
  }

  ghost function MapAnswers(s: Store, m: Contents, history: seq<Action>): seq<Answer>
    decreases |history|
  {
    if history == [] then []
    else
      var (m', r) := MapServe(s, m, history[0]);
      [r] + MapAnswers(s, m', history[1..])
  }

  ghost predicate AllCovered(s: Store, history: seq<Action>) {
    forall a :: a in history ==> Covered(s, a)
  }

  /** Every failure-free history gets, answer for answer, what a map would give. */
  lemma {:induction false} HistoryFromMap(s: Store, w: World, m: Contents, history: seq<Action>)
    requires LawfulStack(s) && w.faults == [] && Represents(s, w.objs, m) && AllCovered(s, history)
    ensures Answers(s, w, history) == MapAnswers(s, m, history)
    decreases |history|
  {
    if history != [] {
      assert history[0] in history;
      ServeRepresents(s, w, m, history[0]);
      HistoryFromMap(s, Serve(s, w, history[0]).0, MapServe(s, m, history[0]).0, history[1..]);
    }
  }

  lemma EmptyRepresents(s: Store)
    ensures Represents(s, map[], map[])
  {
    forall k
      ensures !Visible(s, map[], k)
    {
      if Visible(s, map[], k) { VisibleIsProper(s, map[], k); }
    }
  }

  /** A store built on an empty backend is a map. */
  lemma StoreIsMap(s: Store, log: seq<Call>, history: seq<Action>)
    requires LawfulStack(s) && AllCovered(s, history)
    ensures Answers(s, World(map[], log, []), history) == MapAnswers(s, map[], history)
  {
    EmptyRepresents(s);
    HistoryFromMap(s, World(map[], log, []), map[], history);
  }
}
