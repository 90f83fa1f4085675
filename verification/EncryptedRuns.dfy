/** The encryption layer over whole runs: which put each readable key comes from,
    when any backend call may fail. */
module EncryptedRuns {
  import opened Keys
  import opened Stores
  import opened Layers
  import opened Writes
  import opened Deletes
  import opened Rekeys

  // ---------------------------------------------------------------------------
  // One put of one blob, in every case
  // ---------------------------------------------------------------------------

  /** How storing one blob ended. `Stranded`: the rollback failed as well. */
  datatype Fate = Kept | Untouched | RolledBack | Stranded

  function FateOf(w: World, b: Blob): Fate {
    if FaultAt(w.faults, 0) != Fine then Untouched
    else
      var rollback := if b.sealing.Breaks? then 1 else 2;
      if b.sealing.Completes? && FaultAt(w.faults, 1) == Fine then Kept
      else if FaultAt(w.faults, rollback) == Fine then RolledBack
      else Stranded
  }

  /** The failed rollback matters only if an older header is there to be paired with. */
  predicate Harmful(x: string, inner: Store, w: World, b: Blob) {
    FateOf(w, b).Stranded? && Full(inner, b.key + x) in w.objs
  }

  lemma PutOneObjects(p: Provider, x: string, inner: Store, w: World, b: Blob)
    requires Encryptions(inner) == 0 && Accepts(Encrypted(p, x, inner), b.key)
    ensures var (w', r) := EncryptedPutOne(p, x, inner, w, b);
            && (r.Ok? <==> FateOf(w, b).Kept?)
            && w'.objs == match FateOf(w, b)
                          case Kept =>
                            w.objs[Full(inner, b.key) := Ciphertext(p, b)]
                                  [Full(inner, b.key + x) := p.seal(b.sealing.nonce, b.data).header]
                          case Untouched => w.objs
                          case RolledBack => w.objs - {Full(inner, b.key)}
                          case Stranded => w.objs[Full(inner, b.key) := Ciphertext(p, b)]
  {
    var d, h := Full(inner, b.key), Full(inner, b.key + x);
    if b.sealing.Breaks? {
      PutBrokenObjects(p, x, inner, w, b);
      BrokenFate(w, b, d, Ciphertext(p, b));
    } else {
      PutSealedObjects(p, x, inner, w, b);
      SealedFate(w, b, d, Ciphertext(p, b), h, p.seal(b.sealing.nonce, b.data).header);
    }
  }

  /** What the accesses of a put leave when the input breaks. */
  lemma BrokenFate(w: World, b: Blob, d: string, data: Bytes)
    requires b.sealing.Breaks?
    ensures !FateOf(w, b).Kept? && (FateOf(w, b).Untouched? <==> Head(w) != Fine)
    ensures var w1 := Stored(w, d, data);
            (if Head(w) == Fine then Removed(w1, d) else w1).objs ==
            if FateOf(w, b).Untouched? then w.objs
            else if FateOf(w, b).RolledBack? then w.objs - {d}
            else w.objs[d := data]
  {
    assert w.objs[d := data] - {d} == w.objs - {d};
  }

  /** And when it completes. */
  lemma SealedFate(w: World, b: Blob, d: string, data: Bytes, h: string, header: Bytes)
    requires b.sealing.Completes?
    ensures FateOf(w, b).Kept? <==> Head(w) == Fine && Head(Stored(w, d, data)) == Fine
    ensures FateOf(w, b).Untouched? <==> Head(w) != Fine
    ensures var w1 := Stored(w, d, data);
            var w2 := Stored(w1, h, header);
            (if Head(w) != Fine then w1 else if Head(w1) != Fine then Removed(w2, d) else w2).objs ==
            match FateOf(w, b)
            case Kept => w.objs[d := data][h := header]
            case Untouched => w.objs
            case RolledBack => w.objs - {d}
            case Stranded => w.objs[d := data]
  {
    assert w.objs[d := data] - {d} == w.objs - {d};
  }

  /** And the answer: the caller's key, or which of the two steps failed. */
  lemma PutOneAnswers(p: Provider, x: string, inner: Store, w: World, b: Blob)
    requires Encryptions(inner) == 0 && Accepts(Encrypted(p, x, inner), b.key)
    ensures var r := EncryptedPutOne(p, x, inner, w, b).1;
            && (FateOf(w, b).Kept? ==> r == Ok([b.key]))
            && (FateOf(w, b).Untouched? ==> r == Err(Storage))
            && (FateOf(w, b).RolledBack? || FateOf(w, b).Stranded? ==>
                  r == Err(if b.sealing.Breaks? then Encryption else Storage))
  {
    if b.sealing.Breaks? {
      PutBrokenObjects(p, x, inner, w, b);
    } else {
      PutSealedObjects(p, x, inner, w, b);
      OwnKeyKept(x, b.key);
    }
  }

  lemma OwnKeyKept(x: string, k: string)
    requires !EndsWith(k, x)
    ensures Keep([k], NotHeader(x)) == [k]
  {}

  lemma PutBrokenObjects(p: Provider, x: string, inner: Store, w: World, b: Blob)
    requires Encryptions(inner) == 0 && Accepts(inner, b.key) && b.sealing.Breaks?
    ensures var (w', r) := EncryptedPutOne(p, x, inner, w, b);
            var w1 := Stored(w, Full(inner, b.key), Ciphertext(p, b));
            && r == Err(if Head(w) == Fine then Encryption else Storage)
            && w' == if Head(w) == Fine then Removed(w1, Full(inner, b.key)) else w1
  {
    PutSingle(inner, w, b.(data := Ciphertext(p, b)));
    DeleteSingle(inner, Stored(w, Full(inner, b.key), Ciphertext(p, b)), b.key);
  }

  lemma PutSealedObjects(p: Provider, x: string, inner: Store, w: World, b: Blob)
    requires Encryptions(inner) == 0 && Accepts(inner, b.key) && Accepts(inner, b.key + x) && b.sealing.Completes?
    ensures var (w', r) := EncryptedPutOne(p, x, inner, w, b);
            var w1 := Stored(w, Full(inner, b.key), Ciphertext(p, b));
            var w2 := Stored(w1, Full(inner, b.key + x), p.seal(b.sealing.nonce, b.data).header);
            if Head(w) != Fine then r == Err(Storage) && w' == w1
            else if Head(w1) != Fine then r == Err(Storage) && w' == Removed(w2, Full(inner, b.key))
            else r == Ok(Keep([b.key], NotHeader(x))) && w' == w2
  {
    PutSingle(inner, w, b.(data := Ciphertext(p, b)));
    var w1 := Stored(w, Full(inner, b.key), Ciphertext(p, b));
    var header := Blob(b.key + x, p.seal(b.sealing.nonce, b.data).header, b.sealing);
    PutSingle(inner, w1, header);
    DeleteSingle(inner, Stored(w1, Full(inner, b.key + x), header.data), b.key);
  }

  lemma PairNames(x: string, inner: Store, k: string, k': string)
    requires !EndsWith(k, x) && !EndsWith(k', x)
    ensures Full(inner, k) != Full(inner, k' + x)
    ensures k != k' ==> Full(inner, k) != Full(inner, k') && Full(inner, k + x) != Full(inner, k' + x)
  {
    var n := |Pre(inner)|;
    assert EndsWith(k' + x, x);
    assert Full(inner, k)[n..] == k && Full(inner, k')[n..] == k';
    assert Full(inner, k + x)[n..] == k + x && Full(inner, k' + x)[n..] == k' + x;
    assert (k + x)[..|k|] == k && (k' + x)[..|k'|] == k';
    if Full(inner, k + x) == Full(inner, k' + x) {
      assert |k| == |k'|;
    }
  }

  /** What each key reads after storing one blob, whatever fails. A stored blob reads
      back as its plaintext; a failed one leaves its key as it was or invisible, unless
      the rollback failed too and met an old header. No other key is affected. */
  lemma PutOneReadings(p: Provider, x: string, inner: Store, w: World, b: Blob, k: string)
    requires Lawful(p) && Encryptions(inner) == 0 && Accepts(Encrypted(p, x, inner), b.key)
    ensures var s := Encrypted(p, x, inner);
            var before, after := Read(s, w.objs, k), Read(s, EncryptedPutOne(p, x, inner, w, b).0.objs, k);
            if k != b.key then after == before
            else
              match FateOf(w, b)
              case Kept => after == Plain(b.data)
              case Untouched => after == before
              case RolledBack => after == Absent
              case Stranded =>
                if Harmful(x, inner, w, b)
                then after == Opened(p, Ciphertext(p, b), w.objs[Full(inner, k + x)])
                else after == Absent
  {
    var objs' := EncryptedPutOne(p, x, inner, w, b).0.objs;
    PutOneObjects(p, x, inner, w, b);
    ReadPair(p, x, inner, w.objs, k);
    ReadPair(p, x, inner, objs', k);
    if !EndsWith(k, x) {
      PairNames(x, inner, k, b.key);
      PairNames(x, inner, b.key, k);
      PairNames(x, inner, b.key, b.key);
    }
  }

  // ---------------------------------------------------------------------------
  // A failed rollback over an old header really does pair unrelated objects
  // ---------------------------------------------------------------------------

  /** A provider that shifts every byte by a random key, and stores that key wrapped
      under a master key: `[key ^ master, master]`. */
  function ShiftProvider(master: bv8): Provider {
    Provider(
      (nonce: Bytes, plain: Bytes) =>
        var key := if nonce == [] then 0 else nonce[0];
        Sealed(Shift(plain, key), [key ^ master, master]),
      (data: Bytes, header: Bytes) =>
        if |header| != 2 then None else Some(Shift(data, -(header[0] ^ header[1]))),
      (header: Bytes) =>
        if |header| != 2 then Refused
        else if header[1] == master then UpToDate
        else Rewrapped([header[0] ^ header[1] ^ master, master]))
  }

  function Shift(bytes: Bytes, key: bv8): Bytes {
    seq(|bytes|, i requires 0 <= i < |bytes| => bytes[i] + key)
  }

  lemma XorCancels(a: bv8, b: bv8)
    ensures a ^ b ^ b == a
  {}

  lemma ShiftCancels(a: bv8, key: bv8)
    ensures a + key + -key == a
  {}

  lemma ShiftUndone(bytes: Bytes, key: bv8)
    ensures Shift(Shift(bytes, key), -key) == bytes
  {
    forall i | 0 <= i < |bytes|
      ensures Shift(Shift(bytes, key), -key)[i] == bytes[i]
    {
      ShiftCancels(bytes[i], key);
    }
  }

  lemma ShiftOpens(master: bv8, nonce: Bytes, plain: Bytes)
    ensures var p := ShiftProvider(master);
            p.open(p.seal(nonce, plain).data, p.seal(nonce, plain).header) == Some(plain)
  {
    var key := if nonce == [] then 0 else nonce[0];
    XorCancels(key, master);
    ShiftUndone(plain, key);
  }

  lemma ShiftRewraps(master: bv8, data: Bytes, h: Bytes)
    requires ShiftProvider(master).rewrap(h).Rewrapped?
    ensures var p := ShiftProvider(master);
            p.open(data, p.rewrap(h).header) == p.open(data, h)
  {
    XorCancels(h[0] ^ h[1], master);
  }

  lemma ShiftProviderLawful(master: bv8)
    ensures Lawful(ShiftProvider(master))
  {
    forall nonce, plain { ShiftOpens(master, nonce, plain); }
    forall data, h | ShiftProvider(master).rewrap(h).Rewrapped? { ShiftRewraps(master, data, h); }
  }

  /** With this provider, every overwrite that is stranded over a header made with
      another random key reports an error and leaves the key readable as bytes that are
      neither the old nor the new plaintext. */
  lemma StrandedOverwriteIsGarbage(master: bv8, x: string, inner: Store, w: World, b: Blob, prior: Bytes, nonce: bv8)
    requires Encryptions(inner) == 0 && Accepts(Encrypted(ShiftProvider(master), x, inner), b.key)
    requires var sealed := ShiftProvider(master).seal([nonce], prior);
             Full(inner, b.key) in w.objs && w.objs[Full(inner, b.key)] == sealed.data &&
             Full(inner, b.key + x) in w.objs && w.objs[Full(inner, b.key + x)] == sealed.header
    requires b.sealing.Completes? && b.sealing.nonce != [] && b.sealing.nonce[0] != nonce
    requires b.data != [] && |b.data| != |prior| && FateOf(w, b).Stranded?
    ensures var p := ShiftProvider(master);
            var s := Encrypted(p, x, inner);
            var (w', r) := EncryptedPutOne(p, x, inner, w, b);
            && Read(s, w.objs, b.key) == Plain(prior)
            && r.Err?
            && exists garbage :: Read(s, w'.objs, b.key) == Plain(garbage) && garbage != prior && garbage != b.data
  {
    var p := ShiftProvider(master);
    ShiftProviderLawful(master);
    ReadPair(p, x, inner, w.objs, b.key);
    PutOneObjects(p, x, inner, w, b);
    PutOneReadings(p, x, inner, w, b, b.key);
    MixedPairOpens(master, prior, nonce, b);
  }

  lemma MixedPairOpens(master: bv8, prior: Bytes, nonce: bv8, b: Blob)
    requires b.sealing.Completes? && b.sealing.nonce != [] && b.sealing.nonce[0] != nonce
    requires b.data != [] && |b.data| != |prior|
    ensures var p := ShiftProvider(master);
            exists garbage :: garbage != prior && garbage != b.data &&
              Opened(p, Ciphertext(p, b), p.seal([nonce], prior).header) == Plain(garbage)
  {
    var p := ShiftProvider(master);
    var garbage := Shift(Shift(b.data, b.sealing.nonce[0]), -nonce);
    ShiftDiffers(b.data, b.sealing.nonce[0], nonce);
    HeaderOpens(master, nonce, prior, Ciphertext(p, b));
    assert Opened(p, Ciphertext(p, b), p.seal([nonce], prior).header) == Plain(garbage);
    assert |garbage| == |b.data|;
  }

  lemma ShiftHead(d: Bytes, key: bv8)
    requires d != []
    ensures Shift(d, key) != [] && Shift(d, key)[0] == d[0] + key
  {}

  lemma ShiftDiffers(d: Bytes, key: bv8, nonce: bv8)
    requires d != [] && key != nonce
    ensures Shift(Shift(d, key), -nonce) != d
  {
    ShiftMoves(d[0], key, nonce);
    ShiftHead(d, key);
    ShiftHead(Shift(d, key), -nonce);
  }

  lemma HeaderOpens(master: bv8, nonce: bv8, prior: Bytes, data: Bytes)
    ensures var p := ShiftProvider(master);
            p.open(data, p.seal([nonce], prior).header) == Some(Shift(data, -nonce))
  {
    XorCancels(nonce, master);
  }

  lemma ShiftMoves(a: bv8, key: bv8, nonce: bv8)
    requires key != nonce
    ensures a + key + -nonce != a
  {}

  // ---------------------------------------------------------------------------
  // Runs
  // ---------------------------------------------------------------------------

  datatype Op =
    | PutOp(blobs: seq<Blob>)
    | DeleteOp(keys: seq<string>)
    | RekeyOp(order: seq<string>)

  function Step(p: Provider, x: string, inner: Store, w: World, op: Op): World {
    match op
    case PutOp(blobs) => Put(Encrypted(p, x, inner), w, blobs).0
    case DeleteOp(ks) => Delete(Encrypted(p, x, inner), w, ks).0
    case RekeyOp(order) => RekeyFrom(p, x, inner, w, order, 0).0
  }

  /** What the outcomes so far promise: the plaintext each key was last given by a
      completed put, and the keys that must still be readable. */
  datatype Ledger = Ledger(latest: map<string, Bytes>, sure: set<string>)

  function Recorded(w: World, b: Blob, l: Ledger): Ledger {
    match FateOf(w, b)
    case Kept => Ledger(l.latest[b.key := b.data], l.sure + {b.key})
    case Untouched => l
    case _ => l.(sure := l.sure - {b.key})
  }

  function PutLedger(p: Provider, x: string, inner: Store, w: World, blobs: seq<Blob>, l: Ledger): Ledger
    decreases |blobs|
  {
    if blobs == [] then l
    else
      var (w1, r) := EncryptedPutOne(p, x, inner, w, blobs[0]);
      var l1 := Recorded(w, blobs[0], l);
      if r.Err? then l1 else PutLedger(p, x, inner, w1, blobs[1..], l1)
  }

  function StepLedger(p: Provider, x: string, inner: Store, w: World, op: Op, l: Ledger): Ledger {
    match op
    case PutOp(blobs) =>
      if AllAccepted(Encrypted(p, x, inner), KeysOf(blobs)) then PutLedger(p, x, inner, w, blobs, l) else l
    case DeleteOp(ks) => l.(sure := l.sure - set k | k in ks)
    case RekeyOp(_) => l
  }

  /** No rollback in the batch fails over an old header. */
  predicate PutClean(p: Provider, x: string, inner: Store, w: World, blobs: seq<Blob>)
    decreases |blobs|
  {
    blobs == [] ||
    (!Harmful(x, inner, w, blobs[0]) &&
     var (w1, r) := EncryptedPutOne(p, x, inner, w, blobs[0]);
     r.Err? || PutClean(p, x, inner, w1, blobs[1..]))
  }

  predicate RunClean(p: Provider, x: string, inner: Store, w: World, ops: seq<Op>)
    decreases |ops|
  {
    ops == [] ||
    ((ops[0].PutOp? && AllAccepted(Encrypted(p, x, inner), KeysOf(ops[0].blobs)) ==>
        PutClean(p, x, inner, w, ops[0].blobs)) &&
     RunClean(p, x, inner, Step(p, x, inner, w, ops[0]), ops[1..]))
  }

  function RunWorld(p: Provider, x: string, inner: Store, w: World, ops: seq<Op>): World
    decreases |ops|
  {
    if ops == [] then w else RunWorld(p, x, inner, Step(p, x, inner, w, ops[0]), ops[1..])
  }

  function RunLedger(p: Provider, x: string, inner: Store, w: World, ops: seq<Op>, l: Ledger): Ledger
    decreases |ops|
  {
    if ops == [] then l
    else RunLedger(p, x, inner, Step(p, x, inner, w, ops[0]), ops[1..], StepLedger(p, x, inner, w, ops[0], l))
  }

  /** Every readable key reads what its last completed put stored, and every key the
      ledger is sure of is readable. */
  ghost predicate Faithful(s: Store, objs: map<string, Bytes>, l: Ledger) {
    forall k ::
      && (Read(s, objs, k) == Absent || (k in l.latest && Read(s, objs, k) == Plain(l.latest[k])))
      && (k in l.sure ==> Read(s, objs, k) != Absent)
  }

  lemma {:induction false} PutFaithful(p: Provider, x: string, inner: Store, w: World, blobs: seq<Blob>, l: Ledger,
                                       metas: seq<string>)
    requires Lawful(p) && Encryptions(inner) == 0
    requires AllAccepted(Encrypted(p, x, inner), KeysOf(blobs))
    requires PutClean(p, x, inner, w, blobs)
    requires Faithful(Encrypted(p, x, inner), w.objs, l)
    ensures Faithful(Encrypted(p, x, inner), EncryptedPutFrom(p, x, inner, w, blobs, metas).0.objs,
                     PutLedger(p, x, inner, w, blobs, l))
    decreases |blobs|
  {
    if blobs != [] {
      var s := Encrypted(p, x, inner);
      var b := blobs[0];
      var (w1, r) := EncryptedPutOne(p, x, inner, w, b);
      var l1 := Recorded(w, b, l);
      forall k
        ensures Read(s, w1.objs, k) == Absent || (k in l1.latest && Read(s, w1.objs, k) == Plain(l1.latest[k]))
        ensures k in l1.sure ==> Read(s, w1.objs, k) != Absent
      {
        PutOneReadings(p, x, inner, w, b, k);
      }
      PutOneObjects(p, x, inner, w, b);
      if r.Ok? {
        PutFaithful(p, x, inner, w1, blobs[1..], l1, metas + r.value);
      }
    }
  }

  lemma DeleteFaithful(p: Provider, x: string, inner: Store, w: World, ks: seq<string>, l: Ledger)
    requires Encryptions(inner) == 0
    requires Faithful(Encrypted(p, x, inner), w.objs, l)
    ensures Faithful(Encrypted(p, x, inner), Delete(Encrypted(p, x, inner), w, ks).0.objs,
                     l.(sure := l.sure - set k | k in ks))
  {
    var s := Encrypted(p, x, inner);
    var objs' := Delete(s, w, ks).0.objs;
    DeleteTouches(s, w, ks);
    forall k
      ensures Read(s, objs', k) == Absent || Read(s, objs', k) == Read(s, w.objs, k)
      ensures k !in ks && Read(s, w.objs, k) != Absent ==> Read(s, objs', k) != Absent
    {
      if Visible(s, objs', k) { ViewShrinks(s, objs', w.objs, k); }
      if k !in ks && Visible(s, w.objs, k) {
        VisibleIsProper(s, w.objs, k);
        if forall k' :: k' in ks ==> !EndsWith(k', x) {
          forall k' | k' in ks
            ensures Proper(s, k')
          {
            FlatProper(inner, k');
            FlatProper(inner, k' + x);
          }
          DeleteEffect(s, w, ks, k);
        }
      }
    }
  }

  lemma {:induction false} FlatProper(s: Store, k: string)
    requires Encryptions(s) == 0
    ensures Proper(s, k)
  {
    match s
    case Base =>
    case Prefixed(p, inner) => FlatProper(inner, p + k);
    case Cleanable(inner) => FlatProper(inner, k);
  }

  /** The main result on runs: through any sequence of puts, deletes and re-keys, with
      any failures, as long as no rollback fails over an old header, a key either is
      invisible or reads exactly the plaintext of its last completed put; and it can
      become invisible only through a delete of it or a failed put of it. */
  lemma {:induction false} RunFaithful(p: Provider, x: string, inner: Store, w: World, ops: seq<Op>, l: Ledger)
    requires Lawful(p) && Encryptions(inner) == 0
    requires RunClean(p, x, inner, w, ops)
    requires Faithful(Encrypted(p, x, inner), w.objs, l)
    ensures Faithful(Encrypted(p, x, inner), RunWorld(p, x, inner, w, ops).objs, RunLedger(p, x, inner, w, ops, l))
    decreases |ops|
  {
    if ops != [] {
      var s := Encrypted(p, x, inner);
      var w1 := Step(p, x, inner, w, ops[0]);
      match ops[0] {
        case PutOp(blobs) =>
          PutRejects(s, w, blobs);
          if AllAccepted(s, KeysOf(blobs)) {
            KeysOfMembers(blobs);
            assert forall b :: b in blobs ==> b.key in KeysOf(blobs);
            PutFaithful(p, x, inner, w, blobs, l, []);
          }
        case DeleteOp(ks) =>
          DeleteFaithful(p, x, inner, w, ks, l);
        case RekeyOp(order) =>
          forall k
            ensures Read(s, w1.objs, k) == Read(s, w.objs, k)
          {
            RekeyKeepsReadings(p, x, inner, w, order, 0, k);
          }
      }
      RunFaithful(p, x, inner, w1, ops[1..], StepLedger(p, x, inner, w, ops[0], l));
    }
  }

  // ---------------------------------------------------------------------------
  // Keys a failing batch never reached
  // ---------------------------------------------------------------------------

  /** How many blobs of the batch were started. */
  function Started(p: Provider, x: string, inner: Store, w: World, blobs: seq<Blob>): (n: nat)
    ensures n <= |blobs|
    decreases |blobs|
  {
    if blobs == [] then 0
    else
      var (w1, r) := EncryptedPutOne(p, x, inner, w, blobs[0]);
      if r.Err? then 1 else 1 + Started(p, x, inner, w1, blobs[1..])
  }

  /** A batch that fails has touched no object of the blobs after the failing one. */
  lemma {:induction false} LaterBlobsUntouched(p: Provider, x: string, inner: Store, w: World, blobs: seq<Blob>,
                                               metas: seq<string>)
    ensures TouchesOnly(Encrypted(p, x, inner), KeysOf(blobs[..Started(p, x, inner, w, blobs)]), w.objs,
                        EncryptedPutFrom(p, x, inner, w, blobs, metas).0.objs)
    ensures EncryptedPutFrom(p, x, inner, w, blobs, metas).1.Ok? ==> Started(p, x, inner, w, blobs) == |blobs|
    decreases |blobs|
  {
    if blobs != [] {
      var s := Encrypted(p, x, inner);
      var (w1, r) := EncryptedPutOne(p, x, inner, w, blobs[0]);
      PutOneTouches(p, x, inner, w, blobs[0]);
      var n := Started(p, x, inner, w, blobs);
      assert blobs[..n][0] == blobs[0] && blobs[..n][1..] == blobs[1..][..n - 1];
      var ks := KeysOf(blobs[..n]);
      assert ks == [blobs[0].key] + KeysOf(blobs[1..][..n - 1]);
      forall o | !Owned(s, ks, o)
        ensures !Owned(s, [blobs[0].key], o) && !Owned(s, KeysOf(blobs[1..][..n - 1]), o)
      {
        if Owned(s, [blobs[0].key], o) { OwnedSubset(s, [blobs[0].key], ks, o); }
        if Owned(s, KeysOf(blobs[1..][..n - 1]), o) { OwnedSubset(s, KeysOf(blobs[1..][..n - 1]), ks, o); }
      }
      if r.Ok? {
        LaterBlobsUntouched(p, x, inner, w1, blobs[1..], metas + r.value);
      }
    }
  }
}
