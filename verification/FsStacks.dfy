/** Whole stacks of layers over the filesystem: what they do to the tree is what they do
    to the abstract backend under some pattern of failing accesses. */
module FsStacks {
  import opened Keys
  import opened Stores
  import opened Layers
  import opened Writes
  import opened Deletes
  import opened FsTree
  import opened FsBackend
  import M = MapStore
  import R = EncryptedRuns

  // ---------------------------------------------------------------------------
  // The writing operations of a stack over a tree
  // ---------------------------------------------------------------------------

  ghost function TreePut(s: Store, t: Tree, blobs: seq<Blob>): (Tree, Result<seq<string>>)
    decreases s, 0, 0
  {
    match s
    case Base =>
      if !AllBlobsValid(blobs) then (t, Err(InvalidInput)) else PutFiles(t, Pairs(blobs), [])
    case Prefixed(p, inner) =>
      if !PrefixAcceptsBlobs(p, blobs) then (t, Err(InvalidInput))
      else
        var (t1, r) := TreePut(inner, t, PrefixBlobs(p, blobs));
        (t1, if r.Ok? then Ok(StripEach(p, r.value)) else r)
    case Encrypted(provider, x, inner) =>
      if !EncryptAcceptsBlobs(x, blobs) then (t, Err(InvalidInput))
      else TreePutFrom(provider, x, inner, t, blobs, [])
    case Cleanable(inner) => TreePut(inner, t, blobs)
  }

  ghost function TreePutFrom(provider: Provider, x: string, inner: Store, t: Tree, blobs: seq<Blob>, metas: seq<string>)
    : (Tree, Result<seq<string>>)
    decreases inner, 2, |blobs|
  {
    if blobs == [] then (t, Ok(metas))
    else
      var (t1, r) := TreePutOne(provider, x, inner, t, blobs[0]);
      if r.Err? then (t1, r) else TreePutFrom(provider, x, inner, t1, blobs[1..], metas + r.value)
  }

  ghost function TreePutOne(provider: Provider, x: string, inner: Store, t: Tree, b: Blob): (Tree, Result<seq<string>>)
    decreases inner, 1, 0
  {
    var stored := TreePut(inner, t, [b.(data := Ciphertext(provider, b))]);
    if stored.1.Err? then stored else TreeFinish(provider, x, inner, stored.0, b, stored.1.value)
  }

  ghost function TreeFinish(provider: Provider, x: string, inner: Store, t: Tree, b: Blob, stored: seq<string>)
    : (Tree, Result<seq<string>>)
    decreases inner, 0, 1
  {
    if b.sealing.Breaks? then (TreeDelete(inner, t, [b.key]).0, Err(Encryption))
    else
      var header := provider.seal(b.sealing.nonce, b.data).header;
      var wrapped := TreePut(inner, t, [Blob(b.key + x, header, b.sealing)]);
      if wrapped.1.Err? then (TreeDelete(inner, wrapped.0, [b.key]).0, Err(wrapped.1.error))
      else (wrapped.0, Ok(Keep(stored, NotHeader(x))))
  }

  ghost function TreeDelete(s: Store, t: Tree, keys: seq<string>): (Tree, Result<Unit>)
    decreases s, 0, 0
  {
    match s
    case Base =>
      if !AllValid(keys) then (t, Err(InvalidInput)) else RemoveFiles(t, keys, [], [])
    case Prefixed(p, inner) =>
      if !PrefixAcceptsAll(p, keys) then (t, Err(InvalidInput))
      else
        var (t1, r) := TreeDelete(inner, t, AddPrefix(p, keys));
        (t1, StripBatch(p, r))
    case Encrypted(_, x, inner) =>
      if !NoHeaderKeys(x, keys) then (t, Err(InvalidInput))
      else
        var (t1, r) := TreeDelete(inner, t, WithHeaders(x, keys));
        (t1, HideHeaders(keys, r))
    case Cleanable(inner) => TreeDelete(inner, t, keys)
  }

  // ---------------------------------------------------------------------------
  // Simulation: `script` is used up by the operation, whatever follows it
  // ---------------------------------------------------------------------------

  ghost predicate PutAt(s: Store, t: Tree, log: seq<Call>, blobs: seq<Blob>, script: seq<Fault>, log': seq<Call>,
                        tail: seq<Fault>) {
    var (t', r) := TreePut(s, t, blobs);
    Put(s, Holding(t, log, script + tail), blobs) == (Holding(t', log', tail), r)
  }

  ghost predicate PutSimulated(s: Store, t: Tree, log: seq<Call>, blobs: seq<Blob>, script: seq<Fault>,
                               log': seq<Call>) {
    WellFormed(TreePut(s, t, blobs).0) && forall tail :: PutAt(s, t, log, blobs, script, log', tail)
  }

  ghost predicate DeleteAt(s: Store, t: Tree, log: seq<Call>, ks: seq<string>, script: seq<Fault>, log': seq<Call>,
                           tail: seq<Fault>) {
    var (t', r) := TreeDelete(s, t, ks);
    Delete(s, Holding(t, log, script + tail), ks) == (Holding(t', log', tail), r)
  }

  ghost predicate DeleteSimulated(s: Store, t: Tree, log: seq<Call>, ks: seq<string>, script: seq<Fault>,
                                  log': seq<Call>) {
    WellFormed(TreeDelete(s, t, ks).0) && forall tail :: DeleteAt(s, t, log, ks, script, log', tail)
  }

  // ---------------------------------------------------------------------------
  // The layers
  // ---------------------------------------------------------------------------

  /** The backend objects a delete of `ks` asks for, in order. */
  function Objects(s: Store, ks: seq<string>): seq<string> {
    match s
    case Base => ks
    case Prefixed(p, inner) => Objects(inner, AddPrefix(p, ks))
    case Encrypted(_, x, inner) => Objects(inner, WithHeaders(x, ks))
    case Cleanable(inner) => Objects(inner, ks)
  }

  /** The faults of a delete: the collisions among its objects, if it gets that far. */
  ghost function DeleteScript(s: Store, t: Tree, ks: seq<string>): (script: seq<Fault>)
    ensures CallFails !in script
  {
    if AllAccepted(s, ks) then Collisions(t, Objects(s, ks)) else []
  }

  function DeleteLog(s: Store, log: seq<Call>, ks: seq<string>): seq<Call> {
    if AllAccepted(s, ks) then log + [DeleteCall(Objects(s, ks))] else log
  }

  lemma {:induction false} TreeDeleteRejects(s: Store, t: Tree, ks: seq<string>)
    requires !AllAccepted(s, ks)
    ensures TreeDelete(s, t, ks) == (t, Err(InvalidInput))
  {
    match s
    case Base =>
    case Prefixed(p, inner) =>
      if PrefixAcceptsAll(p, ks) {
        M.RefusedUnderPrefix(p, inner, ks);
        TreeDeleteRejects(inner, t, AddPrefix(p, ks));
      }
    case Encrypted(provider, x, inner) =>
      if NoHeaderKeys(x, ks) {
        M.RefusedUnderEncryption(provider, x, inner, ks);
        TreeDeleteRejects(inner, t, WithHeaders(x, ks));
      }
    case Cleanable(inner) => TreeDeleteRejects(inner, t, ks);
  }

  /** A refused delete uses no fault. */
  lemma RefusedDelete(s: Store, t: Tree, log: seq<Call>, ks: seq<string>)
    requires WellFormed(t) && !AllAccepted(s, ks)
    ensures DeleteSimulated(s, t, log, ks, [], log)
  {
    TreeDeleteRejects(s, t, ks);
    forall tail
      ensures DeleteAt(s, t, log, ks, [], log, tail)
    {
      EmptyScript(tail);
      M.DeleteRejectsAll(s, Holding(t, log, tail), ks);
    }
  }

  lemma RefusedPut(s: Store, t: Tree, log: seq<Call>, blobs: seq<Blob>)
    requires WellFormed(t) && TreePut(s, t, blobs) == (t, Err(InvalidInput))
    requires forall w: World :: Put(s, w, blobs) == (w, Err(InvalidInput))
    ensures PutSimulated(s, t, log, blobs, [], log)
  {
    forall tail
      ensures PutAt(s, t, log, blobs, [], log, tail)
    {
      EmptyScript(tail);
    }
  }

  /** `delete` through any stack over the tree is `delete` over the backend where exactly
      the accesses to colliding objects fail; nothing breaks off the call. */
  lemma {:induction false} DeleteSim(s: Store, t: Tree, log: seq<Call>, ks: seq<string>)
    requires WellFormed(t)
    ensures DeleteSimulated(s, t, log, ks, DeleteScript(s, t, ks), DeleteLog(s, log, ks))
    decreases s
  {
    if !AllAccepted(s, ks) {
      RefusedDelete(s, t, log, ks);
    } else {
      AcceptedSim(s, t, log, ks);
    }
  }

  lemma {:induction false} AcceptedSim(s: Store, t: Tree, log: seq<Call>, ks: seq<string>)
    requires WellFormed(t) && AllAccepted(s, ks)
    ensures DeleteSimulated(s, t, log, ks, Collisions(t, Objects(s, ks)), log + [DeleteCall(Objects(s, ks))])
    decreases s
  {
    var script, log' := Collisions(t, Objects(s, ks)), log + [DeleteCall(Objects(s, ks))];
    match s
    case Base =>
      FsDelete(t, log', ks, [], []);
      forall tail
        ensures DeleteAt(s, t, log, ks, script, log', tail)
      {
        assert BaseDeleteAt(t, log', ks, [], [], script, tail);
      }
    case Prefixed(p, inner) =>
      AllAcceptedBeneath(p, inner, ks);
      AcceptedSim(inner, t, log, AddPrefix(p, ks));
      forall tail
        ensures DeleteAt(s, t, log, ks, script, log', tail)
      {
        assert DeleteAt(inner, t, log, AddPrefix(p, ks), script, log', tail);
      }
    case Encrypted(_, x, inner) =>
      WithHeadersMembers(x, ks);
      AcceptedSim(inner, t, log, WithHeaders(x, ks));
      forall tail
        ensures DeleteAt(s, t, log, ks, script, log', tail)
      {
        assert DeleteAt(inner, t, log, WithHeaders(x, ks), script, log', tail);
      }
    case Cleanable(inner) =>
      AcceptedSim(inner, t, log, ks);
      forall tail
        ensures DeleteAt(s, t, log, ks, script, log', tail)
      {
        assert DeleteAt(inner, t, log, ks, script, log', tail);
      }
  }

  /** So is `put`, whose script ends with the first colliding object. */
  lemma {:induction false} PutSim(s: Store, t: Tree, log: seq<Call>, blobs: seq<Blob>)
      returns (script: seq<Fault>, log': seq<Call>)
    requires WellFormed(t)
    ensures PutSimulated(s, t, log, blobs, script, log')
    decreases s, 0, 0
  {
    script, log' := [], log;
    match s
    case Base =>
      if !AllBlobsValid(blobs) { RefusedPut(s, t, log, blobs); return; }
      script, log' := FsPut(t, log, blobs, []);
      forall tail
        ensures PutAt(s, t, log, blobs, script, log', tail)
      {
        assert BasePutAt(t, log, blobs, [], script, log', tail);
      }
    case Prefixed(p, inner) =>
      if !PrefixAcceptsBlobs(p, blobs) { RefusedPut(s, t, log, blobs); return; }
      script, log' := PutSim(inner, t, log, PrefixBlobs(p, blobs));
      forall tail
        ensures PutAt(s, t, log, blobs, script, log', tail)
      {
        assert PutAt(inner, t, log, PrefixBlobs(p, blobs), script, log', tail);
      }
    case Encrypted(provider, x, inner) =>
      if !EncryptAcceptsBlobs(x, blobs) { RefusedPut(s, t, log, blobs); return; }
      script, log' := PutFromSim(provider, x, inner, t, log, blobs, []);
      forall tail
        ensures PutAt(s, t, log, blobs, script, log', tail)
      {
        assert PutFromAt(provider, x, inner, t, log, blobs, [], script, log', tail);
      }
    case Cleanable(inner) =>
      script, log' := PutSim(inner, t, log, blobs);
      forall tail
        ensures PutAt(s, t, log, blobs, script, log', tail)
      {
        assert PutAt(inner, t, log, blobs, script, log', tail);
      }
  }

  ghost predicate PutFromAt(provider: Provider, x: string, inner: Store, t: Tree, log: seq<Call>, blobs: seq<Blob>,
                            metas: seq<string>, script: seq<Fault>, log': seq<Call>, tail: seq<Fault>) {
    var (t', r) := TreePutFrom(provider, x, inner, t, blobs, metas);
    EncryptedPutFrom(provider, x, inner, Holding(t, log, script + tail), blobs, metas) == (Holding(t', log', tail), r)
  }

  lemma {:induction false} PutFromSim(provider: Provider, x: string, inner: Store, t: Tree, log: seq<Call>,
                                      blobs: seq<Blob>, metas: seq<string>)
      returns (script: seq<Fault>, log': seq<Call>)
    requires WellFormed(t)
    ensures WellFormed(TreePutFrom(provider, x, inner, t, blobs, metas).0)
    ensures forall tail :: PutFromAt(provider, x, inner, t, log, blobs, metas, script, log', tail)
    ensures Encryptions(inner) == 0 && AllAccepted(Encrypted(provider, x, inner), KeysOf(blobs)) ==>
              forall tail :: CleanAt(provider, x, inner, t, log, blobs, script, tail)
    decreases inner, 2, |blobs|
  {
    if blobs == [] {
      script, log' := [], log;
      forall tail
        ensures PutFromAt(provider, x, inner, t, log, blobs, metas, script, log', tail)
      {
        EmptyScript(tail);
      }
      return;
    }
    assert KeysOf(blobs) == [blobs[0].key] + KeysOf(blobs[1..]);
    var first, log1 := PutOneSim(provider, x, inner, t, log, blobs[0]);
    var (t1, r) := TreePutOne(provider, x, inner, t, blobs[0]);
    script, log' := first, log1;
    if r.Ok? {
      var later;
      later, log' := PutFromSim(provider, x, inner, t1, log1, blobs[1..], metas + r.value);
      script := first + later;
      forall tail
        ensures PutFromAt(provider, x, inner, t, log, blobs, metas, script, log', tail)
      {
        Assoc(first, later, tail);
        assert PutOneAt(provider, x, inner, t, log, blobs[0], first, log1, later + tail);
        assert PutFromAt(provider, x, inner, t1, log1, blobs[1..], metas + r.value, later, log', tail);
      }
      forall tail | Encryptions(inner) == 0 && AllAccepted(Encrypted(provider, x, inner), KeysOf(blobs))
        ensures CleanAt(provider, x, inner, t, log, blobs, script, tail)
      {
        Assoc(first, later, tail);
        assert PutOneAt(provider, x, inner, t, log, blobs[0], first, log1, later + tail);
        assert FateAt(provider, x, inner, t, log, blobs[0], first, later + tail);
        assert CleanAt(provider, x, inner, t1, log1, blobs[1..], later, tail);
        forall l
          ensures LedgerAt(provider, x, inner, t, log, blobs, script, tail, l)
        {
          var l1 := TreeRecorded(provider, x, inner, t, blobs[0], l);
          assert LedgerAt(provider, x, inner, t1, log1, blobs[1..], later, tail, l1);
        }
      }
    } else {
      forall tail
        ensures PutFromAt(provider, x, inner, t, log, blobs, metas, script, log', tail)
      {
        assert PutOneAt(provider, x, inner, t, log, blobs[0], first, log1, tail);
      }
      forall tail | Encryptions(inner) == 0 && AllAccepted(Encrypted(provider, x, inner), KeysOf(blobs))
        ensures CleanAt(provider, x, inner, t, log, blobs, script, tail)
      {
        assert PutOneAt(provider, x, inner, t, log, blobs[0], first, log1, tail);
        assert FateAt(provider, x, inner, t, log, blobs[0], first, tail);
      }
    }
  }

  /** What is recorded of one blob: by the outcome its put reported on the tree. */
  ghost function TreeRecorded(p: Provider, x: string, inner: Store, t: Tree, b: Blob, l: R.Ledger): R.Ledger {
    match TreeFate(p, x, inner, t, b)
    case Kept => R.Ledger(l.latest[b.key := b.data], l.sure + {b.key})
    case Untouched => l
    case _ => l.(sure := l.sure - {b.key})
  }

  ghost function TreePutLedger(p: Provider, x: string, inner: Store, t: Tree, blobs: seq<Blob>, l: R.Ledger): R.Ledger
    decreases |blobs|
  {
    if blobs == [] then l
    else
      var (t1, r) := TreePutOne(p, x, inner, t, blobs[0]);
      var l1 := TreeRecorded(p, x, inner, t, blobs[0], l);
      if r.Err? then l1 else TreePutLedger(p, x, inner, t1, blobs[1..], l1)
  }

  /** No rollback of the batch fails over an old header, and the backend's ledger of the
      batch is the tree's. */
  ghost predicate CleanAt(p: Provider, x: string, inner: Store, t: Tree, log: seq<Call>, blobs: seq<Blob>,
                          script: seq<Fault>, tail: seq<Fault>) {
    && R.PutClean(p, x, inner, Holding(t, log, script + tail), blobs)
    && forall l :: LedgerAt(p, x, inner, t, log, blobs, script, tail, l)
  }

  ghost predicate LedgerAt(p: Provider, x: string, inner: Store, t: Tree, log: seq<Call>, blobs: seq<Blob>,
                           script: seq<Fault>, tail: seq<Fault>, l: R.Ledger) {
    R.PutLedger(p, x, inner, Holding(t, log, script + tail), blobs, l) == TreePutLedger(p, x, inner, t, blobs, l)
  }

  ghost predicate PutOneAt(provider: Provider, x: string, inner: Store, t: Tree, log: seq<Call>, b: Blob,
                           script: seq<Fault>, log': seq<Call>, tail: seq<Fault>) {
    var (t', r) := TreePutOne(provider, x, inner, t, b);
    EncryptedPutOne(provider, x, inner, Holding(t, log, script + tail), b) == (Holding(t', log', tail), r)
  }

  // ---------------------------------------------------------------------------
  // Single objects through layers without encryption
  // ---------------------------------------------------------------------------

  /** One accepted blob is one file written, under the joined prefixes. */
  lemma {:induction false} TreePutSingle(s: Store, t: Tree, b: Blob)
    requires Encryptions(s) == 0 && Accepts(s, b.key)
    ensures TreePut(s, t, [b])
         == (var (t1, ok) := PutFile(t, Split(Full(s, b.key)), b.data);
             (t1, if ok then Ok([b.key]) else Err(Storage)))
  {
    match s
    case Base =>
      assert Full(s, b.key) == b.key;
      WriteOne(t, b);
    case Prefixed(p, inner) =>
      var b' := b.(key := p + b.key);
      assert PrefixBlobs(p, [b]) == [b'];
      TreePutSingle(inner, t, b');
      Assoc(Pre(inner), p, b.key);
      StripAdded(p, [b.key]);
      assert AddPrefix(p, [b.key]) == [b'.key];
    case Cleanable(inner) =>
      TreePutSingle(inner, t, b);
  }

  lemma WriteOne(t: Tree, b: Blob)
    requires Valid(b.key)
    ensures AllBlobsValid([b])
    ensures PutFiles(t, Pairs([b]), [])
         == (var (t1, ok) := PutFile(t, Split(b.key), b.data);
             (t1, if ok then Ok([b.key]) else Err(Storage)))
  {
    assert [b][1..] == [] && Pairs([b]) == [(b.key, b.data)];
    assert [(b.key, b.data)][1..] == [] && [] + [b.key] == [b.key];
    var t1 := PutFile(t, Split(b.key), b.data).0;
    assert PutFiles(t1, [], [b.key]) == (t1, Ok([b.key]));
  }

  /** One accepted key is one file removed. */
  lemma {:induction false} TreeDeleteSingle(s: Store, t: Tree, k: string)
    requires Encryptions(s) == 0 && Accepts(s, k)
    ensures TreeDelete(s, t, [k]).0 == RemoveFile(t, Split(Full(s, k))).0
  {
    match s
    case Base =>
      assert Full(s, k) == k && AllValid([k]);
      RemoveOne(t, k);
    case Prefixed(p, inner) =>
      Assoc(Pre(inner), p, k);
      assert AddPrefix(p, [k]) == [p + k];
      TreeDeleteSingle(inner, t, p + k);
    case Cleanable(inner) =>
      TreeDeleteSingle(inner, t, k);
  }

  lemma RemoveOne(t: Tree, k: string)
    ensures RemoveFiles(t, [k], [], []).0 == RemoveFile(t, Split(k)).0
  {
    var (t1, ok) := RemoveFile(t, Split(k));
    assert [k][1..] == [] && [] + [k] == [k];
    assert RemoveFiles(t1, [], [k], []).0 == t1 && RemoveFiles(t1, [], [], [k]).0 == t1;
  }

  lemma {:induction false} FullIsValid(s: Store, k: string)
    requires Encryptions(s) == 0 && Accepts(s, k)
    ensures Valid(Full(s, k))
  {
    match s
    case Base => assert Full(s, k) == k;
    case Prefixed(p, inner) =>
      Assoc(Pre(inner), p, k);
      FullIsValid(inner, p + k);
    case Cleanable(inner) => FullIsValid(inner, k);
  }

  /** A file that is there can be removed. */
  lemma FileGoes(t: Tree, k: string)
    requires WellFormed(t) && k in Files(t)
    ensures k !in Files(RemoveFile(t, Split(k)).0)
  {
    FilesAt(t, k);
    FileHasNoFileAbove(t, Split(k));
    FilesRemoved(t, k);
  }

  /** A put that fails once its data object is stored takes that object back. */
  lemma RolledBack(p: Provider, x: string, inner: Store, t: Tree, b: Blob)
    requires WellFormed(t) && Encryptions(inner) == 0 && Accepts(Encrypted(p, x, inner), b.key)
    requires TreePut(inner, t, [b.(data := Ciphertext(p, b))]).1.Ok? && TreePutOne(p, x, inner, t, b).1.Err?
    ensures Full(inner, b.key) !in Files(TreePutOne(p, x, inner, t, b).0)
  {
    var data, d := b.(data := Ciphertext(p, b)), Full(inner, b.key);
    TreePutSingle(inner, t, data);
    FullIsValid(inner, b.key);
    ValidPath(d);
    PutKeepsWellFormed(t, Split(d), data.data);
    FilesStored(t, d, data.data);
    var t1 := PutFile(t, Split(d), data.data).0;
    FileGoes(t1, d);
    TreeDeleteSingle(inner, t1, b.key);
    if b.sealing.Completes? {
      TreePutSingle(inner, t1, Blob(b.key + x, p.seal(b.sealing.nonce, b.data).header, b.sealing));
    }
  }

  /** How storing one blob ends on the tree, told from what the calls on it return: there
      is no fourth case, a data object that could not be taken back. */
  ghost function TreeFate(p: Provider, x: string, inner: Store, t: Tree, b: Blob): R.Fate {
    if TreePutOne(p, x, inner, t, b).1.Ok? then R.Kept
    else if TreePut(inner, t, [b.(data := Ciphertext(p, b))]).1.Err? then R.Untouched
    else R.RolledBack
  }

  /** So collisions never strand a data object. */
  lemma FateMatches(p: Provider, x: string, inner: Store, t: Tree, log: seq<Call>, b: Blob, first: seq<Fault>,
                    log1: seq<Call>, log': seq<Call>, faults: seq<Fault>, rest: seq<Fault>, tail: seq<Fault>)
    requires WellFormed(t) && Encryptions(inner) == 0 && Accepts(Encrypted(p, x, inner), b.key)
    requires faults == first + rest
    requires PutAt(inner, t, log, [b.(data := Ciphertext(p, b))], first, log1, rest)
    requires EncryptedPutOne(p, x, inner, Holding(t, log, faults), b)
          == (Holding(TreePutOne(p, x, inner, t, b).0, log', tail), TreePutOne(p, x, inner, t, b).1)
    ensures R.FateOf(Holding(t, log, faults), b) == TreeFate(p, x, inner, t, b)
  {
    var w := Holding(t, log, faults);
    R.PutOneObjects(p, x, inner, w, b);
    PutSingle(inner, w, b.(data := Ciphertext(p, b)));
    if TreePut(inner, t, [b.(data := Ciphertext(p, b))]).1.Ok? && TreePutOne(p, x, inner, t, b).1.Err? {
      RolledBack(p, x, inner, t, b);
    }
  }

  ghost predicate FateAt(p: Provider, x: string, inner: Store, t: Tree, log: seq<Call>, b: Blob, script: seq<Fault>,
                         tail: seq<Fault>) {
    R.FateOf(Holding(t, log, script + tail), b) == TreeFate(p, x, inner, t, b)
  }

  lemma {:induction false} PutOneSim(provider: Provider, x: string, inner: Store, t: Tree, log: seq<Call>, b: Blob)
      returns (script: seq<Fault>, log': seq<Call>)
    requires WellFormed(t)
    ensures WellFormed(TreePutOne(provider, x, inner, t, b).0)
    ensures forall tail :: PutOneAt(provider, x, inner, t, log, b, script, log', tail)
    ensures Encryptions(inner) == 0 && Accepts(Encrypted(provider, x, inner), b.key) ==>
              forall tail :: FateAt(provider, x, inner, t, log, b, script, tail)
    decreases inner, 1, 0
  {
    var data := b.(data := Ciphertext(provider, b));
    var first, log1 := PutSim(inner, t, log, [data]);
    var (t1, stored) := TreePut(inner, t, [data]);
    script, log' := first, log1;
    if stored.Err? {
      forall tail
        ensures PutOneAt(provider, x, inner, t, log, b, script, log', tail)
      {
        assert PutAt(inner, t, log, [data], first, log1, tail);
      }
      forall tail | Encryptions(inner) == 0 && Accepts(Encrypted(provider, x, inner), b.key)
        ensures FateAt(provider, x, inner, t, log, b, script, tail)
      {
        assert PutAt(inner, t, log, [data], first, log1, tail);
        assert PutOneAt(provider, x, inner, t, log, b, script, log', tail);
        FateMatches(provider, x, inner, t, log, b, first, log1, log', script + tail, tail, tail);
      }
    } else {
      var later;
      later, log' := FinishSim(provider, x, inner, t1, log1, b, stored.value);
      script := first + later;
      forall tail
        ensures PutOneAt(provider, x, inner, t, log, b, script, log', tail)
      {
        Assoc(first, later, tail);
        assert PutAt(inner, t, log, [data], first, log1, later + tail);
        assert FinishAt(provider, x, inner, t1, log1, b, stored.value, later, log', tail);
      }
      forall tail | Encryptions(inner) == 0 && Accepts(Encrypted(provider, x, inner), b.key)
        ensures FateAt(provider, x, inner, t, log, b, script, tail)
      {
        Assoc(first, later, tail);
        assert PutAt(inner, t, log, [data], first, log1, later + tail);
        assert PutOneAt(provider, x, inner, t, log, b, script, log', tail);
        FateMatches(provider, x, inner, t, log, b, first, log1, log', script + tail, later + tail, tail);
      }
    }
  }

  ghost predicate FinishAt(provider: Provider, x: string, inner: Store, t: Tree, log: seq<Call>, b: Blob,
                           stored: seq<string>, script: seq<Fault>, log': seq<Call>, tail: seq<Fault>) {
    var (t', r) := TreeFinish(provider, x, inner, t, b, stored);
    FinishPut(provider, x, inner, Holding(t, log, script + tail), b, stored) == (Holding(t', log', tail), r)
  }

  lemma {:induction false} FinishSim(provider: Provider, x: string, inner: Store, t: Tree, log: seq<Call>, b: Blob,
                                     stored: seq<string>)
      returns (script: seq<Fault>, log': seq<Call>)
    requires WellFormed(t)
    ensures WellFormed(TreeFinish(provider, x, inner, t, b, stored).0)
    ensures forall tail :: FinishAt(provider, x, inner, t, log, b, stored, script, log', tail)
    decreases inner, 0, 1
  {
    if b.sealing.Breaks? {
      script, log' := DeleteScript(inner, t, [b.key]), DeleteLog(inner, log, [b.key]);
      DeleteSim(inner, t, log, [b.key]);
      forall tail
        ensures FinishAt(provider, x, inner, t, log, b, stored, script, log', tail)
      {
        assert DeleteAt(inner, t, log, [b.key], script, log', tail);
      }
    } else {
      var header := Blob(b.key + x, provider.seal(b.sealing.nonce, b.data).header, b.sealing);
      var first, log1 := PutSim(inner, t, log, [header]);
      var (t1, wrapped) := TreePut(inner, t, [header]);
      script, log' := first, log1;
      if wrapped.Ok? {
        forall tail
          ensures FinishAt(provider, x, inner, t, log, b, stored, script, log', tail)
        {
          assert PutAt(inner, t, log, [header], first, log1, tail);
        }
      } else {
        var later := DeleteScript(inner, t1, [b.key]);
        log' := DeleteLog(inner, log1, [b.key]);
        DeleteSim(inner, t1, log1, [b.key]);
        script := first + later;
        forall tail
          ensures FinishAt(provider, x, inner, t, log, b, stored, script, log', tail)
        {
          Assoc(first, later, tail);
          assert PutAt(inner, t, log, [header], first, log1, later + tail);
          assert DeleteAt(inner, t1, log1, [b.key], later, log', tail);
        }
      }
    }
  }

  // ---------------------------------------------------------------------------
  // What the theorems on stacks say of the tree
  // ---------------------------------------------------------------------------

  lemma {:induction false} WithHeadersAt(x: string, ks: seq<string>, i: nat)
    requires i < |ks|
    ensures |WithHeaders(x, ks)| == 2 * |ks| && WithHeaders(x, ks)[2 * i] == ks[i]
    ensures WithHeaders(x, ks)[..2 * i] == WithHeaders(x, ks[..i])
  {
    WithHeadersLength(x, ks);
    if i > 0 {
      WithHeadersAt(x, ks[1..], i - 1);
      var rest := WithHeaders(x, ks[1..]);
      assert WithHeaders(x, ks)[2 * i] == rest[2 * (i - 1)];
      assert ks[..i] == [ks[0]] + ks[1..][..i - 1];
      assert WithHeaders(x, ks)[..2 * i] == [ks[0], ks[0] + x] + rest[..2 * (i - 1)];
    }
  }

  /** Where the data object of the `i`-th key stands among the objects. */
  lemma {:induction false} ObjectsAt(s: Store, ks: seq<string>, i: nat)
    requires i < |ks|
    ensures Stride(s) > 0 && |Objects(s, ks)| == Times(Stride(s), |ks|) > Times(Stride(s), i)
    ensures Objects(s, ks)[Times(Stride(s), i)] == Full(s, ks[i])
    ensures Objects(s, ks)[..Times(Stride(s), i)] == Objects(s, ks[..i])
    decreases s
  {
    match s
    case Base =>
      OneEach(i);
      OneEach(|ks|);
      assert Full(s, ks[i]) == ks[i];
    case Prefixed(p, inner) =>
      ObjectsAt(inner, AddPrefix(p, ks), i);
      Assoc(Pre(inner), p, ks[i]);
      assert AddPrefix(p, ks)[..i] == AddPrefix(p, ks[..i]);
    case Encrypted(_, x, inner) =>
      WithHeadersAt(x, ks, i);
      ObjectsAt(inner, WithHeaders(x, ks), 2 * i);
      TwiceAsMany(Stride(inner), i);
      TwiceAsMany(Stride(inner), |ks|);
      assert Full(s, ks[i]) == Full(inner, ks[i]);
    case Cleanable(inner) => ObjectsAt(inner, ks, i);
  }

  /** The tree when the `i`-th key's turn comes. */
  ghost function Before(s: Store, t: Tree, ks: seq<string>, i: nat): Tree
    requires i <= |ks|
  {
    Pruned(t, Objects(s, ks[..i]))
  }

  /** The data object of the `i`-th key is blocked at its turn: a file is above it, or a
      directory has its name. */
  ghost predicate DataBlocked(s: Store, t: Tree, ks: seq<string>, i: nat)
    requires i < |ks|
  {
    Blocked(Before(s, t, ks, i), Full(s, ks[i]))
  }

  lemma DataBlockedAt(s: Store, t: Tree, ks: seq<string>, i: nat)
    requires i < |ks|
    ensures FaultAt(Collisions(t, Objects(s, ks)), Times(Stride(s), i)) == Fine <==> !DataBlocked(s, t, ks, i)
  {
    ObjectsAt(s, ks, i);
    CollisionAt(t, Objects(s, ks), Times(Stride(s), i));
  }

  /** No fault hits a data object exactly if none is blocked. */
  lemma DataFaultsAre(s: Store, t: Tree, ks: seq<string>)
    ensures NoDataFault(|ks|, Collisions(t, Objects(s, ks)), Stride(s))
       <==> forall i :: 0 <= i < |ks| ==> !DataBlocked(s, t, ks, i)
  {
    forall i: nat | i < |ks|
      ensures FaultAt(Collisions(t, Objects(s, ks)), Times(Stride(s), i)) == Fine <==> !DataBlocked(s, t, ks, i)
    {
      DataBlockedAt(s, t, ks, i);
    }
  }

  /** The delete on the backend that the delete on the tree amounts to. */
  lemma TreeDeleteIs(s: Store, t: Tree, ks: seq<string>)
    requires WellFormed(t) && AllAccepted(s, ks)
    ensures var (t', r) := TreeDelete(s, t, ks);
            var done := Delete(s, Holding(t, [], Collisions(t, Objects(s, ks))), ks);
            done.0.objs == Files(t') && done.1 == r
  {
    var script := Collisions(t, Objects(s, ks));
    AcceptedSim(s, t, [], ks);
    assert DeleteAt(s, t, [], ks, script, [] + [DeleteCall(Objects(s, ks))], []);
    assert script + [] == script;
  }

  /** The files of exactly the unblocked objects are gone. */
  lemma {:induction false} TreeDeletePrunes(s: Store, t: Tree, ks: seq<string>)
    requires AllAccepted(s, ks)
    ensures TreeDelete(s, t, ks).0 == Pruned(t, Objects(s, ks))
    decreases s
  {
    match s
    case Base => PrunedIs(t, ks, [], []);
    case Prefixed(p, inner) =>
      AllAcceptedBeneath(p, inner, ks);
      TreeDeletePrunes(inner, t, AddPrefix(p, ks));
    case Encrypted(_, x, inner) =>
      WithHeadersMembers(x, ks);
      TreeDeletePrunes(inner, t, WithHeaders(x, ks));
    case Cleanable(inner) => TreeDeletePrunes(inner, t, ks);
  }

  lemma TreeDeleteOutcome(s: Store, t: Tree, ks: seq<string>)
    requires WellFormed(t) && AllAccepted(s, ks)
    ensures var r := TreeDelete(s, t, ks).1;
            && (r.Ok? <==> NoDataFault(|ks|, Collisions(t, Objects(s, ks)), Stride(s)))
            && (r.Err? ==> r.error.Batch? && multiset(r.error.succeeded) + multiset(r.error.errors) == multiset(ks))
  {
    TreeDeleteIs(s, t, ks);
    DeleteCompletes(s, Holding(t, [], Collisions(t, Objects(s, ks))), ks);
  }

  lemma TreeDeleteGone(s: Store, t: Tree, ks: seq<string>)
    requires WellFormed(t) && AllAccepted(s, ks)
    ensures var (t', r) := TreeDelete(s, t, ks);
            forall k :: k in ks && (r.Ok? || (r.error.Batch? && k !in r.error.errors)) ==>
              Full(s, k) !in Files(t') && !Visible(s, Files(t'), k)
  {
    TreeDeleteIs(s, t, ks);
    DeleteGone(s, Holding(t, [], Collisions(t, Objects(s, ks))), ks);
    var (t', r) := TreeDelete(s, t, ks);
    forall k | k in ks && (r.Ok? || (r.error.Batch? && k !in r.error.errors))
      ensures Full(s, k) !in Files(t') && !Visible(s, Files(t'), k)
    {
      if Visible(s, Files(t'), k) { VisibleIsProper(s, Files(t'), k); }
    }
  }

  /** Through any stack over the filesystem, a delete of accepted keys is `Ok` exactly if no
      data object is blocked at its turn; otherwise it reports a permutation of the
      caller's keys, for no collision makes it break off. Every key not reported as failed
      has lost its data object and is invisible. */
  lemma TreeDeleteReports(s: Store, t: Tree, ks: seq<string>)
    requires WellFormed(t) && AllAccepted(s, ks)
    ensures var (t', r) := TreeDelete(s, t, ks);
            && (r.Ok? <==> forall i :: 0 <= i < |ks| ==> !DataBlocked(s, t, ks, i))
            && (r.Err? ==> r.error.Batch? && multiset(r.error.succeeded) + multiset(r.error.errors) == multiset(ks))
            && (forall k :: k in ks && (r.Ok? || k !in r.error.errors) ==>
                  Full(s, k) !in Files(t') && !Visible(s, Files(t'), k))
  {
    TreeDeleteOutcome(s, t, ks);
    DataFaultsAre(s, t, ks);
    TreeDeleteGone(s, t, ks);
  }
}
