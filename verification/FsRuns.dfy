/** Histories of an encrypted store on the filesystem, judged by what the operations on the
    tree report. */
module FsRuns {
  import opened Keys
  import opened Stores
  import opened Layers
  import opened Writes
  import opened Rekeys
  import opened FsTree
  import opened FsBackend
  import opened FsStacks
  import opened FsStackReads
  import R = EncryptedRuns

  // ---------------------------------------------------------------------------
  // Re-keying over the tree
  // ---------------------------------------------------------------------------

  ghost function TreeRekeyVisit(p: Provider, inner: Store, t: Tree, k: string, count: nat): (Tree, Result<nat>) {
    var header := TreeGet(inner, t, k);
    if header.Err? then (t, Ok(count))
    else if header.value.FailsAtEnd? then (t, Err(Storage))
    else
      match p.rewrap(header.value.bytes)
      case Rewrapped(renewed) =>
        var (t1, r) := TreePut(inner, t, [Blob(k, renewed, Completes([]))]);
        (t1, Ok(if r.Ok? then count + 1 else count))
      case _ => (t, Ok(count))
  }

  /** The traversal presents the header objects among `order`. */
  ghost function TreeRekey(p: Provider, x: string, inner: Store, t: Tree, order: seq<string>, count: nat)
    : (Tree, Result<nat>)
    decreases |order|
  {
    if order == [] then (t, Ok(count))
    else if !IsHeader(inner, x, order[0]) then TreeRekey(p, x, inner, t, order[1..], count)
    else
      var (t1, r) := TreeRekeyVisit(p, inner, t, order[0][|Pre(inner)|..], count);
      if r.Err? then (t1, r) else TreeRekey(p, x, inner, t1, order[1..], r.value)
  }

  lemma {:induction false} TreeGetSingle(s: Store, t: Tree, k: string)
    requires Encryptions(s) == 0 && Full(s, k) in Files(t)
    ensures TreeGet(s, t, k) == if Accepts(s, k) then Ok(Delivers(Files(t)[Full(s, k)])) else Err(InvalidInput)
  {
    match s
    case Base =>
      assert Full(s, k) == k;
      FilesAt(t, k);
    case Prefixed(p, inner) =>
      Assoc(Pre(inner), p, k);
      TreeGetSingle(inner, t, p + k);
    case Cleanable(inner) => TreeGetSingle(inner, t, k);
  }

  ghost predicate VisitAt(p: Provider, inner: Store, t: Tree, log: seq<Call>, k: string, count: nat,
                          script: seq<Fault>, log': seq<Call>, tail: seq<Fault>) {
    var (t', r) := TreeRekeyVisit(p, inner, t, k, count);
    RekeyVisit(p, inner, Holding(t, log, script + tail), k, count) == (Holding(t', log', tail), r)
  }

  /** Overwriting a file that is there never collides. */
  lemma Overwrite(t: Tree, o: string, data: Bytes)
    requires WellFormed(t) && Valid(o) && o in Files(t)
    ensures var (t', ok) := PutFile(t, Split(o), data);
            ok && WellFormed(t') && Files(t') == Files(t)[o := data]
  {
    FilesAt(t, o);
    ValidPath(o);
    FileHasNoFileAbove(t, Split(o));
    FilesStored(t, o, data);
    PutKeepsWellFormed(t, Split(o), data);
  }

  lemma RefusedVisitAt(p: Provider, inner: Store, t: Tree, log: seq<Call>, k: string, count: nat, tail: seq<Fault>)
    requires Encryptions(inner) == 0 && Full(inner, k) in Files(t) && !Accepts(inner, k)
    ensures VisitAt(p, inner, t, log, k, count, [], log, tail)
    ensures TreeRekeyVisit(p, inner, t, k, count) == (t, Ok(count))
  {
    TreeGetSingle(inner, t, k);
    EmptyScript(tail);
    VisitRejected(p, inner, Holding(t, log, tail), k, count);
  }

  lemma KeptVisitAt(p: Provider, inner: Store, t: Tree, log: seq<Call>, k: string, count: nat, tail: seq<Fault>)
    requires Encryptions(inner) == 0 && Full(inner, k) in Files(t) && Accepts(inner, k)
    requires !p.rewrap(Files(t)[Full(inner, k)]).Rewrapped?
    ensures VisitAt(p, inner, t, log, k, count, [Fine, Fine], log + [GetCall(Full(inner, k))], tail)
    ensures TreeRekeyVisit(p, inner, t, k, count) == (t, Ok(count))
  {
    TreeGetSingle(inner, t, k);
    VisitAccepted(p, inner, Holding(t, log, [Fine, Fine] + tail), k, count);
    FineKept(p, t, log, Full(inner, k), count, tail);
  }

  lemma RenewedVisit(p: Provider, inner: Store, t: Tree, k: string, count: nat)
    requires WellFormed(t) && Encryptions(inner) == 0 && Full(inner, k) in Files(t) && Accepts(inner, k)
    requires p.rewrap(Files(t)[Full(inner, k)]).Rewrapped?
    ensures var o := Full(inner, k);
            var (t', r) := TreeRekeyVisit(p, inner, t, k, count);
            r == Ok(count + 1) && WellFormed(t') && Files(t') == Files(t)[o := p.rewrap(Files(t)[o]).header]
  {
    TreeGetSingle(inner, t, k);
    RenewedPut(inner, t, k, p.rewrap(Files(t)[Full(inner, k)]).header);
  }

  lemma RenewedPut(inner: Store, t: Tree, k: string, renewed: Bytes)
    requires WellFormed(t) && Encryptions(inner) == 0 && Full(inner, k) in Files(t) && Accepts(inner, k)
    ensures var (t', r) := TreePut(inner, t, [Blob(k, renewed, Completes([]))]);
            r.Ok? && WellFormed(t') && Files(t') == Files(t)[Full(inner, k) := renewed]
  {
    FullIsValid(inner, k);
    TreePutSingle(inner, t, Blob(k, renewed, Completes([])));
    Overwrite(t, Full(inner, k), renewed);
  }

  lemma RenewedVisitAt(p: Provider, inner: Store, t: Tree, log: seq<Call>, k: string, count: nat, tail: seq<Fault>)
    requires WellFormed(t) && Encryptions(inner) == 0 && Full(inner, k) in Files(t) && Accepts(inner, k)
    requires p.rewrap(Files(t)[Full(inner, k)]).Rewrapped?
    ensures var o := Full(inner, k);
            VisitAt(p, inner, t, log, k, count, [Fine, Fine, Fine],
                    log + [GetCall(o)] + [PutCall(o, p.rewrap(Files(t)[o]).header)], tail)
  {
    RenewedVisit(p, inner, t, k, count);
    VisitAccepted(p, inner, Holding(t, log, [Fine, Fine, Fine] + tail), k, count);
    FineRenewed(p, t, log, Full(inner, k), count, tail);
  }

  lemma VisitSim(p: Provider, inner: Store, t: Tree, log: seq<Call>, k: string, count: nat)
      returns (script: seq<Fault>, log': seq<Call>)
    requires WellFormed(t) && Encryptions(inner) == 0 && Full(inner, k) in Files(t)
    ensures var (t', r) := TreeRekeyVisit(p, inner, t, k, count);
            WellFormed(t') && Files(t').Keys == Files(t).Keys && r.Ok?
    ensures forall tail :: VisitAt(p, inner, t, log, k, count, script, log', tail)
  {
    var o := Full(inner, k);
    if !Accepts(inner, k) {
      script, log' := [], log;
      RefusedVisitAt(p, inner, t, log, k, count, []);
      forall tail { RefusedVisitAt(p, inner, t, log, k, count, tail); }
    } else if p.rewrap(Files(t)[o]).Rewrapped? {
      script, log' := [Fine, Fine, Fine], log + [GetCall(o)] + [PutCall(o, p.rewrap(Files(t)[o]).header)];
      RenewedVisit(p, inner, t, k, count);
      forall tail { RenewedVisitAt(p, inner, t, log, k, count, tail); }
    } else {
      script, log' := [Fine, Fine], log + [GetCall(o)];
      KeptVisitAt(p, inner, t, log, k, count, []);
      forall tail { KeptVisitAt(p, inner, t, log, k, count, tail); }
    }
  }

  /** Visits that nothing disturbs, on the backend. */
  lemma FineKept(p: Provider, t: Tree, log: seq<Call>, o: string, count: nat, tail: seq<Fault>)
    requires o in Files(t) && !p.rewrap(Files(t)[o]).Rewrapped?
    ensures FlatVisit(p, Holding(t, log, [Fine, Fine] + tail), o, count)
         == (Holding(t, log + [GetCall(o)], tail), Ok(count))
  {
    assert ([Fine, Fine] + tail)[1..] == [Fine] + tail && ([Fine] + tail)[1..] == tail;
  }

  lemma FineRenewed(p: Provider, t: Tree, log: seq<Call>, o: string, count: nat, tail: seq<Fault>)
    requires o in Files(t) && p.rewrap(Files(t)[o]).Rewrapped?
    ensures var renewed := p.rewrap(Files(t)[o]).header;
            FlatVisit(p, Holding(t, log, [Fine, Fine, Fine] + tail), o, count)
            == (World(Files(t)[o := renewed], log + [GetCall(o)] + [PutCall(o, renewed)], tail), Ok(count + 1))
  {
    assert ([Fine, Fine, Fine] + tail)[1..] == [Fine, Fine] + tail;
    assert ([Fine, Fine] + tail)[1..] == [Fine] + tail && ([Fine] + tail)[1..] == tail;
  }

  ghost predicate RekeyAt(p: Provider, x: string, inner: Store, t: Tree, log: seq<Call>, order: seq<string>, count: nat,
                          script: seq<Fault>, log': seq<Call>, tail: seq<Fault>) {
    var (t', r) := TreeRekey(p, x, inner, t, order, count);
    RekeyFrom(p, x, inner, Holding(t, log, script + tail), order, count) == (Holding(t', log', tail), r)
  }

  ghost predicate RekeySimulated(p: Provider, x: string, inner: Store, t: Tree, log: seq<Call>, order: seq<string>,
                                 count: nat, script: seq<Fault>, log': seq<Call>) {
    && WellFormed(TreeRekey(p, x, inner, t, order, count).0)
    && forall tail :: RekeyAt(p, x, inner, t, log, order, count, script, log', tail)
  }

  ghost predicate AllThere(t: Tree, order: seq<string>) {
    forall o :: o in order ==> o in Files(t)
  }

  /** Re-keying over the tree is re-keying over a backend where nothing fails. */
  lemma {:induction false} RekeySim(p: Provider, x: string, inner: Store, t: Tree, log: seq<Call>, order: seq<string>,
                                    count: nat)
      returns (script: seq<Fault>, log': seq<Call>)
    requires WellFormed(t) && Encryptions(inner) == 0 && AllThere(t, order)
    ensures RekeySimulated(p, x, inner, t, log, order, count, script, log')
    decreases |order|
  {
    if order == [] {
      script, log' := [], log;
      forall tail
        ensures RekeyAt(p, x, inner, t, log, order, count, script, log', tail)
      {
        EmptyScript(tail);
      }
      return;
    }
    var o, rest := order[0], order[1..];
    assert o in order && AllThere(t, rest);
    var later;
    if !IsHeader(inner, x, o) {
      later, log' := RekeySim(p, x, inner, t, log, rest, count);
      script := [Fine] + later;
      PassedSim(p, x, inner, t, log, order, count, later, log');
    } else {
      HeaderReached(inner, x, Holding(t, log, []), o);
      var first, log1 := VisitSim(p, inner, t, log, o[|Pre(inner)|..], count);
      var (t1, r) := TreeRekeyVisit(p, inner, t, o[|Pre(inner)|..], count);
      later, log' := RekeySim(p, x, inner, t1, log1, rest, r.value);
      script := [Fine] + (first + later);
      VisitedSim(p, x, inner, t, log, order, count, first, log1, later, log');
    }
  }

  lemma PassedSim(p: Provider, x: string, inner: Store, t: Tree, log: seq<Call>, order: seq<string>, count: nat,
                  later: seq<Fault>, log': seq<Call>)
    requires Encryptions(inner) == 0 && order != [] && !IsHeader(inner, x, order[0])
    requires RekeySimulated(p, x, inner, t, log, order[1..], count, later, log')
    ensures RekeySimulated(p, x, inner, t, log, order, count, [Fine] + later, log')
  {
    forall tail
      ensures RekeyAt(p, x, inner, t, log, order, count, [Fine] + later, log', tail)
    {
      assert RekeyAt(p, x, inner, t, log, order[1..], count, later, log', tail);
      PassedAt(p, x, inner, t, log, order, count, later, log', tail);
    }
  }

  lemma VisitedSim(p: Provider, x: string, inner: Store, t: Tree, log: seq<Call>, order: seq<string>, count: nat,
                   first: seq<Fault>, log1: seq<Call>, later: seq<Fault>, log': seq<Call>)
    requires Encryptions(inner) == 0 && order != [] && IsHeader(inner, x, order[0])
    requires forall tail :: VisitAt(p, inner, t, log, order[0][|Pre(inner)|..], count, first, log1, tail)
    requires var (t1, r) := TreeRekeyVisit(p, inner, t, order[0][|Pre(inner)|..], count);
             r.Ok? && RekeySimulated(p, x, inner, t1, log1, order[1..], r.value, later, log')
    ensures RekeySimulated(p, x, inner, t, log, order, count, [Fine] + (first + later), log')
  {
    var k := order[0][|Pre(inner)|..];
    var (t1, r) := TreeRekeyVisit(p, inner, t, k, count);
    forall tail
      ensures RekeyAt(p, x, inner, t, log, order, count, [Fine] + (first + later), log', tail)
    {
      assert VisitAt(p, inner, t, log, k, count, first, log1, later + tail);
      assert RekeyAt(p, x, inner, t1, log1, order[1..], r.value, later, log', tail);
      VisitedAt(p, x, inner, t, log, order, count, first, log1, later, log', tail);
    }
  }

  lemma PassedAt(p: Provider, x: string, inner: Store, t: Tree, log: seq<Call>, order: seq<string>, count: nat,
                 later: seq<Fault>, log': seq<Call>, tail: seq<Fault>)
    requires Encryptions(inner) == 0 && order != [] && !IsHeader(inner, x, order[0])
    requires RekeyAt(p, x, inner, t, log, order[1..], count, later, log', tail)
    ensures RekeyAt(p, x, inner, t, log, order, count, [Fine] + later, log', tail)
  {
    HeadOfScript(Fine, later, tail);
    HeaderReached(inner, x, Holding(t, log, later + tail), order[0]);
  }

  lemma VisitedAt(p: Provider, x: string, inner: Store, t: Tree, log: seq<Call>, order: seq<string>, count: nat,
                  first: seq<Fault>, log1: seq<Call>, later: seq<Fault>, log': seq<Call>, tail: seq<Fault>)
    requires Encryptions(inner) == 0 && order != [] && IsHeader(inner, x, order[0])
    requires VisitAt(p, inner, t, log, order[0][|Pre(inner)|..], count, first, log1, later + tail)
    requires var (t1, r) := TreeRekeyVisit(p, inner, t, order[0][|Pre(inner)|..], count);
             r.Ok? && RekeyAt(p, x, inner, t1, log1, order[1..], r.value, later, log', tail)
    ensures RekeyAt(p, x, inner, t, log, order, count, [Fine] + (first + later), log', tail)
  {
    HeadOfScript(Fine, first + later, tail);
    Assoc(first, later, tail);
    HeaderReached(inner, x, Holding(t, log, first + (later + tail)), order[0]);
  }

  // ---------------------------------------------------------------------------
  // Histories
  // ---------------------------------------------------------------------------

  ghost function TreeStep(p: Provider, x: string, inner: Store, t: Tree, op: R.Op): Tree {
    match op
    case PutOp(blobs) => TreePut(Encrypted(p, x, inner), t, blobs).0
    case DeleteOp(ks) => TreeDelete(Encrypted(p, x, inner), t, ks).0
    case RekeyOp(order) => TreeRekey(p, x, inner, t, order, 0).0
  }

  ghost function TreeRun(p: Provider, x: string, inner: Store, t: Tree, ops: seq<R.Op>): Tree
    decreases |ops|
  {
    if ops == [] then t else TreeRun(p, x, inner, TreeStep(p, x, inner, t, ops[0]), ops[1..])
  }

  /** Every re-keying traversal presents files that are there. */
  ghost predicate Traverses(p: Provider, x: string, inner: Store, t: Tree, ops: seq<R.Op>)
    decreases |ops|
  {
    ops == [] ||
    ((ops[0].RekeyOp? ==> AllThere(t, ops[0].order)) &&
     Traverses(p, x, inner, TreeStep(p, x, inner, t, ops[0]), ops[1..]))
  }

  /** The ledger of an operation, by what the tree reported. */
  ghost function TreeStepLedger(p: Provider, x: string, inner: Store, t: Tree, op: R.Op, l: R.Ledger): R.Ledger {
    match op
    case PutOp(blobs) =>
      if AllAccepted(Encrypted(p, x, inner), KeysOf(blobs)) then TreePutLedger(p, x, inner, t, blobs, l) else l
    case DeleteOp(ks) => l.(sure := l.sure - set k | k in ks)
    case RekeyOp(_) => l
  }

  ghost function TreeRunLedger(p: Provider, x: string, inner: Store, t: Tree, ops: seq<R.Op>, l: R.Ledger): R.Ledger
    decreases |ops|
  {
    if ops == [] then l
    else TreeRunLedger(p, x, inner, TreeStep(p, x, inner, t, ops[0]), ops[1..],
                         TreeStepLedger(p, x, inner, t, ops[0], l))
  }

  ghost predicate StepAt(p: Provider, x: string, inner: Store, t: Tree, log: seq<Call>, op: R.Op,
                         script: seq<Fault>, log': seq<Call>, tail: seq<Fault>) {
    var w := Holding(t, log, script + tail);
    && R.Step(p, x, inner, w, op) == Holding(TreeStep(p, x, inner, t, op), log', tail)
    && (op.PutOp? && AllAccepted(Encrypted(p, x, inner), KeysOf(op.blobs)) ==> R.PutClean(p, x, inner, w, op.blobs))
    && forall l :: StepLedgerAt(p, x, inner, t, w, op, l)
  }

  ghost predicate StepLedgerAt(p: Provider, x: string, inner: Store, t: Tree, w: World, op: R.Op, l: R.Ledger) {
    R.StepLedger(p, x, inner, w, op, l) == TreeStepLedger(p, x, inner, t, op, l)
  }

  lemma StepSim(p: Provider, x: string, inner: Store, t: Tree, log: seq<Call>, op: R.Op)
      returns (script: seq<Fault>, log': seq<Call>)
    requires WellFormed(t) && Encryptions(inner) == 0
    requires op.RekeyOp? ==> AllThere(t, op.order)
    ensures WellFormed(TreeStep(p, x, inner, t, op))
    ensures forall tail :: StepAt(p, x, inner, t, log, op, script, log', tail)
  {
    var s := Encrypted(p, x, inner);
    match op
    case DeleteOp(ks) =>
      script, log' := DeleteScript(s, t, ks), DeleteLog(s, log, ks);
      DeleteSim(s, t, log, ks);
      forall tail
        ensures StepAt(p, x, inner, t, log, op, script, log', tail)
      {
        assert DeleteAt(s, t, log, ks, script, log', tail);
      }
    case RekeyOp(order) =>
      script, log' := RekeySim(p, x, inner, t, log, order, 0);
      forall tail
        ensures StepAt(p, x, inner, t, log, op, script, log', tail)
      {
        assert RekeyAt(p, x, inner, t, log, order, 0, script, log', tail);
      }
    case PutOp(blobs) => script, log' := PutStepSim(p, x, inner, t, log, blobs);
  }

  lemma PutStepSim(p: Provider, x: string, inner: Store, t: Tree, log: seq<Call>, blobs: seq<Blob>)
      returns (script: seq<Fault>, log': seq<Call>)
    requires WellFormed(t) && Encryptions(inner) == 0
    ensures WellFormed(TreeStep(p, x, inner, t, R.PutOp(blobs)))
    ensures forall tail :: StepAt(p, x, inner, t, log, R.PutOp(blobs), script, log', tail)
  {
    var s, op := Encrypted(p, x, inner), R.PutOp(blobs);
    if !EncryptAcceptsBlobs(x, blobs) {
      script, log' := [], log;
      NotAllAccepted(p, x, inner, blobs);
      forall tail
        ensures StepAt(p, x, inner, t, log, op, script, log', tail)
      {
        EmptyScript(tail);
      }
      return;
    }
    script, log' := PutFromSim(p, x, inner, t, log, blobs, []);
    forall tail
      ensures StepAt(p, x, inner, t, log, op, script, log', tail)
    {
      assert PutFromAt(p, x, inner, t, log, blobs, [], script, log', tail);
      if AllAccepted(s, KeysOf(blobs)) {
        assert CleanAt(p, x, inner, t, log, blobs, script, tail);
        forall l
          ensures StepLedgerAt(p, x, inner, t, Holding(t, log, script + tail), op, l)
        {
          assert LedgerAt(p, x, inner, t, log, blobs, script, tail, l);
        }
      }
    }
  }

  lemma NotAllAccepted(p: Provider, x: string, inner: Store, blobs: seq<Blob>)
    requires !EncryptAcceptsBlobs(x, blobs)
    ensures !AllAccepted(Encrypted(p, x, inner), KeysOf(blobs))
  {
    var b :| b in blobs && !EncryptAccepts(x, b.key);
    KeysOfMembers(blobs);
    assert b.key in KeysOf(blobs);
  }

  /** A history on the tree is one on the backend in which no rollback is stranded, with the
      same objects and the same ledger. */
  lemma {:induction false} RunSim(p: Provider, x: string, inner: Store, t: Tree, log: seq<Call>, ops: seq<R.Op>,
                                  l: R.Ledger)
      returns (script: seq<Fault>)
    requires WellFormed(t) && Encryptions(inner) == 0 && Traverses(p, x, inner, t, ops)
    ensures var w := Holding(t, log, script);
            && R.RunWorld(p, x, inner, w, ops).objs == Files(TreeRun(p, x, inner, t, ops))
            && R.RunClean(p, x, inner, w, ops)
            && R.RunLedger(p, x, inner, w, ops, l) == TreeRunLedger(p, x, inner, t, ops, l)
    decreases |ops|
  {
    if ops == [] { return []; }
    var op := ops[0];
    var first, log1 := StepSim(p, x, inner, t, log, op);
    var rest := RunSim(p, x, inner, TreeStep(p, x, inner, t, op), log1, ops[1..],
                       TreeStepLedger(p, x, inner, t, op, l));
    script := first + rest;
    assert StepAt(p, x, inner, t, log, op, first, log1, rest);
    assert StepLedgerAt(p, x, inner, t, Holding(t, log, script), op, l);
  }

  /** An encrypted store on the filesystem, where keys may collide in any way, never mixes
      up its pairs: through every history of puts, deletes and re-keyings each key is
      invisible or reads what was stored by its last put that the store reported as done,
      and it is readable unless a delete of it or a failed put of it came later. No
      precaution is needed here, because a collision never stops a rollback. */
  lemma TreeRunFaithful(p: Provider, x: string, inner: Store, t: Tree, ops: seq<R.Op>, l: R.Ledger)
    requires Lawful(p) && Encryptions(inner) == 0 && WellFormed(t) && Traverses(p, x, inner, t, ops)
    requires R.Faithful(Encrypted(p, x, inner), Files(t), l)
    ensures R.Faithful(Encrypted(p, x, inner), Files(TreeRun(p, x, inner, t, ops)),
                       TreeRunLedger(p, x, inner, t, ops, l))
  {
    var script := RunSim(p, x, inner, t, [], ops, l);
    R.RunFaithful(p, x, inner, Holding(t, [], script), ops, l);
  }
}
