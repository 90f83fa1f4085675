/** Streaming decryption: a task writes into a bounded pipe while the caller reads from
    it, and an error slot that the reader consults at end of stream. */
module DecryptPipe {
  import opened Stores

  const PIPE_CAPACITY: nat := 64 * 1024

  /** Where the decrypting task is. */
  datatype Phase = Writing | Succeeded | Failed | Stored | Gone

  /** How the provider's `decrypt_stream` ended, if it did. */
  datatype Outcome = Pending | ReturnedOk | ReturnedErr | Panicked

  /** What one poll of the reader gave the caller. */
  datatype Observation = Data(bytes: Bytes) | Nothing | ErrorSeen | CleanEnd

  /** `shut`: the write half is closed. `early`: the provider itself shut its output. */
  datatype State = State(
    written: Bytes,
    buffered: Bytes,
    shut: bool,
    early: bool,
    phase: Phase,
    outcome: Outcome,
    slot: bool,
    seen: seq<Observation>)

  datatype Label =
    | Write(bytes: Bytes)
    | ShutOutput
    | ReturnOk
    | ReturnErr
    | Panic
    | StoreError
    | DropWriter
    | Read(n: nat)     // a poll that takes `n` bytes, or meets the end when none are left
    | ReadNothing      // a poll with no room in the caller's buffer

  const Opened := State([], [], false, false, Writing, Pending, false, [])

  predicate Enabled(s: State, l: Label) {
    match l
    case Write(bytes) => s.phase == Writing && !s.shut && bytes != [] && |s.buffered| + |bytes| <= PIPE_CAPACITY
    case ShutOutput => s.phase == Writing
    case ReturnOk => s.phase == Writing
    case ReturnErr => s.phase == Writing
    case Panic => s.phase == Writing
    case StoreError => s.phase == Failed
    case DropWriter => s.phase == Succeeded || s.phase == Stored
    case Read(n) => if s.buffered != [] then 0 < n <= |s.buffered| else n == 0 && s.shut
    case ReadNothing => true
  }

  /** The reader turns an end of stream into the stored error, taking it out. */
  function AtEnd(s: State, otherwise: Observation): State {
    if s.slot then s.(slot := false, seen := s.seen + [ErrorSeen])
    else s.(seen := s.seen + [otherwise])
  }

  function Apply(s: State, l: Label): State
    requires Enabled(s, l)
  {
    match l
    case Write(bytes) => s.(written := s.written + bytes, buffered := s.buffered + bytes)
    case ShutOutput => s.(shut := true, early := true)
    case ReturnOk => s.(phase := Succeeded, outcome := ReturnedOk)
    case ReturnErr => s.(phase := Failed, outcome := ReturnedErr)
    case Panic => s.(phase := Gone, outcome := Panicked, shut := true)
    case StoreError => s.(phase := Stored, slot := true)
    case DropWriter => s.(phase := Gone, shut := true)
    case Read(n) =>
      if s.buffered != [] then s.(buffered := s.buffered[n..], seen := s.seen + [Data(s.buffered[..n])])
      else AtEnd(s, CleanEnd)
    case ReadNothing => AtEnd(s, Nothing)
  }

  predicate IsRun(s: State, ls: seq<Label>)
    decreases |ls|
  {
    ls == [] || (Enabled(s, ls[0]) && IsRun(Apply(s, ls[0]), ls[1..]))
  }

  function Final(s: State, ls: seq<Label>): State
    requires IsRun(s, ls)
    decreases |ls|
  {
    if ls == [] then s else Final(Apply(s, ls[0]), ls[1..])
  }

  /** The bytes the caller has received. */
  function Received(seen: seq<Observation>): Bytes {
    if seen == [] then []
    else Received(seen[..|seen| - 1]) + (if seen[|seen| - 1].Data? then seen[|seen| - 1].bytes else [])
  }

  /** The first end the caller met: an error, a clean end, or none yet. */
  datatype End = NoEnd | EndsInError | EndsClean

  function FirstEnd(seen: seq<Observation>): End {
    if seen == [] then NoEnd
    else
      var before := FirstEnd(seen[..|seen| - 1]);
      if before != NoEnd then before
      else if seen[|seen| - 1] == ErrorSeen then EndsInError
      else if seen[|seen| - 1] == CleanEnd then EndsClean
      else NoEnd
  }

  ghost predicate Inv(s: State) {
    && Received(s.seen) + s.buffered == s.written
    && |s.buffered| <= PIPE_CAPACITY
    && (s.shut ==> s.early || s.phase == Gone)
    && (s.phase == Gone ==> s.shut)
    && (s.outcome == Pending <==> s.phase == Writing)
    && (s.phase == Succeeded ==> s.outcome == ReturnedOk)
    && (s.phase == Failed || s.phase == Stored ==> s.outcome == ReturnedErr)
    && (s.slot ==> s.outcome == ReturnedErr)
    && (s.outcome == ReturnedErr && s.phase != Failed ==> s.slot || FirstEnd(s.seen) != NoEnd)
    && (FirstEnd(s.seen) == EndsInError ==> s.outcome == ReturnedErr)
    && (FirstEnd(s.seen) == EndsClean ==>
          && s.shut && s.buffered == []
          && (s.early || (s.phase == Gone && (s.outcome == ReturnedOk || s.outcome == Panicked))))
  }

  lemma SeenMore(seen: seq<Observation>, o: Observation)
    ensures Received(seen + [o]) == Received(seen) + (if o.Data? then o.bytes else [])
    ensures FirstEnd(seen + [o])
         == if FirstEnd(seen) != NoEnd then FirstEnd(seen)
            else if o == ErrorSeen then EndsInError
            else if o == CleanEnd then EndsClean
            else NoEnd
  {
    assert (seen + [o])[..|seen|] == seen;
  }

  lemma AppendPieces(a: Bytes, b: Bytes, c: Bytes)
    ensures a + (b + c) == a + b + c && a + [] == a
  {}

  lemma ReadKeepsInv(s: State, n: nat)
    requires Inv(s) && Enabled(s, Read(n)) && s.buffered != []
    ensures Inv(Apply(s, Read(n)))
  {
    SeenMore(s.seen, Data(s.buffered[..n]));
    assert s.buffered == s.buffered[..n] + s.buffered[n..];
    AppendPieces(Received(s.seen), s.buffered[..n], s.buffered[n..]);
  }

  lemma EndKeepsInv(s: State, otherwise: Observation)
    requires Inv(s) && (otherwise == Nothing || (otherwise == CleanEnd && s.buffered == [] && s.shut))
    ensures Inv(AtEnd(s, otherwise))
  {
    var o := if s.slot then ErrorSeen else otherwise;
    EndReceives(s.seen, o);
    if FirstEnd(s.seen) == NoEnd {
      assert o == CleanEnd ==> s.early || s.phase == Gone;
    }
  }

  lemma EndReceives(seen: seq<Observation>, o: Observation)
    requires !o.Data?
    ensures Received(seen + [o]) == Received(seen)
    ensures FirstEnd(seen + [o])
         == if FirstEnd(seen) != NoEnd then FirstEnd(seen)
            else if o == ErrorSeen then EndsInError
            else if o == CleanEnd then EndsClean
            else NoEnd
  {
    SeenMore(seen, o);
    AppendPieces(Received(seen), [], []);
  }

  lemma WriteKeepsInv(s: State, bytes: Bytes)
    requires Inv(s) && Enabled(s, Write(bytes))
    ensures Inv(Apply(s, Write(bytes)))
  {
    AppendPieces(Received(s.seen), s.buffered, bytes);
  }

  lemma InvStep(s: State, l: Label)
    requires Inv(s) && Enabled(s, l)
    ensures Inv(Apply(s, l))
  {
    match l
    case Write(bytes) => WriteKeepsInv(s, bytes);
    case Read(n) => if s.buffered != [] { ReadKeepsInv(s, n); } else { EndKeepsInv(s, CleanEnd); }
    case ReadNothing => EndKeepsInv(s, Nothing);
    case _ =>
  }

  lemma {:induction false} InvRun(s: State, ls: seq<Label>)
    requires Inv(s) && IsRun(s, ls)
    ensures Inv(Final(s, ls))
    decreases |ls|
  {
    if ls != [] {
      InvStep(s, ls[0]);
      InvRun(Apply(s, ls[0]), ls[1..]);
    }
  }

  /** Over every interleaving of task and reader: a caller who meets a clean end before
      any error has received every byte that was or will be written, and the provider had
      returned `Ok`, panicked, or shut its output before returning. If it failed with its
      output open, the first end the caller meets is the error; and an error is never
      reported for a decryption that did not fail. */
  lemma CleanEndMeansComplete(ls: seq<Label>)
    requires IsRun(Opened, ls)
    ensures var e := Final(Opened, ls);
            && (FirstEnd(e.seen) == EndsClean ==>
                  && Received(e.seen) == e.written
                  && (forall bytes :: !Enabled(e, Write(bytes)))
                  && (e.outcome == ReturnedOk || e.outcome == Panicked || e.early))
            && (e.outcome == ReturnedErr && !e.early ==> FirstEnd(e.seen) != EndsClean)
            && (FirstEnd(e.seen) == EndsInError ==> e.outcome == ReturnedErr)
  {
    assert Inv(Opened);
    InvRun(Opened, ls);
    var e := Final(Opened, ls);
    assert Received(e.seen) + [] == Received(e.seen);
  }

  function Errors(seen: seq<Observation>): nat {
    if seen == [] then 0 else Errors(seen[..|seen| - 1]) + if seen[|seen| - 1] == ErrorSeen then 1 else 0
  }

  /** A stored error is either still in the slot or has been reported. */
  ghost predicate ErrorKept(s: State) {
    Errors(s.seen) + (if s.slot then 1 else 0) == if s.outcome == ReturnedErr && s.phase != Failed then 1 else 0
  }

  lemma ErrorStep(s: State, l: Label)
    requires Inv(s) && ErrorKept(s) && Enabled(s, l)
    ensures ErrorKept(Apply(s, l))
  {
    var s' := Apply(s, l);
    if l.Read? || l.ReadNothing? { assert s'.seen[..|s.seen|] == s.seen; }
  }

  lemma {:induction false} ErrorsKept(s: State, ls: seq<Label>)
    requires Inv(s) && ErrorKept(s) && IsRun(s, ls)
    ensures ErrorKept(Final(s, ls))
    decreases |ls|
  {
    if ls != [] {
      InvStep(s, ls[0]);
      ErrorStep(s, ls[0]);
      ErrorsKept(Apply(s, ls[0]), ls[1..]);
    }
  }

  /** Over every interleaving the caller is told of a failed decryption at most once. */
  lemma ErrorReportedOnce(ls: seq<Label>)
    requires IsRun(Opened, ls)
    ensures Errors(Final(Opened, ls).seen) <= 1
  {
    ErrorsKept(Opened, ls);
  }

  /** Both exceptions are real: after a panic, or when the provider shuts its output and
      then fails, the caller meets a clean end before any error. */
  lemma PanicEndsClean(b: Bytes)
    requires 0 < |b| <= PIPE_CAPACITY
    ensures var ls := [Write(b), Panic, Read(|b|), Read(0)];
            IsRun(Opened, ls) && FirstEnd(Final(Opened, ls).seen) == EndsClean && Final(Opened, ls).outcome == Panicked
  {
    var s1 := Apply(Opened, Write(b));
    assert s1.buffered == b;
    var s2 := Apply(s1, Panic);
    var s3 := Apply(s2, Read(|b|));
    assert s3.buffered == [] && b[..|b|] == b;
    var s4 := Apply(s3, Read(0));
    Run4(Opened, Write(b), Panic, Read(|b|), Read(0), s1, s2, s3, s4);
    SeenMore([], Data(b));
    assert s3.seen == [] + [Data(b)];
    SeenMore(s3.seen, CleanEnd);
  }

  lemma EarlyShutEndsClean(b: Bytes)
    requires 0 < |b| <= PIPE_CAPACITY
    ensures var ls := [Write(b), ShutOutput, Read(|b|), Read(0)] + [ReturnErr, StoreError, DropWriter];
            && IsRun(Opened, ls)
            && FirstEnd(Final(Opened, ls).seen) == EndsClean
            && Final(Opened, ls).outcome == ReturnedErr && Final(Opened, ls).phase == Gone
  {
    var s1 := Apply(Opened, Write(b));
    assert s1.buffered == b;
    var s2 := Apply(s1, ShutOutput);
    var s3 := Apply(s2, Read(|b|));
    assert s3.buffered == [] && b[..|b|] == b;
    var s4 := Apply(s3, Read(0));
    Run4(Opened, Write(b), ShutOutput, Read(|b|), Read(0), s1, s2, s3, s4);
    SeenMore([], Data(b));
    assert s3.seen == [] + [Data(b)];
    SeenMore(s3.seen, CleanEnd);
    FailsAfter(s4);
    RunAppend(Opened, [Write(b), ShutOutput, Read(|b|), Read(0)], [ReturnErr, StoreError, DropWriter]);
  }

  /** A poll without room may be the one that takes the error, ahead of bytes not yet read. */
  lemma EmptyPollMayFailEarly(b: Bytes)
    requires 0 < |b| <= PIPE_CAPACITY
    ensures var ls := [Write(b), ReturnErr, StoreError, ReadNothing];
            && IsRun(Opened, ls) && FirstEnd(Final(Opened, ls).seen) == EndsInError
            && Received(Final(Opened, ls).seen) == [] && Final(Opened, ls).buffered == b
  {
    var s1 := Apply(Opened, Write(b));
    assert s1.buffered == b;
    var s2 := Apply(s1, ReturnErr);
    var s3 := Apply(s2, StoreError);
    var s4 := Apply(s3, ReadNothing);
    Run4(Opened, Write(b), ReturnErr, StoreError, ReadNothing, s1, s2, s3, s4);
    SeenMore([], ErrorSeen);
    assert s4.seen == [] + [ErrorSeen];
  }

  /** The polls of a reader that takes all there is and then meets the end. */
  function Reads(s: State): seq<Label> {
    (if s.buffered == [] then [] else [Read(|s.buffered|)]) + [Read(0)]
  }

  lemma ReadAll(s: State)
    requires s.shut
    ensures IsRun(s, Reads(s))
    ensures Final(s, Reads(s)).seen
         == s.seen + (if s.buffered == [] then [] else [Data(s.buffered)]) + [if s.slot then ErrorSeen else CleanEnd]
    ensures Final(s, Reads(s)).written == s.written
  {
    if s.buffered == [] {
      assert [] + [Read(0)] == [Read(0)] && s.seen + [] == s.seen;
      RunCons(s, Read(0), []);
    } else {
      var s1 := Apply(s, Read(|s.buffered|));
      assert s.buffered[..|s.buffered|] == s.buffered && s1.buffered == [];
      RunCons(s1, Read(0), []);
      RunCons(s, Read(|s.buffered|), [Read(0)]);
    }
  }

  /** However a decryption has gone so far, once its task has finished a caller who reads on
      gets all the bytes and then the end: the error if decryption failed, a clean end if
      not. */
  lemma ReaderReachesTheEnd(ls: seq<Label>)
    requires IsRun(Opened, ls)
    requires Final(Opened, ls).phase == Gone && FirstEnd(Final(Opened, ls).seen) == NoEnd
    ensures var s := Final(Opened, ls);
            && IsRun(s, Reads(s))
            && Received(Final(s, Reads(s)).seen) == s.written
            && FirstEnd(Final(s, Reads(s)).seen) == if s.outcome == ReturnedErr then EndsInError else EndsClean
  {
    assert Inv(Opened);
    InvRun(Opened, ls);
    var s := Final(Opened, ls);
    ReadAll(s);
    SeenMore(s.seen, Data(s.buffered));
    var data := if s.buffered == [] then [] else [Data(s.buffered)];
    assert s.buffered == [] ==> s.seen + data == s.seen && Received(s.seen) + [] == Received(s.seen);
    SeenMore(s.seen + data, if s.slot then ErrorSeen else CleanEnd);
    assert Received(s.seen + data) + [] == Received(s.seen + data);
  }

  /** And a task still decrypting can finish either way. */
  lemma TaskFinishes(s: State, ok: bool)
    requires s.phase == Writing
    ensures var ls := if ok then [ReturnOk, DropWriter] else [ReturnErr, StoreError, DropWriter];
            && IsRun(s, ls)
            && Final(s, ls) == s.(phase := Gone, shut := true, outcome := if ok then ReturnedOk else ReturnedErr,
                                  slot := s.slot || !ok)
  {
    if ok {
      RunCons(Apply(s, ReturnOk), DropWriter, []);
      RunCons(s, ReturnOk, [DropWriter]);
    } else {
      var s1 := Apply(s, ReturnErr);
      RunCons(Apply(s1, StoreError), DropWriter, []);
      RunCons(s1, StoreError, [DropWriter]);
      RunCons(s, ReturnErr, [StoreError, DropWriter]);
    }
  }

  /** A failure once the caller has gone changes nothing the caller saw. */
  lemma FailsAfter(s: State)
    requires s.phase == Writing
    ensures var ls := [ReturnErr, StoreError, DropWriter];
            && IsRun(s, ls) && Final(s, ls).seen == s.seen
            && Final(s, ls).outcome == ReturnedErr && Final(s, ls).phase == Gone
  {
    var s1 := Apply(s, ReturnErr);
    var s2 := Apply(s1, StoreError);
    RunCons(s2, DropWriter, []);
    RunCons(s1, StoreError, [DropWriter]);
    RunCons(s, ReturnErr, [StoreError, DropWriter]);
  }

  lemma {:induction false} RunAppend(s: State, a: seq<Label>, b: seq<Label>)
    requires IsRun(s, a) && IsRun(Final(s, a), b)
    ensures IsRun(s, a + b) && Final(s, a + b) == Final(Final(s, a), b)
    decreases |a|
  {
    if a == [] {
      assert a + b == b;
    } else {
      RunAppend(Apply(s, a[0]), a[1..], b);
      assert (a + b)[1..] == a[1..] + b;
    }
  }

  lemma Run4(s: State, a: Label, b: Label, c: Label, d: Label, s1: State, s2: State, s3: State, s4: State)
    requires Enabled(s, a) && s1 == Apply(s, a)
    requires Enabled(s1, b) && s2 == Apply(s1, b)
    requires Enabled(s2, c) && s3 == Apply(s2, c)
    requires Enabled(s3, d) && s4 == Apply(s3, d)
    ensures IsRun(s, [a, b, c, d]) && Final(s, [a, b, c, d]) == s4
  {
    RunCons(s3, d, []);
    RunCons(s2, c, [d]);
    RunCons(s1, b, [c, d]);
    RunCons(s, a, [b, c, d]);
  }

  lemma RunCons(s: State, l: Label, ls: seq<Label>)
    requires Enabled(s, l) && IsRun(Apply(s, l), ls)
    ensures IsRun(s, [l] + ls) && Final(s, [l] + ls) == Final(Apply(s, l), ls)
  {
    assert ([l] + ls)[1..] == ls;
  }
}
