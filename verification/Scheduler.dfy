/** The background maintenance scheduler as a step system: one bounded FIFO queue, one
    worker, and a scheduling loop per task. */
module Scheduler {

  const CAPACITY: nat := 16

  // ---------------------------------------------------------------------------
  // State
  // ---------------------------------------------------------------------------

  /** The built-in strategies; a manual loop listens to one watch channel. */
  datatype Kind = OnStart | Periodic | Manual(watch: nat)

  datatype Pc =
    | Unscheduled  // not yet handed to its strategy by the build
    | Start        // spawned, cancellation not yet polled (OnStart)
    | Sending      // inside `trigger().await`
    | Waiting      // in the `select!` of the loop
    | Woken        // slept, cancellation not yet checked (Periodic)
    | Done

  /** `registered` and `seen` are watch versions (manual loops only). */
  datatype Loop = Loop(kind: Kind, pc: Pc, registered: nat, seen: nat)

  /** `version` counts the sends on the channel; `value` is the counter the callers of
      `Manual::trigger` read and write back; `inFlight` are the values held by
      callers between reading and sending; `mark` is how many tasks had been accepted at the
      latest send. */
  datatype Watch = Watch(version: nat, value: nat, inFlight: seq<nat>, open: bool, mark: nat)

  /** A task is named after the loop whose factory made it. */
  datatype Worker = Idle | Running(task: nat) | Stopped

  datatype State = State(
    loops: seq<Loop>,
    watches: seq<Watch>,
    queue: seq<nat>,
    worker: Worker,
    cancelled: bool,
    accepted: seq<nat>,
    executed: seq<nat>)

  datatype Label =
    | Schedule(i: nat)
    | Poll(i: nat)          // OnStart looks at the token before its first send
    | Enqueue(i: nat)
    | SendFails(i: nat)     // the receiver is gone
    | Skip(i: nat)          // OnStart's biased select finds the token cancelled
    | Sleep(i: nat)
    | Check(i: nat)         // Periodic's `is_cancelled` after the sleep
    | Break(i: nat)         // the select's cancellation branch
    | Notice(i: nat)        // `changed()` sees an unseen version
    | HandleGone(i: nat)    // `changed()` fails: every handle is dropped
    | Receive
    | Finish
    | StopCancelled
    | StopDrained
    | BeginTrigger(m: nat)
    | EndTrigger(m: nat, j: nat)
    | DropHandle(m: nat)
    | Cancel

  // ---------------------------------------------------------------------------
  // Steps
  // ---------------------------------------------------------------------------

  predicate WellFormed(s: State) {
    && forall i :: 0 <= i < |s.loops| && s.loops[i].kind.Manual? ==> s.loops[i].kind.watch < |s.watches|
  }

  predicate At(s: State, i: nat, pc: Pc) {
    i < |s.loops| && s.loops[i].pc == pc
  }

  predicate IsManual(s: State, i: nat) {
    i < |s.loops| && s.loops[i].kind.Manual?
  }

  function WatchOf(s: State, i: nat): Watch
    requires WellFormed(s) && IsManual(s, i)
  {
    s.watches[s.loops[i].kind.watch]
  }

  predicate Enabled(s: State, l: Label)
    requires WellFormed(s)
  {
    match l
    case Schedule(i) => At(s, i, Unscheduled) && (i == 0 || s.loops[i - 1].pc != Unscheduled)
    case Poll(i) => At(s, i, Start)
    case Enqueue(i) => At(s, i, Sending) && s.worker != Stopped && |s.queue| < CAPACITY
    case SendFails(i) => At(s, i, Sending) && s.worker == Stopped
    case Skip(i) => At(s, i, Sending) && s.loops[i].kind == OnStart && s.cancelled
    case Sleep(i) => At(s, i, Waiting) && s.loops[i].kind == Periodic
    case Check(i) => At(s, i, Woken)
    case Break(i) => At(s, i, Waiting) && s.cancelled
    case Notice(i) => At(s, i, Waiting) && IsManual(s, i) && s.loops[i].seen != WatchOf(s, i).version
    case HandleGone(i) =>
      && At(s, i, Waiting) && IsManual(s, i)
      && s.loops[i].seen == WatchOf(s, i).version && !WatchOf(s, i).open
    case Receive => s.worker == Idle && s.queue != []
    case Finish => s.worker.Running?
    case StopCancelled => s.worker == Idle && s.cancelled
    case StopDrained => s.worker == Idle && s.queue == [] && AllDone(s)
    case BeginTrigger(m) => m < |s.watches| && s.watches[m].open
    case EndTrigger(m, j) => m < |s.watches| && j < |s.watches[m].inFlight|
    case DropHandle(m) => m < |s.watches| && s.watches[m].open && s.watches[m].inFlight == []
    case Cancel => !s.cancelled
  }

  predicate AllDone(s: State) {
    forall i :: 0 <= i < |s.loops| ==> s.loops[i].pc == Done
  }

  function Moved(s: State, i: nat, pc: Pc): State
    requires i < |s.loops|
  {
    s.(loops := s.loops[i := s.loops[i].(pc := pc)])
  }

  /** Some loop holds a receiver of the channel. */
  predicate Listening(s: State, m: nat) {
    exists i :: 0 <= i < |s.loops| && s.loops[i].kind == Manual(m) && s.loops[i].pc in {Waiting, Sending}
  }

  /** A caller sends back the value it read, plus one. A channel nobody listens to
      refuses the value and keeps its version. */
  function Sent(w: Watch, j: nat, mark: nat, listening: bool): Watch
    requires j < |w.inFlight|
  {
    var left := w.inFlight[..j] + w.inFlight[j + 1..];
    if listening then
      w.(version := w.version + 1,
         value := (w.inFlight[j] + 1) % 0x1_0000_0000_0000_0000,
         inFlight := left,
         mark := mark)
    else w.(inFlight := left)
  }

  function Apply(s: State, l: Label): State
    requires WellFormed(s) && Enabled(s, l)
  {
    match l
    case Schedule(i) =>
      (match s.loops[i].kind
       case OnStart => Moved(s, i, Start)
       case Periodic => Moved(s, i, Sending)
       case Manual(m) =>
         var v := s.watches[m].version;
         s.(loops := s.loops[i := Loop(s.loops[i].kind, Waiting, v, v)]))
    case Poll(i) => Moved(s, i, if s.cancelled then Done else Sending)
    case Enqueue(i) =>
      Moved(s, i, if s.loops[i].kind == OnStart then Done else Waiting)
      .(queue := s.queue + [i], accepted := s.accepted + [i])
    case SendFails(i) => Moved(s, i, Done)
    case Skip(i) => Moved(s, i, Done)
    case Sleep(i) => Moved(s, i, Woken)
    case Check(i) => Moved(s, i, if s.cancelled then Done else Sending)
    case Break(i) => Moved(s, i, Done)
    case Notice(i) => s.(loops := s.loops[i := s.loops[i].(pc := Sending, seen := WatchOf(s, i).version)])
    case HandleGone(i) => Moved(s, i, Done)
    case Receive => s.(worker := Running(s.queue[0]), queue := s.queue[1..])
    case Finish => s.(worker := Idle, executed := s.executed + [s.worker.task])
    case StopCancelled => s.(worker := Stopped, queue := [])
    case StopDrained => s.(worker := Stopped)
    case BeginTrigger(m) =>
      var w := s.watches[m];
      s.(watches := s.watches[m := w.(inFlight := w.inFlight + [w.value])])
    case EndTrigger(m, j) =>
      s.(watches := s.watches[m := Sent(s.watches[m], j, |s.accepted|, Listening(s, m))])
    case DropHandle(m) => s.(watches := s.watches[m := s.watches[m].(open := false)])
    case Cancel => s.(cancelled := true)
  }

  /** The loop a label moves, or -1. */
  function Mover(l: Label): int {
    match l
    case Schedule(j) => j
    case Poll(j) => j
    case Enqueue(j) => j
    case SendFails(j) => j
    case Skip(j) => j
    case Sleep(j) => j
    case Check(j) => j
    case Break(j) => j
    case Notice(j) => j
    case HandleGone(j) => j
    case _ => -1
  }

  predicate Initial(s: State) {
    && WellFormed(s)
    && (forall i :: 0 <= i < |s.loops| ==> s.loops[i].pc == Unscheduled)
    && s.queue == [] && s.accepted == [] && s.executed == []
    && s.worker == Idle && !s.cancelled
    && (forall m :: 0 <= m < |s.watches| ==>
          s.watches[m].mark == 0 && (s.watches[m].open || s.watches[m].inFlight == []))
  }

  lemma StaysWellFormed(s: State, l: Label)
    requires WellFormed(s) && Enabled(s, l)
    ensures WellFormed(Apply(s, l))
    ensures |Apply(s, l).loops| == |s.loops| && |Apply(s, l).watches| == |s.watches|
    ensures forall i :: 0 <= i < |s.loops| ==> Apply(s, l).loops[i].kind == s.loops[i].kind
  {}

  /** A run is a list of labels, each enabled where it is taken. */
  predicate IsRun(s: State, ls: seq<Label>)
    requires WellFormed(s)
    decreases |ls|
  {
    ls == [] ||
    (Enabled(s, ls[0]) && (StaysWellFormed(s, ls[0]); IsRun(Apply(s, ls[0]), ls[1..])))
  }

  function Final(s: State, ls: seq<Label>): (r: State)
    requires WellFormed(s) && IsRun(s, ls)
    ensures WellFormed(r)
    decreases |ls|
  {
    if ls == [] then s
    else StaysWellFormed(s, ls[0]); Final(Apply(s, ls[0]), ls[1..])
  }

  // ---------------------------------------------------------------------------
  // Invariants of every run
  // ---------------------------------------------------------------------------

  function Count(s: seq<nat>, i: nat): nat {
    if s == [] then 0 else (if s[|s| - 1] == i then 1 else 0) + Count(s[..|s| - 1], i)
  }

  /** Nothing is lost, duplicated or reordered between senders and worker. */
  ghost predicate Fifo(s: State) {
    && |s.queue| <= CAPACITY
    && match s.worker
       case Idle => s.accepted == s.executed + s.queue
       case Running(t) => s.accepted == s.executed + [t] + s.queue
       case Stopped => s.executed <= s.accepted && s.queue == []
  }

  /** Without cancellation the worker outlives every loop and loses nothing. */
  ghost predicate StopsLast(s: State) {
    !s.cancelled && s.worker == Stopped ==> AllDone(s) && s.executed == s.accepted
  }

  ghost predicate OnStartOk(s: State, i: nat)
    requires i < |s.loops|
  {
    s.loops[i].kind == OnStart ==>
      && s.loops[i].pc in {Unscheduled, Start, Sending, Done}
      && Count(s.accepted, i) <= (if s.loops[i].pc == Done then 1 else 0)
      && (!s.cancelled && s.loops[i].pc == Done ==> Count(s.accepted, i) == 1)
  }

  ghost predicate PeriodicOk(s: State, i: nat)
    requires i < |s.loops|
  {
    s.loops[i].kind == Periodic ==>
      && s.loops[i].pc != Start
      && (!s.cancelled ==> s.loops[i].pc != Done)
      && (s.loops[i].pc == Unscheduled ==> Count(s.accepted, i) == 0)
  }

  /** The loop has enqueued a task since the latest send on its channel. */
  ghost predicate EnqueuedSince(accepted: seq<nat>, i: nat, mark: nat) {
    exists j :: mark <= j < |accepted| && accepted[j] == i
  }

  ghost predicate ManualOk(s: State, i: nat)
    requires WellFormed(s) && i < |s.loops|
  {
    s.loops[i].kind.Manual? ==>
      var l, w := s.loops[i], WatchOf(s, i);
      && l.pc in {Unscheduled, Sending, Waiting, Done}
      && (l.pc == Unscheduled ==> Count(s.accepted, i) == 0)
      && (l.pc != Unscheduled ==>
            && l.registered <= l.seen <= w.version
            && Count(s.accepted, i) + (if l.pc == Sending then 1 else 0) <= l.seen - l.registered)
      && (!s.cancelled && l.pc == Done ==> !w.open && l.seen == w.version)
      && (!s.cancelled && l.pc in {Waiting, Done} && l.seen == w.version && w.version > l.registered ==>
            EnqueuedSince(s.accepted, i, w.mark))
  }

  ghost predicate WatchOk(s: State, m: nat)
    requires m < |s.watches|
  {
    (!s.watches[m].open ==> s.watches[m].inFlight == []) && s.watches[m].mark <= |s.accepted|
  }

  ghost predicate Inv(s: State) {
    && WellFormed(s) && Fifo(s) && StopsLast(s)
    && (forall i :: 0 <= i < |s.loops| ==> OnStartOk(s, i))
    && (forall i :: 0 <= i < |s.loops| ==> PeriodicOk(s, i))
    && (forall i :: 0 <= i < |s.loops| ==> ManualOk(s, i))
    && (forall m :: 0 <= m < |s.watches| ==> WatchOk(s, m))
  }

  lemma CountAppend(s: seq<nat>, i: nat, t: nat)
    ensures Count(s + [t], i) == Count(s, i) + (if t == i then 1 else 0)
  {
    assert (s + [t])[..|s|] == s;
  }

  lemma InitialInv(s: State)
    requires Initial(s)
    ensures Inv(s)
  {}

  lemma FifoStep(s: State, l: Label)
    requires Inv(s) && Enabled(s, l)
    ensures Fifo(Apply(s, l)) && StopsLast(Apply(s, l))
  {
    var s' := Apply(s, l);
    match l
    case Enqueue(i) =>
      match s.worker {
        case Idle => assert s'.accepted == s.executed + s'.queue;
        case Running(t) => assert s'.accepted == s.executed + [t] + s'.queue;
        case Stopped =>
      }
    case Receive =>
      assert s.queue == [s.queue[0]] + s'.queue;
      assert s'.accepted == s.executed + [s.queue[0]] + s'.queue;
    case StopDrained =>
      assert s.executed + [] == s.executed;
    case _ =>
      assert s'.accepted == s.accepted;
  }

  lemma LoopStep(s: State, l: Label, i: nat)
    requires Inv(s) && Enabled(s, l) && i < |s.loops|
    ensures StaysIn(s, l, i)
  {
    StaysWellFormed(s, l);
    assert OnStartOk(s, i) && PeriodicOk(s, i);
    match l
    case Enqueue(j) => CountAppend(s.accepted, i, j);
    case _ =>
  }

  ghost predicate StaysIn(s: State, l: Label, i: nat)
    requires WellFormed(s) && Enabled(s, l) && i < |s.loops|
  {
    StaysWellFormed(s, l);
    OnStartOk(Apply(s, l), i) && PeriodicOk(Apply(s, l), i)
  }

  lemma EnqueuedLater(a: seq<nat>, t: nat, i: nat, mark: nat)
    ensures EnqueuedSince(a, i, mark) ==> EnqueuedSince(a + [t], i, mark)
    ensures mark <= |a| ==> EnqueuedSince(a + [t], t, mark)
  {
    if EnqueuedSince(a, i, mark) {
      var j :| mark <= j < |a| && a[j] == i;
      assert (a + [t])[j] == i;
    }
    if mark <= |a| { assert (a + [t])[|a|] == t; }
  }

  lemma ManualEnqueue(s: State, j: nat, i: nat)
    requires Inv(s) && Enabled(s, Enqueue(j)) && i < |s.loops| && s.loops[i].kind.Manual?
    ensures WellFormed(Apply(s, Enqueue(j))) && ManualOk(Apply(s, Enqueue(j)), i)
  {
    StaysWellFormed(s, Enqueue(j));
    var m := s.loops[i].kind.watch;
    assert ManualOk(s, i) && WatchOk(s, m);
    CountAppend(s.accepted, i, j);
    EnqueuedLater(s.accepted, j, i, s.watches[m].mark);
  }

  /** A step of the channel or its callers. */
  lemma ManualSend(s: State, l: Label, i: nat)
    requires Inv(s) && Enabled(s, l) && i < |s.loops| && s.loops[i].kind.Manual?
    requires l.BeginTrigger? || l.EndTrigger? || l.DropHandle?
    ensures WellFormed(Apply(s, l)) && ManualOk(Apply(s, l), i)
  {
    StaysWellFormed(s, l);
    var m := s.loops[i].kind.watch;
    assert ManualOk(s, i) && WatchOk(s, m);
  }

  /** A step of some loop that enqueues nothing. */
  lemma ManualMove(s: State, l: Label, i: nat)
    requires Inv(s) && Enabled(s, l) && i < |s.loops| && s.loops[i].kind.Manual?
    requires Mover(l) >= 0 && !l.Enqueue?
    ensures WellFormed(Apply(s, l)) && ManualOk(Apply(s, l), i)
  {
    StaysWellFormed(s, l);
    var m := s.loops[i].kind.watch;
    assert ManualOk(s, i) && WatchOk(s, m);
    assert Apply(s, l).watches == s.watches && Apply(s, l).accepted == s.accepted;
    if Mover(l) != i { assert Apply(s, l).loops[i] == s.loops[i]; }
  }

  lemma ManualStep(s: State, l: Label, i: nat)
    requires Inv(s) && Enabled(s, l) && i < |s.loops|
    ensures WellFormed(Apply(s, l)) && ManualOk(Apply(s, l), i)
  {
    StaysWellFormed(s, l);
    if s.loops[i].kind.Manual? {
      if l.Enqueue? {
        ManualEnqueue(s, l.i, i);
      } else if l.BeginTrigger? || l.EndTrigger? || l.DropHandle? {
        ManualSend(s, l, i);
      } else if Mover(l) >= 0 {
        ManualMove(s, l, i);
      } else {
        assert Apply(s, l).loops == s.loops && ManualOk(s, i);
      }
    }
  }

  lemma WatchStep(s: State, l: Label, m: nat)
    requires Inv(s) && Enabled(s, l) && m < |s.watches|
    ensures |Apply(s, l).watches| == |s.watches| && WatchOk(Apply(s, l), m)
  {
    assert WatchOk(s, m);
  }

  lemma InvStep(s: State, l: Label)
    requires Inv(s) && Enabled(s, l)
    ensures Inv(Apply(s, l))
  {
    StaysWellFormed(s, l);
    FifoStep(s, l);
    forall i | 0 <= i < |s.loops|
      ensures OnStartOk(Apply(s, l), i) && PeriodicOk(Apply(s, l), i) && ManualOk(Apply(s, l), i)
    {
      LoopStep(s, l, i);
      ManualStep(s, l, i);
    }
    forall m | 0 <= m < |s.watches|
      ensures WatchOk(Apply(s, l), m)
    {
      WatchStep(s, l, m);
    }
  }

  /** The invariant holds at the end of every run. */
  lemma {:induction false} InvRun(s: State, ls: seq<Label>)
    requires Inv(s) && IsRun(s, ls)
    ensures Inv(Final(s, ls))
    decreases |ls|
  {
    if ls != [] {
      StaysWellFormed(s, ls[0]);
      InvStep(s, ls[0]);
      InvRun(Apply(s, ls[0]), ls[1..]);
    }
  }

  // ---------------------------------------------------------------------------
  // Quiescence
  // ---------------------------------------------------------------------------

  /** Steps the scheduler takes by itself; the others are the user's or the clock's. */
  predicate Internal(l: Label) {
    !(l.Sleep? || l.BeginTrigger? || l.DropHandle? || l.Cancel?)
  }

  ghost predicate Quiescent(s: State)
    requires WellFormed(s)
  {
    forall l :: Internal(l) ==> !Enabled(s, l)
  }

  lemma {:induction false} AllScheduled(s: State, i: nat)
    requires WellFormed(s) && Quiescent(s) && i < |s.loops|
    ensures s.loops[i].pc != Unscheduled
  {
    if i > 0 { AllScheduled(s, i - 1); }
    assert !Enabled(s, Schedule(i));
  }

  lemma QuietLoop(s: State, i: nat)
    requires Inv(s) && Quiescent(s) && i < |s.loops|
    ensures s.loops[i].pc == Waiting || s.loops[i].pc == Done
    ensures s.queue == [] && (s.worker == Idle || s.worker == Stopped)
    ensures s.loops[i].kind == OnStart ==> s.loops[i].pc == Done
  {
    AllScheduled(s, i);
    assert OnStartOk(s, i) && PeriodicOk(s, i) && ManualOk(s, i);
    assert !Enabled(s, Receive) && !Enabled(s, Finish);
    assert !Enabled(s, Poll(i)) && !Enabled(s, Enqueue(i)) && !Enabled(s, SendFails(i)) && !Enabled(s, Check(i));
  }

  /** At quiescence without cancellation, every `OnStart` task has been executed exactly
      once, however many of them there are. */
  lemma OnStartRunsOnce(s: State, i: nat)
    requires Inv(s) && Quiescent(s) && !s.cancelled && i < |s.loops| && s.loops[i].kind == OnStart
    ensures s.executed == s.accepted && Count(s.executed, i) == 1
  {
    QuietLoop(s, i);
    assert OnStartOk(s, i);
    if s.worker == Idle { assert s.executed + [] == s.executed; }
  }

  /** At quiescence without cancellation, a manual loop has noticed every trigger sent
      since it was registered, has had a task executed that was enqueued after the last
      of them, and has enqueued no more tasks than there were triggers. */
  lemma ManualLosesNoTrigger(s: State, i: nat)
    requires Inv(s) && Quiescent(s) && !s.cancelled && IsManual(s, i)
    ensures s.executed == s.accepted
    ensures var l, w := s.loops[i], WatchOf(s, i);
            && l.seen == w.version
            && (w.version > l.registered ==> EnqueuedSince(s.executed, i, w.mark))
            && Count(s.executed, i) <= w.version - l.registered
  {
    QuietLoop(s, i);
    assert ManualOk(s, i);
    assert !Enabled(s, Notice(i));
    if s.worker == Idle { assert s.executed + [] == s.executed; }
  }

  lemma ReadStep(s: State, m: nat)
    requires WellFormed(s) && m < |s.watches| && s.watches[m].open && Listening(s, m)
    ensures var s' := Apply(s, BeginTrigger(m));
            && WellFormed(s') && m < |s'.watches| && Listening(s', m)
            && s'.watches[m] == s.watches[m].(inFlight := s.watches[m].inFlight + [s.watches[m].value])
  {
    assert Apply(s, BeginTrigger(m)).loops == s.loops;
  }

  lemma SendStep(s: State, m: nat)
    requires WellFormed(s) && m < |s.watches| && s.watches[m].inFlight != [] && Listening(s, m)
    ensures var s' := Apply(s, EndTrigger(m, 0));
            && WellFormed(s') && m < |s'.watches| && Listening(s', m)
            && s'.watches[m] == Sent(s.watches[m], 0, |s.accepted|, true)
  {
    assert Apply(s, EndTrigger(m, 0)).loops == s.loops;
  }

  /** The counter itself does lose updates: two overlapping triggers can leave it at one.
      The channel's version still counts both sends, and that is what loops compare. */
  lemma CounterLosesUpdates(s: State, m: nat)
    requires WellFormed(s) && m < |s.watches| && Listening(s, m)
    requires s.watches[m].open && s.watches[m].inFlight == [] && s.watches[m].value == 0
    ensures var ls := [BeginTrigger(m), BeginTrigger(m), EndTrigger(m, 0), EndTrigger(m, 0)];
            && IsRun(s, ls)
            && m < |Final(s, ls).watches|
            && Final(s, ls).watches[m].value == 1
            && Final(s, ls).watches[m].version == s.watches[m].version + 2
  {
    ReadStep(s, m);
    var s1 := Apply(s, BeginTrigger(m));
    ReadStep(s1, m);
    var s2 := Apply(s1, BeginTrigger(m));
    assert s2.watches[m].inFlight == [0, 0];
    SendStep(s2, m);
    var s3 := Apply(s2, EndTrigger(m, 0));
    assert s3.watches[m].inFlight == [0];
    SendStep(s3, m);
    var s4 := Apply(s3, EndTrigger(m, 0));
    RunOf4(s, BeginTrigger(m), BeginTrigger(m), EndTrigger(m, 0), EndTrigger(m, 0), s1, s2, s3, s4);
  }

  lemma RunOf4(s: State, a: Label, b: Label, c: Label, d: Label, s1: State, s2: State, s3: State, s4: State)
    requires WellFormed(s) && Enabled(s, a) && s1 == Apply(s, a) && WellFormed(s1)
    requires Enabled(s1, b) && s2 == Apply(s1, b) && WellFormed(s2)
    requires Enabled(s2, c) && s3 == Apply(s2, c) && WellFormed(s3)
    requires Enabled(s3, d) && s4 == Apply(s3, d) && WellFormed(s4)
    ensures IsRun(s, [a, b, c, d]) && Final(s, [a, b, c, d]) == s4
  {
    RunCons(s3, d, []);
    RunCons(s2, c, [d]);
    RunCons(s1, b, [c, d]);
    RunCons(s, a, [b, c, d]);
  }

  lemma RunCons(s: State, l: Label, ls: seq<Label>)
    requires WellFormed(s) && Enabled(s, l) && WellFormed(Apply(s, l)) && IsRun(Apply(s, l), ls)
    ensures IsRun(s, [l] + ls) && Final(s, [l] + ls) == Final(Apply(s, l), ls)
  {
    assert ([l] + ls)[1..] == ls;
  }

  // ---------------------------------------------------------------------------
  // When the counter counts
  // ---------------------------------------------------------------------------

  const WRAP: nat := 0x1_0000_0000_0000_0000

  /** For each value in flight on channel `m`, the version at which it was read. */
  function NextReads(s: State, l: Label, m: nat, readAt: seq<nat>): seq<nat>
    requires m < |s.watches| && |readAt| == |s.watches[m].inFlight|
  {
    match l
    case BeginTrigger(i) => if i == m then readAt + [s.watches[m].version] else readAt
    case EndTrigger(i, j) => if i == m && j < |readAt| then readAt[..j] + readAt[j + 1..] else readAt
    case _ => readAt
  }

  /** The label sends, to listeners of channel `m`, a value that another send has
      overtaken since it was read. */
  predicate Overtaken(s: State, l: Label, m: nat, readAt: seq<nat>)
    requires m < |s.watches| && |readAt| == |s.watches[m].inFlight|
  {
    l.EndTrigger? && l.m == m && l.j < |readAt| && Listening(s, m) && readAt[l.j] != s.watches[m].version
  }

  lemma ReadsMatch(s: State, l: Label, m: nat, readAt: seq<nat>)
    requires WellFormed(s) && Enabled(s, l) && m < |s.watches| && |readAt| == |s.watches[m].inFlight|
    ensures m < |Apply(s, l).watches| && |NextReads(s, l, m, readAt)| == |Apply(s, l).watches[m].inFlight|
  {}

  /** In no trigger of the run did a send of another fall between its read and its send. */
  predicate NoneOvertaken(s: State, ls: seq<Label>, m: nat, readAt: seq<nat>)
    requires WellFormed(s) && IsRun(s, ls) && m < |s.watches| && |readAt| == |s.watches[m].inFlight|
    decreases |ls|
  {
    ls == [] ||
    (!Overtaken(s, ls[0], m, readAt) &&
     (StaysWellFormed(s, ls[0]);
      ReadsMatch(s, ls[0], m, readAt);
      NoneOvertaken(Apply(s, ls[0]), ls[1..], m, NextReads(s, ls[0], m, readAt))))
  }

  /** The counter agrees with the version, and so did every value in flight when read. */
  ghost predicate Exact(w: Watch, readAt: seq<nat>) {
    && w.value == w.version && w.inFlight == readAt
    && forall j :: 0 <= j < |readAt| ==> readAt[j] <= w.version
  }

  /** The counter is behind the version, and every value in flight will leave it so. */
  ghost predicate Behind(w: Watch) {
    w.value < w.version && forall j :: 0 <= j < |w.inFlight| ==> w.inFlight[j] < w.version
  }

  lemma ExactStep(s: State, l: Label, m: nat, readAt: seq<nat>)
    requires WellFormed(s) && Enabled(s, l) && m < |s.watches| && Exact(s.watches[m], readAt)
    requires m < |Apply(s, l).watches| && Apply(s, l).watches[m].version < WRAP
    ensures var w' := Apply(s, l).watches[m];
            if Overtaken(s, l, m, readAt) then Behind(w') else Exact(w', NextReads(s, l, m, readAt))
  {
    var w := s.watches[m];
    if l.EndTrigger? && l.m == m {
      EndExact(s, l, readAt);
    }
  }

  lemma EndExact(s: State, l: Label, readAt: seq<nat>)
    requires WellFormed(s) && Enabled(s, l) && l.EndTrigger? && Exact(s.watches[l.m], readAt)
    requires Apply(s, l).watches[l.m].version < WRAP
    ensures var w' := Apply(s, l).watches[l.m];
            if Overtaken(s, l, l.m, readAt) then Behind(w') else Exact(w', NextReads(s, l, l.m, readAt))
  {
    assert s.watches[l.m].inFlight[l.j] == readAt[l.j];
  }

  lemma BehindStep(s: State, l: Label, m: nat)
    requires WellFormed(s) && Enabled(s, l) && m < |s.watches| && Behind(s.watches[m])
    requires m < |Apply(s, l).watches| && Apply(s, l).watches[m].version < WRAP
    ensures Behind(Apply(s, l).watches[m])
  {}

  lemma {:induction false} VersionGrows(s: State, ls: seq<Label>, m: nat)
    requires WellFormed(s) && IsRun(s, ls) && m < |s.watches|
    ensures m < |Final(s, ls).watches| && s.watches[m].version <= Final(s, ls).watches[m].version
    decreases |ls|
  {
    if ls != [] {
      StaysWellFormed(s, ls[0]);
      VersionGrows(Apply(s, ls[0]), ls[1..], m);
    }
  }

  lemma {:induction false} StaysBehind(s: State, ls: seq<Label>, m: nat)
    requires WellFormed(s) && IsRun(s, ls) && m < |s.watches| && Behind(s.watches[m])
    requires m < |Final(s, ls).watches| && Final(s, ls).watches[m].version < WRAP
    ensures Behind(Final(s, ls).watches[m])
    decreases |ls|
  {
    if ls != [] {
      StaysWellFormed(s, ls[0]);
      VersionGrows(Apply(s, ls[0]), ls[1..], m);
      BehindStep(s, ls[0], m);
      StaysBehind(Apply(s, ls[0]), ls[1..], m);
    }
  }

  lemma {:induction false} ExactRun(s: State, ls: seq<Label>, m: nat, readAt: seq<nat>)
    requires WellFormed(s) && IsRun(s, ls) && m < |s.watches| && Exact(s.watches[m], readAt)
    requires m < |Final(s, ls).watches| && Final(s, ls).watches[m].version < WRAP
    ensures if NoneOvertaken(s, ls, m, readAt) then Final(s, ls).watches[m].value == Final(s, ls).watches[m].version
            else Behind(Final(s, ls).watches[m])
    decreases |ls|
  {
    if ls != [] {
      var s' := Apply(s, ls[0]);
      StaysWellFormed(s, ls[0]);
      ReadsMatch(s, ls[0], m, readAt);
      VersionGrows(s', ls[1..], m);
      ExactStep(s, ls[0], m, readAt);
      if Overtaken(s, ls[0], m, readAt) {
        StaysBehind(s', ls[1..], m);
      } else {
        ExactRun(s', ls[1..], m, NextReads(s, ls[0], m, readAt));
      }
    }
  }

  /** The counter behind `Manual` counts the triggers that were heard if and only if no
      trigger was overtaken: no other send fell between its read and its send. It then
      equals the version; otherwise it stays behind for good. (For runs of fewer than
      2^64 triggers.) */
  lemma CounterCounts(s: State, ls: seq<Label>, m: nat)
    requires WellFormed(s) && IsRun(s, ls) && m < |s.watches|
    requires s.watches[m].value == s.watches[m].version && s.watches[m].inFlight == []
    requires m < |Final(s, ls).watches| && Final(s, ls).watches[m].version < WRAP
    ensures Final(s, ls).watches[m].value == Final(s, ls).watches[m].version <==> NoneOvertaken(s, ls, m, [])
    ensures Final(s, ls).watches[m].value <= Final(s, ls).watches[m].version
  {
    ExactRun(s, ls, m, []);
  }

  /** No trigger of the channel begins while another is in flight. */
  predicate OneAtATime(s: State, ls: seq<Label>, m: nat)
    requires WellFormed(s) && IsRun(s, ls) && m < |s.watches|
    decreases |ls|
  {
    ls == [] ||
    ((ls[0] == BeginTrigger(m) ==> s.watches[m].inFlight == []) &&
     (StaysWellFormed(s, ls[0]); OneAtATime(Apply(s, ls[0]), ls[1..], m)))
  }

  /** Callers who trigger one at a time are never overtaken. */
  lemma {:induction false} SerialNeverOvertaken(s: State, ls: seq<Label>, m: nat, readAt: seq<nat>)
    requires WellFormed(s) && IsRun(s, ls) && m < |s.watches| && OneAtATime(s, ls, m)
    requires |readAt| == |s.watches[m].inFlight| <= 1 && (readAt != [] ==> readAt[0] == s.watches[m].version)
    ensures NoneOvertaken(s, ls, m, readAt)
    decreases |ls|
  {
    if ls != [] {
      StaysWellFormed(s, ls[0]);
      ReadsMatch(s, ls[0], m, readAt);
      SerialNeverOvertaken(Apply(s, ls[0]), ls[1..], m, NextReads(s, ls[0], m, readAt));
    }
  }

  /** The counter modulo 2^64 under that guard, with no bound on the run. */
  ghost predicate Serial(w: Watch) {
    w.value == w.version % WRAP && |w.inFlight| <= 1 && (w.inFlight != [] ==> w.inFlight[0] == w.value)
  }

  lemma WrapNext(n: nat)
    ensures (n % WRAP + 1) % WRAP == (n + 1) % WRAP
  {}

  lemma SerialStep(s: State, l: Label, m: nat)
    requires WellFormed(s) && Enabled(s, l) && m < |s.watches| && Serial(s.watches[m])
    requires l == BeginTrigger(m) ==> s.watches[m].inFlight == []
    ensures m < |Apply(s, l).watches| && Serial(Apply(s, l).watches[m])
  {
    WrapNext(s.watches[m].version);
  }

  lemma {:induction false} SerialCounterExact(s: State, ls: seq<Label>, m: nat)
    requires WellFormed(s) && IsRun(s, ls) && m < |s.watches| && OneAtATime(s, ls, m) && Serial(s.watches[m])
    ensures m < |Final(s, ls).watches| && Serial(Final(s, ls).watches[m])
    decreases |ls|
  {
    if ls != [] {
      StaysWellFormed(s, ls[0]);
      SerialStep(s, ls[0], m);
      SerialCounterExact(Apply(s, ls[0]), ls[1..], m);
    }
  }

  // ---------------------------------------------------------------------------
  // Progress: every internal step, and every sleep after cancellation, uses up rank
  // ---------------------------------------------------------------------------

  function LoopRank(l: Loop, watches: seq<Watch>, cancelled: bool): nat {
    if l.pc == Unscheduled then 6
    else if l.pc == Done then 0
    else
      match l.kind
      case OnStart => if l.pc == Start then 5 else 4
      case Periodic =>
        if l.pc == Waiting then (if cancelled then 2 else 0)
        else if l.pc == Woken then (if cancelled then 1 else 4)
        else if cancelled then 5 else 3
      case Manual(m) =>
        (if l.pc == Waiting then 1 else 4) + (if m < |watches| && l.seen != watches[m].version then 4 else 0)
  }

  function LoopsRank(loops: seq<Loop>, watches: seq<Watch>, cancelled: bool): nat {
    if loops == [] then 0
    else LoopRank(loops[0], watches, cancelled) + LoopsRank(loops[1..], watches, cancelled)
  }

  function InFlight(watches: seq<Watch>): nat {
    if watches == [] then 0 else |watches[0].inFlight| + InFlight(watches[1..])
  }

  function WorkerRank(w: Worker): nat {
    match w
    case Idle => 1
    case Running(_) => 2
    case Stopped => 0
  }

  function Times(a: nat, n: nat): nat {
    if n == 0 then 0 else a + Times(a, n - 1)
  }

  /** A value in flight weighs more than all it can add to the loops. */
  function Rank(s: State): nat {
    LoopsRank(s.loops, s.watches, s.cancelled) + 2 * |s.queue| + WorkerRank(s.worker)
    + Times(4 * |s.loops| + 1, InFlight(s.watches))
  }

  lemma {:induction false} LoopsRankUpdate(loops: seq<Loop>, watches: seq<Watch>, c: bool, i: nat, l: Loop)
    requires i < |loops|
    ensures LoopsRank(loops[i := l], watches, c)
         == LoopsRank(loops, watches, c) - LoopRank(loops[i], watches, c) + LoopRank(l, watches, c)
  {
    if i == 0 {
      assert loops[0 := l][1..] == loops[1..];
    } else {
      assert loops[i := l][1..] == loops[1..][i - 1 := l];
      LoopsRankUpdate(loops[1..], watches, c, i - 1, l);
    }
  }

  /** One send makes at most every loop of the channel rank four higher. */
  lemma {:induction false} LoopsRankSend(loops: seq<Loop>, a: seq<Watch>, b: seq<Watch>, c: bool)
    requires |a| == |b|
    ensures LoopsRank(loops, b, c) <= LoopsRank(loops, a, c) + 4 * |loops|
  {
    if loops != [] { LoopsRankSend(loops[1..], a, b, c); }
  }

  lemma {:induction false} InFlightUpdate(watches: seq<Watch>, m: nat, w: Watch)
    requires m < |watches|
    ensures InFlight(watches[m := w]) == InFlight(watches) - |watches[m].inFlight| + |w.inFlight|
  {
    if m == 0 {
      assert watches[0 := w][1..] == watches[1..];
    } else {
      assert watches[m := w][1..] == watches[1..][m - 1 := w];
      InFlightUpdate(watches[1..], m - 1, w);
    }
  }

  lemma LoopStepRank(s: State, l: Label, i: nat)
    requires Inv(s) && Enabled(s, l) && Mover(l) == i && (Internal(l) || s.cancelled)
    ensures var s' := Apply(s, l);
            i < |s.loops| && s' == s.(loops := s'.loops, queue := s'.queue, accepted := s'.accepted)
            && s'.loops == s.loops[i := s'.loops[i]]
            && LoopRank(s'.loops[i], s.watches, s.cancelled) + 2 * |s'.queue|
               < LoopRank(s.loops[i], s.watches, s.cancelled) + 2 * |s.queue|
  {
    assert OnStartOk(s, i) && PeriodicOk(s, i) && ManualOk(s, i);
  }

  lemma RankDecreases(s: State, l: Label)
    requires Inv(s) && Enabled(s, l) && (Internal(l) || (l.Sleep? && s.cancelled))
    ensures Rank(Apply(s, l)) < Rank(s)
  {
    var s' := Apply(s, l);
    if Mover(l) >= 0 {
      var i: nat := Mover(l);
      LoopStepRank(s, l, i);
      LoopsRankUpdate(s.loops, s.watches, s.cancelled, i, s'.loops[i]);
    } else {
      match l
      case EndTrigger(m, j) =>
        LoopsRankSend(s.loops, s.watches, s'.watches, s.cancelled);
        InFlightUpdate(s.watches, m, s'.watches[m]);
        assert InFlight(s'.watches) == InFlight(s.watches) - 1;
      case _ => NoMoveRank(s, l);
    }
  }

  lemma NoMoveRank(s: State, l: Label)
    requires WellFormed(s) && Enabled(s, l) && (l.Receive? || l.Finish? || l.StopCancelled? || l.StopDrained?)
    ensures Rank(Apply(s, l)) < Rank(s)
  {}

  /** Labels that remain possible once the user has let go of the store and triggers no
      more: everything internal, and the clock. */
  predicate AfterShutdown(l: Label) {
    Internal(l) || l.Sleep?
  }

  /** After cancellation, with no new trigger, every run is shorter than the rank of the
      state it starts in: the scheduler always comes to rest. */
  lemma {:induction false} ShutdownTerminates(s: State, ls: seq<Label>)
    requires Inv(s) && s.cancelled && IsRun(s, ls)
    requires forall l :: l in ls ==> AfterShutdown(l)
    ensures |ls| <= Rank(s) && Final(s, ls).cancelled
    decreases |ls|
  {
    if ls != [] {
      assert ls[0] in ls;
      InvStep(s, ls[0]);
      RankDecreases(s, ls[0]);
      StaysWellFormed(s, ls[0]);
      ShutdownTerminates(Apply(s, ls[0]), ls[1..]);
    }
  }

  /** Without cancellation, runs between two events of the clock or the user are finite
      too, so quiescence is always reached. */
  lemma {:induction false} QuiescenceIsReached(s: State, ls: seq<Label>)
    requires Inv(s) && IsRun(s, ls)
    requires forall l :: l in ls ==> Internal(l)
    ensures |ls| <= Rank(s)
    decreases |ls|
  {
    if ls != [] {
      assert ls[0] in ls;
      InvStep(s, ls[0]);
      RankDecreases(s, ls[0]);
      StaysWellFormed(s, ls[0]);
      QuiescenceIsReached(Apply(s, ls[0]), ls[1..]);
    }
  }

  /** And where a cancelled scheduler rests, worker and loops have all stopped: a sender
      blocked on a full queue has been released. */
  lemma ShutdownIsComplete(s: State)
    requires Inv(s) && s.cancelled && Quiescent(s)
    ensures s.worker == Stopped && s.queue == [] && AllDone(s)
  {
    assert !Enabled(s, StopCancelled) && !Enabled(s, Finish);
    forall i | 0 <= i < |s.loops|
      ensures s.loops[i].pc == Done
    {
      QuietLoop(s, i);
      assert !Enabled(s, Break(i));
    }
  }

  /** And a scheduler can always be shut down: from every reachable state some run cancels
      it, if nobody has yet, and stops worker and loops. */
  lemma {:induction false} CanShutDown(s: State) returns (ls: seq<Label>)
    requires Inv(s)
    ensures IsRun(s, ls) && Final(s, ls).cancelled && Final(s, ls).worker == Stopped && AllDone(Final(s, ls))
    decreases !s.cancelled, Rank(s)
  {
    if s.cancelled && Quiescent(s) {
      ShutdownIsComplete(s);
      ls := [];
    } else {
      var l: Label;
      if s.cancelled {
        l :| Internal(l) && Enabled(s, l);
        RankDecreases(s, l);
      } else {
        l := Cancel;
      }
      StaysWellFormed(s, l);
      InvStep(s, l);
      var rest := CanShutDown(Apply(s, l));
      RunCons(s, l, rest);
      ls := [l] + rest;
    }
  }

  /** Tasks still queued when the worker hears of the cancellation are dropped. */
  lemma CancelCanDrop(watches: seq<Watch>)
    ensures var s := State([Loop(OnStart, Unscheduled, 0, 0)], watches, [], Idle, false, [], []);
            var ls := [Schedule(0)] + [Poll(0), Enqueue(0), Cancel, StopCancelled];
            && IsRun(s, ls) && Final(s, ls).accepted == [0] && Final(s, ls).executed == []
            && Final(s, ls).worker == Stopped
  {
    var s := State([Loop(OnStart, Unscheduled, 0, 0)], watches, [], Idle, false, [], []);
    var s1 := Apply(s, Schedule(0));
    var s2 := Apply(s1, Poll(0));
    var s3 := Apply(s2, Enqueue(0));
    var s4 := Apply(s3, Cancel);
    RunOf4(s1, Poll(0), Enqueue(0), Cancel, StopCancelled, s2, s3, s4, Apply(s4, StopCancelled));
    RunCons(s, Schedule(0), [Poll(0), Enqueue(0), Cancel, StopCancelled]);
    assert s3.accepted == [] + [0];
  }

  /** How many more tasks loop `i` may enqueue once cancelled. */
  function Allowance(s: State, i: nat): nat
    requires WellFormed(s) && i < |s.loops|
  {
    var l := s.loops[i];
    match l.kind
    case OnStart => if l.pc == Sending then 1 else 0
    case Periodic => if l.pc == Sending || l.pc == Unscheduled then 1 else 0
    case Manual(m) =>
      var w := s.watches[m];
      if l.pc == Done then 0
      else |w.inFlight| + (if l.pc == Sending then 1 else 0)
           + (if l.pc != Unscheduled && l.seen != w.version then 1 else 0)
  }

  ghost predicate WithinAllowance(s: State, l: Label, i: nat)
    requires WellFormed(s) && Enabled(s, l) && i < |s.loops|
  {
    StaysWellFormed(s, l);
    Count(Apply(s, l).accepted, i) + Allowance(Apply(s, l), i) <= Count(s.accepted, i) + Allowance(s, i)
  }

  lemma AllowanceMove(s: State, l: Label, i: nat)
    requires Inv(s) && s.cancelled && Enabled(s, l) && i < |s.loops| && Mover(l) >= 0
    ensures WithinAllowance(s, l, i)
  {
    StaysWellFormed(s, l);
    assert Apply(s, l).watches == s.watches;
    assert OnStartOk(s, i) && PeriodicOk(s, i) && ManualOk(s, i);
    if l.Enqueue? { CountAppend(s.accepted, i, Mover(l)); }
    if Mover(l) != i { assert Apply(s, l).loops[i] == s.loops[i]; }
  }

  lemma AllowanceStep(s: State, l: Label, i: nat)
    requires Inv(s) && s.cancelled && Enabled(s, l) && AfterShutdown(l) && i < |s.loops|
    ensures WithinAllowance(s, l, i)
  {
    StaysWellFormed(s, l);
    if Mover(l) >= 0 {
      AllowanceMove(s, l, i);
    } else {
      assert Apply(s, l).loops == s.loops && Apply(s, l).accepted == s.accepted;
    }
  }

  /** After cancellation an `OnStart` or `Periodic` loop enqueues at most one more task,
      and only if its send had already begun (or its build step was still to come). */
  lemma {:induction false} AtMostOneMore(s: State, ls: seq<Label>, i: nat)
    requires Inv(s) && s.cancelled && IsRun(s, ls) && i < |s.loops|
    requires forall l :: l in ls ==> AfterShutdown(l)
    ensures Count(Final(s, ls).accepted, i) <= Count(s.accepted, i) + Allowance(s, i)
    ensures !s.loops[i].kind.Manual? ==> Allowance(s, i) <= 1
    decreases |ls|
  {
    if ls != [] {
      assert ls[0] in ls;
      InvStep(s, ls[0]);
      AllowanceStep(s, ls[0], i);
      StaysWellFormed(s, ls[0]);
      AtMostOneMore(Apply(s, ls[0]), ls[1..], i);
    }
  }

  // ---------------------------------------------------------------------------
  // Whole runs of a built scheduler
  // ---------------------------------------------------------------------------

  /** Safety of every run: first-in first-out with at most 16 waiting, and no `OnStart`
      task twice. */
  lemma EveryRunIsSafe(s: State, ls: seq<Label>, i: nat)
    requires Initial(s) && IsRun(s, ls) && i < |s.loops| && s.loops[i].kind == OnStart
    ensures Fifo(Final(s, ls)) && Count(Final(s, ls).accepted, i) <= 1
  {
    InitialInv(s);
    InvRun(s, ls);
    KindsStay(s, ls);
    assert OnStartOk(Final(s, ls), i);
  }

  lemma {:induction false} KindsStay(s: State, ls: seq<Label>)
    requires WellFormed(s) && IsRun(s, ls)
    ensures |Final(s, ls).loops| == |s.loops|
    ensures forall i :: 0 <= i < |s.loops| ==> Final(s, ls).loops[i].kind == s.loops[i].kind
    decreases |ls|
  {
    if ls != [] {
      StaysWellFormed(s, ls[0]);
      KindsStay(Apply(s, ls[0]), ls[1..]);
    }
  }

  lemma {:induction false} RunSplit(s: State, a: seq<Label>, b: seq<Label>)
    requires WellFormed(s) && IsRun(s, a + b)
    ensures IsRun(s, a) && IsRun(Final(s, a), b) && Final(s, a + b) == Final(Final(s, a), b)
    decreases |a|
  {
    if a == [] {
      assert a + b == b;
    } else {
      assert (a + b)[1..] == a[1..] + b;
      StaysWellFormed(s, a[0]);
      RunSplit(Apply(s, a[0]), a[1..], b);
    }
  }

  lemma {:induction false} StaysCancelled(s: State, ls: seq<Label>)
    requires WellFormed(s) && IsRun(s, ls) && s.cancelled
    ensures Final(s, ls).cancelled
    decreases |ls|
  {
    if ls != [] {
      StaysWellFormed(s, ls[0]);
      StaysCancelled(Apply(s, ls[0]), ls[1..]);
    }
  }

  /** How often the clock has woken loop `i`. */
  function Wakings(ls: seq<Label>, i: nat): nat {
    if ls == [] then 0 else (if ls[0] == Sleep(i) then 1 else 0) + Wakings(ls[1..], i)
  }

  /** A task that a periodic loop is on its way to enqueue. */
  function Owed(s: State, i: nat): nat
    requires i < |s.loops|
  {
    if s.loops[i].pc in {Unscheduled, Sending, Woken} then 1 else 0
  }

  /** A step that is not one of the loop's own. */
  lemma PeriodicStill(s: State, l: Label, i: nat)
    requires WellFormed(s) && Enabled(s, l) && i < |s.loops| && Mover(l) != i
    ensures |Apply(s, l).loops| == |s.loops| && Owed(Apply(s, l), i) == Owed(s, i) && Wakings([l], i) == 0
    ensures Count(Apply(s, l).accepted, i) == Count(s.accepted, i)
  {
    if Mover(l) >= 0 { assert Apply(s, l).loops[i] == s.loops[i]; }
    if l.Enqueue? { CountAppend(s.accepted, i, l.i); }
  }

  lemma PeriodicStep(s: State, l: Label, i: nat)
    requires Inv(s) && Enabled(s, l) && i < |s.loops| && s.loops[i].kind == Periodic
    ensures |Apply(s, l).loops| == |s.loops|
    ensures var before := Count(s.accepted, i) + Owed(s, i);
            var after := Count(Apply(s, l).accepted, i) + Owed(Apply(s, l), i);
            && after <= before + Wakings([l], i)
            && (!Apply(s, l).cancelled ==> after == before + Wakings([l], i))
  {
    if Mover(l) == i {
      PeriodicMove(s, l, i);
    } else {
      PeriodicStill(s, l, i);
    }
  }

  lemma PeriodicMove(s: State, l: Label, i: nat)
    requires Inv(s) && Enabled(s, l) && i < |s.loops| && s.loops[i].kind == Periodic && Mover(l) == i
    ensures |Apply(s, l).loops| == |s.loops| && Apply(s, l).cancelled == s.cancelled
    ensures var before := Count(s.accepted, i) + Owed(s, i);
            var after := Count(Apply(s, l).accepted, i) + Owed(Apply(s, l), i);
            && after <= before + Wakings([l], i)
            && (!s.cancelled ==> after == before + Wakings([l], i))
  {
    assert PeriodicOk(s, i);
    if l.Enqueue? { CountAppend(s.accepted, i, l.i); }
  }

  /** Over every run a periodic loop enqueues no more than one task to begin with and one
      for each waking, and exactly these as long as nobody cancels. */
  lemma {:induction false} PeriodicKeepsPace(s: State, ls: seq<Label>, i: nat)
    requires Inv(s) && IsRun(s, ls) && i < |s.loops| && s.loops[i].kind == Periodic
    ensures var e := Final(s, ls);
            && i < |e.loops|
            && Count(e.accepted, i) + Owed(e, i) <= Count(s.accepted, i) + Owed(s, i) + Wakings(ls, i)
            && (!e.cancelled ==>
                  Count(e.accepted, i) + Owed(e, i) == Count(s.accepted, i) + Owed(s, i) + Wakings(ls, i))
    decreases |ls|
  {
    if ls != [] {
      var s' := Apply(s, ls[0]);
      StaysWellFormed(s, ls[0]);
      PeriodicStep(s, ls[0], i);
      InvStep(s, ls[0]);
      PeriodicKeepsPace(s', ls[1..], i);
      if s'.cancelled { StaysCancelled(s', ls[1..]); }
    }
  }

  lemma RestIsIdle(s: State, i: nat)
    requires Inv(s) && Quiescent(s) && !s.cancelled && i < |s.loops|
    ensures s.executed == s.accepted
  {
    QuietLoop(s, i);
    if s.worker == Idle { assert s.executed + [] == s.executed; }
  }

  /** A periodic task runs at once and again after every sleep: every uncancelled run that
      comes to rest has executed it once and once more for each waking of its loop, and the
      loop is asleep again. */
  lemma PeriodicRepeats(s: State, ls: seq<Label>, i: nat)
    requires Initial(s) && IsRun(s, ls) && i < |s.loops| && s.loops[i].kind == Periodic
    requires Quiescent(Final(s, ls)) && !Final(s, ls).cancelled
    ensures Count(Final(s, ls).executed, i) == 1 + Wakings(ls, i)
    ensures Enabled(Final(s, ls), Sleep(i))
  {
    InitialInv(s);
    InvRun(s, ls);
    KindsStay(s, ls);
    PeriodicKeepsPace(s, ls, i);
    var e := Final(s, ls);
    RestIsIdle(e, i);
    QuietLoop(e, i);
    assert PeriodicOk(e, i);
  }

  /** How many sends on channel `m` the run has completed. */
  function Sends(ls: seq<Label>, m: nat): nat {
    if ls == [] then 0 else (if ls[0].EndTrigger? && ls[0].m == m then 1 else 0) + Sends(ls[1..], m)
  }

  lemma ChannelStep(s: State, l: Label, i: nat)
    requires Inv(s) && Enabled(s, l) && IsManual(s, i) && s.loops[i].pc != Unscheduled
    ensures var s', m := Apply(s, l), s.loops[i].kind.watch;
            && IsManual(s', i) && s'.loops[i].kind == s.loops[i].kind
            && s'.loops[i].registered == s.loops[i].registered && s'.loops[i].pc != Unscheduled
            && m < |s'.watches|
            && s.watches[m].version <= s'.watches[m].version <= s.watches[m].version + Sends([l], m)
            && s.watches[m].mark <= s'.watches[m].mark
  {
    assert WatchOk(s, s.loops[i].kind.watch);
  }

  /** Once scheduled, a manual loop keeps its starting point, and its channel moves on by
      at most one version for each send. */
  lemma {:induction false} ChannelMoves(s: State, ls: seq<Label>, i: nat)
    requires Inv(s) && IsRun(s, ls) && IsManual(s, i) && s.loops[i].pc != Unscheduled
    ensures var e, m := Final(s, ls), s.loops[i].kind.watch;
            && IsManual(e, i) && e.loops[i].kind == s.loops[i].kind && e.loops[i].registered == s.loops[i].registered
            && e.loops[i].pc != Unscheduled
            && WatchOf(s, i).version <= WatchOf(e, i).version <= WatchOf(s, i).version + Sends(ls, m)
            && WatchOf(s, i).mark <= WatchOf(e, i).mark
    decreases |ls|
  {
    if ls != [] {
      StaysWellFormed(s, ls[0]);
      ChannelStep(s, ls[0], i);
      InvStep(s, ls[0]);
      ChannelMoves(Apply(s, ls[0]), ls[1..], i);
    }
  }

  /** A manual loop runs only when it is triggered: after `Schedule` at most one task per
      send on its channel, whatever was sent before. */
  lemma ManualNeedsTriggers(s: State, a: seq<Label>, b: seq<Label>, i: nat)
    requires Initial(s) && IsManual(s, i) && IsRun(s, a + [Schedule(i)] + b)
    ensures Count(Final(s, a + [Schedule(i)] + b).accepted, i) <= Sends(b, s.loops[i].kind.watch)
  {
    InitialInv(s);
    RunSplit(s, a + [Schedule(i)], b);
    RunSplit(s, a, [Schedule(i)]);
    InvRun(s, a);
    KindsStay(s, a);
    var s0 := Final(s, a);
    var s1 := Final(s, a + [Schedule(i)]);
    assert s1 == Apply(s0, Schedule(i));
    InvStep(s0, Schedule(i));
    ChannelMoves(s1, b, i);
    InvRun(s1, b);
    assert ManualOk(Final(s1, b), i);
  }

  /** And every send that completes while it is scheduled is followed by a task of it that
      has been executed by the time an uncancelled run comes to rest. */
  lemma ManualAnswersTriggers(s: State, a: seq<Label>, m: nat, j: nat, b: seq<Label>, i: nat)
    requires Initial(s) && IsManual(s, i) && s.loops[i].kind == Manual(m)
    requires IsRun(s, a + [EndTrigger(m, j)] + b) && Schedule(i) in a
    requires Quiescent(Final(s, a + [EndTrigger(m, j)] + b)) && !Final(s, a + [EndTrigger(m, j)] + b).cancelled
    ensures IsRun(s, a)
    ensures EnqueuedSince(Final(s, a + [EndTrigger(m, j)] + b).executed, i, |Final(s, a).accepted|)
  {
    var l := EndTrigger(m, j);
    InitialInv(s);
    RunSplit(s, a + [l], b);
    RunSplit(s, a, [l]);
    InvRun(s, a);
    KindsStay(s, a);
    ScheduledSince(s, a, i);
    var s0 := Final(s, a);
    var s1 := Final(s, a + [l]);
    assert s1 == Apply(s0, l);
    InvStep(s0, l);
    if s1.cancelled { StaysCancelled(s1, b); }
    assert ManualOk(s0, i) && WatchOk(s0, m);
    assert Listening(s0, m);
    ChannelMoves(s1, b, i);
    InvRun(s1, b);
    ManualLosesNoTrigger(Final(s1, b), i);
  }

  lemma {:induction false} ScheduledSince(s: State, ls: seq<Label>, i: nat)
    requires WellFormed(s) && IsRun(s, ls) && i < |s.loops|
    requires Schedule(i) in ls || s.loops[i].pc != Unscheduled
    ensures i < |Final(s, ls).loops| && Final(s, ls).loops[i].pc != Unscheduled
    decreases |ls|
  {
    if ls != [] {
      StaysWellFormed(s, ls[0]);
      ScheduledSince(Apply(s, ls[0]), ls[1..], i);
    }
  }

  /** What has nothing left to do ends of itself: at rest a manual loop whose handles are all
      dropped has ended, and once all loops have, so has the worker. */
  lemma IdleEnds(s: State)
    requires Inv(s) && Quiescent(s) && !s.cancelled
    ensures forall i: nat :: IsManual(s, i) && !WatchOf(s, i).open ==> s.loops[i].pc == Done
    ensures AllDone(s) ==> s.worker == Stopped
  {
    forall i: nat | IsManual(s, i) && !WatchOf(s, i).open
      ensures s.loops[i].pc == Done
    {
      ManualLosesNoTrigger(s, i);
      QuietLoop(s, i);
      assert !Enabled(s, HandleGone(i));
    }
    assert !Enabled(s, StopDrained) && !Enabled(s, Finish) && !Enabled(s, Receive);
  }

  lemma {:induction false} StaysClosed(s: State, ls: seq<Label>, m: nat)
    requires WellFormed(s) && IsRun(s, ls) && m < |s.watches| && (!s.watches[m].open || DropHandle(m) in ls)
    ensures m < |Final(s, ls).watches| && !Final(s, ls).watches[m].open
    decreases |ls|
  {
    if ls != [] {
      StaysWellFormed(s, ls[0]);
      StaysClosed(Apply(s, ls[0]), ls[1..], m);
    }
  }

  /** Dropping the last handle of a channel ends the loops that listen to it. */
  lemma DroppedHandlesEndLoops(s: State, ls: seq<Label>, m: nat, i: nat)
    requires Initial(s) && IsRun(s, ls) && DropHandle(m) in ls && m < |s.watches|
    requires i < |s.loops| && s.loops[i].kind == Manual(m)
    requires Quiescent(Final(s, ls)) && !Final(s, ls).cancelled
    ensures i < |Final(s, ls).loops| && Final(s, ls).loops[i].pc == Done
  {
    InitialInv(s);
    InvRun(s, ls);
    KindsStay(s, ls);
    StaysClosed(s, ls, m);
    IdleEnds(Final(s, ls));
    assert IsManual(Final(s, ls), i);
  }

  /** Every uncancelled run that comes to rest has executed every `OnStart` task exactly
      once and every periodic task once and once more for each waking, and has left no
      manual trigger unserved. */
  lemma EveryRestIsComplete(s: State, ls: seq<Label>)
    requires Initial(s) && IsRun(s, ls)
    requires Quiescent(Final(s, ls)) && !Final(s, ls).cancelled
    ensures var e := Final(s, ls);
            && (forall i :: 0 <= i < |e.loops| && e.loops[i].kind == OnStart ==> Count(e.executed, i) == 1)
            && (forall i :: 0 <= i < |e.loops| && e.loops[i].kind == Periodic ==>
                  Count(e.executed, i) == 1 + Wakings(ls, i) && Enabled(e, Sleep(i)))
            && (forall i :: 0 <= i < |e.loops| && e.loops[i].kind.Manual? ==>
                  var w := WatchOf(e, i);
                  && (w.version > e.loops[i].registered ==> EnqueuedSince(e.executed, i, w.mark))
                  && Count(e.executed, i) <= w.version - e.loops[i].registered)
  {
    InitialInv(s);
    InvRun(s, ls);
    KindsStay(s, ls);
    var e := Final(s, ls);
    forall i | 0 <= i < |e.loops| && e.loops[i].kind == OnStart { OnStartRunsOnce(e, i); }
    forall i | 0 <= i < |e.loops| && e.loops[i].kind == Periodic { PeriodicRepeats(s, ls, i); }
    forall i | 0 <= i < |e.loops| && e.loops[i].kind.Manual? { ManualLosesNoTrigger(e, i); }
  }
}
