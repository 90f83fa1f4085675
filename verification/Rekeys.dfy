/** Re-keying the headers of an encryption layer while the data stays in place. */
module Rekeys {
  import opened Keys
  import opened Filters
  import opened Stores
  import opened Layers
  import opened Writes
  import opened Sorting

  // ---------------------------------------------------------------------------
  // The operation
  // ---------------------------------------------------------------------------

  /** One visit: read the header, ask the provider, write the new header back. Every
      failure is skipped; only a stream that breaks while being read (`CallFails`)
      aborts. */
  function RekeyVisit(p: Provider, inner: Store, w: World, k: string, count: nat): (World, Result<nat>) {
    var (w1, header) := Get(inner, w, k);
    if header.Err? then (w1, Ok(count))
    else if header.value.FailsAtEnd? then (w1, Err(Storage))
    else if Head(w1) == CallFails then (Pop(w1), Err(Storage))
    else if Head(w1) == KeyFails then (Pop(w1), Ok(count))
    else
      match p.rewrap(header.value.bytes)
      case Rewrapped(renewed) =>
        var (w2, r) := Put(inner, Pop(w1), [Blob(k, renewed, Completes([]))]);
        (w2, Ok(if r.Ok? then count + 1 else count))
      case _ => (Pop(w1), Ok(count))
  }

  /** `rekey`: the backend traversal presents the objects in `order`, and may break
      off at any of them. */
  function RekeyFrom(p: Provider, x: string, inner: Store, w: World, order: seq<string>, count: nat)
    : (World, Result<nat>)
    decreases |order|
  {
    if order == [] then (w, Ok(count))
    else if Head(w) != Fine then (Pop(w), Err(Storage))
    else
      var (w1, reached) := Reach(inner, Pop(w), SuffixFilter(x), order[0]);
      if reached.Err? then (w1, Err(reached.error))
      else if reached.value.None? then RekeyFrom(p, x, inner, w1, order[1..], count)
      else
        var (w2, r) := RekeyVisit(p, inner, w1, reached.value.value, count);
        if r.Err? then (w2, r) else RekeyFrom(p, x, inner, w2, order[1..], r.value)
  }

  // ---------------------------------------------------------------------------
  // Reads and writes of one object beneath the encryption layer
  // ---------------------------------------------------------------------------

  /** Without encryption the view of a key is the object it names. */
  lemma {:induction false} FlatView(s: Store, objs: map<string, Bytes>, k: string)
    requires Encryptions(s) == 0
    ensures Visible(s, objs, k) <==> Full(s, k) in objs
    ensures Visible(s, objs, k) ==> View(s, objs, k) == Delivers(objs[Full(s, k)])
  {
    match s
    case Base => assert Full(s, k) == k;
    case Prefixed(p, inner) =>
      FlatView(inner, objs, p + k);
      assert Full(s, k) == Full(inner, p + k);
    case Cleanable(inner) =>
      FlatView(inner, objs, k);
      assert Full(s, k) == Full(inner, k);
  }

  lemma {:induction false} GetFlat(s: Store, w: World, k: string)
    requires Encryptions(s) == 0 && Accepts(s, k)
    ensures Get(s, w, k).0 == Pop(Logged(w, GetCall(Full(s, k))))
    ensures Get(s, w, k).1 == if Head(w) != Fine then Err(Storage)
                              else if Full(s, k) in w.objs then Ok(Delivers(w.objs[Full(s, k)]))
                              else Err(NotFound(k))
  {
    match s
    case Base => assert Full(s, k) == k;
    case Prefixed(p, inner) =>
      GetFlat(inner, w, p + k);
      Assoc(Pre(inner), p, k);
    case Cleanable(inner) =>
      GetFlat(inner, w, k);
      assert Full(s, k) == Full(inner, k);
  }

  lemma {:induction false} GetRejects(s: Store, w: World, k: string)
    requires Encryptions(s) == 0 && !Accepts(s, k)
    ensures Get(s, w, k) == (w, Err(InvalidInput))
  {
    match s
    case Base =>
    case Prefixed(p, inner) => if PrefixAccepts(p, k) { GetRejects(inner, w, p + k); }
    case Cleanable(inner) => GetRejects(inner, w, k);
  }

  /** `o` is the header object of some logical key. */
  predicate IsHeader(inner: Store, x: string, o: string) {
    StartsWith(o, Pre(inner)) && EndsWith(o[|Pre(inner)|..], x)
  }

  /** Reading through the encryption layer, in terms of the two backend objects. */
  datatype Reading = Absent | Garbled | Plain(bytes: Bytes)

  function Read(s: Store, objs: map<string, Bytes>, k: string): Reading {
    if !Visible(s, objs, k) then Absent
    else
      match View(s, objs, k)
      case Delivers(bytes) => Plain(bytes)
      case FailsAtEnd => Garbled
  }

  function Opened(p: Provider, data: Bytes, header: Bytes): Reading {
    match p.open(data, header)
    case Some(plain) => Plain(plain)
    case None => Garbled
  }

  lemma ReadPair(p: Provider, x: string, inner: Store, objs: map<string, Bytes>, k: string)
    requires Encryptions(inner) == 0
    ensures Read(Encrypted(p, x, inner), objs, k)
         == if !EndsWith(k, x) && Full(inner, k) in objs && Full(inner, k + x) in objs
            then Opened(p, objs[Full(inner, k)], objs[Full(inner, k + x)])
            else Absent
  {
    FlatView(inner, objs, k);
    FlatView(inner, objs, k + x);
  }

  // ---------------------------------------------------------------------------
  // Safety: whatever fails, nothing readable changes
  // ---------------------------------------------------------------------------

  /** Same objects; only headers may differ, and then they open everything alike. */
  ghost predicate Rewraps(p: Provider, x: string, inner: Store, a: map<string, Bytes>, b: map<string, Bytes>) {
    a.Keys == b.Keys &&
    forall o :: o in a ==>
      && (!IsHeader(inner, x, o) ==> b[o] == a[o])
      && forall d :: p.open(d, b[o]) == p.open(d, a[o])
  }

  /** A visit in terms of the backend object it is about. */
  function FlatVisit(p: Provider, w: World, o: string, count: nat): (World, Result<nat>) {
    var w1 := Pop(Logged(w, GetCall(o)));
    if Head(w) != Fine || o !in w.objs then (w1, Ok(count))
    else if Head(w1) == CallFails then (Pop(w1), Err(Storage))
    else if Head(w1) == KeyFails then (Pop(w1), Ok(count))
    else
      match p.rewrap(w.objs[o])
      case Rewrapped(renewed) => (Stored(Pop(w1), o, renewed), Ok(if Head(Pop(w1)) == Fine then count + 1 else count))
      case _ => (Pop(w1), Ok(count))
  }

  lemma VisitAccepted(p: Provider, inner: Store, w: World, k: string, count: nat)
    requires Encryptions(inner) == 0 && Accepts(inner, k)
    ensures RekeyVisit(p, inner, w, k, count) == FlatVisit(p, w, Full(inner, k), count)
  {
    GetFlat(inner, w, k);
    if Head(w) == Fine && Full(inner, k) in w.objs { VisitOpened(p, inner, w, k, count); }
  }

  lemma VisitOpened(p: Provider, inner: Store, w: World, k: string, count: nat)
    requires Encryptions(inner) == 0 && Accepts(inner, k) && Head(w) == Fine && Full(inner, k) in w.objs
    requires Get(inner, w, k) == (Pop(Logged(w, GetCall(Full(inner, k)))), Ok(Delivers(w.objs[Full(inner, k)])))
    ensures RekeyVisit(p, inner, w, k, count) == FlatVisit(p, w, Full(inner, k), count)
  {
    var w1, header := Get(inner, w, k).0, w.objs[Full(inner, k)];
    if Head(w1) == Fine && p.rewrap(header).Rewrapped? {
      PutSingle(inner, Pop(w1), Blob(k, p.rewrap(header).header, Completes([])));
    }
  }

  lemma FlatVisitEffect(p: Provider, w: World, o: string, count: nat)
    ensures var (w', r) := FlatVisit(p, w, o, count);
            && (r == Ok(count) || r == Ok(count + 1) || r == Err(Storage))
            && (r != Ok(count + 1) ==> w'.objs == w.objs)
            && (r == Ok(count + 1) ==>
                  o in w.objs && p.rewrap(w.objs[o]).Rewrapped? &&
                  w'.objs == w.objs[o := p.rewrap(w.objs[o]).header])
  {}

  lemma VisitRejected(p: Provider, inner: Store, w: World, k: string, count: nat)
    requires Encryptions(inner) == 0 && !Accepts(inner, k)
    ensures RekeyVisit(p, inner, w, k, count) == (w, Ok(count))
  {
    GetRejects(inner, w, k);
  }

  /** The one header a visit may replace, and with what. */
  lemma VisitEffect(p: Provider, x: string, inner: Store, w: World, k: string, count: nat)
    requires Encryptions(inner) == 0 && EndsWith(k, x)
    ensures var (w', r) := RekeyVisit(p, inner, w, k, count);
            var o := Full(inner, k);
            && IsHeader(inner, x, o)
            && (r == Ok(count) || r == Ok(count + 1) || r == Err(Storage))
            && (r != Ok(count + 1) ==> w'.objs == w.objs)
            && (r == Ok(count + 1) ==>
                  o in w.objs && Accepts(inner, k) && p.rewrap(w.objs[o]).Rewrapped? &&
                  w'.objs == w.objs[o := p.rewrap(w.objs[o]).header])
  {
    var o := Full(inner, k);
    assert o[..|Pre(inner)|] == Pre(inner) && o[|Pre(inner)|..] == k;
    if Accepts(inner, k) {
      VisitAccepted(p, inner, w, k, count);
      FlatVisitEffect(p, w, o, count);
    } else {
      VisitRejected(p, inner, w, k, count);
    }
  }

  lemma {:induction false} RekeyRewraps(p: Provider, x: string, inner: Store, w: World, order: seq<string>, count: nat)
    requires Lawful(p) && Encryptions(inner) == 0
    ensures Rewraps(p, x, inner, w.objs, RekeyFrom(p, x, inner, w, order, count).0.objs)
    decreases |order|
  {
    if order != [] && Head(w) == Fine {
      SuffixHintSound(x);
      ReachExact(inner, Pop(w), SuffixFilter(x), order[0]);
      var (w1, reached) := Reach(inner, Pop(w), SuffixFilter(x), order[0]);
      if reached.Ok? {
        if reached.value.None? {
          RekeyRewraps(p, x, inner, w1, order[1..], count);
        } else {
          var (w2, r) := RekeyVisit(p, inner, w1, reached.value.value, count);
          VisitEffect(p, x, inner, w1, reached.value.value, count);
          if r.Ok? { RekeyRewraps(p, x, inner, w2, order[1..], r.value); }
        }
      }
    }
  }

  lemma SuffixHintSound(x: string)
    ensures HintSound(SuffixFilter(x))
  {}

  /** Re-keying changes no data object and no reading, for any traversal order and any
      pattern of failing reads, re-wraps and writes. */
  lemma RekeyKeepsReadings(p: Provider, x: string, inner: Store, w: World, order: seq<string>, count: nat, k: string)
    requires Lawful(p) && Encryptions(inner) == 0
    ensures var objs' := RekeyFrom(p, x, inner, w, order, count).0.objs;
            && Read(Encrypted(p, x, inner), objs', k) == Read(Encrypted(p, x, inner), w.objs, k)
            && (forall o :: !IsHeader(inner, x, o) ==> Agree(w.objs, objs', o))
  {
    RekeyRewraps(p, x, inner, w, order, count);
    var objs' := RekeyFrom(p, x, inner, w, order, count).0.objs;
    ReadPair(p, x, inner, w.objs, k);
    ReadPair(p, x, inner, objs', k);
    var d := Full(inner, k);
    assert d[|Pre(inner)|..] == k;
  }

  // ---------------------------------------------------------------------------
  // Counting
  // ---------------------------------------------------------------------------

  ghost function Changed(a: map<string, Bytes>, b: map<string, Bytes>): set<string> {
    set o | o in a && o in b && a[o] != b[o]
  }

  lemma ChangedStep(a: map<string, Bytes>, b: map<string, Bytes>, c: map<string, Bytes>, o: string)
    requires o in a && o in b && b == a[o := b[o]] && b.Keys == c.Keys && a[o] != b[o] && b[o] == c[o]
    ensures Changed(a, c) == {o} + Changed(b, c) && |Changed(a, c)| == 1 + |Changed(b, c)|
  {
    assert Changed(a, c) == {o} + Changed(b, c);
  }

  /** The objects changed on the way from `objs` lie in `order`, and a count that started
      at `count` has risen by their number. */
  ghost predicate CountsFrom(objs: map<string, Bytes>, order: seq<string>, count: nat, done: (World, Result<nat>)) {
    && (forall o :: o in Changed(objs, done.0.objs) ==> o in order)
    && (done.1.Ok? ==> done.1.value == count + |Changed(objs, done.0.objs)|)
  }

  lemma CountOne(p: Provider, a: map<string, Bytes>, b: map<string, Bytes>, o: string, rest: seq<string>, count: nat,
                 done: (World, Result<nat>))
    requires Lawful(p) && o in a && p.rewrap(a[o]).Rewrapped? && b == a[o := p.rewrap(a[o]).header]
    requires b.Keys == done.0.objs.Keys && o !in rest && CountsFrom(b, rest, count + 1, done)
    ensures CountsFrom(a, [o] + rest, count, done)
  {
    assert o !in Changed(b, done.0.objs);
    ChangedStep(a, b, done.0.objs, o);
  }

  /** A completed pass reports exactly the number of headers that now differ. */
  lemma {:induction false} RekeyCounts(p: Provider, x: string, inner: Store, w: World, order: seq<string>, count: nat)
    requires Lawful(p) && Encryptions(inner) == 0 && Distinct(order)
    ensures CountsFrom(w.objs, order, count, RekeyFrom(p, x, inner, w, order, count))
    decreases |order|
  {
    assert Changed(w.objs, w.objs) == {};
    if order != [] && Head(w) == Fine {
      var o, rest := order[0], order[1..];
      assert order == [o] + rest && o !in rest;
      SuffixHintSound(x);
      ReachExact(inner, Pop(w), SuffixFilter(x), o);
      var (w1, reached) := Reach(inner, Pop(w), SuffixFilter(x), o);
      if reached.Ok? {
        if reached.value.None? {
          RekeyCounts(p, x, inner, w1, rest, count);
        } else {
          var (w2, r) := RekeyVisit(p, inner, w1, reached.value.value, count);
          VisitEffect(p, x, inner, w1, reached.value.value, count);
          if r.Ok? {
            RekeyCounts(p, x, inner, w2, rest, r.value);
            RekeyRewraps(p, x, inner, w2, rest, r.value);
            if r == Ok(count + 1) {
              CountOne(p, w1.objs, w2.objs, o, rest, count, RekeyFrom(p, x, inner, w2, rest, r.value));
            }
          }
        }
      }
    }
  }

  // ---------------------------------------------------------------------------
  // A failure-free pass settles every header it can reach
  // ---------------------------------------------------------------------------

  /** Object `o` leaves re-keying nothing to do. */
  predicate Settled(p: Provider, x: string, inner: Store, objs: map<string, Bytes>, o: string) {
    o in objs && IsHeader(inner, x, o) && Accepts(inner, o[|Pre(inner)|..]) ==> !p.rewrap(objs[o]).Rewrapped?
  }

  lemma {:induction false} ReachFaultFree(s: Store, w: World, f: Filter, full: string)
    requires Encryptions(s) == 0
    ensures Reach(s, w, f, full).0 == w && Reach(s, w, f, full).1.Ok?
    decreases s
  {
    match s
    case Base =>
    case Prefixed(p, inner) => ReachFaultFree(inner, w, CombinedPrefixFilter(p, f), full);
    case Cleanable(inner) => ReachFaultFree(inner, w, f, full);
  }

  lemma FlatVisitSettles(p: Provider, w: World, o: string, count: nat)
    requires Lawful(p) && w.faults == []
    ensures var (w', r) := FlatVisit(p, w, o, count);
            && w'.faults == [] && r.Ok?
            && (o in w'.objs ==> !p.rewrap(w'.objs[o]).Rewrapped?)
            && ((o in w.objs && p.rewrap(w.objs[o]).Rewrapped?) || (w'.objs == w.objs && r == Ok(count)))
  {}

  lemma VisitSettles(p: Provider, x: string, inner: Store, w: World, k: string, count: nat)
    requires Lawful(p) && Encryptions(inner) == 0 && EndsWith(k, x) && w.faults == []
    ensures var (w', r) := RekeyVisit(p, inner, w, k, count);
            w'.faults == [] && r.Ok? && Settled(p, x, inner, w'.objs, Full(inner, k))
    ensures var (w', r) := RekeyVisit(p, inner, w, k, count);
            Settled(p, x, inner, w.objs, Full(inner, k)) ==> w'.objs == w.objs && r == Ok(count)
  {
    var o := Full(inner, k);
    assert o[..|Pre(inner)|] == Pre(inner) && o[|Pre(inner)|..] == k;
    if Accepts(inner, k) {
      VisitAccepted(p, inner, w, k, count);
      FlatVisitSettles(p, w, o, count);
    } else {
      VisitRejected(p, inner, w, k, count);
    }
  }

  lemma {:induction false} RekeySettles(p: Provider, x: string, inner: Store, w: World, order: seq<string>,
                                        count: nat, o: string)
    requires Lawful(p) && Encryptions(inner) == 0 && w.faults == []
    requires o in order || Settled(p, x, inner, w.objs, o)
    ensures var (w', r) := RekeyFrom(p, x, inner, w, order, count);
            r.Ok? && Settled(p, x, inner, w'.objs, o)
    decreases |order|
  {
    if order != [] {
      SuffixHintSound(x);
      ReachExact(inner, w, SuffixFilter(x), order[0]);
      ReachFaultFree(inner, w, SuffixFilter(x), order[0]);
      var (w1, reached) := Reach(inner, w, SuffixFilter(x), order[0]);
      if reached.value.None? {
        if o == order[0] && o in w.objs && IsHeader(inner, x, o) {
          var k := o[|Pre(inner)|..];
          assert o == Full(inner, k);
          FlatView(inner, w.objs, k);
          assert false;
        }
        RekeySettles(p, x, inner, w1, order[1..], count, o);
      } else {
        var k := reached.value.value;
        var (w2, r) := RekeyVisit(p, inner, w1, k, count);
        VisitSettles(p, x, inner, w1, k, count);
        VisitEffect(p, x, inner, w1, k, count);
        assert order[0] == Full(inner, k);
        assert o != order[0] ==> (o in w1.objs <==> o in w2.objs) && (o in w1.objs ==> w1.objs[o] == w2.objs[o]);
        RekeySettles(p, x, inner, w2, order[1..], r.value, o);
      }
    }
  }

  lemma StartsWithConcat(o: string, a: string, b: string)
    requires StartsWith(o, a) && StartsWith(o[|a|..], b)
    ensures StartsWith(o, a + b)
  {
    assert o[..|a + b|] == o[..|a|] + o[|a|..][..|b|];
  }

  lemma {:induction false} ReachFlat(s: Store, w: World, f: Filter, full: string)
    requires Encryptions(s) == 0 && HintSound(f)
    ensures Reach(s, w, f, full)
         == (w, Ok(if StartsWith(full, Pre(s)) && f.matches(full[|Pre(s)|..]) then Some(full[|Pre(s)|..]) else None))
    decreases s
  {
    match s
    case Base => assert full[0..] == full;
    case Prefixed(p, inner) =>
      var f' := CombinedPrefixFilter(p, f);
      ReachFlat(inner, w, f', full);
      if StartsWith(full, Pre(s)) {
        StartsWithShorter(full, Pre(inner), p);
        var rest, k := full[|Pre(inner)|..], full[|Pre(s)|..];
        assert full == Pre(s) + k;
        assert rest == p + k && rest[..|p|] == p && rest[|p|..] == k;
        if f.matches(k) { CombinedKeepsMatches(p, f, k); }
      } else if StartsWith(full, Pre(inner)) && StartsWith(full[|Pre(inner)|..], p) {
        StartsWithConcat(full, Pre(inner), p);
      }
    case Cleanable(inner) => ReachFlat(inner, w, f, full);
  }

  /** A traversal presents `o` to the visitor exactly if it is a header object. */
  lemma HeaderReached(inner: Store, x: string, w: World, o: string)
    requires Encryptions(inner) == 0
    ensures Reach(inner, w, SuffixFilter(x), o)
         == (w, Ok(if IsHeader(inner, x, o) then Some(o[|Pre(inner)|..]) else None))
    ensures IsHeader(inner, x, o) ==> Full(inner, o[|Pre(inner)|..]) == o
  {
    SuffixHintSound(x);
    ReachFlat(inner, w, SuffixFilter(x), o);
  }

  /** What a failure-free pass leaves at object `o`. */
  function Renewal(p: Provider, x: string, inner: Store, objs: map<string, Bytes>, order: seq<string>, o: string): Bytes
    requires o in objs
  {
    if o in order && !Settled(p, x, inner, objs, o) then p.rewrap(objs[o]).header else objs[o]
  }

  /** The objects once the traversal has been at `o`. */
  function RenewedAt(p: Provider, x: string, inner: Store, objs: map<string, Bytes>, o: string): map<string, Bytes> {
    if Settled(p, x, inner, objs, o) then objs else objs[o := p.rewrap(objs[o]).header]
  }

  lemma VisitRenews(p: Provider, x: string, inner: Store, w: World, o: string, count: nat)
    requires Lawful(p) && Encryptions(inner) == 0 && w.faults == [] && IsHeader(inner, x, o)
    ensures var (w', r) := RekeyVisit(p, inner, w, o[|Pre(inner)|..], count);
            r.Ok? && w'.faults == [] && w'.objs == RenewedAt(p, x, inner, w.objs, o)
  {
    HeaderReached(inner, x, w, o);
    VisitSettles(p, x, inner, w, o[|Pre(inner)|..], count);
    VisitEffect(p, x, inner, w, o[|Pre(inner)|..], count);
  }

  lemma RenewalOnward(p: Provider, x: string, inner: Store, objs: map<string, Bytes>, o0: string, rest: seq<string>,
                      o: string)
    requires Lawful(p) && o in objs
    ensures var objs1 := RenewedAt(p, x, inner, objs, o0);
            o in objs1 && Renewal(p, x, inner, objs1, rest, o) == Renewal(p, x, inner, objs, [o0] + rest, o)
  {
    assert o in [o0] + rest <==> o == o0 || o in rest;
  }

  /** The exact objects after a failure-free pass. */
  lemma {:induction false} RekeyRenews(p: Provider, x: string, inner: Store, w: World, order: seq<string>, count: nat,
                                       o: string)
    requires Lawful(p) && Encryptions(inner) == 0 && w.faults == [] && o in w.objs
    ensures var (w', r) := RekeyFrom(p, x, inner, w, order, count);
            r.Ok? && o in w'.objs && w'.objs[o] == Renewal(p, x, inner, w.objs, order, o)
    decreases |order|
  {
    if order != [] {
      var o0, rest := order[0], order[1..];
      assert order == [o0] + rest;
      HeaderReached(inner, x, w, o0);
      RenewalOnward(p, x, inner, w.objs, o0, rest, o);
      if !IsHeader(inner, x, o0) {
        RekeyRenews(p, x, inner, w, rest, count, o);
      } else {
        VisitRenews(p, x, inner, w, o0, count);
        var (w1, r) := RekeyVisit(p, inner, w, o0[|Pre(inner)|..], count);
        RekeyRenews(p, x, inner, w1, rest, r.value, o);
      }
    }
  }

  function CallKey(c: Call): string {
    match c
    case PutCall(k, _) => k
    case GetCall(k) => k
    case ExistsCall(k) => k
    case _ => ""
  }

  /** `b` continues the log `a` with calls about objects under `pre` only. */
  ghost predicate CallsUnder(a: seq<Call>, b: seq<Call>, pre: string) {
    a <= b && forall i :: |a| <= i < |b| ==> StartsWith(CallKey(b[i]), pre)
  }

  lemma CallsUnderMore(a: seq<Call>, b: seq<Call>, c: seq<Call>, pre: string)
    requires CallsUnder(a, b, pre) && CallsUnder(b, c, pre)
    ensures CallsUnder(a, c, pre)
  {}

  lemma FlatVisitCalls(p: Provider, w: World, o: string, count: nat, pre: string)
    requires StartsWith(o, pre)
    ensures CallsUnder(w.log, FlatVisit(p, w, o, count).0.log, pre)
    ensures |w.log| < |FlatVisit(p, w, o, count).0.log| && FlatVisit(p, w, o, count).0.log[|w.log|] == GetCall(o)
  {}

  lemma VisitCalls(p: Provider, inner: Store, w: World, k: string, count: nat)
    requires Encryptions(inner) == 0
    ensures CallsUnder(w.log, RekeyVisit(p, inner, w, k, count).0.log, Pre(inner))
    ensures Accepts(inner, k) ==> GetCall(Full(inner, k)) in RekeyVisit(p, inner, w, k, count).0.log[|w.log|..]
  {
    if Accepts(inner, k) {
      assert Full(inner, k)[..|Pre(inner)|] == Pre(inner);
      VisitAccepted(p, inner, w, k, count);
      FlatVisitCalls(p, w, Full(inner, k), count, Pre(inner));
      var log := FlatVisit(p, w, Full(inner, k), count).0.log;
      assert log[|w.log|..][0] == GetCall(Full(inner, k));
    } else {
      VisitRejected(p, inner, w, k, count);
    }
  }

  /** Re-keying a stack calls for no object outside its prefix. */
  lemma {:induction false} RekeyCalls(p: Provider, x: string, inner: Store, w: World, order: seq<string>, count: nat)
    requires Encryptions(inner) == 0
    ensures CallsUnder(w.log, RekeyFrom(p, x, inner, w, order, count).0.log, Pre(inner))
    decreases |order|
  {
    if order != [] && Head(w) == Fine {
      var o, rest := order[0], order[1..];
      HeaderReached(inner, x, Pop(w), o);
      if !IsHeader(inner, x, o) {
        RekeyCalls(p, x, inner, Pop(w), rest, count);
      } else {
        var (w1, r) := RekeyVisit(p, inner, Pop(w), o[|Pre(inner)|..], count);
        VisitCalls(p, inner, Pop(w), o[|Pre(inner)|..], count);
        if r.Ok? {
          RekeyCalls(p, x, inner, w1, rest, r.value);
          CallsUnderMore(w.log, w1.log, RekeyFrom(p, x, inner, w1, rest, r.value).0.log, Pre(inner));
        }
      }
    }
  }

  ghost predicate Called(a: seq<Call>, b: seq<Call>, call: Call) {
    a <= b && call in b[|a|..]
  }

  /** Without failures a pass goes through. */
  lemma {:induction false} RekeyCompletes(p: Provider, x: string, inner: Store, w: World, order: seq<string>,
                                          count: nat)
    requires Lawful(p) && Encryptions(inner) == 0 && w.faults == []
    ensures RekeyFrom(p, x, inner, w, order, count).1.Ok?
    decreases |order|
  {
    if order != [] { RekeySettles(p, x, inner, w, order, count, order[0]); }
  }

  /** A pass that reports success has read every accepted header object it was to be shown,
      whatever failed. */
  lemma {:induction false} RekeyReads(p: Provider, x: string, inner: Store, w: World, order: seq<string>, count: nat,
                                      o: string)
    requires Encryptions(inner) == 0 && RekeyFrom(p, x, inner, w, order, count).1.Ok?
    requires o in order && IsHeader(inner, x, o) && Accepts(inner, o[|Pre(inner)|..])
    ensures Called(w.log, RekeyFrom(p, x, inner, w, order, count).0.log, GetCall(o))
    decreases |order|
  {
    var o0, rest := order[0], order[1..];
    HeaderReached(inner, x, Pop(w), o0);
    if !IsHeader(inner, x, o0) {
      RekeyReads(p, x, inner, Pop(w), rest, count, o);
    } else {
      var k := o0[|Pre(inner)|..];
      var (w1, r) := RekeyVisit(p, inner, Pop(w), k, count);
      VisitCalls(p, inner, Pop(w), k, count);
      RekeyCalls(p, x, inner, w1, rest, r.value);
      var log := RekeyFrom(p, x, inner, w1, rest, r.value).0.log;
      if o == o0 {
        LogKeeps(w.log, w1.log, log, GetCall(o));
      } else {
        RekeyReads(p, x, inner, w1, rest, r.value, o);
        LogLater(w.log, w1.log, log, GetCall(o));
      }
    }
  }

  /** The pass has come to an accepted header object that is there. */
  ghost predicate AtHeader(x: string, inner: Store, w: World, order: seq<string>) {
    && Encryptions(inner) == 0 && order != [] && order[0] in w.objs
    && IsHeader(inner, x, order[0]) && Accepts(inner, order[0][|Pre(inner)|..])
  }

  /** The faults to come begin with `first`. */
  predicate Next(w: World, first: seq<Fault>) {
    first <= w.faults
  }

  /** `n` accesses and some calls later, the objects as they were. */
  function After(w: World, n: nat, calls: seq<Call>): World
    requires n <= |w.faults|
  {
    World(w.objs, w.log + calls, w.faults[n..])
  }

  lemma AtHeaderVisits(p: Provider, x: string, inner: Store, w: World, order: seq<string>, count: nat)
    requires AtHeader(x, inner, w, order) && Next(w, [Fine])
    ensures RekeyFrom(p, x, inner, w, order, count)
         == (var (w1, r) := FlatVisit(p, After(w, 1, []), order[0], count);
             if r.Err? then (w1, r) else RekeyFrom(p, x, inner, w1, order[1..], r.value))
  {
    assert w.log + [] == w.log;
    HeaderReached(inner, x, Pop(w), order[0]);
    VisitAccepted(p, inner, Pop(w), order[0][|Pre(inner)|..], count);
  }

  /** A traversal that breaks off is reported, and so is an error of the layers beneath. */
  lemma BrokenTraversalFails(p: Provider, x: string, inner: Store, w: World, order: seq<string>, count: nat)
    requires order != []
    ensures w.faults != [] && w.faults[0] != Fine ==>
              RekeyFrom(p, x, inner, w, order, count) == (After(w, 1, []), Err(Storage))
    ensures var (w1, reached) := Reach(inner, Pop(w), SuffixFilter(x), order[0]);
            Head(w) == Fine && reached.Err? ==>
              RekeyFrom(p, x, inner, w, order, count) == (w1, Err(reached.error))
  {
    assert w.log + [] == w.log;
  }

  /** A header that cannot be fetched does not end the pass: it goes on with the next
      object. */
  lemma UnreadGoesOn(p: Provider, x: string, inner: Store, w: World, order: seq<string>, count: nat, fault: Fault)
    requires AtHeader(x, inner, w, order) && fault != Fine && Next(w, [Fine, fault])
    ensures RekeyFrom(p, x, inner, w, order, count)
         == RekeyFrom(p, x, inner, After(w, 2, [GetCall(order[0])]), order[1..], count)
  {
    AtHeaderVisits(p, x, inner, w, order, count);
    assert w.faults[1..][0] == fault && w.faults[1..][1..] == w.faults[2..];
    assert w.log + [] == w.log;
  }

  /** Nor does a header the provider fails to re-wrap. */
  lemma RefusedGoesOn(p: Provider, x: string, inner: Store, w: World, order: seq<string>, count: nat)
    requires AtHeader(x, inner, w, order) && Next(w, [Fine, Fine, KeyFails])
    ensures RekeyFrom(p, x, inner, w, order, count)
         == RekeyFrom(p, x, inner, After(w, 3, [GetCall(order[0])]), order[1..], count)
  {
    AtHeaderVisits(p, x, inner, w, order, count);
    TwoMore(w.faults, KeyFails);
    assert w.log + [] == w.log;
  }

  /** Only a stream that breaks while it is read does. */
  lemma BrokenStreamFails(p: Provider, x: string, inner: Store, w: World, order: seq<string>, count: nat)
    requires AtHeader(x, inner, w, order) && Next(w, [Fine, Fine, CallFails])
    ensures RekeyFrom(p, x, inner, w, order, count) == (After(w, 3, [GetCall(order[0])]), Err(Storage))
  {
    AtHeaderVisits(p, x, inner, w, order, count);
    TwoMore(w.faults, CallFails);
    assert w.log + [] == w.log;
  }

  /** So does a header that the layers beneath cannot decrypt. */
  lemma GarbledHeaderFails(p: Provider, x: string, inner: Store, w: World, order: seq<string>, count: nat)
    requires order != [] && Head(w) == Fine
    requires var (w1, reached) := Reach(inner, Pop(w), SuffixFilter(x), order[0]);
             reached.Ok? && reached.value.Some? && Get(inner, w1, reached.value.value).1 == Ok(FailsAtEnd)
    ensures RekeyFrom(p, x, inner, w, order, count).1 == Err(Storage)
  {}

  /** A renewed header is written back and counted; one whose write fails is not counted,
      and the pass goes on all the same. */
  lemma WriteGoesOn(p: Provider, x: string, inner: Store, w: World, order: seq<string>, count: nat, fault: Fault)
    requires AtHeader(x, inner, w, order) && Next(w, [Fine, Fine, Fine, fault])
    requires p.rewrap(w.objs[order[0]]).Rewrapped?
    ensures var o := order[0];
            var renewed := p.rewrap(w.objs[o]).header;
            var w1 := After(w, 4, [GetCall(o), PutCall(o, renewed)]);
            RekeyFrom(p, x, inner, w, order, count)
            == if fault == Fine then RekeyFrom(p, x, inner, w1.(objs := w.objs[o := renewed]), order[1..], count + 1)
               else RekeyFrom(p, x, inner, w1, order[1..], count)
  {
    var o := order[0];
    var renewed := p.rewrap(w.objs[o]).header;
    AtHeaderVisits(p, x, inner, w, order, count);
    FlatWrite(p, After(w, 1, []), o, count, fault);
    assert w.faults[1..][3..] == w.faults[4..];
    assert w.log + [] + [GetCall(o), PutCall(o, renewed)] == w.log + [GetCall(o), PutCall(o, renewed)];
  }

  lemma TwoMore(faults: seq<Fault>, fault: Fault)
    requires [Fine, Fine, fault] <= faults
    ensures faults[1..] != [] && faults[1..][0] == Fine && faults[1..][1..] == faults[2..]
    ensures faults[2..] != [] && faults[2..][0] == fault && faults[2..][1..] == faults[3..]
  {}

  lemma FlatWrite(p: Provider, w: World, o: string, count: nat, fault: Fault)
    requires o in w.objs && p.rewrap(w.objs[o]).Rewrapped? && Next(w, [Fine, Fine, fault])
    ensures var renewed := p.rewrap(w.objs[o]).header;
            var w1 := After(w, 3, [GetCall(o), PutCall(o, renewed)]);
            FlatVisit(p, w, o, count)
            == if fault == Fine then (w1.(objs := w.objs[o := renewed]), Ok(count + 1)) else (w1, Ok(count))
  {
    var renewed := p.rewrap(w.objs[o]).header;
    assert w.faults[1..][1..] == w.faults[2..] && w.faults[2..][1..] == w.faults[3..];
    assert w.log + [GetCall(o)] + [PutCall(o, renewed)] == w.log + [GetCall(o), PutCall(o, renewed)];
  }

  lemma LogKeeps(a: seq<Call>, b: seq<Call>, c: seq<Call>, call: Call)
    requires a <= b <= c && call in b[|a|..]
    ensures call in c[|a|..]
  {
    var i :| 0 <= i < |b[|a|..]| && b[|a|..][i] == call;
    assert c[|a|..][i] == call;
  }

  lemma LogLater(a: seq<Call>, b: seq<Call>, c: seq<Call>, call: Call)
    requires a <= b <= c && call in c[|b|..]
    ensures call in c[|a|..]
  {
    var i :| 0 <= i < |c[|b|..]| && c[|b|..][i] == call;
    assert c[|a|..][|b| - |a| + i] == call;
  }

  lemma {:induction false} SettledPass(p: Provider, x: string, inner: Store, w: World, order: seq<string>, count: nat)
    requires Lawful(p) && Encryptions(inner) == 0
    requires forall o :: Settled(p, x, inner, w.objs, o)
    ensures var (w', r) := RekeyFrom(p, x, inner, w, order, count);
            w'.objs == w.objs && (r.Ok? ==> r.value == count)
    decreases |order|
  {
    if order != [] && Head(w) == Fine {
      SuffixHintSound(x);
      ReachExact(inner, Pop(w), SuffixFilter(x), order[0]);
      var (w1, reached) := Reach(inner, Pop(w), SuffixFilter(x), order[0]);
      if reached.Ok? {
        if reached.value.None? {
          SettledPass(p, x, inner, w1, order[1..], count);
        } else {
          var k := reached.value.value;
          var (w2, r) := RekeyVisit(p, inner, w1, k, count);
          VisitEffect(p, x, inner, w1, k, count);
          assert Full(inner, k)[|Pre(inner)|..] == k;
          assert Settled(p, x, inner, w1.objs, Full(inner, k));
          if r.Ok? { SettledPass(p, x, inner, w2, order[1..], count); }
        }
      }
    }
  }

  /** After a failure-free pass over every object, any later pass over the same
      objects, failing or not, rewrites nothing and counts nothing. */
  lemma SecondPassCountsNothing(p: Provider, x: string, inner: Store, w: World, order: seq<string>, w2: World,
                                order2: seq<string>)
    requires Lawful(p) && Encryptions(inner) == 0 && w.faults == []
    requires forall o :: o in w.objs ==> o in order
    requires w2.objs == RekeyFrom(p, x, inner, w, order, 0).0.objs
    ensures RekeyFrom(p, x, inner, w, order, 0).1.Ok?
    ensures var (w', r) := RekeyFrom(p, x, inner, w2, order2, 0);
            w'.objs == w2.objs && (r.Ok? ==> r.value == 0)
  {
    RekeyRewraps(p, x, inner, w, order, 0);
    forall o
      ensures Settled(p, x, inner, w2.objs, o)
    {
      if o in w.objs { RekeySettles(p, x, inner, w, order, 0, o); }
    }
    if order == [] {
    } else {
      RekeySettles(p, x, inner, w, order, 0, order[0]);
    }
    SettledPass(p, x, inner, w2, order2, 0);
  }
}
