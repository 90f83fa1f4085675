/** Cleanup: batched deletes issued from inside the traversal of the same store. */
module Cleanup {
  import opened Keys
  import opened Filters
  import opened Stores
  import opened Layers
  import opened Writes
  import opened Deletes
  import opened Sorting

  // ---------------------------------------------------------------------------
  // The operation
  // ---------------------------------------------------------------------------

  /** The visitor's fields beside the backend, and the delete calls it has issued. */
  datatype Sweep = Sweep(w: World, batch: seq<string>, deleted: nat, calls: seq<seq<string>>)

  function Flush(s: Store, v: Sweep): (Sweep, Option<Error>) {
    if v.batch == [] then (v, None)
    else
      var done := Delete(s, v.w, v.batch);
      var calls := v.calls + [v.batch];
      if done.1.Err? then (v.(w := done.0, calls := calls), Some(done.1.error))
      else (Sweep(done.0, [], v.deleted + |v.batch|, calls), None)
  }

  function VisitKey(s: Store, matches: string -> bool, size: nat, v: Sweep, k: string): (Sweep, Option<Error>) {
    if !matches(k) then (v, None)
    else
      var v1 := v.(batch := v.batch + [k]);
      if |v1.batch| >= size then Flush(s, v1) else (v1, None)
  }

  /** The traversal comes to the objects of `order`; one that has been deleted meanwhile
      is passed over or, if `stale` says so, still presented. A page may fail to load. */
  function SweepFrom(s: Store, matches: string -> bool, size: nat, v: Sweep, order: seq<string>, stale: string -> bool)
    : (Sweep, Option<Error>)
    decreases |order|
  {
    if order == [] then (v, None)
    else if order[0] !in v.w.objs && !stale(order[0]) then SweepFrom(s, matches, size, v, order[1..], stale)
    else if Head(v.w) != Fine then (v.(w := Pop(v.w)), Some(Storage))
    else
      var reached := Reach(s, Pop(v.w), PrefixFilter(""), order[0]);
      var v1 := v.(w := reached.0);
      if reached.1.Err? then (v1, Some(reached.1.error))
      else if reached.1.value.None? then SweepFrom(s, matches, size, v1, order[1..], stale)
      else
        var v2 := VisitKey(s, matches, size, v1, reached.1.value.value);
        if v2.1.Some? then v2 else SweepFrom(s, matches, size, v2.0, order[1..], stale)
  }

  function Clean(s: Store, matches: string -> bool, size: nat, w: World, order: seq<string>, stale: string -> bool)
    : (Sweep, Option<Error>)
  {
    var swept := SweepFrom(s, matches, size, Sweep(w, [], 0, []), order, stale);
    if swept.1.Some? then swept else Flush(s, swept.0)
  }

  // ---------------------------------------------------------------------------
  // The invariant of the sweep
  // ---------------------------------------------------------------------------

  function Flat(calls: seq<seq<string>>): seq<string> {
    if calls == [] then [] else Flat(calls[..|calls| - 1]) + calls[|calls| - 1]
  }

  function Limit(size: nat): nat {
    if size == 0 then 1 else size
  }

  /** Keys handed to the visitor and accepted by the predicate, in order. */
  function Taken(v: Sweep): seq<string> {
    Flat(v.calls) + v.batch
  }

  /** `passed` is the part of the traversal already behind; `start` the objects then. */
  ghost predicate Swept(s: Store, matches: string -> bool, size: nat, start: map<string, Bytes>, v: Sweep,
                        passed: seq<string>) {
    && Submap(v.w.objs, start)
    && (forall o :: o in start && o !in v.w.objs ==> Owned(s, Flat(v.calls), o))
    && Distinct(Taken(v))
    && (forall k :: k in Taken(v) ==> matches(k) && Visible(s, start, k) && Full(s, k) in passed)
    && (forall k :: matches(k) && Visible(s, start, k) && Full(s, k) in passed ==> k in Taken(v))
    && (forall c :: c in v.calls ==> 0 < |c| <= Limit(size))
  }

  ghost predicate Between(size: nat, v: Sweep, s: Store) {
    && |v.batch| < Limit(size) && v.deleted == |Flat(v.calls)|
    && (forall k :: k in Flat(v.calls) ==> Full(s, k) !in v.w.objs)
  }

  /** Every object that went belonged to a visible key the predicate matches; so orphaned
      data and header objects stay. */
  ghost predicate OnlyMatches(s: Store, matches: string -> bool, start: map<string, Bytes>, objs: map<string, Bytes>) {
    && Submap(objs, start)
    && forall o {:trigger MatchOwns(s, matches, start, o)} ::
         o in start && o !in objs ==> MatchOwns(s, matches, start, o)
  }

  ghost predicate MatchOwns(s: Store, matches: string -> bool, start: map<string, Bytes>, o: string) {
    exists k :: matches(k) && Visible(s, start, k) && o in Owns(s, k)
  }

  ghost predicate CallsFit(size: nat, calls: seq<seq<string>>) {
    forall c :: c in calls ==> 0 < |c| <= Limit(size)
  }

  lemma SweptRemovesOnlyMatches(s: Store, matches: string -> bool, size: nat, start: map<string, Bytes>, v: Sweep,
                                passed: seq<string>)
    requires Swept(s, matches, size, start, v, passed)
    ensures OnlyMatches(s, matches, start, v.w.objs) && CallsFit(size, v.calls)
  {
    forall o | o in start && o !in v.w.objs
      ensures MatchOwns(s, matches, start, o)
    {
      var k :| k in Flat(v.calls) && o in Owns(s, k);
      assert k in Taken(v);
    }
  }

  lemma FlatAppend(calls: seq<seq<string>>, c: seq<string>)
    ensures Flat(calls + [c]) == Flat(calls) + c
  {
    assert (calls + [c])[..|calls|] == calls;
  }

  lemma OwnedConcat(s: Store, a: seq<string>, b: seq<string>, o: string)
    ensures Owned(s, a + b, o) <==> Owned(s, a, o) || Owned(s, b, o)
  {
    if Owned(s, a + b, o) {
      var k :| k in a + b && o in Owns(s, k);
      assert k in a || k in b;
    }
    if Owned(s, a, o) { OwnedSubset(s, a, a + b, o); }
    if Owned(s, b, o) { OwnedSubset(s, b, a + b, o); }
  }

  lemma FlushSwept(s: Store, matches: string -> bool, size: nat, start: map<string, Bytes>, v: Sweep,
                   passed: seq<string>)
    requires Swept(s, matches, size, start, v, passed) && |v.batch| <= Limit(size)
    requires v.deleted == |Flat(v.calls)| && forall k :: k in Flat(v.calls) ==> Full(s, k) !in v.w.objs
    ensures var (v', e) := Flush(s, v);
            && Swept(s, matches, size, start, v'.(batch := []), passed)
            && (e.None? ==> v'.batch == [] && Between(size, v', s) && Flat(v'.calls) == Taken(v))
  {
    if v.batch != [] {
      var (w1, r) := Delete(s, v.w, v.batch);
      var (v', e) := Flush(s, v);
      FlatAppend(v.calls, v.batch);
      DeleteTouches(s, v.w, v.batch);
      DeleteGone(s, v.w, v.batch);
      forall o | o in start && o !in w1.objs
        ensures Owned(s, Flat(v'.calls), o)
      {
        OwnedConcat(s, Flat(v.calls), v.batch, o);
        if o in v.w.objs { assert !Agree(v.w.objs, w1.objs, o); }
      }
      assert Taken(v'.(batch := [])) == Taken(v);
    } else {
      assert Taken(v) == Flat(v.calls);
      assert v.(batch := []) == v;
    }
  }

  lemma {:induction false} ReachProper(s: Store, w: World, f: Filter, full: string)
    ensures var r := Reach(s, w, f, full).1;
            r.Ok? && r.value.Some? ==> Proper(s, r.value.value)
    decreases s
  {
    match s
    case Base =>
    case Prefixed(p, inner) =>
      ReachProper(inner, w, CombinedPrefixFilter(p, f), full);
      var r := Reach(inner, w, CombinedPrefixFilter(p, f), full).1;
      if r.Ok? && r.value.Some? && StartsWith(r.value.value, p) {
        assert r.value.value == p + r.value.value[|p|..];
      }
    case Encrypted(_, x, inner) =>
      ReachProper(inner, w, SuffixFilter(""), full);
      var (w1, r) := Reach(inner, w, SuffixFilter(""), full);
      if r.Ok? && r.value.Some? {
        ExistsExact(inner, w1, r.value.value + x);
        if Visible(inner, w1.objs, r.value.value + x) { VisibleIsProper(inner, w1.objs, r.value.value + x); }
      }
    case Cleanable(inner) => ReachProper(inner, w, f, full);
  }

  lemma PrefixHintSound(p: string)
    ensures HintSound(PrefixFilter(p))
  {}

  /** A key not yet deleted looks as it did at the start. */
  lemma UntouchedKey(s: Store, matches: string -> bool, size: nat, start: map<string, Bytes>, v: Sweep,
                     passed: seq<string>, k: string)
    requires Swept(s, matches, size, start, v, passed) && Proper(s, k) && k !in Flat(v.calls)
    ensures Visible(s, start, k) <==> Visible(s, v.w.objs, k)
    ensures Visible(s, start, k) ==> View(s, start, k) == View(s, v.w.objs, k)
    ensures forall o :: o in Owns(s, k) ==> Agree(start, v.w.objs, o)
  {
    forall o | o in Owns(s, k)
      ensures Agree(start, v.w.objs, o)
    {
      if o in start && o !in v.w.objs {
        var k' :| k' in Flat(v.calls) && o in Owns(s, k');
        assert k' in Taken(v);
        VisibleIsProper(s, start, k');
        OwnsDisjoint(s, k, k');
      }
    }
    ViewFrame(s, start, v.w.objs, k);
  }

  lemma FullInjective(s: Store, k: string, k': string)
    requires Full(s, k) == Full(s, k')
    ensures k == k'
  {
    assert Full(s, k)[|Pre(s)|..] == k && Full(s, k')[|Pre(s)|..] == k';
  }

  /** What the visitor is handed at object `o` is exactly the key to be considered. */
  lemma ReachedKey(s: Store, matches: string -> bool, size: nat, start: map<string, Bytes>, v: Sweep,
                   passed: seq<string>, o: string)
    requires Swept(s, matches, size, start, v, passed) && o in start && o !in passed
    ensures var (w1, r) := Reach(s, Pop(v.w), PrefixFilter(""), o);
            && w1.objs == v.w.objs
            && (r.Ok? && r.value.Some? ==> o == Full(s, r.value.value) && Visible(s, start, r.value.value))
            && (r.Ok? && r.value.None? ==> forall k :: o == Full(s, k) ==> !Visible(s, start, k))
    ensures forall k :: o == Full(s, k) && Visible(s, start, k) ==> o in v.w.objs
  {
    var f := PrefixFilter("");
    PrefixHintSound("");
    ReachExact(s, Pop(v.w), f, o);
    ReachProper(s, Pop(v.w), f, o);
    forall k | o == Full(s, k)
      ensures k !in Flat(v.calls) && f.matches(k)
      ensures Proper(s, k) ==> (Visible(s, start, k) <==> Visible(s, v.w.objs, k)) && o in v.w.objs
    {
      Everything(k);
      assert k in Flat(v.calls) ==> k in Taken(v);
      if Proper(s, k) {
        UntouchedKey(s, matches, size, start, v, passed, k);
        OwnsFull(s, k);
      }
    }
    forall k | o == Full(s, k) && Visible(s, start, k)
      ensures Proper(s, k)
    {
      VisibleIsProper(s, start, k);
    }
  }

  lemma PassOver(s: Store, matches: string -> bool, size: nat, start: map<string, Bytes>, v: Sweep,
                 passed: seq<string>, o: string)
    requires Swept(s, matches, size, start, v, passed)
    requires forall k :: o == Full(s, k) ==> !matches(k) || !Visible(s, start, k)
    ensures Swept(s, matches, size, start, v, passed + [o])
  {}

  lemma TakeKey(s: Store, matches: string -> bool, size: nat, start: map<string, Bytes>, v: Sweep,
                passed: seq<string>, k: string)
    requires Swept(s, matches, size, start, v, passed) && matches(k) && Visible(s, start, k) && Full(s, k) !in passed
    ensures Swept(s, matches, size, start, v.(batch := v.batch + [k]), passed + [Full(s, k)])
  {
    var v1 := v.(batch := v.batch + [k]);
    assert Taken(v1) == Taken(v) + [k];
    assert k !in Taken(v);
    forall k' | matches(k') && Visible(s, start, k') && Full(s, k') in passed + [Full(s, k)]
      ensures k' in Taken(v1)
    {
      if Full(s, k') == Full(s, k) { FullInjective(s, k, k'); }
    }
  }

  /** Handling one key keeps the invariant, or fails having removed only matching keys. */
  lemma VisitKeySwept(s: Store, matches: string -> bool, size: nat, start: map<string, Bytes>, v: Sweep,
                      passed: seq<string>, k: string)
    requires Swept(s, matches, size, start, v, passed) && Between(size, v, s)
    requires Visible(s, start, k) && Full(s, k) !in passed
    ensures var (v', e) := VisitKey(s, matches, size, v, k);
            && (e.None? ==> Swept(s, matches, size, start, v', passed + [Full(s, k)]) && Between(size, v', s))
            && (e.Some? ==> OnlyMatches(s, matches, start, v'.w.objs) && CallsFit(size, v'.calls))
  {
    var behind := passed + [Full(s, k)];
    if !matches(k) {
      forall k' | Full(s, k) == Full(s, k')
        ensures k' == k
      {
        FullInjective(s, k, k');
      }
      PassOver(s, matches, size, start, v, passed, Full(s, k));
    } else {
      TakeKey(s, matches, size, start, v, passed, k);
      var v1 := v.(batch := v.batch + [k]);
      if |v1.batch| >= size {
        FlushSwept(s, matches, size, start, v1, behind);
        var (v2, e) := Flush(s, v1);
        SweptRemovesOnlyMatches(s, matches, size, start, v2.(batch := []), behind);
        if e.None? { assert v2.(batch := []) == v2; }
      }
    }
  }

  lemma SameSweep(s: Store, matches: string -> bool, size: nat, start: map<string, Bytes>, v: Sweep,
                  passed: seq<string>, w: World)
    requires Swept(s, matches, size, start, v, passed) && Between(size, v, s) && w.objs == v.w.objs
    ensures Swept(s, matches, size, start, v.(w := w), passed) && Between(size, v.(w := w), s)
  {
    assert Taken(v.(w := w)) == Taken(v);
  }

  /** One object of the traversal, passed over or visited. */
  lemma SweepOne(s: Store, matches: string -> bool, size: nat, start: map<string, Bytes>, v: Sweep,
                 passed: seq<string>, o: string, stale: string -> bool)
    requires Swept(s, matches, size, start, v, passed) && Between(size, v, s) && o in start && o !in passed
    ensures OnlyMatches(s, matches, start, v.w.objs) && CallsFit(size, v.calls)
    ensures o !in v.w.objs && !stale(o) ==> Swept(s, matches, size, start, v, passed + [o])
    ensures var (w1, r) := Reach(s, Pop(v.w), PrefixFilter(""), o);
            var v1 := v.(w := w1);
            && w1.objs == v.w.objs
            && (r.Ok? && r.value.None? ==> Swept(s, matches, size, start, v1, passed + [o]) && Between(size, v1, s))
            && (r.Ok? && r.value.Some? ==>
                  var (v2, e) := VisitKey(s, matches, size, v1, r.value.value);
                  && (e.None? ==> Swept(s, matches, size, start, v2, passed + [o]) && Between(size, v2, s))
                  && (e.Some? ==> OnlyMatches(s, matches, start, v2.w.objs) && CallsFit(size, v2.calls)))
  {
    ReachedKey(s, matches, size, start, v, passed, o);
    SweptRemovesOnlyMatches(s, matches, size, start, v, passed);
    var (w1, r) := Reach(s, Pop(v.w), PrefixFilter(""), o);
    var v1 := v.(w := w1);
    SameSweep(s, matches, size, start, v, passed, w1);
    if o !in v.w.objs && !stale(o) { PassOver(s, matches, size, start, v, passed, o); }
    if r.Ok? && r.value.None? {
      PassOver(s, matches, size, start, v1, passed, o);
    } else if r.Ok? {
      VisitKeySwept(s, matches, size, start, v1, passed, r.value.value);
    }
  }

  /** The sweep keeps its invariant, and on an error still removed only matching keys. */
  lemma {:induction false} SweepInvariant(s: Store, matches: string -> bool, size: nat, start: map<string, Bytes>,
                                          v: Sweep, passed: seq<string>, order: seq<string>, stale: string -> bool)
    requires Swept(s, matches, size, start, v, passed) && Between(size, v, s)
    requires Distinct(passed + order) && forall o :: o in order ==> o in start
    ensures var (v', e) := SweepFrom(s, matches, size, v, order, stale);
            && (e.None? ==> Swept(s, matches, size, start, v', passed + order) && Between(size, v', s))
            && (e.Some? ==> OnlyMatches(s, matches, start, v'.w.objs) && CallsFit(size, v'.calls))
    decreases |order|
  {
    if order == [] {
      assert passed + order == passed;
    } else {
      var o, rest := order[0], order[1..];
      var behind := passed + [o];
      assert passed + order == behind + rest;
      NotPassed(passed, order);
      SweepOne(s, matches, size, start, v, passed, o, stale);
      if o !in v.w.objs && !stale(o) {
        SweepInvariant(s, matches, size, start, v, behind, rest, stale);
      } else if Head(v.w) == Fine {
        var (w1, r) := Reach(s, Pop(v.w), PrefixFilter(""), o);
        var v1 := v.(w := w1);
        if r.Ok? && r.value.None? {
          SweepInvariant(s, matches, size, start, v1, behind, rest, stale);
        } else if r.Ok? {
          var (v2, e) := VisitKey(s, matches, size, v1, r.value.value);
          if e.None? { SweepInvariant(s, matches, size, start, v2, behind, rest, stale); }
        }
      }
    }
  }

  lemma NotPassed(passed: seq<string>, order: seq<string>)
    requires Distinct(passed + order) && order != []
    ensures order[0] in order && order[0] !in passed
  {
    var all := passed + order;
    assert all[|passed|] == order[0];
    forall i | 0 <= i < |passed|
      ensures passed[i] != order[0]
    {
      assert all[i] == passed[i];
    }
  }

  // ---------------------------------------------------------------------------
  // The result
  // ---------------------------------------------------------------------------

  lemma {:induction false} DistinctCardinality(ks: seq<string>)
    requires Distinct(ks)
    ensures |set k | k in ks| == |ks|
  {
    if ks == [] {
      assert (set k | k in ks) == {};
    } else {
      var n := |ks| - 1;
      DistinctCardinality(ks[..n]);
      assert ks == ks[..n] + [ks[n]];
      assert (set k | k in ks) == (set k | k in ks[..n]) + {ks[n]};
    }
  }

  lemma SweptAtStart(s: Store, matches: string -> bool, size: nat, w: World)
    ensures var v := Sweep(w, [], 0, []);
            Swept(s, matches, size, w.objs, v, []) && Between(size, v, s)
  {
    var v := Sweep(w, [], 0, []);
    assert Flat(v.calls) == [] && Taken(v) == [];
  }

  lemma SameMembers(ks: seq<string>, keys: set<string>)
    requires Distinct(ks) && forall k :: k in ks <==> k in keys
    ensures |ks| == |keys|
  {
    DistinctCardinality(ks);
    assert (set k | k in ks) == keys;
  }

  /** Once every object is behind and nothing is left in the batch, the keys taken are
      the keys visible at the start that match, and none of them is visible now. */
  lemma SweptAtEnd(s: Store, matches: string -> bool, size: nat, start: map<string, Bytes>, v: Sweep,
                   order: seq<string>)
    requires Swept(s, matches, size, start, v, order) && Between(size, v, s) && v.batch == []
    requires forall o :: o in start ==> o in order
    ensures v.deleted == |VisibleKeys(s, start, Filter(matches, NoHint))|
    ensures forall k :: matches(k) ==> !Visible(s, v.w.objs, k)
  {
    var taken := Flat(v.calls);
    assert Taken(v) == taken;
    forall k
      ensures k in taken <==> k in VisibleKeys(s, start, Filter(matches, NoHint))
    {
      if Visible(s, start, k) {
        VisibleIsProper(s, start, k);
        OwnsFull(s, k);
        assert Full(s, k) in order;
      }
    }
    SameMembers(taken, VisibleKeys(s, start, Filter(matches, NoHint)));
    forall k | matches(k)
      ensures !Visible(s, v.w.objs, k)
    {
      assert Visible(s, start, k) ==> k in taken;
      if Visible(s, v.w.objs, k) {
        VisibleIsProper(s, v.w.objs, k);
        ViewShrinks(s, v.w.objs, start, k);
      }
    }
  }

  /** Cleanup through any stack of layers, on a traversal that presents every initial
      object once and deleted ones possibly still: whatever fails, only objects of
      visible matching keys are removed, every other key reads as before, and every
      delete call has between one and max(batch size, 1) keys. If it succeeds, every
      matching key has become invisible and the reported count is their number. */
  lemma CleanupExact(s: Store, matches: string -> bool, size: nat, w: World, order: seq<string>, stale: string -> bool)
    requires Distinct(order) && forall o :: o in order <==> o in w.objs
    ensures var (v, e) := Clean(s, matches, size, w, order, stale);
            && OnlyMatches(s, matches, w.objs, v.w.objs)
            && CallsFit(size, v.calls)
            && (e.None? ==>
                  && v.deleted == |VisibleKeys(s, w.objs, Filter(matches, NoHint))|
                  && forall k :: matches(k) ==> !Visible(s, v.w.objs, k))
  {
    var v0 := Sweep(w, [], 0, []);
    SweptAtStart(s, matches, size, w);
    assert [] + order == order;
    SweepInvariant(s, matches, size, w.objs, v0, [], order, stale);
    var (v1, e1) := SweepFrom(s, matches, size, v0, order, stale);
    if e1.None? {
      FlushSwept(s, matches, size, w.objs, v1, order);
      var (v, e) := Flush(s, v1);
      SweptRemovesOnlyMatches(s, matches, size, w.objs, v.(batch := []), order);
      if e.None? {
        assert v.(batch := []) == v;
        SweptAtEnd(s, matches, size, w.objs, v, order);
      }
    }
  }

  /** The last delete call took the batch and failed, and its error is the cleanup's. */
  ghost predicate DeleteFailed(s: Store, v: Sweep, e: Error) {
    && v.calls != [] && v.calls[|v.calls| - 1] == v.batch
    && exists w: World :: Delete(s, w, v.batch) == (v.w, Err(e))
  }

  /** The batch has been put into a delete call already. */
  predicate Called(v: Sweep) {
    v.batch != [] && v.calls != [] && v.calls[|v.calls| - 1] == v.batch
  }

  lemma FlushReports(s: Store, v: Sweep)
    ensures var (v', e) := Flush(s, v);
            e.Some? ==> DeleteFailed(s, v', e.value)
  {
    if v.batch != [] { assert Delete(s, v.w, v.batch) == (Flush(s, v).0.w, Delete(s, v.w, v.batch).1); }
  }

  /** Keys wait in the batch only until they are put into a call. */
  lemma NotYetCalled(s: Store, matches: string -> bool, size: nat, start: map<string, Bytes>, v: Sweep,
                     passed: seq<string>)
    requires Swept(s, matches, size, start, v, passed)
    ensures !Called(v)
  {
    if Called(v) { TwiceIsNotDistinct(Flat(v.calls[..|v.calls| - 1]), v.batch); }
  }

  lemma TwiceIsNotDistinct(a: seq<string>, b: seq<string>)
    requires b != []
    ensures !Distinct(a + b + b)
  {
    assert (a + b + b)[|a|] == b[0] && (a + b + b)[|a| + |b|] == b[0];
  }

  lemma VisitReports(s: Store, matches: string -> bool, size: nat, v: Sweep, k: string)
    ensures var (v', e) := VisitKey(s, matches, size, v, k);
            e.Some? ==> DeleteFailed(s, v', e.value)
  {
    FlushReports(s, v.(batch := v.batch + [k]));
  }

  /** One turn of the sweep that fails. */
  lemma OneReports(s: Store, matches: string -> bool, size: nat, start: map<string, Bytes>, v: Sweep,
                   passed: seq<string>, o: string)
    requires Swept(s, matches, size, start, v, passed)
    ensures forall w :: !Called(v.(w := w))
    ensures var (w1, r) := Reach(s, Pop(v.w), PrefixFilter(""), o);
            r.Ok? && r.value.Some? ==>
              var (v2, e) := VisitKey(s, matches, size, v.(w := w1), r.value.value);
              e.Some? ==> DeleteFailed(s, v2, e.value)
  {
    NotYetCalled(s, matches, size, start, v, passed);
    var (w1, r) := Reach(s, Pop(v.w), PrefixFilter(""), o);
    if r.Ok? && r.value.Some? { VisitReports(s, matches, size, v.(w := w1), r.value.value); }
  }

  lemma {:induction false} SweepReports(s: Store, matches: string -> bool, size: nat, start: map<string, Bytes>,
                                        v: Sweep, passed: seq<string>, order: seq<string>, stale: string -> bool)
    requires Swept(s, matches, size, start, v, passed) && Between(size, v, s)
    requires Distinct(passed + order) && forall o :: o in order ==> o in start
    ensures var (v', e) := SweepFrom(s, matches, size, v, order, stale);
            e.Some? && Called(v') ==> DeleteFailed(s, v', e.value)
    decreases |order|
  {
    if order != [] {
      var o, rest := order[0], order[1..];
      assert passed + order == passed + [o] + rest;
      NotPassed(passed, order);
      SweepOne(s, matches, size, start, v, passed, o, stale);
      OneReports(s, matches, size, start, v, passed, o);
      if o !in v.w.objs && !stale(o) {
        SweepReports(s, matches, size, start, v, passed + [o], rest, stale);
      } else if Head(v.w) == Fine {
        var (w1, r) := Reach(s, Pop(v.w), PrefixFilter(""), o);
        var v1 := v.(w := w1);
        if r.Ok? && r.value.None? {
          SweepReports(s, matches, size, start, v1, passed + [o], rest, stale);
        } else if r.Ok? {
          var (v2, e) := VisitKey(s, matches, size, v1, r.value.value);
          if e.None? { SweepReports(s, matches, size, start, v2, passed + [o], rest, stale); }
        }
      }
    }
  }

  /** So are a traversal that breaks off and an error of the layers beneath. */
  lemma BrokenTraversalFails(s: Store, matches: string -> bool, size: nat, v: Sweep, order: seq<string>,
                             stale: string -> bool)
    requires order != [] && (order[0] in v.w.objs || stale(order[0]))
    ensures Head(v.w) != Fine ==> SweepFrom(s, matches, size, v, order, stale) == (v.(w := Pop(v.w)), Some(Storage))
    ensures var (w1, reached) := Reach(s, Pop(v.w), PrefixFilter(""), order[0]);
            Head(v.w) == Fine && reached.Err? ==>
              SweepFrom(s, matches, size, v, order, stale) == (v.(w := w1), Some(reached.error))
  {}

  /** A cleanup that ends in a failed delete call reports just the error of that call, which
      says what it could not delete. */
  lemma CleanupReports(s: Store, matches: string -> bool, size: nat, w: World, order: seq<string>,
                       stale: string -> bool)
    requires Distinct(order) && forall o :: o in order <==> o in w.objs
    ensures var (v, e) := Clean(s, matches, size, w, order, stale);
            e.Some? && Called(v) ==> DeleteFailed(s, v, e.value)
  {
    var v0 := Sweep(w, [], 0, []);
    SweptAtStart(s, matches, size, w);
    assert [] + order == order;
    SweepReports(s, matches, size, w.objs, v0, [], order, stale);
    FlushReports(s, SweepFrom(s, matches, size, v0, order, stale).0);
  }

  /** Keys the predicate spares read the same after any cleanup, finished or not. */
  lemma SparedKeysUnchanged(s: Store, matches: string -> bool, size: nat, w: World, order: seq<string>,
                            stale: string -> bool, k: string)
    requires Distinct(order) && forall o :: o in order <==> o in w.objs
    requires !matches(k) && Proper(s, k)
    ensures var objs' := Clean(s, matches, size, w, order, stale).0.w.objs;
            && (Visible(s, w.objs, k) <==> Visible(s, objs', k))
            && (Visible(s, w.objs, k) ==> View(s, w.objs, k) == View(s, objs', k))
  {
    CleanupExact(s, matches, size, w, order, stale);
    var objs' := Clean(s, matches, size, w, order, stale).0.w.objs;
    forall o | o in Owns(s, k)
      ensures Agree(w.objs, objs', o)
    {
      if o in w.objs && o !in objs' {
        assert MatchOwns(s, matches, w.objs, o);
        var k' :| matches(k') && Visible(s, w.objs, k') && o in Owns(s, k');
        VisibleIsProper(s, w.objs, k');
        OwnsDisjoint(s, k, k');
      }
    }
    ViewFrame(s, w.objs, objs', k);
  }
}
