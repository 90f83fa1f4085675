/** Cleanup of a whole stack over the filesystem: it only deletes what it has been shown,
    so it can never collide. */
module FsCleanup {
  import opened Keys
  import opened Filters
  import opened Stores
  import opened Layers
  import opened Writes
  import opened Deletes
  import opened Sorting
  import opened Cleanup
  import opened FsTree
  import opened FsBackend
  import opened FsStacks
  import opened FsStackReads
  import opened FsVisit
  import M = MapStore
  import N = MapMaintenance

  // ---------------------------------------------------------------------------
  // The operation on the tree
  // ---------------------------------------------------------------------------

  datatype TreeSweep = TreeSweep(tree: Tree, batch: seq<string>, deleted: nat, calls: seq<seq<string>>)

  ghost function TreeFlush(s: Store, u: TreeSweep): (TreeSweep, Option<Error>) {
    if u.batch == [] then (u, None)
    else
      var (t, r) := TreeDelete(s, u.tree, u.batch);
      var calls := u.calls + [u.batch];
      if r.Err? then (u.(tree := t, calls := calls), Some(r.error))
      else (TreeSweep(t, [], u.deleted + |u.batch|, calls), None)
  }

  ghost function TreeVisitKey(s: Store, matches: string -> bool, size: nat, u: TreeSweep, k: string)
    : (TreeSweep, Option<Error>)
  {
    if !matches(k) then (u, None)
    else
      var u1 := u.(batch := u.batch + [k]);
      if |u1.batch| >= size then TreeFlush(s, u1) else (u1, None)
  }

  /** What the chain of visitors forwards when the walk comes to file `full`. */
  function TreeReach(s: Store, t: Tree, f: Filter, full: string): Result<Option<string>> {
    match s
    case Base => Ok(if Selects(f, full) then Some(full) else None)
    case Prefixed(p, inner) =>
      var r := TreeReach(inner, t, CombinedPrefixFilter(p, f), full);
      if r.Err? || r.value.None? then r
      else if StartsWith(r.value.value, p) && f.matches(r.value.value[|p|..]) then Ok(Some(r.value.value[|p|..]))
      else Ok(None)
    case Encrypted(_, x, inner) =>
      var r := TreeReach(inner, t, SuffixFilter(""), full);
      if r.Err? || r.value.None? then r
      else if EndsWith(r.value.value, x) then Ok(None)
      else
        var header := TreeExists(inner, t, r.value.value + x);
        if header.Err? then Err(header.error)
        else if !header.value || !f.matches(r.value.value) then Ok(None)
        else r
    case Cleanable(inner) => TreeReach(inner, t, f, full)
  }

  /** The walk comes to the files of `order` and shows those still there. */
  ghost function TreeSweepFrom(s: Store, matches: string -> bool, size: nat, u: TreeSweep, order: seq<string>)
    : (TreeSweep, Option<Error>)
    decreases |order|
  {
    if order == [] then (u, None)
    else if order[0] !in Files(u.tree) then TreeSweepFrom(s, matches, size, u, order[1..])
    else
      var r := TreeReach(s, u.tree, PrefixFilter(""), order[0]);
      if r.Err? then (u, Some(r.error))
      else if r.value.None? then TreeSweepFrom(s, matches, size, u, order[1..])
      else
        var v := TreeVisitKey(s, matches, size, u, r.value.value);
        if v.1.Some? then v else TreeSweepFrom(s, matches, size, v.0, order[1..])
  }

  ghost function TreeClean(s: Store, matches: string -> bool, size: nat, t: Tree, order: seq<string>)
    : (TreeSweep, Option<Error>)
  {
    var swept := TreeSweepFrom(s, matches, size, TreeSweep(t, [], 0, []), order);
    if swept.1.Some? then swept else TreeFlush(s, swept.0)
  }

  // ---------------------------------------------------------------------------
  // Deleting what is visible never collides
  // ---------------------------------------------------------------------------

  ghost predicate Unblocked(t: Tree, os: seq<string>) {
    forall o :: o in os ==> !Blocked(t, o)
  }

  lemma StillUnblocked(t: Tree, os: seq<string>, p: Path)
    requires Unblocked(t, os)
    ensures Unblocked(RemoveFile(t, p).0, os)
  {
    var t' := RemoveFile(t, p).0;
    forall o | o in os
      ensures !Blocked(t', o)
    {
      assert FileAbove(t', Split(o)) ==> FileAbove(t, Split(o));
    }
  }

  lemma {:induction false} UnblockedGo(t: Tree, os: seq<string>)
    requires Unblocked(t, os)
    ensures KeyFails !in Collisions(t, os)
    ensures Files(Pruned(t, os)) == Files(t) - set o | o in os
  {
    if os != [] {
      var t1 := RemoveFile(t, Split(os[0])).0;
      assert os[0] in os;
      assert Unblocked(t, os[1..]);
      StillUnblocked(t, os[1..], Split(os[0]));
      UnblockedGo(t1, os[1..]);
      FilesRemoved(t, os[0]);
    }
  }

  lemma {:induction false} OwnsShown(s: Store, objs: map<string, Bytes>, k: string)
    requires Visible(s, objs, k)
    ensures forall o :: o in Owns(s, k) ==> o in objs
  {
    match s
    case Base =>
    case Prefixed(p, inner) => OwnsShown(inner, objs, p + k);
    case Encrypted(_, x, inner) =>
      OwnsShown(inner, objs, k);
      OwnsShown(inner, objs, k + x);
    case Cleanable(inner) => OwnsShown(inner, objs, k);
  }

  /** The objects a delete asks for are those its keys own. */
  lemma {:induction false} ObjectsOwned(s: Store, ks: seq<string>, o: string)
    ensures o in Objects(s, ks) <==> Owned(s, ks, o)
  {
    match s
    case Base =>
    case Prefixed(p, inner) =>
      ObjectsOwned(inner, AddPrefix(p, ks), o);
      OwnedPrefixed(p, inner, ks, o);
    case Encrypted(provider, x, inner) =>
      ObjectsOwned(inner, WithHeaders(x, ks), o);
      OwnedEncrypted(provider, x, inner, ks, o);
    case Cleanable(inner) =>
      ObjectsOwned(inner, ks, o);
      assert Owned(s, ks, o) <==> Owned(inner, ks, o);
  }

  ghost predicate AllVisible(s: Store, objs: map<string, Bytes>, ks: seq<string>) {
    forall k :: k in ks ==> Visible(s, objs, k)
  }

  lemma VisibleUnblocked(s: Store, t: Tree, ks: seq<string>)
    requires WellFormed(t) && AllVisible(s, Files(t), ks)
    ensures Unblocked(t, Objects(s, ks))
  {
    forall o | o in Objects(s, ks)
      ensures !Blocked(t, o)
    {
      ObjectsOwned(s, ks, o);
      var k :| k in ks && o in Owns(s, k);
      OwnsShown(s, Files(t), k);
      FilesAt(t, o);
      FileHasNoFileAbove(t, Split(o));
    }
  }

  lemma NothingFails(faults: seq<Fault>, n: nat, stride: nat)
    requires KeyFails !in faults && CallFails !in faults
    ensures NoDataFault(n, faults, stride)
  {}

  /** Deleting visible keys succeeds and removes exactly their objects. */
  lemma VisibleDelete(s: Store, t: Tree, ks: seq<string>)
    requires WellFormed(t) && AllAccepted(s, ks) && AllVisible(s, Files(t), ks)
    ensures var (t', r) := TreeDelete(s, t, ks);
            && r == Ok(Unit) && WellFormed(t')
            && Files(t') == Files(t) - set o | o in Objects(s, ks)
  {
    VisibleUnblocked(s, t, ks);
    UnblockedGo(t, Objects(s, ks));
    TreeDeletePrunes(s, t, ks);
    TreeDeleteOutcome(s, t, ks);
    NothingFails(Collisions(t, Objects(s, ks)), |ks|, Stride(s));
    DeleteSim(s, t, [], ks);
    assert TreeDelete(s, t, ks).1.value == Unit;
  }

  /** On the backend it does the same. */
  lemma CalmDelete(s: Store, w: World, ks: seq<string>)
    requires AllAccepted(s, ks) && w.faults == []
    ensures var (w', r) := Delete(s, w, ks);
            r == Ok(Unit) && w'.faults == [] && w'.objs == w.objs - set o | o in Objects(s, ks)
  {
    M.DeleteSucceeds(s, w, ks);
    DeleteTouches(s, w, ks);
    var w' := Delete(s, w, ks).0;
    forall o
      ensures o in w'.objs <==> o in w.objs && o !in Objects(s, ks)
      ensures o in w'.objs ==> w'.objs[o] == w.objs[o]
    {
      ObjectsOwned(s, ks, o);
    }
  }

  // ---------------------------------------------------------------------------
  // The visitor does to the tree what a visit allows for
  // ---------------------------------------------------------------------------

  lemma {:induction false} PrunedShrinks(t: Tree, os: seq<string>)
    ensures Shrunk(t, Pruned(t, os))
  {
    if os != [] {
      var t1 := RemoveFile(t, Split(os[0])).0;
      PrunedShrinks(t1, os[1..]);
      ShrunkMore(t, t1, Pruned(t, os));
    }
  }

  lemma FlushShrinks(s: Store, u: TreeSweep)
    ensures Shrunk(u.tree, TreeFlush(s, u).0.tree)
  {
    if AllAccepted(s, u.batch) {
      TreeDeletePrunes(s, u.tree, u.batch);
      PrunedShrinks(u.tree, Objects(s, u.batch));
    } else {
      TreeDeleteRejects(s, u.tree, u.batch);
    }
  }

  lemma VisitKeyShrinks(s: Store, matches: string -> bool, size: nat, u: TreeSweep, k: string)
    ensures Shrunk(u.tree, TreeVisitKey(s, matches, size, u, k).0.tree)
  {
    FlushShrinks(s, u.(batch := u.batch + [k]));
  }

  lemma {:induction false} SweepShrinks(s: Store, matches: string -> bool, size: nat, u: TreeSweep, order: seq<string>)
    ensures Shrunk(u.tree, TreeSweepFrom(s, matches, size, u, order).0.tree)
    decreases |order|
  {
    if order != [] {
      SweepShrinks(s, matches, size, u, order[1..]);
      var r := TreeReach(s, u.tree, PrefixFilter(""), order[0]);
      if r.Ok? && r.value.Some? {
        var u1 := TreeVisitKey(s, matches, size, u, r.value.value).0;
        VisitKeyShrinks(s, matches, size, u, r.value.value);
        SweepShrinks(s, matches, size, u1, order[1..]);
        ShrunkMore(u.tree, u1.tree, TreeSweepFrom(s, matches, size, u1, order[1..]).0.tree);
      }
    }
  }

  /** Whatever becomes of it, a cleanup removes no directory and creates nothing. */
  lemma CleanShrinks(s: Store, matches: string -> bool, size: nat, t: Tree, order: seq<string>)
    ensures Shrunk(t, TreeClean(s, matches, size, t, order).0.tree)
  {
    var u0 := TreeSweep(t, [], 0, []);
    SweepShrinks(s, matches, size, u0, order);
    var u1 := TreeSweepFrom(s, matches, size, u0, order).0;
    FlushShrinks(s, u1);
    ShrunkMore(t, u1.tree, TreeFlush(s, u1).0.tree);
  }

  // ---------------------------------------------------------------------------
  // Simulation
  // ---------------------------------------------------------------------------

  /** The two sweeps stand at the same point, with keys yet to delete that are there. */
  ghost predicate Mirrors(s: Store, u: TreeSweep, v: Sweep) {
    && WellFormed(u.tree) && Calm(u.tree, v.w)
    && u.batch == v.batch && u.deleted == v.deleted && u.calls == v.calls
    && AllVisible(s, Files(u.tree), u.batch)
  }

  lemma {:induction false} ReachSim(s: Store, t: Tree, w: World, f: Filter, full: string)
    requires Calm(t, w)
    ensures Reach(s, w, f, full).1 == TreeReach(s, t, f, full) && Calm(t, Reach(s, w, f, full).0)
    decreases s
  {
    match s
    case Base =>
    case Prefixed(p, inner) => ReachSim(inner, t, w, CombinedPrefixFilter(p, f), full);
    case Encrypted(_, x, inner) =>
      ReachSim(inner, t, w, SuffixFilter(""), full);
      var (w1, r) := Reach(inner, w, SuffixFilter(""), full);
      if r.Ok? && r.value.Some? { ExistsSim(inner, t, w1, r.value.value + x); }
    case Cleanable(inner) => ReachSim(inner, t, w, f, full);
  }

  lemma FlushSim(s: Store, u: TreeSweep, v: Sweep)
    requires Mirrors(s, u, v)
    ensures Flush(s, v).1 == TreeFlush(s, u).1 && Mirrors(s, TreeFlush(s, u).0, Flush(s, v).0)
  {
    if u.batch != [] {
      if AllAccepted(s, u.batch) {
        VisibleDelete(s, u.tree, u.batch);
        CalmDelete(s, v.w, u.batch);
      } else {
        TreeDeleteRejects(s, u.tree, u.batch);
        M.DeleteRejectsAll(s, v.w, u.batch);
      }
    }
  }

  lemma VisitKeySim(s: Store, matches: string -> bool, size: nat, u: TreeSweep, v: Sweep, k: string)
    requires Mirrors(s, u, v) && Visible(s, Files(u.tree), k)
    ensures VisitKey(s, matches, size, v, k).1 == TreeVisitKey(s, matches, size, u, k).1
    ensures Mirrors(s, TreeVisitKey(s, matches, size, u, k).0, VisitKey(s, matches, size, v, k).0)
  {
    if matches(k) {
      var u1, v1 := u.(batch := u.batch + [k]), v.(batch := v.batch + [k]);
      assert Mirrors(s, u1, v1);
      if |u1.batch| >= size { FlushSim(s, u1, v1); }
    }
  }

  /** A sweep over the tree is a sweep over a backend where nothing fails and nothing
      deleted is presented again. */
  lemma {:induction false} SweepSim(s: Store, matches: string -> bool, size: nat, u: TreeSweep, v: Sweep,
                                    order: seq<string>)
    requires Mirrors(s, u, v)
    ensures var (u', e) := TreeSweepFrom(s, matches, size, u, order);
            var (v', e') := SweepFrom(s, matches, size, v, order, _ => false);
            e == e' && Mirrors(s, u', v')
    decreases |order|
  {
    if order != [] {
      var o := order[0];
      if o !in Files(u.tree) {
        SweepSim(s, matches, size, u, v, order[1..]);
      } else {
        ReachSim(s, u.tree, v.w, PrefixFilter(""), o);
        PrefixHintSound("");
        ReachExact(s, v.w, PrefixFilter(""), o);
        var (w1, r) := Reach(s, v.w, PrefixFilter(""), o);
        var v1 := v.(w := w1);
        if r.Ok? && r.value.None? {
          SweepSim(s, matches, size, u, v1, order[1..]);
        } else if r.Ok? {
          VisitKeySim(s, matches, size, u, v1, r.value.value);
          var (u2, e) := TreeVisitKey(s, matches, size, u, r.value.value);
          if e.None? { SweepSim(s, matches, size, u2, VisitKey(s, matches, size, v1, r.value.value).0, order[1..]); }
        }
      }
    }
  }

  /** So is a whole cleanup. */
  lemma CleanSim(s: Store, matches: string -> bool, size: nat, t: Tree, order: seq<string>)
    requires WellFormed(t)
    ensures var (u, e) := TreeClean(s, matches, size, t, order);
            var (v, e') := Clean(s, matches, size, Holding(t, [], []), order, _ => false);
            e == e' && Mirrors(s, u, v)
  {
    var u0, v0 := TreeSweep(t, [], 0, []), Sweep(Holding(t, [], []), [], 0, []);
    SweepSim(s, matches, size, u0, v0, order);
    var (u1, e) := TreeSweepFrom(s, matches, size, u0, order);
    if e.None? { FlushSim(s, u1, SweepFrom(s, matches, size, v0, order, _ => false).0); }
  }

  /** Cleanup on the filesystem, under directory prefixes and at most one encryption layer,
      always succeeds: it counts the visible matching keys and removes exactly the files of
      their data and headers. Orphans, files of others and all directories stay. */
  lemma TreeCleanup(s: Store, matches: string -> bool, size: nat, t: Tree, order: seq<string>)
    requires Encryptions(s) <= 1 && M.GoodSuffixes(s) && DirectoryPrefixes(s)
    requires WellFormed(t) && AllKeysValid(Files(t))
    requires Distinct(order) && forall o :: o in order <==> o in Files(t)
    ensures var (u, e) := TreeClean(s, matches, size, t, order);
            && e.None?
            && u.deleted == |VisibleKeys(s, Files(t), Filter(matches, NoHint))|
            && N.MatchesGone(s, matches, Files(t), Files(u.tree))
            && WellFormed(u.tree) && Shrunk(t, u.tree)
  {
    CleanShrinks(s, matches, size, t, order);
    CleanSim(s, matches, size, t, order);
    N.CleanupOnShared(s, matches, size, Holding(t, [], []), order, _ => false);
  }
}
