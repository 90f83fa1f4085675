/** Visiting the filesystem backend while the visitor deletes: the traversal a cleanup
    runs on. */
module FsVisit {
  import opened Keys
  import opened Filters
  import opened Stores
  import opened Sorting
  import opened FsTree
  import opened FsWalk
  import opened FsBackend

  /** Files may have gone since `a`; directories stay and nothing is new. */
  ghost predicate Shrunk(a: Tree, b: Tree) {
    && (forall p :: p in b ==> p in a && b[p] == a[p])
    && (forall p :: IsDir(a, p) ==> IsDir(b, p))
  }

  /** The tree, and every call of the visitor so far. */
  class Disk {
    var tree: Tree
    var log: seq<Showing>

    constructor (t: Tree)
      ensures tree == t && log == []
    {
      tree, log := t, [];
    }

    /** Call the visitor. It may delete any files before it answers. */
    method Visited(k: string) returns (answer: Answer)
      modifies this
      ensures Shrunk(old(tree), tree) && log == old(log) + [Showing(k, answer)]
    {
      var doomed: set<string> := *;
      answer := *;
      log := log + [Showing(k, answer)];
      tree := map q | q in tree && (tree[q].Dir? || Join(q) !in doomed) :: tree[q];
    }
  }

  /** One visit: the tree and the calls when it begins, the start directory and how it is
      written, and the caller's filter. */
  datatype Scope = Scope(tree: Tree, log: seq<Showing>, start: Path, text: string, f: Filter) {
    predicate Covers(p: Path) {
      p in tree && tree[p].File? && AtOrBelow(start, p)
    }

    predicate Wants(p: Path) {
      AtOrBelow(start, p) && f.matches(KeyOf(text, start, p))
    }
  }

  /** One initial file at its turn: the tree as it was then, and what the visitor answered,
      if it was asked. */
  datatype Turn = Turn(path: Path, tree: Tree, answer: Answer)

  /** The visitor is asked about a file that is still there and that the filter selects. */
  function Asked(c: Scope, turn: Turn): seq<Showing> {
    if turn.path in turn.tree && c.Wants(turn.path)
    then [Showing(KeyOf(c.text, c.start, turn.path), turn.answer)]
    else []
  }

  /** The calls of the visitor, in order. */
  function Shown(c: Scope, turns: seq<Turn>): seq<Showing> {
    if turns == [] then [] else Shown(c, turns[..|turns| - 1]) + Asked(c, Last(turns))
  }

  function Last(turns: seq<Turn>): Turn
    requires turns != []
  {
    turns[|turns| - 1]
  }

  ghost predicate AllContinue(turns: seq<Turn>) {
    forall i :: 0 <= i < |turns| ==> turns[i].answer.Continue?
  }

  /** The visit goes on exactly as long as the visitor says so. */
  ghost predicate Obeys(c: Scope, turns: seq<Turn>, answer: Answer) {
    if answer.Continue? then AllContinue(turns)
    else turns != [] && AllContinue(turns[..|turns| - 1]) && Last(turns).answer == answer && Asked(c, Last(turns)) != []
  }

  ghost predicate HasTurn(turns: seq<Turn>, q: Path) {
    exists i :: 0 <= i < |turns| && turns[i].path == q
  }

  /** No file has two turns. */
  ghost predicate OneTurnEach(turns: seq<Turn>) {
    forall i, j :: 0 <= i < j < |turns| ==> turns[i].path != turns[j].path
  }

  /** The trees met in turn, from `start` to `now`, only ever lose files. */
  ghost predicate Shrinking(start: Tree, turns: seq<Turn>, now: Tree) {
    && Shrunk(start, now)
    && (forall i :: 0 <= i < |turns| ==> Shrunk(start, turns[i].tree) && Shrunk(turns[i].tree, now))
    && (forall i, j :: 0 <= i < j < |turns| ==> Shrunk(turns[i].tree, turns[j].tree))
  }

  /** Exactly the initial files that are no longer open have had their turn. */
  ghost predicate TurnsFor(c: Scope, frontier: set<Path>, turns: seq<Turn>) {
    forall q :: HasTurn(turns, q) <==> c.Covers(q) && !OpenAt(frontier, q)
  }

  ghost predicate Progress(c: Scope, frontier: set<Path>, turns: seq<Turn>, now: Tree, log: seq<Showing>) {
    && WellFormed(c.tree) && Frontier(c.tree, c.start, frontier)
    && OneTurnEach(turns) && TurnsFor(c, frontier, turns)
    && Shrinking(c.tree, turns, now) && log == c.log + Shown(c, turns)
  }

  lemma ShrunkMore(a: Tree, b: Tree, c: Tree)
    requires Shrunk(a, b) && Shrunk(b, c)
    ensures Shrunk(a, c)
  {}

  lemma NextTurn(c: Scope, turns: seq<Turn>, turn: Turn)
    requires OneTurnEach(turns) && !HasTurn(turns, turn.path)
    ensures OneTurnEach(turns + [turn])
    ensures forall q :: HasTurn(turns + [turn], q) <==> HasTurn(turns, q) || q == turn.path
    ensures Shown(c, turns + [turn]) == Shown(c, turns) + Asked(c, turn)
  {
    var more := turns + [turn];
    assert more[..|turns|] == turns;
    forall q
      ensures HasTurn(more, q) <==> HasTurn(turns, q) || q == turn.path
    {
      if HasTurn(turns, q) {
        var i :| 0 <= i < |turns| && turns[i].path == q;
        assert more[i].path == q;
      }
      assert more[|turns|].path == turn.path;
    }
    forall i, j | 0 <= i < j < |more|
      ensures more[i].path != more[j].path
    {
      if j == |turns| { assert HasTurn(turns, turns[i].path); }
    }
  }

  lemma ShrinkingMore(start: Tree, turns: seq<Turn>, turn: Turn, now: Tree)
    requires Shrinking(start, turns, turn.tree) && Shrunk(turn.tree, now)
    ensures Shrinking(start, turns + [turn], now)
    ensures Shrinking(start, turns, now)
  {
    forall i | 0 <= i < |turns| { ShrunkMore(turns[i].tree, turn.tree, now); }
    ShrunkMore(start, turn.tree, now);
  }

  /** The turn of one file: it leaves the frontier, and is shown if it is still there and
      selected. */
  lemma TakeTurn(c: Scope, frontier: set<Path>, turns: seq<Turn>, log: seq<Showing>, turn: Turn, now: Tree)
    requires Progress(c, frontier, turns, turn.tree, log)
    requires turn.path in frontier && c.tree[turn.path].File? && Shrunk(turn.tree, now)
    ensures Progress(c, frontier - {turn.path}, turns + [turn], now, log + Asked(c, turn))
  {
    Assoc(c.log, Shown(c, turns), Asked(c, turn));
    CloseFile(c.tree, c.start, frontier, turn.path);
    assert AtOrBelow(turn.path, turn.path) && OpenAt(frontier, turn.path);
    NextTurn(c, turns, turn);
    ShrinkingMore(c.tree, turns, turn, now);
  }

  lemma SameFrontier(c: Scope, a: set<Path>, b: set<Path>, turns: seq<Turn>, now: Tree, log: seq<Showing>)
    requires Progress(c, a, turns, now, log) && Frontier(c.tree, c.start, b)
    requires forall q :: q in c.tree && c.tree[q].File? ==> (OpenAt(a, q) <==> OpenAt(b, q))
    ensures Progress(c, b, turns, now, log)
  {}

  lemma TakeGone(c: Scope, frontier: set<Path>, turns: seq<Turn>, now: Tree, log: seq<Showing>, p: Path)
    requires Progress(c, frontier, turns, now, log) && AllContinue(turns)
    requires p in frontier && c.tree[p].File? && p !in now
    ensures Progress(c, frontier - {p}, turns + [Turn(p, now, Continue)], now, log)
    ensures AllContinue(turns + [Turn(p, now, Continue)])
  {
    TakeTurn(c, frontier, turns, log, Turn(p, now, Continue), now);
    assert log + [] == log;
  }

  ghost predicate AllGone(start: Tree, frontier: set<Path>, gone: set<Path>, now: Tree) {
    gone <= frontier && forall c :: c in gone ==> c in start && start[c].File? && c !in now
  }

  lemma OneGone(start: Tree, frontier: set<Path>, gone: set<Path>, now: Tree, c: Path)
    requires AllGone(start, frontier, gone, now) && c in gone
    ensures AllGone(start, frontier - {c}, gone - {c}, now)
    ensures c in frontier && c in start && start[c].File? && c !in now
    ensures frontier - {c} - (gone - {c}) == frontier - gone && |gone - {c}| < |gone|
  {}

  /** Files that went before their directory was opened have their turn then, unseen. */
  lemma {:induction false} PassOver(c: Scope, frontier: set<Path>, turns: seq<Turn>, now: Tree, log: seq<Showing>,
                                    gone: set<Path>) returns (turns': seq<Turn>)
    requires Progress(c, frontier, turns, now, log) && AllContinue(turns)
    requires AllGone(c.tree, frontier, gone, now)
    ensures Progress(c, frontier - gone, turns', now, log) && AllContinue(turns')
    decreases |gone|
  {
    if gone == {} {
      turns' := turns;
      assert frontier - gone == frontier;
    } else {
      var p :| p in gone;
      OneGone(c.tree, frontier, gone, now, p);
      TakeGone(c, frontier, turns, now, log, p);
      turns' := PassOver(c, frontier - {p}, turns + [Turn(p, now, Continue)], now, log, gone - {p});
    }
  }

  /** What directory `d` holds now, and what it held at the start. */
  lemma Entries(start: Tree, now: Tree, d: Path, waiting: set<Path>)
    requires Shrunk(start, now) && waiting !! Children(start, d)
    ensures var gone := Children(start, d) - Children(now, d);
            && Children(now, d) <= Children(start, d)
            && AllGone(start, waiting + Children(start, d), gone, now)
            && waiting + Children(start, d) - gone == waiting + Children(now, d)
  {
    forall c | c in Children(start, d) && c !in Children(now, d)
      ensures c !in now && start[c].File?
    {
      assert IsDir(start, c) ==> IsDir(now, c);
    }
  }

  lemma Queued(queue: seq<Path>, entry: Path, entries: set<Path>)
    requires entry in entries
    ensures SetOf(queue) + entries == SetOf(queue + [entry]) + (entries - {entry})
    ensures SetOf(queue + [entry]) == SetOf(queue) + {entry}
  {}

  lemma Dropped(queue: seq<Path>, entry: Path, entries: set<Path>)
    requires entry in entries && SetOf(queue) !! entries
    ensures SetOf(queue) + entries - {entry} == SetOf(queue) + (entries - {entry})
  {}

  /** A file of the directory: the visitor is asked about it unless it is no file any more
      or the filter rejects its key. */
  method VisitEntry(disk: Disk, c: Scope, entry: Path, ghost frontier: set<Path>, ghost before: seq<Turn>)
      returns (answer: Answer, ghost turns: seq<Turn>)
    requires Progress(c, frontier, before, disk.tree, disk.log) && AllContinue(before)
    requires entry in frontier && c.tree[entry].File?
    modifies disk
    ensures Progress(c, frontier - {entry}, turns, disk.tree, disk.log) && Obeys(c, turns, answer)
  {
    ghost var now, log := disk.tree, disk.log;
    answer := Continue;
    if entry in disk.tree {
      var k := KeyOf(c.text, c.start, entry);
      if c.f.matches(k) { answer := disk.Visited(k); }
    }
    ghost var turn := Turn(entry, now, answer);
    TakeTurn(c, frontier, before, log, turn, disk.tree);
    assert log + [] == log;
    turns := before + [turn];
    assert turns[..|before|] == before;
  }

  /** One entry: a directory is queued, a file considered. */
  method ReadEntry(disk: Disk, c: Scope, entry: Path, ghost entries: set<Path>, waiting: seq<Path>,
                   ghost before: seq<Turn>)
      returns (answer: Answer, queue: seq<Path>, ghost turns: seq<Turn>)
    requires entry in entries && SetOf(waiting) !! entries && QueueOk(c.tree, waiting)
    requires Progress(c, SetOf(waiting) + entries, before, disk.tree, disk.log) && AllContinue(before)
    modifies disk
    ensures QueueOk(c.tree, queue) && SetOf(queue) !! entries - {entry} && SetOf(queue) <= SetOf(waiting) + {entry}
    ensures Progress(c, SetOf(queue) + (entries - {entry}), turns, disk.tree, disk.log) && Obeys(c, turns, answer)
  {
    answer, queue, turns := Continue, waiting, before;
    SameKind(c.tree, disk.tree, entry);
    if entry in disk.tree && disk.tree[entry].Dir? {
      Queued(queue, entry, entries);
      queue := queue + [entry];
    } else {
      Dropped(queue, entry, entries);
      answer, turns := VisitEntry(disk, c, entry, SetOf(queue) + entries, turns);
    }
  }

  /** Read one directory as it is when opened, entry by entry in whatever order, until the
      visitor has had enough. */
  method VisitDirectory(disk: Disk, c: Scope, d: Path, waiting: seq<Path>, ghost before: seq<Turn>)
      returns (answer: Answer, queue: seq<Path>, ghost turns: seq<Turn>, ghost open: set<Path>)
    requires QueueOk(c.tree, waiting) && SetOf(waiting) !! Children(c.tree, d)
    requires Progress(c, SetOf(waiting) + Children(c.tree, d), before, disk.tree, disk.log) && AllContinue(before)
    modifies disk
    ensures Progress(c, open, turns, disk.tree, disk.log) && Obeys(c, turns, answer)
    ensures answer.Continue? ==>
              open == SetOf(queue) && QueueOk(c.tree, queue) && SetOf(queue) <= SetOf(waiting) + Children(c.tree, d)
  {
    ghost var start := c.tree;
    answer, queue := Continue, waiting;
    var entries := Children(disk.tree, d);
    Entries(start, disk.tree, d, SetOf(waiting));
    ghost var gone := Children(start, d) - entries;
    turns := PassOver(c, SetOf(waiting) + Children(start, d), before, disk.tree, disk.log, gone);
    open := SetOf(queue) + entries;
    while entries != {} && answer.Continue?
      invariant entries <= Children(start, d) && SetOf(queue) !! entries && open == SetOf(queue) + entries
      invariant QueueOk(start, queue) && SetOf(queue) <= SetOf(waiting) + Children(start, d)
      invariant Progress(c, open, turns, disk.tree, disk.log) && Obeys(c, turns, answer)
      decreases entries
    {
      var entry :| entry in entries;
      answer, queue, turns := ReadEntry(disk, c, entry, entries, queue, turns);
      entries := entries - {entry};
      open := SetOf(queue) + entries;
    }
    assert entries == {} ==> open == SetOf(queue);
  }

  lemma SameKind(start: Tree, now: Tree, p: Path)
    requires Shrunk(start, now) && p in start
    ensures p in now && now[p].Dir? <==> start[p].Dir?
  {
    assert IsDir(start, p) ==> IsDir(now, p);
  }

  /** What a visit promises, whatever the visitor deletes meanwhile: each initial file under
      the start has at most one turn, and the visitor is called with it at its turn if and
      only if it is still there and selected; there are no other calls; every file has had
      its turn unless the visitor ended the visit, and then the call it did so in came last
      and its answer is the one passed on. */
  ghost predicate Traced(c: Scope, turns: seq<Turn>, log: seq<Showing>, now: Tree, answer: Answer) {
    && OneTurnEach(turns) && log == c.log + Shown(c, turns) && Obeys(c, turns, answer)
    && (forall q :: HasTurn(turns, q) ==> c.Covers(q))
    && (answer.Continue? ==> forall q :: c.Covers(q) ==> HasTurn(turns, q))
    && Shrinking(c.tree, turns, now)
  }

  /** The walk over a queue of directories. It ends, whatever the visitor does. */
  method VisitFrom(disk: Disk, c: Scope) returns (answer: Answer, ghost turns: seq<Turn>)
    requires c.tree == disk.tree && c.log == disk.log && WellFormed(c.tree) && IsDir(c.tree, c.start)
    modifies disk
    ensures Traced(c, turns, disk.log, disk.tree, answer)
  {
    answer, turns := Continue, [];
    var queue: seq<Path> := [c.start];
    ghost var open := SetOf(queue);
    StartOpen(c);
    assert SetOf(queue) == {c.start};
    while queue != [] && answer.Continue?
      invariant Progress(c, open, turns, disk.tree, disk.log) && Obeys(c, turns, answer)
      invariant answer.Continue? ==> open == SetOf(queue) && QueueOk(c.tree, queue)
      decreases if answer.Continue? then 1 else 0, Unexplored(c.tree, SetOf(queue))
    {
      ghost var frontier := SetOf(queue);
      var d := queue[0];
      queue := queue[1..];
      Opened(c.tree, c.start, frontier, d, queue);
      ghost var next := SetOf(queue) + Children(c.tree, d);
      SameFrontier(c, frontier, next, turns, disk.tree, disk.log);
      answer, queue, turns, open := VisitDirectory(disk, c, d, queue, turns);
      if answer.Continue? { StillLess(c.tree, next, SetOf(queue)); }
    }
    if answer.Continue? { NothingOpen(c, turns, disk.tree, disk.log); }
  }

  /** `visit`: start where the hint says, if that is a directory, and walk. The visitor's
      refusal to go on is no error; its failure is passed on. */
  method Visit(disk: Disk, f: Filter) returns (r: Result<Answer>, ghost turns: seq<Turn>)
    requires WellFormed(disk.tree)
    modifies disk
    ensures var t, log, text := old(disk.tree), old(disk.log), StartText(HintText(f));
            if Listable(t, f) && IsDir(t, StartPath(text)) then
              r.Ok? && Traced(Scope(t, log, StartPath(text), text, f), turns, disk.log, disk.tree, r.value)
            else
              && disk.tree == t && disk.log == log
              && (if Listable(t, f) then r == Ok(Continue) else r in {Err(InvalidInput), Err(Storage)})
  {
    turns := [];
    ListSucceeds(disk.tree, f);
    if f.hint.Under? && !HintAllowed(f.hint.prefix) { return Err(InvalidInput), turns; }
    var text := StartText(HintText(f));
    var b := StartPath(text);
    match ProbeDir(disk.tree, b, text != "" && text == HintText(f))
    case Fails => r := Err(Storage);
    case Missing => r := Ok(Continue);
    case Present =>
      var answer;
      answer, turns := VisitFrom(disk, Scope(disk.tree, disk.log, b, text, f));
      r := Ok(answer);
  }

  lemma StartOpen(c: Scope)
    requires WellFormed(c.tree) && IsDir(c.tree, c.start)
    ensures Progress(c, {c.start}, [], c.tree, c.log)
  {
    assert c.log + [] == c.log;
    forall q | q in c.tree && AtOrBelow(c.start, q)
      ensures OpenAt({c.start}, q)
    {}
  }

  /** Opening a directory exchanges it for its children. */
  lemma Opened(start: Tree, b: Path, frontier: set<Path>, d: Path, rest: seq<Path>)
    requires WellFormed(start) && Frontier(start, b, frontier)
    requires QueueOk(start, [d] + rest) && frontier == SetOf([d] + rest)
    ensures var next := SetOf(rest) + Children(start, d);
            && QueueOk(start, rest) && SetOf(rest) !! Children(start, d) && Frontier(start, b, next)
            && Unexplored(start, next) < Unexplored(start, frontier)
            && forall q :: q in start && start[q].File? ==> (OpenAt(frontier, q) <==> OpenAt(next, q))
  {
    var queue := [d] + rest;
    assert queue[0] == d && queue[1..] == rest;
    assert d in frontier && IsDir(start, d);
    Expand(start, b, frontier, d);
    assert SetOf(rest) == frontier - {d};
    LessUnexplored(start, frontier, d, frontier - {d} + Children(start, d));
    forall c | c in Children(start, d)
      ensures c !in frontier
    {
      assert AtOrBelow(d, c);
    }
  }

  lemma StillLess(start: Tree, a: set<Path>, c: set<Path>)
    requires c <= a
    ensures Unexplored(start, c) <= Unexplored(start, a)
  {}

  lemma NothingOpen(c: Scope, turns: seq<Turn>, now: Tree, log: seq<Showing>)
    requires Progress(c, SetOf([]), turns, now, log)
    ensures forall q :: HasTurn(turns, q) <==> c.Covers(q)
  {
    assert forall q :: !OpenAt(SetOf([]), q);
  }

  // ---------------------------------------------------------------------------
  // The traversal in terms of backend objects
  // ---------------------------------------------------------------------------

  /** The keys of the files, in the order of their turns. */
  function OrderOf(turns: seq<Turn>): (order: seq<string>)
    ensures |order| == |turns| && forall i :: 0 <= i < |turns| ==> order[i] == Join(turns[i].path)
  {
    if turns == [] then [] else [Join(turns[0].path)] + OrderOf(turns[1..])
  }

  lemma TurnAt(turns: seq<Turn>, i: nat)
    requires i < |turns|
    ensures HasTurn(turns, turns[i].path)
  {}

  lemma WantedIsProduced(c: Scope, q: Path)
    requires q in c.tree && c.tree[q].File? && c.Wants(q)
    ensures KeyOf(c.text, c.start, q) in Produced(c.tree, c.start, c.text, c.f)
  {}

  /** Under a filter that honours a hint passing `HintExact`, the keys shown are those of
      the files themselves, and every selected file of the tree has its turn. */
  lemma SelectedAreCovered(c: Scope, q: Path)
    requires WellFormed(c.tree) && IsDir(c.tree, c.start) && HintSound(c.f) && HintExact(HintText(c.f))
    requires c.text == StartText(HintText(c.f)) && c.start == StartPath(c.text)
    requires q in c.tree && c.tree[q].File?
    ensures c.Wants(q) <==> c.f.matches(Join(q))
    ensures c.Wants(q) ==> c.Covers(q) && KeyOf(c.text, c.start, q) == Join(q)
  {
    if Canonical(c.text) {
      StartTextPrefix(HintText(c.f));
      UnderStart(c.text, q);
      if c.f.matches(Join(q)) { MatchesUnderStart(c.f, Join(q)); }
    } else {
      FaithfulOtherwise(c.tree, c.f, c.start);
      assert c.f.matches(Join(q)) ==> Join(q) in FileKeys(c.tree, c.f);
      if c.Wants(q) { WantedIsProduced(c, q); }
    }
  }

  lemma TurnKey(c: Scope, turns: seq<Turn>, now: Tree, i: nat)
    requires WellFormed(c.tree) && Shrinking(c.tree, turns, now) && i < |turns| && c.Covers(turns[i].path)
    ensures var o := Join(turns[i].path);
            && Split(o) == turns[i].path && o in Files(c.tree)
            && (turns[i].path in turns[i].tree <==> o in Files(turns[i].tree))
            && (o in Files(now) ==> o in Files(turns[i].tree))
  {
    var o := Join(turns[i].path);
    FileHasKey(c.tree, turns[i].path);
    FilesAt(turns[i].tree, o);
    FilesAt(now, o);
  }

  lemma KeyHasTurn(c: Scope, turns: seq<Turn>, o: string)
    requires c.start == [] && o in Files(c.tree) && forall q :: c.Covers(q) ==> HasTurn(turns, q)
    ensures o in OrderOf(turns)
  {
    FilesAt(c.tree, o);
    JoinSplit(o);
    assert c.Covers(Split(o));
    var i :| 0 <= i < |turns| && turns[i].path == Split(o);
    assert OrderOf(turns)[i] == o;
  }

  /** A visit is the kind of traversal a cleanup is proved correct on: each initial object
      comes up at most once, at its turn is there or gone for good, and all of them come up
      if the visit from the root runs to its end. */
  lemma VisitIsTraversal(c: Scope, turns: seq<Turn>, log: seq<Showing>, now: Tree, answer: Answer)
    requires WellFormed(c.tree) && Traced(c, turns, log, now, answer)
    ensures Distinct(OrderOf(turns)) && forall o :: o in OrderOf(turns) ==> o in Files(c.tree)
    ensures answer.Continue? && c.start == [] ==> forall o :: o in Files(c.tree) ==> o in OrderOf(turns)
    ensures forall i :: 0 <= i < |turns| ==>
              && (turns[i].path in turns[i].tree <==> OrderOf(turns)[i] in Files(turns[i].tree))
              && (OrderOf(turns)[i] in Files(now) ==> OrderOf(turns)[i] in Files(turns[i].tree))
  {
    var order := OrderOf(turns);
    forall i | 0 <= i < |turns|
      ensures Split(order[i]) == turns[i].path && order[i] in Files(c.tree)
      ensures turns[i].path in turns[i].tree <==> order[i] in Files(turns[i].tree)
      ensures order[i] in Files(now) ==> order[i] in Files(turns[i].tree)
    {
      TurnAt(turns, i);
      TurnKey(c, turns, now, i);
    }
    if answer.Continue? && c.start == [] {
      forall o | o in Files(c.tree) { KeyHasTurn(c, turns, o); }
    }
    forall i, j | 0 <= i < j < |order|
      ensures order[i] != order[j]
    {
      assert Split(order[i]) != Split(order[j]);
    }
  }
}
