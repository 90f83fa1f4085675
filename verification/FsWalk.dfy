/** Listing the filesystem backend: the breadth-first walk from the directory that the
    filter's prefix hint names. */
module FsWalk {
  import opened Keys
  import opened Filters
  import opened Stores
  import opened FsTree
  import opened Sorting

  // ---------------------------------------------------------------------------
  // Where the walk starts
  // ---------------------------------------------------------------------------

  predicate HintAllowed(hint: string) {
    && !StartsWith(hint, [SEPARATOR])
    && BACKSLASH !in hint
    && forall c :: c in Split(hint) ==> c != "." && c != ".."
  }

  function TrimEmpties(cs: seq<string>): seq<string> {
    if cs == [] || cs[|cs| - 1] != "" then cs else TrimEmpties(cs[..|cs| - 1])
  }

  function AsDirectory(cs: seq<string>): string {
    if cs == [] then "" else Join(cs) + [SEPARATOR]
  }

  /** The start directory as text below the root: the hint itself when it ends in '/',
      otherwise its parent, which loses the last component and any separators before it. */
  function StartText(hint: string): string {
    if DirectoryPrefix(hint) then hint
    else AsDirectory(TrimEmpties(Split(hint)[..|Split(hint)| - 1]))
  }

  function NonEmpty(cs: seq<string>): Path {
    if cs == [] then [] else (if cs[0] == "" then [] else [cs[0]]) + NonEmpty(cs[1..])
  }

  /** The directory the operating system resolves that text to. */
  function StartPath(text: string): Path {
    NonEmpty(Split(text))
  }

  datatype Probe = Missing | Present | Fails

  /** `fs::metadata` of the start directory; with a trailing separator a file is an error. */
  function ProbeDir(t: Tree, p: Path, trailing: bool): Probe {
    if FileAbove(t, p) then Fails
    else if p !in t then Missing
    else if t[p].Dir? then Present
    else if trailing then Fails
    else Missing
  }

  predicate AtOrBelow(d: Path, q: Path) {
    |d| <= |q| && q[..|d|] == d
  }

  /** The key reported for file `p` when the walk started at `b`, written `text`. */
  function KeyOf(text: string, b: Path, p: Path): string
    requires |b| <= |p|
  {
    text + Join(p[|b|..])
  }

  /** The keys the walk produces. */
  ghost function Produced(t: Tree, b: Path, text: string, f: Filter): set<string> {
    set p | p in t && t[p].File? && AtOrBelow(b, p) && f.matches(KeyOf(text, b, p)) :: KeyOf(text, b, p)
  }

  /** What `list` promises: the keys of all files that match. */
  ghost function FileKeys(t: Tree, f: Filter): set<string> {
    set p | p in t && t[p].File? && f.matches(Join(p)) :: Join(p)
  }

  ghost function ListResult(t: Tree, f: Filter): Result<seq<string>> {
    if f.hint.Under? && !HintAllowed(f.hint.prefix) then Err(InvalidInput)
    else
      var text := StartText(HintText(f));
      match ProbeDir(t, StartPath(text), text != "" && text == HintText(f))
      case Fails => Err(Storage)
      case Missing => Ok([])
      case Present => Ok(Listing(Produced(t, StartPath(text), text, f)))
  }

  // ---------------------------------------------------------------------------
  // The walk
  // ---------------------------------------------------------------------------

  /** `q` is still to be explored from the frontier. */
  ghost predicate OpenAt(frontier: set<Path>, q: Path) {
    exists d :: d in frontier && AtOrBelow(d, q)
  }

  ghost function Unexplored(t: Tree, frontier: set<Path>): set<Path> {
    set q | q in t && OpenAt(frontier, q)
  }

  ghost predicate Frontier(t: Tree, b: Path, frontier: set<Path>) {
    && (forall d :: d in frontier ==> d in t && AtOrBelow(b, d))
    && (forall d, d' :: d in frontier && d' in frontier && d != d' ==> !AtOrBelow(d, d'))
  }

  ghost predicate Found(t: Tree, b: Path, text: string, f: Filter, frontier: set<Path>, q: Path, k: string) {
    && q in t && t[q].File? && AtOrBelow(b, q) && !OpenAt(frontier, q)
    && k == KeyOf(text, b, q) && f.matches(k)
  }

  /** `keys` lists, once each, the matching files that are no longer open. */
  ghost predicate Collected(t: Tree, b: Path, text: string, f: Filter, frontier: set<Path>, keys: seq<string>) {
    && Distinct(keys)
    && forall k :: k in keys <==> exists q :: Found(t, b, text, f, frontier, q, k)
  }

  ghost function SetOf(queue: seq<Path>): set<Path> {
    set d | d in queue
  }

  function Children(t: Tree, d: Path): set<Path> {
    set p | p in t && |p| == |d| + 1 && p[..|d|] == d
  }

  lemma BelowTransitive(a: Path, b: Path, c: Path)
    requires AtOrBelow(a, b) && AtOrBelow(b, c)
    ensures AtOrBelow(a, c)
  {
    assert c[..|a|] == c[..|b|][..|a|];
  }

  lemma BelowLinear(a: Path, b: Path, c: Path)
    requires AtOrBelow(a, c) && AtOrBelow(b, c) && |a| <= |b|
    ensures AtOrBelow(a, b)
  {
    assert b[..|a|] == c[..|b|][..|a|];
  }

  lemma ChildrenApart(t: Tree, b: Path, frontier: set<Path>, d: Path, x: Path, y: Path)
    requires Frontier(t, b, frontier) && d in frontier && AtOrBelow(x, y)
    requires var next := frontier - {d} + Children(t, d); x in next && y in next
    ensures x == y
  {
    var kids := Children(t, d);
    if x in kids && y !in kids {
      BelowTransitive(d, x, y);
    } else if y in kids && |x| <= |d| {
      BelowLinear(x, d, y);
    } else if y in kids {
      assert y[..|x|] == y;
    }
  }

  /** Replacing a directory by its children keeps the same files open. */
  lemma Expand(t: Tree, b: Path, frontier: set<Path>, d: Path)
    requires WellFormed(t) && Frontier(t, b, frontier) && d in frontier && t[d].Dir?
    ensures var next := frontier - {d} + Children(t, d);
            && Frontier(t, b, next)
            && !OpenAt(next, d)
            && forall q :: q in t && q != d ==> (OpenAt(frontier, q) <==> OpenAt(next, q))
  {
    var kids := Children(t, d);
    var next := frontier - {d} + kids;
    forall c | c in kids
      ensures AtOrBelow(b, c) && !AtOrBelow(c, d)
    {
      BelowTransitive(b, d, c);
    }
    forall x, y | x in next && y in next && AtOrBelow(x, y)
      ensures x == y
    {
      ChildrenApart(t, b, frontier, d, x, y);
    }
    forall q | q in t && q != d
      ensures OpenAt(frontier, q) <==> OpenAt(next, q)
    {
      if AtOrBelow(d, q) {
        var c := q[..|d| + 1];
        if c != q { AncestorsAreDirs(t, q, |d| + 1); }
        assert c[..|d|] == d;
        assert c in kids && AtOrBelow(c, q);
      }
      if c :| c in kids && AtOrBelow(c, q) { BelowTransitive(d, c, q); }
    }
  }

  /** Closing a file closes nothing else. */
  lemma CloseFile(t: Tree, b: Path, frontier: set<Path>, c: Path)
    requires WellFormed(t) && Frontier(t, b, frontier) && c in frontier && t[c].File?
    ensures Frontier(t, b, frontier - {c})
    ensures forall q :: q in t ==> (OpenAt(frontier, q) <==> OpenAt(frontier - {c}, q) || q == c)
    ensures !OpenAt(frontier - {c}, c)
  {
    forall q | q in t
      ensures OpenAt(frontier, q) <==> OpenAt(frontier - {c}, q) || q == c
    {
      if AtOrBelow(c, q) && q != c {
        AncestorsAreDirs(t, q, |c|);
        assert false;
      }
      if q == c { assert AtOrBelow(c, c); }
    }
  }

  lemma GoodJoin(a: Path)
    requires GoodNames(a)
    ensures SeparatorFree(a) && (a != [] ==> Join(a) != "")
  {
    if a != [] {
      assert a[0] in a;
      assert |Join(a)| >= |a[0]|;
    }
  }

  lemma JoinInjective(a: Path, b: Path)
    requires GoodNames(a) && GoodNames(b) && Join(a) == Join(b)
    ensures a == b
  {
    GoodJoin(a);
    GoodJoin(b);
    if a != [] { SplitJoin(a); }
    if b != [] { SplitJoin(b); }
  }

  lemma KeyOfInjective(t: Tree, b: Path, text: string, p: Path, q: Path)
    requires WellFormed(t) && p in t && q in t && AtOrBelow(b, p) && AtOrBelow(b, q)
    requires KeyOf(text, b, p) == KeyOf(text, b, q)
    ensures p == q
  {
    var rp, rq := p[|b|..], q[|b|..];
    assert (text + Join(rp))[|text|..] == Join(rp) && (text + Join(rq))[|text|..] == Join(rq);
    assert forall c :: c in rp ==> c in p;
    assert forall c :: c in rq ==> c in q;
    JoinInjective(rp, rq);
    assert p == p[..|b|] + rp && q == q[..|b|] + rq;
  }

  /** Taking one file off the frontier adds its key if it matches. */
  lemma CollectFile(t: Tree, b: Path, text: string, f: Filter, frontier: set<Path>, keys: seq<string>, c: Path)
    requires WellFormed(t) && Frontier(t, b, frontier) && c in frontier && t[c].File?
    requires Collected(t, b, text, f, frontier, keys)
    ensures var k := KeyOf(text, b, c);
            Collected(t, b, text, f, frontier - {c}, if f.matches(k) then keys + [k] else keys)
  {
    CloseFile(t, b, frontier, c);
    var k := KeyOf(text, b, c);
    var keys' := if f.matches(k) then keys + [k] else keys;
    if k in keys {
      var q :| Found(t, b, text, f, frontier, q, k);
      KeyOfInjective(t, b, text, c, q);
      assert false;
    }
    forall k'
      ensures k' in keys' <==> exists q :: Found(t, b, text, f, frontier - {c}, q, k')
    {
      if k' in keys {
        var q :| Found(t, b, text, f, frontier, q, k');
        assert Found(t, b, text, f, frontier - {c}, q, k');
      }
      if f.matches(k) { assert Found(t, b, text, f, frontier - {c}, c, k); }
      if q :| Found(t, b, text, f, frontier - {c}, q, k') {
        if q != c { assert Found(t, b, text, f, frontier, q, k'); }
      }
    }
  }

  lemma SameOpenCollected(t: Tree, b: Path, text: string, f: Filter, a: set<Path>, c: set<Path>, keys: seq<string>)
    requires Collected(t, b, text, f, a, keys)
    requires forall q :: q in t && t[q].File? ==> (OpenAt(a, q) <==> OpenAt(c, q))
    ensures Collected(t, b, text, f, c, keys)
  {
    forall k
      ensures k in keys <==> exists q :: Found(t, b, text, f, c, q, k)
    {
      if k in keys {
        var q :| Found(t, b, text, f, a, q, k);
        assert Found(t, b, text, f, c, q, k);
      }
      if q :| Found(t, b, text, f, c, q, k) {
        assert Found(t, b, text, f, a, q, k);
      }
    }
  }

  ghost predicate QueueOk(t: Tree, queue: seq<Path>) {
    && (forall i, j :: 0 <= i < j < |queue| ==> queue[i] != queue[j])
    && (forall d :: d in queue ==> IsDir(t, d))
  }

  /** Read one directory, entry by entry in whatever order the system returns them. */
  method ReadDirectory(t: Tree, b: Path, text: string, f: Filter, d: Path, waiting: seq<Path>, found: seq<string>)
      returns (queue: seq<Path>, keys: seq<string>)
    requires WellFormed(t) && QueueOk(t, waiting)
    requires SetOf(waiting) !! Children(t, d)
    requires Frontier(t, b, SetOf(waiting) + Children(t, d))
    requires Collected(t, b, text, f, SetOf(waiting) + Children(t, d), found)
    ensures QueueOk(t, queue) && Frontier(t, b, SetOf(queue))
    ensures Collected(t, b, text, f, SetOf(queue), keys)
    ensures SetOf(queue) <= SetOf(waiting) + Children(t, d)
  {
    queue, keys := waiting, found;
    var kids := Children(t, d);
    while kids != {}
      invariant kids <= Children(t, d) && SetOf(queue) !! kids
      invariant QueueOk(t, queue)
      invariant Frontier(t, b, SetOf(queue) + kids)
      invariant Collected(t, b, text, f, SetOf(queue) + kids, keys)
      invariant SetOf(queue) <= SetOf(waiting) + Children(t, d)
    {
      ghost var open := SetOf(queue) + kids;
      var entry :| entry in kids;
      kids := kids - {entry};
      if t[entry].File? {
        CollectFile(t, b, text, f, open, keys, entry);
        CloseFile(t, b, open, entry);
        assert open - {entry} == SetOf(queue) + kids;
        var k := KeyOf(text, b, entry);
        if f.matches(k) { keys := keys + [k]; }
      } else {
        ghost var shorter := queue;
        queue := queue + [entry];
        assert SetOf(queue) == SetOf(shorter) + {entry};
        assert open == SetOf(queue) + kids;
      }
    }
    assert SetOf(queue) + kids == SetOf(queue);
  }

  lemma LessUnexplored(t: Tree, before: set<Path>, d: Path, next: set<Path>)
    requires d in t && d in before && !OpenAt(next, d)
    requires forall q :: q in t && q != d ==> (OpenAt(before, q) <==> OpenAt(next, q))
    ensures Unexplored(t, next) < Unexplored(t, before)
  {
    assert AtOrBelow(d, d);
    assert d in Unexplored(t, before) && d !in Unexplored(t, next);
  }

  /** The breadth-first walk over a queue of directories. */
  method Walk(t: Tree, b: Path, text: string, f: Filter) returns (keys: seq<string>)
    requires WellFormed(t) && IsDir(t, b)
    ensures Distinct(keys)
    ensures forall k :: k in keys <==> k in Produced(t, b, text, f)
  {
    keys := [];
    var queue: seq<Path> := [b];
    assert Collected(t, b, text, f, {b}, keys) by {
      forall q | q in t && AtOrBelow(b, q)
        ensures OpenAt({b}, q)
      {}
    }
    assert SetOf(queue) == {b};
    while queue != []
      invariant QueueOk(t, queue) && Frontier(t, b, SetOf(queue))
      invariant Collected(t, b, text, f, SetOf(queue), keys)
      decreases Unexplored(t, SetOf(queue))
    {
      ghost var before := SetOf(queue);
      var d := queue[0];
      queue := queue[1..];
      Expand(t, b, before, d);
      ghost var next := before - {d} + Children(t, d);
      assert before - {d} == SetOf(queue);
      LessUnexplored(t, before, d, next);
      SameOpenCollected(t, b, text, f, before, next, keys);
      assert SetOf(queue) !! Children(t, d) by {
        forall c | c in Children(t, d)
          ensures c !in before
        {
          assert AtOrBelow(d, c);
        }
      }
      queue, keys := ReadDirectory(t, b, text, f, d, queue, keys);
      assert Unexplored(t, SetOf(queue)) <= Unexplored(t, next);
    }
    forall k
      ensures k in keys <==> k in Produced(t, b, text, f)
    {
      if k in keys {
        var q :| Found(t, b, text, f, SetOf(queue), q, k);
      }
      if k in Produced(t, b, text, f) {
        var p :| p in t && t[p].File? && AtOrBelow(b, p) && f.matches(KeyOf(text, b, p)) && k == KeyOf(text, b, p);
        assert Found(t, b, text, f, SetOf(queue), p, k);
      }
    }
  }

  /** `list`: start where the hint says, walk, sort. */
  method List(t: Tree, f: Filter) returns (r: Result<seq<string>>)
    requires WellFormed(t)
    ensures r == ListResult(t, f)
  {
    if f.hint.Under? && !HintAllowed(f.hint.prefix) { return Err(InvalidInput); }
    var text := StartText(HintText(f));
    var b := StartPath(text);
    match ProbeDir(t, b, text != "" && text == HintText(f))
    case Fails => return Err(Storage);
    case Missing => return Ok([]);
    case Present =>
      var found := Walk(t, b, text, f);
      var sorted := SortKeys(found);
      assert (set k | k in found) == Produced(t, b, text, f);
      ListingIs(sorted, Produced(t, b, text, f));
      return Ok(sorted);
  }

  // ---------------------------------------------------------------------------
  // When the hint-narrowed walk lists exactly the matching keys
  // ---------------------------------------------------------------------------

  /** The start text has no empty component: no doubled separator. */
  predicate Canonical(text: string) {
    "" !in Split(text)[..|Split(text)| - 1]
  }

  lemma {:induction false} NonEmptyAppend(cs: seq<string>)
    requires "" !in cs
    ensures NonEmpty(cs + [""]) == cs
  {
    if cs == [] {
      assert cs + [""] == [""];
      assert [""][1..] == [];
    } else {
      assert (cs + [""])[1..] == cs[1..] + [""];
      assert (cs + [""])[0] == cs[0] && cs[0] in cs;
      NonEmptyAppend(cs[1..]);
    }
  }

  /** A directory text is its components, each closed by a separator. */
  lemma DirectoryText(text: string)
    requires DirectoryPrefix(text)
    ensures var cs := Split(text)[..|Split(text)| - 1];
            Split(text) == cs + [""] && text == AsDirectory(cs) && SeparatorFree(cs)
    ensures Canonical(text) ==> StartPath(text) == Split(text)[..|Split(text)| - 1]
  {
    var cs := Split(text)[..|Split(text)| - 1];
    DirectoryPrefixSplit(text);
    assert Split(text) == cs + [""];
    JoinSplit(text);
    if cs == [] {
      assert Join([""]) == "";
    } else {
      JoinConcat(cs, [""]);
      assert Join([""]) == "";
      assert Join(cs) + [SEPARATOR] + "" == Join(cs) + [SEPARATOR];
    }
    assert forall c :: c in cs ==> c in Split(text);
    if Canonical(text) { NonEmptyAppend(cs); }
  }

  lemma {:induction false} TrimPrefix(cs: seq<string>)
    ensures var m := |TrimEmpties(cs)|; m <= |cs| && TrimEmpties(cs) == cs[..m] && (m < |cs| ==> cs[m] == "")
  {
    if cs != [] && cs[|cs| - 1] == "" {
      TrimPrefix(cs[..|cs| - 1]);
      var m := |TrimEmpties(cs[..|cs| - 1])|;
      assert cs[..|cs| - 1][..m] == cs[..m];
    }
  }

  lemma SplitSeparator()
    ensures Split([SEPARATOR]) == ["", ""]
  {
    assert [SEPARATOR][1..] == "";
  }

  lemma GlueSeparator(head: seq<string>)
    requires head != []
    ensures Glue(head, ["", ""]) == head + [""]
  {
    assert head[|head| - 1] + "" == head[|head| - 1];
    assert ["", ""][1..] == [""];
    assert head == head[..|head| - 1] + [head[|head| - 1]];
  }

  lemma DirectoryOf(head: seq<string>)
    requires head != [] && SeparatorFree(head)
    ensures Split(AsDirectory(head)) == head + [""] && DirectoryPrefix(AsDirectory(head))
  {
    var text := Join(head) + [SEPARATOR];
    assert AsDirectory(head) == text && text[|text| - 1..] == [SEPARATOR];
    SplitConcat(Join(head), [SEPARATOR]);
    SplitJoin(head);
    SplitSeparator();
    GlueSeparator(head);
  }

  lemma SplitAt(cs: seq<string>, m: nat)
    requires m < |cs|
    ensures Join(cs) == AsDirectory(cs[..m]) + Join(cs[m..])
  {
    var a, b := cs[..m], cs[m..];
    assert a + b == cs;
    if m > 0 {
      JoinConcat(a, b);
    } else {
      assert b == cs && "" + Join(b) == Join(b);
    }
  }

  lemma JoinAfterEmpty(cs: seq<string>)
    requires |cs| > 1 && cs[0] == ""
    ensures StartsWith(Join(cs), [SEPARATOR])
  {
    assert Join(cs) == "" + [SEPARATOR] + Join(cs[1..]);
  }

  /** The start text is a directory prefix of the hint, and what remains of the hint is
      either empty, a last component, or begins with a separator. */
  /** Where the text of a hint that is not a directory prefix is cut. */
  lemma CutHint(hint: string) returns (m: nat)
    requires !DirectoryPrefix(hint)
    ensures var cs := Split(hint);
            && m < |cs| && StartText(hint) == AsDirectory(cs[..m])
            && hint == StartText(hint) + Join(cs[m..])
            && (m < |cs| - 1 ==> cs[m] == "")
  {
    var cs := Split(hint);
    var dirs := cs[..|cs| - 1];
    TrimPrefix(dirs);
    m := |TrimEmpties(dirs)|;
    assert dirs[..m] == cs[..m];
    JoinSplit(hint);
    SplitAt(cs, m);
  }

  lemma StartTextPrefix(hint: string)
    ensures var text := StartText(hint);
            && DirectoryPrefix(text) && StartsWith(hint, text)
            && (DirectoryPrefix(hint) ==> text == hint)
            && (!DirectoryPrefix(hint) ==>
                  StartsWith(hint[|text|..], [SEPARATOR]) ||
                  hint[|text|..] == Split(hint)[|Split(hint)| - 1])
            && (!DirectoryPrefix(hint) ==> forall c :: c in Split(text) ==> c == "" || c in Split(hint))
  {
    if !DirectoryPrefix(hint) {
      var cs := Split(hint);
      var m := CutHint(hint);
      var text, rest := StartText(hint), Join(cs[m..]);
      JoinSplit(hint);
      assert hint[..|text|] == text && hint[|text|..] == rest;
      if m > 0 {
        DirectoryOf(cs[..m]);
        assert forall c :: c in cs[..m] ==> c in cs;
      }
      if m < |cs| - 1 {
        JoinAfterEmpty(cs[m..]);
      } else {
        assert cs[m..] == [cs[|cs| - 1]];
      }
    }
  }

  /** Whether a walk under `hint` can be trusted: checkable on the hint alone. */
  predicate HintExact(hint: string) {
    var text := StartText(hint);
    Canonical(text) || (|text| <= |hint| && StartsWith(hint[|text|..], [SEPARATOR]))
  }

  lemma JoinHead(q: Path)
    requires GoodNames(q) && q != []
    ensures Join(q) != "" && Join(q)[0] != SEPARATOR && !StartsWith(Join(q), [SEPARATOR])
  {
    assert q[0] in q;
    assert Join(q)[0] == q[0][0];
    assert q[0][0] in q[0];
    assert Join(q) != "" && Join(q)[..1][0] == q[0][0];
  }

  lemma EmptyComponentStays(text: string, rest: string)
    requires !Canonical(text)
    ensures "" in Split(text + rest)
  {
    SplitConcat(text, rest);
    var front := Split(text)[..|Split(text)| - 1];
    assert "" in front;
    var i :| 0 <= i < |front| && front[i] == "";
    assert Glue(Split(text), Split(rest))[i] == "";
  }

  /** No file key lies under a text with an empty component. */
  lemma NoKeysUnderEmpty(text: string, p: Path)
    requires !Canonical(text) && GoodNames(p)
    ensures !StartsWith(Join(p), text)
  {
    assert !GoodName("") && "" !in p;
    GoodJoin(p);
    if p == [] {
      assert Canonical("");
    } else {
      SplitJoin(p);
      if StartsWith(Join(p), text) {
        assert Join(p) == text + Join(p)[|text|..];
        EmptyComponentStays(text, Join(p)[|text|..]);
      }
    }
  }

  /** With a canonical start, keys under the start text are files under the start path. */
  lemma UnderRoot(p: Path)
    requires GoodNames(p) && p != []
    ensures StartsWith(Join(p), "") && AtOrBelow([], p) && KeyOf("", [], p) == Join(p)
  {
    assert Join(p)[..0] == "";
    assert p[0..] == p && "" + Join(p) == Join(p);
  }

  lemma UnderDirectory(b: Path, p: Path)
    requires SeparatorFree(b) && b != [] && SeparatorFree(p) && p != []
    ensures StartsWith(Join(p), Join(b) + [SEPARATOR]) <==> AtOrBelow(b, p) && p != b
  {
    SplitJoin(p);
    SplitJoin(b);
    ContainsIsAbove(Join(b), Join(p));
  }

  lemma KeyUnderDirectory(b: Path, p: Path)
    requires b != [] && AtOrBelow(b, p) && p != b
    ensures KeyOf(Join(b) + [SEPARATOR], b, p) == Join(p)
  {
    assert p == b + p[|b|..];
    JoinConcat(b, p[|b|..]);
  }

  lemma UnderStart(text: string, p: Path)
    requires DirectoryPrefix(text) && Canonical(text) && GoodNames(p) && p != []
    ensures StartsWith(Join(p), text) <==> AtOrBelow(StartPath(text), p) && p != StartPath(text)
    ensures AtOrBelow(StartPath(text), p) && p != StartPath(text) ==> KeyOf(text, StartPath(text), p) == Join(p)
  {
    DirectoryText(text);
    var b := StartPath(text);
    if b == [] {
      UnderRoot(p);
    } else {
      GoodJoin(p);
      UnderDirectory(b, p);
      if AtOrBelow(b, p) && p != b { KeyUnderDirectory(b, p); }
    }
  }

  /** Every match lies textually under the start of the walk. */
  lemma MatchesUnderStart(f: Filter, k: string)
    requires HintSound(f) && f.matches(k)
    ensures StartsWith(k, StartText(HintText(f)))
  {
    var h := HintText(f);
    var text := StartText(h);
    StartTextPrefix(h);
    assert StartsWith(k, h) && h == text + h[|text|..];
    StartsWithShorter(k, text, h[|text|..]);
  }

  lemma FaithfulCanonical(t: Tree, f: Filter, b: Path)
    requires WellFormed(t) && HintSound(f)
    requires Canonical(StartText(HintText(f))) && b == StartPath(StartText(HintText(f)))
    ensures IsDir(t, b) ==> Produced(t, b, StartText(HintText(f)), f) == FileKeys(t, f)
    ensures !IsDir(t, b) ==> FileKeys(t, f) == {}
  {
    var text := StartText(HintText(f));
    StartTextPrefix(HintText(f));
    forall p | p in t && t[p].File?
      ensures f.matches(Join(p)) ==> AtOrBelow(b, p) && p != b
      ensures AtOrBelow(b, p) && p != b ==> KeyOf(text, b, p) == Join(p) && IsDir(t, b)
    {
      UnderStart(text, p);
      if f.matches(Join(p)) { MatchesUnderStart(f, Join(p)); }
      if AtOrBelow(b, p) && p != b { AncestorsAreDirs(t, p, |b|); }
    }
  }

  lemma FaithfulOtherwise(t: Tree, f: Filter, b: Path)
    requires WellFormed(t) && HintSound(f) && HintExact(HintText(f))
    requires !Canonical(StartText(HintText(f))) && b == StartPath(StartText(HintText(f)))
    ensures FileKeys(t, f) == {}
    ensures IsDir(t, b) ==> Produced(t, b, StartText(HintText(f)), f) == {}
  {
    var h := HintText(f);
    var text := StartText(h);
    StartTextPrefix(h);
    forall p | p in t && t[p].File?
      ensures !f.matches(Join(p))
    {
      NoKeysUnderEmpty(text, p);
      if f.matches(Join(p)) { MatchesUnderStart(f, Join(p)); }
    }
    forall p | p in t && t[p].File? && AtOrBelow(b, p)
      ensures !f.matches(KeyOf(text, b, p))
    {
      NothingPast(text, h, b, p);
    }
  }

  /** For every tree and every hint-sound filter whose hint passes `HintExact`, `list`
      returns exactly the sorted keys of all matching files whenever it returns `Ok`. */
  lemma ListFaithful(t: Tree, f: Filter)
    requires WellFormed(t) && HintSound(f) && HintExact(HintText(f))
    ensures ListResult(t, f).Ok? ==> ListResult(t, f).value == Listing(FileKeys(t, f))
  {
    var text := StartText(HintText(f));
    if Canonical(text) {
      FaithfulCanonical(t, f, StartPath(text));
    } else {
      FaithfulOtherwise(t, f, StartPath(text));
    }
    EmptyListing0();
  }

  /** What lets a listing start: a hint that is a relative path without backslash, `.` or
      `..`, and no file in the way of the start directory, nor in its place where the hint
      itself names it. */
  ghost predicate Listable(t: Tree, f: Filter) {
    var h := HintText(f);
    var start := StartPath(StartText(h));
    && (h != "" ==> h[0] != SEPARATOR) && BACKSLASH !in h && "." !in Split(h) && ".." !in Split(h)
    && forall p :: p in t && t[p].File? ==>
         !Above(p, start) && (p == start ==> h == "" || h[|h| - 1] != SEPARATOR)
  }

  lemma EndsInSeparator(h: string)
    ensures DirectoryPrefix(h) <==> h == "" || h[|h| - 1] == SEPARATOR
    ensures StartText(h) == h <==> DirectoryPrefix(h)
  {
    assert h != "" && h[|h| - 1] == SEPARATOR ==> h[|h| - 1..] == [SEPARATOR];
    assert EndsWith(h, [SEPARATOR]) ==> h[|h| - 1] == SEPARATOR;
    var text := AsDirectory(TrimEmpties(Split(h)[..|Split(h)| - 1]));
    assert text == "" || text[|text| - 1] == SEPARATOR;
  }

  lemma HintIsAllowed(h: string)
    ensures HintAllowed(h) <==>
            (h != "" ==> h[0] != SEPARATOR) && BACKSLASH !in h && "." !in Split(h) && ".." !in Split(h)
  {
    if h != "" { assert h[..1] == [h[0]]; }
  }

  lemma FileInTheWay(t: Tree, start: Path)
    ensures FileAbove(t, start) <==> exists p :: p in t && t[p].File? && Above(p, start)
  {
    if p :| p in t && t[p].File? && Above(p, start) { assert start[..|p|] == p; }
    if FileAbove(t, start) {
      var n :| 0 <= n < |start| && start[..n] in t && t[start[..n]].File?;
      assert Above(start[..n], start);
    }
  }

  /** The exact condition for a listing not to fail, whatever its hint. */
  lemma ListSucceeds(t: Tree, f: Filter)
    requires WellFormed(t)
    ensures ListResult(t, f).Ok? <==> Listable(t, f)
    ensures ListResult(t, f) == Err(InvalidInput) <==> f.hint.Under? && !HintAllowed(f.hint.prefix)
  {
    var h := HintText(f);
    var start := StartPath(StartText(h));
    EndsInSeparator(h);
    HintIsAllowed(h);
    FileInTheWay(t, start);
    if h == "" { assert start == []; }
  }

  /** So under an exact hint a listing is the sorted listing of all matching files, the
      empty one where there are none, wherever no file is in its way. */
  lemma ListComplete(t: Tree, f: Filter)
    requires WellFormed(t) && HintSound(f) && HintExact(HintText(f)) && Listable(t, f)
    ensures ListResult(t, f) == Ok(Listing(FileKeys(t, f)))
    ensures !IsDir(t, StartPath(StartText(HintText(f)))) ==> FileKeys(t, f) == {} && ListResult(t, f) == Ok([])
  {
    ListSucceeds(t, f);
    ListFaithful(t, f);
    EmptyListing0();
    if !IsDir(t, StartPath(StartText(HintText(f)))) { NothingToList(t, f); }
  }

  lemma NothingToList(t: Tree, f: Filter)
    requires WellFormed(t) && HintSound(f) && HintExact(HintText(f))
    requires !IsDir(t, StartPath(StartText(HintText(f))))
    ensures FileKeys(t, f) == {}
  {
    var text := StartText(HintText(f));
    if Canonical(text) {
      FaithfulCanonical(t, f, StartPath(text));
    } else {
      FaithfulOtherwise(t, f, StartPath(text));
    }
  }

  lemma EmptyListing0()
    ensures Listing({}) == []
  {}

  lemma NothingPast(text: string, h: string, b: Path, p: Path)
    requires StartsWith(h, text) && StartsWith(h[|text|..], [SEPARATOR])
    requires GoodNames(p) && AtOrBelow(b, p)
    ensures !StartsWith(KeyOf(text, b, p), h)
  {
    var q := p[|b|..];
    assert forall c :: c in q ==> c in p;
    var k := KeyOf(text, b, p);
    assert k[|text|..] == Join(q);
    assert h[|text|..][0] == SEPARATOR && h[|text|] == SEPARATOR;
    assert StartsWith(k, h) ==> k[..|h|][|text|] == SEPARATOR;
    if q != [] { JoinHead(q); }
    assert |k| > |text| ==> k[|text|] == Join(q)[0];
  }

  lemma OneFileTree(b: Path, name: string) returns (t: Tree)
    requires GoodNames(b + [name])
    ensures WellFormed(t) && IsDir(t, b) && !FileAbove(t, b)
    ensures b + [name] in t && t[b + [name]].File?
  {
    var root: Tree := map[[] := Dir];
    var p := b + [name];
    EmptyTree(root, p);
    PutKeepsWellFormed(root, p, []);
    t := PutFile(root, p, []).0;
    assert p[..|b|] == b;
    DirsReach(root, p, b, []);
    FileHasNoFileAbove(t, b);
  }

  lemma EmptyTree(root: Tree, p: Path)
    requires root == map[[] := Dir] && p != []
    ensures WellFormed(root) && !FileAbove(root, p) && !IsDir(root, p)
  {}

  lemma DirsReach(t: Tree, p: Path, b: Path, data: Bytes)
    requires Above(b, p) && IsDir(t, []) && !FileAbove(t, p) && !IsDir(t, p)
    ensures var t' := PutFile(t, p, data).0;
            IsDir(t', b) && p in t' && t'[p] == File(data)
  {
    WithDirsAt(t, p, b);
    assert b in t ==> p[..|b|] in t;
  }

  /** No file of any tree has a key starting with such a hint. */
  lemma NothingMatches(t: Tree, hint: string)
    requires WellFormed(t) && HintAllowed(hint) && !HintExact(hint)
    ensures FileKeys(t, PrefixFilter(hint)) == {}
  {
    var text := StartText(hint);
    StartTextPrefix(hint);
    forall q | q in t
      ensures !StartsWith(Join(q), hint)
    {
      NoKeysUnderEmpty(text, q);
      if StartsWith(Join(q), hint) { MatchesUnderStart(PrefixFilter(hint), Join(q)); }
    }
  }

  /** The other hints do go wrong: some tree with one file makes the walk report a key
      that no file has. */
  lemma ListUnfaithful(hint: string) returns (t: Tree)
    requires HintAllowed(hint) && !HintExact(hint)
    ensures WellFormed(t) && HintSound(PrefixFilter(hint))
    ensures var r := ListResult(t, PrefixFilter(hint));
            r.Ok? && FileKeys(t, PrefixFilter(hint)) == {} && r.value != []
  {
    var f := PrefixFilter(hint);
    var text := StartText(hint);
    var b := StartPath(text);
    StartTextPrefix(hint);
    var name := if text == hint then "x" else hint[|text|..];
    StartNames(hint, name);
    t := OneFileTree(b, name);
    var p := b + [name];
    assert p[|b|..] == [name] && Join([name]) == name;
    var k := KeyOf(text, b, p);
    assert k == text + name && StartsWith(k, hint) by {
      if text != hint { assert hint == text + name; } else { assert k[..|hint|] == hint; }
    }
    assert k in Produced(t, b, text, f);
    NothingMatches(t, hint);
    assert k in Listing(Produced(t, b, text, f));
  }

  lemma {:induction false} NonEmptyMembers(cs: seq<string>)
    ensures forall c :: c in NonEmpty(cs) ==> c in cs && c != ""
  {
    if cs != [] { NonEmptyMembers(cs[1..]); }
  }

  lemma StartNames(hint: string, name: string)
    requires HintAllowed(hint) && !HintExact(hint) && StartsWith(hint, StartText(hint))
    requires name == if StartText(hint) == hint then "x" else hint[|StartText(hint)|..]
    ensures GoodNames(StartPath(StartText(hint)) + [name])
  {
    var text := StartText(hint);
    StartTextPrefix(hint);
    JoinSplit(hint);
    NonEmptyMembers(Split(text));
    JoinSplit(text);
    if text == hint {
      assert GoodName("x");
    } else {
      var cs := Split(hint);
      assert cs[|cs| - 1] in cs;
      LastComponent(hint);
    }
  }

  lemma LastComponent(hint: string)
    requires !DirectoryPrefix(hint)
    ensures Split(hint)[|Split(hint)| - 1] != ""
  {
    var front, last := hint[..|hint| - 1], hint[|hint| - 1..];
    assert hint == front + last && SEPARATOR !in last;
    SplitConcat(front, last);
    SplitSeparatorFree(last);
  }

  /** The exact condition: a prefix hint lists correctly on every tree if and only if it
      passes `HintExact`. */
  lemma HintsThatList(hint: string)
    requires HintAllowed(hint)
    ensures HintExact(hint) <==>
            forall t: Tree :: WellFormed(t) && ListResult(t, PrefixFilter(hint)).Ok? ==>
              ListResult(t, PrefixFilter(hint)).value == Listing(FileKeys(t, PrefixFilter(hint)))
  {
    var f := PrefixFilter(hint);
    if HintExact(hint) {
      forall t: Tree | WellFormed(t) && ListResult(t, f).Ok?
        ensures ListResult(t, f).value == Listing(FileKeys(t, f))
      {
        ListFaithful(t, f);
      }
    } else {
      var t := ListUnfaithful(hint);
      EmptyListing0();
    }
  }
}
