/** The filesystem backend: a tree of directories and files that behaves like a flat
    map of keys, except where keys and directories collide. */
module FsTree {
  import opened Keys
  import opened Stores

  type Path = seq<string>

  datatype Entry = File(data: Bytes) | Dir

  /** The root directory's contents, by path; the root itself is the empty path. */
  type Tree = map<Path, Entry>

  predicate GoodName(c: string) {
    GoodComponent(c) && SEPARATOR !in c
  }

  predicate GoodNames(p: Path) {
    forall c :: c in p ==> GoodName(c)
  }

  function Parent(p: Path): Path
    requires p != []
  {
    p[..|p| - 1]
  }

  ghost predicate IsDir(t: Tree, p: Path) {
    p in t && t[p].Dir?
  }

  ghost predicate WellFormed(t: Tree) {
    && IsDir(t, [])
    && (forall p :: p in t ==> GoodNames(p))
    && (forall p :: p in t && p != [] ==> IsDir(t, Parent(p)))
  }

  /** `a` is a proper ancestor path of `p`. */
  predicate Above(a: Path, p: Path) {
    |a| < |p| && p[..|a|] == a
  }

  predicate FileAbove(t: Tree, p: Path) {
    exists n :: 0 <= n < |p| && p[..n] in t && t[p[..n]].File?
  }

  lemma {:induction false} AncestorsAreDirs(t: Tree, p: Path, n: nat)
    requires WellFormed(t) && p in t && n < |p|
    ensures IsDir(t, p[..n])
    decreases |p| - n
  {
    if n == |p| - 1 {
      assert p[..n] == Parent(p);
    } else {
      AncestorsAreDirs(t, p, n + 1);
      assert p[..n] == Parent(p[..n + 1]);
    }
  }

  // ---------------------------------------------------------------------------
  // Operations
  // ---------------------------------------------------------------------------

  ghost function WithDirs(t: Tree, p: Path): Tree {
    t + map q | q in (set n | 0 <= n < |p| :: p[..n]) && q !in t :: Dir
  }

  /** Storing a file: the missing directories appear, then the file; a file among the
      ancestors or a directory at the path makes it fail with nothing changed. */
  ghost function PutFile(t: Tree, p: Path, data: Bytes): (Tree, bool) {
    if FileAbove(t, p) || IsDir(t, p) then (t, false)
    else (WithDirs(t, p)[p := File(data)], true)
  }

  /** Removing a file: a missing file counts as removed, but a directory at the path or
      a file among the ancestors is an error. */
  ghost function RemoveFile(t: Tree, p: Path): (Tree, bool) {
    if FileAbove(t, p) || IsDir(t, p) then (t, false) else (t - {p}, true)
  }

  ghost function PutFiles(t: Tree, blobs: seq<(string, Bytes)>, metas: seq<string>): (Tree, Result<seq<string>>)
    decreases |blobs|
  {
    if blobs == [] then (t, Ok(metas))
    else
      var (t1, ok) := PutFile(t, Split(blobs[0].0), blobs[0].1);
      if ok then PutFiles(t1, blobs[1..], metas + [blobs[0].0]) else (t1, Err(Storage))
  }

  ghost function RemoveFiles(t: Tree, ks: seq<string>, done: seq<string>, failed: seq<string>): (Tree, Result<Unit>)
    decreases |ks|
  {
    if ks == [] then (t, if failed == [] then Ok(Unit) else Err(Batch(done, failed)))
    else
      var (t1, ok) := RemoveFile(t, Split(ks[0]));
      if ok then RemoveFiles(t1, ks[1..], done + [ks[0]], failed)
      else RemoveFiles(t1, ks[1..], done, failed + [ks[0]])
  }

  /** `get` opens whatever is at the path: a directory opens but cannot be read. */
  function OpenFile(t: Tree, k: string): Result<Stream> {
    if !Valid(k) then Err(InvalidInput)
    else if Split(k) !in t then Err(NotFound(k))
    else
      match t[Split(k)]
      case File(data) => Ok(Delivers(data))
      case Dir => Ok(FailsAtEnd)
  }

  function IsFile(t: Tree, k: string): Result<bool> {
    if !Valid(k) then Err(InvalidInput) else Ok(Split(k) in t && t[Split(k)].File?)
  }

  lemma PutTurn(t: Tree, blobs: seq<(string, Bytes)>, i: nat, metas: seq<string>)
    requires i < |blobs|
    ensures PutFiles(t, blobs[i..], metas)
         == (var (t1, ok) := PutFile(t, Split(blobs[i].0), blobs[i].1);
             if ok then PutFiles(t1, blobs[i + 1..], metas + [blobs[i].0]) else (t1, Err(Storage)))
  {
    assert blobs[i..][0] == blobs[i] && blobs[i..][1..] == blobs[i + 1..];
  }

  class FsBlobStore {
    var tree: Tree

    constructor ()
      ensures tree == map[[] := Dir]
    {
      tree := map[[] := Dir];
    }

    /** `create_dir_all`: top-down, stopping at the first ancestor that is a file. */
    method CreateDirAll(p: Path) returns (ok: bool)
      requires WellFormed(tree)
      modifies this
      ensures ok == !FileAbove(old(tree), p)
      ensures tree == if ok then WithDirs(old(tree), p) else old(tree)
    {
      ghost var start := tree;
      var n := 0;
      while n < |p|
        invariant n <= |p|
        invariant !FileAbove(start, p[..n])
        invariant tree == WithDirs(start, p[..n])
      {
        var q := p[..n];
        MoreDirs(start, p, n);
        if q in tree {
          if tree[q].File? {
            FileHasNoFileAbove(start, q);
            return false;
          }
        } else {
          tree := tree[q := Dir];
        }
        n := n + 1;
      }
      assert p[..n] == p;
      return true;
    }

    /** The missing directories, then the file. */
    method WriteFile(key: string, data: Bytes) returns (ok: bool)
      requires WellFormed(tree) && Valid(key)
      modifies this
      ensures WellFormed(tree) && (tree, ok) == PutFile(old(tree), Split(key), data)
    {
      var path := Split(key);
      ghost var before := tree;
      ValidPath(key);
      PutKeepsWellFormed(tree, path, data);
      ok := CreateDirAll(path);
      if !ok { return; }
      if path in tree && tree[path].Dir? {
        DirAtPath(before, path);
        return false;
      }
      assert !IsDir(before, path);
      tree := tree[path := File(data)];
    }

    /** `put`: the whole batch is validated, then blobs are stored one by one. */
    method Put(blobs: seq<(string, Bytes)>) returns (r: Result<seq<string>>)
      requires WellFormed(tree)
      modifies this
      ensures WellFormed(tree)
      ensures (exists b :: b in blobs && !Valid(b.0)) ==> r == Err(InvalidInput) && tree == old(tree)
      ensures (forall b :: b in blobs ==> Valid(b.0)) ==> (tree, r) == PutFiles(old(tree), blobs, [])
    {
      for i := 0 to |blobs|
        invariant forall j :: 0 <= j < i ==> Valid(blobs[j].0)
      {
        if !Valid(blobs[i].0) { return Err(InvalidInput); }
      }
      var metas: seq<string> := [];
      var i := 0;
      while i < |blobs|
        invariant i <= |blobs|
        invariant WellFormed(tree)
        invariant PutFiles(tree, blobs[i..], metas) == PutFiles(old(tree), blobs, [])
      {
        PutTurn(tree, blobs, i, metas);
        var ok := WriteFile(blobs[i].0, blobs[i].1);
        if !ok { return Err(Storage); }
        metas := metas + [blobs[i].0];
        i := i + 1;
      }
      assert blobs[i..] == [];
      return Ok(metas);
    }

    /** `delete`: every key is tried; failures are collected. */
    method Delete(ks: seq<string>) returns (r: Result<Unit>)
      requires WellFormed(tree)
      modifies this
      ensures WellFormed(tree)
      ensures !AllValid(ks) ==> r == Err(InvalidInput) && tree == old(tree)
      ensures AllValid(ks) ==> (tree, r) == RemoveFiles(old(tree), ks, [], [])
    {
      for i := 0 to |ks|
        invariant forall j :: 0 <= j < i ==> Valid(ks[j])
      {
        if !Valid(ks[i]) { return Err(InvalidInput); }
      }
      var done: seq<string>, failed: seq<string> := [], [];
      var i := 0;
      while i < |ks|
        invariant i <= |ks|
        invariant WellFormed(tree)
        invariant RemoveFiles(tree, ks[i..], done, failed) == RemoveFiles(old(tree), ks, [], [])
      {
        var path := Split(ks[i]);
        RemoveKeepsWellFormed(tree, path);
        assert ks[i..][0] == ks[i] && ks[i..][1..] == ks[i + 1..];
        if path in tree && tree[path].File? {
          FileHasNoFileAbove(tree, path);
          tree := tree - {path};
          done := done + [ks[i]];
        } else if path in tree || FileAbove(tree, path) {
          failed := failed + [ks[i]];
        } else {
          assert tree - {path} == tree;
          done := done + [ks[i]];
        }
        i := i + 1;
      }
      assert ks[i..] == [];
      return if failed == [] then Ok(Unit) else Err(Batch(done, failed));
    }

    method Get(k: string) returns (r: Result<Stream>)
      ensures r == OpenFile(tree, k)
    {
      if !Valid(k) { return Err(InvalidInput); }
      var path := Split(k);
      if path !in tree { return Err(NotFound(k)); }
      match tree[path]
      case File(data) => return Ok(Delivers(data));
      case Dir => return Ok(FailsAtEnd);
    }

    method Exists(k: string) returns (r: Result<bool>)
      ensures r == IsFile(tree, k)
    {
      if !Valid(k) { return Err(InvalidInput); }
      return Ok(Split(k) in tree && tree[Split(k)].File?);
    }
  }

  lemma ValidPath(k: string)
    requires Valid(k)
    ensures GoodNames(Split(k)) && Join(Split(k)) == k
  {
    ValidMeaning(k);
    JoinSplit(k);
  }

  lemma WithDirsAt(t: Tree, p: Path, q: Path)
    ensures q in WithDirs(t, p) <==> q in t || Above(q, p)
    ensures q in WithDirs(t, p) ==> WithDirs(t, p)[q] == if q in t then t[q] else Dir
  {
    if Above(q, p) { assert q == p[..|q|]; }
  }

  /** Nothing is missing above a path that exists. */
  lemma NoMissingDirs(t: Tree, q: Path)
    requires WellFormed(t) && q in t
    ensures WithDirs(t, q) == t
  {
    forall o
      ensures o in WithDirs(t, q) <==> o in t
      ensures o in t ==> WithDirs(t, q)[o] == t[o]
    {
      WithDirsAt(t, q, o);
      if Above(o, q) { AncestorsAreDirs(t, q, |o|); }
    }
  }

  lemma NextDir(t: Tree, p: Path, n: nat)
    requires n < |p|
    ensures var made := WithDirs(t, p[..n]);
            WithDirs(t, p[..n + 1]) == if p[..n] in t then made else made[p[..n] := Dir]
  {
    var q, q' := p[..n], p[..n + 1];
    var made := WithDirs(t, q);
    var next := if q in t then made else made[q := Dir];
    forall o
      ensures o in WithDirs(t, q') <==> o in next
      ensures o in next ==> WithDirs(t, q')[o] == next[o]
    {
      WithDirsAt(t, q, o);
      WithDirsAt(t, q', o);
      AboveNext(o, p, n);
    }
  }

  lemma AboveNext(o: Path, p: Path, n: nat)
    requires n < |p|
    ensures Above(o, p[..n + 1]) <==> Above(o, p[..n]) || o == p[..n]
  {
    if |o| <= n { assert p[..n + 1][..|o|] == p[..n][..|o|] == p[..|o|]; }
  }

  lemma NoFileUpTo(t: Tree, p: Path, n: nat)
    requires n < |p| && !FileAbove(t, p[..n]) && (p[..n] in t ==> t[p[..n]].Dir?)
    ensures !FileAbove(t, p[..n + 1])
  {
    var q, q' := p[..n], p[..n + 1];
    forall m | 0 <= m <= n
      ensures q'[..m] == q[..m]
    {}
    assert q[..n] == q;
  }

  /** One more level of `create_dir_all`. */
  lemma MoreDirs(t: Tree, p: Path, n: nat)
    requires WellFormed(t) && n < |p| && !FileAbove(t, p[..n])
    ensures var q := p[..n];
            var made := WithDirs(t, q);
            && (q in made <==> q in t) && (q in made ==> made[q] == t[q])
            && (q in t && t[q].File? ==> made == t && FileAbove(t, p))
            && (!(q in t && t[q].File?) ==>
                  && !FileAbove(t, p[..n + 1])
                  && WithDirs(t, p[..n + 1]) == if q in t then made else made[q := Dir])
  {
    var q := p[..n];
    WithDirsAt(t, q, q);
    if q in t && t[q].File? { NoMissingDirs(t, q); } else { NoFileUpTo(t, p, n); }
    NextDir(t, p, n);
  }

  lemma DirAtPath(t: Tree, p: Path)
    requires p in WithDirs(t, p) && WithDirs(t, p)[p].Dir? && !FileAbove(t, p)
    ensures IsDir(t, p) && WithDirs(t, p)[p] == t[p]
    ensures WellFormed(t) ==> WithDirs(t, p) == t
  {
    WithDirsAt(t, p, p);
    if WellFormed(t) {
      forall q
        ensures q in WithDirs(t, p) <==> q in t
        ensures q in t ==> WithDirs(t, p)[q] == t[q]
      {
        WithDirsAt(t, p, q);
        if Above(q, p) {
          AncestorsAreDirs(t, p, |q|);
        }
      }
    }
  }

  lemma FileHasNoFileAbove(t: Tree, p: Path)
    requires WellFormed(t) && p in t
    ensures !FileAbove(t, p)
  {
    forall n | 0 <= n < |p|
      ensures IsDir(t, p[..n])
    {
      AncestorsAreDirs(t, p, n);
    }
  }

  lemma PutKeepsWellFormed(t: Tree, p: Path, data: Bytes)
    requires WellFormed(t) && GoodNames(p) && p != []
    ensures WellFormed(PutFile(t, p, data).0)
  {
    if !FileAbove(t, p) && !IsDir(t, p) {
      var t' := PutFile(t, p, data).0;
      forall q | q in t'
        ensures GoodNames(q) && (q != [] ==> IsDir(t', Parent(q)))
      {
        WithDirsAt(t, p, q);
        if q != [] {
          var a := Parent(q);
          WithDirsAt(t, p, a);
          if q !in t {
            assert Above(a, p) by { assert a == p[..|a|]; }
            assert p[..|a|] in t ==> !t[p[..|a|]].File?;
          } else if a == p {
            assert false;
          }
        }
      }
      WithDirsAt(t, p, []);
    }
  }

  lemma RemoveKeepsWellFormed(t: Tree, p: Path)
    requires WellFormed(t)
    ensures WellFormed(RemoveFile(t, p).0)
  {
    if !FileAbove(t, p) && !IsDir(t, p) {
      var t' := t - {p};
      forall q | q in t' && q != []
        ensures IsDir(t', Parent(q))
      {
        assert IsDir(t, Parent(q));
      }
    }
  }

  // ---------------------------------------------------------------------------
  // The flat map
  // ---------------------------------------------------------------------------

  /** What a caller sees: the blobs, plus the keys ever stored, whose directories stay. */
  datatype Flat = Flat(blobs: map<string, Bytes>, made: set<string>)

  /** Key `a` names a directory that key `b` lives in. */
  predicate Contains(a: string, b: string) {
    StartsWith(b, a + [SEPARATOR])
  }

  ghost predicate BeneathBlob(f: Flat, k: string) {
    exists k' :: k' in f.blobs && Contains(k', k)
  }

  ghost predicate NamesDirectory(f: Flat, k: string) {
    exists k' :: k' in f.made && Contains(k, k')
  }

  ghost predicate Collides(f: Flat, k: string) {
    BeneathBlob(f, k) || NamesDirectory(f, k)
  }

  ghost function FlatPut(f: Flat, k: string, data: Bytes): (Flat, bool) {
    if Collides(f, k) then (f, false) else (Flat(f.blobs[k := data], f.made + {k}), true)
  }

  ghost function FlatDelete(f: Flat, k: string): (Flat, bool) {
    if Collides(f, k) then (f, false) else (f.(blobs := f.blobs - {k}), true)
  }

  ghost predicate FlatValid(f: Flat) {
    (forall k :: k in f.blobs ==> Valid(k)) && (forall k :: k in f.made ==> Valid(k))
  }

  /** Files are exactly the blobs; directories are exactly the root and the ancestors of
      every key ever stored, whether or not it has been deleted since. */
  ghost predicate Refines(t: Tree, f: Flat) {
    FlatValid(f) && FilesAre(t, f.blobs) && FilesKeyed(t) && DirsAre(t, f.made)
  }

  ghost predicate FilesAre(t: Tree, blobs: map<string, Bytes>) {
    && (forall k :: Valid(k) ==> (k in blobs <==> Split(k) in t && t[Split(k)].File?))
    && (forall k :: k in blobs ==> Split(k) in t && t[Split(k)] == File(blobs[k]))
  }

  ghost predicate FilesKeyed(t: Tree) {
    forall p :: p in t && t[p].File? ==> Valid(Join(p)) && Split(Join(p)) == p
  }

  ghost predicate DirsAre(t: Tree, made: set<string>) {
    forall p :: IsDir(t, p) <==> p == [] || exists k :: k in made && Above(p, Split(k))
  }

  lemma {:induction false} JoinConcat(a: seq<string>, b: seq<string>)
    requires a != [] && b != []
    ensures Join(a + b) == Join(a) + [SEPARATOR] + Join(b)
  {
    if |a| == 1 {
      assert (a + b)[1..] == b;
    } else {
      assert (a + b)[1..] == a[1..] + b;
      JoinConcat(a[1..], b);
      assert a[0] + [SEPARATOR] + (Join(a[1..]) + [SEPARATOR] + Join(b))
           == a[0] + [SEPARATOR] + Join(a[1..]) + [SEPARATOR] + Join(b);
    }
  }

  lemma ContainedIsAbove(a: string, rest: string)
    ensures Above(Split(a), Split(a + ([SEPARATOR] + rest)))
  {
    SplitConcat(a, [SEPARATOR] + rest);
    assert ([SEPARATOR] + rest)[1..] == rest;
    var head, tail := Split(a), Split(rest);
    assert Split([SEPARATOR] + rest) == [""] + tail;
    assert head[|head| - 1] + "" == head[|head| - 1];
    assert Glue(head, [""] + tail) == head + tail;
    assert tail != [];
  }

  lemma AboveIsContained(a: string, b: string)
    requires Above(Split(a), Split(b))
    ensures Contains(a, b)
  {
    JoinSplit(a);
    JoinSplit(b);
    var n := |Split(a)|;
    var rest := Split(b)[n..];
    assert Split(b) == Split(a) + rest;
    JoinConcat(Split(a), rest);
    assert b == a + [SEPARATOR] + Join(rest);
    assert b[..|a| + 1] == a + [SEPARATOR];
  }

  /** Directory containment of keys is ancestry of their paths. */
  lemma ContainsIsAbove(a: string, b: string)
    ensures Contains(a, b) <==> Above(Split(a), Split(b))
  {
    if Contains(a, b) {
      var rest := b[|a| + 1..];
      assert b == a + ([SEPARATOR] + rest);
      ContainedIsAbove(a, rest);
    }
    if Above(Split(a), Split(b)) { AboveIsContained(a, b); }
  }

  lemma SplitInjective(a: string, b: string)
    ensures Split(a) == Split(b) <==> a == b
  {
    JoinSplit(a);
    JoinSplit(b);
  }

  /** The collision test on the tree is the collision test on keys. */
  lemma CollisionsAgree(t: Tree, f: Flat, k: string)
    requires Refines(t, f) && Valid(k)
    ensures FileAbove(t, Split(k)) <==> BeneathBlob(f, k)
    ensures IsDir(t, Split(k)) <==> NamesDirectory(f, k)
  {
    var p := Split(k);
    if FileAbove(t, p) {
      var n :| 0 <= n < |p| && p[..n] in t && t[p[..n]].File?;
      var k' := Join(p[..n]);
      assert Valid(k') && Split(k') == p[..n];
      assert Above(Split(k'), p);
      ContainsIsAbove(k', k);
      assert k' in f.blobs;
    }
    if BeneathBlob(f, k) {
      var k' :| k' in f.blobs && Contains(k', k);
      ContainsIsAbove(k', k);
      assert p[..|Split(k')|] == Split(k');
    }
    if IsDir(t, p) {
      var k' :| k' in f.made && Above(p, Split(k'));
      ContainsIsAbove(k, k');
    }
    if NamesDirectory(f, k) {
      var k' :| k' in f.made && Contains(k, k');
      ContainsIsAbove(k, k');
    }
  }

  /** The tree after a put, path by path. */
  lemma PutFileAt(t: Tree, p: Path, data: Bytes, q: Path)
    requires !FileAbove(t, p) && !IsDir(t, p)
    ensures var t' := PutFile(t, p, data).0;
            && (q in t' && t'[q].File? <==> (q in t && t[q].File?) || q == p)
            && (q in t' && t'[q].File? ==> t'[q] == if q == p then File(data) else t[q])
            && (IsDir(t', q) <==> IsDir(t, q) || Above(q, p))
  {
    WithDirsAt(t, p, q);
    assert Above(q, p) && q in t ==> p[..|q|] in t;
  }

  lemma FilesAfterPut(t: Tree, blobs: map<string, Bytes>, k: string, data: Bytes)
    requires Valid(k) && !FileAbove(t, Split(k)) && !IsDir(t, Split(k)) && FilesAre(t, blobs)
    ensures FilesAre(PutFile(t, Split(k), data).0, blobs[k := data])
  {
    forall k'
      ensures var t' := PutFile(t, Split(k), data).0;
              && (Split(k') in t' && t'[Split(k')].File? <==> (Split(k') in t && t[Split(k')].File?) || k' == k)
              && (Split(k') in t' && t'[Split(k')].File? ==>
                    t'[Split(k')] == if k' == k then File(data) else t[Split(k')])
    {
      SplitInjective(k, k');
      PutFileAt(t, Split(k), data, Split(k'));
    }
  }

  lemma KeyedAfterPut(t: Tree, k: string, data: Bytes)
    requires Valid(k) && !FileAbove(t, Split(k)) && !IsDir(t, Split(k)) && FilesKeyed(t)
    ensures FilesKeyed(PutFile(t, Split(k), data).0)
  {
    JoinSplit(k);
    forall q { PutFileAt(t, Split(k), data, q); }
  }

  lemma DirsAfterPut(t: Tree, made: set<string>, k: string, data: Bytes)
    requires !FileAbove(t, Split(k)) && !IsDir(t, Split(k)) && DirsAre(t, made)
    ensures DirsAre(PutFile(t, Split(k), data).0, made + {k})
  {
    var made' := made + {k};
    forall q
      ensures IsDir(PutFile(t, Split(k), data).0, q) <==> q == [] || exists k' :: k' in made' && Above(q, Split(k'))
    {
      PutFileAt(t, Split(k), data, q);
      if Above(q, Split(k)) { assert k in made'; }
      assert forall k' :: k' in made' <==> k' in made || k' == k;
    }
  }

  lemma PutRefines(t: Tree, f: Flat, k: string, data: Bytes)
    requires WellFormed(t) && Refines(t, f) && Valid(k)
    ensures var (t', ok) := PutFile(t, Split(k), data);
            var (f', ok') := FlatPut(f, k, data);
            ok == ok' && WellFormed(t') && Refines(t', f')
  {
    CollisionsAgree(t, f, k);
    ValidPath(k);
    PutKeepsWellFormed(t, Split(k), data);
    if !Collides(f, k) {
      FilesAfterPut(t, f.blobs, k, data);
      KeyedAfterPut(t, k, data);
      DirsAfterPut(t, f.made, k, data);
    }
  }

  lemma FilesAfterRemove(t: Tree, blobs: map<string, Bytes>, k: string)
    requires Valid(k) && FilesAre(t, blobs)
    ensures FilesAre(t - {Split(k)}, blobs - {k})
  {
    forall k'
      ensures Split(k') == Split(k) <==> k' == k
    {
      SplitInjective(k, k');
    }
  }

  lemma DirsAfterRemove(t: Tree, made: set<string>, p: Path)
    requires !IsDir(t, p) && DirsAre(t, made)
    ensures DirsAre(t - {p}, made)
  {
    forall q
      ensures IsDir(t - {p}, q) <==> IsDir(t, q)
    {}
  }

  lemma DeleteRefines(t: Tree, f: Flat, k: string)
    requires WellFormed(t) && Refines(t, f) && Valid(k)
    ensures var (t', ok) := RemoveFile(t, Split(k));
            var (f', ok') := FlatDelete(f, k);
            ok == ok' && WellFormed(t') && Refines(t', f')
  {
    CollisionsAgree(t, f, k);
    RemoveKeepsWellFormed(t, Split(k));
    if !Collides(f, k) {
      FilesAfterRemove(t, f.blobs, k);
      DirsAfterRemove(t, f.made, Split(k));
    }
  }

  // ---------------------------------------------------------------------------
  // Histories
  // ---------------------------------------------------------------------------

  datatype Op = PutKey(key: string, data: Bytes) | DeleteKey(key: string)

  ghost function TreeStep(t: Tree, op: Op): (Tree, bool) {
    match op
    case PutKey(k, data) => PutFile(t, Split(k), data)
    case DeleteKey(k) => RemoveFile(t, Split(k))
  }

  ghost function FlatStep(f: Flat, op: Op): (Flat, bool) {
    match op
    case PutKey(k, data) => FlatPut(f, k, data)
    case DeleteKey(k) => FlatDelete(f, k)
  }

  /** Reads see the flat map too, except that `get` on the name of a directory, also one
      that deletes emptied, opens and only fails when read, where `exists` says no. */
  lemma ReadsRefine(t: Tree, f: Flat, k: string)
    requires Refines(t, f) && Valid(k)
    ensures IsFile(t, k) == Ok(k in f.blobs)
    ensures OpenFile(t, k) == if k in f.blobs then Ok(Delivers(f.blobs[k]))
                              else if NamesDirectory(f, k) then Ok(FailsAtEnd)
                              else Err(NotFound(k))
  {
    CollisionsAgree(t, f, k);
  }

  ghost function TreeRun(t: Tree, ops: seq<Op>): (Tree, seq<bool>)
    decreases |ops|
  {
    if ops == [] then (t, [])
    else
      var (t1, ok) := TreeStep(t, ops[0]);
      var (t2, oks) := TreeRun(t1, ops[1..]);
      (t2, [ok] + oks)
  }

  ghost function FlatRun(f: Flat, ops: seq<Op>): (Flat, seq<bool>)
    decreases |ops|
  {
    if ops == [] then (f, [])
    else
      var (f1, ok) := FlatStep(f, ops[0]);
      var (f2, oks) := FlatRun(f1, ops[1..]);
      (f2, [ok] + oks)
  }

  lemma EmptyRefines()
    ensures WellFormed(map[[] := Dir]) && Refines(map[[] := Dir], Flat(map[], {}))
  {}

  /** Over every history of valid keys the tree and the flat map succeed and fail on
      the same calls and hold the same blobs: a put fails exactly when the key lies
      beneath a stored blob or names a directory, including one that deletes emptied. */
  lemma {:induction false} HistoriesRefine(t: Tree, f: Flat, ops: seq<Op>)
    requires WellFormed(t) && Refines(t, f)
    requires forall op :: op in ops ==> Valid(op.key)
    ensures TreeRun(t, ops).1 == FlatRun(f, ops).1
    ensures WellFormed(TreeRun(t, ops).0) && Refines(TreeRun(t, ops).0, FlatRun(f, ops).0)
    decreases |ops|
  {
    if ops != [] {
      assert ops[0] in ops;
      match ops[0] {
        case PutKey(k, data) => PutRefines(t, f, k, data);
        case DeleteKey(k) => DeleteRefines(t, f, k);
      }
      HistoriesRefine(TreeStep(t, ops[0]).0, FlatStep(f, ops[0]).0, ops[1..]);
    }
  }

  /** In particular from an empty root. */
  lemma HistoriesFromEmpty(ops: seq<Op>)
    requires forall op :: op in ops ==> Valid(op.key)
    ensures TreeRun(map[[] := Dir], ops).1 == FlatRun(Flat(map[], {}), ops).1
    ensures Refines(TreeRun(map[[] := Dir], ops).0, FlatRun(Flat(map[], {}), ops).0)
  {
    EmptyRefines();
    HistoriesRefine(map[[] := Dir], Flat(map[], {}), ops);
  }
}
