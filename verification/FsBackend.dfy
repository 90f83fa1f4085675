/** The filesystem behaves as the abstract backend beneath the layers: each of its calls
    is the backend call under some pattern of failing accesses. */
module FsBackend {
  import opened Keys
  import opened Filters
  import opened Stores
  import opened FsTree
  import opened FsWalk

  ghost function FileKeySet(t: Tree): set<string> {
    set p | p in t && t[p].File? :: Join(p)
  }

  /** The objects a tree holds, by key. */
  ghost function Files(t: Tree): map<string, Bytes> {
    map k | k in FileKeySet(t) && Split(k) in t && t[Split(k)].File? :: t[Split(k)].data
  }

  lemma FilesAt(t: Tree, k: string)
    ensures k in Files(t) <==> Split(k) in t && t[Split(k)].File?
    ensures k in Files(t) ==> t[Split(k)] == File(Files(t)[k])
  {
    JoinSplit(k);
  }

  /** Every file has a key. */
  lemma FileHasKey(t: Tree, p: Path)
    requires WellFormed(t) && p in t && t[p].File?
    ensures Split(Join(p)) == p && Join(p) in Files(t)
  {
    assert p != [];
    GoodJoin(p);
    SplitJoin(p);
    FilesAt(t, Join(p));
  }

  lemma FilesStored(t: Tree, k: string, data: Bytes)
    requires WellFormed(t) && Valid(k) && !FileAbove(t, Split(k)) && !IsDir(t, Split(k))
    ensures Files(PutFile(t, Split(k), data).0) == Files(t)[k := data]
  {
    var p := Split(k);
    var t' := PutFile(t, p, data).0;
    forall k'
      ensures k' in Files(t') <==> k' in Files(t) || k' == k
      ensures k' in Files(t') ==> Files(t')[k'] == if k' == k then data else Files(t)[k']
    {
      FilesAt(t, k');
      FilesAt(t', k');
      WithDirsAt(t, p, Split(k'));
      SplitInjective(k, k');
    }
  }

  lemma FilesRemoved(t: Tree, k: string)
    requires !FileAbove(t, Split(k)) && !IsDir(t, Split(k))
    ensures Files(RemoveFile(t, Split(k)).0) == Files(t) - {k}
  {
    var t' := RemoveFile(t, Split(k)).0;
    forall k'
      ensures k' in Files(t') <==> k' in Files(t) && k' != k
      ensures k' in Files(t') ==> Files(t')[k'] == Files(t)[k']
    {
      FilesAt(t, k');
      FilesAt(t', k');
      SplitInjective(k, k');
    }
  }

  function Pairs(blobs: seq<Blob>): seq<(string, Bytes)> {
    if blobs == [] then [] else [(blobs[0].key, blobs[0].data)] + Pairs(blobs[1..])
  }

  predicate Blocked(t: Tree, k: string) {
    FileAbove(t, Split(k)) || (Split(k) in t && t[Split(k)].Dir?)
  }

  /** A backend that holds what the tree holds. */
  ghost function Holding(t: Tree, log: seq<Call>, faults: seq<Fault>): World {
    World(Files(t), log, faults)
  }

  lemma EmptyScript(tail: seq<Fault>)
    ensures [] + tail == tail
  {}

  lemma HeadOfScript(f: Fault, later: seq<Fault>, tail: seq<Fault>)
    ensures ([f] + later + tail)[0] == f && ([f] + later + tail)[1..] == later + tail && [f] + later + tail != []
  {}

  /** The accesses that fail when the tree deletes `ks`: exactly those to keys that are
      blocked when their turn comes, each in the tree the keys before it have left. */
  ghost function Collisions(t: Tree, ks: seq<string>): (faults: seq<Fault>)
    ensures |faults| == |ks| && CallFails !in faults
  {
    if ks == [] then []
    else [if Blocked(t, ks[0]) then KeyFails else Fine] + Collisions(RemoveFile(t, Split(ks[0])).0, ks[1..])
  }

  /** The tree once the unblocked ones of `ks` are removed, one after the other. */
  ghost function Pruned(t: Tree, ks: seq<string>): Tree {
    if ks == [] then t else Pruned(RemoveFile(t, Split(ks[0])).0, ks[1..])
  }

  lemma {:induction false} PrunedIs(t: Tree, ks: seq<string>, done: seq<string>, failed: seq<string>)
    ensures RemoveFiles(t, ks, done, failed).0 == Pruned(t, ks)
    decreases |ks|
  {
    if ks != [] {
      var t1 := RemoveFile(t, Split(ks[0])).0;
      PrunedIs(t1, ks[1..], done + [ks[0]], failed);
      PrunedIs(t1, ks[1..], done, failed + [ks[0]]);
    }
  }

  lemma {:induction false} CollisionAt(t: Tree, ks: seq<string>, j: nat)
    requires j < |ks|
    ensures Collisions(t, ks)[j] == if Blocked(Pruned(t, ks[..j]), ks[j]) then KeyFails else Fine
    decreases |ks|
  {
    if j > 0 {
      CollisionAt(RemoveFile(t, Split(ks[0])).0, ks[1..], j - 1);
      assert ks[..j] == [ks[0]] + ks[1..][..j - 1];
    }
  }

  ghost predicate BaseDeleteAt(t: Tree, log: seq<Call>, ks: seq<string>, done: seq<string>, failed: seq<string>,
                               script: seq<Fault>, tail: seq<Fault>) {
    var (t', r) := RemoveFiles(t, ks, done, failed);
    BaseDeleteFrom(Holding(t, log, script + tail), ks, done, failed) == (Holding(t', log, tail), r)
  }

  /** `delete` on the tree is `delete` on the backend where the accesses to colliding keys
      fail, whatever fails afterwards; no filesystem delete ever breaks off. */
  lemma {:induction false} FsDelete(t: Tree, log: seq<Call>, ks: seq<string>, done: seq<string>, failed: seq<string>)
    requires WellFormed(t) && AllValid(ks)
    ensures WellFormed(RemoveFiles(t, ks, done, failed).0)
    ensures forall tail :: BaseDeleteAt(t, log, ks, done, failed, Collisions(t, ks), tail)
    decreases |ks|
  {
    if ks == [] {
      forall tail
        ensures BaseDeleteAt(t, log, ks, done, failed, [], tail)
      {
        EmptyScript(tail);
      }
      return;
    }
    var k, rest := ks[0], ks[1..];
    var t1 := RemoveFile(t, Split(k)).0;
    RemoveKeepsWellFormed(t, Split(k));
    if Blocked(t, k) {
      FsDelete(t1, log, rest, done, failed + [k]);
    } else {
      FilesRemoved(t, k);
      FsDelete(t1, log, rest, done + [k], failed);
    }
    forall tail
      ensures BaseDeleteAt(t, log, ks, done, failed, Collisions(t, ks), tail)
    {
      HeadOfScript(if Blocked(t, k) then KeyFails else Fine, Collisions(t1, rest), tail);
      if Blocked(t, k) {
        assert BaseDeleteAt(t1, log, rest, done, failed + [k], Collisions(t1, rest), tail);
      } else {
        assert BaseDeleteAt(t1, log, rest, done + [k], failed, Collisions(t1, rest), tail);
      }
    }
  }

  ghost predicate BasePutAt(t: Tree, log: seq<Call>, blobs: seq<Blob>, metas: seq<string>, script: seq<Fault>,
                            log': seq<Call>, tail: seq<Fault>) {
    var (t', r) := PutFiles(t, Pairs(blobs), metas);
    BasePutFrom(Holding(t, log, script + tail), blobs, metas) == (Holding(t', log', tail), r)
  }

  /** `put` on the tree is `put` on the backend that fails at the first colliding key. */
  lemma {:induction false} FsPut(t: Tree, log: seq<Call>, blobs: seq<Blob>, metas: seq<string>)
      returns (script: seq<Fault>, log': seq<Call>)
    requires WellFormed(t) && AllBlobsValid(blobs)
    ensures WellFormed(PutFiles(t, Pairs(blobs), metas).0)
    ensures forall tail :: BasePutAt(t, log, blobs, metas, script, log', tail)
    decreases |blobs|
  {
    if blobs == [] {
      script, log' := [], log;
      forall tail
        ensures BasePutAt(t, log, blobs, metas, script, log', tail)
      {
        EmptyScript(tail);
      }
      return;
    }
    var b, rest := blobs[0], blobs[1..];
    assert b in blobs;
    ValidPath(b.key);
    PutKeepsWellFormed(t, Split(b.key), b.data);
    var log1 := log + [PutCall(b.key, b.data)];
    if Blocked(t, b.key) {
      script, log' := [KeyFails], log1;
      forall tail
        ensures BasePutAt(t, log, blobs, metas, script, log', tail)
      {
        HeadOfScript(KeyFails, [], tail);
        assert [KeyFails] + [] == [KeyFails] && [] + tail == tail;
      }
    } else {
      var t1 := PutFile(t, Split(b.key), b.data).0;
      FilesStored(t, b.key, b.data);
      var later;
      later, log' := FsPut(t1, log1, rest, metas + [b.key]);
      script := [Fine] + later;
      forall tail
        ensures BasePutAt(t, log, blobs, metas, script, log', tail)
      {
        HeadOfScript(Fine, later, tail);
        assert BasePutAt(t1, log1, rest, metas + [b.key], later, log', tail);
      }
    }
  }

  /** Reads are the backend's, apart from `get` on the name of a directory. */
  lemma FsReads(t: Tree, log: seq<Call>, k: string)
    ensures IsFile(t, k) == BaseExists(World(Files(t), log, []), k).1
    ensures OpenFile(t, k) == if Valid(k) && IsDir(t, Split(k)) then Ok(FailsAtEnd)
                              else BaseGet(World(Files(t), log, []), k).1
  {
    FilesAt(t, k);
  }

  /** A listing that no file is in the way of is the backend's, for every filter that
      honours a hint passing `HintExact`. */
  lemma FsList(t: Tree, log: seq<Call>, f: Filter)
    requires WellFormed(t) && HintSound(f) && HintExact(HintText(f)) && Listable(t, f)
    ensures ListResult(t, f) == BaseList(World(Files(t), log, []), f).1
  {
    ListComplete(t, f);
    var selected := set k | k in Files(t) && Selects(f, k);
    forall k
      ensures k in FileKeys(t, f) <==> k in selected
    {
      FilesAt(t, k);
      if k in FileKeys(t, f) {
        var p :| p in t && t[p].File? && f.matches(Join(p)) && Join(p) == k;
        FileHasKey(t, p);
      }
      if k in selected { JoinSplit(k); }
    }
    assert FileKeys(t, f) == selected;
  }
}
