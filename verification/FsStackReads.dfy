/** Reads and listings of whole stacks over the filesystem. */
module FsStackReads {
  import opened Keys
  import opened Filters
  import opened Stores
  import opened Layers
  import opened Writes
  import opened FsTree
  import opened FsWalk
  import opened FsBackend
  import M = MapStore

  function TreeExists(s: Store, t: Tree, k: string): Result<bool> {
    match s
    case Base => IsFile(t, k)
    case Prefixed(p, inner) =>
      if !PrefixAccepts(p, k) then Err(InvalidInput) else RelabelNotFound(k, TreeExists(inner, t, p + k))
    case Encrypted(_, x, inner) =>
      if EndsWith(k, x) then Err(InvalidInput)
      else
        var data := TreeExists(inner, t, k);
        if data.Err? || !data.value then data else TreeExists(inner, t, k + x)
    case Cleanable(inner) => TreeExists(inner, t, k)
  }

  function TreeGet(s: Store, t: Tree, k: string): Result<Stream> {
    match s
    case Base => OpenFile(t, k)
    case Prefixed(p, inner) =>
      if !PrefixAccepts(p, k) then Err(InvalidInput) else RelabelNotFound(k, TreeGet(inner, t, p + k))
    case Encrypted(provider, x, inner) =>
      if EndsWith(k, x) then Err(InvalidInput)
      else
        var data := TreeGet(inner, t, k);
        if data.Err? then RelabelNotFound(k, data)
        else DecryptedWith(provider, k, data.value, TreeGet(inner, t, k + x))
    case Cleanable(inner) => TreeGet(inner, t, k)
  }

  ghost function TreeList(s: Store, t: Tree, f: Filter): Result<seq<string>>
    decreases s, 1
  {
    match s
    case Base => ListResult(t, f)
    case Prefixed(p, inner) =>
      var r := TreeList(inner, t, CombinedPrefixFilter(p, f));
      if r.Err? then r else Ok(Keep(StripAll(p, r.value), f.matches))
    case Encrypted(_, x, inner) =>
      var r := TreeList(inner, t, SuffixFilter(""));
      if r.Err? then r else TreeKeep(x, inner, t, Keep(Keep(r.value, NotHeader(x)), f.matches), [])
    case Cleanable(inner) => TreeList(inner, t, f)
  }

  /** The candidates whose header object is there. */
  ghost function TreeKeep(x: string, inner: Store, t: Tree, candidates: seq<string>, kept: seq<string>)
    : Result<seq<string>>
    decreases |candidates|
  {
    if candidates == [] then Ok(kept)
    else
      var r := TreeExists(inner, t, candidates[0] + x);
      if r.Err? then Err(r.error)
      else TreeKeep(x, inner, t, candidates[1..], if r.value then kept + [candidates[0]] else kept)
  }

  /** `w` holds what the tree holds, and nothing will fail. */
  ghost predicate Calm(t: Tree, w: World) {
    w.objs == Files(t) && w.faults == []
  }

  /** `exists` through any stack over the tree is `exists` over a backend without failures. */
  lemma {:induction false} ExistsSim(s: Store, t: Tree, w: World, k: string)
    requires Calm(t, w)
    ensures Exists(s, w, k).1 == TreeExists(s, t, k) && Calm(t, Exists(s, w, k).0)
  {
    match s
    case Base => FsReads(t, w.log, k);
    case Prefixed(p, inner) => ExistsSim(inner, t, w, p + k);
    case Encrypted(_, x, inner) =>
      ExistsSim(inner, t, w, k);
      ExistsSim(inner, t, Exists(inner, w, k).0, k + x);
    case Cleanable(inner) => ExistsSim(inner, t, w, k);
  }

  /** None of the objects of `k` has the name of a directory. */
  ghost predicate NoDirectories(s: Store, t: Tree, k: string) {
    forall o :: o in Owns(s, k) ==> !IsDir(t, Split(o))
  }

  /** So is `get`, unless it opens a directory. */
  lemma {:induction false} GetSim(s: Store, t: Tree, w: World, k: string)
    requires Calm(t, w) && NoDirectories(s, t, k)
    ensures Get(s, w, k).1 == TreeGet(s, t, k) && Calm(t, Get(s, w, k).0)
  {
    match s
    case Base =>
      assert k in Owns(s, k);
      FsReads(t, w.log, k);
    case Prefixed(p, inner) => GetSim(inner, t, w, p + k);
    case Encrypted(_, x, inner) =>
      assert forall o :: o in Owns(inner, k) || o in Owns(inner, k + x) ==> o in Owns(s, k);
      GetSim(inner, t, w, k);
      GetSim(inner, t, Get(inner, w, k).0, k + x);
    case Cleanable(inner) => GetSim(inner, t, w, k);
  }

  /** The filter that reaches the backend. */
  function BaseFilter(s: Store, f: Filter): Filter {
    match s
    case Base => f
    case Prefixed(p, inner) => BaseFilter(inner, CombinedPrefixFilter(p, f))
    case Encrypted(_, _, inner) => BaseFilter(inner, SuffixFilter(""))
    case Cleanable(inner) => BaseFilter(inner, f)
  }

  lemma {:induction false} KeepSim(x: string, inner: Store, t: Tree, w: World, candidates: seq<string>,
                                   kept: seq<string>)
    requires Calm(t, w)
    ensures var (w', r) := KeepWithHeader(x, inner, w, candidates, kept);
            r == TreeKeep(x, inner, t, candidates, kept) && Calm(t, w')
    decreases |candidates|
  {
    if candidates != [] {
      ExistsSim(inner, t, w, candidates[0] + x);
      var (w1, r) := Exists(inner, w, candidates[0] + x);
      if r.Ok? {
        KeepSim(x, inner, t, w1, candidates[1..], if r.value then kept + [candidates[0]] else kept);
      }
    }
  }

  /** So is `list`, wherever the filter that reaches the filesystem has a hint that lists
      correctly and no file is in its way. */
  lemma {:induction false} ListSim(s: Store, t: Tree, w: World, f: Filter)
    requires WellFormed(t) && Calm(t, w) && HintSound(f)
    requires HintExact(HintText(BaseFilter(s, f))) && Listable(t, BaseFilter(s, f))
    ensures Stores.List(s, w, f).1 == TreeList(s, t, f) && Calm(t, Stores.List(s, w, f).0)
    decreases s
  {
    match s
    case Base => FsList(t, w.log, f);
    case Prefixed(p, inner) => ListSim(inner, t, w, CombinedPrefixFilter(p, f));
    case Encrypted(_, x, inner) =>
      ListSim(inner, t, w, SuffixFilter(""));
      var (w1, r) := Stores.List(inner, w, SuffixFilter(""));
      if r.Ok? { KeepSim(x, inner, t, w1, Keep(Keep(r.value, NotHeader(x)), f.matches), []); }
    case Cleanable(inner) => ListSim(inner, t, w, f);
  }

  /** What that means: where it returns `Ok`, a listing through any stack over the tree is
      the sorted listing of exactly the visible matching keys. */
  lemma TreeListExact(s: Store, t: Tree, f: Filter)
    requires WellFormed(t) && HintSound(f)
    requires HintExact(HintText(BaseFilter(s, f))) && Listable(t, BaseFilter(s, f))
    ensures TreeList(s, t, f).Ok? ==> TreeList(s, t, f).value == Listing(VisibleKeys(s, Files(t), f))
  {
    var w := World(Files(t), [], []);
    ListSim(s, t, w, f);
    ListExact(s, w, f);
  }

  /** And it does return `Ok`, orphans or not, through directory prefixes and at most one
      encryption layer. */
  lemma TreeListComplete(s: Store, t: Tree, f: Filter)
    requires WellFormed(t) && HintSound(f)
    requires HintExact(HintText(BaseFilter(s, f))) && Listable(t, BaseFilter(s, f))
    requires Encryptions(s) <= 1 && M.GoodSuffixes(s) && DirectoryPrefixes(s) && AllKeysValid(Files(t))
    ensures TreeList(s, t, f) == Ok(Listing(VisibleKeys(s, Files(t), f)))
  {
    var w := World(Files(t), [], []);
    ListSim(s, t, w, f);
    M.ListOnShared(s, w, f);
  }
}
