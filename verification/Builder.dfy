/** The builder: layers in call order become a stack, with the maintenance tasks that go
    with it. */
module Builder {
  import opened Keys
  import opened Stores
  import opened Layers
  import opened Writes
  import M = MapStore
  import S = Scheduler

  const HEADER_SUFFIX := ".enc-header"
  const DEFAULT_BATCH: nat := 1000

  datatype Strategy = OnStart | Periodic(millis: nat) | Manual(handle: nat)

  datatype Layer =
    | PrefixLayer(prefix: string)
    | EncryptionLayer(provider: Provider, rekey: Option<Strategy>)
    | CleanupLayer(matches: string -> bool, size: nat, strategy: Strategy)

  datatype Job = Rekeying | Cleaning(matches: string -> bool, size: nat)

  /** A task works on the part of the stack its layer was put on, that layer included. */
  datatype Task = Task(store: Store, job: Job, strategy: Strategy)

  function Wrap(l: Layer, inner: Store): (Store, seq<Task>) {
    match l
    case PrefixLayer(p) => (Prefixed(p, inner), [])
    case EncryptionLayer(provider, rekey) =>
      var s := Encrypted(provider, HEADER_SUFFIX, inner);
      (s, if rekey.Some? then [Task(s, Rekeying, rekey.value)] else [])
    case CleanupLayer(matches, size, strategy) =>
      (Cleanable(inner), [Task(Cleanable(inner), Cleaning(matches, size), strategy)])
  }

  /** The stack and the tasks after some of the layers. */
  function Stacked(layers: seq<Layer>): (Store, seq<Task>) {
    if layers == [] then (Base, [])
    else
      var (inner, tasks) := Stacked(layers[..|layers| - 1]);
      var (s, more) := Wrap(layers[|layers| - 1], inner);
      (s, tasks + more)
  }

  function Last(layers: seq<Layer>): Option<Layer> {
    if layers == [] then None else Some(layers[|layers| - 1])
  }

  function Front(layers: seq<Layer>): seq<Layer> {
    if layers == [] then [] else layers[..|layers| - 1]
  }

  predicate EncryptionLast(layers: seq<Layer>) {
    Last(layers).Some? && Last(layers).value.EncryptionLayer?
  }

  predicate CleanupLast(layers: seq<Layer>) {
    Last(layers).Some? && Last(layers).value.CleanupLayer?
  }

  /** The layers after `with_rekey`, which concerns the layer added last. */
  function Rekeyed(layers: seq<Layer>, strategy: Strategy): seq<Layer> {
    if EncryptionLast(layers) then Front(layers) + [Last(layers).value.(rekey := Some(strategy))] else layers
  }

  /** The layers after `with_clean_batch_size`. */
  function Resized(layers: seq<Layer>, size: nat): seq<Layer> {
    if CleanupLast(layers) then Front(layers) + [Last(layers).value.(size := size)] else layers
  }

  predicate SaneStrategy(strategy: Strategy) {
    strategy != Periodic(0)
  }

  predicate SaneLayer(l: Layer) {
    match l
    case PrefixLayer(_) => true
    case EncryptionLayer(_, rekey) => rekey.Some? ==> SaneStrategy(rekey.value)
    case CleanupLayer(_, _, strategy) => SaneStrategy(strategy)
  }

  /** A task that was asked for: what to do and when, and for how many of the layers. */
  datatype Request = Request(depth: nat, job: Job, strategy: Strategy)

  /** What one layer asks for when it is the `depth`-th. */
  function TaskAsked(l: Layer, depth: nat): seq<Request> {
    match l
    case CleanupLayer(matches, size, strategy) => [Request(depth, Cleaning(matches, size), strategy)]
    case EncryptionLayer(_, Some(strategy)) => [Request(depth, Rekeying, strategy)]
    case _ => []
  }

  /** The maintenance the layers ask for, in call order, `below` layers coming first. */
  function TasksAsked(layers: seq<Layer>, below: nat): seq<Request> {
    if layers == [] then [] else TaskAsked(layers[0], below + 1) + TasksAsked(layers[1..], below + 1)
  }

  ghost predicate ZeroPeriodAsked(layers: seq<Layer>) {
    exists q :: q in TasksAsked(layers, 0) && q.strategy == Periodic(0)
  }

  lemma {:induction false} InsaneIsZero(layers: seq<Layer>, below: nat)
    ensures (exists q :: q in TasksAsked(layers, below) && q.strategy == Periodic(0))
       <==> exists l :: l in layers && !SaneLayer(l)
    decreases |layers|
  {
    if layers != [] {
      InsaneIsZero(layers[1..], below + 1);
      assert forall l :: l in layers <==> l == layers[0] || l in layers[1..];
      var first := TaskAsked(layers[0], below + 1);
      assert (exists q :: q in first && q.strategy == Periodic(0)) <==> !SaneLayer(layers[0]) by {
        if !SaneLayer(layers[0]) { assert first[0].strategy == Periodic(0); }
      }
    }
  }

  class BlobStoreBuilder {
    var layers: seq<Layer>

    constructor ()
      ensures layers == []
    {
      layers := [];
    }

    method WithPrefix(p: string)
      modifies this
      ensures layers == old(layers) + [PrefixLayer(p)]
    {
      layers := layers + [PrefixLayer(p)];
    }

    method WithEncryption(provider: Provider)
      modifies this
      ensures layers == old(layers) + [EncryptionLayer(provider, None)]
    {
      layers := layers + [EncryptionLayer(provider, None)];
    }

    method WithRekey(strategy: Strategy)
      modifies this
      ensures layers == Rekeyed(old(layers), strategy)
    {
      var n := |layers|;
      if n > 0 && layers[n - 1].EncryptionLayer? {
        layers := layers[n - 1 := layers[n - 1].(rekey := Some(strategy))];
      }
    }

    method WithClean(matches: string -> bool, strategy: Strategy)
      modifies this
      ensures layers == old(layers) + [CleanupLayer(matches, DEFAULT_BATCH, strategy)]
    {
      layers := layers + [CleanupLayer(matches, DEFAULT_BATCH, strategy)];
    }

    method WithCleanBatchSize(size: nat)
      modifies this
      ensures layers == Resized(old(layers), size)
    {
      var n := |layers|;
      if n > 0 && layers[n - 1].CleanupLayer? {
        layers := layers[n - 1 := layers[n - 1].(size := size)];
      }
    }

    /** Rejects a zero period; otherwise wraps layer by layer, collecting the tasks. */
    method Build() returns (r: Result<(Store, seq<Task>)>)
      ensures r == if ZeroPeriodAsked(layers) then Err(InvalidInput) else Ok(Stacked(layers))
    {
      InsaneIsZero(layers, 0);
      for i := 0 to |layers|
        invariant forall j :: 0 <= j < i ==> SaneLayer(layers[j])
      {
        if !SaneLayer(layers[i]) { return Err(InvalidInput); }
      }
      var store, tasks := Base, [];
      for i := 0 to |layers|
        invariant (store, tasks) == Stacked(layers[..i])
      {
        assert layers[..i + 1][..i] == layers[..i];
        var (wrapped, more) := Wrap(layers[i], store);
        store, tasks := wrapped, tasks + more;
      }
      assert layers[..|layers|] == layers;
      r := Ok((store, tasks));
    }
  }

  // ---------------------------------------------------------------------------
  // What a built stack looks like
  // ---------------------------------------------------------------------------

  function PrefixOf(l: Layer): string {
    if l.PrefixLayer? then l.prefix else ""
  }

  function PrefixesJoined(layers: seq<Layer>): string {
    if layers == [] then "" else PrefixOf(layers[0]) + PrefixesJoined(layers[1..])
  }

  function EncryptionLayers(layers: seq<Layer>): nat {
    if layers == [] then 0
    else (if layers[0].EncryptionLayer? then 1 else 0) + EncryptionLayers(layers[1..])
  }

  lemma {:induction false} JoinedAppend(layers: seq<Layer>, l: Layer)
    ensures PrefixesJoined(layers + [l]) == PrefixesJoined(layers) + PrefixOf(l)
    ensures EncryptionLayers(layers + [l]) == EncryptionLayers(layers) + if l.EncryptionLayer? then 1 else 0
  {
    if layers == [] {
      assert [l][1..] == [] && layers + [l] == [l];
      assert PrefixOf(l) + "" == "" + PrefixOf(l);
    } else {
      assert (layers + [l])[1..] == layers[1..] + [l];
      JoinedAppend(layers[1..], l);
      Assoc(PrefixOf(layers[0]), PrefixesJoined(layers[1..]), PrefixOf(l));
    }
  }

  /** Every encryption layer of the stack uses the header suffix `x`. */
  predicate Suffixes(s: Store, x: string) {
    match s
    case Base => true
    case Prefixed(_, inner) => Suffixes(inner, x)
    case Encrypted(_, y, inner) => y == x && Suffixes(inner, x)
    case Cleanable(inner) => Suffixes(inner, x)
  }

  /** The key space of a built store is the one under its prefixes joined in call order. */
  lemma {:induction false} StackedShape(layers: seq<Layer>)
    ensures var s := Stacked(layers).0;
            Pre(s) == PrefixesJoined(layers) && Encryptions(s) == EncryptionLayers(layers) && Suffixes(s, HEADER_SUFFIX)
  {
    if layers != [] {
      var front, l := layers[..|layers| - 1], layers[|layers| - 1];
      StackedShape(front);
      JoinedAppend(front, l);
      assert layers == front + [l];
      WrapShape(l, Stacked(front).0);
    }
  }

  lemma WrapShape(l: Layer, inner: Store)
    ensures var s := Wrap(l, inner).0;
            && Pre(s) == Pre(inner) + PrefixOf(l)
            && Encryptions(s) == Encryptions(inner) + (if l.EncryptionLayer? then 1 else 0)
            && (Suffixes(inner, HEADER_SUFFIX) ==> Suffixes(s, HEADER_SUFFIX))
  {
    assert Pre(inner) + "" == Pre(inner);
  }

  // ---------------------------------------------------------------------------
  // Which keys a built store accepts
  // ---------------------------------------------------------------------------

  lemma SuffixIsGood()
    ensures GoodSuffix(HEADER_SUFFIX)
  {
    SplitSeparatorFree(HEADER_SUFFIX);
  }

  predicate GoodPrefixes(s: Store) {
    match s
    case Base => true
    case Prefixed(p, inner) => GoodPrefix(p) && GoodPrefixes(inner)
    case Encrypted(_, _, inner) => GoodPrefixes(inner)
    case Cleanable(inner) => GoodPrefixes(inner)
  }

  /** `k` has become a header's name by the time it gets to some encryption layer. */
  predicate Reserved(s: Store, k: string) {
    match s
    case Base => false
    case Prefixed(p, inner) => Reserved(inner, p + k)
    case Encrypted(_, x, inner) => EndsWith(k, x) || Reserved(inner, k)
    case Cleanable(inner) => Reserved(inner, k)
  }

  lemma {:induction false} NothingReserved(s: Store, k: string)
    requires Encryptions(s) == 0
    ensures !Reserved(s, k)
  {
    match s
    case Base =>
    case Prefixed(p, inner) => NothingReserved(inner, p + k);
    case Cleanable(inner) => NothingReserved(inner, k);
  }

  /** With at most one encryption layer, validation comes to this: the key is valid and
      not reserved, and every prefix is usable. */
  lemma {:induction false} AcceptsExactly(s: Store, x: string, k: string)
    requires Encryptions(s) <= 1 && Suffixes(s, x) && GoodSuffix(x)
    ensures Accepts(s, k) <==> Valid(k) && GoodPrefixes(s) && !Reserved(s, k)
  {
    match s
    case Base =>
    case Prefixed(p, inner) =>
      AcceptsExactly(inner, x, p + k);
      if Valid(k) { PrefixedValidity(p, k); }
    case Encrypted(_, _, inner) =>
      AcceptsExactly(inner, x, k);
      AcceptsExactly(inner, x, k + x);
      NothingReserved(inner, k);
      NothingReserved(inner, k + x);
      if Valid(k) { SuffixedValidity(k, x); }
    case Cleanable(inner) => AcceptsExactly(inner, x, k);
  }

  lemma SuffixStays(p: string, k: string, x: string)
    requires EndsWith(k, x)
    ensures EndsWith(p + k, x)
  {
    assert (p + k)[|p + k| - |x|..] == k[|k| - |x|..];
  }

  lemma {:induction false} HeaderNameRefused(s: Store, x: string, k: string)
    requires Suffixes(s, x) && Encryptions(s) >= 1 && EndsWith(k, x)
    ensures !Accepts(s, k)
  {
    match s
    case Prefixed(p, inner) =>
      SuffixStays(p, k, x);
      HeaderNameRefused(inner, x, p + k);
    case Encrypted(_, _, _) =>
    case Cleanable(inner) => HeaderNameRefused(inner, x, k);
  }

  /** A second encryption layer with the same suffix makes a stack useless: it accepts no
      key at all. */
  lemma {:induction false} TwiceEncryptedRefusesAll(s: Store, x: string, k: string)
    requires Suffixes(s, x) && Encryptions(s) >= 2
    ensures !Accepts(s, k)
  {
    match s
    case Prefixed(p, inner) => TwiceEncryptedRefusesAll(inner, x, p + k);
    case Encrypted(_, _, inner) =>
      assert EndsWith(k + x, x);
      HeaderNameRefused(inner, x, k + x);
    case Cleanable(inner) => TwiceEncryptedRefusesAll(inner, x, k);
  }

  // ---------------------------------------------------------------------------
  // What a refused put does
  // ---------------------------------------------------------------------------

  /** Worse than useless: where several encryption layers share a suffix, a put of any
      valid key that is not reserved is refused only after the data object has been
      replaced, and the rollback then removes the blob that was there. */
  lemma {:induction false} NestedPutDestroys(s: Store, x: string, w: World, b: Blob)
    requires Suffixes(s, x) && GoodSuffix(x) && GoodPrefixes(s) && Encryptions(s) >= 2
    requires Valid(b.key) && !Reserved(s, b.key) && b.sealing.Completes? && w.faults == []
    ensures var (w', r) := Put(s, w, [b]);
            r == Err(InvalidInput) && Full(s, b.key) !in w'.objs
  {
    match s
    case Prefixed(p, inner) =>
      var b' := b.(key := p + b.key);
      PrefixedValidity(p, b.key);
      assert PrefixBlobs(p, [b]) == [b'];
      NestedPutDestroys(inner, x, w, b');
      Assoc(Pre(inner), p, b.key);
    case Encrypted(provider, _, inner) =>
      SuffixedValidity(b.key, x);
      var data := b.(data := Ciphertext(provider, b));
      if Encryptions(inner) == 1 {
        InnermostPairDestroys(provider, x, inner, w, b);
      } else {
        NestedPutDestroys(inner, x, w, data);
      }
      PutOneRefused(provider, x, inner, w, b);
    case Cleanable(inner) => NestedPutDestroys(inner, x, w, b);
  }

  /** A batch of one blob ends as its one turn does. */
  lemma PutOneRefused(provider: Provider, x: string, inner: Store, w: World, b: Blob)
    requires EncryptAccepts(x, b.key) && EncryptedPutOne(provider, x, inner, w, b).1.Err?
    ensures Put(Encrypted(provider, x, inner), w, [b]) == EncryptedPutOne(provider, x, inner, w, b)
  {
    PutFromStep(provider, x, inner, w, b, [], []);
    assert [b] + [] == [b];
  }

  /** The two innermost encryption layers: the inner one takes the data and refuses the
      header. */
  lemma InnermostPairDestroys(provider: Provider, x: string, inner: Store, w: World, b: Blob)
    requires Suffixes(inner, x) && GoodSuffix(x) && GoodPrefixes(inner) && Encryptions(inner) == 1
    requires Valid(b.key) && !Reserved(inner, b.key) && b.sealing.Completes? && w.faults == []
    ensures var (w', r) := EncryptedPutOne(provider, x, inner, w, b);
            r == Err(InvalidInput) && Full(inner, b.key) !in w'.objs
  {
    var data := b.(data := Ciphertext(provider, b));
    var header := Blob(b.key + x, provider.seal(b.sealing.nonce, b.data).header, b.sealing);
    KeysOfOne(data);
    KeysOfOne(header);
    AcceptsExactly(inner, x, b.key);
    M.PutCompletes(inner, w, [data]);
    var (w1, stored) := Put(inner, w, [data]);
    assert EndsWith(b.key + x, x);
    HeaderNameRefused(inner, x, b.key + x);
    assert header.key in KeysOf([header]);
    PutRejects(inner, w1, [header]);
    M.DeleteSucceeds(inner, w1, [b.key]);
    OwnsFull(inner, b.key);
    assert Owned(inner, [b.key], Full(inner, b.key));
    assert EncryptedPutOne(provider, x, inner, w, b) == (Delete(inner, w1, [b.key]).0, Err(InvalidInput));
  }

  /** A prefix no valid key can follow refuses everything before any call. */
  lemma {:induction false} BadPrefixRefuses(s: Store, w: World, blobs: seq<Blob>)
    requires !GoodPrefixes(s) && blobs != []
    ensures Put(s, w, blobs) == (w, Err(InvalidInput))
  {
    var b := blobs[0];
    assert b in blobs;
    match s
    case Prefixed(p, inner) =>
      if Valid(b.key) { PrefixedValidity(p, b.key); }
      if GoodPrefix(p) { BadPrefixRefuses(inner, w, PrefixBlobs(p, blobs)); }
    case Encrypted(provider, x, inner) =>
      BadPrefixRefuses(inner, w, [b.(data := Ciphertext(provider, b))]);
      assert EncryptedPutOne(provider, x, inner, w, b) == (w, Err(InvalidInput));
    case Cleanable(inner) => BadPrefixRefuses(inner, w, blobs);
  }

  lemma {:induction false} NotReserved(s: Store, x: string, k: string)
    requires Suffixes(s, x) && x != "" && k != "" && k[|k| - 1] != x[|x| - 1]
    ensures !Reserved(s, k)
  {
    match s
    case Base =>
    case Prefixed(p, inner) => NotReserved(inner, x, p + k);
    case Encrypted(_, _, inner) =>
      assert |x| <= |k| ==> k[|k| - |x|..][|x| - 1] == k[|k| - 1];
      NotReserved(inner, x, k);
    case Cleanable(inner) => NotReserved(inner, x, k);
  }

  /** A refused batch leaves the backend's objects as they were. */
  ghost predicate RefusesSafely(s: Store) {
    forall w: World, blobs :: !AllAccepted(s, KeysOf(blobs)) ==> Put(s, w, blobs).0.objs == w.objs
  }

  /** What any built store does with a batch: with at most one encryption layer it refuses
      exactly the batches with an invalid or reserved key, or any batch if a prefix is
      unusable, and then makes no backend call; with more it accepts no batch. */
  lemma BuiltPut(layers: seq<Layer>, w: World, blobs: seq<Blob>)
    requires blobs != []
    ensures var s := Stacked(layers).0;
            var good := GoodPrefixes(s) && forall k :: k in KeysOf(blobs) ==> Valid(k) && !Reserved(s, k);
            && (AllAccepted(s, KeysOf(blobs)) <==> EncryptionLayers(layers) <= 1 && good)
            && (!good && EncryptionLayers(layers) <= 1 ==> Put(s, w, blobs) == (w, Err(InvalidInput)))
  {
    var s := Stacked(layers).0;
    StackedShape(layers);
    SuffixIsGood();
    assert KeysOf(blobs)[0] in KeysOf(blobs);
    if EncryptionLayers(layers) <= 1 {
      forall k { AcceptsExactly(s, HEADER_SUFFIX, k); }
      PutRejects(s, w, blobs);
    } else {
      TwiceEncryptedRefusesAll(s, HEADER_SUFFIX, KeysOf(blobs)[0]);
    }
  }

  /** Exactly the built stores with at most one encryption layer, and those with a prefix
      that lets no key through, keep the promise that a refused batch preserves what is
      stored. */
  lemma BuiltRefusesSafely(layers: seq<Layer>)
    ensures var s := Stacked(layers).0;
            RefusesSafely(s) <==> EncryptionLayers(layers) <= 1 || !GoodPrefixes(s)
  {
    var s := Stacked(layers).0;
    StackedShape(layers);
    if EncryptionLayers(layers) <= 1 || !GoodPrefixes(s) {
      forall w: World, blobs | !AllAccepted(s, KeysOf(blobs))
        ensures Put(s, w, blobs).0.objs == w.objs
      {
        if EncryptionLayers(layers) <= 1 { PutRejects(s, w, blobs); } else { BadPrefixRefuses(s, w, blobs); }
      }
    } else {
      SomeKeyUsable(s);
      var b := Blob("a", [], Completes([]));
      var w := World(map[Full(s, "a") := []], [], []);
      NestedLoses(s, w, b);
      LossIsUnsafe(s, w, b);
    }
  }

  /** A batch of one blob that loses the blob stored before. */
  ghost predicate Loses(s: Store, w: World, b: Blob) {
    && !AllAccepted(s, KeysOf([b]))
    && Full(s, b.key) in w.objs && Full(s, b.key) !in Put(s, w, [b]).0.objs
  }

  lemma LossIsUnsafe(s: Store, w: World, b: Blob)
    requires Loses(s, w, b)
    ensures !RefusesSafely(s)
  {
    var blobs := [b];
    assert !AllAccepted(s, KeysOf(blobs));
    assert Put(s, w, blobs).0.objs != w.objs;
  }

  lemma NestedLoses(s: Store, w: World, b: Blob)
    requires Suffixes(s, HEADER_SUFFIX) && GoodPrefixes(s) && Encryptions(s) >= 2
    requires Valid(b.key) && !Reserved(s, b.key) && b.sealing.Completes?
    requires w.faults == [] && Full(s, b.key) in w.objs
    ensures Loses(s, w, b)
  {
    SuffixIsGood();
    NestedPutDestroys(s, HEADER_SUFFIX, w, b);
    TwiceEncryptedRefusesAll(s, HEADER_SUFFIX, b.key);
    KeysOfOne(b);
    assert b.key in KeysOf([b]);
  }

  lemma SomeKeyUsable(s: Store)
    requires Suffixes(s, HEADER_SUFFIX)
    ensures Valid("a") && !Reserved(s, "a")
  {
    SplitSeparatorFree("a");
    ValidMeaning("a");
    NotReserved(s, HEADER_SUFFIX, "a");
  }

  // ---------------------------------------------------------------------------
  // The tasks
  // ---------------------------------------------------------------------------

  /** `inner` is `s` or a part of `s` under some of its layers. */
  ghost predicate Beneath(inner: Store, s: Store) {
    inner == s || (!s.Base? && Beneath(inner, s.inner))
  }

  /** `with_rekey` never changes the stack that will be built. After an encryption layer
      the tasks end in the one given last, whatever was configured before; after any
      other layer it has no effect at all. */
  lemma RekeyedStack(layers: seq<Layer>, strategy: Strategy)
    ensures Stacked(Rekeyed(layers, strategy)).0 == Stacked(layers).0
    ensures Stacked(Rekeyed(layers, strategy)).1
         == if EncryptionLast(layers) then Stacked(Front(layers)).1 + [Task(Stacked(layers).0, Rekeying, strategy)]
            else Stacked(layers).1
  {
    if EncryptionLast(layers) { StackedMore(Front(layers), Last(layers).value.(rekey := Some(strategy))); }
  }

  /** The batch size reaches the cleanup task of the layer added last and nothing else. */
  lemma ResizedStack(layers: seq<Layer>, size: nat)
    ensures Stacked(Resized(layers, size)).0 == Stacked(layers).0
    ensures CleanupLast(layers) ==> Stacked(layers).1 != []
    ensures var tasks := Stacked(layers).1;
            Stacked(Resized(layers, size)).1 ==
            if CleanupLast(layers)
            then tasks[..|tasks| - 1] + [tasks[|tasks| - 1].(job := Cleaning(Last(layers).value.matches, size))]
            else tasks
  {
    if CleanupLast(layers) {
      StackedMore(Front(layers), Last(layers).value.(size := size));
      StackedMore(Front(layers), Last(layers).value);
      assert layers == Front(layers) + [Last(layers).value];
    }
  }

  // ---------------------------------------------------------------------------
  // What was asked for
  // ---------------------------------------------------------------------------

  /** A layer as the caller asked for it, its maintenance aside. */
  datatype Cover = UnderPrefix(prefix: string) | EncryptedBy(provider: Provider) | Cleaned

  function CoverOf(l: Layer): Cover {
    match l
    case PrefixLayer(p) => UnderPrefix(p)
    case EncryptionLayer(provider, _) => EncryptedBy(provider)
    case CleanupLayer(_, _, _) => Cleaned
  }

  function CoversAsked(layers: seq<Layer>): seq<Cover> {
    if layers == [] then [] else [CoverOf(layers[0])] + CoversAsked(layers[1..])
  }

  /** The layers of a stack, from the backend outwards. */
  function Covers(s: Store): seq<Cover> {
    match s
    case Base => []
    case Prefixed(p, inner) => Covers(inner) + [UnderPrefix(p)]
    case Encrypted(provider, _, inner) => Covers(inner) + [EncryptedBy(provider)]
    case Cleanable(inner) => Covers(inner) + [Cleaned]
  }

  lemma {:induction false} CoversAppend(layers: seq<Layer>, l: Layer)
    ensures CoversAsked(layers + [l]) == CoversAsked(layers) + [CoverOf(l)]
    ensures |CoversAsked(layers)| == |layers|
  {
    if layers == [] {
      assert [l][1..] == [] && [] + [l] == [l];
    } else {
      assert (layers + [l])[1..] == layers[1..] + [l];
      CoversAppend(layers[1..], l);
      Assoc([CoverOf(layers[0])], CoversAsked(layers[1..]), [CoverOf(l)]);
    }
  }

  lemma {:induction false} TasksAppend(layers: seq<Layer>, l: Layer, below: nat)
    ensures TasksAsked(layers + [l], below) == TasksAsked(layers, below) + TaskAsked(l, below + |layers| + 1)
  {
    if layers == [] {
      assert layers + [l] == [l];
      TaskAlone(l, below);
    } else {
      TasksAppend(layers[1..], l, below + 1);
      var first, rest := TaskAsked(layers[0], below + 1), TasksAsked(layers[1..], below + 1);
      var onward := TasksAsked(layers[1..] + [l], below + 1);
      TasksMore(layers, l, below);
      Regroup(TasksAsked(layers + [l], below), first, rest, TaskAsked(l, below + |layers| + 1), onward);
    }
  }

  lemma Regroup<T>(whole: seq<T>, a: seq<T>, b: seq<T>, c: seq<T>, onward: seq<T>)
    requires whole == a + onward && onward == b + c
    ensures whole == a + b + c
  {}

  lemma TaskAlone(l: Layer, below: nat)
    ensures TasksAsked([l], below) == TaskAsked(l, below + 1)
    ensures [] + TaskAsked(l, below + 1) == TaskAsked(l, below + 1)
  {
    assert [l][1..] == [];
  }

  lemma TasksMore(layers: seq<Layer>, l: Layer, below: nat)
    requires layers != []
    ensures TasksAsked(layers + [l], below)
         == TaskAsked(layers[0], below + 1) + TasksAsked(layers[1..] + [l], below + 1)
  {
    assert (layers + [l])[1..] == layers[1..] + [l];
  }

  /** `t` does what `q` asks for, on the layers up to the one that asked. */
  ghost predicate Serves(t: Task, q: Request, covers: seq<Cover>) {
    && t.job == q.job && t.strategy == q.strategy
    && q.depth <= |covers| && Covers(t.store) == covers[..q.depth]
  }

  ghost predicate AllServed(tasks: seq<Task>, asked: seq<Request>, covers: seq<Cover>) {
    && |tasks| == |asked|
    && forall i :: 0 <= i < |tasks| ==> Serves(tasks[i], asked[i], covers)
  }

  lemma ServedOnward(tasks: seq<Task>, asked: seq<Request>, covers: seq<Cover>, cover: Cover)
    requires AllServed(tasks, asked, covers)
    ensures AllServed(tasks, asked, covers + [cover])
  {
    forall i | 0 <= i < |tasks|
      ensures Serves(tasks[i], asked[i], covers + [cover])
    {
      assert Serves(tasks[i], asked[i], covers);
      assert (covers + [cover])[..asked[i].depth] == covers[..asked[i].depth];
    }
  }

  /** A built store has the layers that were asked for, with their prefixes and providers,
      in call order from the backend outwards; and its tasks are the ones asked for, in
      call order, each with its own job and strategy and on just the layers up to its own. */
  lemma {:induction false} BuiltAsAsked(layers: seq<Layer>)
    ensures var (s, tasks) := Stacked(layers);
            && Covers(s) == CoversAsked(layers)
            && AllServed(tasks, TasksAsked(layers, 0), CoversAsked(layers))
  {
    if layers != [] {
      var n := |layers| - 1;
      var front, l := layers[..n], layers[n];
      var (inner, tasks) := Stacked(front);
      BuiltAsAsked(front);
      assert layers == front + [l];
      CoversAppend(front, l);
      TasksAppend(front, l, 0);
      ServedOnward(tasks, TasksAsked(front, 0), CoversAsked(front), CoverOf(l));
      var covers := CoversAsked(layers);
      assert covers[..n + 1] == covers;
    }
  }

  lemma StackedMore(layers: seq<Layer>, l: Layer)
    ensures Stacked(layers + [l]) == (Wrap(l, Stacked(layers).0).0, Stacked(layers).1 + Wrap(l, Stacked(layers).0).1)
  {
    assert (layers + [l])[..|layers|] == layers;
  }

  /** Every task works on a part of the built stack, with the layer that asked for it on
      top; all its objects lie under the prefixes of the layers added before it, which
      are the first of the prefixes the built store works under. */
  lemma {:induction false} TasksBeneath(layers: seq<Layer>, t: Task)
    requires t in Stacked(layers).1
    ensures var s := Stacked(layers).0;
            && Beneath(t.store, s) && StartsWith(Pre(s), Pre(t.store))
            && (if t.job.Rekeying? then t.store.Encrypted? else t.store.Cleanable?)
            && forall k, o :: o in Owns(t.store, k) ==> StartsWith(o, Pre(t.store))
  {
    var front, l := layers[..|layers| - 1], layers[|layers| - 1];
    var (inner, tasks) := Stacked(front);
    if t in tasks {
      TasksBeneath(front, t);
      assert Stacked(layers).0.inner == inner;
      if l.PrefixLayer? { StartsWithMore(Pre(inner), l.prefix, Pre(t.store)); }
    } else {
      assert t in Wrap(l, inner).1;
    }
    forall k, o | o in Owns(t.store, k)
      ensures StartsWith(o, Pre(t.store))
    {
      OwnsFull(t.store, k);
      StartsWithShorter(o, Pre(t.store), k);
    }
  }

  lemma StartsWithMore(a: string, b: string, pre: string)
    requires StartsWith(a, pre)
    ensures StartsWith(a + b, pre)
  {
    assert (a + b)[..|pre|] == a[..|pre|];
  }

  function KindOf(strategy: Strategy): S.Kind {
    match strategy
    case OnStart => S.OnStart
    case Periodic(_) => S.Periodic
    case Manual(m) => S.Manual(m)
  }

  /** The scheduler as `spawn_tasks` starts it: one loop per task, in order. */
  function Spawned(tasks: seq<Task>, watches: seq<S.Watch>): S.State {
    S.State(seq(|tasks|, i requires 0 <= i < |tasks| => S.Loop(KindOf(tasks[i].strategy), S.Unscheduled, 0, 0)),
            watches, [], S.Idle, false, [], [])
  }

  /** The channels behind the manual handles, none of which has been heard from yet. */
  ghost predicate FreshWatches(tasks: seq<Task>, watches: seq<S.Watch>) {
    && (forall i :: 0 <= i < |tasks| && tasks[i].strategy.Manual? ==> tasks[i].strategy.handle < |watches|)
    && (forall m :: 0 <= m < |watches| ==> watches[m].mark == 0 && (watches[m].open || watches[m].inFlight == []))
  }

  /** However many layers ask for maintenance, every uncancelled run of the built store's
      scheduler that comes to rest has executed each start-up task exactly once and each
      periodic task once and once more for every waking of its loop. */
  lemma BuiltTasksRun(layers: seq<Layer>, watches: seq<S.Watch>, ls: seq<S.Label>, i: nat)
    requires var tasks := Stacked(layers).1;
             FreshWatches(tasks, watches) && i < |tasks|
    requires var s := Spawned(Stacked(layers).1, watches);
             S.WellFormed(s) && S.IsRun(s, ls) && S.Quiescent(S.Final(s, ls)) && !S.Final(s, ls).cancelled
    ensures var strategy := Stacked(layers).1[i].strategy;
            var executed := S.Final(Spawned(Stacked(layers).1, watches), ls).executed;
            && (strategy == OnStart ==> S.Count(executed, i) == 1)
            && (strategy.Periodic? ==> S.Count(executed, i) == 1 + S.Wakings(ls, i))
  {
    var s := Spawned(Stacked(layers).1, watches);
    assert S.Initial(s);
    S.KindsStay(s, ls);
    S.EveryRestIsComplete(s, ls);
  }

  /** A manually triggered task runs only for triggers sent since it was scheduled, at most
      once for each, and each of them is followed by a run of it. */
  lemma BuiltManualTasks(layers: seq<Layer>, watches: seq<S.Watch>, a: seq<S.Label>, b: seq<S.Label>, c: seq<S.Label>,
                         j: nat, i: nat)
    requires var tasks := Stacked(layers).1;
             FreshWatches(tasks, watches) && i < |tasks| && tasks[i].strategy.Manual?
    requires var s := Spawned(Stacked(layers).1, watches);
             var m := Stacked(layers).1[i].strategy.handle;
             var ls := a + [S.Schedule(i)] + b + [S.EndTrigger(m, j)] + c;
             S.WellFormed(s) && S.IsRun(s, ls) && S.Quiescent(S.Final(s, ls)) && !S.Final(s, ls).cancelled
    ensures var s := Spawned(Stacked(layers).1, watches);
            var m := Stacked(layers).1[i].strategy.handle;
            var before := a + [S.Schedule(i)] + b;
            var ls := before + [S.EndTrigger(m, j)] + c;
            && S.IsRun(s, before)
            && S.Count(S.Final(s, ls).executed, i) <= S.Sends(b + [S.EndTrigger(m, j)] + c, m)
            && S.EnqueuedSince(S.Final(s, ls).executed, i, |S.Final(s, before).accepted|)
  {
    var s := Spawned(Stacked(layers).1, watches);
    var m := Stacked(layers).1[i].strategy.handle;
    var l := S.EndTrigger(m, j);
    var ls := a + [S.Schedule(i)] + b + [l] + c;
    assert S.Initial(s);
    assert S.Schedule(i) in a + [S.Schedule(i)] + b;
    S.ManualAnswersTriggers(s, a + [S.Schedule(i)] + b, m, j, c, i);
    assert ls == a + [S.Schedule(i)] + (b + [l] + c);
    S.ManualNeedsTriggers(s, a, b + [l] + c, i);
    S.InitialInv(s);
    S.InvRun(s, ls);
    S.KindsStay(s, ls);
    S.RestIsIdle(S.Final(s, ls), i);
  }
}
