/** The operations as the layers run them: one call after another on a backend that
    changes in place. Each is proved equal to its function in `Stores`, `Rekeys` or
    `Cleanup`, so every theorem about those functions holds of these methods. */
module StoreMethods {
  import opened Keys
  import opened Filters
  import opened Stores
  import opened Writes
  import opened Rekeys
  import opened Cleanup
  import opened Sorting

  lemma Listed(w: World, f: Filter, ks: seq<string>)
    requires Head(w) == Fine && StrictlySorted(ks)
    requires forall k :: k in ks <==> k in w.objs && Selects(f, k)
    ensures BaseList(w, f) == (Pop(Logged(w, ListCall(f.hint))), Ok(ks))
  {
    ListingIs(ks, set k | k in w.objs && Selects(f, k));
  }

  class Backend {
    var objs: map<string, Bytes>
    var log: seq<Call>
    var faults: seq<Fault>

    function State(): World
      reads this
    {
      World(objs, log, faults)
    }

    constructor (w: World)
      ensures State() == w
    {
      objs, log, faults := w.objs, w.log, w.faults;
    }

    /** One access to one object: does it go through? */
    method Access() returns (fault: Fault)
      modifies this`faults
      ensures fault == Head(old(State())) && State() == Pop(old(State()))
    {
      fault := Fine;
      if faults != [] {
        fault := faults[0];
        faults := faults[1..];
      }
    }

    method Put(blobs: seq<Blob>) returns (r: Result<seq<string>>)
      modifies this
      ensures (State(), r) == Stores.Put(Base, old(State()), blobs)
    {
      if !AllBlobsValid(blobs) { return Err(InvalidInput); }
      var metas := [];
      for i := 0 to |blobs|
        invariant BasePutFrom(State(), blobs[i..], metas) == BasePutFrom(old(State()), blobs, [])
      {
        var b := blobs[i];
        assert blobs[i..][0] == b && blobs[i..][1..] == blobs[i + 1..];
        log := log + [PutCall(b.key, b.data)];
        var fault := Access();
        if fault != Fine { return Err(Storage); }
        objs := objs[b.key := b.data];
        metas := metas + [b.key];
      }
      r := Ok(metas);
    }

    method Delete(keys: seq<string>) returns (r: Result<Unit>)
      modifies this
      ensures (State(), r) == Stores.Delete(Base, old(State()), keys)
    {
      if !AllValid(keys) { return Err(InvalidInput); }
      log := log + [DeleteCall(keys)];
      var done, failed := [], [];
      for i := 0 to |keys|
        invariant BaseDeleteFrom(State(), keys[i..], done, failed)
               == BaseDeleteFrom(Logged(old(State()), DeleteCall(keys)), keys, [], [])
      {
        assert keys[i..][0] == keys[i] && keys[i..][1..] == keys[i + 1..];
        var fault := Access();
        match fault {
          case Fine => objs, done := objs - {keys[i]}, done + [keys[i]];
          case KeyFails => failed := failed + [keys[i]];
          case CallFails => return Err(Storage);
        }
      }
      r := if failed == [] then Ok(Unit) else Err(Batch(done, failed));
    }

    method Get(k: string) returns (r: Result<Stream>)
      modifies this
      ensures (State(), r) == BaseGet(old(State()), k)
    {
      if !Valid(k) { return Err(InvalidInput); }
      log := log + [GetCall(k)];
      var fault := Access();
      if fault != Fine { return Err(Storage); }
      r := if k in objs then Ok(Delivers(objs[k])) else Err(NotFound(k));
    }

    method Exists(k: string) returns (r: Result<bool>)
      modifies this
      ensures (State(), r) == BaseExists(old(State()), k)
    {
      if !Valid(k) { return Err(InvalidInput); }
      log := log + [ExistsCall(k)];
      var fault := Access();
      r := if fault != Fine then Err(Storage) else Ok(k in objs);
    }

    method List(f: Filter) returns (r: Result<seq<string>>)
      modifies this
      ensures (State(), r) == BaseList(old(State()), f)
    {
      log := log + [ListCall(f.hint)];
      var fault := Access();
      if fault != Fine { return Err(Storage); }
      ghost var listed := old(State());
      var found, left := [], objs.Keys;
      while left != {}
        invariant State() == Pop(Logged(listed, ListCall(f.hint)))
        invariant left <= listed.objs.Keys && StrictlySorted(found)
        invariant forall k :: k in found <==> k in listed.objs && k !in left && Selects(f, k)
        decreases |left|
      {
        var k :| k in left;
        left := left - {k};
        if Selects(f, k) { found := InsertSorted(found, k); }
      }
      Listed(listed, f, found);
      r := Ok(found);
    }
  }

  // ---------------------------------------------------------------------------
  // The layers
  // ---------------------------------------------------------------------------

  method PutVia(s: Store, b: Backend, blobs: seq<Blob>) returns (r: Result<seq<string>>)
    modifies b
    ensures (b.State(), r) == Put(s, old(b.State()), blobs)
    decreases s, 1
  {
    match s
    case Base => r := b.Put(blobs);
    case Prefixed(p, inner) =>
      if !PrefixAcceptsBlobs(p, blobs) { return Err(InvalidInput); }
      r := PutVia(inner, b, PrefixBlobs(p, blobs));
      if r.Ok? { r := Ok(StripEach(p, r.value)); }
    case Encrypted(provider, x, inner) => r := EncryptedPut(provider, x, inner, b, blobs);
    case Cleanable(inner) => r := PutVia(inner, b, blobs);
  }

  method EncryptedPut(provider: Provider, x: string, inner: Store, b: Backend, blobs: seq<Blob>)
    returns (r: Result<seq<string>>)
    modifies b
    ensures (b.State(), r) == if !EncryptAcceptsBlobs(x, blobs) then (old(b.State()), Err(InvalidInput))
                              else EncryptedPutFrom(provider, x, inner, old(b.State()), blobs, [])
    decreases inner, 3
  {
    if !EncryptAcceptsBlobs(x, blobs) { return Err(InvalidInput); }
    var metas := [];
    for i := 0 to |blobs|
      invariant EncryptedPutFrom(provider, x, inner, b.State(), blobs[i..], metas)
             == EncryptedPutFrom(provider, x, inner, old(b.State()), blobs, [])
    {
      PutTurn(provider, x, inner, b.State(), blobs, i, metas);
      r := EncryptedPutBlob(provider, x, inner, b, blobs[i]);
      if r.Err? { return; }
      metas := metas + r.value;
    }
    r := Ok(metas);
  }

  lemma PutTurn(provider: Provider, x: string, inner: Store, w: World, blobs: seq<Blob>, i: nat, metas: seq<string>)
    requires i < |blobs|
    ensures EncryptedPutFrom(provider, x, inner, w, blobs[i..], metas)
         == (var (w1, r) := EncryptedPutOne(provider, x, inner, w, blobs[i]);
             if r.Err? then (w1, r) else EncryptedPutFrom(provider, x, inner, w1, blobs[i + 1..], metas + r.value))
  {
    assert blobs[i..] == [blobs[i]] + blobs[i + 1..];
    PutFromStep(provider, x, inner, w, blobs[i], blobs[i + 1..], metas);
  }

  /** One turn of the loop: data object, header object, and the rollback. */
  method EncryptedPutBlob(provider: Provider, x: string, inner: Store, b: Backend, blob: Blob)
    returns (r: Result<seq<string>>)
    modifies b
    ensures (b.State(), r) == EncryptedPutOne(provider, x, inner, old(b.State()), blob)
    decreases inner, 2
  {
    r := PutVia(inner, b, [blob.(data := Ciphertext(provider, blob))]);
    if r.Err? { return; }
    var stored := r.value;
    if blob.sealing.Breaks? {
      var _ := DeleteVia(inner, b, [blob.key]);
      return Err(Encryption);
    }
    var header := provider.seal(blob.sealing.nonce, blob.data).header;
    r := PutVia(inner, b, [Blob(blob.key + x, header, blob.sealing)]);
    if r.Err? {
      var _ := DeleteVia(inner, b, [blob.key]);
      return;
    }
    r := Ok(Keep(stored, NotHeader(x)));
  }

  method DeleteVia(s: Store, b: Backend, keys: seq<string>) returns (r: Result<Unit>)
    modifies b
    ensures (b.State(), r) == Delete(s, old(b.State()), keys)
    decreases s, 0
  {
    match s
    case Base => r := b.Delete(keys);
    case Prefixed(p, inner) =>
      if !PrefixAcceptsAll(p, keys) { return Err(InvalidInput); }
      r := DeleteVia(inner, b, AddPrefix(p, keys));
      r := StripBatch(p, r);
    case Encrypted(_, x, inner) =>
      if !NoHeaderKeys(x, keys) { return Err(InvalidInput); }
      r := DeleteVia(inner, b, WithHeaders(x, keys));
      r := HideHeaders(keys, r);
    case Cleanable(inner) => r := DeleteVia(inner, b, keys);
  }

  method GetVia(s: Store, b: Backend, k: string) returns (r: Result<Stream>)
    modifies b
    ensures (b.State(), r) == Get(s, old(b.State()), k)
    decreases s
  {
    match s
    case Base => r := b.Get(k);
    case Prefixed(p, inner) =>
      if !PrefixAccepts(p, k) { return Err(InvalidInput); }
      r := GetVia(inner, b, p + k);
      r := RelabelNotFound(k, r);
    case Encrypted(provider, x, inner) =>
      if EndsWith(k, x) { return Err(InvalidInput); }
      var data := GetVia(inner, b, k);
      if data.Err? { return RelabelNotFound(k, data); }
      var header := GetVia(inner, b, k + x);
      if header.Err? { return RelabelNotFound(k, header); }
      if header.value.FailsAtEnd? { return Err(Storage); }
      r := Ok(Decrypted(provider, data.value, header.value.bytes));
    case Cleanable(inner) => r := GetVia(inner, b, k);
  }

  method ExistsVia(s: Store, b: Backend, k: string) returns (r: Result<bool>)
    modifies b
    ensures (b.State(), r) == Exists(s, old(b.State()), k)
    decreases s
  {
    match s
    case Base => r := b.Exists(k);
    case Prefixed(p, inner) =>
      if !PrefixAccepts(p, k) { return Err(InvalidInput); }
      r := ExistsVia(inner, b, p + k);
      r := RelabelNotFound(k, r);
    case Encrypted(_, x, inner) =>
      if EndsWith(k, x) { return Err(InvalidInput); }
      r := ExistsVia(inner, b, k);
      if r.Err? || !r.value { return; }
      r := ExistsVia(inner, b, k + x);
    case Cleanable(inner) => r := ExistsVia(inner, b, k);
  }

  method ListVia(s: Store, b: Backend, f: Filter) returns (r: Result<seq<string>>)
    modifies b
    ensures (b.State(), r) == List(s, old(b.State()), f)
    decreases s
  {
    match s
    case Base => r := b.List(f);
    case Prefixed(p, inner) =>
      r := ListVia(inner, b, CombinedPrefixFilter(p, f));
      if r.Ok? { r := Ok(Keep(StripAll(p, r.value), f.matches)); }
    case Encrypted(_, x, inner) =>
      r := ListVia(inner, b, SuffixFilter(""));
      if r.Err? { return; }
      var candidates := Keep(Keep(r.value, NotHeader(x)), f.matches);
      ghost var listed := b.State();
      var filtered := [];
      for i := 0 to |candidates|
        invariant KeepWithHeader(x, inner, b.State(), candidates[i..], filtered)
               == KeepWithHeader(x, inner, listed, candidates, [])
      {
        assert candidates[i..][0] == candidates[i] && candidates[i..][1..] == candidates[i + 1..];
        var there := ExistsVia(inner, b, candidates[i] + x);
        if there.Err? { return Err(there.error); }
        if there.value { filtered := filtered + [candidates[i]]; }
      }
      r := Ok(filtered);
    case Cleanable(inner) => r := ListVia(inner, b, f);
  }

  method ReachVia(s: Store, b: Backend, f: Filter, full: string) returns (r: Result<Option<string>>)
    modifies b
    ensures (b.State(), r) == Reach(s, old(b.State()), f, full)
    decreases s
  {
    match s
    case Base => r := Ok(if Selects(f, full) then Some(full) else None);
    case Prefixed(p, inner) =>
      r := ReachVia(inner, b, CombinedPrefixFilter(p, f), full);
      if r.Err? || r.value.None? { return; }
      var k := r.value.value;
      r := Ok(if StartsWith(k, p) && f.matches(k[|p|..]) then Some(k[|p|..]) else None);
    case Encrypted(_, x, inner) =>
      r := ReachVia(inner, b, SuffixFilter(""), full);
      if r.Err? || r.value.None? { return; }
      var k := r.value.value;
      if EndsWith(k, x) { return Ok(None); }
      var there := ExistsVia(inner, b, k + x);
      if there.Err? { return Err(there.error); }
      if !there.value || !f.matches(k) { r := Ok(None); }
    case Cleanable(inner) => r := ReachVia(inner, b, f, full);
  }

  // ---------------------------------------------------------------------------
  // Visitors
  // ---------------------------------------------------------------------------

  class RekeyVisitor {
    const inner: Store
    const provider: Provider
    var rekeyed: nat

    constructor (inner: Store, provider: Provider)
      ensures this.inner == inner && this.provider == provider && rekeyed == 0
    {
      this.inner, this.provider, rekeyed := inner, provider, 0;
    }

    /** `Some` error ends the traversal. */
    method Visit(b: Backend, k: string) returns (e: Option<Error>)
      modifies this`rekeyed, b
      ensures (b.State(), if e.None? then Ok(rekeyed) else Err(e.value))
           == RekeyVisit(provider, inner, old(b.State()), k, old(rekeyed))
    {
      e := None;
      var header := GetVia(inner, b, k);
      if header.Err? { return; }
      if header.value.FailsAtEnd? { return Some(Storage); }
      var fault := b.Access();
      if fault == CallFails { return Some(Storage); }
      if fault == KeyFails { return; }
      match provider.rewrap(header.value.bytes)
      case Rewrapped(renewed) =>
        var r := PutVia(inner, b, [Blob(k, renewed, Completes([]))]);
        if r.Ok? { rekeyed := rekeyed + 1; }
      case _ =>
    }
  }

  method Rekey(p: Provider, x: string, inner: Store, b: Backend, order: seq<string>) returns (r: Result<nat>)
    modifies b
    ensures (b.State(), r) == RekeyFrom(p, x, inner, old(b.State()), order, 0)
  {
    var visitor := new RekeyVisitor(inner, p);
    for i := 0 to |order|
      invariant RekeyFrom(p, x, inner, b.State(), order[i..], visitor.rekeyed)
             == RekeyFrom(p, x, inner, old(b.State()), order, 0)
    {
      assert order[i..][0] == order[i] && order[i..][1..] == order[i + 1..];
      var fault := b.Access();
      if fault != Fine { return Err(Storage); }
      var reached := ReachVia(inner, b, SuffixFilter(x), order[i]);
      if reached.Err? { return Err(reached.error); }
      if reached.value.Some? {
        var e := visitor.Visit(b, reached.value.value);
        if e.Some? { return Err(e.value); }
      }
    }
    r := Ok(visitor.rekeyed);
  }

  class CleanupVisitor {
    const store: Store
    const matches: string -> bool
    const size: nat
    var batch: seq<string>
    var deleted: nat
    ghost var calls: seq<seq<string>>

    constructor (store: Store, matches: string -> bool, size: nat)
      ensures this.store == store && this.matches == matches && this.size == size
      ensures batch == [] && deleted == 0 && calls == []
    {
      this.store, this.matches, this.size := store, matches, size;
      batch, deleted, calls := [], 0, [];
    }

    ghost function State(b: Backend): Sweep
      reads this, b
    {
      Sweep(b.State(), batch, deleted, calls)
    }

    method Flush(b: Backend) returns (e: Option<Error>)
      modifies this, b
      ensures (State(b), e) == Cleanup.Flush(store, old(State(b)))
    {
      if batch == [] { return None; }
      calls := calls + [batch];
      var r := DeleteVia(store, b, batch);
      if r.Err? { return Some(r.error); }
      deleted, batch := deleted + |batch|, [];
      e := None;
    }

    method Visit(b: Backend, k: string) returns (e: Option<Error>)
      modifies this, b
      ensures (State(b), e) == VisitKey(store, matches, size, old(State(b)), k)
    {
      e := None;
      if matches(k) {
        batch := batch + [k];
        if |batch| >= size { e := Flush(b); }
      }
    }
  }

  method RunCleanup(s: Store, matches: string -> bool, size: nat, b: Backend, order: seq<string>, stale: string -> bool)
    returns (r: Result<nat>)
    modifies b
    ensures var (v, e) := Clean(s, matches, size, old(b.State()), order, stale);
            b.State() == v.w && r == if e.Some? then Err(e.value) else Ok(v.deleted)
  {
    var visitor := new CleanupVisitor(s, matches, size);
    ghost var start := b.State();
    for i := 0 to |order|
      invariant visitor.store == s && visitor.matches == matches && visitor.size == size
      invariant SweepFrom(s, matches, size, visitor.State(b), order[i..], stale)
             == SweepFrom(s, matches, size, Sweep(start, [], 0, []), order, stale)
    {
      assert order[i..][0] == order[i] && order[i..][1..] == order[i + 1..];
      if order[i] !in b.objs && !stale(order[i]) { continue; }
      var fault := b.Access();
      if fault != Fine { return Err(Storage); }
      var reached := ReachVia(s, b, PrefixFilter(""), order[i]);
      if reached.Err? { return Err(reached.error); }
      if reached.value.Some? {
        var e := visitor.Visit(b, reached.value.value);
        if e.Some? { return Err(e.value); }
      }
    }
    var e := visitor.Flush(b);
    r := if e.Some? then Err(e.value) else Ok(visitor.deleted);
  }
}
