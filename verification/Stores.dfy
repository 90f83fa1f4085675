/** The store stack as a function of the backend: what every layer does to the
    backend objects, which backend calls it makes, and what it returns.

    A `World` is the backend at one moment: its objects, the calls it has received
    and the faults it has yet to inject. One fault is consumed by every backend
    access to one object (and by each listing or page), so quantifying over worlds
    quantifies over every pattern of failing calls. */
module Stores {
  import opened Keys
  import opened Filters

  type Bytes = seq<bv8>

  datatype Option<+T> = None | Some(value: T)

  // ---------------------------------------------------------------------------
  // Errors
  // ---------------------------------------------------------------------------

  /** `BlobStorageError` up to message text; `Batch` lists keys in processing order. */
  datatype Error =
    | NotFound(key: string)
    | InvalidInput
    | Storage
    | Encryption
    | Batch(succeeded: seq<string>, errors: seq<string>)

  datatype Result<+T> = Ok(value: T) | Err(error: Error)

  datatype Unit = Unit

  /** How a visitor answers: go on, end the visit, or fail it. */
  datatype Answer = Continue | Stop | Fail

  /** One call of a visitor: the key it was shown and what it answered. */
  datatype Showing = Showing(key: string, answer: Answer)

  // ---------------------------------------------------------------------------
  // The encryption provider
  // ---------------------------------------------------------------------------

  datatype Sealed = Sealed(data: Bytes, header: Bytes)

  datatype Rewrap = UpToDate | Rewrapped(header: Bytes) | Refused

  /** `seal` takes the provider's random choice as its first argument. */
  datatype Provider = Provider(
    seal: (Bytes, Bytes) -> Sealed,
    open: (Bytes, Bytes) -> Option<Bytes>,
    rewrap: Bytes -> Rewrap)

  /** What the provider promises: opening undoes sealing, re-wrapping a header never
      changes what any data opens to, and a fresh header needs no re-wrapping. */
  ghost predicate Lawful(p: Provider) {
    && (forall nonce, plain :: p.open(p.seal(nonce, plain).data, p.seal(nonce, plain).header) == Some(plain))
    && (forall data, h :: p.rewrap(h).Rewrapped? ==> p.open(data, p.rewrap(h).header) == p.open(data, h))
    && (forall h :: p.rewrap(h).Rewrapped? ==> p.rewrap(p.rewrap(h).header) == UpToDate)
  }

  /** How encryption of one input goes: it completes with some random choice, or it
      fails (or times out) after `written` has already reached the pipe. */
  datatype Sealing = Completes(nonce: Bytes) | Breaks(written: Bytes)

  datatype Blob = Blob(key: string, data: Bytes, sealing: Sealing)

  function Ciphertext(p: Provider, b: Blob): Bytes {
    match b.sealing
    case Completes(nonce) => p.seal(nonce, b.data).data
    case Breaks(written) => written
  }

  // ---------------------------------------------------------------------------
  // The backend
  // ---------------------------------------------------------------------------

  /** `KeyFails` makes one object's access fail; on a delete `CallFails` makes the
      whole call fail there, leaving the rest of the batch untouched. */
  datatype Fault = Fine | KeyFails | CallFails

  datatype Call =
    | PutCall(key: string, data: Bytes)
    | GetCall(key: string)
    | DeleteCall(keys: seq<string>)
    | ExistsCall(key: string)
    | ListCall(hint: Hint)

  datatype World = World(objs: map<string, Bytes>, log: seq<Call>, faults: seq<Fault>)

  function Head(w: World): Fault {
    if w.faults == [] then Fine else w.faults[0]
  }

  function Pop(w: World): World {
    if w.faults == [] then w else w.(faults := w.faults[1..])
  }

  function Logged(w: World, c: Call): World {
    w.(log := w.log + [c])
  }

  /** What reading a stream to its end gives. */
  datatype Stream = Delivers(bytes: Bytes) | FailsAtEnd

  predicate AllValid(ks: seq<string>) {
    forall k :: k in ks ==> Valid(k)
  }

  function KeysOf(blobs: seq<Blob>): (ks: seq<string>)
  {
    if blobs == [] then [] else [blobs[0].key] + KeysOf(blobs[1..])
  }

  function BasePutFrom(w: World, blobs: seq<Blob>, metas: seq<string>): (World, Result<seq<string>>)
    decreases |blobs|
  {
    if blobs == [] then (w, Ok(metas))
    else
      var b := blobs[0];
      var w1 := Logged(w, PutCall(b.key, b.data));
      if Head(w1) != Fine then (Pop(w1), Err(Storage))
      else BasePutFrom(Pop(w1).(objs := w1.objs[b.key := b.data]), blobs[1..], metas + [b.key])
  }

  function BaseDeleteFrom(w: World, keys: seq<string>, done: seq<string>, failed: seq<string>)
    : (World, Result<Unit>)
    decreases |keys|
  {
    if keys == [] then (w, if failed == [] then Ok(Unit) else Err(Batch(done, failed)))
    else
      match Head(w)
      case Fine => BaseDeleteFrom(Pop(w).(objs := w.objs - {keys[0]}), keys[1..], done + [keys[0]], failed)
      case KeyFails => BaseDeleteFrom(Pop(w), keys[1..], done, failed + [keys[0]])
      case CallFails => (Pop(w), Err(Storage))
  }

  function BaseGet(w: World, k: string): (World, Result<Stream>) {
    if !Valid(k) then (w, Err(InvalidInput))
    else
      var w1 := Logged(w, GetCall(k));
      (Pop(w1),
       if Head(w1) != Fine then Err(Storage)
       else if k in w.objs then Ok(Delivers(w.objs[k]))
       else Err(NotFound(k)))
  }

  function BaseExists(w: World, k: string): (World, Result<bool>) {
    if !Valid(k) then (w, Err(InvalidInput))
    else
      var w1 := Logged(w, ExistsCall(k));
      (Pop(w1), if Head(w1) != Fine then Err(Storage) else Ok(k in w.objs))
  }

  ghost function BaseList(w: World, f: Filter): (World, Result<seq<string>>) {
    var w1 := Logged(w, ListCall(f.hint));
    (Pop(w1),
     if Head(w1) != Fine then Err(Storage)
     else Ok(Listing(set k | k in w.objs && Selects(f, k))))
  }

  // ---------------------------------------------------------------------------
  // The layers
  // ---------------------------------------------------------------------------

  /** A backend wrapped in layers, outermost first. */
  datatype Store =
    | Base
    | Prefixed(prefix: string, inner: Store)
    | Encrypted(provider: Provider, suffix: string, inner: Store)
    | Cleanable(inner: Store)

  predicate PrefixAccepts(p: string, k: string) {
    Valid(k) && Valid(p + k)
  }

  predicate EncryptAccepts(x: string, k: string) {
    Valid(k) && !EndsWith(k, x) && Valid(k + x)
  }

  predicate AllBlobsValid(blobs: seq<Blob>) {
    forall b :: b in blobs ==> Valid(b.key)
  }

  predicate PrefixAcceptsBlobs(p: string, blobs: seq<Blob>) {
    forall b :: b in blobs ==> PrefixAccepts(p, b.key)
  }

  predicate PrefixAcceptsAll(p: string, ks: seq<string>) {
    forall k :: k in ks ==> PrefixAccepts(p, k)
  }

  predicate EncryptAcceptsBlobs(x: string, blobs: seq<Blob>) {
    forall b :: b in blobs ==> EncryptAccepts(x, b.key)
  }

  predicate NoHeaderKeys(x: string, ks: seq<string>) {
    forall k :: k in ks ==> !EndsWith(k, x)
  }

  function AddPrefix(p: string, ks: seq<string>): (r: seq<string>)
    ensures |r| == |ks| && forall i :: 0 <= i < |ks| ==> r[i] == p + ks[i]
  {
    if ks == [] then [] else [p + ks[0]] + AddPrefix(p, ks[1..])
  }

  function PrefixBlobs(p: string, blobs: seq<Blob>): (r: seq<Blob>)
    ensures |r| == |blobs|
    ensures forall i :: 0 <= i < |blobs| ==> r[i] == blobs[i].(key := p + blobs[i].key)
  {
    if blobs == [] then []
    else [blobs[0].(key := p + blobs[0].key)] + PrefixBlobs(p, blobs[1..])
  }

  /** Strip the prefix where it is present, leaving other keys as they are. */
  function StripEach(p: string, ks: seq<string>): (r: seq<string>)
  {
    if ks == [] then []
    else [if StartsWith(ks[0], p) then ks[0][|p|..] else ks[0]] + StripEach(p, ks[1..])
  }

  /** Every key followed by its header key. */
  function WithHeaders(x: string, ks: seq<string>): (r: seq<string>)
  {
    if ks == [] then [] else [ks[0], ks[0] + x] + WithHeaders(x, ks[1..])
  }

  function NotHeader(x: string): string -> bool {
    k => !EndsWith(k, x)
  }

  function RelabelNotFound<T>(k: string, r: Result<T>): Result<T> {
    if r.Err? && r.error.NotFound? then Err(NotFound(k)) else r
  }

  function StripPut(p: string, done: (World, Result<seq<string>>)): (World, Result<seq<string>>) {
    (done.0, if done.1.Ok? then Ok(StripEach(p, done.1.value)) else done.1)
  }

  function StripBatch(p: string, r: Result<Unit>): Result<Unit> {
    if r.Err? && r.error.Batch?
    then Err(Batch(StripAll(p, r.error.succeeded), StripEach(p, r.error.errors)))
    else r
  }

  /** Drop everything but the caller's own keys from a batch error. */
  function HideHeaders(ks: seq<string>, r: Result<Unit>): Result<Unit> {
    if r.Err? && r.error.Batch? then
      var own := (k: string) => k in ks;
      var errors := Keep(r.error.errors, own);
      if errors == [] then Ok(Unit) else Err(Batch(Keep(r.error.succeeded, own), errors))
    else r
  }

  function Put(s: Store, w: World, blobs: seq<Blob>): (World, Result<seq<string>>)
    decreases s, 0, 0
  {
    match s
    case Base =>
      if !AllBlobsValid(blobs) then (w, Err(InvalidInput))
      else BasePutFrom(w, blobs, [])
    case Prefixed(p, inner) =>
      if !PrefixAcceptsBlobs(p, blobs) then (w, Err(InvalidInput))
      else StripPut(p, Put(inner, w, PrefixBlobs(p, blobs)))
    case Encrypted(provider, x, inner) =>
      if !EncryptAcceptsBlobs(x, blobs) then (w, Err(InvalidInput))
      else EncryptedPutFrom(provider, x, inner, w, blobs, [])
    case Cleanable(inner) => Put(inner, w, blobs)
  }

  function EncryptedPutFrom(provider: Provider, x: string, inner: Store, w: World, blobs: seq<Blob>, metas: seq<string>)
    : (World, Result<seq<string>>)
    decreases inner, 2, |blobs|
  {
    if blobs == [] then (w, Ok(metas))
    else
      var (w1, r) := EncryptedPutOne(provider, x, inner, w, blobs[0]);
      if r.Err? then (w1, r)
      else EncryptedPutFrom(provider, x, inner, w1, blobs[1..], metas + r.value)
  }

  /** One blob: data object, then header object; either late failure triggers an
      attempt to delete the data object again, whose outcome is ignored. */
  function EncryptedPutOne(provider: Provider, x: string, inner: Store, w: World, b: Blob)
    : (World, Result<seq<string>>)
    decreases inner, 1, 0
  {
    var stored := Put(inner, w, [b.(data := Ciphertext(provider, b))]);
    if stored.1.Err? then stored else FinishPut(provider, x, inner, stored.0, b, stored.1.value)
  }

  /** The part after the data object is stored. */
  function FinishPut(provider: Provider, x: string, inner: Store, w: World, b: Blob, stored: seq<string>)
    : (World, Result<seq<string>>)
    decreases inner, 0, 1
  {
    if b.sealing.Breaks? then (Delete(inner, w, [b.key]).0, Err(Encryption))
    else
      var header := provider.seal(b.sealing.nonce, b.data).header;
      var wrapped := Put(inner, w, [Blob(b.key + x, header, b.sealing)]);
      if wrapped.1.Err? then (Delete(inner, wrapped.0, [b.key]).0, Err(wrapped.1.error))
      else (wrapped.0, Ok(Keep(stored, NotHeader(x))))
  }

  function Delete(s: Store, w: World, keys: seq<string>): (World, Result<Unit>)
    decreases s, 0, 0
  {
    match s
    case Base =>
      if !AllValid(keys) then (w, Err(InvalidInput))
      else BaseDeleteFrom(Logged(w, DeleteCall(keys)), keys, [], [])
    case Prefixed(p, inner) =>
      if !PrefixAcceptsAll(p, keys) then (w, Err(InvalidInput))
      else
        var done := Delete(inner, w, AddPrefix(p, keys));
        (done.0, StripBatch(p, done.1))
    case Encrypted(_, x, inner) =>
      if !NoHeaderKeys(x, keys) then (w, Err(InvalidInput))
      else
        var done := Delete(inner, w, WithHeaders(x, keys));
        (done.0, HideHeaders(keys, done.1))
    case Cleanable(inner) => Delete(inner, w, keys)
  }

  /** Combine the two streams of an encrypted blob. */
  function Decrypted(provider: Provider, data: Stream, header: Bytes): Stream {
    if data.FailsAtEnd? then FailsAtEnd
    else
      match provider.open(data.bytes, header)
      case Some(plain) => Delivers(plain)
      case None => FailsAtEnd
  }

  /** The rest of `get` once the data stream is open and the header has been fetched. */
  function DecryptedWith(provider: Provider, k: string, data: Stream, header: Result<Stream>): Result<Stream> {
    if header.Err? then RelabelNotFound(k, header)
    else if header.value.FailsAtEnd? then Err(Storage)
    else Ok(Decrypted(provider, data, header.value.bytes))
  }

  function Get(s: Store, w: World, k: string): (World, Result<Stream>) {
    match s
    case Base => BaseGet(w, k)
    case Prefixed(p, inner) =>
      if !PrefixAccepts(p, k) then (w, Err(InvalidInput))
      else
        var (w1, r) := Get(inner, w, p + k);
        (w1, RelabelNotFound(k, r))
    case Encrypted(provider, x, inner) =>
      if EndsWith(k, x) then (w, Err(InvalidInput))
      else
        var (w1, data) := Get(inner, w, k);
        if data.Err? then (w1, RelabelNotFound(k, data))
        else
          var (w2, header) := Get(inner, w1, k + x);
          (w2, DecryptedWith(provider, k, data.value, header))
    case Cleanable(inner) => Get(inner, w, k)
  }

  function Exists(s: Store, w: World, k: string): (World, Result<bool>) {
    match s
    case Base => BaseExists(w, k)
    case Prefixed(p, inner) =>
      if !PrefixAccepts(p, k) then (w, Err(InvalidInput))
      else
        var (w1, r) := Exists(inner, w, p + k);
        (w1, RelabelNotFound(k, r))
    case Encrypted(_, x, inner) =>
      if EndsWith(k, x) then (w, Err(InvalidInput))
      else
        var (w1, data) := Exists(inner, w, k);
        if data.Err? || !data.value then (w1, data) else Exists(inner, w1, k + x)
    case Cleanable(inner) => Exists(inner, w, k)
  }

  ghost function List(s: Store, w: World, f: Filter): (World, Result<seq<string>>)
    decreases s, 1
  {
    match s
    case Base => BaseList(w, f)
    case Prefixed(p, inner) =>
      var (w1, r) := List(inner, w, CombinedPrefixFilter(p, f));
      (w1, if r.Err? then r else Ok(Keep(StripAll(p, r.value), f.matches)))
    case Encrypted(_, x, inner) =>
      var (w1, r) := List(inner, w, SuffixFilter(""));
      if r.Err? then (w1, r)
      else
        KeepWithHeader(x, inner, w1, Keep(Keep(r.value, NotHeader(x)), f.matches), [])
    case Cleanable(inner) => List(inner, w, f)
  }

  /** The loop that drops candidates whose header object is missing. */
  function KeepWithHeader(x: string, inner: Store, w: World, candidates: seq<string>, kept: seq<string>)
    : (World, Result<seq<string>>)
    decreases |candidates|
  {
    if candidates == [] then (w, Ok(kept))
    else
      var (w1, r) := Exists(inner, w, candidates[0] + x);
      if r.Err? then (w1, Err(r.error))
      else KeepWithHeader(x, inner, w1, candidates[1..], if r.value then kept + [candidates[0]] else kept)
  }

  /** One step of `visit`: which key, if any, the chain of layer visitors forwards
      when the backend traversal comes to the object `full`. */
  function Reach(s: Store, w: World, f: Filter, full: string): (World, Result<Option<string>>) {
    match s
    case Base => (w, Ok(if Selects(f, full) then Some(full) else None))
    case Prefixed(p, inner) =>
      var (w1, r) := Reach(inner, w, CombinedPrefixFilter(p, f), full);
      (w1,
       if r.Err? || r.value.None? then r
       else if StartsWith(r.value.value, p) && f.matches(r.value.value[|p|..])
       then Ok(Some(r.value.value[|p|..]))
       else Ok(None))
    case Encrypted(_, x, inner) =>
      var (w1, r) := Reach(inner, w, SuffixFilter(""), full);
      if r.Err? || r.value.None? then (w1, r)
      else if EndsWith(r.value.value, x) then (w1, Ok(None))
      else
        var (w2, header) := Exists(inner, w1, r.value.value + x);
        (w2,
         if header.Err? then Err(header.error)
         else if !header.value || !f.matches(r.value.value) then Ok(None)
         else r)
    case Cleanable(inner) => Reach(inner, w, f, full)
  }
}
