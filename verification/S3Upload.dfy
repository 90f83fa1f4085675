/** The S3 backend's streaming put: look ahead, then upload whole or in numbered parts. */
module S3Upload {
  import opened Stores

  const MIN_PART: nat := 5 * 1024 * 1024
  const DEFAULT_PART: nat := 50 * 1024 * 1024

  /** `with_multipart_part_size`. */
  function PartSize(wanted: nat): (size: nat)
    ensures size >= MIN_PART && size >= wanted && (size == wanted || size == MIN_PART)
  {
    if wanted < MIN_PART then MIN_PART else wanted
  }

  // ---------------------------------------------------------------------------
  // Chunks
  // ---------------------------------------------------------------------------

  function Least(a: nat, b: nat): nat {
    if a < b then a else b
  }

  /** Cut `s` into pieces of `n` elements, the last one possibly shorter. */
  function Chunks<T>(s: seq<T>, n: nat): seq<seq<T>>
    requires n > 0
    decreases |s|
  {
    if s == [] then [] else [s[..Least(n, |s|)]] + Chunks(s[Least(n, |s|)..], n)
  }

  function Flatten<T>(cs: seq<seq<T>>): seq<T> {
    if cs == [] then [] else cs[0] + Flatten(cs[1..])
  }

  lemma {:induction false} ChunksFlatten<T>(s: seq<T>, n: nat)
    requires n > 0
    ensures Flatten(Chunks(s, n)) == s
    decreases |s|
  {
    if s != [] {
      var m := Least(n, |s|);
      ChunksFlatten(s[m..], n);
      assert Chunks(s, n)[1..] == Chunks(s[m..], n);
      assert s == s[..m] + s[m..];
    }
  }

  /** All chunks but the last are full, the last is not empty, and their number c is
      |s| / n rounded up: n * (c - 1) < |s| <= n * c. */
  lemma {:induction false} ChunkSizes<T>(s: seq<T>, n: nat)
    requires n > 0
    ensures forall i :: 0 <= i < |Chunks(s, n)| ==> 0 < |Chunks(s, n)[i]| <= n
    ensures forall i :: 0 <= i < |Chunks(s, n)| - 1 ==> |Chunks(s, n)[i]| == n
    ensures n * |Chunks(s, n)| >= |s|
    ensures s != [] ==> n * (|Chunks(s, n)| - 1) < |s|
    decreases |s|
  {
    if s != [] {
      var rest := s[Least(n, |s|)..];
      ChunkSizes(rest, n);
      var cs, cs' := Chunks(s, n), Chunks(rest, n);
      assert n * |cs| == n + n * |cs'|;
      assert n * (|cs| - 1) == n * |cs'|;
      if rest != [] {
        assert n * (|cs'| - 1) == n * |cs'| - n;
      } else {
        assert cs' == [];
      }
    }
  }

  // ---------------------------------------------------------------------------
  // The stream
  // ---------------------------------------------------------------------------

  /** A stream that delivers `rest` in pieces of its own choosing and may break;
      `failures` counts the reads that did. */
  class Reader {
    var rest: Bytes
    var failures: nat

    constructor (data: Bytes)
      ensures rest == data && failures == 0
    {
      rest, failures := data, 0;
    }

    /** One read into a buffer with room for `room` bytes: at least one byte unless the
        stream has ended, and no more than fits. */
    method Read(room: nat) returns (ok: bool, piece: Bytes)
      requires room > 0
      modifies this
      ensures old(rest) == piece + rest && |piece| <= room
      ensures ok ==> (piece == [] <==> old(rest) == [])
      ensures failures == old(failures) + if ok then 0 else 1
    {
      piece := [];
      ok := *;
      if !ok { failures := failures + 1; }
      if ok && rest != [] {
        var n: nat :| 0 < n <= room && n <= |rest|;
        piece := rest[..n];
        rest := rest[n..];
        assert old(rest) == piece + rest;
      }
    }
  }

  /** `lookahead.chain(reader)`: the bytes already read come first. */
  class Chained {
    var ahead: Bytes
    const source: Reader

    constructor (ahead: Bytes, source: Reader)
      ensures this.ahead == ahead && this.source == source
    {
      this.ahead := ahead;
      this.source := source;
    }

    ghost function Rest(): Bytes
      reads this, source
    {
      ahead + source.rest
    }

    method Read(room: nat) returns (ok: bool, piece: Bytes)
      requires room > 0
      modifies this, source
      ensures old(Rest()) == piece + Rest() && |piece| <= room
      ensures ok ==> (piece == [] <==> old(Rest()) == [])
      ensures source.failures == old(source.failures) + if ok then 0 else 1
    {
      if ahead != [] {
        var n: nat :| 0 < n <= room && n <= |ahead|;
        piece := ahead[..n];
        ahead := ahead[n..];
        ok := true;
        assert old(Rest()) == piece + Rest();
      } else {
        ok, piece := source.Read(room);
      }
    }

    /** `take(size).read_to_end`: fill one part however short the single reads are. */
    method ReadPart(size: nat) returns (ok: bool, part: Bytes)
      requires size > 0
      modifies this, source
      ensures old(Rest()) == part + Rest()
      ensures ok ==> part == old(Rest())[..Least(size, |old(Rest())|)]
      ensures source.failures == old(source.failures) + if ok then 0 else 1
    {
      part := [];
      var ended := false;
      while |part| < size && !ended
        invariant old(Rest()) == part + Rest() && |part| <= size
        invariant ended ==> Rest() == []
        invariant source.failures == old(source.failures)
        decreases size - |part|, !ended
      {
        ghost var before := Rest();
        var piece;
        ok, piece := Read(size - |part|);
        part := part + piece;
        assert old(Rest()) == part + Rest();
        if !ok { return; }
        if piece == [] { ended := true; }
      }
      ok := true;
    }
  }

  // ---------------------------------------------------------------------------
  // The object server
  // ---------------------------------------------------------------------------

  datatype Event =
    | StoredWhole(key: string, data: Bytes)
    | Created(id: nat, key: string)
    | StoredPart(id: nat, number: int, data: Bytes)
    | Completed(id: nat, numbers: seq<int>)
    | CompleteRefused(id: nat)
    | Aborted(id: nat)

  function Assemble(parts: map<int, Bytes>, numbers: seq<int>): Bytes
    requires forall i :: 0 <= i < |numbers| ==> numbers[i] in parts
  {
    if numbers == [] then [] else parts[numbers[0]] + Assemble(parts, numbers[1..])
  }

  /** What the service demands of a completion request: numbers from 1 upwards in
      ascending order, all uploaded, and every part but the last of the minimum size. */
  ghost predicate ValidManifest(parts: map<int, Bytes>, numbers: seq<int>) {
    && numbers != []
    && (forall i :: 0 <= i < |numbers| ==> numbers[i] in parts && numbers[i] >= 1)
    && (forall i :: 0 <= i < |numbers| - 1 ==> numbers[i] < numbers[i + 1] && |parts[numbers[i]]| >= MIN_PART)
  }

  /** A bucket. Every request may be refused; a refused request changes no object.
      `refusals` counts them (aborts aside). */
  class Server {
    var objects: map<string, Bytes>
    var uploads: map<nat, map<int, Bytes>>
    var events: seq<Event>
    var refusals: nat

    constructor ()
      ensures objects == map[] && events == [] && refusals == 0
    {
      objects, uploads, events, refusals := map[], map[], [], 0;
    }

    method PutObject(key: string, data: Bytes) returns (ok: bool)
      modifies this
      ensures uploads == old(uploads)
      ensures ok ==> objects == old(objects)[key := data] && events == old(events) + [StoredWhole(key, data)]
      ensures !ok ==> objects == old(objects) && events == old(events)
      ensures refusals == old(refusals) + if ok then 0 else 1
    {
      ok := *;
      if ok {
        objects := objects[key := data];
        events := events + [StoredWhole(key, data)];
      } else {
        refusals := refusals + 1;
      }
    }

    method CreateUpload(key: string) returns (ok: bool, id: nat)
      modifies this
      ensures objects == old(objects)
      ensures ok ==> id in uploads && uploads[id] == map[] && events == old(events) + [Created(id, key)]
      ensures !ok ==> events == old(events)
      ensures refusals == old(refusals) + if ok then 0 else 1
    {
      ok, id := *, 0;
      if ok {
        id := *;
        uploads := uploads[id := map[]];
        events := events + [Created(id, key)];
      } else {
        refusals := refusals + 1;
      }
    }

    method UploadPart(id: nat, number: int, data: Bytes) returns (ok: bool)
      requires id in uploads
      modifies this
      ensures objects == old(objects)
      ensures ok ==> uploads == old(uploads)[id := old(uploads)[id][number := data]] &&
                     events == old(events) + [StoredPart(id, number, data)]
      ensures !ok ==> uploads == old(uploads) && events == old(events)
      ensures refusals == old(refusals) + if ok then 0 else 1
    {
      ok := *;
      if ok {
        uploads := uploads[id := uploads[id][number := data]];
        events := events + [StoredPart(id, number, data)];
      } else {
        refusals := refusals + 1;
      }
    }

    method CompleteUpload(id: nat, key: string, numbers: seq<int>) returns (ok: bool)
      requires id in uploads && ValidManifest(uploads[id], numbers)
      modifies this
      ensures ok ==> objects == old(objects)[key := Assemble(old(uploads)[id], numbers)] &&
                     events == old(events) + [Completed(id, numbers)]
      ensures !ok ==> objects == old(objects) && events == old(events) + [CompleteRefused(id)]
      ensures refusals == old(refusals) + if ok then 0 else 1
    {
      ok := *;
      if ok {
        objects := objects[key := Assemble(uploads[id], numbers)];
        uploads := uploads - {id};
        events := events + [Completed(id, numbers)];
      } else {
        events := events + [CompleteRefused(id)];
        refusals := refusals + 1;
      }
    }

    method AbortUpload(id: nat)
      modifies this
      ensures objects == old(objects) && events == old(events) + [Aborted(id)] && refusals == old(refusals)
    {
      var works: bool := *;
      if works { uploads := uploads - {id}; }
      events := events + [Aborted(id)];
    }
  }

  // ---------------------------------------------------------------------------
  // The upload
  // ---------------------------------------------------------------------------

  function Numbers(n: nat): seq<int> {
    seq(n, i => i + 1)
  }

  /** The first `n` chunks, uploaded in order as parts 1 to `n`. */
  function PartEvents(id: nat, chunks: seq<Bytes>): seq<Event> {
    seq(|chunks|, i requires 0 <= i < |chunks| => StoredPart(id, i + 1, chunks[i]))
  }

  predicate PartIs(parts: map<int, Bytes>, n: int, data: Bytes) {
    n in parts && parts[n] == data
  }

  ghost predicate HoldsParts(parts: map<int, Bytes>, chunks: seq<Bytes>) {
    forall i :: 0 <= i < |chunks| ==> PartIs(parts, i + 1, chunks[i])
  }

  lemma {:induction false} AssembleChunks(parts: map<int, Bytes>, chunks: seq<Bytes>, from: nat)
    requires HoldsParts(parts, chunks) && from <= |chunks|
    requires forall i :: from <= i < |chunks| ==> Numbers(|chunks|)[i] in parts
    ensures Assemble(parts, Numbers(|chunks|)[from..]) == Flatten(chunks[from..])
    decreases |chunks| - from
  {
    var numbers := Numbers(|chunks|);
    if from < |chunks| {
      assert numbers[from..][0] == from + 1 && numbers[from..][1..] == numbers[from + 1..];
      assert chunks[from..][1..] == chunks[from + 1..];
      AssembleChunks(parts, chunks, from + 1);
    }
  }

  /** How a multipart upload can have gone, by what it left in the event log. */
  ghost predicate UploadTrace(trace: seq<Event>, key: string, chunks: seq<Bytes>, ok: bool) {
    if ok then
      exists id :: trace == [Created(id, key)] + PartEvents(id, chunks) + [Completed(id, Numbers(|chunks|))]
    else
      || trace == []
      || (exists id, n ::
            0 <= n <= |chunks| && trace == [Created(id, key)] + PartEvents(id, chunks[..n]) + [Aborted(id)])
      || (exists id :: trace == [Created(id, key)] + PartEvents(id, chunks) + [CompleteRefused(id)])
  }

  /** No request was refused and no read broke since. */
  predicate Undisturbed(refusals: nat, oldRefusals: nat, failures: nat, oldFailures: nat) {
    refusals == oldRefusals && failures == oldFailures
  }

  method UploadParts(server: Server, id: nat, input: Chained, partSize: nat)
      returns (ok: bool, completed: seq<int>, size: nat)
    requires partSize >= MIN_PART && id in server.uploads && server.uploads[id] == map[]
    modifies server, input, input.source
    ensures server.objects == old(server.objects)
    ensures ok <==>
              Undisturbed(server.refusals, old(server.refusals), input.source.failures, old(input.source.failures))
    ensures var chunks := Chunks(old(input.Rest()), partSize);
            if ok then
              && completed == Numbers(|chunks|) && size == |old(input.Rest())|
              && id in server.uploads && HoldsParts(server.uploads[id], chunks)
              && server.events == old(server.events) + PartEvents(id, chunks)
            else
              exists n :: 0 <= n <= |chunks| &&
                 server.events == old(server.events) + PartEvents(id, chunks[..n]) + [Aborted(id)]
  {
    ghost var data := input.Rest();
    ghost var chunks := Chunks(data, partSize);
    completed, size := [], 0;
    var partNumber := 1;
    while true
      invariant partNumber == |completed| + 1 && |completed| <= |chunks|
      invariant completed == Numbers(|completed|)
      invariant size + |input.Rest()| == |data|
      invariant Chunks(input.Rest(), partSize) == chunks[|completed|..]
      invariant id in server.uploads && HoldsParts(server.uploads[id], chunks[..|completed|])
      invariant server.objects == old(server.objects)
      invariant server.refusals == old(server.refusals) && input.source.failures == old(input.source.failures)
      invariant server.events == old(server.events) + PartEvents(id, chunks[..|completed|])
      decreases |input.Rest()|
    {
      ghost var n := |completed|;
      ghost var before := input.Rest();
      var part;
      ok, part := input.ReadPart(partSize);
      if !ok {
        server.AbortUpload(id);
        return;
      }
      if part == [] { break; }
      assert before != [];
      ChunkStep(data, before, partSize, chunks, n);
      assert input.Rest() == before[|part|..];
      size := size + |part|;
      HoldsMore(server.uploads[id], chunks, n, part);
      ok := server.UploadPart(id, partNumber, part);
      if !ok {
        server.AbortUpload(id);
        return;
      }
      assert chunks[..n + 1] == chunks[..n] + [part];
      assert PartEvents(id, chunks[..n + 1]) == PartEvents(id, chunks[..n]) + [StoredPart(id, n + 1, part)];
      completed := completed + [partNumber];
      assert Numbers(n + 1) == Numbers(n) + [n + 1];
      partNumber := partNumber + 1;
    }
    assert chunks[..|completed|] == chunks;
    ok := true;
  }

  lemma HoldsMore(parts: map<int, Bytes>, chunks: seq<Bytes>, n: nat, part: Bytes)
    requires n < |chunks| && part == chunks[n] && HoldsParts(parts, chunks[..n])
    ensures HoldsParts(parts[n + 1 := part], chunks[..n + 1])
  {
    var parts' := parts[n + 1 := part];
    forall i | 0 <= i < n
      ensures PartIs(parts', i + 1, chunks[i])
    {
      assert chunks[..n][i] == chunks[i];
    }
    assert PartIs(parts', n + 1, chunks[n]);
    assert forall i :: 0 <= i <= n ==> chunks[..n + 1][i] == chunks[i];
  }

  lemma ChunkStep(data: Bytes, before: Bytes, partSize: nat, chunks: seq<Bytes>, n: nat)
    requires partSize > 0 && n <= |chunks| && Chunks(before, partSize) == chunks[n..] && before != []
    ensures n < |chunks| && chunks[n] == before[..Least(partSize, |before|)]
    ensures Chunks(before[Least(partSize, |before|)..], partSize) == chunks[n + 1..]
  {
    assert Chunks(before, partSize)[1..] == chunks[n..][1..] == chunks[n + 1..];
    assert Chunks(before, partSize)[0] == chunks[n];
  }

  lemma ChunksManifest(parts: map<int, Bytes>, data: Bytes, partSize: nat)
    requires partSize >= MIN_PART && data != []
    requires HoldsParts(parts, Chunks(data, partSize))
    ensures ValidManifest(parts, Numbers(|Chunks(data, partSize)|))
  {
    var chunks := Chunks(data, partSize);
    ChunkSizes(data, partSize);
    assert chunks != [];
    var numbers := Numbers(|chunks|);
    forall i | 0 <= i < |numbers|
      ensures numbers[i] == i + 1 && numbers[i] in parts && parts[numbers[i]] == chunks[i]
    {
      assert PartIs(parts, i + 1, chunks[i]);
    }
  }

  lemma TraceOf(before: seq<Event>, a: seq<Event>, b: seq<Event>, c: seq<Event>)
    ensures (before + a + b + c)[|before|..] == a + b + c && before <= before + a + b + c
  {}

  method UploadMultipart(server: Server, key: string, input: Chained, partSize: nat) returns (ok: bool, size: nat)
    requires partSize >= MIN_PART && |input.Rest()| > 0
    modifies server, input, input.source
    ensures ok ==> server.objects == old(server.objects)[key := old(input.Rest())] && size == |old(input.Rest())|
    ensures !ok ==> server.objects == old(server.objects)
    ensures ok <==>
              Undisturbed(server.refusals, old(server.refusals), input.source.failures, old(input.source.failures))
    ensures old(server.events) <= server.events
    ensures UploadTrace(server.events[|old(server.events)|..], key, Chunks(old(input.Rest()), partSize), ok)
  {
    ghost var data := input.Rest();
    ghost var chunks := Chunks(data, partSize);
    ghost var m := |server.events|;
    var id;
    size := 0;
    ok, id := server.CreateUpload(key);
    if !ok {
      assert server.events[m..] == [];
      return;
    }
    var completed;
    ok, completed, size := UploadParts(server, id, input, partSize);
    if !ok {
      ghost var n :| 0 <= n <= |chunks| &&
          server.events == old(server.events) + [Created(id, key)] + PartEvents(id, chunks[..n]) + [Aborted(id)];
      TraceOf(old(server.events), [Created(id, key)], PartEvents(id, chunks[..n]), [Aborted(id)]);
      return;
    }
    ChunksManifest(server.uploads[id], data, partSize);
    ChunksFlatten(data, partSize);
    assert completed[0..] == completed && chunks[0..] == chunks;
    AssembleChunks(server.uploads[id], chunks, 0);
    ok := server.CompleteUpload(id, key, completed);
    if ok {
      TraceOf(old(server.events), [Created(id, key)], PartEvents(id, chunks), [Completed(id, Numbers(|chunks|))]);
    } else {
      TraceOf(old(server.events), [Created(id, key)], PartEvents(id, chunks), [CompleteRefused(id)]);
    }
  }

  /** `put` of one blob: whatever the stream's read sizes, it succeeds exactly if no read
      and no request fails; success stores exactly the input, and any failure leaves every
      object as it was. Inputs below the minimum go up whole; the others as
      `Chunks(input, partSize)` numbered from 1, with exactly one abort if a read or a part
      fails and none otherwise. */
  method PutStream(server: Server, key: string, reader: Reader, partSize: nat) returns (ok: bool, size: nat)
    requires partSize >= MIN_PART
    modifies server, reader
    ensures ok ==> server.objects == old(server.objects)[key := old(reader.rest)] && size == |old(reader.rest)|
    ensures !ok ==> server.objects == old(server.objects)
    ensures ok <==> Undisturbed(server.refusals, old(server.refusals), reader.failures, old(reader.failures))
    ensures old(server.events) <= server.events
    ensures var input := old(reader.rest);
            var trace := server.events[|old(server.events)|..];
            if |input| < MIN_PART then trace == if ok then [StoredWhole(key, input)] else []
               else UploadTrace(trace, key, Chunks(input, partSize), ok)
  {
    ghost var input := reader.rest;
    ghost var m := |server.events|;
    var lookahead: Bytes := [];
    var totalRead := 0;
    size := 0;
    var ended := false;
    while totalRead < MIN_PART && !ended
      invariant input == lookahead + reader.rest && totalRead == |lookahead|
      invariant ended ==> reader.rest == []
      invariant server.objects == old(server.objects) && server.events == old(server.events)
      invariant server.refusals == old(server.refusals) && reader.failures == old(reader.failures)
      decreases MIN_PART - totalRead, !ended
    {
      var spare: nat :| spare >= MIN_PART - totalRead;
      var piece;
      ok, piece := reader.Read(spare);
      lookahead := lookahead + piece;
      assert input == lookahead + reader.rest;
      if !ok {
        assert server.events[m..] == [];
        return;
      }
      if piece == [] { ended := true; }
      totalRead := totalRead + |piece|;
    }
    if totalRead < MIN_PART {
      assert lookahead == input;
      ok := server.PutObject(key, lookahead);
      size := |lookahead|;
      assert server.events[m..] == if ok then [StoredWhole(key, input)] else [];
    } else {
      var combined := new Chained(lookahead, reader);
      assert combined.Rest() == input;
      ok, size := UploadMultipart(server, key, combined, partSize);
    }
  }
}
