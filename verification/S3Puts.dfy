/** The S3 backend's `put` of a batch: the blobs go up one after the other. */
module S3Puts {
  import opened Keys
  import opened Stores
  import opened S3Upload

  datatype Input = Input(key: string, reader: Reader)

  /** The batch as values: what each reader will deliver. */
  ghost function Batch(inputs: seq<Input>): (blobs: seq<Blob>)
    reads set input | input in inputs :: input.reader
    ensures |blobs| == |inputs|
    ensures forall i :: 0 <= i < |inputs| ==> blobs[i] == Blob(inputs[i].key, inputs[i].reader.rest, Completes([]))
  {
    if inputs == [] then []
    else
      assert forall input :: input in inputs[1..] ==> input in inputs;
      [Blob(inputs[0].key, inputs[0].reader.rest, Completes([]))] + Batch(inputs[1..])
  }

  function Overwritten(objs: map<string, Bytes>, blobs: seq<Blob>): map<string, Bytes> {
    if blobs == [] then objs
    else
      var b := blobs[|blobs| - 1];
      Overwritten(objs, blobs[..|blobs| - 1])[b.key := b.data]
  }

  /** The backend fails at the blob numbered `n`, if there is one. */
  function FailAt(n: nat): seq<Fault> {
    seq(n, _ => Fine) + [KeyFails]
  }

  lemma {:induction false} FailAtRun(w: World, blobs: seq<Blob>, n: nat, metas: seq<string>)
    requires n <= |blobs| && w.faults == FailAt(n)
    ensures var (w', r) := BasePutFrom(w, blobs, metas);
            && w'.objs == Overwritten(w.objs, blobs[..n])
            && r == if n < |blobs| then Err(Storage) else Ok(metas + KeysOf(blobs))
    decreases |blobs|
  {
    if n == 0 {
      assert blobs[..0] == [] && w.faults[0] == KeyFails;
      if blobs == [] { assert metas + [] == metas; }
    } else {
      var b, rest := blobs[0], blobs[1..];
      var w1 := Logged(w, PutCall(b.key, b.data));
      var w2 := Pop(w1).(objs := w.objs[b.key := b.data]);
      assert w.faults[0] == Fine && w.faults[1..] == FailAt(n - 1);
      FailAtRun(w2, rest, n - 1, metas + [b.key]);
      assert blobs[..n] == [b] + rest[..n - 1];
      OverwrittenFirst(w.objs, b, rest[..n - 1]);
      Assoc(metas, [b.key], KeysOf(rest));
    }
  }

  lemma {:induction false} OverwrittenFirst(objs: map<string, Bytes>, b: Blob, rest: seq<Blob>)
    ensures Overwritten(objs, [b] + rest) == Overwritten(objs[b.key := b.data], rest)
  {
    if rest == [] {
      assert [b] + rest == [b] && [b][..0] == [];
    } else {
      assert ([b] + rest)[..|rest|] == [b] + rest[..|rest| - 1];
      OverwrittenFirst(objs, b, rest[..|rest| - 1]);
    }
  }

  ghost predicate DistinctReaders(inputs: seq<Input>) {
    forall i, j :: 0 <= i < j < |inputs| ==> inputs[i].reader != inputs[j].reader
  }

  /** From objects `a`, the backend's `put` that fails at blob `n` leaves `b`. */
  ghost predicate IsBackendPut(a: map<string, Bytes>, blobs: seq<Blob>, n: nat, b: map<string, Bytes>,
                               r: Result<seq<string>>) {
    n <= |blobs| &&
    var (w, r') := BasePutFrom(World(a, [], FailAt(n)), blobs, []);
    w.objs == b && r == r'
  }

  method CheckKeys(inputs: seq<Input>) returns (valid: bool)
    ensures valid <==> forall i :: 0 <= i < |inputs| ==> Valid(inputs[i].key)
  {
    for i := 0 to |inputs|
      invariant forall j :: 0 <= j < i ==> Valid(inputs[j].key)
    {
      if !Valid(inputs[i].key) { return false; }
    }
    valid := true;
  }

  method PutOne(server: Server, input: Input, partSize: nat) returns (ok: bool)
    requires partSize >= MIN_PART
    modifies server, input.reader
    ensures server.objects ==
              if ok then old(server.objects)[input.key := old(input.reader.rest)] else old(server.objects)
    ensures ok <==>
              Undisturbed(server.refusals, old(server.refusals), input.reader.failures, old(input.reader.failures))
  {
    var size;
    ok, size := PutStream(server, input.key, input.reader, partSize);
  }

  /** No request has been refused and no read has broken since. */
  twostate predicate AllUndisturbed(server: Server, inputs: seq<Input>)
    reads server, set input | input in inputs :: input.reader
  {
    server.refusals == old(server.refusals) &&
    forall input :: input in inputs ==> input.reader.failures == old(input.reader.failures)
  }

  /** The loop: `n` blobs are stored, all of them unless something failed. */
  method PutAll(server: Server, inputs: seq<Input>, partSize: nat) returns (n: nat)
    requires partSize >= MIN_PART && DistinctReaders(inputs)
    modifies server, set input | input in inputs :: input.reader
    ensures n <= |inputs| && server.objects == Overwritten(old(server.objects), old(Batch(inputs))[..n])
    ensures n == |inputs| <==> AllUndisturbed(server, inputs)
  {
    ghost var blobs := Batch(inputs);
    n := 0;
    while n < |inputs|
      invariant n <= |inputs|
      invariant forall j :: n <= j < |inputs| ==> inputs[j].reader.rest == blobs[j].data
      invariant server.objects == Overwritten(old(server.objects), blobs[..n])
      invariant AllUndisturbed(server, inputs)
    {
      assert inputs[n] in inputs;
      var ok := PutOne(server, inputs[n], partSize);
      if !ok { return; }
      assert blobs[..n + 1] == blobs[..n] + [blobs[n]];
      n := n + 1;
    }
  }

  /** One invalid key rejects the batch before anything is read or sent. Otherwise this is
      the backend's `put`, which fails at the first blob with a failing read or request
      and leaves the blobs before it stored. */
  method Put(server: Server, inputs: seq<Input>, partSize: nat) returns (r: Result<seq<string>>)
    requires partSize >= MIN_PART && DistinctReaders(inputs)
    modifies server, set input | input in inputs :: input.reader
    ensures !AllBlobsValid(old(Batch(inputs))) ==>
              r == Err(InvalidInput) && server.objects == old(server.objects) && server.events == old(server.events)
    ensures AllBlobsValid(old(Batch(inputs))) ==>
              && (exists n :: IsBackendPut(old(server.objects), old(Batch(inputs)), n, server.objects, r))
              && (r.Ok? <==> AllUndisturbed(server, inputs))
  {
    ghost var blobs := Batch(inputs);
    var valid := CheckKeys(inputs);
    assert valid <==> AllBlobsValid(blobs) by {
      assert forall i :: 0 <= i < |inputs| ==> blobs[i] in blobs;
    }
    if !valid { return Err(InvalidInput); }
    ghost var objs := server.objects;
    var n := PutAll(server, inputs, partSize);
    r := if n < |inputs| then Err(Storage) else Ok(KeysOfInputs(inputs));
    KeysMatch(inputs, blobs);
    StoredIsBackend(objs, blobs, n);
    assert IsBackendPut(objs, blobs, n, server.objects, r);
  }

  function KeysOfInputs(inputs: seq<Input>): seq<string> {
    if inputs == [] then [] else [inputs[0].key] + KeysOfInputs(inputs[1..])
  }

  lemma {:induction false} KeysMatch(inputs: seq<Input>, blobs: seq<Blob>)
    requires |inputs| == |blobs| && forall i :: 0 <= i < |inputs| ==> blobs[i].key == inputs[i].key
    ensures KeysOfInputs(inputs) == KeysOf(blobs)
  {
    if inputs != [] { KeysMatch(inputs[1..], blobs[1..]); }
  }

  lemma StoredIsBackend(objs: map<string, Bytes>, blobs: seq<Blob>, n: nat)
    requires n <= |blobs|
    ensures IsBackendPut(objs, blobs, n, Overwritten(objs, blobs[..n]),
                         if n < |blobs| then Err(Storage) else Ok(KeysOf(blobs)))
  {
    FailAtRun(World(objs, [], FailAt(n)), blobs, n, []);
    assert [] + KeysOf(blobs) == KeysOf(blobs);
  }
}
