/** The S3 backend's batched delete and paged listing, against an abstract server. */
module S3Batches {
  import opened Keys
  import opened Filters
  import opened Stores
  import opened Deletes
  import opened Sorting
  import opened S3Upload

  const MAX_DELETE: nat := 1000

  /** An entry of a delete response that is not a plain success; `gone` stands for the
      codes that mean there was no such object. */
  datatype Refusal = Refusal(key: string, gone: bool)

  function RefusedAs(rs: seq<Refusal>, gone: bool): seq<string> {
    if rs == [] then []
    else (if rs[0].gone == gone then [rs[0].key] else []) + RefusedAs(rs[1..], gone)
  }

  function RefusedKeys(rs: seq<Refusal>): seq<string> {
    if rs == [] then [] else [rs[0].key] + RefusedKeys(rs[1..])
  }

  lemma {:induction false} RefusedSplits(rs: seq<Refusal>)
    ensures multiset(RefusedAs(rs, true)) + multiset(RefusedAs(rs, false)) == multiset(RefusedKeys(rs))
  {
    if rs != [] {
      var r, rest := rs[0], rs[1..];
      RefusedSplits(rest);
      assert RefusedAs(rs, r.gone) == [r.key] + RefusedAs(rest, r.gone);
      assert RefusedAs(rs, !r.gone) == RefusedAs(rest, !r.gone);
      MultisetCons(r.key, RefusedAs(rest, r.gone));
      MultisetCons(r.key, RefusedKeys(rest));
    }
  }

  /** `enumeration` is the server's own order of its keys, in which it pages; `failures`
      counts the requests it failed, and `denials` are the keys it refused to delete for
      another reason than their absence. */
  class Server {
    var objs: map<string, Bytes>
    var enumeration: seq<string>
    var deletes: seq<seq<string>>
    var failures: nat
    var denials: seq<string>

    ghost predicate Valid()
      reads this
    {
      Distinct(enumeration) && forall k :: k in enumeration <==> k in objs
    }

    constructor (objs: map<string, Bytes>, enumeration: seq<string>)
      requires Distinct(enumeration) && forall k :: k in enumeration <==> k in objs
      ensures Valid() && this.objs == objs && this.enumeration == enumeration
      ensures deletes == [] && failures == 0 && denials == []
    {
      this.objs, this.enumeration, deletes, failures, denials := objs, enumeration, [], 0, [];
    }

    /** Answers for every key, in any order; a key it refuses keeps its object. */
    method DeleteObjects(keys: seq<string>) returns (ok: bool, deleted: seq<string>, refusals: seq<Refusal>)
      requires Valid() && 0 < |keys| <= MAX_DELETE
      modifies this
      ensures Valid() && deletes == old(deletes) + [keys] && failures == old(failures) + if ok then 0 else 1
      ensures !ok ==> objs == old(objs) && denials == old(denials)
      ensures ok ==> denials == old(denials) + RefusedAs(refusals, false)
      ensures ok ==> multiset(deleted) + multiset(RefusedKeys(refusals)) == multiset(keys)
      ensures ok ==> objs == old(objs) - (set k | k in deleted)
      ensures forall r :: r in refusals && r.gone ==> r.key !in objs
    {
      deletes := deletes + [keys];
      ok, deleted, refusals := *, [], [];
      if !ok {
        failures := failures + 1;
        return;
      }
      deleted, refusals := Decide(keys);
      var left := objs - (set k | k in deleted);
      KeepMembers(enumeration, (k: string) => k in left);
      KeepDistinct(enumeration, (k: string) => k in left);
      objs, enumeration := left, Keep(enumeration, (k: string) => k in left);
      denials := denials + RefusedAs(refusals, false);
    }

    /** Which keys to delete and which to refuse: the server's choice. */
    method Decide(keys: seq<string>) returns (deleted: seq<string>, refusals: seq<Refusal>)
      ensures multiset(deleted) + multiset(RefusedKeys(refusals)) == multiset(keys)
      ensures forall r :: r in refusals && r.gone ==> r.key !in objs
    {
      deleted, refusals := [], [];
      for i := 0 to |keys|
        invariant multiset(deleted) + multiset(RefusedKeys(refusals)) == multiset(keys[..i])
        invariant forall r :: r in refusals && r.gone ==> r.key !in objs
      {
        assert keys[..i + 1] == keys[..i] + [keys[i]];
        var refuse: bool := *;
        if refuse {
          var refusal := Refusal(keys[i], keys[i] !in objs);
          assert RefusedKeys([refusal] + refusals) == [keys[i]] + RefusedKeys(refusals);
          refusals := [refusal] + refusals;
        } else {
          deleted := deleted + [keys[i]];
        }
      }
      assert keys[..|keys|] == keys;
    }

    /** One page of the keys under `prefix`, from position `start` of the enumeration. */
    method ListPage(prefix: string, start: nat) returns (ok: bool, contents: seq<string>, next: Option<nat>)
      requires start <= |enumeration|
      modifies this`failures
      ensures failures == old(failures) + if ok then 0 else 1
      ensures ok && next.Some? ==> start < next.value <= |enumeration|
      ensures ok ==> contents == Keep(enumeration[start..if next.Some? then next.value else |enumeration|],
                                      (k: string) => StartsWith(k, prefix))
    {
      ok, next := *, None;
      if !ok { failures := failures + 1; }
      var end := |enumeration|;
      if start < |enumeration| {
        end :| start < end <= |enumeration|;
        next := if end < |enumeration| then Some(end) else None;
      }
      contents := Keep(enumeration[start..end], (k: string) => StartsWith(k, prefix));
    }
  }

  // ---------------------------------------------------------------------------
  // Delete
  // ---------------------------------------------------------------------------

  lemma ChunkAt<T>(s: seq<T>, n: nat)
    requires n > 0 && s != []
    ensures var m := Least(n, |s|);
            Chunks(s, n) == [s[..m]] + Chunks(s[m..], n) && 0 < m
  {}

  lemma RestOf<T>(s: seq<T>, a: nat, b: nat)
    requires a <= b <= |s|
    ensures s[a..][b - a..] == s[b..] && s[a..][..b - a] == s[a..b] && s[..a] + s[a..b] == s[..b]
  {}

  ghost predicate Accounted(keys: seq<string>, succeeded: seq<string>, errors: seq<string>) {
    multiset(succeeded) + multiset(errors) == multiset(keys)
  }

  lemma LostMore(objs: map<string, Bytes>, a: seq<string>, b: seq<string>)
    ensures Lost(Lost(objs, a), b) == Lost(objs, a + b)
  {}

  lemma LostSame(objs: map<string, Bytes>, a: seq<string>, b: seq<string>)
    requires multiset(a) == multiset(b)
    ensures Lost(objs, a) == Lost(objs, b)
  {
    forall k
      ensures k in a <==> k in b
    {
      assert k in a <==> k in multiset(a);
      assert k in b <==> k in multiset(b);
    }
  }

  method DeleteChunk(server: Server, chunk: seq<string>) returns (ok: bool, succeeded: seq<string>, errors: seq<string>)
    requires server.Valid() && 0 < |chunk| <= MAX_DELETE
    modifies server
    ensures server.Valid() && server.deletes == old(server.deletes) + [chunk]
    ensures server.failures == old(server.failures) + if ok then 0 else 1
    ensures !ok ==> server.objs == old(server.objs) && server.denials == old(server.denials)
    ensures ok ==> server.denials == old(server.denials) + errors
    ensures ok ==> Accounted(chunk, succeeded, errors) && server.objs == Lost(old(server.objs), succeeded)
  {
    var deleted, refusals;
    ok, deleted, refusals := server.DeleteObjects(chunk);
    succeeded, errors := deleted + RefusedAs(refusals, true), RefusedAs(refusals, false);
    if ok {
      RefusedSplits(refusals);
      RefusedMembers(refusals);
      assert forall k :: k in RefusedAs(refusals, true) ==> k !in server.objs;
      assert server.objs == Lost(old(server.objs), succeeded);
    }
  }

  /** Requests carry the keys in order, at most 1000 each. The call is the backend's
      `delete` under some pattern of failing accesses, results up to order: a failing request
      ends the call before its first key; otherwise exactly the keys the server denies fail,
      each alone, and a key that is not there does not. */
  method Delete(server: Server, keys: seq<string>) returns (r: Result<Unit>)
    requires server.Valid()
    modifies server
    ensures server.Valid()
    ensures !AllValid(keys) ==>
              r == Err(InvalidInput) && server.deletes == old(server.deletes) && server.objs == old(server.objs)
    ensures server.failures == old(server.failures) + if r == Err(Storage) then 1 else 0
    ensures r != Err(Storage) ==>
              server.denials == old(server.denials) + if r.Err? && r.error.Batch? then r.error.errors else []
    ensures r.Err? && r.error.Batch? ==> r.error.errors != []
    ensures AllValid(keys) && r != Err(Storage) ==> server.deletes == old(server.deletes) + Chunks(keys, MAX_DELETE)
    ensures AllValid(keys) ==> exists faults :: IsBackendDelete(old(server.objs), keys, faults, server.objs, r)
  {
    if !AllValid(keys) { return Err(InvalidInput); }
    var succeeded: seq<string>, errors: seq<string> := [], [];
    var i := 0;
    while i < |keys|
      invariant i <= |keys| && server.Valid() && server.failures == old(server.failures)
      invariant server.denials == old(server.denials) + errors
      invariant server.deletes + Chunks(keys[i..], MAX_DELETE) == old(server.deletes) + Chunks(keys, MAX_DELETE)
      invariant Accounted(keys[..i], succeeded, errors) && server.objs == Lost(old(server.objs), succeeded)
    {
      ghost var deletes := server.deletes;
      var j := i + Least(MAX_DELETE, |keys| - i);
      ChunkAt(keys[i..], MAX_DELETE);
      RestOf(keys, i, j);
      var ok, gone, failed := DeleteChunk(server, keys[i..j]);
      assert deletes + [keys[i..j]] + Chunks(keys[j..], MAX_DELETE) == deletes + Chunks(keys[i..], MAX_DELETE);
      if !ok {
        BrokenIsBackend(old(server.objs), keys, i, succeeded, errors);
        return Err(Storage);
      }
      LostMore(old(server.objs), succeeded, gone);
      Assoc(old(server.denials), errors, failed);
      succeeded, errors, i := succeeded + gone, errors + failed, j;
    }
    assert keys[..i] == keys && server.deletes + [] == server.deletes;
    r := Report(succeeded, errors);
    AnsweredIsBackend(old(server.objs), keys, succeeded, errors);
  }

  lemma {:induction false} RefusedMembers(rs: seq<Refusal>)
    ensures forall k, gone :: k in RefusedAs(rs, gone) <==> Refusal(k, gone) in rs
  {
    if rs != [] {
      RefusedMembers(rs[1..]);
      assert rs == [rs[0]] + rs[1..];
    }
  }

  // ---------------------------------------------------------------------------
  // The same call on the abstract backend
  // ---------------------------------------------------------------------------

  predicate SameUpToOrder(a: Result<Unit>, b: Result<Unit>) {
    match (a, b)
    case (Err(Batch(s, e)), Err(Batch(s', e'))) => multiset(s) == multiset(s') && multiset(e) == multiset(e')
    case _ => a == b
  }

  /** From objects `a`, the backend's delete under `faults` leaves `b` and reports `r`. */
  ghost predicate IsBackendDelete(a: map<string, Bytes>, keys: seq<string>, faults: seq<Fault>, b: map<string, Bytes>,
                                  r: Result<Unit>) {
    var (w, r') := BaseDeleteFrom(World(a, [], faults), keys, [], []);
    w.objs == b && SameUpToOrder(r, r')
  }

  /** Let the first accesses to the keys of `errs` fail, as often as they occur there. */
  function Script(keys: seq<string>, errs: multiset<string>): (faults: seq<Fault>)
    ensures |faults| == |keys|
  {
    if keys == [] then []
    else if keys[0] in errs then [KeyFails] + Script(keys[1..], errs - multiset{keys[0]})
    else [Fine] + Script(keys[1..], errs)
  }

  lemma {:induction false} ScriptGoesThrough(keys: seq<string>, errs: multiset<string>, tail: seq<Fault>)
    ensures NoAbort(Script(keys, errs) + tail, |keys|) && Drop(Script(keys, errs) + tail, |keys|) == tail
    decreases |keys|
  {
    var script := Script(keys, errs);
    forall i | 0 <= i < |keys|
      ensures script[i] != CallFails
    {
      ScriptNeverAborts(keys, errs, i);
    }
    assert (script + tail)[|keys|..] == tail;
  }

  lemma {:induction false} ScriptNeverAborts(keys: seq<string>, errs: multiset<string>, i: nat)
    requires i < |keys|
    ensures Script(keys, errs)[i] != CallFails
    decreases |keys|
  {
    if i > 0 { ScriptNeverAborts(keys[1..], if keys[0] in errs then errs - multiset{keys[0]} else errs, i - 1); }
  }

  lemma TakeOut(errs: multiset<string>, k: string, rest: multiset<string>)
    requires errs <= multiset{k} + rest
    ensures k in errs ==> errs - multiset{k} <= rest && multiset{k} + (errs - multiset{k}) == errs
    ensures k !in errs ==> errs <= rest
  {}

  lemma CancelRight(a: multiset<string>, b: multiset<string>, c: multiset<string>)
    requires a + c == b + c
    ensures a == b
  {
    assert a == (a + c) - c && b == (b + c) - c;
  }

  /** Under that script exactly `errs` fail. */
  lemma {:induction false} ScriptFails(keys: seq<string>, errs: multiset<string>, tail: seq<Fault>)
    requires errs <= multiset(keys)
    ensures multiset(Pick(keys, Script(keys, errs) + tail, 1, false)) == errs
    decreases |keys|
  {
    if keys != [] {
      var k, rest := keys[0], keys[1..];
      assert keys == [k] + rest;
      MultisetCons(k, rest);
      TakeOut(errs, k, multiset(rest));
      if k in errs {
        ScriptFails(rest, errs - multiset{k}, tail);
        ScriptStep(keys, errs, tail);
        MultisetCons(k, Pick(rest, Script(rest, errs - multiset{k}) + tail, 1, false));
      } else {
        ScriptFails(rest, errs, tail);
        ScriptStep(keys, errs, tail);
      }
    }
  }

  lemma ScriptStep(keys: seq<string>, errs: multiset<string>, tail: seq<Fault>)
    requires keys != []
    ensures var rest := keys[1..];
            Pick(keys, Script(keys, errs) + tail, 1, false) ==
            if keys[0] in errs then [keys[0]] + Pick(rest, Script(rest, errs - multiset{keys[0]}) + tail, 1, false)
            else Pick(rest, Script(rest, errs) + tail, 1, false)
  {
    var fails := keys[0] in errs;
    var later := Script(keys[1..], if fails then errs - multiset{keys[0]} else errs) + tail;
    var faults := Script(keys, errs) + tail;
    assert faults == [if fails then KeyFails else Fine] + later;
    assert Drop(faults, 1) == later;
    PickStep(keys, faults, 1, !fails);
  }

  /** The backend goes through `keys` under the script and stands before `rest`, with the
      same keys done and failed as the server reported, in some order. */
  lemma ScriptRun(objs: map<string, Bytes>, keys: seq<string>, rest: seq<string>, succeeded: seq<string>,
                  errors: seq<string>, tail: seq<Fault>)
      returns (done: seq<string>, failed: seq<string>)
    requires Accounted(keys, succeeded, errors)
    ensures multiset(done) == multiset(succeeded) && multiset(failed) == multiset(errors)
    ensures BaseDeleteFrom(World(objs, [], Script(keys, multiset(errors)) + tail), keys + rest, [], [])
         == BaseDeleteFrom(World(Lost(objs, succeeded), [], tail), rest, done, failed)
  {
    var faults := Script(keys, multiset(errors)) + tail;
    done, failed := Pick(keys, faults, 1, true), Pick(keys, faults, 1, false);
    ScriptPicks(keys, succeeded, errors, tail);
    ScriptGoesThrough(keys, multiset(errors), tail);
    BaseDeleteThrough(World(objs, [], faults), keys, rest, [], []);
    assert [] + done == done && [] + failed == failed;
    LostSame(objs, done, succeeded);
  }

  lemma ScriptPicks(keys: seq<string>, succeeded: seq<string>, errors: seq<string>, tail: seq<Fault>)
    requires Accounted(keys, succeeded, errors)
    ensures var faults := Script(keys, multiset(errors)) + tail;
            && multiset(Pick(keys, faults, 1, true)) == multiset(succeeded)
            && multiset(Pick(keys, faults, 1, false)) == multiset(errors)
  {
    var faults := Script(keys, multiset(errors)) + tail;
    ScriptFails(keys, multiset(errors), tail);
    PickPermutes(keys, faults, 1);
    CancelRight(multiset(Pick(keys, faults, 1, true)), multiset(succeeded), multiset(errors));
  }

  lemma EmptyTogether(a: seq<string>, b: seq<string>)
    requires multiset(a) == multiset(b)
    ensures a == [] <==> b == []
  {
    assert |multiset(a)| == |multiset(b)|;
  }

  lemma AnsweredIsBackend(objs: map<string, Bytes>, keys: seq<string>, succeeded: seq<string>, errors: seq<string>)
    requires Accounted(keys, succeeded, errors)
    ensures exists faults :: IsBackendDelete(objs, keys, faults, Lost(objs, succeeded), Report(succeeded, errors))
  {
    var faults := Script(keys, multiset(errors)) + [];
    var done, failed := ScriptRun(objs, keys, [], succeeded, errors, []);
    assert keys + [] == keys;
    EmptyTogether(failed, errors);
    assert IsBackendDelete(objs, keys, faults, Lost(objs, succeeded), Report(succeeded, errors));
  }

  lemma BrokenIsBackend(objs: map<string, Bytes>, keys: seq<string>, i: nat, succeeded: seq<string>,
                        errors: seq<string>)
    requires i < |keys| && Accounted(keys[..i], succeeded, errors)
    ensures exists faults :: IsBackendDelete(objs, keys, faults, Lost(objs, succeeded), Err(Storage))
  {
    var faults := Script(keys[..i], multiset(errors)) + [CallFails];
    var done, failed := ScriptRun(objs, keys[..i], keys[i..], succeeded, errors, [CallFails]);
    assert keys[..i] + keys[i..] == keys;
    assert IsBackendDelete(objs, keys, faults, Lost(objs, succeeded), Err(Storage));
  }

  // ---------------------------------------------------------------------------
  // List
  // ---------------------------------------------------------------------------

  /** However the server cuts its pages, this is the backend's listing, failing if a page
      fails: a listing that completes is the sorted listing of the selected keys. */
  method List(server: Server, f: Filter) returns (r: Result<seq<string>>)
    requires server.Valid()
    modifies server`failures
    ensures server.failures == old(server.failures) + if r.Err? then 1 else 0
    ensures r == BaseList(World(server.objs, [], if r.Err? then [KeyFails] else []), f).1
  {
    var prefix := HintText(f);
    var found: seq<string>, start := [], 0;
    var more := true;
    while more
      invariant server.failures == old(server.failures)
      invariant start <= |server.enumeration| && (more || start == |server.enumeration|)
      invariant Distinct(found) && forall k :: k in found <==> k in server.enumeration[..start] && Selects(f, k)
      decreases more, |server.enumeration| - start
    {
      var ok, contents, next := server.ListPage(prefix, start);
      if !ok { return Err(Storage); }
      var end := if next.Some? then next.value else |server.enumeration|;
      var page := Keep(contents, f.matches);
      PageMembers(f, server.enumeration, start, end, contents);
      DistinctAppend(found, page);
      found := found + page;
      start, more := end, next.Some?;
    }
    assert server.enumeration[..start] == server.enumeration;
    var sorted := SortKeys(found);
    ListingIs(sorted, set k | k in server.objs && Selects(f, k));
    r := Ok(sorted);
  }

  /** What the loop keeps of the page's part of the enumeration. */
  lemma PageKeys(f: Filter, part: seq<string>, contents: seq<string>)
    requires Distinct(part) && contents == Keep(part, (k: string) => StartsWith(k, HintText(f)))
    ensures Distinct(Keep(contents, f.matches))
    ensures forall k :: k in Keep(contents, f.matches) <==> k in part && Selects(f, k)
  {
    var under := (k: string) => StartsWith(k, HintText(f));
    KeepMembers(part, under);
    KeepMembers(contents, f.matches);
    KeepDistinct(part, under);
    KeepDistinct(contents, f.matches);
    forall k
      ensures StartsWith(k, "")
    {
      assert k[..0] == "";
    }
  }

  lemma PageMembers(f: Filter, all: seq<string>, start: nat, end: nat, contents: seq<string>)
    requires Distinct(all) && start <= end <= |all|
    requires contents == Keep(all[start..end], (k: string) => StartsWith(k, HintText(f)))
    ensures var page := Keep(contents, f.matches);
            && Distinct(page)
            && (forall k :: k in page <==> k in all[start..end] && Selects(f, k))
            && (forall k :: k in page ==> k !in all[..start])
            && (forall k :: k in all[..end] <==> k in all[..start] || k in all[start..end])
  {
    PageKeys(f, all[start..end], contents);
    assert all[..end] == all[..start] + all[start..end];
  }
}
