/** Visiting the S3 backend page by page while the visitor deletes: the traversal a cleanup
    runs on, in which a key deleted since its page was listed still comes up. */
module S3Visit {
  import opened Keys
  import opened Filters
  import opened Stores
  import opened Writes
  import opened Deletes
  import opened Sorting

  /** What a page lists of its stretch of the key order. */
  function Lists(prefix: string, objs: map<string, Bytes>): string -> bool {
    k => StartsWith(k, prefix) && k in objs
  }

  /** What the visitor is shown of it. */
  function Selected(f: Filter, objs: map<string, Bytes>): string -> bool {
    k => Selects(f, k) && k in objs
  }

  /** The bucket as it changes, every call of the visitor, and how many listing requests have
      failed; `order` is the order in which it lists its first keys. A
      continuation token stands for a place in that order, whatever is deleted meanwhile. */
  class Bucket {
    var objs: map<string, Bytes>
    const order: seq<string>
    var log: seq<Showing>
    var failures: nat

    ghost predicate Valid()
      reads this
    {
      Distinct(order) && forall k :: k in objs ==> k in order
    }

    constructor (objs: map<string, Bytes>, order: seq<string>)
      requires Distinct(order) && forall k :: k in objs ==> k in order
      ensures Valid() && this.objs == objs && this.order == order && log == [] && failures == 0
    {
      this.objs, this.order, log, failures := objs, order, [], 0;
    }

    /** One page under `prefix`, from the place `start` on. */
    method ListPage(prefix: string, start: nat) returns (ok: bool, contents: seq<string>, next: Option<nat>)
      requires start <= |order|
      modifies this`failures
      ensures failures == old(failures) + if ok then 0 else 1
      ensures ok && next.Some? ==> start < next.value <= |order|
      ensures ok ==>
                contents == Keep(order[start..if next.Some? then next.value else |order|], Lists(prefix, objs))
    {
      ok, next := *, None;
      if !ok { failures := failures + 1; }
      var end := |order|;
      if start < |order| {
        end :| start < end <= |order|;
        next := if end < |order| then Some(end) else None;
      }
      contents := Keep(order[start..end], Lists(prefix, objs));
    }

    /** Call the visitor. It may delete any objects before it answers. */
    method Visited(k: string) returns (answer: Answer)
      modifies this`objs, this`log
      ensures Submap(objs, old(objs)) && log == old(log) + [Showing(k, answer)]
    {
      var doomed: set<string> := *;
      answer := *;
      log := log + [Showing(k, answer)];
      objs := objs - doomed;
    }
  }

  /** One page that was listed: its stretch of the order, and the objects then. */
  datatype Page = Page(keys: seq<string>, objs: map<string, Bytes>)

  function Covered(pages: seq<Page>): seq<string> {
    if pages == [] then [] else Covered(pages[..|pages| - 1]) + pages[|pages| - 1].keys
  }

  function Content(f: Filter, page: Page): seq<string> {
    Keep(page.keys, Selected(f, page.objs))
  }

  /** The selected keys of all pages. */
  function Offered(f: Filter, pages: seq<Page>): seq<string> {
    if pages == [] then [] else Offered(f, pages[..|pages| - 1]) + Content(f, pages[|pages| - 1])
  }

  /** From `start` through the pages to `now`, objects only go. */
  ghost predicate Dwindling(start: map<string, Bytes>, pages: seq<Page>, now: map<string, Bytes>) {
    && Submap(now, start)
    && (forall i :: 0 <= i < |pages| ==> Submap(pages[i].objs, start) && Submap(now, pages[i].objs))
    && (forall i, j :: 0 <= i < j < |pages| ==> Submap(pages[j].objs, pages[i].objs))
  }

  lemma SubmapTransitive(a: map<string, Bytes>, b: map<string, Bytes>, c: map<string, Bytes>)
    requires Submap(a, b) && Submap(b, c)
    ensures Submap(a, c)
  {}

  lemma NextPage(f: Filter, start: map<string, Bytes>, pages: seq<Page>, page: Page)
    requires Dwindling(start, pages, page.objs)
    ensures Dwindling(start, pages + [page], page.objs)
    ensures Covered(pages + [page]) == Covered(pages) + page.keys
    ensures Offered(f, pages + [page]) == Offered(f, pages) + Content(f, page)
  {
    assert (pages + [page])[..|pages|] == pages;
  }

  lemma MoreGone(start: map<string, Bytes>, pages: seq<Page>, before: map<string, Bytes>, now: map<string, Bytes>)
    requires Dwindling(start, pages, before) && Submap(now, before)
    ensures Dwindling(start, pages, now)
  {
    SubmapTransitive(now, before, start);
    forall i | 0 <= i < |pages| { SubmapTransitive(now, before, pages[i].objs); }
  }

  /** The page's listing, filtered by the client, is what the visitor is to be shown. */
  lemma {:induction false} ContentIs(f: Filter, keys: seq<string>, objs: map<string, Bytes>)
    ensures Keep(Keep(keys, Lists(HintText(f), objs)), f.matches) == Keep(keys, Selected(f, objs))
  {
    if keys != [] {
      ContentIs(f, keys[1..], objs);
      assert keys[0][..0] == "";
      var rest := Keep(keys[1..], Lists(HintText(f), objs));
      assert ([keys[0]] + rest)[1..] == rest && [] + rest == rest;
    }
  }

  lemma {:induction false} KeepStep(ks: seq<string>, keep: string -> bool, j: nat)
    requires j < |ks|
    ensures Keep(ks[..j + 1], keep) == Keep(ks[..j], keep) + if keep(ks[j]) then [ks[j]] else []
    ensures Keep(ks[..j], keep) <= Keep(ks, keep)
  {
    assert ks[..j + 1] == ks[..j] + [ks[j]] && ks == ks[..j] + ks[j..];
    KeepConcat(ks[..j], [ks[j]], keep);
    KeepConcat(ks[..j], ks[j..], keep);
  }

  function KeysShown(calls: seq<Showing>): (keys: seq<string>)
    ensures |keys| == |calls| && forall i :: 0 <= i < |calls| ==> keys[i] == calls[i].key
  {
    seq(|calls|, i requires 0 <= i < |calls| => calls[i].key)
  }

  ghost predicate AllContinue(calls: seq<Showing>) {
    forall i :: 0 <= i < |calls| ==> calls[i].answer.Continue?
  }

  /** The visitor said `answer` last, and to go on whenever it was asked before. */
  ghost predicate EndedBy(calls: seq<Showing>, answer: Answer) {
    && calls != [] && calls[|calls| - 1].answer == answer && !answer.Continue?
    && AllContinue(calls[..|calls| - 1])
  }

  /** How a visit has gone: pages were listed from the front of the order, and the visitor
      was called with their selected keys in order. Either it ended the visit, and its
      answer is passed on; or it was shown all of them, and the pages are all there are
      unless the next one failed to be listed. */
  ghost predicate Traced(f: Filter, start: map<string, Bytes>, order: seq<string>, pages: seq<Page>,
                         calls: seq<Showing>, r: Result<Answer>, now: map<string, Bytes>) {
    && Dwindling(start, pages, now) && Covered(pages) <= order && KeysShown(calls) <= Offered(f, pages)
    && if r.Ok? && !r.value.Continue? then EndedBy(calls, r.value)
       else AllContinue(calls) && KeysShown(calls) == Offered(f, pages) && (r.Ok? ==> Covered(pages) == order)
  }

  lemma ShownMore(calls: seq<Showing>, showing: Showing)
    ensures KeysShown(calls + [showing]) == KeysShown(calls) + [showing.key]
    ensures AllContinue(calls) && showing.answer.Continue? ==> AllContinue(calls + [showing])
    ensures AllContinue(calls) && !showing.answer.Continue? ==> EndedBy(calls + [showing], showing.answer)
  {
    assert (calls + [showing])[..|calls|] == calls;
  }

  /** Show the visitor one page. */
  method ShowPage(bucket: Bucket, f: Filter, contents: seq<string>, ghost start: map<string, Bytes>,
                  ghost pages: seq<Page>, ghost log: seq<Showing>, ghost before: seq<Showing>)
      returns (answer: Answer, ghost calls: seq<Showing>)
    requires bucket.Valid() && Dwindling(start, pages, bucket.objs) && AllContinue(before)
    requires bucket.log == log + before
    modifies bucket`objs, bucket`log
    ensures bucket.Valid() && Dwindling(start, pages, bucket.objs)
    ensures bucket.log == log + calls
    ensures KeysShown(calls) <= KeysShown(before) + Keep(contents, f.matches)
    ensures answer.Continue? ==>
              AllContinue(calls) && KeysShown(calls) == KeysShown(before) + Keep(contents, f.matches)
    ensures !answer.Continue? ==> EndedBy(calls, answer)
  {
    answer, calls := Continue, before;
    for j := 0 to |contents|
      invariant bucket.Valid() && Dwindling(start, pages, bucket.objs) && answer.Continue?
      invariant bucket.log == log + calls && AllContinue(calls)
      invariant KeysShown(calls) == KeysShown(before) + Keep(contents[..j], f.matches)
    {
      PageStep(contents, f.matches, j);
      if f.matches(contents[j]) {
        Assoc(KeysShown(before), Keep(contents[..j], f.matches), [contents[j]]);
        ghost var objs, told := bucket.objs, calls;
        answer := bucket.Visited(contents[j]);
        ghost var showing := Showing(contents[j], answer);
        calls := told + [showing];
        ShownMore(told, showing);
        Assoc(log, told, [showing]);
        MoreGone(start, pages, objs, bucket.objs);
        if !answer.Continue? { return; }
      }
    }
    assert contents[..|contents|] == contents;
  }

  lemma PageStep(ks: seq<string>, keep: string -> bool, j: nat)
    requires j < |ks|
    ensures Keep(ks[..j + 1], keep) == Keep(ks[..j], keep) + if keep(ks[j]) then [ks[j]] else []
    ensures Keep(ks[..j + 1], keep) <= Keep(ks, keep)
  {
    KeepStep(ks, keep, j);
    if j + 1 < |ks| {
      KeepStep(ks, keep, j + 1);
    } else {
      assert ks[..j + 1] == ks;
    }
  }

  /** The pages up to place `at` of the order have been shown in full. */
  ghost predicate ShownUpTo(f: Filter, start: map<string, Bytes>, order: seq<string>, at: nat, pages: seq<Page>,
                            calls: seq<Showing>, now: map<string, Bytes>) {
    && Dwindling(start, pages, now) && at <= |order| && Covered(pages) == order[..at]
    && AllContinue(calls) && KeysShown(calls) == Offered(f, pages)
  }

  lemma AllShown(f: Filter, start: map<string, Bytes>, order: seq<string>, at: nat, pages: seq<Page>,
                 calls: seq<Showing>, now: map<string, Bytes>)
    requires ShownUpTo(f, start, order, at, pages, calls, now)
    ensures Traced(f, start, order, pages, calls, Err(Storage), now)
    ensures at == |order| ==> Traced(f, start, order, pages, calls, Ok(Continue), now)
  {
    assert order[..|order|] == order;
  }

  /** List the next page and show it. */
  method VisitPage(bucket: Bucket, f: Filter, at: nat, ghost start: map<string, Bytes>, ghost listed: seq<Page>,
                   ghost log: seq<Showing>, ghost before: seq<Showing>)
      returns (ok: bool, answer: Answer, next: nat, more: bool, ghost pages: seq<Page>, ghost calls: seq<Showing>)
    requires bucket.Valid() && bucket.log == log + before
    requires ShownUpTo(f, start, bucket.order, at, listed, before, bucket.objs)
    modifies bucket`objs, bucket`log, bucket`failures
    ensures bucket.Valid() && bucket.log == log + calls
    ensures bucket.failures == old(bucket.failures) + if ok then 0 else 1
    ensures !ok ==> ShownUpTo(f, start, bucket.order, at, pages, calls, bucket.objs)
    ensures ok && answer.Continue? ==>
              && ShownUpTo(f, start, bucket.order, next, pages, calls, bucket.objs)
              && (if more then at < next else next == |bucket.order|)
    ensures ok && !answer.Continue? ==> Traced(f, start, bucket.order, pages, calls, Ok(answer), bucket.objs)
  {
    answer, next, more, pages, calls := Continue, at, true, listed, before;
    var contents, token;
    ok, contents, token := bucket.ListPage(HintText(f), at);
    if !ok { return; }
    next, more := if token.Some? then token.value else |bucket.order|, token.Some?;
    ghost var page := Page(bucket.order[at..next], bucket.objs);
    NextPage(f, start, listed, page);
    ContentIs(f, page.keys, page.objs);
    assert bucket.order[..next] == bucket.order[..at] + bucket.order[at..next];
    pages := listed + [page];
    answer, calls := ShowPage(bucket, f, contents, start, pages, log, before);
  }

  /** `visit`: page after page, until the listing or the visitor ends it. It fails exactly if
      a page cannot be listed or the visitor fails. */
  method Visit(bucket: Bucket, f: Filter) returns (r: Result<Answer>, ghost calls: seq<Showing>, ghost pages: seq<Page>)
    requires bucket.Valid()
    modifies bucket`objs, bucket`log, bucket`failures
    ensures bucket.Valid() && Traced(f, old(bucket.objs), bucket.order, pages, calls, r, bucket.objs)
    ensures bucket.log == old(bucket.log) + calls
    ensures bucket.failures == old(bucket.failures) + if r.Err? then 1 else 0
  {
    ghost var start, log := bucket.objs, bucket.log;
    var at, more := 0, true;
    calls, pages := [], [];
    while more
      invariant bucket.Valid() && bucket.failures == old(bucket.failures) && bucket.log == log + calls
      invariant ShownUpTo(f, start, bucket.order, at, pages, calls, bucket.objs)
      invariant more || at == |bucket.order|
      decreases more, |bucket.order| - at
    {
      var ok, answer, next;
      ok, answer, next, more, pages, calls := VisitPage(bucket, f, at, start, pages, log, calls);
      if !ok {
        AllShown(f, start, bucket.order, at, pages, calls, bucket.objs);
        return Err(Storage), calls, pages;
      }
      if !answer.Continue? { return Ok(answer), calls, pages; }
      at := next;
    }
    AllShown(f, start, bucket.order, at, pages, calls, bucket.objs);
    r := Ok(Continue);
  }

  // ---------------------------------------------------------------------------
  // The traversal a cleanup is proved correct on
  // ---------------------------------------------------------------------------

  ghost predicate OnPage(pages: seq<Page>, k: string, i: int) {
    0 <= i < |pages| && k in pages[i].keys
  }

  ghost predicate ListedOn(pages: seq<Page>, k: string, i: int) {
    OnPage(pages, k, i) && k in pages[i].objs
  }

  ghost predicate Paged(pages: seq<Page>, k: string) {
    exists i :: OnPage(pages, k, i)
  }

  /** `k` was there when its page was listed. */
  ghost predicate Listed(pages: seq<Page>, k: string) {
    exists i :: ListedOn(pages, k, i)
  }

  lemma {:induction false} OfferedMembers(f: Filter, pages: seq<Page>)
    requires Distinct(Covered(pages))
    ensures Distinct(Offered(f, pages))
    ensures forall k :: k in Offered(f, pages) <==> Selects(f, k) && Listed(pages, k)
    ensures forall k :: k in Covered(pages) <==> Paged(pages, k)
  {
    if pages != [] {
      var n := |pages| - 1;
      DistinctHalves(Covered(pages[..n]), pages[n].keys);
      OfferedMembers(f, pages[..n]);
      LastPage(f, pages);
    }
  }

  lemma PageOf(pages: seq<Page>, k: string)
    requires pages != []
    ensures var before, page := pages[..|pages| - 1], pages[|pages| - 1];
            && (Listed(pages, k) <==> Listed(before, k) || (k in page.keys && k in page.objs))
            && (Paged(pages, k) <==> Paged(before, k) || k in page.keys)
  {
    var n := |pages| - 1;
    var before := pages[..n];
    forall i | i != n
      ensures OnPage(pages, k, i) <==> OnPage(before, k, i)
      ensures ListedOn(pages, k, i) <==> ListedOn(before, k, i)
    {}
    assert OnPage(pages, k, n) <==> k in pages[n].keys;
    assert ListedOn(pages, k, n) <==> k in pages[n].keys && k in pages[n].objs;
    assert !OnPage(before, k, n);
  }

  lemma DistinctHalves(a: seq<string>, b: seq<string>)
    requires Distinct(a + b)
    ensures Distinct(a) && Distinct(b) && forall k :: k in b ==> k !in a
  {
    var all := a + b;
    assert forall i :: 0 <= i < |a| ==> all[i] == a[i];
    assert forall i :: 0 <= i < |b| ==> all[|a| + i] == b[i];
  }

  lemma LastPage(f: Filter, pages: seq<Page>)
    requires pages != [] && Distinct(Covered(pages))
    requires var before := pages[..|pages| - 1];
             && Distinct(Offered(f, before))
             && (forall k :: k in Offered(f, before) <==> Selects(f, k) && Listed(before, k))
             && (forall k :: k in Covered(before) <==> Paged(before, k))
    ensures Distinct(Offered(f, pages))
    ensures forall k :: k in Offered(f, pages) <==> Selects(f, k) && Listed(pages, k)
    ensures forall k :: k in Covered(pages) <==> Paged(pages, k)
  {
    var n := |pages| - 1;
    var before, page := pages[..n], pages[n];
    KeepMembers(page.keys, Selected(f, page.objs));
    forall k { PageOf(pages, k); }
    DistinctHalves(Covered(before), page.keys);
    KeepDistinct(page.keys, Selected(f, page.objs));
    forall k | k in Offered(f, before)
      ensures k in Covered(before)
    {
      var i :| ListedOn(before, k, i);
      assert OnPage(before, k, i);
    }
    DistinctAppend(Offered(f, before), Content(f, page));
  }

  lemma {:induction false} DistinctPrefix(a: seq<string>, b: seq<string>)
    requires a <= b && Distinct(b)
    ensures Distinct(a)
  {
    assert forall i :: 0 <= i < |a| ==> a[i] == b[i];
  }

  /** Whatever the visitor deletes meanwhile, a visit shows it keys of initial objects only,
      none of them twice, each there when its page was listed. One that runs to its end has
      shown exactly the selected keys that were, so it has missed none that is still there. */
  lemma VisitIsTraversal(f: Filter, start: map<string, Bytes>, order: seq<string>, pages: seq<Page>,
                         calls: seq<Showing>, r: Result<Answer>, now: map<string, Bytes>)
    requires Distinct(order) && (forall k :: k in start ==> k in order)
    requires Traced(f, start, order, pages, calls, r, now)
    ensures var shown := KeysShown(calls);
            && Distinct(shown)
            && (forall k :: k in shown ==> k in start && Selects(f, k) && Listed(pages, k))
            && (r == Ok(Continue) ==> forall k :: k in shown <==> Selects(f, k) && Listed(pages, k))
            && (r == Ok(Continue) ==> forall k :: k in now && Selects(f, k) ==> k in shown)
  {
    DistinctPrefix(Covered(pages), order);
    OfferedMembers(f, pages);
    DistinctPrefix(KeysShown(calls), Offered(f, pages));
    forall k | Listed(pages, k)
      ensures k in start
    {
      var i :| ListedOn(pages, k, i);
      assert Submap(pages[i].objs, start);
    }
    if r == Ok(Continue) {
      forall k | k in now
        ensures Listed(pages, k)
      {
        assert k in start && k in Covered(pages);
        var i :| OnPage(pages, k, i);
        assert Submap(now, pages[i].objs);
        assert ListedOn(pages, k, i);
      }
    }
  }
}
