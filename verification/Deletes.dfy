/** Batch delete through every stack: what it removes and what it reports. */
module Deletes {
  import opened Keys
  import opened Stores
  import opened Layers
  import opened Writes

  // ---------------------------------------------------------------------------
  // The outcome as a function of the caller's keys and the faults
  // ---------------------------------------------------------------------------

  function Drop(faults: seq<Fault>, n: nat): seq<Fault> {
    if n <= |faults| then faults[n..] else []
  }

  function FirstFault(faults: seq<Fault>): Fault {
    if faults == [] then Fine else faults[0]
  }

  /** The keys whose own access was fine (or was not), in order, when each key uses
      up `stride` faults and the first of them is its data object's. */
  function Pick(ks: seq<string>, faults: seq<Fault>, stride: nat, fine: bool): (r: seq<string>)
  {
    if ks == [] then []
    else (if (FirstFault(faults) == Fine) == fine then [ks[0]] else [])
         + Pick(ks[1..], Drop(faults, stride), stride, fine)
  }

  function Report(done: seq<string>, failed: seq<string>): Result<Unit> {
    if failed == [] then Ok(Unit) else Err(Batch(done, failed))
  }

  /** No fault among the next `n` makes a whole delete call fail. */
  predicate NoAbort(faults: seq<Fault>, n: nat) {
    forall i :: 0 <= i < n && i < |faults| ==> faults[i] != CallFails
  }

  /** Backend objects per key: every encryption layer adds a header to each of them. */
  function Stride(s: Store): nat {
    match s
    case Base => 1
    case Prefixed(_, inner) => Stride(inner)
    case Encrypted(_, _, inner) => 2 * Stride(inner)
    case Cleanable(inner) => Stride(inner)
  }

  function Times(stride: nat, n: nat): nat {
    if n == 0 then 0 else stride + Times(stride, n - 1)
  }

  /** What a delete of `ks` reports under these faults. */
  function Outcome(ks: seq<string>, faults: seq<Fault>, stride: nat): Result<Unit> {
    if NoAbort(faults, Times(stride, |ks|))
    then Report(Pick(ks, faults, stride, true), Pick(ks, faults, stride, false))
    else Err(Storage)
  }

  lemma {:induction false} DropDrop(faults: seq<Fault>, n: nat, m: nat)
    ensures Drop(Drop(faults, n), m) == Drop(faults, n + m)
  {}

  lemma NoAbortLater(faults: seq<Fault>, n: nat)
    requires n > 0 && NoAbort(faults, n)
    ensures FirstFault(faults) != CallFails && NoAbort(Drop(faults, 1), n - 1)
  {
    forall i | 0 <= i < n - 1 && i < |Drop(faults, 1)|
      ensures Drop(faults, 1)[i] != CallFails
    {
      assert Drop(faults, 1)[i] == faults[i + 1];
    }
  }

  function Lost(objs: map<string, Bytes>, ks: seq<string>): map<string, Bytes> {
    objs - (set k | k in ks)
  }

  /** Where the backend stands after the first keys `a` of a delete that has not broken
      off: the fine ones are gone, and each key is in the list it belongs to. */
  lemma {:induction false} BaseDeleteThrough(w: World, a: seq<string>, rest: seq<string>, done: seq<string>,
                                             failed: seq<string>)
    requires NoAbort(w.faults, |a|)
    ensures BaseDeleteFrom(w, a + rest, done, failed)
         == BaseDeleteFrom(World(Lost(w.objs, Pick(a, w.faults, 1, true)), w.log, Drop(w.faults, |a|)), rest,
                           done + Pick(a, w.faults, 1, true), failed + Pick(a, w.faults, 1, false))
    decreases |a|
  {
    if a == [] {
      assert a + rest == rest && done + [] == done && failed + [] == failed;
      assert World(Lost(w.objs, []), w.log, Drop(w.faults, 0)) == w;
    } else {
      var k, later := a[0], a[1..];
      assert a + rest == [k] + (later + rest);
      NoAbortLater(w.faults, |a|);
      DropDrop(w.faults, 1, |later|);
      var fine := Head(w) == Fine;
      PickStep(a, w.faults, 1, fine);
      var here := Pick(later, Drop(w.faults, 1), 1, fine);
      var w1 := if fine then Pop(w).(objs := w.objs - {k}) else Pop(w);
      assert w1.faults == Drop(w.faults, 1);
      if fine {
        BaseDeleteThrough(w1, later, rest, done + [k], failed);
        Assoc(done, [k], here);
        assert Lost(w.objs - {k}, here) == Lost(w.objs, [k] + here);
      } else {
        BaseDeleteThrough(w1, later, rest, done, failed + [k]);
        Assoc(failed, [k], here);
      }
    }
  }

  lemma BaseDeleteOutcome(w: World, ks: seq<string>, done: seq<string>, failed: seq<string>)
    requires NoAbort(w.faults, |ks|)
    ensures BaseDeleteFrom(w, ks, done, failed).1
         == Report(done + Pick(ks, w.faults, 1, true), failed + Pick(ks, w.faults, 1, false))
  {
    assert ks + [] == ks;
    BaseDeleteThrough(w, ks, [], done, failed);
  }

  lemma {:induction false} BaseDeleteAborts(w: World, ks: seq<string>, done: seq<string>, failed: seq<string>)
    requires !NoAbort(w.faults, |ks|)
    ensures BaseDeleteFrom(w, ks, done, failed).1 == Err(Storage)
    decreases |ks|
  {
    var i :| 0 <= i < |ks| && i < |w.faults| && w.faults[i] == CallFails;
    if i > 0 {
      var w1 := Pop(w);
      assert w1.faults[i - 1] == CallFails;
      if Head(w) == Fine {
        BaseDeleteAborts(w1.(objs := w.objs - {ks[0]}), ks[1..], done + [ks[0]], failed);
      } else if Head(w) == KeyFails {
        BaseDeleteAborts(w1, ks[1..], done, failed + [ks[0]]);
      }
    }
  }

  lemma {:induction false} PickPrefixed(p: string, ks: seq<string>, faults: seq<Fault>, stride: nat, fine: bool)
    ensures StripAll(p, Pick(AddPrefix(p, ks), faults, stride, fine)) == Pick(ks, faults, stride, fine)
    ensures StripEach(p, Pick(AddPrefix(p, ks), faults, stride, fine)) == Pick(ks, faults, stride, fine)
    ensures Pick(AddPrefix(p, ks), faults, stride, fine) == [] <==> Pick(ks, faults, stride, fine) == []
  {
    if ks != [] {
      PickPrefixed(p, ks[1..], Drop(faults, stride), stride, fine);
      var k := p + ks[0];
      assert k[..|p|] == p && k[|p|..] == ks[0];
      var rest := Pick(AddPrefix(p, ks)[1..], Drop(faults, stride), stride, fine);
      assert ([k] + rest)[1..] == rest;
      assert [] + rest == rest;
    }
  }

  function Chosen(k: string, fault: Fault, fine: bool): seq<string> {
    if (fault == Fine) == fine then [k] else []
  }

  lemma PickCons(k: string, rest: seq<string>, faults: seq<Fault>, stride: nat, fine: bool)
    ensures Pick([k] + rest, faults, stride, fine)
         == Chosen(k, FirstFault(faults), fine) + Pick(rest, Drop(faults, stride), stride, fine)
  {
    assert ([k] + rest)[0] == k && ([k] + rest)[1..] == rest;
  }

  lemma TwoFirst(a: string, b: string, rest: seq<string>)
    ensures [a, b] + rest == [a] + ([b] + rest)
  {}

  lemma KeepChosen(k: string, fault: Fault, fine: bool, own: string -> bool)
    ensures Keep(Chosen(k, fault, fine), own) == if own(k) then Chosen(k, fault, fine) else []
  {}

  lemma KeepThree(a: seq<string>, b: seq<string>, c: seq<string>, own: string -> bool)
    requires Keep(a, own) == a && Keep(b, own) == []
    ensures Keep(a + (b + c), own) == a + Keep(c, own)
  {
    KeepConcat(a, b + c, own);
    KeepConcat(b, c, own);
    assert [] + Keep(c, own) == Keep(c, own);
  }

  lemma PickHeader(k: string, header: string, rest: seq<string>, faults: seq<Fault>, stride: nat, fine: bool,
                   own: string -> bool)
    requires own(k) && !own(header)
    ensures Keep(Pick([k, header] + rest, faults, stride, fine), own)
         == Chosen(k, FirstFault(faults), fine) + Keep(Pick(rest, Drop(faults, 2 * stride), stride, fine), own)
  {
    TwoFirst(k, header, rest);
    PickCons(k, [header] + rest, faults, stride, fine);
    PickCons(header, rest, Drop(faults, stride), stride, fine);
    DropDrop(faults, stride, stride);
    var first, second := FirstFault(faults), FirstFault(Drop(faults, stride));
    KeepChosen(k, first, fine, own);
    KeepChosen(header, second, fine, own);
    KeepThree(Chosen(k, first, fine), Chosen(header, second, fine),
              Pick(rest, Drop(faults, 2 * stride), stride, fine), own);
  }

  lemma {:induction false} PickHeaders(x: string, ks: seq<string>, faults: seq<Fault>, stride: nat, fine: bool,
                                       own: string -> bool)
    requires forall k :: k in ks ==> own(k) && !own(k + x)
    ensures Keep(Pick(WithHeaders(x, ks), faults, stride, fine), own) == Pick(ks, faults, 2 * stride, fine)
  {
    if ks != [] {
      assert ks[0] in ks;
      PickHeaders(x, ks[1..], Drop(faults, 2 * stride), stride, fine, own);
      PickHeader(ks[0], ks[0] + x, WithHeaders(x, ks[1..]), faults, stride, fine, own);
    }
  }

  lemma {:induction false} KeepConcat(a: seq<string>, b: seq<string>, keep: string -> bool)
    ensures Keep(a + b, keep) == Keep(a, keep) + Keep(b, keep)
  {
    if a == [] {
      assert a + b == b;
    } else {
      assert (a + b)[1..] == a[1..] + b;
      KeepConcat(a[1..], b, keep);
    }
  }

  lemma {:induction false} WithHeadersLength(x: string, ks: seq<string>)
    ensures |WithHeaders(x, ks)| == 2 * |ks|
  {
    if ks != [] { WithHeadersLength(x, ks[1..]); }
  }

  ghost predicate ReportsPicks(s: Store, w: World, ks: seq<string>) {
    Delete(s, w, ks).1 == Outcome(ks, w.faults, Stride(s))
  }

  lemma OutcomePrefixed(p: string, inner: Store, w: World, ks: seq<string>)
    requires ReportsPicks(inner, w, AddPrefix(p, ks)) && PrefixAcceptsAll(p, ks)
    ensures ReportsPicks(Prefixed(p, inner), w, ks)
  {
    PrefixedOutcome(p, ks, w.faults, Stride(inner));
    DeletePrefixed(p, inner, w, ks, Outcome(AddPrefix(p, ks), w.faults, Stride(inner)));
  }

  lemma PrefixedOutcome(p: string, ks: seq<string>, faults: seq<Fault>, stride: nat)
    ensures StripBatch(p, Outcome(AddPrefix(p, ks), faults, stride)) == Outcome(ks, faults, stride)
  {
    PickPrefixed(p, ks, faults, stride, true);
    PickPrefixed(p, ks, faults, stride, false);
    StripReport(p, Pick(AddPrefix(p, ks), faults, stride, true), Pick(AddPrefix(p, ks), faults, stride, false),
                Pick(ks, faults, stride, true), Pick(ks, faults, stride, false));
  }

  lemma StripReport(p: string, done: seq<string>, failed: seq<string>, own: seq<string>, ownFailed: seq<string>)
    requires StripAll(p, done) == own && StripEach(p, failed) == ownFailed && (failed == [] <==> ownFailed == [])
    ensures StripBatch(p, Report(done, failed)) == Report(own, ownFailed)
  {}

  lemma DeletePrefixed(p: string, inner: Store, w: World, ks: seq<string>, r: Result<Unit>)
    requires PrefixAcceptsAll(p, ks) && Delete(inner, w, AddPrefix(p, ks)).1 == r
    ensures Delete(Prefixed(p, inner), w, ks).1 == StripBatch(p, r)
  {}

  lemma OutcomeEncrypted(provider: Provider, x: string, inner: Store, w: World, ks: seq<string>)
    requires ReportsPicks(inner, w, WithHeaders(x, ks)) && NoHeaderKeys(x, ks)
    ensures ReportsPicks(Encrypted(provider, x, inner), w, ks)
  {
    EncryptedOutcome(x, ks, w.faults, Stride(inner));
    DeleteEncrypted(provider, x, inner, w, ks, Outcome(WithHeaders(x, ks), w.faults, Stride(inner)));
  }

  lemma DeleteEncrypted(provider: Provider, x: string, inner: Store, w: World, ks: seq<string>, r: Result<Unit>)
    requires NoHeaderKeys(x, ks) && Delete(inner, w, WithHeaders(x, ks)).1 == r
    ensures Delete(Encrypted(provider, x, inner), w, ks).1 == HideHeaders(ks, r)
  {}

  lemma {:induction false} TwiceAsMany(stride: nat, n: nat)
    ensures Times(stride, 2 * n) == Times(2 * stride, n)
  {
    if n > 0 {
      TwiceAsMany(stride, n - 1);
      assert Times(stride, 2 * n - 1) == stride + Times(stride, 2 * (n - 1));
    }
  }

  lemma EncryptedOutcome(x: string, ks: seq<string>, faults: seq<Fault>, stride: nat)
    requires NoHeaderKeys(x, ks)
    ensures HideHeaders(ks, Outcome(WithHeaders(x, ks), faults, stride)) == Outcome(ks, faults, 2 * stride)
  {
    WithHeadersLength(x, ks);
    TwiceAsMany(stride, |ks|);
    OwnPicks(x, ks, faults, stride, true);
    OwnPicks(x, ks, faults, stride, false);
    HideReport(ks, Pick(WithHeaders(x, ks), faults, stride, true), Pick(WithHeaders(x, ks), faults, stride, false),
               (k: string) => k in ks);
  }

  /** Of the picks among data and header objects, the caller's own are the picks among
      the data objects. */
  lemma OwnPicks(x: string, ks: seq<string>, faults: seq<Fault>, stride: nat, fine: bool)
    requires NoHeaderKeys(x, ks)
    ensures Keep(Pick(WithHeaders(x, ks), faults, stride, fine), (k: string) => k in ks)
         == Pick(ks, faults, 2 * stride, fine)
  {
    var own := (k: string) => k in ks;
    forall k | k in ks
      ensures own(k) && !own(k + x)
    {
      assert EndsWith(k + x, x);
    }
    PickHeaders(x, ks, faults, stride, fine, own);
  }

  lemma {:induction false} OneEach(n: nat)
    ensures Times(1, n) == n
  {
    if n > 0 { OneEach(n - 1); }
  }

  lemma OutcomeBase(w: World, ks: seq<string>)
    requires AllValid(ks)
    ensures ReportsPicks(Base, w, ks)
  {
    var w1 := Logged(w, DeleteCall(ks));
    OneEach(|ks|);
    if NoAbort(w.faults, |ks|) {
      BaseDeleteOutcome(w1, ks, [], []);
      assert [] + Pick(ks, w.faults, 1, true) == Pick(ks, w.faults, 1, true);
      assert [] + Pick(ks, w.faults, 1, false) == Pick(ks, w.faults, 1, false);
    } else {
      BaseDeleteAborts(w1, ks, [], []);
    }
  }

  /** Through any stack, a delete of accepted keys fails as a whole exactly if one of the
      accesses breaks off the call. Otherwise it reports exactly the keys whose data object
      was removed and those whose data object could not be, each in the caller's order and
      under the caller's names; header objects never show, whether or not they could be
      removed. */
  lemma {:induction false} DeleteOutcome(s: Store, w: World, ks: seq<string>)
    requires AllAccepted(s, ks)
    ensures ReportsPicks(s, w, ks)
  {
    match s
    case Base => OutcomeBase(w, ks);
    case Prefixed(p, inner) =>
      AllAcceptedBeneath(p, inner, ks);
      DeleteOutcome(inner, w, AddPrefix(p, ks));
      OutcomePrefixed(p, inner, w, ks);
    case Encrypted(provider, x, inner) =>
      WithHeadersMembers(x, ks);
      DeleteOutcome(inner, w, WithHeaders(x, ks));
      OutcomeEncrypted(provider, x, inner, w, ks);
    case Cleanable(inner) => DeleteOutcome(inner, w, ks);
  }

  lemma AllAcceptedBeneath(p: string, inner: Store, ks: seq<string>)
    requires AllAccepted(Prefixed(p, inner), ks)
    ensures AllAccepted(inner, AddPrefix(p, ks)) && PrefixAcceptsAll(p, ks)
  {
    forall k' | k' in AddPrefix(p, ks)
      ensures Accepts(inner, k')
    {
      var i :| 0 <= i < |ks| && AddPrefix(p, ks)[i] == k';
      assert ks[i] in ks;
    }
  }

  lemma HideReport(ks: seq<string>, done: seq<string>, failed: seq<string>, own: string -> bool)
    requires own == ((k: string) => k in ks)
    ensures HideHeaders(ks, Report(done, failed)) == Report(Keep(done, own), Keep(failed, own))
  {}

  // ---------------------------------------------------------------------------
  // What that outcome means
  // ---------------------------------------------------------------------------

  function FaultAt(faults: seq<Fault>, i: nat): Fault {
    if i < |faults| then faults[i] else Fine
  }

  lemma {:induction false} PickPermutes(ks: seq<string>, faults: seq<Fault>, stride: nat)
    ensures multiset(Pick(ks, faults, stride, true)) + multiset(Pick(ks, faults, stride, false)) == multiset(ks)
  {
    if ks != [] {
      var rest := Drop(faults, stride);
      PickPermutes(ks[1..], rest, stride);
      assert ks == [ks[0]] + ks[1..];
      MultisetCons(ks[0], ks[1..]);
      PickStep(ks, faults, stride, FirstFault(faults) == Fine);
      MultisetCons(ks[0], Pick(ks[1..], rest, stride, FirstFault(faults) == Fine));
    }
  }

  lemma PickStep(ks: seq<string>, faults: seq<Fault>, stride: nat, fine: bool)
    requires ks != [] && fine == (FirstFault(faults) == Fine)
    ensures Pick(ks, faults, stride, fine) == [ks[0]] + Pick(ks[1..], Drop(faults, stride), stride, fine)
    ensures Pick(ks, faults, stride, !fine) == Pick(ks[1..], Drop(faults, stride), stride, !fine)
  {
    assert [] + Pick(ks[1..], Drop(faults, stride), stride, !fine)
         == Pick(ks[1..], Drop(faults, stride), stride, !fine);
  }

  /** None of the first faults of `n` consecutive keys hits. */
  predicate DataFine(n: nat, faults: seq<Fault>, stride: nat) {
    n == 0 || (FirstFault(faults) == Fine && DataFine(n - 1, Drop(faults, stride), stride))
  }

  lemma {:induction false} NoneFailed(ks: seq<string>, faults: seq<Fault>, stride: nat)
    ensures Pick(ks, faults, stride, false) == [] <==> DataFine(|ks|, faults, stride)
  {
    if ks != [] {
      NoneFailed(ks[1..], Drop(faults, stride), stride);
    }
  }

  lemma FaultShift(faults: seq<Fault>, stride: nat, i: nat)
    ensures FaultAt(Drop(faults, stride), Times(stride, i)) == FaultAt(faults, Times(stride, i + 1))
  {}

  lemma {:induction false} DataFineAt(n: nat, faults: seq<Fault>, stride: nat, i: nat)
    requires DataFine(n, faults, stride) && i < n
    ensures FaultAt(faults, Times(stride, i)) == Fine
  {
    if i > 0 {
      DataFineAt(n - 1, Drop(faults, stride), stride, i - 1);
      FaultShift(faults, stride, i - 1);
    }
  }

  lemma {:induction false} DataFineFrom(n: nat, faults: seq<Fault>, stride: nat)
    requires NoDataFault(n, faults, stride)
    ensures DataFine(n, faults, stride)
  {
    if n > 0 {
      assert FaultAt(faults, Times(stride, 0)) == Fine;
      forall i: nat | i < n - 1
        ensures FaultAt(Drop(faults, stride), Times(stride, i)) == Fine
      {
        FaultShift(faults, stride, i);
        assert FaultAt(faults, Times(stride, i + 1)) == Fine;
      }
      DataFineFrom(n - 1, Drop(faults, stride), stride);
    }
  }

  /** No fault hits the data object of any of the first `n` keys. */
  ghost predicate NoDataFault(n: nat, faults: seq<Fault>, stride: nat) {
    forall i: nat :: i < n ==> FaultAt(faults, Times(stride, i)) == Fine
  }

  lemma DataFineMeaning(n: nat, faults: seq<Fault>, stride: nat)
    ensures DataFine(n, faults, stride) <==> NoDataFault(n, faults, stride)
  {
    if DataFine(n, faults, stride) {
      forall i: nat | i < n
        ensures FaultAt(faults, Times(stride, i)) == Fine
      {
        DataFineAt(n, faults, stride, i);
      }
    }
    if NoDataFault(n, faults, stride) { DataFineFrom(n, faults, stride); }
  }

  /** `delete` returns `Ok` exactly when no access breaks off the call and no data object
      failed to be removed. A call that breaks off is a storage error; otherwise
      `succeeded` and `errors` together are a permutation of the caller's keys. */
  lemma DeleteReports(s: Store, w: World, ks: seq<string>)
    requires AllAccepted(s, ks)
    ensures var r := Delete(s, w, ks).1;
            var whole := NoAbort(w.faults, Times(Stride(s), |ks|));
            && (r.Ok? <==> whole && NoDataFault(|ks|, w.faults, Stride(s)))
            && (r == Err(Storage) <==> !whole)
            && (r.Err? && whole ==>
                  r.error.Batch? && multiset(r.error.succeeded) + multiset(r.error.errors) == multiset(ks))
  {
    DeleteOutcome(s, w, ks);
    PickPermutes(ks, w.faults, Stride(s));
    NoneFailed(ks, w.faults, Stride(s));
    DataFineMeaning(|ks|, w.faults, Stride(s));
  }

  /** Where no access breaks off a call, that leaves two cases. */
  lemma DeleteCompletes(s: Store, w: World, ks: seq<string>)
    requires AllAccepted(s, ks) && CallFails !in w.faults
    ensures var r := Delete(s, w, ks).1;
            && (r.Ok? <==> NoDataFault(|ks|, w.faults, Stride(s)))
            && (r.Err? ==> r.error.Batch? && multiset(r.error.succeeded) + multiset(r.error.errors) == multiset(ks))
  {
    DeleteReports(s, w, ks);
    NeverAborts(w.faults, Times(Stride(s), |ks|));
  }

  lemma NeverAborts(faults: seq<Fault>, n: nat)
    requires CallFails !in faults
    ensures NoAbort(faults, n)
  {}

  // ---------------------------------------------------------------------------
  // What is gone
  // ---------------------------------------------------------------------------

  /** After any delete, every key not reported as failed has lost its data object. */
  ghost predicate GoneUnlessFailed(s: Store, objs: map<string, Bytes>, ks: seq<string>, r: Result<Unit>) {
    match r
    case Ok(_) => forall k :: k in ks ==> Full(s, k) !in objs
    case Err(Batch(_, failed)) => forall k :: k in ks && k !in failed ==> Full(s, k) !in objs
    case Err(_) => true
  }

  lemma {:induction false} BaseDeleteGone(w: World, ks: seq<string>, done: seq<string>, failed: seq<string>)
    ensures var (w', r) := BaseDeleteFrom(w, ks, done, failed);
            && w'.objs.Keys <= w.objs.Keys
            && (r.Ok? ==> failed == [] && forall k :: k in ks ==> k !in w'.objs)
            && (r.Err? && r.error.Batch? ==>
                  (forall k :: k in failed ==> k in r.error.errors) &&
                  forall k :: k in ks && k !in r.error.errors ==> k !in w'.objs)
    decreases |ks|
  {
    if ks != [] {
      var k := ks[0];
      match Head(w) {
        case Fine =>
          var w1 := Pop(w).(objs := w.objs - {k});
          BaseDeleteGone(w1, ks[1..], done + [k], failed);
          assert k !in BaseDeleteFrom(w1, ks[1..], done + [k], failed).0.objs;
        case KeyFails =>
          BaseDeleteGone(Pop(w), ks[1..], done, failed + [k]);
          assert k in failed + [k];
        case CallFails =>
      }
      assert ks == [k] + ks[1..];
    }
  }

  lemma {:induction false} StripEachMembers(p: string, ks: seq<string>, k: string)
    requires p + k in ks
    ensures k in StripEach(p, ks)
  {
    assert (p + k)[..|p|] == p && (p + k)[|p|..] == k;
    if ks[0] != p + k {
      StripEachMembers(p, ks[1..], k);
    }
  }

  lemma GonePrefixed(p: string, inner: Store, objs: map<string, Bytes>, ks: seq<string>, r: Result<Unit>)
    requires GoneUnlessFailed(inner, objs, AddPrefix(p, ks), r)
    ensures GoneUnlessFailed(Prefixed(p, inner), objs, ks, StripBatch(p, r))
  {
    forall k | k in ks
      ensures p + k in AddPrefix(p, ks) && Full(Prefixed(p, inner), k) == Full(inner, p + k)
      ensures r.Err? && r.error.Batch? && p + k in r.error.errors ==> k in StripEach(p, r.error.errors)
    {
      var i :| 0 <= i < |ks| && ks[i] == k;
      assert AddPrefix(p, ks)[i] in AddPrefix(p, ks);
      assert Pre(inner) + p + k == Pre(inner) + (p + k);
      if r.Err? && r.error.Batch? && p + k in r.error.errors { StripEachMembers(p, r.error.errors, k); }
    }
  }

  lemma GoneEncrypted(p: Provider, x: string, inner: Store, objs: map<string, Bytes>, ks: seq<string>, r: Result<Unit>)
    requires GoneUnlessFailed(inner, objs, WithHeaders(x, ks), r)
    ensures GoneUnlessFailed(Encrypted(p, x, inner), objs, ks, HideHeaders(ks, r))
  {
    WithHeadersMembers(x, ks);
    assert forall k :: Full(Encrypted(p, x, inner), k) == Full(inner, k);
    if r.Err? && r.error.Batch? {
      KeepMembers(r.error.errors, (k: string) => k in ks);
    }
  }

  lemma {:induction false} DeleteGone(s: Store, w: World, ks: seq<string>)
    ensures GoneUnlessFailed(s, Delete(s, w, ks).0.objs, ks, Delete(s, w, ks).1)
  {
    match s
    case Base =>
      BaseDeleteGone(Logged(w, DeleteCall(ks)), ks, [], []);
      assert forall k :: Full(s, k) == "" + k == k;
    case Prefixed(p, inner) =>
      var (w1, r) := Delete(inner, w, AddPrefix(p, ks));
      DeleteGone(inner, w, AddPrefix(p, ks));
      GonePrefixed(p, inner, w1.objs, ks, r);
    case Encrypted(provider, x, inner) =>
      var (w1, r) := Delete(inner, w, WithHeaders(x, ks));
      DeleteGone(inner, w, WithHeaders(x, ks));
      GoneEncrypted(provider, x, inner, w1.objs, ks, r);
    case Cleanable(inner) =>
      DeleteGone(inner, w, ks);
      assert forall k :: Full(s, k) == Full(inner, k);
  }

  /** Keys a delete reports as done are invisible, whatever the stack and the faults;
      every other logical key that is not in the batch reads as before. */
  lemma DeleteEffect(s: Store, w: World, ks: seq<string>, k: string)
    requires forall k' :: k' in ks ==> Proper(s, k')
    ensures Delete(s, w, ks).1.Ok? && k in ks ==> !Visible(s, Delete(s, w, ks).0.objs, k)
    ensures var r := Delete(s, w, ks).1;
            r.Err? && r.error.Batch? && k in ks && k !in r.error.errors ==> !Visible(s, Delete(s, w, ks).0.objs, k)
    ensures k !in ks && Proper(s, k) ==>
              Visible(s, w.objs, k) == Visible(s, Delete(s, w, ks).0.objs, k) &&
              (Visible(s, w.objs, k) ==> View(s, w.objs, k) == View(s, Delete(s, w, ks).0.objs, k))
  {
    var objs := Delete(s, w, ks).0.objs;
    DeleteGone(s, w, ks);
    if Visible(s, objs, k) { VisibleIsProper(s, objs, k); }
    DeleteTouches(s, w, ks);
    if k !in ks && Proper(s, k) {
      forall o | o in Owns(s, k)
        ensures !Owned(s, ks, o)
      {
        forall k' | k' in ks
          ensures o !in Owns(s, k')
        {
          OwnsDisjoint(s, k, k');
        }
      }
      ViewFrame(s, w.objs, objs, k);
    }
  }
}
