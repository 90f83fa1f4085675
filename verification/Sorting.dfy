/** Sorting keys into listing order. */
module Sorting {
  import opened Keys

  ghost predicate Distinct(s: seq<string>) {
    forall i, j :: 0 <= i < j < |s| ==> s[i] != s[j]
  }

  method InsertSorted(ks: seq<string>, k: string) returns (r: seq<string>)
    requires StrictlySorted(ks) && k !in ks
    ensures StrictlySorted(r) && forall x :: x in r <==> x in ks || x == k
  {
    var i := 0;
    while i < |ks| && Less(ks[i], k)
      invariant i <= |ks|
      invariant forall j :: 0 <= j < i ==> Less(ks[j], k)
    {
      i := i + 1;
    }
    if i < |ks| {
      LessTotal(ks[i], k);
      forall j | i <= j < |ks|
        ensures Less(k, ks[j])
      {
        if j > i { LessTransitive(k, ks[i], ks[j]); }
      }
    }
    r := ks[..i] + [k] + ks[i..];
    assert ks == ks[..i] + ks[i..];
  }

  method SortKeys(ks: seq<string>) returns (r: seq<string>)
    requires Distinct(ks)
    ensures IsListing(r, set k | k in ks)
  {
    r := [];
    for i := 0 to |ks|
      invariant StrictlySorted(r)
      invariant forall x :: x in r <==> x in ks[..i]
    {
      assert ks[i] !in ks[..i];
      r := InsertSorted(r, ks[i]);
      assert ks[..i + 1] == ks[..i] + [ks[i]];
    }
    assert ks[..|ks|] == ks;
  }

  lemma {:induction false} KeepDistinct(ks: seq<string>, keep: string -> bool)
    requires Distinct(ks)
    ensures Distinct(Keep(ks, keep))
  {
    if ks != [] {
      KeepDistinct(ks[1..], keep);
      KeepMembers(ks[1..], keep);
      assert ks[0] !in ks[1..];
    }
  }

  lemma DistinctAppend(a: seq<string>, b: seq<string>)
    requires Distinct(a) && Distinct(b) && forall k :: k in b ==> k !in a
    ensures Distinct(a + b)
  {
    var all := a + b;
    forall i, j | 0 <= i < j < |all|
      ensures all[i] != all[j]
    {
      assert all[i] == if i < |a| then a[i] else b[i - |a|];
      assert all[j] == if j < |a| then a[j] else b[j - |a|];
      if i < |a| <= j { assert b[j - |a|] in b; }
    }
  }
}
