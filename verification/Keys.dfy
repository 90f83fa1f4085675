/** Blob keys: the '/'-separated components of a key, the validation rules every
    backend shares, and the order in which listings are returned. */
module Keys {

  const SEPARATOR: char := '/'
  const BACKSLASH: char := '\\'

  // ---------------------------------------------------------------------------
  // Components
  // ---------------------------------------------------------------------------

  /** The components of `s`; like Rust's `str::split`, never empty. */
  function Split(s: string): (cs: seq<string>)
    ensures |cs| > 0
  {
    if s == "" then [""]
    else
      var rest := Split(s[1..]);
      if s[0] == SEPARATOR then [""] + rest else [[s[0]] + rest[0]] + rest[1..]
  }

  function Join(cs: seq<string>): string {
    if cs == [] then ""
    else if |cs| == 1 then cs[0]
    else cs[0] + [SEPARATOR] + Join(cs[1..])
  }

  ghost predicate SeparatorFree(cs: seq<string>) {
    forall c :: c in cs ==> SEPARATOR !in c
  }

  /** Concatenating two strings merges the last component of the first with the
      first component of the second. */
  function Glue(a: seq<string>, b: seq<string>): seq<string>
    requires a != [] && b != []
  {
    a[..|a| - 1] + [a[|a| - 1] + b[0]] + b[1..]
  }

  lemma GlueCons(c: string, a: seq<string>, b: seq<string>)
    requires a != [] && b != []
    ensures Glue([c] + a, b) == [c] + Glue(a, b)
  {}

  lemma GlueHead(c: char, a: seq<string>, b: seq<string>)
    requires a != [] && b != []
    ensures Glue([[c] + a[0]] + a[1..], b) == [[c] + Glue(a, b)[0]] + Glue(a, b)[1..]
  {
    assert [c] + (a[0] + b[0]) == [c] + a[0] + b[0];
  }

  lemma {:induction false} SplitConcat(a: string, b: string)
    ensures Split(a + b) == Glue(Split(a), Split(b))
  {
    if a == "" {
      assert a + b == b;
      assert "" + Split(b)[0] == Split(b)[0];
      assert Glue([""], Split(b)) == Split(b);
    } else {
      assert (a + b)[0] == a[0] && (a + b)[1..] == a[1..] + b;
      SplitConcat(a[1..], b);
      GlueCons("", Split(a[1..]), Split(b));
      GlueHead(a[0], Split(a[1..]), Split(b));
    }
  }

  lemma {:induction false} JoinSplit(s: string)
    ensures Join(Split(s)) == s
    ensures SeparatorFree(Split(s))
  {
    if s != "" {
      JoinSplit(s[1..]);
      var rest := Split(s[1..]);
      if s[0] == SEPARATOR {
        assert Split(s)[1..] == rest;
      } else {
        assert Split(s)[1..] == rest[1..];
      }
    }
  }

  lemma {:induction false} SplitSeparatorFree(c: string)
    requires SEPARATOR !in c
    ensures Split(c) == [c]
  {
    if c != "" {
      SplitSeparatorFree(c[1..]);
      assert [c[0]] + c[1..] == c;
    }
  }

  lemma {:induction false} SplitJoin(cs: seq<string>)
    requires cs != [] && SeparatorFree(cs)
    ensures Split(Join(cs)) == cs
  {
    SplitSeparatorFree(cs[0]);
    if |cs| == 1 {
      assert cs == [cs[0]];
    } else {
      var rest := Join(cs[1..]);
      SplitJoin(cs[1..]);
      assert Join(cs) == cs[0] + ([SEPARATOR] + rest);
      SplitConcat(cs[0], [SEPARATOR] + rest);
      assert ([SEPARATOR] + rest)[1..] == rest;
      assert Split([SEPARATOR] + rest) == [""] + cs[1..];
      assert cs[0] + "" == cs[0];
      assert Glue([cs[0]], [""] + cs[1..]) == cs;
    }
  }

  // ---------------------------------------------------------------------------
  // Validation
  // ---------------------------------------------------------------------------

  datatype Problem =
    | EmptyKey
    | LeadingSeparator
    | TrailingSeparator
    | HasBackslash
    | EmptyComponent
    | DotComponent

  datatype Verdict = Accepted | Rejected(problem: Problem)

  predicate StartsWith(s: string, p: string) {
    |p| <= |s| && s[..|p|] == p
  }

  predicate EndsWith(s: string, x: string) {
    |x| <= |s| && s[|s| - |x|..] == x
  }

  lemma MultisetCons<T>(x: T, s: seq<T>)
    ensures multiset([x] + s) == multiset{x} + multiset(s)
  {}

  lemma Assoc<T>(a: seq<T>, b: seq<T>, c: seq<T>)
    ensures a + b + c == a + (b + c)
  {}

  lemma StartsWithShorter(s: string, p: string, k: string)
    requires StartsWith(s, p + k)
    ensures StartsWith(s, p)
  {
    assert s[..|p|] == s[..|p + k|][..|p|] == p;
  }

  predicate GoodComponent(c: string) {
    c != "" && c != "." && c != ".."
  }

  predicate AllGood(cs: seq<string>) {
    forall c :: c in cs ==> GoodComponent(c)
  }

  /** The early-return loop over the components. */
  function CheckComponents(cs: seq<string>): Verdict {
    if cs == [] then Accepted
    else if cs[0] == "" then Rejected(EmptyComponent)
    else if cs[0] == ".." || cs[0] == "." then Rejected(DotComponent)
    else CheckComponents(cs[1..])
  }

  function ValidateBlobKey(key: string): Verdict {
    if key == "" then Rejected(EmptyKey)
    else if StartsWith(key, [SEPARATOR]) then Rejected(LeadingSeparator)
    else if EndsWith(key, [SEPARATOR]) then Rejected(TrailingSeparator)
    else if BACKSLASH in key then Rejected(HasBackslash)
    else CheckComponents(Split(key))
  }

  predicate Valid(key: string) {
    ValidateBlobKey(key).Accepted?
  }

  lemma {:induction false} CheckComponentsMeaning(cs: seq<string>)
    ensures CheckComponents(cs).Accepted? <==> AllGood(cs)
  {
    if cs != [] {
      CheckComponentsMeaning(cs[1..]);
      assert cs[0] in cs;
      assert forall c :: c in cs <==> c == cs[0] || c in cs[1..];
      assert CheckComponents(cs).Accepted? <==> GoodComponent(cs[0]) && CheckComponents(cs[1..]).Accepted?;
    }
  }

  /** A key is accepted exactly when it has no backslash and every component names
      something: the separate checks for empty, leading and trailing are implied. */
  lemma ValidMeaning(key: string)
    ensures Valid(key) <==> BACKSLASH !in key && AllGood(Split(key))
  {
    CheckComponentsMeaning(Split(key));
    if key != "" {
      if key[0] == SEPARATOR {
        assert "" in Split(key);
      }
      if EndsWith(key, [SEPARATOR]) {
        var front := key[..|key| - 1];
        assert key == front + [SEPARATOR];
        SplitConcat(front, [SEPARATOR]);
        assert Split([SEPARATOR]) == ["", ""];
        var glued := Glue(Split(front), ["", ""]);
        assert glued[|glued| - 1] == "";
        assert "" in Split(key);
      }
    } else {
      assert "" in Split(key);
    }
  }

  /** What a prefix must look like for any key at all to be valid beneath it. */
  predicate GoodPrefix(p: string) {
    BACKSLASH !in p && AllGood(Split(p)[..|Split(p)| - 1])
  }

  predicate GoodSuffix(x: string) {
    BACKSLASH !in x && AllGood(Split(x)[1..])
  }

  lemma GluedGood(a: seq<string>, b: seq<string>)
    requires a != [] && b != []
    ensures AllGood(Glue(a, b)) <==>
            AllGood(a[..|a| - 1]) && GoodComponent(a[|a| - 1] + b[0]) && AllGood(b[1..])
  {
    var front, back := a[..|a| - 1], b[1..];
    var mid := a[|a| - 1] + b[0];
    assert Glue(a, b) == front + [mid] + back;
    assert mid in Glue(a, b);
    assert forall c :: c in Glue(a, b) <==> c in front || c == mid || c in back;
  }

  /** Whether `p + k` is valid depends only on `p`, for every valid `k`. */
  lemma PrefixedValidity(p: string, k: string)
    requires Valid(k)
    ensures Valid(p + k) <==> GoodPrefix(p)
  {
    ValidMeaning(k);
    ValidMeaning(p + k);
    SplitConcat(p, k);
    var a, b := Split(p), Split(k);
    GluedGood(a, b);
    assert b[0] in b;
    assert forall c :: c in b[1..] ==> c in b;
    assert GoodComponent(a[|a| - 1] + b[0]) by {
      var c := a[|a| - 1];
      assert |c + b[0]| == |c| + |b[0]|;
      if |c| == 1 && |b[0]| == 1 {
        assert (c + b[0])[1] == b[0][0];
        assert b[0] != ".";
      } else if c == "" {
        assert c + b[0] == b[0];
      }
    }
  }

  /** Dually, whether `k + x` is valid depends only on `x`. */
  lemma SuffixedValidity(k: string, x: string)
    requires Valid(k)
    ensures Valid(k + x) <==> GoodSuffix(x)
  {
    ValidMeaning(k);
    ValidMeaning(k + x);
    SplitConcat(k, x);
    var a, b := Split(k), Split(x);
    GluedGood(a, b);
    assert a[|a| - 1] in a;
    assert forall c :: c in a[..|a| - 1] ==> c in a;
    assert GoodComponent(a[|a| - 1] + b[0]) by {
      var c := a[|a| - 1];
      assert |c + b[0]| == |c| + |b[0]|;
      if |c| == 1 && |b[0]| == 1 {
        assert (c + b[0])[0] == c[0];
        assert c != ".";
      } else if b[0] == "" {
        assert c + b[0] == c;
      }
    }
  }

  predicate DirectoryPrefix(p: string) {
    p == "" || EndsWith(p, [SEPARATOR])
  }

  lemma DirectoryPrefixSplit(p: string)
    requires DirectoryPrefix(p)
    ensures Split(p)[|Split(p)| - 1] == ""
  {
    if p != "" {
      var front := p[..|p| - 1];
      assert p == front + [SEPARATOR];
      SplitConcat(front, [SEPARATOR]);
      assert Split([SEPARATOR]) == ["", ""];
    }
  }

  /** Beneath a directory prefix, dropping the prefix keeps a key valid. */
  lemma StrippedValidity(p: string, k: string)
    requires DirectoryPrefix(p) && Valid(p + k)
    ensures Valid(k) && GoodPrefix(p)
  {
    DirectoryPrefixSplit(p);
    ValidMeaning(p + k);
    ValidMeaning(k);
    SplitConcat(p, k);
    GluedGood(Split(p), Split(k));
    var b := Split(k);
    assert "" + b[0] == b[0];
    assert b == [b[0]] + b[1..];
  }

  lemma UsablePrefix(p: string, k: string)
    requires Valid(p + k)
    ensures GoodPrefix(p)
  {
    ValidMeaning(p + k);
    SplitConcat(p, k);
    GluedGood(Split(p), Split(k));
  }

  /** Under any other usable prefix some valid key strips to an invalid one. */
  lemma OtherPrefixesLeak(p: string)
    requires !DirectoryPrefix(p) && GoodPrefix(p)
    ensures Valid(p + "..") && !Valid("..")
  {
    SplitSeparatorFree("..");
    ValidMeaning("..");
    assert ".." in Split("..");
    ValidMeaning(p + "..");
    SplitConcat(p, "..");
    GluedGood(Split(p), [".."]);
    var c := Split(p)[|Split(p)| - 1];
    assert c != "" by {
      var front, last := p[..|p| - 1], p[|p| - 1..];
      assert p == front + last && SEPARATOR !in last;
      SplitConcat(front, last);
      SplitSeparatorFree(last);
    }
    assert |c + ".."| >= 3;
  }

  /** With a directory prefix and a separator-free suffix, the suffix test cannot
      reach into the prefix. */
  lemma SuffixIgnoresPrefix(p: string, k: string, x: string)
    requires DirectoryPrefix(p) && SEPARATOR !in x
    ensures EndsWith(p + k, x) <==> EndsWith(k, x)
  {
    if |x| <= |k| {
      assert (p + k)[|p + k| - |x|..] == k[|k| - |x|..];
    } else if p != "" && |x| <= |p + k| {
      var tail := (p + k)[|p + k| - |x|..];
      var i := |x| - |k| - 1;
      assert p[|p| - 1] == p[|p| - 1..][0];
      assert tail[i] == SEPARATOR;
      assert SEPARATOR in tail;
    }
  }

  // ---------------------------------------------------------------------------
  // Listing order
  // ---------------------------------------------------------------------------

  /** Lexicographic order on code points, the order of Rust's `str`. */
  predicate Less(a: string, b: string) {
    b != "" && (a == "" || a[0] < b[0] || (a[0] == b[0] && Less(a[1..], b[1..])))
  }

  /** `a` comes first where the two strings part. */
  ghost predicate PartsBelow(a: string, b: string, n: int) {
    && 0 <= n <= |a| && n < |b| && a[..n] == b[..n]
    && (n == |a| || a[n] < b[n])
  }

  lemma FirstAgrees(a: string, b: string, n: nat)
    requires PartsBelow(a, b, n) && n > 0
    ensures a != "" && b != "" && a[0] == b[0]
  {
    assert a[..n][0] == b[..n][0];
  }

  /** The order is that of the first difference, a proper prefix coming first. */
  lemma {:induction false} LessMeaning(a: string, b: string)
    ensures Less(a, b) <==> exists n :: PartsBelow(a, b, n)
  {
    if a == "" || b == "" || a[0] != b[0] {
      if Less(a, b) { assert PartsBelow(a, b, 0); }
      if n :| PartsBelow(a, b, n) {
        if n > 0 { FirstAgrees(a, b, n); }
      }
    } else {
      LessMeaning(a[1..], b[1..]);
      if n :| PartsBelow(a[1..], b[1..], n) {
        assert a[..n + 1] == [a[0]] + a[1..][..n] && b[..n + 1] == [b[0]] + b[1..][..n];
        assert PartsBelow(a, b, n + 1);
      }
      if n :| PartsBelow(a, b, n) {
        assert n > 0;
        assert a[1..][..n - 1] == a[..n][1..] && b[1..][..n - 1] == b[..n][1..];
        assert PartsBelow(a[1..], b[1..], n - 1);
      }
    }
  }

  lemma {:induction false} LessTotal(a: string, b: string)
    ensures a == b || Less(a, b) || Less(b, a)
  {
    if a != "" && b != "" && a[0] == b[0] {
      LessTotal(a[1..], b[1..]);
      assert a == [a[0]] + a[1..] && b == [b[0]] + b[1..];
    }
  }

  lemma {:induction false} LessIrreflexive(a: string)
    ensures !Less(a, a)
  {
    if a != "" {
      LessIrreflexive(a[1..]);
    }
  }

  lemma {:induction false} LessTransitive(a: string, b: string, c: string)
    requires Less(a, b) && Less(b, c)
    ensures Less(a, c)
  {
    if a != "" && a[0] == b[0] && b[0] == c[0] {
      LessTransitive(a[1..], b[1..], c[1..]);
    }
  }

  lemma {:induction false} LessUnderPrefix(p: string, a: string, b: string)
    ensures Less(p + a, p + b) <==> Less(a, b)
  {
    if p == "" {
      assert p + a == a && p + b == b;
    } else {
      assert (p + a)[1..] == p[1..] + a && (p + b)[1..] == p[1..] + b;
      LessUnderPrefix(p[1..], a, b);
    }
  }

  ghost predicate StrictlySorted(ks: seq<string>) {
    forall i, j :: 0 <= i < j < |ks| ==> Less(ks[i], ks[j])
  }

  /** `ks` is the sorted, duplicate-free listing of `s`. */
  ghost predicate IsListing(ks: seq<string>, s: set<string>) {
    StrictlySorted(ks) && (forall k :: k in ks <==> k in s)
  }

  ghost predicate IsLeast(m: string, s: set<string>) {
    m in s && forall k :: k in s && k != m ==> Less(m, k)
  }

  lemma {:induction false} LeastExists(s: set<string>)
    requires s != {}
    ensures exists m :: IsLeast(m, s)
  {
    var x :| x in s;
    if s == {x} {
      assert IsLeast(x, s);
    } else {
      LeastExists(s - {x});
      var m :| IsLeast(m, s - {x});
      LessTotal(x, m);
      if Less(x, m) {
        forall k | k in s && k != x
          ensures Less(x, k)
        {
          if k != m { LessTransitive(x, m, k); }
        }
        assert IsLeast(x, s);
      } else {
        assert IsLeast(m, s);
      }
    }
  }

  /** The one listing of a set of keys. */
  ghost function Listing(s: set<string>): (ks: seq<string>)
    ensures IsListing(ks, s)
  {
    if s == {} then []
    else
      LeastExists(s);
      var m :| IsLeast(m, s);
      [m] + Listing(s - {m})
  }

  lemma EmptyListing(b: seq<string>, s: set<string>)
    requires b != [] && IsListing(b, s)
    ensures s != {}
  {
    assert b[0] in b;
  }

  lemma {:induction false} ListingUnique(a: seq<string>, b: seq<string>, s: set<string>)
    requires IsListing(a, s) && IsListing(b, s)
    ensures a == b
  {
    if a == [] {
      if b != [] { EmptyListing(b, s); }
    } else {
      assert a[0] in a && a[0] in b;
      assert b[0] in b && b[0] in a;
      if a[0] != b[0] {
        assert Less(a[0], b[0]) && Less(b[0], a[0]);
        LessTransitive(a[0], b[0], a[0]);
        LessIrreflexive(a[0]);
        assert false;
      }
      TailListing(a, s);
      TailListing(b, s);
      ListingUnique(a[1..], b[1..], s - {a[0]});
      assert a == [a[0]] + a[1..] && b == [b[0]] + b[1..];
    }
  }

  lemma TailListing(a: seq<string>, s: set<string>)
    requires IsListing(a, s) && a != []
    ensures IsListing(a[1..], s - {a[0]})
  {
    LessIrreflexive(a[0]);
    assert a[0] !in a[1..];
    assert forall k :: k in a <==> k == a[0] || k in a[1..];
  }

  /** A listing is unchanged by equality of its set; the form in which it is used. */
  lemma ListingIs(ks: seq<string>, s: set<string>)
    requires IsListing(ks, s)
    ensures ks == Listing(s)
  {
    ListingUnique(ks, Listing(s), s);
  }

  /** Filtering a listing, and removing a shared prefix, both give listings. */
  function Keep(ks: seq<string>, keep: string -> bool): (r: seq<string>)
  {
    if ks == [] then []
    else (if keep(ks[0]) then [ks[0]] else []) + Keep(ks[1..], keep)
  }

  lemma {:induction false} KeepMembers(ks: seq<string>, keep: string -> bool)
    ensures forall k :: k in Keep(ks, keep) <==> k in ks && keep(k)
  {
    if ks != [] {
      KeepMembers(ks[1..], keep);
    }
  }

  lemma {:induction false} KeepSorted(ks: seq<string>, keep: string -> bool)
    requires StrictlySorted(ks)
    ensures StrictlySorted(Keep(ks, keep))
  {
    if ks != [] {
      KeepSorted(ks[1..], keep);
      KeepMembers(ks[1..], keep);
      forall k | k in Keep(ks[1..], keep)
        ensures Less(ks[0], k)
      {
        assert k in ks[1..];
      }
    }
  }

  /** `strip_prefix` over a list: keys without the prefix are dropped. */
  function StripAll(p: string, ks: seq<string>): (r: seq<string>)
  {
    if ks == [] then []
    else (if StartsWith(ks[0], p) then [ks[0][|p|..]] else []) + StripAll(p, ks[1..])
  }

  lemma {:induction false} StripMembers(p: string, ks: seq<string>)
    ensures forall k :: k in StripAll(p, ks) <==> p + k in ks
  {
    if ks != [] {
      StripMembers(p, ks[1..]);
      forall k
        ensures k in StripAll(p, ks) <==> p + k in ks
      {
        assert (p + k)[..|p|] == p && (p + k)[|p|..] == k;
        if StartsWith(ks[0], p) { assert ks[0] == p + ks[0][|p|..]; }
      }
    }
  }

  lemma {:induction false} StripSorted(p: string, ks: seq<string>)
    requires StrictlySorted(ks)
    ensures StrictlySorted(StripAll(p, ks))
  {
    if ks != [] {
      StripSorted(p, ks[1..]);
      StripMembers(p, ks[1..]);
      if StartsWith(ks[0], p) {
        var k0 := ks[0][|p|..];
        assert ks[0] == p + k0;
        forall k | k in StripAll(p, ks[1..])
          ensures Less(k0, k)
        {
          assert p + k in ks[1..];
          LessUnderPrefix(p, k0, k);
        }
      }
    }
  }
}
