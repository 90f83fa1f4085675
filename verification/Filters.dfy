/** Listing filters and the prefix hints that let a backend narrow its search. */
module Filters {
  import opened Keys

  datatype Hint = NoHint | Under(prefix: string)

  /** A filter that looks at the key only. */
  datatype Filter = Filter(matches: string -> bool, hint: Hint)

  /** The `ListFilter` contract: every match starts with the hint. */
  ghost predicate HintSound(f: Filter) {
    f.hint.Under? ==> forall k :: f.matches(k) ==> StartsWith(k, f.hint.prefix)
  }

  /** What a backend that narrows by the hint returns a key for. */
  predicate Selects(f: Filter, k: string) {
    f.matches(k) && (f.hint.Under? ==> StartsWith(k, f.hint.prefix))
  }

  function SuffixFilter(x: string): Filter {
    Filter(k => EndsWith(k, x), NoHint)
  }

  function PrefixFilter(p: string): Filter {
    Filter(k => StartsWith(k, p), Under(p))
  }

  function HintText(f: Filter): string {
    if f.hint.Under? then f.hint.prefix else ""
  }

  /** The filter a prefix layer hands to the store beneath it. */
  function CombinedPrefixFilter(p: string, f: Filter): Filter {
    PrefixFilter(p + HintText(f))
  }

  lemma Everything(k: string)
    ensures Selects(SuffixFilter(""), k) && Selects(PrefixFilter(""), k)
  {
    assert k[|k|..] == "" && k[..0] == "";
  }

  /** Combining hints loses no key: what the caller selects under the prefix, the
      inner store selects too. */
  lemma CombinedKeepsMatches(p: string, f: Filter, k: string)
    requires HintSound(f) && f.matches(k)
    ensures Selects(CombinedPrefixFilter(p, f), p + k)
  {
    var h := HintText(f);
    assert StartsWith(k, h);
    assert (p + k)[..|p + h|] == p + k[..|h|];
  }
}
