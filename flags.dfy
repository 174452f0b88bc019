/** `judgeTrue`, the truthiness test for the route's `all` and `shownote`
    path parameters, and the page size chosen from the `all` flag. */
module Flags {
  import opened Wrappers
  import opened Text

  /** What `judgeTrue(str, ...validStrings)` answers: false for an absent or
      empty parameter; otherwise true exactly when the lower-cased parameter
      is "true", "1" or one of the extra words (the extra words themselves
      are not lower-cased). */
  predicate JudgedTrue(str: Option<string>, validStrings: seq<string>)
  {
    str.Some? && str.value != "" &&
    (Lower(str.value) == "true" || Lower(str.value) == "1" || Lower(str.value) in validStrings)
  }

  /** `judgeTrue`: the early returns and the scan over `validStrings`. */
  method JudgeTrue(str: Option<string>, validStrings: seq<string>) returns (b: bool)
    ensures b == JudgedTrue(str, validStrings)
  {
    if str.None? || str.value == "" {
      return false;
    }
    var s := str.value;
    s := Lower(s);
    if s == "true" || s == "1" {
      return true;
    }
    for i := 0 to |validStrings|
      invariant forall j :: 0 <= j < i ==> validStrings[j] != s
    {
      if s == validStrings[i] {
        return true;
      }
    }
    return false;
  }

  /** The test does not depend on the case of the parameter. */
  lemma JudgedTrueIgnoresCase(s: string, validStrings: seq<string>)
    ensures JudgedTrue(Some(s), validStrings) == JudgedTrue(Some(Lower(s)), validStrings)
  {
    LowerIdempotent(s);
  }

  /** An extra word with an upper-case letter can never be matched. */
  lemma UppercaseWordNeverMatches(s: string, w: string, k: nat)
    requires k < |w| && 'A' <= w[k] <= 'Z'
    requires JudgedTrue(Some(s), [w])
    ensures Lower(s) == "true" || Lower(s) == "1"
  {
  }

  /** The values the route accepts for its `all` parameter. */
  lemma AllParameterWords()
    ensures JudgedTrue(Some("ALL"), ["all"]) && JudgedTrue(Some("True"), ["all"])
    ensures JudgedTrue(Some("1"), ["all"])
    ensures !JudgedTrue(Some("yes"), ["all"]) && !JudgedTrue(Some(""), ["all"])
    ensures !JudgedTrue(None, ["all"])
  {
    assert Lower("ALL") == "all";
    assert Lower("True") == "true";
    assert Lower("yes") == "yes";
  }

  const PageSizeAll := 200
  const PageSizeDefault := 30

  /** `pageSize`: the first page is fetched with 200 tracks per page when the
      whole album is wanted, with 30 otherwise. */
  function PageSize(shouldAll: bool): (n: nat)
    ensures n == 200 <==> shouldAll
    ensures n == 30 <==> !shouldAll
  {
    if shouldAll then PageSizeAll else PageSizeDefault
  }
}
