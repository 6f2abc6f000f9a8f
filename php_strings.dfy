/**
 * The PHP string built-ins the service relies on: `empty()` on a string,
 * `trim()`, `implode()`, `strpos()` for one character, and `explode()`
 * as the reference that `implode()` is checked against.
 */
module PhpStrings {
  import opened Wrappers

  /** `empty($s)` for a string: true for "" and, a PHP quirk, for "0". */
  predicate IsEmpty(s: string) {
    s == "" || s == "0"
  }

  /** The characters `trim()` strips by default: space, tab, LF, CR, NUL and vertical tab. */
  predicate IsBlank(c: char) {
    c == ' ' || c == '\t' || c == '\n' || c == '\r' || c == '\0' || c == '\U{B}'
  }

  predicate AllBlank(s: string) {
    forall k :: 0 <= k < |s| ==> IsBlank(s[k])
  }

  /** The first position at or after `i` that does not hold a blank (`|s|` if none). */
  function SkipBlanks(s: string, i: nat): (j: nat)
    requires i <= |s|
    ensures i <= j <= |s|
    ensures forall k :: i <= k < j ==> IsBlank(s[k])
    ensures j < |s| ==> !IsBlank(s[j])
    decreases |s| - i
  {
    if i < |s| && IsBlank(s[i]) then SkipBlanks(s, i + 1) else i
  }

  /** Going back from `j` towards `lo`: the end of `s[lo..j]` once its trailing blanks are cut. */
  function SkipBlanksBack(s: string, lo: nat, j: nat): (e: nat)
    requires lo <= j <= |s|
    ensures lo <= e <= j
    ensures forall k :: e <= k < j ==> IsBlank(s[k])
    ensures e > lo ==> !IsBlank(s[e - 1])
    decreases j
  {
    if j > lo && IsBlank(s[j - 1]) then SkipBlanksBack(s, lo, j - 1) else j
  }

  /**
   * `trim($s)`: the part of `s` left after removing blanks at both ends.
   * The result is a slice of `s` with only blanks around it, and it neither
   * starts nor ends with a blank.
   */
  function Trim(s: string): (r: string)
    ensures exists i :: 0 <= i <= |s| - |r| && r == s[i..i + |r|] && AllBlank(s[..i]) && AllBlank(s[i + |r|..])
    ensures r == [] || (!IsBlank(r[0]) && !IsBlank(r[|r| - 1]))
  {
    var i := SkipBlanks(s, 0);
    var e := SkipBlanksBack(s, i, |s|);
    BlanksAround(s, i, e);
    s[i..e]
  }

  /** A slice with only blanks around it, and no blank at either end of it. */
  lemma BlanksAround(s: string, i: nat, e: nat)
    requires i <= e <= |s|
    requires forall k :: 0 <= k < i ==> IsBlank(s[k])
    requires forall k :: e <= k < |s| ==> IsBlank(s[k])
    requires i < e ==> !IsBlank(s[i]) && !IsBlank(s[e - 1])
    ensures var r := s[i..e];
            exists j :: 0 <= j <= |s| - |r| && r == s[j..j + |r|] && AllBlank(s[..j]) && AllBlank(s[j + |r|..])
    ensures var r := s[i..e];
            r == [] || (!IsBlank(r[0]) && !IsBlank(r[|r| - 1]))
  {
    var r := s[i..e];
    assert forall k :: 0 <= k < i ==> s[..i][k] == s[k];
    assert forall k :: 0 <= k < |s| - e ==> s[e..][k] == s[e + k];
    assert r == s[i..i + |r|] && AllBlank(s[..i]) && AllBlank(s[i + |r|..]);
  }

  /** `strpos($s, c)` for a single character: the first position of `c`, or none. */
  function IndexOf(s: string, c: char): (r: Option<nat>)
    ensures r.None? <==> c !in s
    ensures r.Some? ==> r.value < |s| && s[r.value] == c && c !in s[..r.value]
  {
    if s == [] then None
    else if s[0] == c then Some(0)
    else match IndexOf(s[1..], c)
      case None => None
      case Some(i) =>
        assert s[..i + 1] == [s[0]] + s[1..][..i];
        Some(i + 1)
  }

  /** The first occurrence is the only position that holds `c` with no `c` before it. */
  lemma FirstIndexUnique(s: string, c: char, k: nat)
    requires k < |s| && s[k] == c && c !in s[..k]
    ensures IndexOf(s, c) == Some(k)
  {
    var r := IndexOf(s, c);
    assert s[k] in s;
    assert forall j :: 0 <= j < k ==> s[..k][j] == s[j];
  }

  /** `implode(sep, xs)`: the elements of `xs` with `sep` between neighbours. */
  function Join(sep: char, xs: seq<string>): (r: string)
  {
    if xs == [] then ""
    else if |xs| == 1 then xs[0]
    else xs[0] + [sep] + Join(sep, xs[1..])
  }

  /** `explode(sep, s)`: the pieces of `s` between occurrences of `sep`. */
  function Split(sep: char, s: string): (r: seq<string>)
    ensures |r| >= 1
    decreases |s|
  {
    match IndexOf(s, sep)
    case None => [s]
    case Some(i) => [s[..i]] + Split(sep, s[i + 1..])
  }

  /** `explode` undoes `implode` when no element holds the separator. */
  lemma {:induction false} SplitJoin(sep: char, xs: seq<string>)
    requires xs != []
    requires forall i :: 0 <= i < |xs| ==> sep !in xs[i]
    ensures Split(sep, Join(sep, xs)) == xs
  {
    if |xs| > 1 {
      var s := Join(sep, xs);
      var rest := Join(sep, xs[1..]);
      assert s == xs[0] + [sep] + rest;
      assert s[..|xs[0]|] == xs[0];
      FirstIndexUnique(s, sep, |xs[0]|);
      assert s[|xs[0]| + 1..] == rest;
      SplitJoin(sep, xs[1..]);
    }
  }
}
