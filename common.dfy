/**
 * Small building blocks shared by the models: optional values, results
 * carrying an error, and the two string helpers the Python code relies on
 * (`str.strip()` with no argument and `sep.join(parts)`).
 */
module Common {

  datatype Option<+T> = None | Some(value: T)

  datatype Result<+T, +E> = Ok(value: T) | Err(error: E)

  /** Python truthiness of an optional string: `None` and `""` are false. */
  predicate Present(s: Option<string>) {
    s.Some? && s.value != ""
  }

  /** The characters Python's `str.isspace()` accepts (and so `str.strip()` removes). */
  predicate IsSpace(c: char) {
    c in {' ', '\t', '\n', '\r', '\U{0B}', '\U{0C}', '\U{1C}', '\U{1D}', '\U{1E}', '\U{1F}',
          '\U{85}', '\U{A0}', '\U{1680}', '\U{2000}', '\U{2001}', '\U{2002}', '\U{2003}',
          '\U{2004}', '\U{2005}', '\U{2006}', '\U{2007}', '\U{2008}', '\U{2009}', '\U{200A}',
          '\U{2028}', '\U{2029}', '\U{202F}', '\U{205F}', '\U{3000}'}
  }

  /** True when `s` holds nothing but whitespace (the empty string included). */
  predicate Blank(s: string) {
    forall i :: 0 <= i < |s| ==> IsSpace(s[i])
  }

  /** True when positions `lo` up to (not including) `hi` of `s` hold only whitespace. */
  predicate BlankRange(s: string, lo: int, hi: int) {
    0 <= lo <= hi <= |s| && forall i :: lo <= i < hi ==> IsSpace(s[i])
  }

  /** The first position at or after `i` that does not hold whitespace, or `|s|`. */
  function SkipSpaces(s: string, i: nat): (j: nat)
    requires i <= |s|
    ensures i <= j <= |s| && BlankRange(s, i, j)
    ensures j < |s| ==> !IsSpace(s[j])
    decreases |s| - i
  {
    if i < |s| && IsSpace(s[i]) then SkipSpaces(s, i + 1) else i
  }

  /** The position just after the last non-whitespace before `j`, but not below `lo`. */
  function SkipSpacesBack(s: string, lo: nat, j: nat): (e: nat)
    requires lo <= j <= |s|
    ensures lo <= e <= j && BlankRange(s, e, j)
    ensures lo < e ==> !IsSpace(s[e - 1])
    decreases j - lo
  {
    if lo < j && IsSpace(s[j - 1]) then SkipSpacesBack(s, lo, j - 1) else j
  }

  /** `r` occurs in `s` starting at position `k`. */
  predicate InfixAt(r: string, s: string, k: int) {
    0 <= k && k + |r| <= |s| && forall i :: 0 <= i < |r| ==> r[i] == s[k + i]
  }

  /**
   * Python's `s.strip()`: `s` with its leading and trailing whitespace
   * removed. What is removed on each side is all whitespace, and what is
   * left neither starts nor ends with whitespace; it is empty exactly when
   * `s` is blank.
   */
  function Strip(s: string): (r: string)
    ensures |r| <= |s|
    ensures exists k :: InfixAt(r, s, k) && BlankRange(s, 0, k) && BlankRange(s, k + |r|, |s|)
    ensures r == [] <==> Blank(s)
    ensures r != [] ==> !IsSpace(r[0]) && !IsSpace(r[|r| - 1])
  {
    var k := SkipSpaces(s, 0);
    var e := SkipSpacesBack(s, k, |s|);
    assert InfixAt(s[k..e], s, k);
    s[k..e]
  }

  /**
   * The stripped string is the only infix that is surrounded by whitespace
   * alone and neither starts nor ends with whitespace.
   */
  lemma StripUnique(s: string, r: string, k: int)
    requires InfixAt(r, s, k) && BlankRange(s, 0, k) && BlankRange(s, k + |r|, |s|)
    requires r != [] ==> !IsSpace(r[0]) && !IsSpace(r[|r| - 1])
    ensures r == Strip(s)
  {
    var k' := SkipSpaces(s, 0);
    var e' := SkipSpacesBack(s, k', |s|);
    assert r != [] ==> s[k] == r[0] && s[k + |r| - 1] == r[|r| - 1];
  }

  /** Python's `sep.join(parts)`. */
  function Join(parts: seq<string>, sep: string): string {
    if |parts| == 0 then ""
    else if |parts| == 1 then parts[0]
    else parts[0] + sep + Join(parts[1..], sep)
  }
}
