/** The pieces of JavaScript string semantics the authentication callbacks rely
    on: truthiness of an optional string and `String.prototype.trim`. */
module JsText {
  import opened Wrappers

  /** True iff `c` is removed by `String.prototype.trim`: the WhiteSpace and
      LineTerminator code points of section 12.2 and 12.3 of ECMAScript 2024
      (tab, vertical tab, form feed, space, no-break space, zero-width no-break
      space, the Unicode "Zs" separators, line feed, carriage return, line
      separator and paragraph separator). */
  predicate IsJsWhitespace(c: char) {
    || c == '\t' || c == '\U{000B}' || c == '\U{000C}' || c == ' '
    || c == '\U{00A0}' || c == '\U{FEFF}' || c == '\U{1680}'
    || ('\U{2000}' <= c <= '\U{200A}')
    || c == '\U{202F}' || c == '\U{205F}' || c == '\U{3000}'
    || c == '\n' || c == '\r' || c == '\U{2028}' || c == '\U{2029}'
  }

  /** JavaScript truthiness of a value that is a string, `null` or `undefined`:
      only a non-empty string is truthy. */
  predicate Truthy(v: Option<string>) {
    v.Some? && |v.value| > 0
  }

  ghost predicate AllWhitespace(s: string) {
    forall i :: 0 <= i < |s| ==> IsJsWhitespace(s[i])
  }

  /** Neither the first nor the last character of `s` is whitespace. */
  predicate NoEdgeWhitespace(s: string) {
    |s| == 0 || (!IsJsWhitespace(s[0]) && !IsJsWhitespace(s[|s| - 1]))
  }

  /** `s[lo..hi]` is what trimming `s` must keep: the slice neither starts nor
      ends with whitespace, and everything cut away on either side is whitespace. */
  ghost predicate TrimBounds(s: string, lo: int, hi: int) {
    && 0 <= lo <= hi <= |s|
    && AllWhitespace(s[..lo]) && AllWhitespace(s[hi..])
    && NoEdgeWhitespace(s[lo..hi])
  }

  /** `r` is a correct result of trimming `s`. */
  ghost predicate IsTrimOf(s: string, r: string) {
    exists lo, hi :: TrimBounds(s, lo, hi) && r == s[lo..hi]
  }

  /** `String.prototype.trimStart`. */
  function TrimStart(s: string): (r: string)
    ensures |r| <= |s| && r == s[|s| - |r|..]
    ensures AllWhitespace(s[..|s| - |r|])
    ensures |r| > 0 ==> !IsJsWhitespace(r[0])
  {
    if |s| > 0 && IsJsWhitespace(s[0]) then TrimStart(s[1..]) else s
  }

  /** `String.prototype.trimEnd`. */
  function TrimEnd(s: string): (r: string)
    ensures |r| <= |s| && r == s[..|r|]
    ensures AllWhitespace(s[|r|..])
    ensures |r| > 0 ==> !IsJsWhitespace(r[|r| - 1])
  {
    if |s| > 0 && IsJsWhitespace(s[|s| - 1]) then TrimEnd(s[..|s| - 1]) else s
  }

  /** `String.prototype.trim`: `trimStart` followed by `trimEnd`. */
  function Trim(s: string): (r: string)
    ensures IsTrimOf(s, r)
  {
    var t := TrimStart(s);
    var r := TrimEnd(t);
    TrimStartEndBounds(s, t, r);
    r
  }

  /** Cutting leading whitespace from `s`, giving `t`, and then trailing
      whitespace from `t`, giving `r`, keeps a correct trim of `s`. */
  lemma TrimStartEndBounds(s: string, t: string, r: string)
    requires |t| <= |s| && t == s[|s| - |t|..] && AllWhitespace(s[..|s| - |t|])
    requires |t| > 0 ==> !IsJsWhitespace(t[0])
    requires |r| <= |t| && r == t[..|r|] && AllWhitespace(t[|r|..])
    requires |r| > 0 ==> !IsJsWhitespace(r[|r| - 1])
    ensures TrimBounds(s, |s| - |t|, |s| - |t| + |r|)
    ensures r == s[|s| - |t|..|s| - |t| + |r|]
  {
    var lo := |s| - |t|;
    var hi := lo + |r|;
    assert r == s[lo..hi];
    assert t[|r|..] == s[hi..];
    assert |r| > 0 ==> r[0] == t[0];
  }

  lemma PrefixIsWhitespace(s: string, lo: int, i: int)
    requires 0 <= i < lo <= |s| && AllWhitespace(s[..lo])
    ensures IsJsWhitespace(s[i])
  {
    assert s[..lo][i] == s[i];
  }

  lemma SuffixIsWhitespace(s: string, hi: int, i: int)
    requires 0 <= hi <= i < |s| && AllWhitespace(s[hi..])
    ensures IsJsWhitespace(s[i])
  {
    assert s[hi..][i - hi] == s[i];
  }

  /** When one correct trim of `s` is empty, all of `s` is whitespace. */
  lemma EmptyTrimAllWhitespace(s: string, lo: int, hi: int)
    requires TrimBounds(s, lo, hi) && lo == hi
    ensures AllWhitespace(s)
  {
    forall i | 0 <= i < |s| ensures IsJsWhitespace(s[i]) {
      if i < lo { PrefixIsWhitespace(s, lo, i); } else { SuffixIsWhitespace(s, hi, i); }
    }
  }

  /** A string of whitespace only keeps nothing when trimmed. */
  lemma AllWhitespaceTrimsEmpty(s: string, lo: int, hi: int)
    requires TrimBounds(s, lo, hi) && AllWhitespace(s)
    ensures lo == hi
  {
  }

  /** Two correct non-empty trims of `s` keep the same slice. */
  lemma NonEmptyTrimBoundsUnique(s: string, lo1: int, hi1: int, lo2: int, hi2: int)
    requires TrimBounds(s, lo1, hi1) && lo1 < hi1
    requires TrimBounds(s, lo2, hi2) && lo2 < hi2
    ensures lo1 == lo2 && hi1 == hi2
  {
    assert s[lo1..hi1][0] == s[lo1] && s[lo2..hi2][0] == s[lo2];
    assert s[lo1..hi1][hi1 - lo1 - 1] == s[hi1 - 1];
    assert s[lo2..hi2][hi2 - lo2 - 1] == s[hi2 - 1];
    if lo1 < lo2 { PrefixIsWhitespace(s, lo2, lo1); }
    if lo2 < lo1 { PrefixIsWhitespace(s, lo1, lo2); }
    if hi1 < hi2 { SuffixIsWhitespace(s, hi1, hi2 - 1); }
    if hi2 < hi1 { SuffixIsWhitespace(s, hi2, hi1 - 1); }
  }

  /** There is only one way to trim a string. */
  lemma TrimUnique(s: string, r1: string, r2: string)
    requires IsTrimOf(s, r1) && IsTrimOf(s, r2)
    ensures r1 == r2
  {
    var lo1, hi1 :| TrimBounds(s, lo1, hi1) && r1 == s[lo1..hi1];
    var lo2, hi2 :| TrimBounds(s, lo2, hi2) && r2 == s[lo2..hi2];
    if lo1 == hi1 {
      EmptyTrimAllWhitespace(s, lo1, hi1);
      AllWhitespaceTrimsEmpty(s, lo2, hi2);
    } else if lo2 == hi2 {
      EmptyTrimAllWhitespace(s, lo2, hi2);
      AllWhitespaceTrimsEmpty(s, lo1, hi1);
    } else {
      NonEmptyTrimBoundsUnique(s, lo1, hi1, lo2, hi2);
    }
  }

  /** A string with no whitespace at either end is left as it is by `trim`. */
  lemma TrimKeepsUnpadded(s: string)
    requires NoEdgeWhitespace(s)
    ensures Trim(s) == s
  {
    assert s[..0] == [] && s[|s|..] == [];
    assert s[0..|s|] == s;
    assert TrimBounds(s, 0, |s|);
    TrimUnique(s, Trim(s), s);
  }

  /** Trimming twice is the same as trimming once. */
  lemma TrimIdempotent(s: string)
    ensures Trim(Trim(s)) == Trim(s)
  {
    var t := Trim(s);
    var lo, hi :| TrimBounds(s, lo, hi) && t == s[lo..hi];
    TrimKeepsUnpadded(t);
  }

  /** A string of whitespace only trims to the empty string, and only such a string does. */
  lemma TrimEmptyIffAllWhitespace(s: string)
    ensures Trim(s) == [] <==> AllWhitespace(s)
  {
    var t := Trim(s);
    var lo, hi :| TrimBounds(s, lo, hi) && t == s[lo..hi];
    if lo == hi {
      EmptyTrimAllWhitespace(s, lo, hi);
    }
    if AllWhitespace(s) {
      AllWhitespaceTrimsEmpty(s, lo, hi);
    }
  }
}
