/** The JavaScript string operations the application's logic relies on, with
    their ECMAScript behaviour written out: `trim`, `indexOf`/`includes`,
    `split` with a non-empty separator, `String(n)` for integers and
    `padStart`. Strings are sequences of characters; lengths are counted in
    characters (see README, "Left out"). */
module JsText {
  import opened Wrappers

  // ---------------------------------------------------------------- trim

  /** The characters `String.prototype.trim` strips: the ECMAScript
      WhiteSpace code points (TAB, VT, FF, SPACE, NBSP, ZWNBSP and the Space
      Separator category) and the LineTerminator code points (LF, CR, LS, PS). */
  predicate IsWhitespace(c: char)
  {
    || c == '\t' || c == '\U{000B}' || c == '\U{000C}' || c == ' '
    || c == '\U{00A0}' || c == '\U{FEFF}' || c == '\U{1680}'
    || ('\U{2000}' <= c <= '\U{200A}')
    || c == '\U{202F}' || c == '\U{205F}' || c == '\U{3000}'
    || c == '\n' || c == '\r' || c == '\U{2028}' || c == '\U{2029}'
  }

  /** Every character of `s` is whitespace (vacuously true of ""). */
  predicate IsBlank(s: string)
  {
    forall i :: 0 <= i < |s| ==> IsWhitespace(s[i])
  }

  /** The first position at or after `i` that holds no whitespace (`|s|`
      when there is none). */
  function SkipSpace(s: string, i: nat): (k: nat)
    requires i <= |s|
    ensures i <= k <= |s| && (k < |s| ==> !IsWhitespace(s[k]))
    ensures forall j :: i <= j < k ==> IsWhitespace(s[j])
    decreases |s| - i
  {
    if i == |s| || !IsWhitespace(s[i]) then i else SkipSpace(s, i + 1)
  }

  /** The end of the text once the whitespace before position `j` is
      dropped. */
  function SkipSpaceBack(s: string, j: nat): (k: nat)
    requires j <= |s|
    ensures k <= j && (k > 0 ==> !IsWhitespace(s[k - 1]))
    ensures forall i :: k <= i < j ==> IsWhitespace(s[i])
    decreases j
  {
    if j == 0 || !IsWhitespace(s[j - 1]) then j else SkipSpaceBack(s, j - 1)
  }

  /** Drops leading whitespace: the result is the suffix of `s` that starts at
      its first non-whitespace character. */
  function TrimStart(s: string): (r: string)
    ensures |r| <= |s| && r == s[|s| - |r|..]
    ensures r == [] || !IsWhitespace(r[0])
    ensures forall i :: 0 <= i < |s| - |r| ==> IsWhitespace(s[i])
  {
    s[SkipSpace(s, 0)..]
  }

  /** Drops trailing whitespace: the result is the prefix of `s` that ends at
      its last non-whitespace character. */
  function TrimEnd(s: string): (r: string)
    ensures |r| <= |s| && r == s[..|r|]
    ensures r == [] || !IsWhitespace(r[|r| - 1])
    ensures forall i :: |r| <= i < |s| ==> IsWhitespace(s[i])
  {
    s[..SkipSpaceBack(s, |s|)]
  }

  /** `s.trim()`. */
  function Trim(s: string): (r: string)
    ensures r == [] || (!IsWhitespace(r[0]) && !IsWhitespace(r[|r| - 1]))
  {
    TrimEnd(TrimStart(s))
  }

  /** `!s.trim()` holds exactly for the strings made of whitespace only. */
  lemma TrimEmptyIffBlank(s: string)
    ensures Trim(s) == "" <==> IsBlank(s)
  {
  }

  // ------------------------------------------------- indexOf and includes

  /** `sep` occurs in `s` at position `i`. */
  predicate OccursAt(s: string, sep: string, i: nat)
  {
    i + |sep| <= |s| && s[i..i + |sep|] == sep
  }

  /** `sep` occurs nowhere in `s`. */
  predicate Free(s: string, sep: string)
  {
    forall j: nat :: j <= |s| ==> !OccursAt(s, sep, j)
  }

  /** `s.indexOf(sep, k)`: the first position at or after `k` where `sep`
      occurs, or `None` (JavaScript's -1). */
  function IndexOfFrom(s: string, sep: string, k: nat): (r: Option<nat>)
    requires k <= |s|
    ensures r.Some? ==> k <= r.value && OccursAt(s, sep, r.value)
    ensures r.Some? ==> forall j: nat :: k <= j < r.value ==> !OccursAt(s, sep, j)
    ensures r.None? ==> forall j: nat :: k <= j <= |s| ==> !OccursAt(s, sep, j)
    decreases |s| - k
  {
    if OccursAt(s, sep, k) then Some(k)
    else if k == |s| then None
    else IndexOfFrom(s, sep, k + 1)
  }

  /** `s.indexOf(sep)`. */
  function IndexOf(s: string, sep: string): Option<nat>
  {
    IndexOfFrom(s, sep, 0)
  }

  /** `s.includes(sep)`. */
  predicate Includes(s: string, sep: string)
  {
    IndexOf(s, sep).Some?
  }

  /** `includes` is true exactly when the separator occurs somewhere. */
  lemma IncludesIffOccurs(s: string, sep: string)
    ensures Includes(s, sep) <==> !Free(s, sep)
  {
  }

  // ---------------------------------------------------------------- split

  /** `s.split(sep)` for a non-empty separator: the pieces between the
      left-most, non-overlapping occurrences of `sep`. */
  function Split(s: string, sep: string): (r: seq<string>)
    requires |sep| > 0
    ensures |r| >= 1
    ensures |r| >= 2 <==> Includes(s, sep)
    decreases |s|
  {
    match IndexOf(s, sep)
    case None => [s]
    case Some(i) => [s[..i]] + Split(s[i + |sep|..], sep)
  }

  /** The first piece of a split is the text before the first occurrence of
      the separator (all of `s` when it does not occur), and it contains no
      occurrence of the separator. */
  lemma SplitHead(s: string, sep: string)
    requires |sep| > 0
    ensures var n := if Includes(s, sep) then IndexOf(s, sep).value else |s|;
            Split(s, sep)[0] == s[..n] && Free(s[..n], sep)
  {
    match IndexOf(s, sep)
    case None =>
      assert s[..|s|] == s;
    case Some(i) =>
      forall j: nat | j <= i ensures !OccursAt(s[..i], sep, j) {
        if OccursAt(s[..i], sep, j) {
          assert s[..i][j..j + |sep|] == s[j..j + |sep|];
          assert OccursAt(s, sep, j);
        }
      }
  }

  /** The first piece of a split is a separator-free prefix, followed by
      the end of the text or by an occurrence of the separator. */
  lemma SplitHeadBound(s: string, sep: string)
    requires |sep| > 0
    ensures var h := Split(s, sep)[0];
            && |h| <= |s| && h == s[..|h|] && Free(h, sep)
            && (|h| == |s| || OccursAt(s, sep, |h|))
  {
    SplitHead(s, sep);
  }

  /** The second piece of a split is the first piece of splitting what
      follows the first occurrence. */
  lemma SplitSecond(s: string, sep: string)
    requires |sep| > 0 && Includes(s, sep)
    ensures var i := IndexOf(s, sep).value;
            Split(s, sep)[1] == Split(s[i + |sep|..], sep)[0]
  {
  }

  /** A prefix of a string free of `sep` is free of it too. */
  lemma FreePrefix(s: string, sep: string, n: nat)
    requires Free(s, sep) && n <= |s|
    ensures Free(s[..n], sep)
  {
    forall j: nat | j <= n ensures !OccursAt(s[..n], sep, j) {
      if j + |sep| <= n {
        assert s[..n][j..j + |sep|] == s[j..j + |sep|];
        assert !OccursAt(s, sep, j);
      }
    }
  }

  /** An occurrence in a suffix is an occurrence in the whole string. */
  lemma OccursInSuffix(s: string, sep: string, k: nat, j: nat)
    requires k <= |s| && OccursAt(s[k..], sep, j)
    ensures OccursAt(s, sep, k + j)
  {
    assert s[k..][j..j + |sep|] == s[k + j..k + j + |sep|];
  }

  /** A string free of the one-character separator `[c]` does not contain
      `c`. */
  lemma FreeOfChar(s: string, c: char)
    requires Free(s, [c])
    ensures c !in s
  {
    if c in s {
      var j :| 0 <= j < |s| && s[j] == c;
      assert s[j..j + 1] == [c];
      assert OccursAt(s, [c], j);
    }
  }

  // --------------------------------------------- numbers and their digits

  predicate IsDigit(c: char)
  {
    '0' <= c <= '9'
  }

  predicate AllDigits(s: string)
  {
    forall i :: 0 <= i < |s| ==> IsDigit(s[i])
  }

  function DigitChar(d: nat): (c: char)
    requires d < 10
    ensures IsDigit(c)
  {
    ('0' as int + d) as char
  }

  function DigitValue(c: char): (d: nat)
    requires IsDigit(c)
    ensures d < 10
  {
    c as int - '0' as int
  }

  /** The decimal notation of a natural number, as `String(n)` and
      `n.toString()` produce it: at least one digit, no sign. */
  function Decimal(n: nat): (r: string)
    ensures |r| >= 1 && AllDigits(r)
    decreases n
  {
    if n < 10 then [DigitChar(n)] else Decimal(n / 10) + [DigitChar(n % 10)]
  }

  /** The number a string of digits denotes (most significant digit first). */
  function DigitsValue(s: string): nat
    requires AllDigits(s)
    decreases |s|
  {
    if s == [] then 0 else DigitsValue(s[..|s| - 1]) * 10 + DigitValue(s[|s| - 1])
  }

  /** Reading back the decimal notation gives the number. */
  lemma {:induction false} DecimalRoundTrip(n: nat)
    ensures DigitsValue(Decimal(n)) == n
  {
    var s := Decimal(n);
    if n < 10 {
      assert s[..|s| - 1] == [];
    } else {
      assert s[..|s| - 1] == Decimal(n / 10);
      DecimalRoundTrip(n / 10);
    }
  }

  /** Different numbers have different notations. */
  lemma DecimalInjective(a: nat, b: nat)
    ensures Decimal(a) == Decimal(b) ==> a == b
  {
    DecimalRoundTrip(a);
    DecimalRoundTrip(b);
  }

  /** `String(n)` for an integer: a minus sign before the digits of a
      negative number. */
  function NumberToString(n: int): (r: string)
    ensures n >= 0 ==> r == Decimal(n)
    ensures n < 0 ==> r == "-" + Decimal(-n)
  {
    if n < 0 then "-" + Decimal(-n) else Decimal(n)
  }

  function Repeat(c: char, k: nat): (r: string)
    ensures |r| == k && forall i :: 0 <= i < k ==> r[i] == c
  {
    if k == 0 then [] else [c] + Repeat(c, k - 1)
  }

  /** `s.padStart(width, fill)` for a one-character fill: `s` itself when it
      is already `width` long, otherwise `s` preceded by enough copies of
      `fill` to reach `width`. */
  function PadStart(s: string, width: nat, fill: char): (r: string)
    ensures |r| == if |s| >= width then |s| else width
    ensures r[|r| - |s|..] == s
    ensures forall i :: 0 <= i < |r| - |s| ==> r[i] == fill
  {
    if |s| >= width then s else Repeat(fill, width - |s|) + s
  }
}
