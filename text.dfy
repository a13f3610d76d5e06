/**
 * JavaScript string behaviour the handlers rely on: character classes used by their
 * regular expressions, `String.prototype.includes`, `trim`, decimal rendering of
 * integers, `padStart(2, "0")` and `parseInt` without a radix.
 */
module Text {
  import opened Wrappers

  predicate IsDigit(c: char) { '0' <= c <= '9' }

  predicate IsHexDigit(c: char) { IsDigit(c) || 'a' <= c <= 'f' || 'A' <= c <= 'F' }

  /** `[a-zA-Z0-9_-]`, which is also `[\w-]`. */
  predicate IsIdChar(c: char) {
    'a' <= c <= 'z' || 'A' <= c <= 'Z' || IsDigit(c) || c == '_' || c == '-'
  }

  /** The characters a regular-expression `.` does not match. */
  predicate IsLineTerminator(c: char) {
    c == '\n' || c == '\r' || c == '\U{2028}' || c == '\U{2029}'
  }

  /** White space and line terminators, as `trim` and `parseInt` skip them. */
  const WhitespaceChars: set<char> := {
    '\n', '\r', '\U{2028}', '\U{2029}', ' ', '\t', '\U{000B}', '\U{000C}', '\U{00A0}', '\U{FEFF}', '\U{1680}',
    '\U{2000}', '\U{2001}', '\U{2002}', '\U{2003}', '\U{2004}', '\U{2005}', '\U{2006}', '\U{2007}', '\U{2008}',
    '\U{2009}', '\U{200A}', '\U{202F}', '\U{205F}', '\U{3000}'}

  predicate IsWhitespace(c: char) {
    c in WhitespaceChars
  }

  /** The character classes the handlers' patterns repeat. */
  datatype CharClass =
    | IdChars            // [a-zA-Z0-9_-] and [\w-]
    | NotUrlStop         // [^&\n?#]
    | NotLineTerminator  // .
    | NotColon
    | DecimalDigits
    | HexDigits

  predicate InClass(cc: CharClass, c: char) {
    match cc
    case IdChars => IsIdChar(c)
    case NotUrlStop => c != '&' && c != '\n' && c != '?' && c != '#'
    case NotLineTerminator => !IsLineTerminator(c)
    case NotColon => c != ':'
    case DecimalDigits => IsDigit(c)
    case HexDigits => IsHexDigit(c)
  }

  predicate AllIn(s: string, cc: CharClass) {
    forall k :: 0 <= k < |s| ==> InClass(cc, s[k])
  }

  predicate AllWhitespace(s: string) {
    forall k :: 0 <= k < |s| ==> IsWhitespace(s[k])
  }

  /** `lit` occurs in `s` starting at index `i`. */
  predicate HasAt(s: string, i: nat, lit: string) {
    i + |lit| <= |s| && s[i..i + |lit|] == lit
  }

  predicate StartsWith(s: string, lit: string) { HasAt(s, 0, lit) }

  /** The length of the longest run of `cc` characters starting at `i` (a greedy `+`/`*`). */
  function RunLength(s: string, i: nat, cc: CharClass): (n: nat)
    requires i <= |s|
    decreases |s| - i
    ensures i + n <= |s|
    ensures forall k :: i <= k < i + n ==> InClass(cc, s[k])
    ensures i + n == |s| || !InClass(cc, s[i + n])
  {
    if i < |s| && InClass(cc, s[i]) then 1 + RunLength(s, i + 1, cc) else 0
  }

  function IncludesFrom(s: string, lit: string, i: nat): (r: bool)
    decreases |s| + 1 - i
    ensures r <==> exists k :: i <= k <= |s| && HasAt(s, k, lit)
  {
    if i > |s| then false else HasAt(s, i, lit) || IncludesFrom(s, lit, i + 1)
  }

  /** `s.includes(lit)`. */
  function Includes(s: string, lit: string): (r: bool)
    ensures r <==> exists k :: 0 <= k <= |s| && HasAt(s, k, lit)
  {
    IncludesFrom(s, lit, 0)
  }

  /** `lit` at `i` excludes `other` at `i` when the two differ at some index both have. */
  lemma Exclusive(s: string, i: nat, lit: string, other: string, d: nat)
    requires HasAt(s, i, lit) && d < |lit| && d < |other| && lit[d] != other[d]
    ensures !HasAt(s, i, other)
  {
    assert s[i..i + |lit|][d] == s[i + d];
    if i + |other| <= |s| {
      assert s[i..i + |other|][d] == s[i + d];
    }
  }

  /** A string that lacks the first character of `lit` does not include `lit`. */
  lemma NotIncludedWithoutFirstChar(s: string, lit: string)
    requires lit != [] && lit[0] !in s
    ensures !Includes(s, lit)
  {
    forall k | 0 <= k <= |s| ensures !HasAt(s, k, lit) {
      if k + |lit| <= |s| {
        assert s[k..k + |lit|][0] == s[k];
      }
    }
  }

  /** A string shorter than `lit` does not include it. */
  lemma NotIncludedWhenShorter(s: string, lit: string)
    requires |s| < |lit|
    ensures !Includes(s, lit)
  {
  }

  function FirstIncludedFrom(keys: seq<string>, s: string, p: nat): (r: Option<nat>)
    requires p <= |keys|
    decreases |keys| - p
    ensures r.Some? ==> p <= r.value < |keys| && Includes(s, keys[r.value])
    ensures r.Some? ==> forall q :: p <= q < r.value ==> !Includes(s, keys[q])
    ensures r.None? ==> forall q :: p <= q < |keys| ==> !Includes(s, keys[q])
  {
    if p == |keys| then None
    else if Includes(s, keys[p]) then Some(p)
    else FirstIncludedFrom(keys, s, p + 1)
  }

  /** The index of the first of `keys` that `s` includes: an `if/else if` ladder of `includes` tests. */
  function FirstIncluded(keys: seq<string>, s: string): (r: Option<nat>)
    ensures r.Some? ==> r.value < |keys| && Includes(s, keys[r.value])
    ensures r.Some? ==> forall q :: 0 <= q < r.value ==> !Includes(s, keys[q])
    ensures r.None? <==> forall q :: 0 <= q < |keys| ==> !Includes(s, keys[q])
  {
    FirstIncludedFrom(keys, s, 0)
  }

  /** Where the white space starting at `i` ends. */
  function SkipWhitespace(s: string, i: nat): (j: nat)
    requires i <= |s|
    decreases |s| - i
    ensures i <= j <= |s|
    ensures forall k :: i <= k < j ==> IsWhitespace(s[k])
    ensures j == |s| || !IsWhitespace(s[j])
  {
    if i < |s| && IsWhitespace(s[i]) then SkipWhitespace(s, i + 1) else i
  }

  /** Where the white space ending at `n` starts, going no further back than `lo`. */
  function BackOverWhitespace(s: string, lo: nat, n: nat): (m: nat)
    requires lo <= n <= |s|
    decreases n
    ensures lo <= m <= n
    ensures forall k :: m <= k < n ==> IsWhitespace(s[k])
    ensures m == lo || !IsWhitespace(s[m - 1])
  {
    if lo < n && IsWhitespace(s[n - 1]) then BackOverWhitespace(s, lo, n - 1) else n
  }

  /** `s.trimStart()`, as `parseInt` applies it. */
  function TrimStart(s: string): (r: string)
    ensures r == s[SkipWhitespace(s, 0)..]
  {
    s[SkipWhitespace(s, 0)..]
  }

  /** `s.trim()`: the infix of `s` left once white space is cut from both ends. */
  function Trim(s: string): (r: string)
    ensures exists a: nat :: HasAt(s, a, r) && AllWhitespace(s[..a]) && AllWhitespace(s[a + |r|..])
    ensures r == [] <==> AllWhitespace(s)
    ensures r != [] ==> !IsWhitespace(r[0]) && !IsWhitespace(r[|r| - 1])
  {
    var a := SkipWhitespace(s, 0);
    var b := BackOverWhitespace(s, a, |s|);
    TrimBounds(s, a, b);
    s[a..b]
  }

  lemma TrimBounds(s: string, a: nat, b: nat)
    requires a <= b <= |s|
    requires forall k :: 0 <= k < a ==> IsWhitespace(s[k])
    requires a == |s| || !IsWhitespace(s[a])
    requires forall k :: b <= k < |s| ==> IsWhitespace(s[k])
    requires b == a || !IsWhitespace(s[b - 1])
    ensures exists a': nat :: HasAt(s, a', s[a..b]) && AllWhitespace(s[..a']) && AllWhitespace(s[a' + |s[a..b]|..])
    ensures s[a..b] == [] <==> AllWhitespace(s)
    ensures s[a..b] != [] ==> !IsWhitespace(s[a..b][0]) && !IsWhitespace(s[a..b][b - a - 1])
  {
    var r := s[a..b];
    assert HasAt(s, a, r);
    assert AllWhitespace(s[..a]) by {
      forall k | 0 <= k < a ensures IsWhitespace(s[..a][k]) { assert s[..a][k] == s[k]; }
    }
    assert AllWhitespace(s[b..]) by {
      forall k | 0 <= k < |s| - b ensures IsWhitespace(s[b..][k]) { assert s[b..][k] == s[b + k]; }
    }
    if a == b {
      assert a == |s|;
    } else {
      assert r[0] == s[a] && r[b - a - 1] == s[b - 1];
    }
  }

  /** The numeric value of a digit character (0 for anything that is not one). */
  function DigitValue(c: char): nat {
    if IsDigit(c) then c as int - '0' as int
    else if 'a' <= c <= 'f' then c as int - 'a' as int + 10
    else if 'A' <= c <= 'F' then c as int - 'A' as int + 10
    else 0
  }

  function DigitChar(d: nat): (c: char)
    requires d < 10
    ensures IsDigit(c) && DigitValue(c) == d
  {
    (d + '0' as int) as char
  }

  /** The value of a numeral in base `radix`, read most significant digit first. */
  function ValueOf(s: string, radix: nat): nat {
    if s == [] then 0 else ValueOf(s[..|s| - 1], radix) * radix + DigitValue(s[|s| - 1])
  }

  /** `n.toString()`: the shortest decimal numeral of `n`. */
  function NatToString(n: nat): (r: string)
    decreases n
    ensures r != [] && AllIn(r, DecimalDigits)
    ensures ValueOf(r, 10) == n
    ensures r[0] == '0' ==> r == "0"
  {
    if n < 10 then [DigitChar(n)]
    else
      var p := NatToString(n / 10);
      var r := p + [DigitChar(n % 10)];
      assert r[..|r| - 1] == p;
      r
  }

  /** `s.padStart(2, "0")`. */
  function Pad2(s: string): (r: string)
    ensures |r| == if |s| >= 2 then |s| else 2
    ensures r[|r| - |s|..] == s
    ensures forall k :: 0 <= k < |r| - |s| ==> r[k] == '0'
  {
    if |s| >= 2 then s else seq(2 - |s|, _ => '0') + s
  }

  /** A number below 60, as the clock displays print it: two digits, zero padded. */
  lemma {:induction false} Pad2Value(k: nat)
    requires k < 100
    ensures |Pad2(NatToString(k))| == 2
    ensures AllIn(Pad2(NatToString(k)), DecimalDigits)
    ensures ValueOf(Pad2(NatToString(k)), 10) == k
  {
    var d := NatToString(k);
    if k < 10 {
      var r := Pad2(d);
      assert d == [DigitChar(k)];
      assert r == ['0', DigitChar(k)];
      assert r[..1] == ['0'];
      assert ValueOf(r[..1], 10) == ValueOf([], 10) * 10 + DigitValue('0');
    } else {
      assert NatToString(k / 10) == [DigitChar(k / 10)];
    }
  }

  /**
   * `parseInt(s)` with no radix: skip leading white space, take one sign, read a
   * `0x`/`0X` prefix as hexadecimal, then the longest run of digits. `None` is NaN.
   */
  function ParseInt(s: string): Option<int> {
    var t := TrimStart(s);
    var negative := t != [] && t[0] == '-';
    var u := if t != [] && (t[0] == '-' || t[0] == '+') then t[1..] else t;
    var hex := StartsWith(u, "0x") || StartsWith(u, "0X");
    var w := if hex then u[2..] else u;
    var n := RunLength(w, 0, if hex then HexDigits else DecimalDigits);
    if n == 0 then None
    else
      var v := ValueOf(w[..n], if hex then 16 else 10);
      Some(if negative then -(v as int) else v as int)
  }

  /** A maximal run of `cc` characters is what `RunLength` measures. */
  lemma {:induction false} RunLengthOfRun(s: string, j: nat, n: nat, cc: CharClass)
    requires j + n <= |s|
    requires forall k :: j <= k < j + n ==> InClass(cc, s[k])
    requires j + n == |s| || !InClass(cc, s[j + n])
    ensures RunLength(s, j, cc) == n
    decreases n
  {
    if n > 0 {
      RunLengthOfRun(s, j + 1, n - 1, cc);
    }
  }

  /** A run of decimal digits carries no `0x` prefix. */
  lemma DigitsNotHex(s: string)
    requires AllIn(s, DecimalDigits)
    ensures !StartsWith(s, "0x") && !StartsWith(s, "0X")
  {
    if |s| >= 2 {
      assert s[..2][1] == s[1];
      assert InClass(DecimalDigits, s[1]);
    }
  }

  /** Reading back a rendered number gives the number: `parseInt(String(n)) === n`. */
  lemma ParseIntOfNatToString(n: nat)
    ensures ParseInt(NatToString(n)) == Some(n)
  {
    var s := NatToString(n);
    assert InClass(DecimalDigits, s[0]);
    assert SkipWhitespace(s, 0) == 0;
    assert TrimStart(s) == s;
    DigitsNotHex(s);
    RunLengthOfRun(s, 0, |s|, DecimalDigits);
    assert s[..|s|] == s;
  }
}
