/**
 * String operations the client uses: `String.prototype.trim` (to reject
 * blank input) and the decimal rendering of a non-negative integer (the
 * `${Date.now()}` in session ids and the `${index + 1}` in fallback titles).
 */
module Text {

  /** The characters `trim` removes: ECMAScript WhiteSpace and LineTerminator. */
  predicate IsJsSpace(c: char) {
    var k := c as int;
    (9 <= k <= 13) || k == 0x20 || k == 0xA0 || k == 0x1680
    || (0x2000 <= k <= 0x200A) || k == 0x2028 || k == 0x2029
    || k == 0x202F || k == 0x205F || k == 0x3000 || k == 0xFEFF
  }

  predicate Blank(s: string) {
    forall i | 0 <= i < |s| :: IsJsSpace(s[i])
  }

  /** Drops leading white space: the result is a suffix that starts with a non-space. */
  function TrimStart(s: string): (r: string)
    ensures |r| <= |s| && r == s[|s| - |r|..]
    ensures Blank(s[..|s| - |r|])
    ensures r != [] ==> !IsJsSpace(r[0])
    decreases |s|
  {
    if |s| > 0 && IsJsSpace(s[0]) then
      var r := TrimStart(s[1..]);
      var dropped := s[..|s| - |r|];
      forall i | 0 <= i < |dropped|
        ensures IsJsSpace(dropped[i])
      {
        if i > 0 {
          assert dropped[i] == s[1..][..|s| - 1 - |r|][i - 1];
        }
      }
      r
    else s
  }

  /** Drops trailing white space: the result is a prefix that ends with a non-space. */
  function TrimEnd(s: string): (r: string)
    ensures |r| <= |s| && r == s[..|r|]
    ensures Blank(s[|r|..])
    ensures r != [] ==> !IsJsSpace(r[|r| - 1])
    decreases |s|
  {
    if |s| > 0 && IsJsSpace(s[|s| - 1]) then
      var r := TrimEnd(s[..|s| - 1]);
      forall i | 0 <= i < |s| - |r|
        ensures IsJsSpace(s[|r|..][i])
      {
        if i < |s| - 1 - |r| {
          assert s[|r|..][i] == s[..|s| - 1][|r|..][i];
        }
      }
      r
    else s
  }

  /** `r` is `s` with the white space before position `k` and after `r` removed. */
  predicate StrippedAt(s: string, r: string, k: nat) {
    k + |r| <= |s| && r == s[k..k + |r|] && Blank(s[..k]) && Blank(s[k + |r|..])
  }

  /**
   * `s.trim()`: `s` without its leading and trailing white space;
   * it is empty (so `!s.trim()` holds) exactly when `s` is all white space.
   */
  function Trim(s: string): (r: string)
    ensures |r| <= |s| && exists k | 0 <= k <= |s| - |r| :: StrippedAt(s, r, k)
    ensures r != [] ==> !IsJsSpace(r[0]) && !IsJsSpace(r[|r| - 1])
    ensures r == "" <==> Blank(s)
  {
    var t := TrimStart(s);
    var r := TrimEnd(t);
    var k := |s| - |t|;
    assert StrippedAt(s, r, k) by {
      assert s[k..] == t;
      assert s[k..k + |r|] == t[..|r|];
      assert s[k + |r|..] == t[|r|..];
    }
    r
  }

  predicate IsDigit(c: char) {
    '0' <= c <= '9'
  }

  predicate AllDigits(s: string) {
    forall i | 0 <= i < |s| :: IsDigit(s[i])
  }

  function DigitChar(d: nat): (c: char)
    requires d < 10
    ensures IsDigit(c) && c as int - '0' as int == d
  {
    ('0' as int + d) as char
  }

  /** Reads a string of decimal digits back as a number. */
  function DecimalValue(s: string): nat
    requires AllDigits(s)
  {
    if s == [] then 0
    else DecimalValue(s[..|s| - 1]) * 10 + (s[|s| - 1] as int - '0' as int)
  }

  /**
   * The decimal rendering JavaScript gives a non-negative integer below
   * 10^21 (the range of every timestamp and index here): digits only, no
   * leading zero, and it reads back as the number it renders.
   */
  function Decimal(n: nat): (r: string)
    ensures |r| >= 1 && AllDigits(r)
    ensures r[0] == '0' ==> n == 0
    ensures DecimalValue(r) == n
  {
    if n < 10 then [DigitChar(n)]
    else
      var r := Decimal(n / 10) + [DigitChar(n % 10)];
      assert r[..|r| - 1] == Decimal(n / 10);
      r
  }
}
