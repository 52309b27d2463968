/**
 * The pieces of JavaScript string semantics the room components rely on:
 * UTF-16 code units (what `length`, `charCodeAt` and `substring` count),
 * `String.prototype.trim` (ECMA-262, White Space and Line Terminators), and
 * the decimal rendering of a non-negative integer in a template literal.
 */
module JsString {

  /** One UTF-16 code unit, the element JavaScript strings are made of. */
  type CodeUnit = u: int | 0 <= u < 0x1_0000

  /** The UTF-16 encoding of one Unicode scalar value: one unit, or a surrogate pair. */
  function EncodeChar(c: char): (r: seq<CodeUnit>)
    ensures 1 <= |r| <= 2
    ensures |r| == 1 <==> c as int < 0x1_0000
    ensures |r| == 1 ==> r[0] == c as int
  {
    var v := c as int;
    if v < 0x1_0000 then [v]
    else [0xD800 + (v - 0x1_0000) / 0x400, 0xDC00 + (v - 0x1_0000) % 0x400]
  }

  /** The string as JavaScript sees it: its sequence of UTF-16 code units. */
  function Utf16(s: string): (r: seq<CodeUnit>)
    ensures |s| <= |r| <= 2 * |s|
    ensures (forall i :: 0 <= i < |s| ==> s[i] as int < 0x1_0000) ==> |r| == |s|
  {
    if s == [] then [] else EncodeChar(s[0]) + Utf16(s[1..])
  }

  /**
   * The code points `String.prototype.trim` removes: WhiteSpace (TAB, VT, FF,
   * ZWNBSP and every space separator) and LineTerminator (LF, CR, LS, PS).
   */
  predicate IsJsWhitespace(c: char) {
    var v := c as int;
    v == 0x09 || v == 0x0B || v == 0x0C || v == 0x20 || v == 0xA0 || v == 0xFEFF
    || v == 0x1680 || (0x2000 <= v <= 0x200A) || v == 0x202F || v == 0x205F || v == 0x3000
    || v == 0x0A || v == 0x0D || v == 0x2028 || v == 0x2029
  }

  /** Every character of `s` is trimmable white space (vacuously true of ""). */
  predicate Blank(s: string) {
    forall i :: 0 <= i < |s| ==> IsJsWhitespace(s[i])
  }

  /** `s` with its leading white space removed. */
  function TrimStart(s: string): (r: string)
    ensures |r| <= |s| && r == s[|s| - |r|..]
    ensures r == [] || !IsJsWhitespace(r[0])
    ensures Blank(s[..|s| - |r|])
  {
    if s != [] && IsJsWhitespace(s[0]) then
      var rest := s[1..];
      var r := TrimStart(rest);
      assert r == s[|s| - |r|..] by {
        assert rest[|rest| - |r|..] == s[|s| - |r|..];
      }
      assert Blank(s[..|s| - |r|]) by {
        forall i | 0 <= i < |s| - |r|
          ensures IsJsWhitespace(s[i])
        {
          if i > 0 {
            assert s[i] == rest[..|rest| - |r|][i - 1];
          }
        }
      }
      r
    else s
  }

  /** `s` with its trailing white space removed. */
  function TrimEnd(s: string): (r: string)
    ensures |r| <= |s| && r == s[..|r|]
    ensures r == [] || !IsJsWhitespace(r[|r| - 1])
    ensures Blank(s[|r|..])
  {
    if s != [] && IsJsWhitespace(s[|s| - 1]) then
      var init := s[..|s| - 1];
      var r := TrimEnd(init);
      assert r == s[..|r|] by {
        assert init[..|r|] == s[..|r|];
      }
      assert Blank(s[|r|..]) by {
        forall i | |r| <= i < |s|
          ensures IsJsWhitespace(s[i])
        {
          if i < |s| - 1 {
            assert s[i] == init[|r|..][i - |r|];
          }
        }
      }
      r
    else s
  }

  /** `s.trim()`. */
  function Trim(s: string): string {
    TrimEnd(TrimStart(s))
  }

  /** `!s.trim()` holds exactly when every character of `s` is white space. */
  lemma TrimEmptyIffBlank(s: string)
    ensures Trim(s) == [] <==> Blank(s)
  {
    var t := TrimStart(s);
    var k := |s| - |t|;
    assert t != [] ==> t[0] == s[k];
    assert TrimEnd([]) == [];
    if Trim(s) == [] {
      assert t[0..] == t;
      assert t == [];
      assert s[..k] == s;
    }
  }

  /** `!s.trim()`. */
  function TrimsToEmpty(s: string): (r: bool)
    ensures r <==> Blank(s)
  {
    TrimEmptyIffBlank(s);
    Trim(s) == []
  }

  /** The character of a decimal digit. */
  function DigitChar(d: nat): (c: char)
    requires d < 10
    ensures '0' <= c <= '9' && (c as int) - ('0' as int) == d
  {
    ['0', '1', '2', '3', '4', '5', '6', '7', '8', '9'][d]
  }

  predicate IsDigits(s: string) {
    forall i :: 0 <= i < |s| ==> '0' <= s[i] <= '9'
  }

  /** `${n}` for a non-negative integer: its digits, most significant first, no leading zero. */
  function Decimal(n: nat): (r: string)
    ensures r != [] && IsDigits(r)
    ensures r[0] == '0' ==> n == 0 && r == "0"
  {
    if n < 10 then [DigitChar(n)] else Decimal(n / 10) + [DigitChar(n % 10)]
  }

  /** The number a string of digits denotes. */
  function DigitsValue(s: string): nat
    requires IsDigits(s)
  {
    if s == [] then 0
    else 10 * DigitsValue(s[..|s| - 1]) + ((s[|s| - 1] as int) - ('0' as int))
  }

  /** Reading back the rendered digits gives the number that was rendered. */
  lemma {:induction false} DecimalRoundTrip(n: nat)
    ensures DigitsValue(Decimal(n)) == n
  {
    if n >= 10 {
      DecimalRoundTrip(n / 10);
      var r := Decimal(n);
      assert r[..|r| - 1] == Decimal(n / 10);
    }
  }
}
