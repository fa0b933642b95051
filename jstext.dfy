/**
 * The JavaScript string primitives the components rely on, on `seq<char>`:
 * decimal digits, `Number(s)` on a digit string, `String(n)` on an integer,
 * `padStart`, `trim` with JavaScript's set of white-space characters, and
 * `length`, which counts UTF-16 code units rather than characters.
 */
module JsText {

  predicate IsDigit(c: char) {
    '0' <= c <= '9'
  }

  predicate AllDigits(s: string) {
    forall i :: 0 <= i < |s| ==> IsDigit(s[i])
  }

  function DigitValue(c: char): (d: nat)
    requires IsDigit(c)
    ensures d < 10
  {
    (c as int) - ('0' as int)
  }

  function DigitChar(d: nat): (c: char)
    requires d < 10
    ensures IsDigit(c) && DigitValue(c) == d
  {
    (('0' as int) + d) as char
  }

  /** `Number(s)` for a string of decimal digits; leading zeros are allowed. */
  function ParseDigits(s: string): nat
    requires AllDigits(s)
  {
    if s == [] then 0 else 10 * ParseDigits(s[..|s| - 1]) + DigitValue(s[|s| - 1])
  }

  /** `String(n)` for a non-negative integer: its decimal digits, without leading zeros. */
  function NatToString(n: nat): (s: string)
    ensures |s| >= 1 && AllDigits(s)
    ensures n < 10 <==> |s| == 1
    ensures s[0] == '0' <==> n == 0
  {
    if n < 10 then [DigitChar(n)] else NatToString(n / 10) + [DigitChar(n % 10)]
  }

  /** `String(i)` for any integer: a minus sign in front of a negative one. */
  function IntToString(i: int): (s: string)
    ensures i >= 0 ==> s == NatToString(i)
    ensures i < 0 ==> s == "-" + NatToString(-i)
  {
    if i < 0 then "-" + NatToString(-i) else NatToString(i)
  }

  /** `s.padStart(n, c)`: `c` repeated on the left until the length is `n`. */
  function PadStart(s: string, n: nat, c: char): (r: string)
    ensures |r| == if |s| >= n then |s| else n
    decreases n - |s|
  {
    if |s| >= n then s else PadStart([c] + s, n, c)
  }

  /** `padStart` puts copies of the fill character in front of the string and nothing else. */
  lemma {:induction false} PadStartContent(s: string, n: nat, c: char)
    ensures var r := PadStart(s, n, c);
      && r[|r| - |s|..] == s
      && forall i :: 0 <= i < |r| - |s| ==> r[i] == c
    decreases n - |s|
  {
    if |s| < n {
      PadStartContent([c] + s, n, c);
    }
  }

  /** `String(v).padStart(2, '0')`, the field format every clock string here uses. */
  function Pad2(v: int): string {
    PadStart(IntToString(v), 2, '0')
  }

  lemma {:induction false} ParseNatToString(n: nat)
    ensures ParseDigits(NatToString(n)) == n
  {
    if n >= 10 {
      var s := NatToString(n / 10) + [DigitChar(n % 10)];
      assert s[..|s| - 1] == NatToString(n / 10);
      ParseNatToString(n / 10);
    }
  }

  /** A leading zero does not change the value of a digit string. */
  lemma {:induction false} ParseLeadingZero(s: string)
    requires AllDigits(s)
    ensures AllDigits("0" + s) && ParseDigits("0" + s) == ParseDigits(s)
  {
    var z := "0" + s;
    if s != [] {
      assert z[..|z| - 1] == "0" + s[..|s| - 1];
      ParseLeadingZero(s[..|s| - 1]);
    }
  }

  /** Padding a digit string with zeros keeps it a digit string of the same value. */
  lemma {:induction false} ParsePadStart(s: string, n: nat)
    requires AllDigits(s)
    ensures AllDigits(PadStart(s, n, '0'))
    ensures ParseDigits(PadStart(s, n, '0')) == ParseDigits(s)
    decreases n - |s|
  {
    if |s| < n {
      ParseLeadingZero(s);
      ParsePadStart("0" + s, n);
    }
  }

  /** For a non-negative value, `String(v).padStart(2, '0')` is a digit string of at least two digits worth `v`. */
  lemma Pad2Nat(v: nat)
    ensures |Pad2(v)| >= 2 && AllDigits(Pad2(v))
    ensures ParseDigits(Pad2(v)) == v
    ensures v < 100 ==> |Pad2(v)| == 2
  {
    ParsePadStart(NatToString(v), 2);
    ParseNatToString(v);
  }

  lemma Pad2Zero()
    ensures Pad2(0) == "00"
  {
  }

  /** A character outside the Basic Multilingual Plane, which UTF-16 writes as a surrogate pair. */
  predicate IsAstral(c: char) {
    c as int > 0xFFFF
  }

  /** `s.length`: one code unit per character of the Basic Multilingual Plane, two per other character. */
  function Utf16Length(s: string): (n: nat)
    ensures |s| <= n <= 2 * |s|
    ensures n == |s| <==> forall i :: 0 <= i < |s| ==> !IsAstral(s[i])
  {
    if s == [] then 0
    else
      var n := Utf16Length(s[..|s| - 1]) + (if IsAstral(s[|s| - 1]) then 2 else 1);
      assert forall i :: 0 <= i < |s| - 1 ==> s[..|s| - 1][i] == s[i];
      n
  }

  /** Decimal digits are one code unit each. */
  lemma DigitsUtf16Length(s: string)
    requires AllDigits(s)
    ensures Utf16Length(s) == |s|
  {
  }

  /** The characters JavaScript's `String.prototype.trim` removes: WhiteSpace and LineTerminator. */
  predicate IsJsWhitespace(c: char) {
    || c == '\t' || c == '\n' || c == '\U{000B}' || c == '\U{000C}' || c == '\r' || c == ' '
    || c == '\U{00A0}' || c == '\U{1680}' || ('\U{2000}' <= c <= '\U{200A}')
    || c == '\U{2028}' || c == '\U{2029}' || c == '\U{202F}' || c == '\U{205F}'
    || c == '\U{3000}' || c == '\U{FEFF}'
  }

  /** Every character is white space, so `s.trim()` is the empty string. */
  predicate IsBlank(s: string) {
    forall i :: 0 <= i < |s| ==> IsJsWhitespace(s[i])
  }

  /** `s` without its leading white space. */
  function TrimStart(s: string): (r: string)
    ensures |r| <= |s|
  {
    if s != [] && IsJsWhitespace(s[0]) then TrimStart(s[1..]) else s
  }

  /** What `TrimStart` removes is a white-space prefix, and what it keeps starts with a
      character that is not white space. */
  lemma {:induction false} TrimStartSpec(s: string)
    ensures var r := TrimStart(s);
      && r == s[|s| - |r|..] && IsBlank(s[..|s| - |r|])
      && (r == [] || !IsJsWhitespace(r[0]))
  {
    if s != [] && IsJsWhitespace(s[0]) {
      var r := TrimStart(s[1..]);
      TrimStartSpec(s[1..]);
      var k := |s| - |r|;
      assert s[1..][|s| - 1 - |r|..] == s[k..];
      forall i | 0 <= i < k
        ensures IsJsWhitespace(s[..k][i])
      {
        if i > 0 {
          assert s[..k][i] == s[1..][..|s| - 1 - |r|][i - 1];
        }
      }
    }
  }

  /** `s` without its trailing white space. */
  function TrimEnd(s: string): (r: string)
    ensures |r| <= |s|
  {
    if s != [] && IsJsWhitespace(s[|s| - 1]) then TrimEnd(s[..|s| - 1]) else s
  }

  /** What `TrimEnd` removes is a white-space suffix, and what it keeps ends with a
      character that is not white space. */
  lemma {:induction false} TrimEndSpec(s: string)
    ensures var r := TrimEnd(s);
      && r == s[..|r|] && IsBlank(s[|r|..])
      && (r == [] || !IsJsWhitespace(r[|r| - 1]))
  {
    if s != [] && IsJsWhitespace(s[|s| - 1]) {
      var p := s[..|s| - 1];
      var r := TrimEnd(p);
      TrimEndSpec(p);
      assert p[..|r|] == s[..|r|];
      forall i | 0 <= i < |s| - |r|
        ensures IsJsWhitespace(s[|r|..][i])
      {
        if i < |s| - 1 - |r| {
          assert s[|r|..][i] == p[|r|..][i];
        }
      }
    }
  }

  /** `s.trim()`: empty exactly for a blank string, and otherwise neither starting nor
      ending with white space. */
  function Trim(s: string): (r: string)
    ensures r == [] <==> IsBlank(s)
    ensures r != [] ==> !IsJsWhitespace(r[0]) && !IsJsWhitespace(r[|r| - 1])
  {
    TrimBothEnds(s);
    TrimEnd(TrimStart(s))
  }

  /** Trimming both ends keeps exactly the non-blank strings non-empty. */
  lemma TrimBothEnds(s: string)
    ensures var r := TrimEnd(TrimStart(s));
      && (r == [] <==> IsBlank(s))
      && (r != [] ==> !IsJsWhitespace(r[0]) && !IsJsWhitespace(r[|r| - 1]))
  {
    var t := TrimStart(s);
    TrimStartSpec(s);
    TrimEndSpec(t);
    var r := TrimEnd(t);
    if r != [] {
      assert r[0] == t[0];
      assert !IsBlank(t) by {
        assert r[|r| - 1] == t[|r| - 1];
      }
      var i := |s| - |t|;
      assert s[i] == t[0];
    } else {
      // An empty result leaves a blank `t`, which cannot start with a non-blank character.
      assert t[|r|..] == t;
      assert t == [];
      forall i | 0 <= i < |s|
        ensures IsJsWhitespace(s[i])
      {
        assert s[i] == s[..|s|][i];
      }
    }
  }
}
