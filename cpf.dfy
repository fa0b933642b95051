/**
 * `formatCPF` of the collaborator forms. Both form components carry their
 * own copy, character for character the same, so it is defined once here:
 * keep the digits (`value.replace(/\D/g, '')`), then rewrite the first run
 * of eleven digits as ddd.ddd.ddd-dd (`/(\d{3})(\d{3})(\d{3})(\d{2})/`,
 * no `g` flag, so at most one match, which starts at the first digit).
 */
module Cpf {
  import opened JsText

  /** `value.replace(/\D/g, '')`. */
  function StripNonDigits(s: string): (r: string)
    ensures AllDigits(r) && |r| <= |s|
  {
    if s == [] then [] else (if IsDigit(s[0]) then [s[0]] else []) + StripNonDigits(s[1..])
  }

  function FormatCPF(value: string): string {
    var d := StripNonDigits(value);
    if |d| >= 11 then d[..3] + "." + d[3..6] + "." + d[6..9] + "-" + d[9..11] + d[11..] else d
  }

  /** ddd.ddd.ddd-dd: fourteen characters, digits except for the three separators. */
  predicate IsCpfPattern(s: string) {
    && |s| == 14 && s[3] == '.' && s[7] == '.' && s[11] == '-'
    && forall i :: 0 <= i < 14 && i != 3 && i != 7 && i != 11 ==> IsDigit(s[i])
  }

  lemma {:induction false} StripConcat(a: string, b: string)
    ensures StripNonDigits(a + b) == StripNonDigits(a) + StripNonDigits(b)
  {
    if a == [] {
      assert a + b == b;
    } else {
      assert (a + b)[1..] == a[1..] + b;
      StripConcat(a[1..], b);
    }
  }

  lemma {:induction false} StripDigits(s: string)
    requires AllDigits(s)
    ensures StripNonDigits(s) == s
  {
    if s != [] {
      StripDigits(s[1..]);
    }
  }

  /** Formatting only inserts separators: the digits of the output are those of the input. */
  lemma FormatCPFKeepsDigits(value: string)
    ensures StripNonDigits(FormatCPF(value)) == StripNonDigits(value)
  {
    var d := StripNonDigits(value);
    if |d| >= 11 {
      StripDigits(d);
      var x1 := d[..3] + ".";
      assert StripNonDigits(x1) == d[..3] by { StripConcat(d[..3], "."); StripDigits(d[..3]); }
      var x2 := x1 + d[3..6];
      assert StripNonDigits(x2) == d[..6] by { StripConcat(x1, d[3..6]); StripDigits(d[3..6]); }
      var x3 := x2 + ".";
      assert StripNonDigits(x3) == d[..6] by { StripConcat(x2, "."); }
      var x4 := x3 + d[6..9];
      assert StripNonDigits(x4) == d[..9] by { StripConcat(x3, d[6..9]); StripDigits(d[6..9]); }
      var x5 := x4 + "-";
      assert StripNonDigits(x5) == d[..9] by { StripConcat(x4, "-"); }
      var x6 := x5 + d[9..11];
      assert StripNonDigits(x6) == d[..11] by { StripConcat(x5, d[9..11]); StripDigits(d[9..11]); }
      var x7 := x6 + d[11..];
      assert StripNonDigits(x7) == d by { StripConcat(x6, d[11..]); StripDigits(d[11..]); }
      assert FormatCPF(value) == x7;
    } else {
      StripDigits(d);
    }
  }

  /** Eleven digits give exactly the pattern ddd.ddd.ddd-dd. */
  lemma FormatCPFElevenDigits(value: string)
    requires |StripNonDigits(value)| == 11
    ensures IsCpfPattern(FormatCPF(value))
  {
  }

  /** Fewer than eleven digits are returned as they are, without separators. */
  lemma FormatCPFShort(value: string)
    requires |StripNonDigits(value)| < 11
    ensures FormatCPF(value) == StripNonDigits(value)
  {
  }

  /** Typing into an already formatted CPF field and formatting again changes nothing. */
  lemma FormatCPFIdempotent(value: string)
    ensures FormatCPF(FormatCPF(value)) == FormatCPF(value)
  {
    FormatCPFKeepsDigits(value);
  }
}
