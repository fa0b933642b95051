/**
 * `formatHorasMinutos` of `lib/utils.ts`: decimal hours shown as "HH:MM",
 * the fractional part turned into minutes with `Math.round`, and a
 * rounding that reaches sixty minutes carried into the hours.
 */
module Utils {
  import opened JsText
  import opened JsMath
  import opened Clock

  /** The minutes `Math.round((horasDecimais - horas) * 60)` gives: from 0 to 60 inclusive. */
  function MinutosArredondados(horasDecimais: real): (m: int)
    ensures 0 <= m <= 60
  {
    Round((horasDecimais - horasDecimais.Floor as real) * 60.0)
  }

  function FormatHorasMinutos(horasDecimais: real): string {
    var horas := horasDecimais.Floor;
    var minutos := MinutosArredondados(horasDecimais);
    if minutos == 60 then Pad2(horas + 1) + ":00"
    else Pad2(horas) + ":" + Pad2(minutos)
  }

  /** `Math.round` commutes with adding a whole number. */
  lemma RoundShift(y: real, k: int)
    ensures Round(y + k as real) == Round(y) + k
  {
    var a, b := Round(y + k as real), Round(y) + k;
    assert b as real - 0.5 <= y + k as real < b as real + 0.5;
    // Two integers within the same half-open unit window around `y + k` are equal.
    assert a as real - b as real < 1.0 && b as real - a as real < 1.0;
  }

  /** The text is the clock string of the input rounded to the nearest whole minute,
      carry included. */
  lemma FormatEhMinutoMaisProximo(horasDecimais: real)
    ensures FormatHorasMinutos(horasDecimais) == ClockString(Round(horasDecimais * 60.0))
  {
    var h := horasDecimais.Floor;
    var m := MinutosArredondados(horasDecimais);
    var t := Round(horasDecimais * 60.0);
    RoundDecompoe(horasDecimais);
    if m == 60 {
      assert t / 60 == h + 1 && t % 60 == 0;
      Pad2Zero();
    } else {
      assert t / 60 == h && t % 60 == m;
    }
  }

  /** The minutes of `60 * x`, rounded, are the whole hours of `x` and its rounded minutes. */
  lemma RoundDecompoe(horasDecimais: real)
    ensures Round(horasDecimais * 60.0) == 60 * horasDecimais.Floor + MinutosArredondados(horasDecimais)
  {
    var h := horasDecimais.Floor;
    RoundShift((horasDecimais - h as real) * 60.0, 60 * h);
    assert (horasDecimais - h as real) * 60.0 + (60 * h) as real == horasDecimais * 60.0;
  }

  /** Non-negative hours render as a well-formed clock string that reads back as the
      nearest whole number of minutes. */
  lemma FormatLeComoMinutos(horasDecimais: real)
    requires horasDecimais >= 0.0
    ensures IsClock(FormatHorasMinutos(horasDecimais))
    ensures ClockMinutes(FormatHorasMinutos(horasDecimais)) == Round(horasDecimais * 60.0)
    ensures -0.5 < ClockMinutes(FormatHorasMinutos(horasDecimais)) as real - horasDecimais * 60.0 <= 0.5
  {
    FormatEhMinutoMaisProximo(horasDecimais);
    ClockRoundTrip(Round(horasDecimais * 60.0));
  }

  /** Whole hours show ":00". */
  lemma FormatHorasInteiras(n: int)
    ensures FormatHorasMinutos(n as real) == Pad2(n) + ":00"
  {
    assert (n as real).Floor == n;
    assert MinutosArredondados(n as real) == 0;
    Pad2Zero();
  }
}
