/**
 * The "HH:MM" rendering of a number of minutes that the schedule screens
 * use for their weekly totals: `Math.floor(t / 60)` and `t % 60`, each
 * through `String(..).padStart(2, '0')`, joined by a colon.
 */
module Clock {
  import opened JsText

  /** `${String(Math.floor(t / 60)).padStart(2, '0')}:${String(t % 60).padStart(2, '0')}`.
      Dafny's `/` and `%` with a positive divisor are floor division and a
      non-negative remainder, which is `Math.floor` and, for `t >= 0`, JavaScript's `%`. */
  function ClockString(t: int): string {
    Pad2(t / 60) + ":" + Pad2(t % 60)
  }

  /** A clock string: at least two hour digits, a colon, exactly two minute digits, 00..59. */
  predicate IsClock(s: string) {
    && |s| >= 5
    && var k := |s| - 3;
    && s[k] == ':' && AllDigits(s[..k]) && AllDigits(s[k + 1..])
    && ParseDigits(s[k + 1..]) < 60
  }

  /** The number of minutes a clock string stands for: hours * 60 + minutes. */
  function ClockMinutes(s: string): nat
    requires IsClock(s)
  {
    var k := |s| - 3;
    ParseDigits(s[..k]) * 60 + ParseDigits(s[k + 1..])
  }

  /** A non-negative total is rendered as a well-formed clock string that reads back as the same total. */
  lemma ClockRoundTrip(t: nat)
    ensures IsClock(ClockString(t))
    ensures ClockMinutes(ClockString(t)) == t
  {
    Pad2Nat(t / 60);
    Pad2Nat(t % 60);
    ClockParts(Pad2(t / 60), Pad2(t % 60));
  }

  /** Hours and minutes fields joined by a colon form a clock string worth hours * 60 + minutes. */
  lemma ClockParts(h: string, m: string)
    requires |h| >= 2 && AllDigits(h)
    requires |m| == 2 && AllDigits(m) && ParseDigits(m) < 60
    ensures IsClock(h + ":" + m)
    ensures ClockMinutes(h + ":" + m) == ParseDigits(h) * 60 + ParseDigits(m)
  {
    var s, k := h + ":" + m, |h|;
    assert |s| - 3 == k;
    assert s[..k] == h && s[k] == ':' && s[k + 1..] == m;
    assert IsClock(s);
    assert ParseDigits(s[..k]) == ParseDigits(h) && ParseDigits(s[k + 1..]) == ParseDigits(m);
  }

  lemma ClockStringZero()
    ensures ClockString(0) == "00:00"
  {
  }
}
