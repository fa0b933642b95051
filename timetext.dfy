/**
 * Time-of-day strings as the components read them: the value of an
 * `<input type="time">` ("HH:MM"), or a time column read back from the
 * database ("HH:MM:SS"). The components turn one into minutes with
 * `s.split(':').map(Number)`, keeping only the first two parts.
 */
module TimeText {
  import opened JsText

  predicate IsTime(s: string) {
    && (|s| == 5 || (|s| == 8 && s[5] == ':' && IsDigit(s[6]) && IsDigit(s[7])))
    && IsDigit(s[0]) && IsDigit(s[1]) && s[2] == ':' && IsDigit(s[3]) && IsDigit(s[4])
  }

  /** A time field of a form or a record: empty, or a time. */
  predicate IsTimeField(s: string) {
    s == "" || IsTime(s)
  }

  /** `const [h, m] = s.split(':').map(Number); h * 60 + m`; the seconds part is ignored. */
  function Minutes(s: string): nat
    requires IsTime(s)
  {
    60 * ParseDigits(s[..2]) + ParseDigits(s[3..5])
  }

  /** A time read back with seconds counts the same minutes as its "HH:MM" prefix. */
  lemma SecondsIgnored(s: string)
    requires IsTime(s)
    ensures IsTime(s[..5]) && Minutes(s) == Minutes(s[..5])
  {
    assert s[..5][..2] == s[..2] && s[..5][3..5] == s[3..5];
  }
}
