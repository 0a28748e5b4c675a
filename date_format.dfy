/** The `DD/MM/YYYY` text the order e-mail carries for each rental date (the dayjs
    pattern used by the component), with a reader that inverts it. */
module DateFormat {
  import opened Wrappers
  import opened Decimal
  import opened Calendar

  /** Day, month and year as zero-padded two-, two- and four-digit fields. */
  function FormatDate(d: Date): (s: string)
    ensures |s| == 10 && s[2] == '/' && s[5] == '/'
  {
    PadDigits(d.day, 2) + "/" + PadDigits(d.month, 2) + "/" + PadDigits(d.year, 4)
  }

  /** Reads `DD/MM/YYYY` back into its three numbers. */
  function ParseDate(s: string): (r: Option<CivilDate>)
    ensures r.Some? ==> 0 <= r.value.day <= 99 && 0 <= r.value.month <= 99 && 0 <= r.value.year <= 9999
  {
    if |s| == 10 && s[2] == '/' && s[5] == '/'
       && AllDigits(s[0..2]) && AllDigits(s[3..5]) && AllDigits(s[6..10])
    then
      DigitsValueBound(s[0..2]);
      DigitsValueBound(s[3..5]);
      DigitsValueBound(s[6..10]);
      Some(CivilDate(DigitsValue(s[6..10]), DigitsValue(s[3..5]), DigitsValue(s[0..2])))
    else None
  }

  lemma {:induction false} DigitsValueBound(s: string)
    requires AllDigits(s)
    ensures DigitsValue(s) < Pow10(|s|)
  {
    if s != [] {
      DigitsValueBound(s[..|s| - 1]);
    }
  }

  /** Formatting a date and reading the text back gives the same date. */
  lemma FormatDateRoundTrip(d: Date)
    ensures ParseDate(FormatDate(d)) == Some(d)
  {
    var s := FormatDate(d);
    assert s[0..2] == PadDigits(d.day, 2);
    assert s[3..5] == PadDigits(d.month, 2);
    assert s[6..10] == PadDigits(d.year, 4);
  }
}
