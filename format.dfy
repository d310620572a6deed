/**
 * `formatCount`: how follower, following and post counts are shown.
 * Counts of a million or more are shown in millions with the suffix "M",
 * counts of a thousand or more in thousands with the suffix "k", smaller
 * counts as plain decimal numbers. The one-decimal mantissa that `toFixed(1)`
 * produces is kept as the quotient it renders (count / divisor); its digits
 * are floating-point output and are not modelled.
 */
module Format {
  import opened Text

  /** A rendered count: plain digits, or `count / divisor` with one decimal and a suffix. */
  datatype CountLabel = Plain(text: string) | Scaled(count: int, divisor: int, suffix: string)

  /** `formatCount` as written: the million branch is tested first, then the thousand
      branch; both thresholds belong to the higher branch. */
  function FormatCount(value: int): (r: CountLabel)
    ensures r.Plain? <==> value < 1000
    ensures r.Plain? ==> IsNumeral(r.text) && ParseInt(r.text) == value
    ensures r.Scaled? ==> r.count == value
    ensures r.Scaled? && r.suffix == "M" <==> value >= 1000000
    ensures r.Scaled? && r.suffix == "k" <==> 1000 <= value < 1000000
    ensures r.Scaled? && r.suffix == "M" ==> r.divisor == 1000000
    ensures r.Scaled? && r.suffix == "k" ==> r.divisor == 1000
  {
    IntToStringRoundTrip(value);
    if value >= 1000000 then Scaled(value, 1000000, "M")
    else if value >= 1000 then Scaled(value, 1000, "k")
    else Plain(IntToString(value))
  }

  /** The quotient of a scaled label is at least 999.95 and below 1000 * divisor,
      so `toFixed(1)` rounds it up to "1000.0" although it is under the next unit. */
  predicate ShowsThousandOfUnit(shown: CountLabel) {
    shown.Scaled? && shown.divisor > 0 && 20 * shown.count >= 19999 * shown.divisor
    && shown.count < 1000 * shown.divisor
  }

  /** As written, the counts 999 950 to 999 999 are shown as "1000.0k" instead of "1.0M"
      (`toFixed` rounds the tie 999.95 up as well). */
  lemma FormatCountShowsThousandK(value: int)
    requires 999950 <= value <= 999999
    ensures FormatCount(value).suffix == "k"
    ensures ShowsThousandOfUnit(FormatCount(value))
  {
  }

  /** `formatCount` with the thousand branch ending where its mantissa would round to
      1000.0: from 999 950 on, the count is shown in millions. */
  function FormatCountCorrected(value: int): (r: CountLabel)
    ensures r.Plain? <==> value < 1000
    ensures r.Plain? ==> IsNumeral(r.text) && ParseInt(r.text) == value
    ensures r.Scaled? ==> r.count == value && r.divisor > 0
    ensures r.Scaled? && r.suffix == "k" ==> r.divisor == 1000 && 1000 <= value < 999950
    ensures r.Scaled? && r.suffix == "M" ==> r.divisor == 1000000 && value >= 999950
    ensures r.Scaled? ==> r.suffix == "k" || r.suffix == "M"
  {
    IntToStringRoundTrip(value);
    if value >= 999950 then Scaled(value, 1000000, "M")
    else if value >= 1000 then Scaled(value, 1000, "k")
    else Plain(IntToString(value))
  }

  /** With the corrected thresholds a thousand-label never rounds up to "1000.0k",
      and it agrees with `formatCount` everywhere except on 999 950..999 999. */
  lemma CorrectedNeverShowsThousandK(value: int)
    ensures FormatCountCorrected(value).Scaled? && FormatCountCorrected(value).suffix == "k"
            ==> !ShowsThousandOfUnit(FormatCountCorrected(value))
    ensures !(999950 <= value < 1000000) ==> FormatCountCorrected(value) == FormatCount(value)
  {
  }
}
