/** The exhaustion flag and bar geometry of components/ADRMeter.tsx. */
module AdrMeter {
  import opened Types

  /** The range is exhausted once 90% of the average daily range is used. */
  predicate IsExhausted(data: AdrInfo) {
    data.percentageUsed >= 90
  }

  /** `Math.min(percentageUsed, 100)`: capped above, with no lower clamp. */
  function BarWidth(data: AdrInfo): (w: int)
    ensures w <= 100
    ensures data.percentageUsed <= 100 ==> w == data.percentageUsed
    ensures data.percentageUsed > 100 ==> w == 100
  {
    if data.percentageUsed < 100 then data.percentageUsed else 100
  }

  /** The colour family of a styled element. */
  datatype Tone = Red | Blue

  /** The tones of the percentage label text and of the bar fill. */
  datatype MeterStyle = MeterStyle(text: Tone, fill: Tone)

  /** Both the label and the bar switch to red on the exhaustion flag. */
  function StyleOf(data: AdrInfo): (st: MeterStyle)
    ensures st.text == Red <==> data.percentageUsed >= 90
    ensures st.fill == Red <==> data.percentageUsed >= 90
  {
    var text := if IsExhausted(data) then Red else Blue;
    var fill := if IsExhausted(data) then Red else Blue;
    MeterStyle(text, fill)
  }

  /** The exhaustion flag can be read off the drawn bar: it is red exactly when the bar reaches 90. */
  lemma ExhaustedIffBarReaches90(data: AdrInfo)
    ensures IsExhausted(data) <==> BarWidth(data) >= 90
    ensures StyleOf(data).text == StyleOf(data).fill
  {
  }

  /** The bar never shrinks as more of the range is used. */
  lemma BarWidthMonotone(a: AdrInfo, b: AdrInfo)
    requires a.percentageUsed <= b.percentageUsed
    ensures BarWidth(a) <= BarWidth(b)
  {
  }
}
