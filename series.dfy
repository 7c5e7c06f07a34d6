/** The series of a fiscal document: an integer from 0 to 999 rendered with three digits. */
module Series {
  import opened Errors
  import opened Decimal

  /** Largest series: three digits. */
  const MaxCode: int := 999
  /** Characters of the rendering in the access key. */
  const Width: nat := 3

  /** A validated series; equality is equality of the code, as `equals` compares only the code. */
  newtype Series = code: int | 0 <= code <= MaxCode {

    /** `getCodeAsString`: `String.format("%03d", code)`. */
    function CodeAsString(): (r: string)
      ensures |r| == Width && AllDigits(r)
    {
      Digits(this as int, Width)
    }
  }

  /** The constructor with its `validate`: the negative check first, then the upper bound. */
  function New(code: Int32): (r: Result<Series>)
    ensures r.Ok? <==> 0 <= code < Pow10(Width)
    ensures r.Ok? ==> r.value as int == code
    ensures code < 0 ==> r == Err(Negative(SeriesField, code))
    ensures code >= Pow10(Width) ==> r == Err(TooLarge(SeriesField, code))
  {
    if code < 0 then Err(Negative(SeriesField, code))
    else if code > MaxCode then Err(TooLarge(SeriesField, code))
    else Ok(code as Series)
  }

  /** Parsing the rendering gives back the code, and the constructor accepts it again. */
  lemma {:induction false} TextRoundTrip(x: Series)
    ensures ParseInt(x.CodeAsString()) == Some(x as int)
    ensures New(x as int) == Ok(x)
  {
    ParseIntOfDigits(x as int, Width);
  }

  /** Every 3-digit text denotes a valid series whose rendering is that same text. */
  lemma {:induction false} CanonicalText(text: string)
    requires |text| == Width && AllDigits(text)
    ensures 0 <= Value(text) <= MaxCode
    ensures (Value(text) as Series).CodeAsString() == text
  {
    DigitsOfValue(text);
  }

  /** The boundary values the unit tests check. */
  lemma {:induction false} Examples()
    ensures New(0).Ok? && New(999).Ok?
    ensures New(-1) == Err(Negative(SeriesField, -1))
    ensures New(1000) == Err(TooLarge(SeriesField, 1000))
  {
  }

  /** The renderings the unit tests check. */
  lemma {:induction false} RenderingExamples()
    ensures (5 as Series).CodeAsString() == "005"
    ensures (123 as Series).CodeAsString() == "123"
  {
  }
}
