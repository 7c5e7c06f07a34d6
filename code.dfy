/** The numeric code of an access key: an integer from 0 to 99,999,999 rendered with eight digits. */
module Code {
  import opened Errors
  import opened Decimal

  /** Largest numeric code: eight digits. */
  const MaxCode: int := 99_999_999
  /** Characters of the rendering in the access key. */
  const Width: nat := 8

  /** A validated numeric code; equality is equality of the code, as `equals` compares only the code. */
  newtype Code = code: int | 0 <= code <= MaxCode {

    /** `getCodeAsString`: `String.format("%08d", code)`. */
    function CodeAsString(): (r: string)
      ensures |r| == Width && AllDigits(r)
    {
      Digits(this as int, Width)
    }
  }

  /** The constructor with its `validate`: the negative check first, then the upper bound. */
  function New(code: Int32): (r: Result<Code>)
    ensures r.Ok? <==> 0 <= code < Pow10(Width)
    ensures r.Ok? ==> r.value as int == code
    ensures code < 0 ==> r == Err(Negative(CodeField, code))
    ensures code >= Pow10(Width) ==> r == Err(TooLarge(CodeField, code))
  {
    if code < 0 then Err(Negative(CodeField, code))
    else if code > MaxCode then Err(TooLarge(CodeField, code))
    else Ok(code as Code)
  }

  /** Parsing the rendering gives back the code, and the constructor accepts it again. */
  lemma {:induction false} TextRoundTrip(x: Code)
    ensures ParseInt(x.CodeAsString()) == Some(x as int)
    ensures New(x as int) == Ok(x)
  {
    ParseIntOfDigits(x as int, Width);
  }

  /** Every 8-digit text denotes a valid numeric code whose rendering is that same text. */
  lemma {:induction false} CanonicalText(text: string)
    requires |text| == Width && AllDigits(text)
    ensures 0 <= Value(text) <= MaxCode
    ensures (Value(text) as Code).CodeAsString() == text
  {
    DigitsOfValue(text);
  }

  /** The boundary values the unit tests check. */
  lemma {:induction false} Examples()
    ensures New(0).Ok? && New(99_999_999).Ok?
    ensures New(-1) == Err(Negative(CodeField, -1))
    ensures New(100_000_000) == Err(TooLarge(CodeField, 100_000_000))
  {
  }

  /** The renderings the unit tests check. */
  lemma {:induction false} RenderingExamples()
    ensures (123 as Code).CodeAsString() == "00000123"
  {
  }
}
