/** The number of a fiscal document: an integer from 0 to 999,999,999 rendered with nine digits. */
module Number {
  import opened Errors
  import opened Decimal

  /** Largest document number: nine digits. */
  const MaxCode: int := 999_999_999
  /** Characters of the rendering in the access key. */
  const Width: nat := 9

  /** A validated document number; equality is equality of the code, as `equals` compares only the code. */
  newtype Number = code: int | 0 <= code <= MaxCode {

    /** `getCodeAsString`: `String.format("%09d", code)`. */
    function CodeAsString(): (r: string)
      ensures |r| == Width && AllDigits(r)
    {
      Digits(this as int, Width)
    }
  }

  /** The constructor with its `validate`: the negative check first, then the upper bound. */
  function New(code: Int32): (r: Result<Number>)
    ensures r.Ok? <==> 0 <= code < Pow10(Width)
    ensures r.Ok? ==> r.value as int == code
    ensures code < 0 ==> r == Err(Negative(NumberField, code))
    ensures code >= Pow10(Width) ==> r == Err(TooLarge(NumberField, code))
  {
    if code < 0 then Err(Negative(NumberField, code))
    else if code > MaxCode then Err(TooLarge(NumberField, code))
    else Ok(code as Number)
  }

  /** Parsing the rendering gives back the code, and the constructor accepts it again. */
  lemma {:induction false} TextRoundTrip(x: Number)
    ensures ParseInt(x.CodeAsString()) == Some(x as int)
    ensures New(x as int) == Ok(x)
  {
    ParseIntOfDigits(x as int, Width);
  }

  /** Every 9-digit text denotes a valid document number whose rendering is that same text. */
  lemma {:induction false} CanonicalText(text: string)
    requires |text| == Width && AllDigits(text)
    ensures 0 <= Value(text) <= MaxCode
    ensures (Value(text) as Number).CodeAsString() == text
  {
    DigitsOfValue(text);
  }

  /** The boundary values the unit tests check. */
  lemma {:induction false} Examples()
    ensures New(0).Ok? && New(999_999_999).Ok?
    ensures New(-1) == Err(Negative(NumberField, -1))
    ensures New(1_000_000_000) == Err(TooLarge(NumberField, 1_000_000_000))
  {
  }

  /** The padded rendering the unit tests check. */
  lemma {:induction false} RenderingExamples()
    ensures (123 as Number).CodeAsString() == "000000123"
  {
    assert Digits(0, 6) == "000000";
    assert Digits(123, 9) == Digits(12, 8) + "3";
    assert Digits(12, 8) == Digits(1, 7) + "2";
    assert Digits(1, 7) == Digits(0, 6) + "1";
  }

  /** A number with all nine digits significant renders as `String.valueOf` would, without
      padding (the unit tests check this on 123456789). */
  lemma {:induction false} FullWidthRendering(x: Number)
    requires Pow10(Width - 1) <= x as int
    ensures x.CodeAsString() == ToDecimal(x as int)
  {
    ToDecimalIsDigits(x as int, Width);
  }
}
