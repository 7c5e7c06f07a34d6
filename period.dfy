/** The issue period of an access key: a year and a month, written and read with the
    `yyMM` pattern. It stands in for `java.time.YearMonth` with
    `DateTimeFormatter.ofPattern("yyMM")`; only what the key layout uses is modelled. */
module Period {
  import opened Errors
  import opened Decimal

  /** The range of years `YearMonth` supports. */
  const MinYear: int := -999_999_999
  const MaxYear: int := 999_999_999
  /** A two-digit `yy` is read as a year of the century starting here. */
  const BaseYear: int := 2000

  type Year = y: int | MinYear <= y <= MaxYear
  type Month = m: int | 1 <= m <= 12 witness 1

  datatype YearMonth = YearMonth(year: Year, month: Month)

  /** The year of the era that the `y` pattern letter prints: years up to 0 belong to
      the era before year 1. */
  function YearOfEra(year: int): (r: int)
    ensures r >= 1
  {
    if year >= 1 then year else 1 - year
  }

  /** `format` with `yyMM`: the last two digits of the year of era, then the month,
      each as two digits. */
  function Format(ym: YearMonth): (r: string)
    ensures |r| == 4 && AllDigits(r)
  {
    Digits(YearOfEra(ym.year) % 100, 2) + Digits(ym.month, 2)
  }

  /** `YearMonth.parse(text, yyMM)`: exactly four digits, the year read as
      2000 + yy and the month 01..12; anything else is a parse failure. */
  function Parse(text: string): (r: Result<YearMonth>)
    ensures r.Err? ==> r.error == BadPeriod(text)
    ensures r.Ok? ==> BaseYear <= r.value.year < BaseYear + 100
  {
    if |text| != 4 || !AllDigits(text) then Err(BadPeriod(text))
    else
      var yy := Value(text[..2]);
      var mm := Value(text[2..]);
      if 1 <= mm <= 12 then Ok(YearMonth(BaseYear + yy, mm)) else Err(BadPeriod(text))
  }

  /** The period that the `yyMM` rendering of `ym` reads back as. */
  function InCentury(ym: YearMonth): (r: YearMonth)
    ensures r.month == ym.month && BaseYear <= r.year < BaseYear + 100
    ensures BaseYear <= ym.year < BaseYear + 100 ==> r == ym
    ensures 1 <= ym.year ==> (r.year - ym.year) % 100 == 0
  {
    YearMonth(BaseYear + YearOfEra(ym.year) % 100, ym.month)
  }

  /** Formatting then parsing keeps the month and the last two digits of the year;
      it is the identity exactly on the years 2000..2099. */
  lemma {:induction false} FormatThenParse(ym: YearMonth)
    ensures Parse(Format(ym)) == Ok(InCentury(ym))
    ensures InCentury(ym) == ym <==> BaseYear <= ym.year < BaseYear + 100
  {
    var text := Format(ym);
    var yy := YearOfEra(ym.year) % 100;
    assert text[..2] == Digits(yy, 2);
    assert text[2..] == Digits(ym.month, 2);
    ValueOfDigits(yy, 2);
    ValueOfDigits(ym.month, 2);
  }

  /** A period and its reading in the century from 2000 have the same rendering. */
  lemma {:induction false} FormatInCentury(ym: YearMonth)
    ensures Format(InCentury(ym)) == Format(ym)
  {
    var yy := YearOfEra(ym.year) % 100;
    assert YearOfEra(BaseYear + yy) == BaseYear + yy;
    assert (BaseYear + yy) % 100 == yy;
  }

  /** Every text that parses is the rendering of the period it parses to. */
  lemma {:induction false} ParseThenFormat(text: string)
    requires Parse(text).Ok?
    ensures Format(Parse(text).value) == text
  {
    var yy, mm := text[..2], text[2..];
    assert Parse(text).value == YearMonth(BaseYear + Value(yy), Value(mm));
    FormatOfDigits(yy, mm);
    assert text == yy + mm;
  }

  /** Two digit pairs with a valid month render back to themselves. */
  lemma {:induction false} FormatOfDigits(yy: string, mm: string)
    requires |yy| == 2 && AllDigits(yy) && |mm| == 2 && AllDigits(mm)
    requires 1 <= Value(mm) <= 12
    ensures Format(YearMonth(BaseYear + Value(yy), Value(mm))) == yy + mm
  {
    DigitsOfValue(yy);
    DigitsOfValue(mm);
    assert Pow10(2) == 100;
    assert YearOfEra(BaseYear + Value(yy)) % 100 == Value(yy);
  }

  /** Renderings of the periods the unit tests use, and of a year outside 2000..2099. */
  lemma {:induction false} FormatExamples()
    ensures Format(YearMonth(2024, 10)) == "2410"
    ensures Format(YearMonth(2010, 12)) == "1012"
    ensures Format(YearMonth(1999, 5)) == "9905"
  {
    FormatDigits(24, 10);
    FormatDigits(10, 12);
    FormatDigits(99, 5);
    assert Digits(24, 2) == "24" && Digits(10, 2) == "10";
    assert Digits(12, 2) == "12" && Digits(99, 2) == "99" && Digits(5, 2) == "05";
  }

  /** A year of this century or the previous one renders as its two last digits, then the month. */
  lemma {:induction false} FormatDigits(yy: int, month: Month)
    requires 0 <= yy < 100
    ensures Format(YearMonth(BaseYear + yy, month)) == Digits(yy, 2) + Digits(month, 2)
    ensures Format(YearMonth(BaseYear - 100 + yy, month)) == Digits(yy, 2) + Digits(month, 2)
  {
  }

  /** Parsing those renderings back. */
  lemma {:induction false} ParseExamples()
    ensures Parse("1012") == Ok(YearMonth(2010, 12))
    ensures Parse("9905") == Ok(YearMonth(2099, 5))
  {
    assert Value("10") == 10 && Value("12") == 12;
    assert Value("99") == 99 && Value("05") == 5;
  }

  /** The two month bounds: 13 and 00 are refused. */
  lemma {:induction false} ParseRefusalExamples()
    ensures Parse("2413") == Err(BadPeriod("2413"))
    ensures Parse("2400") == Err(BadPeriod("2400"))
  {
    assert Value("13") == 13 && Value("00") == 0;
  }
}
