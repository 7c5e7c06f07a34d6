/** The keys of the unit tests, worked through the model. */
module AccessKeyExamples {
  import opened Errors
  import opened Decimal
  import opened AccessKeyGenerator
  import State
  import Period
  import Model
  import Series
  import Number
  import IssueMode
  import Code
  import opened AccessKey

  /** The key with an alphanumeric CNPJ: SP, October 2024, NF-e, series 1, number 123,
      normal issue, numeric code 99999999. */
  const Alphanumeric: AccessKey := AccessKey(State.SP, Period.YearMonth(2024, 10),
    "KSP416L8000109", Model.NFE, 1, 123, IssueMode.NORMAL, 99_999_999)

  /** The key with a numeric CNPJ: SP, December 2010, NF-e, series 1, number 1234, normal
      issue, numeric code 0. */
  const Numeric: AccessKey := AccessKey(State.SP, Period.YearMonth(2010, 12),
    "12345678000195", Model.NFE, 1, 1234, IssueMode.NORMAL, 0)

  lemma {:induction false} SharedRenderings()
    ensures State.State.SP.CodeAsString() == "35" && Model.Model.NFE.CodeAsString() == "55"
    ensures (1 as Series.Series).CodeAsString() == "001" && IssueMode.IssueMode.NORMAL.CodeAsString() == "1"
  {
  }

  lemma {:induction false} AlphanumericRenderings()
    ensures Period.Format(Period.YearMonth(2024, 10)) == "2410"
    ensures (123 as Number.Number).CodeAsString() == "000000123"
    ensures (99_999_999 as Code.Code).CodeAsString() == "99999999"
  {
    Period.FormatExamples();
  }

  lemma {:induction false} NumericRenderings()
    ensures Period.Format(Period.YearMonth(2010, 12)) == "1012"
    ensures (1234 as Number.Number).CodeAsString() == "000001234"
    ensures (0 as Code.Code).CodeAsString() == "00000000"
  {
    Period.FormatExamples();
  }

  lemma {:induction false} SharedSums()
    ensures OffsetSum("35", 41) == 27 && OffsetSum("55", 21) == 75
    ensures OffsetSum("001", 18) == 4 && OffsetSum("1", 8) == 2
  {
  }

  lemma {:induction false} ZeroSums()
    ensures OffsetSum("0000", 4) == 0 && OffsetSum("0000", 0) == 0 && OffsetSum("00000", 13) == 0
  {
  }

  lemma {:induction false} NineSums()
    ensures OffsetSum("9999", 4) == 270 && OffsetSum("9999", 0) == 126
  {
  }

  lemma {:induction false} AlphanumericSums()
    ensures OffsetSum("2410", 37) == 48 && OffsetSum("99999999", 0) == 396
  {
    assert "99999999" == "9999" + "9999";
    OffsetSumConcat("9999", "9999", 0);
    NineSums();
  }

  lemma {:induction false} AlphanumericNumberSum()
    ensures OffsetSum("000000123", 9) == 22
  {
    assert "000000123" == "00000" + "0123";
    OffsetSumConcat("00000", "0123", 9);
    ZeroSums();
    assert OffsetSum("0123", 9) == 22;
  }

  lemma {:induction false} AlphanumericCnpjChunks()
    ensures OffsetSum("KSP4", 33) == 477 && OffsetSum("16L", 30) == 280
    ensures OffsetSum("8000", 26) == 56 && OffsetSum("109", 23) == 84
  {
  }

  lemma {:induction false} AlphanumericCnpjSum()
    ensures OffsetSum("KSP416L8000109", 23) == 897
  {
    assert "KSP416L8000109" == "KSP4" + "16L" + "8000" + "109";
    OffsetSumConcat("KSP4" + "16L" + "8000", "109", 23);
    OffsetSumConcat("KSP4" + "16L", "8000", 26);
    OffsetSumConcat("KSP4", "16L", 30);
    AlphanumericCnpjChunks();
  }

  lemma {:induction false} NumericSums()
    ensures OffsetSum("1012", 37) == 24 && OffsetSum("00000000", 0) == 0
  {
    assert "00000000" == "0000" + "0000";
    OffsetSumConcat("0000", "0000", 0);
    ZeroSums();
  }

  lemma {:induction false} NumericNumberSum()
    ensures OffsetSum("000001234", 9) == 40
  {
    assert "000001234" == "00000" + "1234";
    OffsetSumConcat("00000", "1234", 9);
    ZeroSums();
    assert OffsetSum("1234", 9) == 40;
  }

  lemma {:induction false} NumericCnpjChunks()
    ensures OffsetSum("1234", 33) == 40 && OffsetSum("567", 30) == 120
    ensures OffsetSum("8000", 26) == 56 && OffsetSum("195", 23) == 66
  {
  }

  lemma {:induction false} NumericCnpjSum()
    ensures OffsetSum("12345678000195", 23) == 282
  {
    assert "12345678000195" == "1234" + "567" + "8000" + "195";
    OffsetSumConcat("1234" + "567" + "8000", "195", 23);
    OffsetSumConcat("1234" + "567", "8000", 26);
    OffsetSumConcat("1234", "567", 30);
    NumericCnpjChunks();
  }

  /** The check digit of a base whose weighted sum is known. */
  lemma {:induction false} DigitOfSum(base: string, sum: int, digit: int)
    requires WeightedSum(base) == sum && sum >= 0
    requires digit == if sum % 11 < 2 then 0 else 11 - sum % 11
    ensures CheckDigit(base) == digit
  {
  }

  /** The alphanumeric key's first four segments, weighted by their place in the base. */
  lemma {:induction false} AlphanumericLeadingSums()
    ensures OffsetSum(Alphanumeric.state.CodeAsString(), 41) == 27
    ensures OffsetSum(Period.Format(Alphanumeric.period), 37) == 48
    ensures OffsetSum(Alphanumeric.cnpj, 23) == 897
    ensures OffsetSum(Alphanumeric.model.CodeAsString(), 21) == 75
  {
    SharedRenderings();
    AlphanumericRenderings();
    SharedSums();
    AlphanumericSums();
    AlphanumericCnpjSum();
  }

  /** The alphanumeric key's last four segments, weighted by their place in the base. */
  lemma {:induction false} AlphanumericTrailingSums()
    ensures OffsetSum(Alphanumeric.series.CodeAsString(), 18) == 4
    ensures OffsetSum(Alphanumeric.number.CodeAsString(), 9) == 22
    ensures OffsetSum(Alphanumeric.issueMode.CodeAsString(), 8) == 2
    ensures OffsetSum(Alphanumeric.code.CodeAsString(), 0) == 396
  {
    SharedRenderings();
    AlphanumericRenderings();
    SharedSums();
    AlphanumericSums();
    AlphanumericNumberSum();
  }

  /** The alphanumeric key's base sums to 1471 = 133 * 11 + 8, so its check digit is 3. */
  lemma {:induction false} AlphanumericCheckDigit()
    ensures WeightedSum(Base(Alphanumeric)) == 1471
    ensures CheckDigit(Base(Alphanumeric)) == 3
  {
    AlphanumericSum();
    DigitOfSum(Base(Alphanumeric), 1471, 3);
  }

  lemma {:induction false} AlphanumericSum()
    ensures WeightedSum(Base(Alphanumeric)) == 1471
  {
    BaseSum(Alphanumeric);
    AlphanumericLeadingSums();
    AlphanumericTrailingSums();
  }

  /** The numeric key's first four segments, weighted by their place in the base. */
  lemma {:induction false} NumericLeadingSums()
    ensures OffsetSum(Numeric.state.CodeAsString(), 41) == 27
    ensures OffsetSum(Period.Format(Numeric.period), 37) == 24
    ensures OffsetSum(Numeric.cnpj, 23) == 282
    ensures OffsetSum(Numeric.model.CodeAsString(), 21) == 75
  {
    SharedRenderings();
    NumericRenderings();
    SharedSums();
    NumericSums();
    NumericCnpjSum();
  }

  /** The numeric key's last four segments, weighted by their place in the base. */
  lemma {:induction false} NumericTrailingSums()
    ensures OffsetSum(Numeric.series.CodeAsString(), 18) == 4
    ensures OffsetSum(Numeric.number.CodeAsString(), 9) == 40
    ensures OffsetSum(Numeric.issueMode.CodeAsString(), 8) == 2
    ensures OffsetSum(Numeric.code.CodeAsString(), 0) == 0
  {
    SharedRenderings();
    NumericRenderings();
    SharedSums();
    NumericSums();
    NumericNumberSum();
  }

  /** The numeric key's base sums to 454 = 41 * 11 + 3, so its check digit is 8. */
  lemma {:induction false} NumericCheckDigit()
    ensures WeightedSum(Base(Numeric)) == 454
    ensures CheckDigit(Base(Numeric)) == 8
  {
    NumericSum();
    DigitOfSum(Base(Numeric), 454, 8);
  }

  lemma {:induction false} NumericSum()
    ensures WeightedSum(Base(Numeric)) == 454
  {
    BaseSum(Numeric);
    NumericLeadingSums();
    NumericTrailingSums();
  }

  lemma {:induction false} AlphanumericBase()
    ensures Base(Alphanumeric) == "35" + "2410" + "KSP416L8000109" + "55" + "001" + "000000123" + "1" + "99999999"
  {
    SharedRenderings();
    AlphanumericRenderings();
  }

  lemma {:induction false} AlphanumericText()
    ensures "35" + "2410" + "KSP416L8000109" + "55" + "001" + "000000123" + "1" + "99999999" + "3" ==
      "352410KSP416L8000109550010000001231999999993"
  {
  }

  /** `generate` on the alphanumeric key yields the key string of the test suite. */
  lemma {:induction false} AlphanumericGenerated()
    ensures Generate(Alphanumeric) == "352410KSP416L8000109550010000001231999999993"
  {
    AlphanumericBase();
    AlphanumericCheckDigit();
    AlphanumericText();
    assert ToDecimal(3) == "3";
  }

  /** `from` reads the alphanumeric key of the test suite into its eight fields. */
  lemma {:induction false} AlphanumericKeyParsed(accepts: string -> bool)
    requires accepts("KSP416L8000109")
    ensures From(Some("352410KSP416L8000109550010000001231999999993"), accepts) == Ok(Alphanumeric)
  {
    AlphanumericGenerated();
    RoundTrip(Alphanumeric, accepts);
  }

  lemma {:induction false} NumericBase()
    ensures Base(Numeric) == "35" + "1012" + "12345678000195" + "55" + "001" + "000001234" + "1" + "00000000"
  {
    SharedRenderings();
    NumericRenderings();
  }

  lemma {:induction false} NumericText()
    ensures "35" + "1012" + "12345678000195" + "55" + "001" + "000001234" + "1" + "00000000" ==
      "3510121234567800019555001000001234100000000"
  {
  }

  /** `generate` on the numeric key ends in 8. */
  lemma {:induction false} NumericGenerated()
    ensures Generate(Numeric) == "3510121234567800019555001000001234100000000" + "8"
  {
    NumericBase();
    NumericCheckDigit();
    NumericText();
    assert ToDecimal(8) == "8";
  }

  /** With its check digit corrected to 8, the numeric key of the test suite is read into
      its eight fields. */
  lemma {:induction false} NumericKeyParsed(accepts: string -> bool)
    requires accepts("12345678000195")
    ensures From(Some("35101212345678000195550010000012341000000008"), accepts) == Ok(Numeric)
  {
    NumericCorrected();
    RoundTrip(Numeric, accepts);
  }

  lemma {:induction false} NumericCorrected()
    ensures Generate(Numeric) == "35101212345678000195550010000012341000000008"
  {
    NumericGenerated();
    NumericCorrectedText();
  }

  lemma {:induction false} NumericCorrectedText()
    ensures "3510121234567800019555001000001234100000000" + "8" == "35101212345678000195550010000012341000000008"
  {
  }

  /** Ending the numeric key's base in anything but 8 is refused, with 8 as the digit
      expected. */
  lemma {:induction false} NumericTampered(c: char, accepts: string -> bool)
    requires accepts("12345678000195")
    requires IsUpperAlnum(c) && c != '8'
    ensures From(Some("3510121234567800019555001000001234100000000" + [c]), accepts) ==
      Err(Mismatch(8, CharDigit(c)))
  {
    var base := "3510121234567800019555001000001234100000000";
    var g := Generate(Numeric);
    NumericGenerated();
    NumericCheckDigit();
    RoundTrip(Numeric, accepts);
    assert g[..BaseLength] == base && g[BaseLength] == '8';
    TamperedCheckDigitRejected(g, c, accepts);
  }

  /** The numeric key of the test suite carries 1 where 8 is expected, and its variant
      ending in 9 fails the same way: both are refused with the two digits. */
  lemma {:induction false} NumericKeyRefused(accepts: string -> bool)
    requires accepts("12345678000195")
    ensures From(Some("35101212345678000195550010000012341000000001"), accepts) == Err(Mismatch(8, 1))
    ensures From(Some("35101212345678000195550010000012341000000009"), accepts) == Err(Mismatch(8, 9))
  {
    NumericTampered('1', accepts);
    NumericTampered('9', accepts);
    assert "3510121234567800019555001000001234100000000" + ['1'] == "35101212345678000195550010000012341000000001";
    assert "3510121234567800019555001000001234100000000" + ['9'] == "35101212345678000195550010000012341000000009";
  }

  /** The format gate refuses a missing key, a short one and one with other characters. */
  lemma {:induction false} FormatRefusals(accepts: string -> bool)
    ensures From(None, accepts) == Err(Format)
    ensures From(Some("123"), accepts) == Err(Format)
    ensures From(Some("ABCDEFGHIJKLMNOPQRSTUVWX1234567890@#"), accepts) == Err(Format)
  {
  }

  /** A well-formed key whose state segment is no state's code is refused with that code,
      whatever follows it. */
  lemma {:induction false} UnknownStateRefused(s: string, accepts: string -> bool)
    requires WellFormed(s) && s[0..2] == "99"
    ensures From(Some(s), accepts) == Err(UnknownCode(StateField, 99))
  {
    assert s[..BaseLength][0..2] == "99";
    assert ParseInt("99") == Some(99);
    ParseFieldsFirstFailure(s[..BaseLength], accepts);
    FromReportsFieldFailure(s, accepts);
  }

  /** The alphanumeric test key with its state replaced by 99. */
  lemma {:induction false} UnknownStateExample(accepts: string -> bool)
    ensures From(Some("99" + Generate(Alphanumeric)[2..]), accepts) == Err(UnknownCode(StateField, 99))
  {
    var g := Generate(Alphanumeric);
    var s := "99" + g[2..];
    forall i | 0 <= i < |s|
      ensures IsUpperAlnum(s[i])
    {
      if i >= 2 {
        assert s[i] == g[i];
      }
    }
    assert s[0..2] == "99";
    UnknownStateRefused(s, accepts);
  }

  /** A key with a known state and the month 13 is refused as a bad period, before its
      CNPJ is looked at. */
  lemma {:induction false} BadMonthRefused(s: string, accepts: string -> bool)
    requires WellFormed(s) && State.FromText(s[0..2]).Ok? && s[4..6] == "13"
    ensures From(Some(s), accepts) == Err(BadPeriod(s[2..6]))
  {
    var base := s[..BaseLength];
    var period := s[2..6];
    assert base[0..2] == s[0..2] && base[2..6] == period;
    assert period[2..] == "13" && Value("13") == 13;
    assert Period.Parse(period) == Err(BadPeriod(period));
    ParseFieldsFirstFailure(s[..BaseLength], accepts);
    FromReportsFieldFailure(s, accepts);
  }

  /** Once the first four reads succeed, a series segment with a letter escapes as the
      unwrapped parse failure of that segment. */
  lemma {:induction false} SeriesNotNumericRefused(s: string, accepts: string -> bool)
    requires WellFormed(s) && LeadingReadsOk(s[..BaseLength], accepts, 4) && !AllDigits(s[22..25])
    ensures From(Some(s), accepts) == Err(NumberFormat(SeriesField, s[22..25]))
  {
    var base := s[..BaseLength];
    assert base[22..25] == s[22..25];
    ParseIntOnUpperAlnum(s[22..25]);
    ParseFieldsFirstFailure(s[..BaseLength], accepts);
    FromReportsFieldFailure(s, accepts);
  }

  /** Leaving out any one constructor argument is reported as that argument missing. */
  lemma {:induction false} MissingArguments()
    ensures var k := Alphanumeric;
      New(None, Some(k.period), Some(k.cnpj), Some(k.model), Some(k.series), Some(k.number), Some(k.issueMode), Some(k.code)) == Err(Missing(StateField)) &&
      New(Some(k.state), None, Some(k.cnpj), Some(k.model), Some(k.series), Some(k.number), Some(k.issueMode), Some(k.code)) == Err(Missing(PeriodField)) &&
      New(Some(k.state), Some(k.period), None, Some(k.model), Some(k.series), Some(k.number), Some(k.issueMode), Some(k.code)) == Err(Missing(CnpjField)) &&
      New(Some(k.state), Some(k.period), Some(k.cnpj), None, Some(k.series), Some(k.number), Some(k.issueMode), Some(k.code)) == Err(Missing(ModelField)) &&
      New(Some(k.state), Some(k.period), Some(k.cnpj), Some(k.model), None, Some(k.number), Some(k.issueMode), Some(k.code)) == Err(Missing(SeriesField)) &&
      New(Some(k.state), Some(k.period), Some(k.cnpj), Some(k.model), Some(k.series), None, Some(k.issueMode), Some(k.code)) == Err(Missing(NumberField)) &&
      New(Some(k.state), Some(k.period), Some(k.cnpj), Some(k.model), Some(k.series), Some(k.number), None, Some(k.code)) == Err(Missing(IssueModeField)) &&
      New(Some(k.state), Some(k.period), Some(k.cnpj), Some(k.model), Some(k.series), Some(k.number), Some(k.issueMode), None) == Err(Missing(CodeField)) &&
      New(Some(k.state), Some(k.period), Some(k.cnpj), Some(k.model), Some(k.series), Some(k.number), Some(k.issueMode), Some(k.code)) == Ok(k)
  {
  }
}
