/** The 44-character access key of a Brazilian electronic fiscal document: the record of
    its eight fields, its rendering (`generate`) and its parsing (`from`). */
module AccessKey {
  import opened Errors
  import opened Decimal
  import opened AccessKeyGenerator
  import State
  import Period
  import Model
  import Series
  import Number
  import IssueMode
  import Code

  /** Characters of a key, and of the base the check digit is computed over. */
  const KeyLength: nat := 44
  const BaseLength: nat := 43

  /** The issuer's CNPJ as a key carries it: fourteen characters of `[A-Z0-9]`. */
  type Cnpj = v: string | |v| == 14 && AllUpperAlnum(v) witness "00000000000000"

  /** An access key: every field present and already validated by its own type. */
  datatype AccessKey = AccessKey(
    state: State.State,
    period: Period.YearMonth,
    cnpj: Cnpj,
    model: Model.Model,
    series: Series.Series,
    number: Number.Number,
    issueMode: IssueMode.IssueMode,
    code: Code.Code)

  /** The constructor: each argument is required, checked in declaration order, and the
      first one missing is the one reported. */
  function New(state: Option<State.State>, period: Option<Period.YearMonth>, cnpj: Option<Cnpj>,
               model: Option<Model.Model>, series: Option<Series.Series>, number: Option<Number.Number>,
               issueMode: Option<IssueMode.IssueMode>, code: Option<Code.Code>): (r: Result<AccessKey>)
    ensures r.Ok? <==> state.Some? && period.Some? && cnpj.Some? && model.Some? &&
                       series.Some? && number.Some? && issueMode.Some? && code.Some?
    ensures r.Ok? ==> r.value == AccessKey(state.value, period.value, cnpj.value, model.value,
                                           series.value, number.value, issueMode.value, code.value)
    ensures r.Err? ==> r.error.Missing?
    ensures state.None? ==> r == Err(Missing(StateField))
    ensures r.Err? && r.error.field == PeriodField ==> period.None? && state.Some?
    ensures r.Err? && r.error.field == CnpjField ==> cnpj.None? && state.Some? && period.Some?
    ensures r.Err? && r.error.field == ModelField ==>
      model.None? && state.Some? && period.Some? && cnpj.Some?
    ensures r.Err? && r.error.field == SeriesField ==>
      series.None? && state.Some? && period.Some? && cnpj.Some? && model.Some?
    ensures r.Err? && r.error.field == NumberField ==>
      number.None? && state.Some? && period.Some? && cnpj.Some? && model.Some? && series.Some?
    ensures r.Err? && r.error.field == IssueModeField ==>
      issueMode.None? && state.Some? && period.Some? && cnpj.Some? && model.Some? && series.Some? &&
      number.Some?
    ensures r.Err? && r.error.field == CodeField ==>
      code.None? && state.Some? && period.Some? && cnpj.Some? && model.Some? && series.Some? &&
      number.Some? && issueMode.Some?
  {
    if state.None? then Err(Missing(StateField))
    else if period.None? then Err(Missing(PeriodField))
    else if cnpj.None? then Err(Missing(CnpjField))
    else if model.None? then Err(Missing(ModelField))
    else if series.None? then Err(Missing(SeriesField))
    else if number.None? then Err(Missing(NumberField))
    else if issueMode.None? then Err(Missing(IssueModeField))
    else if code.None? then Err(Missing(CodeField))
    else Ok(AccessKey(state.value, period.value, cnpj.value, model.value,
                      series.value, number.value, issueMode.value, code.value))
  }

  /** The 43-character base: the eight fields rendered and concatenated in key order. */
  function Base(k: AccessKey): (r: string)
    ensures |r| == BaseLength && AllUpperAlnum(r)
  {
    k.state.CodeAsString() + Period.Format(k.period) + k.cnpj + k.model.CodeAsString() +
    k.series.CodeAsString() + k.number.CodeAsString() + k.issueMode.CodeAsString() +
    k.code.CodeAsString()
  }

  /** `generate`: the base followed by its check digit. The result is always a well-formed
      key whose last character is the check digit of the 43 before it. */
  function Generate(k: AccessKey): (r: string)
    ensures WellFormed(r)
    ensures r[..BaseLength] == Base(k)
    ensures IsDigit(r[BaseLength]) && CharValue(r[BaseLength]) == CheckDigit(r[..BaseLength])
  {
    var base := Base(k);
    var dv := CheckDigit(base);
    assert ToDecimal(dv) == [DigitChar(dv)];
    assert (base + ToDecimal(dv))[..BaseLength] == base;
    base + ToDecimal(dv)
  }

  /** `generate` as the Java code runs it: the base, then the looping checksum. */
  method GenerateKey(k: AccessKey) returns (s: string)
    ensures s == Generate(k)
  {
    var base := Base(k);
    var dv := CalcModulo11(base);
    s := base + ToDecimal(dv);
  }

  /** The gate of `from`: exactly 44 characters, each an upper-case letter or a digit. */
  predicate WellFormed(s: string) {
    |s| == KeyLength && AllUpperAlnum(s)
  }

  /** `Character.digit(c, 10)` on `[A-Z0-9]`: the value of a decimal digit, -1 for a letter. */
  function CharDigit(c: char): (d: int)
    ensures IsDigit(c) ==> d == CharValue(c)
    ensures !IsDigit(c) ==> d == -1
  {
    if IsDigit(c) then CharValue(c) else -1
  }

  /** `CNPJ.of`: a fourteen-character `[A-Z0-9]` identifier that the CNPJ rules, given as
      `accepts`, admit; anything else is refused. */
  function CnpjOf(text: string, accepts: string -> bool): (r: Result<Cnpj>)
    ensures r.Ok? <==> |text| == 14 && AllUpperAlnum(text) && accepts(text)
    ensures r.Ok? ==> r.value == text
    ensures r.Err? ==> r.error == BadCnpj(text)
  {
    if |text| == 14 && AllUpperAlnum(text) && accepts(text) then Ok(text) else Err(BadCnpj(text))
  }

  /** `Integer.parseInt` on a series, number or code segment; its failure is not wrapped. */
  function ParseIntField(field: Field, text: string): (r: Result<Int32>)
    ensures r.Ok? <==> ParseInt(text).Some?
    ensures r.Ok? ==> r.value == ParseInt(text).value
    ensures r.Err? ==> r.error == NumberFormat(field, text)
  {
    match ParseInt(text)
    case None => Err(NumberFormat(field, text))
    case Some(v) => Ok(v)
  }

  /** `new Series(Integer.parseInt(text))`. */
  function ReadSeries(text: string): (r: Result<Series.Series>)
    ensures r.Ok? <==> ParseInt(text).Some? && 0 <= ParseInt(text).value <= Series.MaxCode
    ensures r.Ok? ==> r.value as int == ParseInt(text).value
    ensures ParseInt(text).None? ==> r == Err(NumberFormat(SeriesField, text))
    ensures ParseInt(text).Some? && ParseInt(text).value < 0 ==>
      r == Err(Negative(SeriesField, ParseInt(text).value))
    ensures ParseInt(text).Some? && ParseInt(text).value > Series.MaxCode ==>
      r == Err(TooLarge(SeriesField, ParseInt(text).value))
  {
    var code :- ParseIntField(SeriesField, text);
    Series.New(code)
  }

  /** `new Number(Integer.parseInt(text))`. */
  function ReadNumber(text: string): (r: Result<Number.Number>)
    ensures r.Ok? <==> ParseInt(text).Some? && 0 <= ParseInt(text).value <= Number.MaxCode
    ensures r.Ok? ==> r.value as int == ParseInt(text).value
    ensures ParseInt(text).None? ==> r == Err(NumberFormat(NumberField, text))
    ensures ParseInt(text).Some? && ParseInt(text).value < 0 ==>
      r == Err(Negative(NumberField, ParseInt(text).value))
    ensures ParseInt(text).Some? && ParseInt(text).value > Number.MaxCode ==>
      r == Err(TooLarge(NumberField, ParseInt(text).value))
  {
    var code :- ParseIntField(NumberField, text);
    Number.New(code)
  }

  /** `new Code(Integer.parseInt(text))`. */
  function ReadCode(text: string): (r: Result<Code.Code>)
    ensures r.Ok? <==> ParseInt(text).Some? && 0 <= ParseInt(text).value <= Code.MaxCode
    ensures r.Ok? ==> r.value as int == ParseInt(text).value
    ensures ParseInt(text).None? ==> r == Err(NumberFormat(CodeField, text))
    ensures ParseInt(text).Some? && ParseInt(text).value < 0 ==>
      r == Err(Negative(CodeField, ParseInt(text).value))
    ensures ParseInt(text).Some? && ParseInt(text).value > Code.MaxCode ==>
      r == Err(TooLarge(CodeField, ParseInt(text).value))
  {
    var code :- ParseIntField(CodeField, text);
    Code.New(code)
  }

  /** The first `n` field reads of `from`, in key order, all succeed on `base`. */
  predicate LeadingReadsOk(base: string, accepts: string -> bool, n: nat)
    requires |base| == BaseLength
  {
    (n >= 1 ==> State.FromText(base[0..2]).Ok?) &&
    (n >= 2 ==> Period.Parse(base[2..6]).Ok?) &&
    (n >= 3 ==> CnpjOf(base[6..20], accepts).Ok?) &&
    (n >= 4 ==> Model.FromText(base[20..22]).Ok?) &&
    (n >= 5 ==> ReadSeries(base[22..25]).Ok?) &&
    (n >= 6 ==> ReadNumber(base[25..34]).Ok?) &&
    (n >= 7 ==> IssueMode.FromText(base[34..35]).Ok?) &&
    (n >= 8 ==> ReadCode(base[35..43]).Ok?)
  }

  /** The field reads of `from`, in its order, over the 43-character base, ending with
      the constructor; the first failure wins. */
  function ParseFields(base: string, accepts: string -> bool): (r: Result<AccessKey>)
    requires |base| == BaseLength
    ensures r.Ok? ==> accepts(r.value.cnpj) && r.value.cnpj == base[6..20]
    ensures r.Err? ==> (r.error.UnknownCode? || r.error.NotNumeric? || r.error.NumberFormat? ||
                        r.error.Negative? || r.error.TooLarge? || r.error.BadPeriod? || r.error.BadCnpj?)
  {
    var state :- State.FromText(base[0..2]);
    var period :- Period.Parse(base[2..6]);
    var cnpj :- CnpjOf(base[6..20], accepts);
    var model :- Model.FromText(base[20..22]);
    var series :- ReadSeries(base[22..25]);
    var number :- ReadNumber(base[25..34]);
    var issueMode :- IssueMode.FromText(base[34..35]);
    var code :- ReadCode(base[35..43]);
    New(Some(state), Some(period), Some(cnpj), Some(model), Some(series), Some(number),
        Some(issueMode), Some(code))
  }

  /** The reads of `from` run in key order and the first that fails decides the failure;
      when all eight succeed, so does the constructor. */
  lemma {:induction false} ParseFieldsFirstFailure(base: string, accepts: string -> bool)
    requires |base| == BaseLength
    ensures State.FromText(base[0..2]).Err? ==>
      ParseFields(base, accepts) == Err(State.FromText(base[0..2]).error)
    ensures State.FromText(base[0..2]).Ok? && Period.Parse(base[2..6]).Err? ==>
      ParseFields(base, accepts) == Err(BadPeriod(base[2..6]))
    ensures LeadingReadsOk(base, accepts, 2) && CnpjOf(base[6..20], accepts).Err? ==>
      ParseFields(base, accepts) == Err(BadCnpj(base[6..20]))
    ensures LeadingReadsOk(base, accepts, 3) && Model.FromText(base[20..22]).Err? ==>
      ParseFields(base, accepts) == Err(Model.FromText(base[20..22]).error)
    ensures LeadingReadsOk(base, accepts, 4) && ReadSeries(base[22..25]).Err? ==>
      ParseFields(base, accepts) == Err(ReadSeries(base[22..25]).error)
    ensures LeadingReadsOk(base, accepts, 5) && ReadNumber(base[25..34]).Err? ==>
      ParseFields(base, accepts) == Err(ReadNumber(base[25..34]).error)
    ensures LeadingReadsOk(base, accepts, 6) && IssueMode.FromText(base[34..35]).Err? ==>
      ParseFields(base, accepts) == Err(IssueMode.FromText(base[34..35]).error)
    ensures LeadingReadsOk(base, accepts, 7) && ReadCode(base[35..43]).Err? ==>
      ParseFields(base, accepts) == Err(ReadCode(base[35..43]).error)
    ensures LeadingReadsOk(base, accepts, 8) ==> ParseFields(base, accepts).Ok?
  {
  }

  /** `from`: the format gate, the field reads, then the check digit found against the one
      obtained by generating the parsed key again. */
  function From(key: Option<string>, accepts: string -> bool): (r: Result<AccessKey>)
    ensures r == Err(Format) <==> key.None? || !WellFormed(key.value)
    ensures r.Ok? ==> WellFormed(key.value) && CharDigit(key.value[BaseLength]) == CheckDigit(Base(r.value))
  {
    if key.None? || !WellFormed(key.value) then Err(Format)
    else
      var s := key.value;
      var parsed :- ParseFields(s[..BaseLength], accepts);
      var dv := CharDigit(s[BaseLength]);
      var calculated := CharValue(Generate(parsed)[BaseLength]);
      if dv != calculated then Err(Mismatch(calculated, dv)) else Ok(parsed)
  }

  /** A well-formed key whose field reads fail is refused with that failure, before any
      digit is compared. */
  lemma {:induction false} FromReportsFieldFailure(s: string, accepts: string -> bool)
    requires WellFormed(s) && ParseFields(s[..BaseLength], accepts).Err?
    ensures From(Some(s), accepts) == Err(ParseFields(s[..BaseLength], accepts).error)
  {
  }

  /** Where each field sits in a base: its segments, in key order. */
  lemma {:induction false} BaseLayout(k: AccessKey)
    ensures var b := Base(k);
      b[0..2] == k.state.CodeAsString() && b[2..6] == Period.Format(k.period) &&
      b[6..20] == k.cnpj && b[20..22] == k.model.CodeAsString() &&
      b[22..25] == k.series.CodeAsString() && b[25..34] == k.number.CodeAsString() &&
      b[34..35] == k.issueMode.CodeAsString() && b[35..43] == k.code.CodeAsString()
  {
    var b := Base(k);
    var p1 := k.state.CodeAsString();
    var p2 := p1 + Period.Format(k.period);
    var p3 := p2 + k.cnpj;
    var p4 := p3 + k.model.CodeAsString();
    var p5 := p4 + k.series.CodeAsString();
    var p6 := p5 + k.number.CodeAsString();
    var p7 := p6 + k.issueMode.CodeAsString();
    assert b == p7 + k.code.CodeAsString();
    assert b[0..2] == p1;
    assert b[2..6] == Period.Format(k.period);
    assert b[6..20] == k.cnpj;
    assert b[20..22] == k.model.CodeAsString();
    assert b[22..25] == k.series.CodeAsString();
    assert b[25..34] == k.number.CodeAsString();
    assert b[34..35] == k.issueMode.CodeAsString();
    assert b[35..43] == k.code.CodeAsString();
  }

  /** Each leading segment of a base reads back as the field rendered into it. */
  lemma {:induction false} LeadingSegmentsOfBase(k: AccessKey)
    ensures var b := Base(k);
      State.FromText(b[0..2]) == Ok(k.state) &&
      Period.Parse(b[2..6]) == Ok(Period.InCentury(k.period)) &&
      b[6..20] == k.cnpj &&
      Model.FromText(b[20..22]) == Ok(k.model)
  {
    BaseLayout(k);
    State.FromTextInverts(k.state);
    Period.FormatThenParse(k.period);
    Model.FromTextInverts(k.model);
  }

  /** Each trailing segment of a base reads back as the field rendered into it. */
  lemma {:induction false} TrailingSegmentsOfBase(k: AccessKey)
    ensures var b := Base(k);
      ReadSeries(b[22..25]) == Ok(k.series) &&
      ReadNumber(b[25..34]) == Ok(k.number) &&
      IssueMode.FromText(b[34..35]) == Ok(k.issueMode) &&
      ReadCode(b[35..43]) == Ok(k.code)
  {
    BaseLayout(k);
    Series.TextRoundTrip(k.series);
    Number.TextRoundTrip(k.number);
    IssueMode.FromTextInverts(k.issueMode);
    Code.TextRoundTrip(k.code);
  }

  /** The field reads of a generated base give back every field, the period read in the
      century from 2000, when the CNPJ rules admit the issuer; otherwise the CNPJ is the
      failure reported. */
  lemma {:induction false} ParseFieldsOfBase(k: AccessKey, accepts: string -> bool)
    ensures ParseFields(Base(k), accepts) ==
      if accepts(k.cnpj) then Ok(k.(period := Period.InCentury(k.period))) else Err(BadCnpj(k.cnpj))
  {
    LeadingSegmentsOfBase(k);
    TrailingSegmentsOfBase(k);
  }

  /** Generating a key and parsing it back yields the key, with its period read in the
      century from 2000, whenever the CNPJ rules admit the issuer. */
  lemma {:induction false} GenerateThenFrom(k: AccessKey, accepts: string -> bool)
    ensures From(Some(Generate(k)), accepts) ==
      if accepts(k.cnpj) then Ok(k.(period := Period.InCentury(k.period))) else Err(BadCnpj(k.cnpj))
  {
    var g := Generate(k);
    ParseFieldsOfBase(k, accepts);
    if accepts(k.cnpj) {
      var k' := k.(period := Period.InCentury(k.period));
      Period.FormatInCentury(k.period);
      assert Base(k') == Base(k);
      assert Generate(k') == g;
    }
  }

  /** The round trip is exact for periods in 2000..2099. */
  lemma {:induction false} RoundTrip(k: AccessKey, accepts: string -> bool)
    requires accepts(k.cnpj)
    requires Period.BaseYear <= k.period.year < Period.BaseYear + 100
    ensures From(Some(Generate(k)), accepts) == Ok(k)
  {
    GenerateThenFrom(k, accepts);
    Period.FormatThenParse(k.period);
  }

  /** A three-character `[A-Z0-9]` segment that reads as a series is that series' rendering. */
  lemma {:induction false} ReadSeriesCanonical(text: string)
    requires |text| == Series.Width && AllUpperAlnum(text) && ReadSeries(text).Ok?
    ensures ReadSeries(text).value.CodeAsString() == text
  {
    ParseIntOnUpperAlnum(text);
    Series.CanonicalText(text);
  }

  /** A nine-character `[A-Z0-9]` segment that reads as a number is that number's rendering. */
  lemma {:induction false} ReadNumberCanonical(text: string)
    requires |text| == Number.Width && AllUpperAlnum(text) && ReadNumber(text).Ok?
    ensures ReadNumber(text).value.CodeAsString() == text
  {
    ParseIntOnUpperAlnum(text);
    Number.CanonicalText(text);
  }

  /** An eight-character `[A-Z0-9]` segment that reads as a code is that code's rendering. */
  lemma {:induction false} ReadCodeCanonical(text: string)
    requires |text| == Code.Width && AllUpperAlnum(text) && ReadCode(text).Ok?
    ensures ReadCode(text).value.CodeAsString() == text
  {
    ParseIntOnUpperAlnum(text);
    Code.CanonicalText(text);
  }

  /** What a successful run of the field reads found in each leading segment. */
  lemma {:induction false} LeadingFieldsFound(base: string, accepts: string -> bool)
    requires |base| == BaseLength && ParseFields(base, accepts).Ok?
    ensures var k := ParseFields(base, accepts).value;
      State.FromText(base[0..2]) == Ok(k.state) &&
      Period.Parse(base[2..6]) == Ok(k.period) &&
      base[6..20] == k.cnpj && accepts(k.cnpj) &&
      Model.FromText(base[20..22]) == Ok(k.model)
  {
    assert State.FromText(base[0..2]).Ok?;
    assert Period.Parse(base[2..6]).Ok?;
    assert CnpjOf(base[6..20], accepts).Ok?;
    assert Model.FromText(base[20..22]).Ok?;
    assert ReadSeries(base[22..25]).Ok?;
    assert ReadNumber(base[25..34]).Ok?;
    assert IssueMode.FromText(base[34..35]).Ok?;
    assert ReadCode(base[35..43]).Ok?;
  }

  /** What a successful run of the field reads found in each trailing segment. */
  lemma {:induction false} TrailingFieldsFound(base: string, accepts: string -> bool)
    requires |base| == BaseLength && ParseFields(base, accepts).Ok?
    ensures var k := ParseFields(base, accepts).value;
      ReadSeries(base[22..25]) == Ok(k.series) &&
      ReadNumber(base[25..34]) == Ok(k.number) &&
      IssueMode.FromText(base[34..35]) == Ok(k.issueMode) &&
      ReadCode(base[35..43]) == Ok(k.code)
  {
    assert State.FromText(base[0..2]).Ok?;
    assert Period.Parse(base[2..6]).Ok?;
    assert CnpjOf(base[6..20], accepts).Ok?;
    assert Model.FromText(base[20..22]).Ok?;
    assert ReadSeries(base[22..25]).Ok?;
    assert ReadNumber(base[25..34]).Ok?;
    assert IssueMode.FromText(base[34..35]).Ok?;
    assert ReadCode(base[35..43]).Ok?;
  }

  /** A string `from` accepts is well formed, its base passes the field reads, and its
      last character is the digit that generating the parsed key ends with. */
  lemma {:induction false} FromAccepted(s: string, accepts: string -> bool)
    requires From(Some(s), accepts).Ok?
    ensures WellFormed(s) && ParseFields(s[..BaseLength], accepts) == From(Some(s), accepts)
    ensures CharDigit(s[BaseLength]) == CharValue(Generate(From(Some(s), accepts).value)[BaseLength])
  {
  }

  /** A `[A-Z0-9]` base that the field reads accept is the base of the key they build:
      every segment is in its one canonical form. */
  lemma {:induction false} ParseFieldsCanonical(base: string, accepts: string -> bool)
    requires |base| == BaseLength && AllUpperAlnum(base)
    requires ParseFields(base, accepts).Ok?
    ensures Base(ParseFields(base, accepts).value) == base
  {
    LeadingFieldsFound(base, accepts);
    TrailingFieldsFound(base, accepts);
    SegmentsCanonical(base, ParseFields(base, accepts).value);
  }

  /** A `[A-Z0-9]` base each of whose segments reads as the matching field of `k` is the
      base of `k`. */
  lemma {:induction false} SegmentsCanonical(base: string, k: AccessKey)
    requires |base| == BaseLength && AllUpperAlnum(base)
    requires State.FromText(base[0..2]) == Ok(k.state) && Period.Parse(base[2..6]) == Ok(k.period)
    requires base[6..20] == k.cnpj && Model.FromText(base[20..22]) == Ok(k.model)
    requires ReadSeries(base[22..25]) == Ok(k.series) && ReadNumber(base[25..34]) == Ok(k.number)
    requires IssueMode.FromText(base[34..35]) == Ok(k.issueMode) && ReadCode(base[35..43]) == Ok(k.code)
    ensures Base(k) == base
  {
    LeadingSegmentsCanonical(base, k);
    TrailingSegmentsCanonical(base, k);
    BaseLayout(k);
    SameSegments(Base(k), base);
  }

  /** The first four segments of such a base are the renderings of the fields read. */
  lemma {:induction false} LeadingSegmentsCanonical(base: string, k: AccessKey)
    requires |base| == BaseLength && AllUpperAlnum(base)
    requires State.FromText(base[0..2]) == Ok(k.state) && Period.Parse(base[2..6]) == Ok(k.period)
    requires Model.FromText(base[20..22]) == Ok(k.model)
    ensures k.state.CodeAsString() == base[0..2] && Period.Format(k.period) == base[2..6]
    ensures k.model.CodeAsString() == base[20..22]
  {
    State.FromTextCanonical(base[0..2]);
    Period.ParseThenFormat(base[2..6]);
    Model.FromTextCanonical(base[20..22]);
  }

  /** The last four segments of such a base are the renderings of the fields read. */
  lemma {:induction false} TrailingSegmentsCanonical(base: string, k: AccessKey)
    requires |base| == BaseLength && AllUpperAlnum(base)
    requires ReadSeries(base[22..25]) == Ok(k.series) && ReadNumber(base[25..34]) == Ok(k.number)
    requires IssueMode.FromText(base[34..35]) == Ok(k.issueMode) && ReadCode(base[35..43]) == Ok(k.code)
    ensures k.series.CodeAsString() == base[22..25] && k.number.CodeAsString() == base[25..34]
    ensures k.issueMode.CodeAsString() == base[34..35] && k.code.CodeAsString() == base[35..43]
  {
    ReadSeriesCanonical(base[22..25]);
    ReadNumberCanonical(base[25..34]);
    IssueMode.FromTextCanonical(base[34..35]);
    ReadCodeCanonical(base[35..43]);
  }

  /** Two bases that agree on every segment are equal. */
  lemma {:induction false} SameSegments(a: string, b: string)
    requires |a| == |b| == BaseLength
    requires a[0..2] == b[0..2] && a[2..6] == b[2..6] && a[6..20] == b[6..20]
    requires a[20..22] == b[20..22] && a[22..25] == b[22..25] && a[25..34] == b[25..34]
    requires a[34..35] == b[34..35] && a[35..43] == b[35..43]
    ensures a == b
  {
    forall i | 0 <= i < BaseLength
      ensures a[i] == b[i]
    {
      if i < 2 { assert a[i] == a[0..2][i]; }
      else if i < 6 { assert a[i] == a[2..6][i - 2]; }
      else if i < 20 { assert a[i] == a[6..20][i - 6]; }
      else if i < 22 { assert a[i] == a[20..22][i - 20]; }
      else if i < 25 { assert a[i] == a[22..25][i - 22]; }
      else if i < 34 { assert a[i] == a[25..34][i - 25]; }
      else if i < 35 { assert a[i] == a[34..35][i - 34]; }
      else { assert a[i] == a[35..43][i - 35]; }
    }
  }

  /** A key's base followed by the character that `Character.digit` reads as its check
      digit is its generation. */
  lemma {:induction false} GenerateEndsWith(k: AccessKey, c: char)
    requires CharDigit(c) == CharValue(Generate(k)[BaseLength])
    ensures Generate(k) == Base(k) + [c]
  {
    var g := Generate(k);
    assert c == g[BaseLength];
    assert g == g[..BaseLength] + [g[BaseLength]];
  }

  /** Every key that `from` accepts is the generation of the key it returns. */
  lemma {:induction false} FromThenGenerate(s: string, accepts: string -> bool)
    requires From(Some(s), accepts).Ok?
    ensures Generate(From(Some(s), accepts).value) == s
  {
    var base := s[..BaseLength];
    var k := From(Some(s), accepts).value;
    FromAccepted(s, accepts);
    ParseFieldsCanonical(base, accepts);
    GenerateEndsWith(k, s[BaseLength]);
    assert s == base + [s[BaseLength]];
  }

  /** The last character of every key that `from` accepts is the check digit of its own
      first 43 characters, although the code compares it with the digit of a regenerated
      key. */
  lemma {:induction false} FromChecksOwnDigit(s: string, accepts: string -> bool)
    requires From(Some(s), accepts).Ok?
    ensures IsDigit(s[BaseLength]) && CharValue(s[BaseLength]) == CheckDigit(s[..BaseLength])
  {
    FromThenGenerate(s, accepts);
  }

  /** `from` on a well-formed string whose base passes the field reads: the comparison of
      the digit found with the digit of the regenerated key decides. */
  lemma {:induction false} FromOfParsed(t: string, k: AccessKey, accepts: string -> bool)
    requires WellFormed(t) && ParseFields(t[..BaseLength], accepts) == Ok(k)
    ensures var found, expected := CharDigit(t[BaseLength]), CharValue(Generate(k)[BaseLength]);
      From(Some(t), accepts) == if found != expected then Err(Mismatch(expected, found)) else Ok(k)
  {
  }

  /** `from` accepts exactly the strings that `generate` produces for keys whose CNPJ the
      rules admit. */
  lemma {:induction false} AcceptedExactlyGenerated(s: string, accepts: string -> bool)
    ensures From(Some(s), accepts).Ok? <==> exists k: AccessKey :: Generate(k) == s && accepts(k.cnpj)
  {
    if From(Some(s), accepts).Ok? {
      FromThenGenerate(s, accepts);
      var k := From(Some(s), accepts).value;
      assert Generate(k) == s && accepts(k.cnpj);
    }
    if exists k: AccessKey :: Generate(k) == s && accepts(k.cnpj) {
      var k: AccessKey :| Generate(k) == s && accepts(k.cnpj);
      GenerateThenFrom(k, accepts);
    }
  }

  /** A well-formed string whose base parses to `k` but whose last character differs from
      that of `k`'s generation is refused with both digits. */
  lemma {:induction false} MismatchOnOtherDigit(t: string, k: AccessKey, accepts: string -> bool)
    requires WellFormed(t) && ParseFields(t[..BaseLength], accepts) == Ok(k)
    requires t[BaseLength] != Generate(k)[BaseLength]
    ensures From(Some(t), accepts) ==
      Err(Mismatch(CharValue(Generate(k)[BaseLength]), CharDigit(t[BaseLength])))
  {
    FromOfParsed(t, k, accepts);
    OtherCharOtherDigit(t[BaseLength], Generate(k)[BaseLength]);
  }

  /** `Character.digit` tells a decimal digit from every other character. */
  lemma {:induction false} OtherCharOtherDigit(c: char, d: char)
    requires IsDigit(d) && c != d
    ensures CharDigit(c) != CharValue(d)
  {
  }

  /** Replacing the last character of an accepted key by any other character of
      `[A-Z0-9]` is caught: the failure reports the check digit of the base and the value
      `Character.digit` gives the new character (-1 for a letter). */
  lemma {:induction false} TamperedCheckDigitRejected(s: string, c: char, accepts: string -> bool)
    requires From(Some(s), accepts).Ok?
    requires IsUpperAlnum(c) && c != s[BaseLength]
    ensures From(Some(s[..BaseLength] + [c]), accepts) ==
      Err(Mismatch(CheckDigit(s[..BaseLength]), CharDigit(c)))
  {
    var k := From(Some(s), accepts).value;
    FromAccepted(s, accepts);
    FromThenGenerate(s, accepts);
    FromChecksOwnDigit(s, accepts);
    var t := s[..BaseLength] + [c];
    assert t[..BaseLength] == s[..BaseLength];
    assert t[BaseLength] == c;
    MismatchOnOtherDigit(t, k, accepts);
  }

  /** The weighted sum of a base, segment by segment: each rendering weighted by its
      distance from the end of the base. */
  lemma {:induction false} BaseSum(k: AccessKey)
    ensures WeightedSum(Base(k)) ==
      OffsetSum(k.state.CodeAsString(), 41) + OffsetSum(Period.Format(k.period), 37) +
      OffsetSum(k.cnpj, 23) + OffsetSum(k.model.CodeAsString(), 21) +
      OffsetSum(k.series.CodeAsString(), 18) + OffsetSum(k.number.CodeAsString(), 9) +
      OffsetSum(k.issueMode.CodeAsString(), 8) + OffsetSum(k.code.CodeAsString(), 0)
  {
    var p4 := k.state.CodeAsString() + Period.Format(k.period) + k.cnpj + k.model.CodeAsString();
    var p5 := p4 + k.series.CodeAsString();
    var p6 := p5 + k.number.CodeAsString();
    var p7 := p6 + k.issueMode.CodeAsString();
    OffsetSumConcat(p7, k.code.CodeAsString(), 0);
    OffsetSumConcat(p6, k.issueMode.CodeAsString(), 8);
    OffsetSumConcat(p5, k.number.CodeAsString(), 9);
    OffsetSumConcat(p4, k.series.CodeAsString(), 18);
    FrontSum(k);
  }

  lemma {:induction false} FrontSum(k: AccessKey)
    ensures OffsetSum(k.state.CodeAsString() + Period.Format(k.period) + k.cnpj + k.model.CodeAsString(), 21) ==
      OffsetSum(k.state.CodeAsString(), 41) + OffsetSum(Period.Format(k.period), 37) +
      OffsetSum(k.cnpj, 23) + OffsetSum(k.model.CodeAsString(), 21)
  {
    var p1 := k.state.CodeAsString();
    var p2 := p1 + Period.Format(k.period);
    var p3 := p2 + k.cnpj;
    OffsetSumConcat(p3, k.model.CodeAsString(), 21);
    OffsetSumConcat(p2, k.cnpj, 23);
    OffsetSumConcat(p1, Period.Format(k.period), 37);
  }
}
