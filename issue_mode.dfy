/** The issuance modes (normal issue and the contingency procedures) with their one-digit codes. */
module IssueMode {
  import opened Errors
  import opened Decimal

  datatype IssueMode =
    | NORMAL | FS_IA | SCAN | DPEC | FS_DA | SVC_AN | SVC_RS
  {
    /** `getCode`: the code this entry carries in the table. */
    function Code(): (c: int)
      ensures 1 <= c <= 7
    {
      match this
      case NORMAL => 1
      case FS_IA => 2
      case SCAN => 3
      case DPEC => 4
      case FS_DA => 5
      case SVC_AN => 6
      case SVC_RS => 7
    }

    /** `getCodeAsString`: `String.valueOf(code)`, which for these codes is always one digit. */
    function CodeAsString(): (r: string)
      ensures |r| == 1 && AllDigits(r)
    {
      ToDecimalIsDigits(Code(), 1);
      ToDecimal(Code())
    }
  }

  /** `values()`: the 7 entries in declaration order. */
  const Values: seq<IssueMode> := [NORMAL, FS_IA, SCAN, DPEC, FS_DA, SVC_AN, SVC_RS]

  /** The loop of `fromCode(int)`: the first entry of `table` carrying `code`, if any. */
  function Find(table: seq<IssueMode>, code: int): (r: Option<IssueMode>)
    ensures r.Some? ==> r.value in table && r.value.Code() == code
    ensures r.None? ==> forall x :: x in table ==> x.Code() != code
  {
    if table == [] then None
    else if table[0].Code() == code then Some(table[0])
    else Find(table[1..], code)
  }

  /** `fromCode(int)`: the entry carrying `code`, or the "invalid code" failure. */
  function FromCode(code: Int32): (r: Result<IssueMode>)
    ensures r.Ok? ==> r.value.Code() == code
    ensures r.Err? ==> r.error == UnknownCode(IssueModeField, code)
  {
    match Find(Values, code)
    case Some(x) => Ok(x)
    case None => Err(UnknownCode(IssueModeField, code))
  }

  /** `fromCode(String)`: text that `Integer.parseInt` refuses is a distinct failure
      from a number that is not in the table. */
  function FromText(text: string): (r: Result<IssueMode>)
    ensures ParseInt(text).None? ==> r == Err(NotNumeric(IssueModeField, text))
    ensures r.Ok? ==> ParseInt(text) == Some(r.value.Code())
    ensures ParseInt(text).Some? && r.Err? ==> r.error == UnknownCode(IssueModeField, ParseInt(text).value)
  {
    match ParseInt(text)
    case None => Err(NotNumeric(IssueModeField, text))
    case Some(code) => FromCode(code)
  }

  /** The table has 7 entries and lists every value of the enumeration. */
  lemma {:induction false} ValuesComplete()
    ensures |Values| == 7
    ensures forall x: IssueMode :: x in Values
  {
    forall x: IssueMode
      ensures x in Values
    {
      match x
      case NORMAL => assert Values[0] == NORMAL;
      case FS_IA => assert Values[1] == FS_IA;
      case SCAN => assert Values[2] == SCAN;
      case DPEC => assert Values[3] == DPEC;
      case FS_DA => assert Values[4] == FS_DA;
      case SVC_AN => assert Values[5] == SVC_AN;
      case SVC_RS => assert Values[6] == SVC_RS;
    }
  }

  /** `fromCode(int)` refuses a code only when no entry of the enumeration carries it. */
  lemma {:induction false} FromCodeRefusesOnlyUnused(code: Int32)
    requires FromCode(code).Err?
    ensures forall x: IssueMode :: x.Code() != code
  {
    ValuesComplete();
  }

  /** Codes are pairwise distinct. */
  lemma {:induction false} CodeInjective(a: IssueMode, b: IssueMode)
    requires a.Code() == b.Code()
    ensures a == b
  {
  }

  /** Lookup inverts `getCode`. */
  lemma {:induction false} FromCodeInverts(x: IssueMode)
    ensures FromCode(x.Code()) == Ok(x)
  {
    ValuesComplete();
    var r := FromCode(x.Code());
    assert x in Values;
    assert r.Ok?;
    CodeInjective(r.value, x);
  }

  /** Lookup by text inverts `getCodeAsString`. */
  lemma {:induction false} FromTextInverts(x: IssueMode)
    ensures FromText(x.CodeAsString()) == Ok(x)
  {
    ToDecimalIsDigits(x.Code(), 1);
    ParseIntOfDigits(x.Code(), 1);
    FromCodeInverts(x);
  }

  /** Lookup by text finds an entry from any text that `Integer.parseInt` reads as its
      code: padded or signed text as well as the rendering. */
  lemma {:induction false} FromTextFindsParsed(text: string, x: IssueMode)
    requires ParseInt(text) == Some(x.Code())
    ensures FromText(text) == Ok(x)
  {
    FromCodeInverts(x);
  }

  /** A 1-character `[A-Z0-9]` segment that the lookup accepts is the rendering
      of the entry found: the text form is canonical. */
  lemma {:induction false} FromTextCanonical(text: string)
    requires |text| == 1 && AllUpperAlnum(text)
    requires FromText(text).Ok?
    ensures FromText(text).value.CodeAsString() == text
  {
    ParseIntOnUpperAlnum(text);
    DigitsOfValue(text);
    ToDecimalIsDigits(FromText(text).value.Code(), 1);
  }

  /** Lookups by number that the unit tests check. */
  lemma {:induction false} CodeExamples()
    ensures FromCode(1) == Ok(NORMAL) && FromCode(7) == Ok(SVC_RS)
    ensures FromCode(99) == Err(UnknownCode(IssueModeField, 99))
  {
    assert NORMAL.Code() == 1 && SVC_RS.Code() == 7;
    FromCodeInverts(NORMAL);
    FromCodeInverts(SVC_RS);
  }

  /** Renderings that the unit tests check. */
  lemma {:induction false} RenderingExamples()
    ensures NORMAL.CodeAsString() == "1" && SVC_RS.CodeAsString() == "7" && FS_IA.CodeAsString() == "2"
  {
  }

  /** Lookups by text that the unit tests check. */
  lemma {:induction false} TextExamples()
    ensures FromText("2") == Ok(FS_IA)
  {
    RenderingExamples();
    FromTextInverts(FS_IA);
  }

  /** Text other than the rendering that `Integer.parseInt` reads as a code. */
  lemma {:induction false} ParsedTextExamples()
    ensures FromText("02") == Ok(FS_IA) && FromText("+2") == Ok(FS_IA)
  {
    assert FS_IA.Code() == 2;
    assert ParseInt("02") == Some(2);
    assert ParseInt("+2") == Some(2);
    FromTextFindsParsed("02", FS_IA);
    FromTextFindsParsed("+2", FS_IA);
  }

  /** The refusal of non-numeric text, and of a number outside the table. */
  lemma {:induction false} TextRefusalExamples()
    ensures FromText("ABC") == Err(NotNumeric(IssueModeField, "ABC"))
    ensures FromText("99") == Err(UnknownCode(IssueModeField, 99))
  {
  }
}
