/** The federative units (UF) with their two-digit IBGE codes, the first segment of an access key. */
module State {
  import opened Errors
  import opened Decimal

  datatype State =
    | AC | AL | AP | AM | BA | CE | DF | ES | GO | MA | MT | MS | MG | PA | PB | PR | PE
    | PI | RJ | RN | RS | RO | RR | SC | SP | SE | TO
  {
    /** `getCode`: the code this entry carries in the table. */
    function Code(): (c: int)
      ensures 11 <= c <= 53
    {
      match this
      case AC => 12
      case AL => 27
      case AP => 16
      case AM => 13
      case BA => 29
      case CE => 23
      case DF => 53
      case ES => 32
      case GO => 52
      case MA => 21
      case MT => 51
      case MS => 50
      case MG => 31
      case PA => 15
      case PB => 25
      case PR => 41
      case PE => 26
      case PI => 22
      case RJ => 33
      case RN => 24
      case RS => 43
      case RO => 11
      case RR => 14
      case SC => 42
      case SP => 35
      case SE => 28
      case TO => 17
    }

    /** `getCodeAsString`: `String.valueOf(code)`, which for these codes is always two digits. */
    function CodeAsString(): (r: string)
      ensures |r| == 2 && AllDigits(r)
    {
      ToDecimalIsDigits(Code(), 2);
      ToDecimal(Code())
    }
  }

  /** `values()`: the 27 entries in declaration order. */
  const Values: seq<State> := [AC, AL, AP, AM, BA, CE, DF, ES, GO, MA, MT, MS, MG, PA, PB, PR, PE, PI, RJ, RN, RS, RO, RR, SC, SP, SE, TO]

  /** The loop of `fromCode(int)`: the first entry of `table` carrying `code`, if any. */
  function Find(table: seq<State>, code: int): (r: Option<State>)
    ensures r.Some? ==> r.value in table && r.value.Code() == code
    ensures r.None? ==> forall x :: x in table ==> x.Code() != code
  {
    if table == [] then None
    else if table[0].Code() == code then Some(table[0])
    else Find(table[1..], code)
  }

  /** `fromCode(int)`: the entry carrying `code`, or the "invalid code" failure. */
  function FromCode(code: Int32): (r: Result<State>)
    ensures r.Ok? ==> r.value.Code() == code
    ensures r.Err? ==> r.error == UnknownCode(StateField, code)
  {
    match Find(Values, code)
    case Some(x) => Ok(x)
    case None => Err(UnknownCode(StateField, code))
  }

  /** `fromCode(String)`: text that `Integer.parseInt` refuses is a distinct failure
      from a number that is not in the table. */
  function FromText(text: string): (r: Result<State>)
    ensures ParseInt(text).None? ==> r == Err(NotNumeric(StateField, text))
    ensures r.Ok? ==> ParseInt(text) == Some(r.value.Code())
    ensures ParseInt(text).Some? && r.Err? ==> r.error == UnknownCode(StateField, ParseInt(text).value)
  {
    match ParseInt(text)
    case None => Err(NotNumeric(StateField, text))
    case Some(code) => FromCode(code)
  }

  /** The table has 27 entries and lists every value of the enumeration. */
  lemma {:induction false} ValuesComplete()
    ensures |Values| == 27
    ensures forall x: State :: x in Values
  {
    forall x: State
      ensures x in Values
    {
      match x
      case AC => {}
      case AL => {}
      case AP => {}
      case AM => {}
      case BA => {}
      case CE => {}
      case DF => {}
      case ES => {}
      case GO => {}
      case MA => {}
      case MT => {}
      case MS => {}
      case MG => {}
      case PA => {}
      case PB => {}
      case PR => {}
      case PE => {}
      case PI => {}
      case RJ => {}
      case RN => {}
      case RS => {}
      case RO => {}
      case RR => {}
      case SC => {}
      case SP => {}
      case SE => {}
      case TO => {}
    }
  }

  /** `fromCode(int)` refuses a code only when no entry of the enumeration carries it. */
  lemma {:induction false} FromCodeRefusesOnlyUnused(code: Int32)
    requires FromCode(code).Err?
    ensures forall x: State :: x.Code() != code
  {
    ValuesComplete();
  }

  /** Codes are pairwise distinct. */
  lemma {:induction false} CodeInjective(a: State, b: State)
    requires a.Code() == b.Code()
    ensures a == b
  {
  }

  /** Lookup inverts `getCode`. */
  lemma {:induction false} FromCodeInverts(x: State)
    ensures FromCode(x.Code()) == Ok(x)
  {
    ValuesComplete();
    var r := FromCode(x.Code());
    assert x in Values;
    assert r.Ok?;
    CodeInjective(r.value, x);
  }

  /** Lookup by text inverts `getCodeAsString`. */
  lemma {:induction false} FromTextInverts(x: State)
    ensures FromText(x.CodeAsString()) == Ok(x)
  {
    ToDecimalIsDigits(x.Code(), 2);
    ParseIntOfDigits(x.Code(), 2);
    FromCodeInverts(x);
  }

  /** Lookup by text finds an entry from any text that `Integer.parseInt` reads as its
      code: padded or signed text as well as the rendering. */
  lemma {:induction false} FromTextFindsParsed(text: string, x: State)
    requires ParseInt(text) == Some(x.Code())
    ensures FromText(text) == Ok(x)
  {
    FromCodeInverts(x);
  }

  /** A 2-character `[A-Z0-9]` segment that the lookup accepts is the rendering
      of the entry found: the text form is canonical. */
  lemma {:induction false} FromTextCanonical(text: string)
    requires |text| == 2 && AllUpperAlnum(text)
    requires FromText(text).Ok?
    ensures FromText(text).value.CodeAsString() == text
  {
    ParseIntOnUpperAlnum(text);
    DigitsOfValue(text);
    ToDecimalIsDigits(FromText(text).value.Code(), 2);
  }

  /** Lookups by number that the unit tests check. */
  lemma {:induction false} CodeExamples()
    ensures FromCode(35) == Ok(SP) && FromCode(33) == Ok(RJ) && FromCode(12) == Ok(AC)
    ensures FromCode(999) == Err(UnknownCode(StateField, 999))
  {
    assert SP.Code() == 35 && RJ.Code() == 33 && AC.Code() == 12;
    FromCodeInverts(SP);
    FromCodeInverts(RJ);
    FromCodeInverts(AC);
  }

  /** Renderings that the unit tests check. */
  lemma {:induction false} RenderingExamples()
    ensures SC.CodeAsString() == "42" && MG.CodeAsString() == "31" && RS.CodeAsString() == "43"
  {
  }

  /** Lookups by text that the unit tests check. */
  lemma {:induction false} TextExamples()
    ensures FromText("31") == Ok(MG) && FromText("43") == Ok(RS)
  {
    RenderingExamples();
    FromTextInverts(MG);
    FromTextInverts(RS);
  }

  /** Text other than the rendering that `Integer.parseInt` reads as a code. */
  lemma {:induction false} ParsedTextExamples()
    ensures FromText("035") == Ok(SP) && FromText("+35") == Ok(SP)
  {
    assert SP.Code() == 35;
    assert "035"[..2] == "03" && "03"[..1] == "0" && Value("03") == 3;
    assert ParseInt("035") == Some(35);
    assert ParseInt("+35") == Some(35);
    FromTextFindsParsed("035", SP);
    FromTextFindsParsed("+35", SP);
  }

  /** The two distinct refusals of `fromCode(String)` that the unit tests check. */
  lemma {:induction false} TextRefusalExamples()
    ensures FromText("ABC") == Err(NotNumeric(StateField, "ABC"))
    ensures FromText("999") == Err(UnknownCode(StateField, 999))
  {
    assert AllDigits("999") && Value("999") == 999;
  }
}
