/** The models of electronic fiscal document (NF-e, NFC-e, CT-e, MDF-e) with their two-digit codes. */
module Model {
  import opened Errors
  import opened Decimal

  datatype Model =
    | NFE | NFCE | CTE | MDFE
  {
    /** `getCode`: the code this entry carries in the table. */
    function Code(): (c: int)
      ensures 55 <= c <= 65
    {
      match this
      case NFE => 55
      case NFCE => 65
      case CTE => 57
      case MDFE => 58
    }

    /** `getCodeAsString`: `String.valueOf(code)`, which for these codes is always two digits. */
    function CodeAsString(): (r: string)
      ensures |r| == 2 && AllDigits(r)
    {
      ToDecimalIsDigits(Code(), 2);
      ToDecimal(Code())
    }
  }

  /** `values()`: the 4 entries in declaration order. */
  const Values: seq<Model> := [NFE, NFCE, CTE, MDFE]

  /** The loop of `fromCode(int)`: the first entry of `table` carrying `code`, if any. */
  function Find(table: seq<Model>, code: int): (r: Option<Model>)
    ensures r.Some? ==> r.value in table && r.value.Code() == code
    ensures r.None? ==> forall x :: x in table ==> x.Code() != code
  {
    if table == [] then None
    else if table[0].Code() == code then Some(table[0])
    else Find(table[1..], code)
  }

  /** `fromCode(int)`: the entry carrying `code`, or the "invalid code" failure. */
  function FromCode(code: Int32): (r: Result<Model>)
    ensures r.Ok? ==> r.value.Code() == code
    ensures r.Err? ==> r.error == UnknownCode(ModelField, code)
  {
    match Find(Values, code)
    case Some(x) => Ok(x)
    case None => Err(UnknownCode(ModelField, code))
  }

  /** `fromCode(String)`: text that `Integer.parseInt` refuses is a distinct failure
      from a number that is not in the table. */
  function FromText(text: string): (r: Result<Model>)
    ensures ParseInt(text).None? ==> r == Err(NotNumeric(ModelField, text))
    ensures r.Ok? ==> ParseInt(text) == Some(r.value.Code())
    ensures ParseInt(text).Some? && r.Err? ==> r.error == UnknownCode(ModelField, ParseInt(text).value)
  {
    match ParseInt(text)
    case None => Err(NotNumeric(ModelField, text))
    case Some(code) => FromCode(code)
  }

  /** The table has 4 entries and lists every value of the enumeration. */
  lemma {:induction false} ValuesComplete()
    ensures |Values| == 4
    ensures forall x: Model :: x in Values
  {
    forall x: Model
      ensures x in Values
    {
      match x
      case NFE => assert Values[0] == NFE;
      case NFCE => assert Values[1] == NFCE;
      case CTE => assert Values[2] == CTE;
      case MDFE => assert Values[3] == MDFE;
    }
  }

  /** `fromCode(int)` refuses a code only when no entry of the enumeration carries it. */
  lemma {:induction false} FromCodeRefusesOnlyUnused(code: Int32)
    requires FromCode(code).Err?
    ensures forall x: Model :: x.Code() != code
  {
    ValuesComplete();
  }

  /** Codes are pairwise distinct. */
  lemma {:induction false} CodeInjective(a: Model, b: Model)
    requires a.Code() == b.Code()
    ensures a == b
  {
  }

  /** Lookup inverts `getCode`. */
  lemma {:induction false} FromCodeInverts(x: Model)
    ensures FromCode(x.Code()) == Ok(x)
  {
    ValuesComplete();
    var r := FromCode(x.Code());
    assert x in Values;
    assert r.Ok?;
    CodeInjective(r.value, x);
  }

  /** Lookup by text inverts `getCodeAsString`. */
  lemma {:induction false} FromTextInverts(x: Model)
    ensures FromText(x.CodeAsString()) == Ok(x)
  {
    ToDecimalIsDigits(x.Code(), 2);
    ParseIntOfDigits(x.Code(), 2);
    FromCodeInverts(x);
  }

  /** Lookup by text finds an entry from any text that `Integer.parseInt` reads as its
      code: padded or signed text as well as the rendering. */
  lemma {:induction false} FromTextFindsParsed(text: string, x: Model)
    requires ParseInt(text) == Some(x.Code())
    ensures FromText(text) == Ok(x)
  {
    FromCodeInverts(x);
  }

  /** A 2-character `[A-Z0-9]` segment that the lookup accepts is the rendering
      of the entry found: the text form is canonical. */
  lemma {:induction false} FromTextCanonical(text: string)
    requires |text| == 2 && AllUpperAlnum(text)
    requires FromText(text).Ok?
    ensures FromText(text).value.CodeAsString() == text
  {
    ParseIntOnUpperAlnum(text);
    DigitsOfValue(text);
    ToDecimalIsDigits(FromText(text).value.Code(), 2);
  }

  /** Lookups by number that the unit tests check. */
  lemma {:induction false} CodeExamples()
    ensures FromCode(55) == Ok(NFE) && FromCode(65) == Ok(NFCE)
    ensures FromCode(57) == Ok(CTE) && FromCode(58) == Ok(MDFE)
    ensures FromCode(999) == Err(UnknownCode(ModelField, 999))
  {
    assert NFE.Code() == 55 && NFCE.Code() == 65 && CTE.Code() == 57 && MDFE.Code() == 58;
    FromCodeInverts(NFE);
    FromCodeInverts(NFCE);
    FromCodeInverts(CTE);
    FromCodeInverts(MDFE);
  }

  /** Renderings that the unit tests check. */
  lemma {:induction false} RenderingExamples()
    ensures NFE.CodeAsString() == "55" && NFCE.CodeAsString() == "65"
  {
  }

  /** Lookups by text that the unit tests check. */
  lemma {:induction false} TextExamples()
    ensures FromText("55") == Ok(NFE) && FromText("65") == Ok(NFCE)
  {
    RenderingExamples();
    FromTextInverts(NFE);
    FromTextInverts(NFCE);
  }

  /** Text other than the rendering that `Integer.parseInt` reads as a code. */
  lemma {:induction false} ParsedTextExamples()
    ensures FromText("055") == Ok(NFE) && FromText("+55") == Ok(NFE)
  {
    assert NFE.Code() == 55;
    assert "055"[..2] == "05" && "05"[..1] == "0" && Value("05") == 5;
    assert ParseInt("055") == Some(55);
    assert ParseInt("+55") == Some(55);
    FromTextFindsParsed("055", NFE);
    FromTextFindsParsed("+55", NFE);
  }

  /** The two distinct refusals of `fromCode(String)` that the unit tests check. */
  lemma {:induction false} TextRefusalExamples()
    ensures FromText("abc") == Err(NotNumeric(ModelField, "abc"))
    ensures FromText("999") == Err(UnknownCode(ModelField, 999))
  {
    assert AllDigits("999") && Value("999") == 999;
  }
}
