/** Validation of one parent cat's genotype record: each field is checked against
    a fixed enumeration, in the order colour, dilution, pattern, red, and the first
    failing check is reported as an error. */
module Validation {
  import opened Wrappers
  import opened PyText

  /** A parent record. `red` is the optional red-gene entry: `None` when the
      record has no `red` key at all. */
  datatype Parent = Parent(color: string, dilution: string, pattern: string, sex: string, red: Option<string>)

  /** The allowed values, in the order the program lists them (the order shows in
      the error messages). */
  const ValidColors: seq<string> := ["BB", "Bb", "bb"]
  const ValidDilutions: seq<string> := ["DD", "Dd", "dd"]
  const ValidPatterns: seq<string> := ["colorpoint", "mitted", "bicolor"]
  const ValidFemaleRedGenes: seq<string> := ["XOXO", "XOXo", "XoXo"]
  const ValidMaleRedGenes: seq<string> := ["XOY", "XoY"]

  /** The message for a record that passes every check. */
  const AllValid := "All inputs are valid!"

  /** The intended enumerations, stated as sets independently of the lists above. */
  predicate ColorOk(g: string) { g in {"BB", "Bb", "bb"} }
  predicate DilutionOk(g: string) { g in {"DD", "Dd", "dd"} }
  predicate PatternOk(p: string) { p in {"colorpoint", "mitted", "bicolor"} }
  predicate RedOk(g: string, sex: string)
  {
    || (sex == "female" && g in {"XOXO", "XOXo", "XoXo"})
    || (sex == "male" && g in {"XOY", "XoY"})
  }

  /** A well-formed parent: every required field is in its enumeration and the
      red gene, when present, is one allowed for the stated sex. The sex itself
      is constrained only when a red gene is present. */
  predicate WellFormed(p: Parent)
  {
    && ColorOk(p.color)
    && DilutionOk(p.dilution)
    && PatternOk(p.pattern)
    && (p.red.Some? ==> RedOk(p.red.value, p.sex))
  }

  /** The error raised by a failing check: which field, with the offending value. */
  datatype ValidationError =
    | InvalidColor(genotype: string)
    | InvalidDilution(genotype: string)
    | InvalidPattern(pattern: string)
    | InvalidFemaleRed(genotype: string)
    | InvalidMaleRed(genotype: string)
    | InvalidSex(sex: string)
  {
    /** The text of the raised error, as `str(ve)` renders it. */
    function Message(): (m: string)
      ensures "Invalid" <= m
    {
      match this
      case InvalidColor(g) =>
        "Invalid color genotype: " + g + ". Must be one of " + ListRepr(ValidColors)
      case InvalidDilution(g) =>
        "Invalid dilution genotype: " + g + ". Must be one of " + ListRepr(ValidDilutions)
      case InvalidPattern(p) =>
        "Invalid pattern: " + p + ". Must be one of " + ListRepr(ValidPatterns)
      case InvalidFemaleRed(g) =>
        "Invalid female red genotype: " + g + ". Must be one of " + ListRepr(ValidFemaleRedGenes)
      case InvalidMaleRed(g) =>
        "Invalid male red genotype: " + g + ". Must be one of " + ListRepr(ValidMaleRedGenes)
      case InvalidSex(s) =>
        "Invalid sex: " + s + ". Must be 'male' or 'female'"
    }
  }

  function ValidateColorGenotype(genotype: string): (r: Outcome<ValidationError>)
    ensures r.Pass? <==> ColorOk(genotype)
    ensures r.Fail? ==> r.error == InvalidColor(genotype)
  {
    if genotype !in ValidColors then Fail(InvalidColor(genotype)) else Pass
  }

  function ValidateDilutionGenotype(genotype: string): (r: Outcome<ValidationError>)
    ensures r.Pass? <==> DilutionOk(genotype)
    ensures r.Fail? ==> r.error == InvalidDilution(genotype)
  {
    if genotype !in ValidDilutions then Fail(InvalidDilution(genotype)) else Pass
  }

  function ValidatePatternGenotype(pattern: string): (r: Outcome<ValidationError>)
    ensures r.Pass? <==> PatternOk(pattern)
    ensures r.Fail? ==> r.error == InvalidPattern(pattern)
  {
    if pattern !in ValidPatterns then Fail(InvalidPattern(pattern)) else Pass
  }

  /** The red gene is checked against the list for the given sex; a sex other
      than "female" or "male" is an error whatever the gene is. */
  function ValidateRedGenotype(genotype: string, sex: string): (r: Outcome<ValidationError>)
    ensures r.Pass? <==> RedOk(genotype, sex)
    ensures sex != "female" && sex != "male" ==> r == Fail(InvalidSex(sex))
    ensures sex == "female" && r.Fail? ==> r.error == InvalidFemaleRed(genotype)
    ensures sex == "male" && r.Fail? ==> r.error == InvalidMaleRed(genotype)
  {
    if sex == "female" then
      if genotype !in ValidFemaleRedGenes then Fail(InvalidFemaleRed(genotype)) else Pass
    else if sex == "male" then
      if genotype !in ValidMaleRedGenes then Fail(InvalidMaleRed(genotype)) else Pass
    else
      Fail(InvalidSex(sex))
  }

  /** The checks of a parent record in their fixed order; the first one that
      fails ends the chain, so the error depends only on the fields examined
      up to it. The red check runs only when the record has a red gene. */
  function ValidateParent(p: Parent): (r: Outcome<ValidationError>)
    ensures r.Pass? <==> WellFormed(p)
    ensures !ColorOk(p.color) ==> r == Fail(InvalidColor(p.color))
    ensures ColorOk(p.color) && !DilutionOk(p.dilution) ==> r == Fail(InvalidDilution(p.dilution))
    ensures ColorOk(p.color) && DilutionOk(p.dilution) && !PatternOk(p.pattern) ==>
              r == Fail(InvalidPattern(p.pattern))
    ensures ColorOk(p.color) && DilutionOk(p.dilution) && PatternOk(p.pattern) && p.red.Some? ==>
              r == ValidateRedGenotype(p.red.value, p.sex)
  {
    var color := ValidateColorGenotype(p.color);
    if color.Fail? then color else
    var dilution := ValidateDilutionGenotype(p.dilution);
    if dilution.Fail? then dilution else
    var pattern := ValidatePatternGenotype(p.pattern);
    if pattern.Fail? then pattern else
    if p.red.Some? then ValidateRedGenotype(p.red.value, p.sex) else Pass
  }

  /** The message `validate_parent_input` returns: the first error's text, or
      the success message. */
  function ValidateParentInput(p: Parent): (msg: string)
    ensures msg == AllValid <==> WellFormed(p)
    ensures !WellFormed(p) ==> "Invalid" <= msg
    ensures !ColorOk(p.color) ==> msg == InvalidColor(p.color).Message()
    ensures ColorOk(p.color) && !DilutionOk(p.dilution) ==> msg == InvalidDilution(p.dilution).Message()
    ensures ColorOk(p.color) && DilutionOk(p.dilution) && !PatternOk(p.pattern) ==>
              msg == InvalidPattern(p.pattern).Message()
    ensures ColorOk(p.color) && DilutionOk(p.dilution) && PatternOk(p.pattern) && p.red.Some?
              && !RedOk(p.red.value, p.sex) ==>
              msg == ValidateRedGenotype(p.red.value, p.sex).error.Message()
  {
    match ValidateParent(p)
    case Pass => AllValid
    case Fail(e) => e.Message()
  }

  /** Once the colour fails, nothing after it is examined. */
  lemma ColorFailureHidesRest(p: Parent, q: Parent)
    requires !ColorOk(p.color) && q.color == p.color
    ensures ValidateParentInput(p) == ValidateParentInput(q)
  {
  }

  /** Once the dilution fails, the pattern, sex and red gene are not examined. */
  lemma DilutionFailureHidesRest(p: Parent, q: Parent)
    requires ColorOk(p.color) && !DilutionOk(p.dilution)
    requires q.color == p.color && q.dilution == p.dilution
    ensures ValidateParentInput(p) == ValidateParentInput(q)
  {
  }

  /** Once the pattern fails, the sex and red gene are not examined. */
  lemma PatternFailureHidesRest(p: Parent, q: Parent)
    requires ColorOk(p.color) && DilutionOk(p.dilution) && !PatternOk(p.pattern)
    requires q.color == p.color && q.dilution == p.dilution && q.pattern == p.pattern
    ensures ValidateParentInput(p) == ValidateParentInput(q)
  {
  }

  /** Without a red gene the sex is never examined: any sex, valid or not, gives
      the same verdict. */
  lemma SexUncheckedWithoutRed(p: Parent, sex: string)
    requires p.red.None?
    ensures ValidateParentInput(p) == ValidateParentInput(p.(sex := sex))
  {
  }

  /** The substring test the caller applies, `"Invalid" in msg`, holds exactly for
      the messages of records that fail validation. */
  lemma {:induction false} InvalidMarkerSeparates(p: Parent)
    ensures Contains(ValidateParentInput(p), "Invalid") <==> !WellFormed(p)
  {
    if WellFormed(p) {
      AbsentHeadNotContained(AllValid, "Invalid");
    } else {
      PrefixContained(ValidateParentInput(p), "Invalid");
    }
  }

  /** A colour outside the enumeration is reported with its value and the allowed list. */
  lemma ColorScenario()
    ensures ValidateParentInput(Parent("XYZ", "DD", "bicolor", "male", None))
         == "Invalid color genotype: XYZ. Must be one of " + "['BB', 'Bb', 'bb']"
  {
    assert ValidateParent(Parent("XYZ", "DD", "bicolor", "male", None)) == Fail(InvalidColor("XYZ"));
    assert ListRepr(ValidColors) == "['BB', 'Bb', 'bb']";
  }

  /** A male-only red gene on a female is rejected as a female red-gene error,
      not silently accepted. */
  lemma FemaleRedScenario()
    ensures ValidateParent(Parent("BB", "DD", "bicolor", "female", Some("XoY")))
         == Fail(InvalidFemaleRed("XoY"))
  {
  }
}
