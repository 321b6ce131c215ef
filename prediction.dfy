/** Offspring prediction for two parent cats: both records are validated, and
    for two valid parents a fixed rule table gives a colour label, a dilution
    label and a descriptive pattern string. */
module Prediction {
  import opened Wrappers
  import opened PyText
  import opened Validation

  /** The outcome record. The colour entry is optional because the program only
      inserts it when one of its three colour rules matches. */
  datatype OffspringOutcome = OffspringOutcome(offspringColor: Option<string>, offspringDilution: string, patternOutcome: string)

  /** What the prediction returns: an error message or an outcome record. */
  datatype PredictionResult = ErrorText(text: string) | Traits(outcome: OffspringOutcome)

  const Seal := "Seal (100%)"
  const SealChocolate := "75% Seal, 25% Chocolate"
  const ChocolateSealCarrier := "50% Chocolate, 50% Seal carrier"
  const Dilute := "50% Dilute"
  const DenseDiluteCarrier := "75% Dense, 25% Dilute carrier"
  const PatternHeading := "Possible pattern outcomes: "
  /** The separator between the two pattern labels, with the multiplication sign U+00D7. */
  const Cross := " \U{D7} "

  /** The colour rule: first match wins among "both BB", "one is Bb", "one is bb". */
  function ColorOutcome(c1: string, c2: string): (r: Option<string>)
    ensures r == Some(Seal) <==> c1 == "BB" && c2 == "BB"
    ensures r == Some(SealChocolate) <==> c1 == "Bb" || c2 == "Bb"
    ensures r == Some(ChocolateSealCarrier) <==> c1 != "Bb" && c2 != "Bb" && (c1 == "bb" || c2 == "bb")
    ensures r.None? <==> !(c1 == "BB" && c2 == "BB") && c1 != "Bb" && c2 != "Bb" && c1 != "bb" && c2 != "bb"
    ensures ColorOk(c1) && ColorOk(c2) ==> r.Some?
  {
    if c1 == "BB" && c2 == "BB" then Some(Seal)
    else if "Bb" in [c1, c2] then Some(SealChocolate)
    else if "bb" in [c1, c2] then Some(ChocolateSealCarrier)
    else None
  }

  /** The dilution rule: dilute as soon as one parent is dd. */
  function DilutionOutcome(d1: string, d2: string): (r: string)
    ensures r == Dilute <==> d1 == "dd" || d2 == "dd"
    ensures r == Dilute || r == DenseDiluteCarrier
  {
    if d1 == "dd" || d2 == "dd" then Dilute else DenseDiluteCarrier
  }

  /** The pattern description: the heading, then parent 1's label, the cross and
      parent 2's label last. */
  function PatternOutcome(pat1: string, pat2: string): (r: string)
    ensures PatternHeading <= r
    ensures pat1 <= r[|PatternHeading|..]
    ensures |r| == |PatternHeading| + |pat1| + |Cross| + |pat2|
    ensures r[|PatternHeading| + |pat1|..|PatternHeading| + |pat1| + |Cross|] == Cross
    ensures r[|r| - |pat2|..] == pat2
  {
    PatternHeading + pat1 + Cross + pat2
  }

  /** `calculate_offspring_traits`: both parents are validated; the caller's test
      for failure is the substring test `"Invalid" in message`, parent 1 first;
      two valid parents give an outcome record. */
  function CalculateOffspringTraits(p1: Parent, p2: Parent): (r: PredictionResult)
    ensures r.Traits? <==> WellFormed(p1) && WellFormed(p2)
    ensures !WellFormed(p1) ==> r == ErrorText(ValidateParentInput(p1))
    ensures WellFormed(p1) && !WellFormed(p2) ==> r == ErrorText(ValidateParentInput(p2))
    ensures r.ErrorText? ==> "Invalid" <= r.text
  {
    var valid1 := ValidateParentInput(p1);
    var valid2 := ValidateParentInput(p2);
    InvalidMarkerSeparates(p1);
    InvalidMarkerSeparates(p2);
    if Contains(valid1, "Invalid") then ErrorText(valid1)
    else if Contains(valid2, "Invalid") then ErrorText(valid2)
    else
      Traits(OffspringOutcome(
        ColorOutcome(p1.color, p2.color),
        DilutionOutcome(p1.dilution, p2.dilution),
        PatternOutcome(p1.pattern, p2.pattern)))
  }

  /** For two valid parents the outcome record always carries a colour, and the
      three rules and the dilution rule select their labels as follows. */
  lemma ValidParentsOutcome(p1: Parent, p2: Parent)
    requires WellFormed(p1) && WellFormed(p2)
    ensures CalculateOffspringTraits(p1, p2).Traits?
    ensures var o := CalculateOffspringTraits(p1, p2).outcome;
      && o.offspringColor.Some?
      && (o.offspringColor.value == Seal <==> p1.color == "BB" && p2.color == "BB")
      && (o.offspringColor.value == SealChocolate <==> p1.color == "Bb" || p2.color == "Bb")
      && (o.offspringColor.value == ChocolateSealCarrier <==>
            p1.color != "Bb" && p2.color != "Bb" && !(p1.color == "BB" && p2.color == "BB"))
      && (o.offspringDilution == Dilute <==> p1.dilution == "dd" || p2.dilution == "dd")
      && (o.offspringDilution == DenseDiluteCarrier <==> p1.dilution != "dd" && p2.dilution != "dd")
      && o.patternOutcome == PatternOutcome(p1.pattern, p2.pattern)
  {
  }

  /** Swapping the parents changes neither the colour nor the dilution label,
      and a valid pair stays valid. */
  lemma ColorAndDilutionSymmetric(p1: Parent, p2: Parent)
    requires WellFormed(p1) && WellFormed(p2)
    ensures CalculateOffspringTraits(p2, p1).Traits?
    ensures CalculateOffspringTraits(p1, p2).outcome.offspringColor
         == CalculateOffspringTraits(p2, p1).outcome.offspringColor
    ensures CalculateOffspringTraits(p1, p2).outcome.offspringDilution
         == CalculateOffspringTraits(p2, p1).outcome.offspringDilution
  {
  }

  /** The pattern description of two valid patterns determines both patterns
      and their order: parent 1's label is always the one written first. */
  lemma {:induction false} PatternOutcomeKeepsOrder(a: string, b: string, c: string, d: string)
    requires PatternOk(a) && PatternOk(b) && PatternOk(c) && PatternOk(d)
    requires PatternOutcome(a, b) == PatternOutcome(c, d)
    ensures a == c && b == d
  {
    var s := PatternOutcome(a, b);
    var n := |PatternHeading|;
    assert s[n] == a[0];
    assert PatternOutcome(c, d)[n] == c[0];
    assert a == c;
    assert s == (PatternHeading + a + Cross) + b;
    assert PatternOutcome(c, d) == (PatternHeading + a + Cross) + d;
    var m := |PatternHeading + a + Cross|;
    assert s[m..] == b;
    assert PatternOutcome(c, d)[m..] == d;
  }

  /** Hence the pattern description is not symmetric in the parents. */
  lemma PatternOutcomeNotSymmetric(a: string, b: string)
    requires PatternOk(a) && PatternOk(b) && a != b
    ensures PatternOutcome(a, b) != PatternOutcome(b, a)
  {
    if PatternOutcome(a, b) == PatternOutcome(b, a) {
      PatternOutcomeKeepsOrder(a, b, b, a);
    }
  }

  /** Two identical seal, dense, bicolor parents of opposite sex. */
  lemma SealScenario()
    ensures CalculateOffspringTraits(Parent("BB", "DD", "bicolor", "male", None),
                                     Parent("BB", "DD", "bicolor", "female", None))
         == Traits(OffspringOutcome(Some(Seal), DenseDiluteCarrier,
                                    PatternHeading + "bicolor" + Cross + "bicolor"))
  {
    var p1 := Parent("BB", "DD", "bicolor", "male", None);
    var p2 := Parent("BB", "DD", "bicolor", "female", None);
    assert WellFormed(p1) && WellFormed(p2);
    ValidParentsOutcome(p1, p2);
  }
}
