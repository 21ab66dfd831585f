/**
  The decision logic of the main.py page: the vascular-disease count handed to
  the scorer, the LDL/HDL check that stops the page before any calculation,
  and the three risk categories with their interpretations.  One call of
  Assess models one press of "Calculate Risk" with the sidebar's current values.
*/
module MainPage {
  import opened Calculations

  /** The sidebar's values, as the widgets return them. */
  datatype FormInput = FormInput(
    age: int,
    sex: string,
    diabetes: bool,
    smoker: bool,
    cad: bool,
    stroke: bool,
    pad: bool,
    totalChol: real,
    hdl: real,
    ldl: real,
    sbp: int,
    egfr: int,
    crp: real)

  /** The bounds the sidebar widgets enforce on the values they return. */
  predicate WithinWidgetBounds(f: FormInput) {
    && 30 <= f.age <= 100
    && (f.sex == "Male" || f.sex == "Female")
    && 2.0 <= f.totalChol <= 10.0
    && 0.5 <= f.hdl <= 3.0
    && 0.5 <= f.ldl <= 6.0
    && 90 <= f.sbp <= 220
    && 15 <= f.egfr <= 120
    && 0.1 <= f.crp <= 20.0
  }

  /** The number of vascular diseases ticked: CAD, stroke/TIA and PAD. */
  function VascCount(cad: bool, stroke: bool, pad: bool): (n: int)
    ensures n == multiset([cad, stroke, pad])[true]
    ensures 0 <= n <= 3
  {
    (if cad then 1 else 0) + (if stroke then 1 else 0) + (if pad then 1 else 0)
  }

  /** The arguments the page passes to calculate_smart_risk: every field but LDL. */
  function ScorerInput(f: FormInput): RiskFactors {
    RiskFactors(f.age, f.sex, f.sbp, f.totalChol, f.hdl,
                f.smoker, f.diabetes, f.egfr, f.crp, VascCount(f.cad, f.stroke, f.pad))
  }

  datatype RiskCategory = High | Medium | Low

  /** The category chosen for a percentage: at least 20 is high, at least 10 medium. */
  function Categorize(riskPercent: real): (c: RiskCategory)
    ensures c == High <==> riskPercent >= 20.0
    ensures c == Medium <==> 10.0 <= riskPercent < 20.0
    ensures c == Low <==> riskPercent < 10.0
  {
    if riskPercent >= 20.0 then High
    else if riskPercent >= 10.0 then Medium
    else Low
  }

  /** The name the page uses for a category. */
  function CategoryName(c: RiskCategory): string {
    match c
    case High => "high"
    case Medium => "medium"
    case Low => "low"
  }

  /** The interpretation shown under the percentage. */
  function Interpretation(c: RiskCategory): string {
    match c
    case High => "High risk - intensive therapy recommended"
    case Medium => "Moderate risk - consider therapy"
    case Low => "Low risk - maintain healthy lifestyle"
  }

  /** Low < Medium < High. */
  function Rank(c: RiskCategory): nat {
    match c
    case Low => 0
    case Medium => 1
    case High => 2
  }

  /** A higher percentage never gets a lower category. */
  lemma CategorizeMonotone(p: real, q: real)
    requires p <= q
    ensures Rank(Categorize(p)) <= Rank(Categorize(q))
  {
  }

  /** Each category has its own name and its own interpretation. */
  lemma CategoryTextsDistinct(c: RiskCategory, d: RiskCategory)
    requires c != d
    ensures CategoryName(c) != CategoryName(d)
    ensures Interpretation(c) != Interpretation(d)
  {
    match c
    case High => assert CategoryName(c)[0] == 'h' && Interpretation(c)[0] == 'H';
    case Medium => assert CategoryName(c)[0] == 'm' && Interpretation(c)[0] == 'M';
    case Low => assert CategoryName(c)[0] == 'l' && Interpretation(c)[0] == 'L';
  }

  /** The message shown when LDL-C is below HDL-C. */
  const LipidError: string := "LDL-C cannot be lower than HDL-C!"

  /** What one press of "Calculate Risk" ends in. */
  datatype Outcome =
    | Stopped(message: string)
    | Assessed(riskPercent: real, category: RiskCategory, interpretation: string)

  /**
    The page's flow: LDL below HDL shows the error and stops; otherwise the
    risk is calculated from every field but LDL and categorized.
  */
  function Assess(f: FormInput, curve: real -> real): (o: Outcome)
    requires IsPercentCurve(curve)
    ensures o.Stopped? <==> f.ldl < f.hdl
    ensures o.Stopped? ==> o.message == LipidError
    ensures o.Assessed? ==> 0.0 <= o.riskPercent <= 100.0
    ensures o.Assessed? ==> o.riskPercent == Risk(curve, ScorerInput(f))
    ensures o.Assessed? ==> o.category == Categorize(o.riskPercent)
    ensures o.Assessed? ==> o.interpretation == Interpretation(o.category)
  {
    if f.ldl < f.hdl then
      Stopped(LipidError)
    else
      var riskPercent := Risk(curve, ScorerInput(f));
      var category := Categorize(riskPercent);
      Assessed(riskPercent, category, Interpretation(category))
  }

  /** LDL only gates: past the check, its value does not change the outcome. */
  lemma LdlOnlyGates(f: FormInput, ldl: real, curve: real -> real)
    requires IsPercentCurve(curve)
    requires f.ldl >= f.hdl && ldl >= f.hdl
    ensures Assess(f.(ldl := ldl), curve) == Assess(f, curve)
  {
    assert ScorerInput(f.(ldl := ldl)) == ScorerInput(f);
  }

  /** Values within the widget bounds reach the scorer within the same bounds. */
  lemma ScorerInputRanges(f: FormInput)
    requires WithinWidgetBounds(f)
    ensures 30 <= ScorerInput(f).age <= 100
    ensures ScorerInput(f).sex == "Male" || ScorerInput(f).sex == "Female"
    ensures 90 <= ScorerInput(f).sbp <= 220
    ensures 2.0 <= ScorerInput(f).totalChol <= 10.0
    ensures 0.5 <= ScorerInput(f).hdl <= 3.0
    ensures 15 <= ScorerInput(f).egfr <= 120
    ensures 0.1 <= ScorerInput(f).crp <= 20.0
    ensures 0 <= ScorerInput(f).vascCount <= 3
  {
  }

  /** Over the widget bounds the score lies in [3.2, 15.5]. */
  lemma ScoreRange(f: FormInput)
    requires WithinWidgetBounds(f)
    ensures 3.2 <= Score(ScorerInput(f)) <= 15.5
  {
    ScoreClosedForm(ScorerInput(f));
  }

  /** Both ends of ScoreRange are reached. */
  lemma ScoreRangeTight()
    ensures WithinWidgetBounds(FormInput(30, "Female", false, false, false, false, false, 2.0, 0.5, 0.5, 90, 60, 2.0))
    ensures Score(ScorerInput(FormInput(30, "Female", false, false, false, false, false, 2.0, 0.5, 0.5, 90, 60, 2.0))) == 3.2
    ensures WithinWidgetBounds(FormInput(100, "Male", true, true, true, true, true, 10.0, 3.0, 6.0, 220, 15, 20.0))
    ensures Score(ScorerInput(FormInput(100, "Male", true, true, true, true, true, 10.0, 3.0, 6.0, 220, 15, 20.0))) == 15.5
  {
    ScoreClosedForm(ScorerInput(FormInput(30, "Female", false, false, false, false, false, 2.0, 0.5, 0.5, 90, 60, 2.0)));
    ScoreClosedForm(ScorerInput(FormInput(100, "Male", true, true, true, true, true, 10.0, 3.0, 6.0, 220, 15, 20.0)));
  }

  /**
    Every form the widgets can produce that passes the LDL/HDL check is
    assessed at 50 percent or more, hence in the high category: the medium
    and low branches cannot be reached from the page.
  */
  lemma EveryAssessmentIsHigh(f: FormInput, curve: real -> real)
    requires IsPercentCurve(curve)
    requires WithinWidgetBounds(f)
    requires f.ldl >= f.hdl
    ensures Assess(f, curve).Assessed?
    ensures Assess(f, curve).riskPercent >= 50.0
    ensures Assess(f, curve).category == High
  {
    ScoreRange(f);
    PositiveScoreAtLeastHalf(curve, ScorerInput(f));
  }
}
