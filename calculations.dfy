/**
  The SMART-style scoring rule of calculations.py: ten weighted terms are
  accumulated into a score, the score is squashed to a percentage by the
  inverse logit and the percentage is rounded to one decimal.

  The additive part is modelled over exact reals.  The inverse logit (computed
  in floating point with math.exp) is a parameter `curve` of which only the
  properties in IsPercentCurve are assumed; the rounding to one decimal is
  modelled exactly, as round-half-to-even on the value it is given.
*/
module Calculations {

  /** The arguments of calculate_smart_risk, in its parameter order. */
  datatype RiskFactors = RiskFactors(
    age: int,
    sex: string,
    sbp: int,
    totalChol: real,
    hdl: real,
    smoker: bool,
    diabetes: bool,
    egfr: int,
    crp: real,
    vascCount: int)

  /** The keys of the coefficient table. */
  datatype Factor =
    | Age | Male | Sbp | TotalChol | LowHdl | Smoker | Diabetes | LowEgfr | ElevatedCrp | VascularDisease

  /** The keys in table order, which is also the order of the accumulation. */
  const Factors: seq<Factor> :=
    [Age, Male, Sbp, TotalChol, LowHdl, Smoker, Diabetes, LowEgfr, ElevatedCrp, VascularDisease]

  /** The coefficient table. */
  function Coefficient(f: Factor): real {
    match f
    case Age => 0.04
    case Male => 0.7
    case Sbp => 0.02
    case TotalChol => 0.3
    case LowHdl => -0.4
    case Smoker => 0.6
    case Diabetes => 0.8
    case LowEgfr => 0.5
    case ElevatedCrp => 0.3
    case VascularDisease => 0.4
  }

  /** Every coefficient is positive except that of low HDL, which is negative. */
  lemma CoefficientSigns(f: Factor)
    ensures Coefficient(f) < 0.0 <==> f == LowHdl
    ensures Coefficient(f) != 0.0
  {
  }

  /** The term that factor `f` adds to the score of `x`. */
  function Contribution(x: RiskFactors, f: Factor): real {
    match f
    case Age => x.age as real * Coefficient(Age)
    case Male => if x.sex == "Male" then Coefficient(Male) else 0.0
    case Sbp => x.sbp as real * Coefficient(Sbp)
    case TotalChol => x.totalChol * Coefficient(TotalChol)
    case LowHdl => if x.hdl < 1.0 then Coefficient(LowHdl) else 0.0
    case Smoker => if x.smoker then Coefficient(Smoker) else 0.0
    case Diabetes => if x.diabetes then Coefficient(Diabetes) else 0.0
    case LowEgfr => if x.egfr < 60 then Coefficient(LowEgfr) else 0.0
    case ElevatedCrp => if x.crp > 2.0 then Coefficient(ElevatedCrp) else 0.0
    case VascularDisease => x.vascCount as real * Coefficient(VascularDisease)
  }

  /** The sum of the contributions of the factors in `fs`. */
  function SumOver(x: RiskFactors, fs: seq<Factor>): real {
    if fs == [] then 0.0 else Contribution(x, fs[0]) + SumOver(x, fs[1..])
  }

  /** The accumulated score: every entry of the coefficient table, summed. */
  function Score(x: RiskFactors): real {
    SumOver(x, Factors)
  }

  /** Summing over a list that starts with `f` adds `f`'s contribution to the sum over the rest. */
  lemma SumOverCons(x: RiskFactors, f: Factor, fs: seq<Factor>)
    ensures SumOver(x, [f] + fs) == Contribution(x, f) + SumOver(x, fs)
  {
    assert ([f] + fs)[1..] == fs;
  }

  /** The score written out term by term, as the coefficient table reads. */
  lemma ScoreClosedForm(x: RiskFactors)
    ensures Score(x) ==
      0.04 * x.age as real
      + (if x.sex == "Male" then 0.7 else 0.0)
      + 0.02 * x.sbp as real
      + 0.3 * x.totalChol
      + (if x.hdl < 1.0 then -0.4 else 0.0)
      + (if x.smoker then 0.6 else 0.0)
      + (if x.diabetes then 0.8 else 0.0)
      + (if x.egfr < 60 then 0.5 else 0.0)
      + (if x.crp > 2.0 then 0.3 else 0.0)
      + 0.4 * x.vascCount as real
  {
    var s9 := [VascularDisease];
    var s8 := [ElevatedCrp] + s9;
    var s7 := [LowEgfr] + s8;
    var s6 := [Diabetes] + s7;
    var s5 := [Smoker] + s6;
    var s4 := [LowHdl] + s5;
    var s3 := [TotalChol] + s4;
    var s2 := [Sbp] + s3;
    var s1 := [Male] + s2;
    assert Factors == [Age] + s1;
    SumOverCons(x, Age, s1);
    SumOverCons(x, Male, s2);
    SumOverCons(x, Sbp, s3);
    SumOverCons(x, TotalChol, s4);
    SumOverCons(x, LowHdl, s5);
    SumOverCons(x, Smoker, s6);
    SumOverCons(x, Diabetes, s7);
    SumOverCons(x, LowEgfr, s8);
    SumOverCons(x, ElevatedCrp, s9);
    SumOverCons(x, VascularDisease, []);
    var male := x.sex == "Male";
    assert Contribution(x, Male) == if male then 0.7 else 0.0;
  }

  /** No factor occurs twice in `fs`. */
  predicate Distinct(fs: seq<Factor>) {
    forall i, j :: 0 <= i < j < |fs| ==> fs[i] != fs[j]
  }

  /**
    When two inputs differ in factor `f` only, their sums over a list of
    distinct factors differ by that factor's change if `f` is in the list,
    and not at all otherwise.
  */
  lemma {:induction false} SumOverOneFactor(x: RiskFactors, y: RiskFactors, f: Factor, fs: seq<Factor>)
    requires forall g :: g != f ==> Contribution(x, g) == Contribution(y, g)
    requires Distinct(fs)
    ensures SumOver(y, fs) - SumOver(x, fs)
      == if f in fs then Contribution(y, f) - Contribution(x, f) else 0.0
  {
    if fs != [] {
      assert Distinct(fs[1..]) by {
        forall i, j | 0 <= i < j < |fs[1..]| ensures fs[1..][i] != fs[1..][j] {
          assert fs[1..][i] == fs[i + 1] && fs[1..][j] == fs[j + 1];
        }
      }
      SumOverOneFactor(x, y, f, fs[1..]);
      if fs[0] == f {
        assert f !in fs[1..] by {
          forall i | 0 <= i < |fs[1..]| ensures fs[1..][i] != f {
            assert fs[1..][i] == fs[i + 1];
          }
        }
      } else {
        assert Contribution(x, fs[0]) == Contribution(y, fs[0]);
        assert f in fs <==> f in fs[1..] by {
          assert fs == [fs[0]] + fs[1..];
        }
      }
    }
  }

  /** The coefficient table lists every factor, each once. */
  lemma FactorsListEachOnce(f: Factor)
    ensures Distinct(Factors)
    ensures f in Factors
  {
    var fs := Factors;
    assert fs == [Age, Male, Sbp, TotalChol, LowHdl, Smoker, Diabetes, LowEgfr, ElevatedCrp, VascularDisease];
    match f
    case Age => assert fs[0] == f;
    case Male => assert fs[1] == f;
    case Sbp => assert fs[2] == f;
    case TotalChol => assert fs[3] == f;
    case LowHdl => assert fs[4] == f;
    case Smoker => assert fs[5] == f;
    case Diabetes => assert fs[6] == f;
    case LowEgfr => assert fs[7] == f;
    case ElevatedCrp => assert fs[8] == f;
    case VascularDisease => assert fs[9] == f;
  }

  /** Changing one factor changes the score by exactly that factor's change. */
  lemma ScoreOneFactor(x: RiskFactors, y: RiskFactors, f: Factor)
    requires forall g :: g != f ==> Contribution(x, g) == Contribution(y, g)
    ensures Score(y) - Score(x) == Contribution(y, f) - Contribution(x, f)
  {
    FactorsListEachOnce(f);
    SumOverOneFactor(x, y, f, Factors);
  }

  /** Age adds 0.04 per year, so the score never falls as age rises. */
  lemma AgeEffect(x: RiskFactors, age: int)
    ensures Score(x.(age := age)) - Score(x) == 0.04 * (age - x.age) as real
    ensures x.age <= age ==> Score(x) <= Score(x.(age := age))
  {
    ScoreOneFactor(x, x.(age := age), Age);
  }

  /** "Male" scores exactly 0.7 above any other value of `sex`. */
  lemma MaleEffect(x: RiskFactors, other: string)
    requires other != "Male"
    ensures Score(x.(sex := "Male")) - Score(x.(sex := other)) == 0.7
  {
    ScoreOneFactor(x.(sex := other), x.(sex := "Male"), Male);
  }

  /** Systolic blood pressure adds 0.02 per mmHg. */
  lemma SbpEffect(x: RiskFactors, sbp: int)
    ensures Score(x.(sbp := sbp)) - Score(x) == 0.02 * (sbp - x.sbp) as real
    ensures x.sbp <= sbp ==> Score(x) <= Score(x.(sbp := sbp))
  {
    ScoreOneFactor(x, x.(sbp := sbp), Sbp);
  }

  /** Total cholesterol adds 0.3 per mmol/L. */
  lemma TotalCholEffect(x: RiskFactors, totalChol: real)
    ensures Score(x.(totalChol := totalChol)) - Score(x) == 0.3 * (totalChol - x.totalChol)
    ensures x.totalChol <= totalChol ==> Score(x) <= Score(x.(totalChol := totalChol))
  {
    ScoreOneFactor(x, x.(totalChol := totalChol), TotalChol);
  }

  /**
    HDL below 1.0 (strictly) subtracts 0.4; HDL of 1.0 or more, 1.0 itself
    included, scores as HDL 1.0 does.  So the score never falls as HDL rises,
    and lowering HDL across 1.0 lowers it by exactly 0.4.
  */
  lemma HdlEffect(x: RiskFactors, hdl: real)
    ensures Score(x.(hdl := hdl)) - Score(x.(hdl := 1.0)) == if hdl < 1.0 then -0.4 else 0.0
    ensures x.hdl <= hdl ==> Score(x) <= Score(x.(hdl := hdl))
  {
    ScoreOneFactor(x.(hdl := 1.0), x.(hdl := hdl), LowHdl);
    ScoreOneFactor(x, x.(hdl := hdl), LowHdl);
  }

  /** Smoking adds exactly 0.6. */
  lemma SmokerEffect(x: RiskFactors)
    ensures Score(x.(smoker := true)) - Score(x.(smoker := false)) == 0.6
  {
    ScoreOneFactor(x.(smoker := false), x.(smoker := true), Smoker);
  }

  /** Diabetes adds exactly 0.8. */
  lemma DiabetesEffect(x: RiskFactors)
    ensures Score(x.(diabetes := true)) - Score(x.(diabetes := false)) == 0.8
  {
    ScoreOneFactor(x.(diabetes := false), x.(diabetes := true), Diabetes);
  }

  /**
    eGFR below 60 (strictly) adds 0.5; eGFR of 60 or more scores as 60 does.
    So the score never rises as eGFR rises.
  */
  lemma EgfrEffect(x: RiskFactors, egfr: int)
    ensures Score(x.(egfr := egfr)) - Score(x.(egfr := 60)) == if egfr < 60 then 0.5 else 0.0
    ensures x.egfr <= egfr ==> Score(x.(egfr := egfr)) <= Score(x)
  {
    ScoreOneFactor(x.(egfr := 60), x.(egfr := egfr), LowEgfr);
    ScoreOneFactor(x, x.(egfr := egfr), LowEgfr);
  }

  /**
    CRP above 2.0 (strictly) adds 0.3; CRP of 2.0 or less scores as 2.0 does.
    So the score never falls as CRP rises.
  */
  lemma CrpEffect(x: RiskFactors, crp: real)
    ensures Score(x.(crp := crp)) - Score(x.(crp := 2.0)) == if crp > 2.0 then 0.3 else 0.0
    ensures x.crp <= crp ==> Score(x) <= Score(x.(crp := crp))
  {
    ScoreOneFactor(x.(crp := 2.0), x.(crp := crp), ElevatedCrp);
    ScoreOneFactor(x, x.(crp := crp), ElevatedCrp);
  }

  /** Each vascular disease adds 0.4. */
  lemma VascCountEffect(x: RiskFactors, vascCount: int)
    ensures Score(x.(vascCount := vascCount)) - Score(x) == 0.4 * (vascCount - x.vascCount) as real
    ensures x.vascCount <= vascCount ==> Score(x) <= Score(x.(vascCount := vascCount))
  {
    ScoreOneFactor(x, x.(vascCount := vascCount), VascularDisease);
  }

  /**
    `y` is at least as adverse as `x` in every factor, in the direction in
    which that factor moves the score.
  */
  predicate NoLessAdverse(x: RiskFactors, y: RiskFactors) {
    && x.age <= y.age
    && (x.sex == "Male" ==> y.sex == "Male")
    && x.sbp <= y.sbp
    && x.totalChol <= y.totalChol
    && (x.hdl >= 1.0 ==> y.hdl >= 1.0)
    && (x.smoker ==> y.smoker)
    && (x.diabetes ==> y.diabetes)
    && (x.egfr < 60 ==> y.egfr < 60)
    && (x.crp > 2.0 ==> y.crp > 2.0)
    && x.vascCount <= y.vascCount
  }

  /** An input no less adverse in every factor never scores lower. */
  lemma ScoreMonotone(x: RiskFactors, y: RiskFactors)
    requires NoLessAdverse(x, y)
    ensures Score(x) <= Score(y)
  {
    ScoreClosedForm(x);
    ScoreClosedForm(y);
  }

  /** The input the page starts with: its score is 7.6. */
  lemma DefaultScore()
    ensures Score(RiskFactors(65, "Male", 140, 5.0, 1.0, false, false, 80, 2.0, 0)) == 7.6
  {
    ScoreClosedForm(RiskFactors(65, "Male", 140, 5.0, 1.0, false, false, 80, 2.0, 0));
  }

  /** Two more worked inputs with exact scores 4.3 and 3.6. */
  lemma LowInputScores()
    ensures Score(RiskFactors(30, "Male", 90, 2.0, 1.5, false, false, 80, 2.0, 0)) == 4.3
    ensures Score(RiskFactors(30, "Female", 90, 2.0, 3.0, false, false, 80, 2.0, 0)) == 3.6
  {
    ScoreClosedForm(RiskFactors(30, "Male", 90, 2.0, 1.5, false, false, 80, 2.0, 0));
    ScoreClosedForm(RiskFactors(30, "Female", 90, 2.0, 3.0, false, false, 80, 2.0, 0));
  }

  // ---------------------------------------------------------------------------
  // The percentage: inverse logit, then round(_, 1)
  // ---------------------------------------------------------------------------

  /**
    What is assumed of the floating-point inverse logit
    s |-> 100 * (1 / (1 + exp(-s))): it never decreases, it stays within
    [0, 100], and at 0 it is exactly 50 (exp(-0.0) is exactly 1.0).
  */
  ghost predicate IsPercentCurve(curve: real -> real) {
    && (forall s, t :: s <= t ==> curve(s) <= curve(t))
    && (forall s :: 0.0 <= curve(s) <= 100.0)
    && curve(0.0) == 50.0
  }

  /** A curve of the same shape, clamped and linear in the middle. */
  function ClampedCurve(s: real): real {
    if s <= -5.0 then 0.0 else if s >= 5.0 then 100.0 else 50.0 + 10.0 * s
  }

  /** The assumptions of IsPercentCurve can all be met together. */
  lemma PercentCurveExists()
    ensures IsPercentCurve(ClampedCurve)
  {
  }

  /**
    Rounding to the nearest integer, ties to the even neighbour: Python's
    rounding rule on the exact value it is given.
  */
  function RoundHalfEven(v: real): (n: int)
    ensures v - 0.5 <= n as real <= v + 0.5
    ensures n as real == v - 0.5 ==> n % 2 == 0
    ensures n as real == v + 0.5 ==> n % 2 == 0
  {
    var k := v.Floor;
    var frac := v - k as real;
    if frac < 0.5 then k
    else if frac > 0.5 then k + 1
    else if k % 2 == 0 then k
    else k + 1
  }

  /** Rounding to the nearest integer never reverses the order of two values. */
  lemma RoundHalfEvenMonotone(v: real, w: real)
    requires v <= w
    ensures RoundHalfEven(v) <= RoundHalfEven(w)
  {
    if v.Floor < w.Floor {
      assert RoundHalfEven(v) <= v.Floor + 1;
      assert w.Floor <= RoundHalfEven(w);
    }
  }

  /** An integer rounds to itself. */
  lemma RoundHalfEvenOfInt(k: int)
    ensures RoundHalfEven(k as real) == k
  {
    assert (k as real).Floor == k;
  }

  /** round(p, 1): `p` rounded to one decimal, ties to an even last digit. */
  function Round1(p: real): (r: real)
    ensures -0.05 <= r - p <= 0.05
    ensures (10.0 * r).Floor as real == 10.0 * r
    ensures (r - p == 0.05 || p - r == 0.05) ==> (10.0 * r).Floor % 2 == 0
  {
    RoundHalfEven(10.0 * p) as real / 10.0
  }

  /** Rounding to one decimal never reverses the order of two values. */
  lemma Round1Monotone(p: real, q: real)
    requires p <= q
    ensures Round1(p) <= Round1(q)
  {
    RoundHalfEvenMonotone(10.0 * p, 10.0 * q);
  }

  /** A value that already has one decimal is left as it is. */
  lemma Round1OfOneDecimal(k: int)
    ensures Round1(k as real / 10.0) == k as real / 10.0
  {
    assert 10.0 * (k as real / 10.0) == k as real;
    RoundHalfEvenOfInt(k);
  }

  /** Rounding to one decimal keeps a value in [lo, hi] when both bounds have one decimal. */
  lemma Round1Within(p: real, lo: int, hi: int)
    requires lo as real / 10.0 <= p <= hi as real / 10.0
    ensures lo as real / 10.0 <= Round1(p) <= hi as real / 10.0
  {
    Round1Monotone(lo as real / 10.0, p);
    Round1Monotone(p, hi as real / 10.0);
    Round1OfOneDecimal(lo);
    Round1OfOneDecimal(hi);
  }

  /** Exact ties go to the even last digit. */
  lemma Round1Ties()
    ensures Round1(12.45) == 12.4
    ensures Round1(12.55) == 12.6
  {
    assert (10.0 * 12.45).Floor == 124;
    assert (10.0 * 12.55).Floor == 125;
  }

  /** The returned percentage of an input. */
  function Risk(curve: real -> real, x: RiskFactors): (r: real)
    requires IsPercentCurve(curve)
    ensures 0.0 <= r <= 100.0
  {
    Round1Within(curve(Score(x)), 0, 1000);
    Round1(curve(Score(x)))
  }

  /** The percentage never falls when the score rises. */
  lemma RiskMonotoneInScore(curve: real -> real, x: RiskFactors, y: RiskFactors)
    requires IsPercentCurve(curve)
    requires Score(x) <= Score(y)
    ensures Risk(curve, x) <= Risk(curve, y)
  {
    Round1Monotone(curve(Score(x)), curve(Score(y)));
  }

  /** An input no less adverse in every factor never gets a lower percentage. */
  lemma RiskMonotone(curve: real -> real, x: RiskFactors, y: RiskFactors)
    requires IsPercentCurve(curve)
    requires NoLessAdverse(x, y)
    ensures Risk(curve, x) <= Risk(curve, y)
  {
    ScoreMonotone(x, y);
    RiskMonotoneInScore(curve, x, y);
  }

  /** A non-negative score gives at least 50 percent. */
  lemma PositiveScoreAtLeastHalf(curve: real -> real, x: RiskFactors)
    requires IsPercentCurve(curve)
    requires Score(x) >= 0.0
    ensures Risk(curve, x) >= 50.0
  {
    Round1Within(curve(Score(x)), 500, 1000);
  }

  /**
    calculate_smart_risk: accumulates the ten terms into a local score in
    table order, then squashes and rounds it.
  */
  method CalculateSmartRisk(
    age: int, sex: string, sbp: int, totalChol: real, hdl: real,
    smoker: bool, diabetes: bool, egfr: int, crp: real, vascCount: int,
    curve: real -> real)
    returns (riskPercent: real)
    requires IsPercentCurve(curve)
    ensures riskPercent
      == Risk(curve, RiskFactors(age, sex, sbp, totalChol, hdl, smoker, diabetes, egfr, crp, vascCount))
    ensures 0.0 <= riskPercent <= 100.0
    ensures (10.0 * riskPercent).Floor as real == 10.0 * riskPercent
  {
    var riskScore: real := 0.0;
    riskScore := riskScore + age as real * Coefficient(Age);
    riskScore := riskScore + (if sex == "Male" then Coefficient(Male) else 0.0);
    riskScore := riskScore + sbp as real * Coefficient(Sbp);
    riskScore := riskScore + totalChol * Coefficient(TotalChol);
    riskScore := riskScore + (if hdl < 1.0 then Coefficient(LowHdl) else 0.0);
    riskScore := riskScore + (if smoker then Coefficient(Smoker) else 0.0);
    riskScore := riskScore + (if diabetes then Coefficient(Diabetes) else 0.0);
    riskScore := riskScore + (if egfr < 60 then Coefficient(LowEgfr) else 0.0);
    riskScore := riskScore + (if crp > 2.0 then Coefficient(ElevatedCrp) else 0.0);
    riskScore := riskScore + vascCount as real * Coefficient(VascularDisease);
    ghost var x := RiskFactors(age, sex, sbp, totalChol, hdl, smoker, diabetes, egfr, crp, vascCount);
    assert riskScore == Score(x) by {
      ScoreClosedForm(x);
    }
    riskPercent := Round1(curve(riskScore));
  }
}
