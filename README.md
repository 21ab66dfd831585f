# PRIME CVD risk calculator: scoring rule and page decisions

This project models the two parts of the PRIME CVD Risk Calculator that make
decisions:

- `calculations.py`, the function `calculate_smart_risk`. It adds ten weighted
  terms into a local score, one `+=` per entry of its coefficient table. It
  then turns the score into a percentage with the inverse logit and rounds that
  to one decimal. The model is the method `Calculations.CalculateSmartRisk`,
  with the same local accumulator. It is proved equal to the specification
  function `Calculations.Risk`, which is built on `Calculations.Score`: the sum
  of the table's contributions, over exact reals.
- `main.py`, its decision logic. This is the vascular-disease count, the check
  that stops the page when LDL-C is below HDL-C, and the three risk categories
  with their interpretation texts. It is modelled as pure functions in module
  `MainPage`. `MainPage.Assess` is one press of "Calculate Risk".

The floating-point inverse logit `100 * (1 / (1 + exp(-s)))` is a parameter
`curve`. The model assumes only what `Calculations.IsPercentCurve` states: the
curve never decreases, stays within [0, 100], and is exactly 50 at 0.
`Calculations.PercentCurveExists` shows that these assumptions can all hold at
once. `round(_, 1)` is modelled as rounding to one decimal with ties
to the even digit, applied to the exact value.

Proved consequences worth knowing:

- For values the sidebar widgets allow, the score always lies between 3.2 and
  15.5, and both ends are reached. Because the curve is 50 at 0, every form that
  passes the LDL/HDL check is assessed at 50 % or more. Its category is
  therefore always "high", and the "medium" and "low" branches of the page
  cannot be reached.
- HDL below 1.0 has coefficient −0.4. So lowering HDL across 1.0 lowers the
  score, and HDL of 1.0 or more scores exactly as 1.0 does.
- Scores of three worked inputs are proved exactly: 7.6 for the page's default
  values, 4.3, and 3.6. The last one uses HDL 3.0. With HDL below 1.0 the
  lowest score is 3.2, not 3.6.

## Model

| member | source | states |
|---|---|---|
| `Calculations.Coefficient` | calculations.py:36-47 | the coefficient table. No contract of its own; `CoefficientSigns` states its signs and `ScoreClosedForm` its values |
| `Calculations.CoefficientSigns` | calculations.py:36-47 | every coefficient is non-zero, and only the low-HDL one is negative |
| `Calculations.Contribution` | calculations.py:51-60 | the term one table entry adds. No contract of its own; `ScoreClosedForm` and the per-factor lemmas below state what each term adds |
| `Calculations.Score` | calculations.py:50-60 | the accumulated score: the sum of all ten contributions. No contract of its own; `ScoreClosedForm`, `ScoreOneFactor` and `ScoreMonotone` state its properties |
| `Calculations.ScoreClosedForm` | calculations.py:36-60 | the score is exactly 0.04·age + 0.7 if sex is "Male" + 0.02·SBP + 0.3·total cholesterol − 0.4 if HDL < 1.0 + 0.6 if smoker + 0.8 if diabetes + 0.5 if eGFR < 60 + 0.3 if CRP > 2.0 + 0.4·vascular count |
| `Calculations.SumOverOneFactor` | calculations.py:50-60 | if two inputs differ in one table entry only, their sums over distinct entries differ by that entry's change when it is listed, and by nothing otherwise |
| `Calculations.ScoreOneFactor` | calculations.py:50-60 | changing one factor, all else fixed, changes the score by exactly that factor's change in contribution |
| `Calculations.AgeEffect` | calculations.py:51 | each year of age adds exactly 0.04, so the score never falls as age rises |
| `Calculations.MaleEffect` | calculations.py:52 | "Male" scores exactly 0.7 above any other sex value, "Female" included |
| `Calculations.SbpEffect` | calculations.py:53 | each mmHg of SBP adds exactly 0.02, so the score never falls as SBP rises |
| `Calculations.TotalCholEffect` | calculations.py:54 | each mmol/L of total cholesterol adds exactly 0.3, so the score never falls as it rises |
| `Calculations.HdlEffect` | calculations.py:55 | HDL strictly below 1.0 scores exactly 0.4 below HDL 1.0. HDL of 1.0 or more, 1.0 itself included, scores as 1.0 does. The score never falls as HDL rises |
| `Calculations.SmokerEffect` | calculations.py:56 | smoking adds exactly 0.6 |
| `Calculations.DiabetesEffect` | calculations.py:57 | diabetes adds exactly 0.8 |
| `Calculations.EgfrEffect` | calculations.py:58 | eGFR strictly below 60 adds exactly 0.5 over eGFR 60. eGFR of 60 or more scores as 60 does. The score never rises as eGFR rises |
| `Calculations.CrpEffect` | calculations.py:59 | CRP strictly above 2.0 adds exactly 0.3 over CRP 2.0. CRP of 2.0 or less scores as 2.0 does. The score never falls as CRP rises |
| `Calculations.VascCountEffect` | calculations.py:60 | each vascular disease adds exactly 0.4, so the score never falls as the count rises |
| `Calculations.ScoreMonotone` | calculations.py:50-60 | an input at least as adverse in every factor, in that factor's direction, never scores lower |
| `Calculations.DefaultScore` | calculations.py:50-60 | the page's default values (age 65, Male, SBP 140, TC 5.0, HDL 1.0, no flags, eGFR 80, CRP 2.0, no vascular disease) score exactly 7.6 |
| `Calculations.LowInputScores` | calculations.py:50-60 | two low inputs score exactly 4.3 and 3.6 |
| `Calculations.IsPercentCurve` | calculations.py:63 | what is assumed of the floating-point inverse logit: it never decreases, stays within [0, 100], and is exactly 50 at 0. `PercentCurveExists` shows these can all hold |
| `Calculations.PercentCurveExists` | calculations.py:63 | the assumptions made of the inverse logit (never decreasing, within [0, 100], 50 at 0) can all be met |
| `Calculations.RoundHalfEven` | calculations.py:65 | the result is an integer within 0.5 of the value, and an exact tie goes to the even integer |
| `Calculations.RoundHalfEvenMonotone` | calculations.py:65 | rounding to an integer never reverses the order of two values |
| `Calculations.RoundHalfEvenOfInt` | calculations.py:65 | an integer rounds to itself |
| `Calculations.Round1` | calculations.py:65 | the result is within 0.05 of the value and has one decimal (ten times it is an integer) |
| `Calculations.Round1Monotone` | calculations.py:65 | rounding to one decimal never reverses the order of two values |
| `Calculations.Round1OfOneDecimal` | calculations.py:65 | a value that already has one decimal is returned unchanged |
| `Calculations.Round1Within` | calculations.py:65 | a value between two one-decimal bounds still lies between them after rounding |
| `Calculations.Round1Ties` | calculations.py:65 | exact ties go to the even last digit: 12.45 gives 12.4 and 12.55 gives 12.6 |
| `Calculations.Risk` | calculations.py:32-33 | the returned percentage lies in [0, 100] |
| `Calculations.RiskMonotoneInScore` | calculations.py:63-65 | the percentage never falls as the score rises |
| `Calculations.RiskMonotone` | calculations.py:50-65 | an input at least as adverse in every factor never gets a lower percentage |
| `Calculations.PositiveScoreAtLeastHalf` | calculations.py:63-65 | a score of 0 or more gives a percentage of at least 50 |
| `Calculations.CalculateSmartRisk` | calculations.py:5-65 | accumulating the ten terms one by one and squashing and rounding the total gives `Risk` of the arguments. The result lies in [0, 100] and has one decimal |
| `MainPage.WithinWidgetBounds` | main.py:39-100 | the bounds the sidebar widgets put on their values: age 30..100, sex "Male" or "Female", total cholesterol 2.0..10.0, HDL 0.5..3.0, LDL 0.5..6.0, SBP 90..220, eGFR 15..120, CRP 0.1..20.0. `ScorerInputRanges`, `ScoreRange` and `EveryAssessmentIsHigh` use it |
| `MainPage.ScorerInput` | main.py:115-118 | the arguments passed to the scorer: every form field but LDL, plus the vascular count. `ScorerInputRanges` and `LdlOnlyGates` state its properties |
| `MainPage.VascCount` | main.py:54 | the count is the number of true flags among CAD, stroke/TIA and PAD, so it lies in 0..3 |
| `MainPage.Categorize` | main.py:121-129 | high iff the percentage is at least 20. Medium iff it is at least 10 and below 20. Low iff it is below 10 |
| `MainPage.CategoryName` | main.py:122-128 | the names "high", "medium" and "low". `CategoryTextsDistinct` shows they differ |
| `MainPage.Interpretation` | main.py:123-129 | one fixed interpretation text per category, so the text depends on the category alone. `CategoryTextsDistinct` shows the three differ |
| `MainPage.LipidError` | main.py:104 | the message shown when LDL-C is below HDL-C. `Assess` states that the page stops with it exactly when LDL < HDL |
| `MainPage.CategorizeMonotone` | main.py:121-129 | a higher percentage never gets a lower category |
| `MainPage.CategoryTextsDistinct` | main.py:121-129 | different categories have different names and different interpretation texts |
| `MainPage.Assess` | main.py:103-129 | the page stops with the LDL-C error iff LDL < HDL. Otherwise it assesses the score of every field but LDL, with the vascular count, into a percentage in [0, 100], that percentage's category and the interpretation of that category |
| `MainPage.LdlOnlyGates` | main.py:103-118 | once LDL ≥ HDL, the value of LDL does not change the outcome |
| `MainPage.ScorerInputRanges` | main.py:39-100 | values within the widget bounds reach the scorer within the same bounds: age 30..100, sex "Male" or "Female", SBP 90..220, total cholesterol 2.0..10.0, HDL 0.5..3.0, eGFR 15..120, CRP 0.1..20.0, and a vascular count of 0..3 |
| `MainPage.ScoreRange` | main.py:39-100 | values within the widget bounds score between 3.2 and 15.5 |
| `MainPage.ScoreRangeTight` | main.py:39-100 | the bounds 3.2 and 15.5 are both reached by values within the widget bounds |
| `MainPage.EveryAssessmentIsHigh` | main.py:103-129 | every form within the widget bounds that passes the LDL/HDL check is assessed at 50 % or more, in the high category |

## Left out

- The Streamlit page itself is not modelled: page setup, CSS and HTML, columns, tabs, metrics, buttons, the spinner, and the "LDL Management" and "Recommendations" tabs. `MainPage.Assess` stands for one press of "Calculate Risk"; the rerun-driven widget state is not modelled.
- The `@st.cache_data` memoisation is left out. It changes nothing a caller can observe.
- `math.exp` and the floating-point inverse logit are the parameter `curve`. Floating point cannot be reproduced over reals.
- Calculations.Risk: does not model the OverflowError that `math.exp(-risk_score)` raises when the score is below about −709.78. `curve` is total, so the model returns a percentage there. Over the widget bounds the score is at least 3.2 (`MainPage.ScoreRange`), so the page never reaches that case. `Calculations.CalculateSmartRisk` inherits the same gap.
- Calculations.Risk: assumes the inverse logit never decreases, not that it strictly increases. In floating point it reaches 100.0 for large scores. So no lemma says that a strictly higher score gives a strictly higher percentage. After rounding to one decimal that would be false anyway.
- The sum is taken over exact reals, so binary-float rounding error is not modelled (`65 * 0.04` is not exactly 2.6 in IEEE-754). `round(_, 1)` is modelled as ties-to-even on the exact value. Python rounds the binary value, and that value is almost never an exact decimal tie.
- The report (pdf_generator.py) is left out. It only formats values into fixed labels through FPDF, encodes to latin-1, and returns bytes. The date-stamped download file name uses the wall clock.
- utils.py (loading the logo image from disk) is file I/O.
- Widget values are modelled as the numbers they return. The 0.1 step of the number inputs is not modelled.
