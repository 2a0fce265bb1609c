/**
  The health-metrics page (app/health-metrics/page.tsx): its quick BMI
  calculator, the colour and advice chosen from the DISPLAYED (rounded) BMI,
  the recommendation keyed by category, the activity-level description, the
  metrics recomputed whenever the profile changes, and the loading / sign-in
  gate in front of it all.
*/
module HealthMetrics {
  import opened Js
  import opened UserTypes
  import opened UserProfile

  /** Colour classes of the quick calculator's category pill, in band order. */
  const CalculatorPalette: seq<string> := [
    "bg-blue-100 text-blue-800 border-blue-300",
    "bg-green-100 text-green-800 border-green-300",
    "bg-yellow-100 text-yellow-800 border-yellow-300",
    "bg-red-100 text-red-800 border-red-300"]

  /** Colour classes of the profile BMI card's category pill, in band order. */
  const CardPalette: seq<string> := [
    "text-blue-600 bg-blue-50",
    "text-green-600 bg-green-50",
    "text-yellow-600 bg-yellow-50",
    "text-red-600 bg-red-50"]

  /** The quick calculator's `getBMIColor`: the palette entry of the band of `bmi`. */
  function CalculatorColour(bmi: real): (c: string)
    ensures c == CalculatorPalette[Rank(BandOf(bmi))]
  {
    if bmi < 18.5 then "bg-blue-100 text-blue-800 border-blue-300"
    else if bmi < 25.0 then "bg-green-100 text-green-800 border-green-300"
    else if bmi < 30.0 then "bg-yellow-100 text-yellow-800 border-yellow-300"
    else "bg-red-100 text-red-800 border-red-300"
  }

  /** The page's `getBMIColor`: the palette entry of the band of `bmi`. */
  function CardColour(bmi: real): (c: string)
    ensures c == CardPalette[Rank(BandOf(bmi))]
  {
    if bmi < 18.5 then "text-blue-600 bg-blue-50"
    else if bmi < 25.0 then "text-green-600 bg-green-50"
    else if bmi < 30.0 then "text-yellow-600 bg-yellow-50"
    else "text-red-600 bg-red-50"
  }

  /**
    Both colour functions are fed the rounded `bmi` of a result whose category
    came from the raw value: a raw BMI of 24.96 shows "Normal weight" in the
    overweight (yellow) colour.
  */
  lemma ColourDisagreesWithCategory()
    ensures CalculateBMI(24.96, 100.0).category == "Normal weight"
    ensures CardColour(CalculateBMI(24.96, 100.0).bmi) == "text-yellow-600 bg-yellow-50"
    ensures CalculatorColour(CalculateBMI(24.96, 100.0).bmi) == "bg-yellow-100 text-yellow-800 border-yellow-300"
  {
    BandingUsesRawValue();
  }

  /**
    In general the colour is the category's own colour or the next heavier
    one, and it is the heavier one exactly when the raw BMI lies within 0.05
    under a band threshold.
  */
  lemma {:induction false} ColourFollowsCategoryUnlessNearThreshold(weight: real, height: real)
    requires height != 0.0
    ensures var r := CalculateBMI(weight, height);
      var i := Rank(BandOf(RawBMI(weight, height)));
      (CardColour(r.bmi) == CardPalette[i] <==> !NearThreshold(RawBMI(weight, height)))
      && (NearThreshold(RawBMI(weight, height)) ==> i < 3 && CardColour(r.bmi) == CardPalette[i + 1])
  {
    RoundedBandAtMostOneAbove(RawBMI(weight, height));
  }

  /** The quick calculator's advice sentences, in band order. */
  const CalculatorAdvice: seq<string> := [
    "Consider consulting a healthcare provider about healthy weight gain.",
    "Great! You're in the healthy weight range.",
    "Consider a balanced diet and regular exercise.",
    "Consult with a healthcare provider for personalized guidance."]

  /**
    The four guarded advice fragments the quick calculator renders for a
    displayed `bmi`: the guards cover every value exactly once.
  */
  function CalculatorAdviceLines(bmi: real): (lines: seq<string>)
    ensures lines == [CalculatorAdvice[Rank(BandOf(bmi))]]
  {
    (if bmi < 18.5 then [CalculatorAdvice[0]] else [])
    + (if bmi >= 18.5 && bmi < 25.0 then [CalculatorAdvice[1]] else [])
    + (if bmi >= 25.0 && bmi < 30.0 then [CalculatorAdvice[2]] else [])
    + (if bmi >= 30.0 then [CalculatorAdvice[3]] else [])
  }

  /** Recommendations shown under the BMI card, in category order. */
  const Recommendations: seq<string> := [
    "Consider consulting a healthcare provider about healthy weight gain strategies.",
    "Great job! Maintain your healthy lifestyle with balanced nutrition and regular exercise.",
    "Consider a balanced diet and regular physical activity to reach a healthier weight.",
    "Consult with a healthcare provider for personalized guidance on healthy weight management."]

  /** `getBMIRecommendation`: the message of a known category, `""` for anything else. */
  function Recommendation(category: string): (m: string)
    ensures forall i :: 0 <= i < |Categories| && Categories[i] == category ==> m == Recommendations[i]
    ensures category !in Categories ==> m == ""
  {
    match category
    case "Underweight" => Recommendations[0]
    case "Normal weight" => Recommendations[1]
    case "Overweight" => Recommendations[2]
    case "Obese" => Recommendations[3]
    case _ => ""
  }

  /** Every category `calculateBMI` produces has a non-empty recommendation. */
  lemma RecommendationAlwaysShown(weight: real, height: real)
    requires height != 0.0
    ensures Recommendation(CalculateBMI(weight, height).category) != ""
  {
  }

  /** Descriptions of the activity levels, in `ActivityLevels` order. */
  const ActivityDescriptions: seq<string> := [
    "Little or no exercise",
    "Exercise 1-3 days/week",
    "Exercise 3-5 days/week",
    "Exercise 6-7 days/week",
    "Intense exercise daily"]

  /** `getActivityLevelDescription`: the fixed description of a known level, otherwise the level itself. */
  function ActivityDescription(level: string): (d: string)
    ensures forall i :: 0 <= i < |ActivityLevels| && ActivityLevels[i] == level ==> d == ActivityDescriptions[i]
    ensures level !in ActivityLevels ==> d == level
    ensures d == "" <==> level == ""
  {
    if level == "sedentary" then "Little or no exercise"
    else if level == "light" then "Exercise 1-3 days/week"
    else if level == "moderate" then "Exercise 3-5 days/week"
    else if level == "active" then "Exercise 6-7 days/week"
    else if level == "very_active" then "Intense exercise daily"
    else level
  }

  /** The quick BMI calculator: two inputs and the last result. */
  class ManualBMICalculator {
    var weight: real
    var height: real
    var result: Option<BMIData>

    constructor ()
      ensures weight == 70.0 && height == 170.0 && result == None
    {
      weight, height, result := 70.0, 170.0, None;
    }

    method SetWeight(w: real)
      modifies this
      ensures weight == w && height == old(height) && result == old(result)
    {
      weight := w;
    }

    method SetHeight(h: real)
      modifies this
      ensures height == h && weight == old(weight) && result == old(result)
    {
      height := h;
    }

    /** `handleCalculate`: a new result only for positive inputs; otherwise the old one stays. */
    method Calculate()
      modifies this
      ensures weight == old(weight) && height == old(height)
      ensures weight > 0.0 && height > 0.0 ==> result == Some(CalculateBMI(weight, height))
      ensures !(weight > 0.0 && height > 0.0) ==> result == old(result)
    {
      if weight > 0.0 && height > 0.0 {
        result := Some(CalculateBMI(weight, height));
      }
    }

    /** The rendered advice: one sentence for the displayed result, none before the first. */
    function Advice(): (lines: seq<string>)
      reads this
      ensures result.None? ==> lines == []
      ensures result.Some? ==> |lines| == 1 && lines[0] in CalculatorAdvice
      ensures result.Some? ==> lines == [CalculatorAdvice[Rank(BandOf(result.value.bmi))]]
    {
      if result.Some? then CalculatorAdviceLines(result.value.bmi) else []
    }
  }

  /** What the BMI card shows. */
  datatype BmiCard = BmiCard(bmi: real, colour: string, category: string, recommendation: string)

  /** What the page renders. */
  datatype View =
    | LoadingPlaceholder
    | Redirect(path: string)
    | CompleteProfilePrompt
    | Metrics(bmiCard: Option<BmiCard>, calorieCard: bool, activityText: string)

  /** The page's state: the metrics derived from the profile. */
  class HealthMetricsPage {
    var bmiData: Option<BMIData>

    constructor ()
      ensures bmiData == None
    {
      bmiData := None;
    }

    /** The effect run on every profile change: metrics replaced only when weight and height are truthy. */
    method OnProfileChange(profile: Option<Profile>)
      modifies this
      ensures profile.Some? && ProfileMetrics(profile.value).Some? ==> bmiData == ProfileMetrics(profile.value)
      ensures profile.None? || ProfileMetrics(profile.value).None? ==> bmiData == old(bmiData)
    {
      if profile.Some? && TruthyNumber(profile.value.weight) && TruthyNumber(profile.value.height) {
        bmiData := ProfileMetrics(profile.value);
      }
    }

    /**
      The rendered page: a placeholder while loading (no redirect), a redirect
      to /auth once loading ends without a user, the profile prompt while
      weight or height is missing, and otherwise the metric cards, the calorie
      card only for a positive calorie figure.
    */
    function Render(loading: bool, signedIn: bool, profile: Option<Profile>): (v: View)
      reads this
      ensures loading <==> v == LoadingPlaceholder
      ensures v == Redirect("/auth") <==> !loading && !signedIn
      ensures v == CompleteProfilePrompt <==>
        !loading && signedIn && !(profile.Some? && TruthyNumber(profile.value.weight) && TruthyNumber(profile.value.height))
      ensures v.Metrics? ==> (v.calorieCard <==> bmiData.Some? && bmiData.value.dailyCalories > 0)
      ensures v.Metrics? ==> (v.bmiCard.Some? <==> bmiData.Some?)
      ensures v.Metrics? && bmiData.Some? ==>
        v.bmiCard.value.bmi == bmiData.value.bmi
        && v.bmiCard.value.category == bmiData.value.category
        && v.bmiCard.value.recommendation == Recommendation(bmiData.value.category)
        && v.bmiCard.value.colour == CardColour(bmiData.value.bmi)
      ensures v.Metrics? ==>
        v.activityText == ActivityDescription(if profile.value.activityLevel.Some? then profile.value.activityLevel.value else "")
    {
      if loading then LoadingPlaceholder
      else if !signedIn then Redirect("/auth")
      else if !(profile.Some? && TruthyNumber(profile.value.weight) && TruthyNumber(profile.value.height)) then
        CompleteProfilePrompt
      else
        var card := if bmiData.Some? then
            Some(BmiCard(bmiData.value.bmi, CardColour(bmiData.value.bmi), bmiData.value.category,
                         Recommendation(bmiData.value.category)))
          else None;
        var level := if profile.value.activityLevel.Some? then profile.value.activityLevel.value else "";
        Metrics(card, bmiData.Some? && bmiData.value.dailyCalories > 0, ActivityDescription(level))
    }
  }

  /**
    The calorie card appears only for a profile with truthy age, gender and
    activity level: the metrics of any other profile carry 0 calories.
  */
  lemma CalorieCardNeedsCompleteProfile(p: Profile)
    requires ProfileMetrics(p).Some? && ProfileMetrics(p).value.dailyCalories > 0
    ensures TruthyNumber(p.age) && TruthyString(p.gender) && TruthyString(p.activityLevel)
  {
  }
}
