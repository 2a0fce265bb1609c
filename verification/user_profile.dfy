/**
  The health-metric engine (lib/firebase/userProfile.ts): body-mass index with
  its four-band category, and the Mifflin-St Jeor daily calorie estimate scaled
  by an activity multiplier. Also the composition both consumers perform on a
  stored profile: BMI when weight and height are present, calories added when
  age, gender and activity level are present too.
*/
module UserProfile {
  import opened Js
  import opened UserTypes

  /** The four BMI bands. */
  datatype Band = Underweight | NormalWeight | Overweight | Obese

  /** Position of a band, from lightest to heaviest. */
  function Rank(b: Band): nat
  {
    match b
    case Underweight => 0
    case NormalWeight => 1
    case Overweight => 2
    case Obese => 3
  }

  /**
    The threshold chain 18.5 / 25 / 30 that the category and every BMI colour
    use: half-open bands, lower bound inclusive.
  */
  function BandOf(bmi: real): (b: Band)
    ensures b == Underweight <==> bmi < 18.5
    ensures b == NormalWeight <==> 18.5 <= bmi < 25.0
    ensures b == Overweight <==> 25.0 <= bmi < 30.0
    ensures b == Obese <==> 30.0 <= bmi
  {
    if bmi < 18.5 then Underweight
    else if bmi < 25.0 then NormalWeight
    else if bmi < 30.0 then Overweight
    else Obese
  }

  /** The category labels, in band order. */
  const Categories: seq<string> := ["Underweight", "Normal weight", "Overweight", "Obese"]

  function CategoryName(b: Band): string
  {
    Categories[Rank(b)]
  }

  /** Unrounded BMI: weight in kilograms over the square of the height in metres. */
  function RawBMI(weight: real, height: real): (bmi: real)
    requires height != 0.0
    ensures bmi * (height * height) == weight * 10000.0
  {
    var metres := height / 100.0;
    weight / (metres * metres)
  }

  /**
    `calculateBMI`: the category is chosen on the UNROUNDED value, the returned
    `bmi` is that value rounded to one decimal, and `dailyCalories` is 0.
  */
  function CalculateBMI(weight: real, height: real): (r: BMIData)
    requires height != 0.0
    ensures r.category in Categories
    ensures r.category == "Underweight" <==> RawBMI(weight, height) < 18.5
    ensures r.category == "Normal weight" <==> 18.5 <= RawBMI(weight, height) < 25.0
    ensures r.category == "Overweight" <==> 25.0 <= RawBMI(weight, height) < 30.0
    ensures r.category == "Obese" <==> 30.0 <= RawBMI(weight, height)
    ensures IsTenth(r.bmi) && -0.05 <= r.bmi - RawBMI(weight, height) <= 0.05
    ensures r.dailyCalories == 0
  {
    var bmi := RawBMI(weight, height);
    BMIData(ToFixed1(bmi), CategoryName(BandOf(bmi)), 0)
  }

  /** Mifflin-St Jeor basal metabolic rate; every gender but exactly "male" takes the female constant. */
  function BMR(weight: real, height: real, age: real, gender: string): (b: real)
    ensures b - (10.0 * weight + 6.25 * height - 5.0 * age) == (if gender == "male" then 5.0 else -161.0)
  {
    if gender == "male" then 10.0 * weight + 6.25 * height - 5.0 * age + 5.0
    else 10.0 * weight + 6.25 * height - 5.0 * age - 161.0
  }

  /** The activity levels with a multiplier of their own, and those multipliers. */
  const ActivityLevels: seq<string> := ["sedentary", "light", "moderate", "active", "very_active"]
  const Multipliers: seq<real> := [1.2, 1.375, 1.55, 1.725, 1.9]

  /** The multiplier table lookup with its `|| 1.2` fallback. */
  function ActivityMultiplier(level: string): (m: real)
    ensures forall i :: 0 <= i < |ActivityLevels| && ActivityLevels[i] == level ==> m == Multipliers[i]
    ensures level !in ActivityLevels ==> m == 1.2
  {
    if level == "sedentary" then 1.2
    else if level == "light" then 1.375
    else if level == "moderate" then 1.55
    else if level == "active" then 1.725
    else if level == "very_active" then 1.9
    else 1.2
  }

  /** `calculateDailyCalories`: the nearest integer (halves up) to BMR times the multiplier. */
  function CalculateDailyCalories(weight: real, height: real, age: real, gender: string, level: string): (kcal: int)
    ensures var e := BMR(weight, height, age, gender) * ActivityMultiplier(level);
      e - 0.5 < kcal as real <= e + 0.5
  {
    Round(BMR(weight, height, age, gender) * ActivityMultiplier(level))
  }

  /** Any gender other than "male", "other" included, gets the female formula, 166 below the male one. */
  lemma NonMaleUsesFemaleFormula(weight: real, height: real, age: real, gender: string)
    requires gender != "male"
    ensures BMR(weight, height, age, gender) == BMR(weight, height, age, "female")
    ensures BMR(weight, height, age, "male") - BMR(weight, height, age, gender) == 166.0
  {
  }

  /** The multipliers rise strictly with the activity level; unknown levels count as sedentary. */
  lemma MultiplierOrdering(i: nat, j: nat, unknown: string)
    requires i < j < |ActivityLevels|
    requires unknown !in ActivityLevels
    ensures ActivityMultiplier(ActivityLevels[i]) < ActivityMultiplier(ActivityLevels[j])
    ensures ActivityMultiplier(unknown) == ActivityMultiplier("sedentary")
  {
  }

  /** Worked estimates: 70 kg, 175 cm, 25 years, moderate activity. */
  lemma DailyCaloriesExamples()
    ensures BMR(70.0, 175.0, 25.0, "male") == 1673.75
    ensures CalculateDailyCalories(70.0, 175.0, 25.0, "male", "moderate") == 2594
    ensures CalculateDailyCalories(70.0, 175.0, 25.0, "female", "moderate") == 2337
    ensures CalculateDailyCalories(70.0, 175.0, 25.0, "other", "extreme") == 1809
  {
  }

  /** Worked classifications at 170 cm. */
  lemma BMIExamples()
    ensures CalculateBMI(70.0, 170.0) == BMIData(24.2, "Normal weight", 0)
    ensures CalculateBMI(50.0, 170.0) == BMIData(17.3, "Underweight", 0)
    ensures CalculateBMI(85.0, 170.0) == BMIData(29.4, "Overweight", 0)
    ensures CalculateBMI(100.0, 170.0) == BMIData(34.6, "Obese", 0)
  {
  }

  /** A raw BMI of 24.96 is displayed as 25.0 yet classified "Normal weight". */
  lemma BandingUsesRawValue()
    ensures RawBMI(24.96, 100.0) == 24.96
    ensures CalculateBMI(24.96, 100.0) == BMIData(25.0, "Normal weight", 0)
  {
  }

  /**
    Lower bound inclusive at 170 cm: 53.465 kg gives a raw BMI of exactly 18.5,
    which is "Normal weight"; 53.46 kg, a hair below, is "Underweight".
  */
  lemma LowerBoundInclusive()
    ensures RawBMI(53.465, 170.0) == 18.5
    ensures CalculateBMI(53.465, 170.0) == BMIData(18.5, "Normal weight", 0)
    ensures CalculateBMI(53.46, 170.0).category == "Underweight"
  {
  }

  /** With the height fixed, raw BMI strictly increases with weight. */
  lemma BMIIncreasesWithWeight(w1: real, w2: real, height: real)
    requires height != 0.0 && w1 < w2
    ensures RawBMI(w1, height) < RawBMI(w2, height)
  {
  }

  /**
    With the other inputs fixed, daily calories never decrease with weight,
    and a gain of at least 0.1 kg raises them strictly.
  */
  lemma DailyCaloriesMonotoneInWeight(w1: real, w2: real, height: real, age: real, gender: string, level: string)
    requires w1 <= w2
    ensures CalculateDailyCalories(w1, height, age, gender, level) <= CalculateDailyCalories(w2, height, age, gender, level)
    ensures w1 + 0.1 <= w2 ==>
      CalculateDailyCalories(w1, height, age, gender, level) < CalculateDailyCalories(w2, height, age, gender, level)
  {
  }

  /**
    The band of the displayed (rounded) BMI is never below the band of the raw
    value, and it is exactly one band higher precisely when the raw value lies
    within 0.05 under a threshold: the only way colour and caption, chosen on
    the rounded value, can disagree with the category.
  */
  lemma {:induction false} RoundedBandAtMostOneAbove(raw: real)
    ensures Rank(BandOf(ToFixed1(raw))) == Rank(BandOf(raw)) || Rank(BandOf(ToFixed1(raw))) == Rank(BandOf(raw)) + 1
    ensures Rank(BandOf(ToFixed1(raw))) == Rank(BandOf(raw)) + 1 <==> NearThreshold(raw)
  {
    ToFixed1AgainstThreshold(raw, 18.5);
    ToFixed1AgainstThreshold(raw, 25.0);
    ToFixed1AgainstThreshold(raw, 30.0);
  }

  /** Within 0.05 under one of the band thresholds. */
  predicate NearThreshold(raw: real)
  {
    (18.45 <= raw < 18.5) || (24.95 <= raw < 25.0) || (29.95 <= raw < 30.0)
  }

  /**
    The metrics composition of the health-metrics page and the profile form:
    nothing unless weight and height are truthy; calories filled only when
    age, gender and activity level are all truthy, otherwise left at 0.
  */
  function ProfileMetrics(p: Profile): (r: Option<BMIData>)
    ensures r.Some? <==> TruthyNumber(p.weight) && TruthyNumber(p.height)
    ensures r.Some? ==> r.value.bmi == CalculateBMI(p.weight.value, p.height.value).bmi
    ensures r.Some? ==> r.value.category == CalculateBMI(p.weight.value, p.height.value).category
    ensures r.Some? && r.value.dailyCalories != 0 ==>
      TruthyNumber(p.age) && TruthyString(p.gender) && TruthyString(p.activityLevel)
    ensures r.Some? && TruthyNumber(p.age) && TruthyString(p.gender) && TruthyString(p.activityLevel) ==>
      r.value.dailyCalories == CalculateDailyCalories(p.weight.value, p.height.value, p.age.value, p.gender.value, p.activityLevel.value)
  {
    if TruthyNumber(p.weight) && TruthyNumber(p.height) then
      var bmi := CalculateBMI(p.weight.value, p.height.value);
      if TruthyNumber(p.age) && TruthyString(p.gender) && TruthyString(p.activityLevel) then
        Some(bmi.(dailyCalories := CalculateDailyCalories(p.weight.value, p.height.value, p.age.value, p.gender.value, p.activityLevel.value)))
      else
        Some(bmi)
    else
      None
  }
}
