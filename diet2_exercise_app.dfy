/** The metric functions of the second planner script: BMI with an 8-way
    category, daily calories by the Mifflin-St Jeor equation, the macronutrient
    split, exercise and diet suggestions, and the water target.

    The script displays the ROUNDED BMI and passes it to SuggestExercise,
    while the category is taken from the unrounded value; near a threshold
    (an unrounded 24.996, say) the two may therefore disagree. That wiring
    lives in the script's top level, not in these functions, and is not
    modelled. */
module Diet2App {
  import opened PyBuiltins
  import opened Bands

  // ---------------------------------------------------------------- BMI

  /** The eight BMI categories, from lightest to heaviest. */
  datatype Category =
    | SeverelyUnderweight
    | ModeratelyUnderweight
    | MildlyUnderweight
    | HealthyWeight
    | Overweight
    | ObeseClass1
    | ObeseClass2
    | SeverelyObese

  /** The text the script reports for each category. */
  function Label(c: Category): (text: string)
    ensures text in DietAdvice
  {
    match c
    case SeverelyUnderweight => "Severely Underweight"
    case ModeratelyUnderweight => "Moderately Underweight"
    case MildlyUnderweight => "Mildly Underweight"
    case HealthyWeight => "Healthy Weight"
    case Overweight => "Overweight"
    case ObeseClass1 => "Obese (Class 1)"
    case ObeseClass2 => "Obese (Class 2)"
    case SeverelyObese => "Severely Obese"
  }

  /** Position of a category in the order lightest to heaviest. */
  function Rank(c: Category): (k: nat)
    ensures k < 8
  {
    match c
    case SeverelyUnderweight => 0
    case ModeratelyUnderweight => 1
    case MildlyUnderweight => 2
    case HealthyWeight => 3
    case Overweight => 4
    case ObeseClass1 => 5
    case ObeseClass2 => 6
    case SeverelyObese => 7
  }

  /** Distinct categories have distinct positions, so a position names a
      category. */
  lemma RankInjective(c1: Category, c2: Category)
    ensures Rank(c1) == Rank(c2) <==> c1 == c2
  {
  }

  /** The seven boundaries between the eight categories, strictly rising. */
  const CategoryThresholds: seq<real> := [16.0, 17.0, 18.5, 25.0, 30.0, 35.0, 40.0]

  /** The category of an (unrounded) BMI: the threshold chain of the script. */
  function Classify(bmi: real): (c: Category)
    ensures InBand(CategoryThresholds, Rank(c), bmi)
  {
    if bmi < 16.0 then SeverelyUnderweight
    else if 16.0 <= bmi < 17.0 then ModeratelyUnderweight
    else if 17.0 <= bmi < 18.5 then MildlyUnderweight
    else if 18.5 <= bmi < 25.0 then HealthyWeight
    else if 25.0 <= bmi < 30.0 then Overweight
    else if 30.0 <= bmi < 35.0 then ObeseClass1
    else if 35.0 <= bmi < 40.0 then ObeseClass2
    else SeverelyObese
  }

  /** Weight in kg over the square of the height in metres. */
  function Bmi(weight: real, height: real): (bmi: real)
    requires height != 0.0
    ensures bmi * ((height / 100.0) * (height / 100.0)) == weight
    ensures weight > 0.0 ==> bmi > 0.0
  {
    var m := height / 100.0;
    assert m * m > 0.0 by {
      if m > 0.0 { assert m * m > 0.0; } else { assert (-m) * (-m) > 0.0; }
    }
    weight / (m * m)
  }

  /** `calculate_bmi`: the BMI rounded to two decimals and the label of the
      category of the unrounded BMI. A zero height divides by zero. */
  function CalculateBmi(weight: real, height: real): (r: Result<(real, string)>)
    ensures r.Raised? <==> height == 0.0
    ensures r.Ok? ==> Abs(r.value.0 - Bmi(weight, height)) <= 0.005
    ensures r.Ok? ==> r.value.1 == Label(Classify(Bmi(weight, height)))
    ensures r.Ok? ==> r.value.1 in DietAdvice
  {
    if height == 0.0 then Raised(ZeroDivisionError)
    else
      var bmi := Bmi(weight, height);
      DietKnowsEveryCategory(Classify(bmi));
      Ok((Round2(bmi), Label(Classify(bmi))))
  }

  /** Every BMI lies in exactly one band, and that band is its category's. */
  lemma ClassifyPartitions(bmi: real, k: nat)
    requires k < 8
    ensures InBand(CategoryThresholds, k, bmi) <==> k == Rank(Classify(bmi))
  {
    BandsDisjoint(CategoryThresholds, k, Rank(Classify(bmi)), bmi);
  }

  /** The category index counts the thresholds the BMI has reached. */
  lemma ClassifyCountsThresholds(bmi: real)
    ensures Rank(Classify(bmi)) == Reached(CategoryThresholds, bmi)
  {
    BandIsReached(CategoryThresholds, Rank(Classify(bmi)), bmi);
  }

  /** A larger BMI never gets a lighter category. */
  lemma ClassifyMonotone(b1: real, b2: real)
    requires b1 <= b2
    ensures Rank(Classify(b1)) <= Rank(Classify(b2))
  {
    ClassifyCountsThresholds(b1);
    ClassifyCountsThresholds(b2);
    ReachedMonotone(CategoryThresholds, b1, b2);
  }

  /** The boundaries belong to the heavier side. */
  lemma BoundariesGoUpward()
    ensures Classify(16.0) == ModeratelyUnderweight
    ensures Classify(17.0) == MildlyUnderweight
    ensures Classify(18.5) == HealthyWeight
    ensures Classify(25.0) == Overweight
    ensures Classify(30.0) == ObeseClass1
    ensures Classify(35.0) == ObeseClass2
    ensures Classify(40.0) == SeverelyObese
  {
  }

  /** Different categories are reported under different labels. */
  lemma LabelInjective(c1: Category, c2: Category)
    ensures Label(c1) == Label(c2) <==> c1 == c2
  {
  }

  // ---------------------------------------------------------------- calories

  /** `gender.lower() == "male"`. */
  predicate IsMale(gender: string): (b: bool)
    ensures b <==> |gender| == 4 && forall i :: 0 <= i < 4 ==> LowerChar(gender[i]) == "male"[i]
  {
    Lower(gender) == "male"
  }

  /** Exactly the sixteen capitalisations of "male" select the male formula. */
  lemma MaleSpellings(gender: string)
    ensures IsMale(gender) <==>
      |gender| == 4 &&
      (gender[0] == 'm' || gender[0] == 'M') &&
      (gender[1] == 'a' || gender[1] == 'A') &&
      (gender[2] == 'l' || gender[2] == 'L') &&
      (gender[3] == 'e' || gender[3] == 'E')
  {
    var low := Lower(gender);
    if |gender| == 4 {
      assert IsMale(gender) <==> low[0] == 'm' && low[1] == 'a' && low[2] == 'l' && low[3] == 'e';
    }
  }

  /** Basal metabolic rate by the Mifflin-St Jeor equation. */
  function Bmr(age: real, weight: real, height: real, gender: string): (bmr: real)
    ensures var c := bmr - (10.0 * weight + 6.25 * height - 5.0 * age);
      (c == 5.0 <==> IsMale(gender)) && (c == -161.0 <==> !IsMale(gender))
  {
    if IsMale(gender) then 10.0 * weight + 6.25 * height - 5.0 * age + 5.0
    else 10.0 * weight + 6.25 * height - 5.0 * age - 161.0
  }

  /** Whatever string does not lower-case to "male" gets a BMR exactly 166
      below the male one. */
  lemma FemaleBmrOffset(age: real, weight: real, height: real, gender: string)
    requires !IsMale(gender)
    ensures Bmr(age, weight, height, gender) == Bmr(age, weight, height, "male") - 166.0
  {
    assert Lower("male") == "male";
  }

  /** The activity levels in the order the script offers them. */
  const ActivityLevels: seq<string> := ["Sedentary", "Light", "Moderate", "Active", "Very Active"]

  const ActivityMultipliers: map<string, real> :=
    map["Sedentary" := 1.2, "Light" := 1.375, "Moderate" := 1.55,
        "Active" := 1.725, "Very Active" := 1.9]

  /** `activity_multipliers.get(activity_level, 1.2)`. */
  function Multiplier(level: string): (m: real)
    ensures 1.2 <= m <= 1.9
    ensures m == 1.2 <==> level == "Sedentary" || level !in ActivityMultipliers
    ensures level in ActivityMultipliers ==> m == ActivityMultipliers[level]
  {
    if level in ActivityMultipliers then ActivityMultipliers[level] else 1.2
  }

  /** The table's keys are exactly the listed levels, and the multiplier
      rises strictly along the list. */
  lemma MultipliersRise()
    ensures ActivityMultipliers.Keys == set l | l in ActivityLevels
    ensures forall i, j :: 0 <= i < j < |ActivityLevels| ==>
      Multiplier(ActivityLevels[i]) < Multiplier(ActivityLevels[j])
  {
  }

  /** `calculate_calories`: the BMR times the activity multiplier, truncated
      toward zero. */
  function CalculateCalories(age: real, weight: real, height: real, level: string, gender: string): (kcal: int)
    ensures var p := Bmr(age, weight, height, gender) * Multiplier(level);
      (p >= 0.0 ==> kcal as real <= p < kcal as real + 1.0) &&
      (p < 0.0 ==> kcal as real - 1.0 < p <= kcal as real)
  {
    Trunc(Bmr(age, weight, height, gender) * Multiplier(level))
  }

  /** An unlisted activity level is treated as "Sedentary". */
  lemma UnknownLevelIsSedentary(age: real, weight: real, height: real, level: string, gender: string)
    requires level !in ActivityMultipliers
    ensures CalculateCalories(age, weight, height, level, gender)
         == CalculateCalories(age, weight, height, "Sedentary", gender)
  {
  }

  // ---------------------------------------------------------------- macros

  /** Grams of protein, carbohydrate and fat. */
  datatype Macros = Macros(protein: int, carbs: int, fats: int)

  /** The energy the split accounts for, at 4/4/9 kcal per gram. */
  function Energy(m: Macros): int {
    4 * m.protein + 4 * m.carbs + 9 * m.fats
  }

  /** `macronutrient_distribution`: 30% protein, 50% carbohydrate and 20% fat
      by energy, each share converted to grams and truncated. The truncation
      loses less than 17 kcal in all. */
  function MacronutrientDistribution(calories: int): (m: Macros)
    ensures calories >= 0 ==>
      m.protein as real <= 0.3 * calories as real / 4.0 < m.protein as real + 1.0 &&
      m.carbs as real <= 0.5 * calories as real / 4.0 < m.carbs as real + 1.0 &&
      m.fats as real <= 0.2 * calories as real / 9.0 < m.fats as real + 1.0
    ensures calories < 0 ==>
      m.protein as real - 1.0 < 0.3 * calories as real / 4.0 <= m.protein as real &&
      m.carbs as real - 1.0 < 0.5 * calories as real / 4.0 <= m.carbs as real &&
      m.fats as real - 1.0 < 0.2 * calories as real / 9.0 <= m.fats as real
    ensures calories >= 0 ==> 0 <= m.protein <= m.carbs && 0 <= m.fats
    ensures calories >= 0 ==> calories - 17 < Energy(m) <= calories
    ensures calories < 0 ==> m.carbs <= m.protein <= 0 && m.fats <= 0
    ensures calories < 0 ==> calories <= Energy(m) < calories + 17
  {
    var c := calories as real;
    Macros(Trunc(0.3 * c / 4.0), Trunc(0.5 * c / 4.0), Trunc(0.2 * c / 9.0))
  }

  // ---------------------------------------------------------------- exercise

  /** The boundaries between the four exercise bands. */
  const ExerciseThresholds: seq<real> := [18.5, 25.0, 30.0]

  const UnderweightPlan: seq<string> :=
    ["Strength training (3-4x per week)", "Yoga for flexibility", "High-calorie diet"]
  const HealthyPlan: seq<string> :=
    ["Cardio & Strength mix (30-45 mins/day)", "Cycling, jogging, or swimming"]
  const OverweightPlan: seq<string> :=
    ["Low-impact cardio (walking, cycling)", "Strength training (2-3x per week)", "HIIT workouts"]
  const ObesePlan: seq<string> :=
    ["Brisk walking (30-40 mins/day)", "Water aerobics", "Bodyweight exercises"]

  /** The exercise plans by band, lightest first. */
  const ExercisePlans: seq<seq<string>> := [UnderweightPlan, HealthyPlan, OverweightPlan, ObesePlan]

  /** `suggest_exercise`: a fixed list of two or three suggestions per band. */
  function SuggestExercise(bmi: real): (plan: seq<string>)
    ensures 2 <= |plan| <= 3
    ensures plan in ExercisePlans
  {
    if bmi < 18.5 then UnderweightPlan
    else if 18.5 <= bmi < 25.0 then HealthyPlan
    else if 25.0 <= bmi < 30.0 then OverweightPlan
    else ObesePlan
  }

  /** The plan is the one of the band the BMI lies in. */
  lemma SuggestExerciseByBand(bmi: real)
    ensures SuggestExercise(bmi) == ExercisePlans[Reached(ExerciseThresholds, bmi)]
  {
    ReachedIsBand(ExerciseThresholds, bmi);
  }

  /** The boundaries belong to the heavier band; 30 and above is obese. */
  lemma ExerciseBoundariesGoUpward(bmi: real)
    ensures SuggestExercise(18.5) == HealthyPlan
    ensures SuggestExercise(25.0) == OverweightPlan
    ensures bmi >= 30.0 ==> SuggestExercise(bmi) == ObesePlan
  {
  }

  /** Two BMIs get the same plan exactly when they lie in the same band. */
  lemma ExercisePlanIdentifiesBand(b1: real, b2: real)
    ensures SuggestExercise(b1) == SuggestExercise(b2)
        <==> Reached(ExerciseThresholds, b1) == Reached(ExerciseThresholds, b2)
  {
    SuggestExerciseByBand(b1);
    SuggestExerciseByBand(b2);
    var k1, k2 := Reached(ExerciseThresholds, b1), Reached(ExerciseThresholds, b2);
    if k1 != k2 {
      var p1, p2 := ExercisePlans[k1], ExercisePlans[k2];
      assert |p1| != |p2| || p1[0] != p2[0];
    }
  }

  /** The exercise bands coarsen the categories: underweight categories,
      the healthy one, overweight, and the three obese ones. */
  lemma ExerciseBandFromCategory(bmi: real)
    ensures var k := Rank(Classify(bmi));
      Reached(ExerciseThresholds, bmi) == (if k <= 2 then 0 else if k == 3 then 1 else if k == 4 then 2 else 3)
  {
    var k := Rank(Classify(bmi));
    BandIsReached(ExerciseThresholds, if k <= 2 then 0 else if k == 3 then 1 else if k == 4 then 2 else 3, bmi);
  }

  // ---------------------------------------------------------------- diet

  const DietAdvice: map<string, string> := map[
    "Severely Underweight" := "Increase calorie intake with protein-rich foods, nuts, dairy, and healthy fats.",
    "Moderately Underweight" := "Focus on high-protein meals and complex carbs with good fats.",
    "Mildly Underweight" := "Eat nutrient-dense foods like lean meat, whole grains, and dairy.",
    "Healthy Weight" := "Maintain balanced meals with proteins, carbs, and essential fats.",
    "Overweight" := "Reduce processed foods and include more fiber and lean proteins.",
    "Obese (Class 1)" := "Limit sugars, increase fiber, and maintain portion control.",
    "Obese (Class 2)" := "Follow a calorie-deficit diet with whole foods.",
    "Severely Obese" := "Consider medical consultation for a structured weight loss plan."
  ]

  const DefaultAdvice: string := "Maintain a well-balanced diet."

  /** `suggest_diet`: the table's advice for a known category, the generic
      message for anything else. */
  function SuggestDiet(category: string): (advice: string)
    ensures advice == DefaultAdvice <==> category !in DietAdvice
    ensures category in DietAdvice ==> advice == DietAdvice[category]
  {
    if category in DietAdvice then DietAdvice[category] else DefaultAdvice
  }

  /** Every category has its own entry in the diet table. */
  lemma DietKnowsEveryCategory(c: Category)
    ensures Label(c) in DietAdvice
  {
  }

  /** The diet table is keyed by exactly the category labels. */
  lemma DietKeysAreLabels(category: string)
    ensures category in DietAdvice <==> exists c :: Label(c) == category
  {
    if category in DietAdvice {
      var c :|
        c in [SeverelyUnderweight, ModeratelyUnderweight, MildlyUnderweight, HealthyWeight,
              Overweight, ObeseClass1, ObeseClass2, SeverelyObese] && Label(c) == category;
    }
  }

  /** The category of any computed BMI never falls back to the generic advice. */
  lemma CategoryAlwaysHasAdvice(weight: real, height: real)
    requires height != 0.0
    ensures SuggestDiet(CalculateBmi(weight, height).value.1) != DefaultAdvice
  {
  }

  // ---------------------------------------------------------------- water

  /** `calculate_water_intake`: 0.033 litres per kg, to two decimals. */
  function CalculateWaterIntake(weight: real): (liters: real)
    ensures Abs(liters - weight * 0.033) <= 0.005
    ensures (liters * 100.0).Floor as real == liters * 100.0
    ensures weight >= 0.0 ==> liters >= 0.0
  {
    Round2(weight * 0.033)
  }

  // ---------------------------------------------------------------- examples

  /** Worked values; the last shows truncation toward zero on a negative
      calorie figure (floor would give -419). */
  lemma WorkedExamples()
    ensures CalculateBmi(70.0, 170.0) == Ok((24.22, "Healthy Weight"))
    ensures CalculateCalories(25.0, 70.0, 170.0, "Sedentary", "Male") == 1971
    ensures MacronutrientDistribution(2000) == Macros(150, 250, 44)
    ensures CalculateWaterIntake(72.0) == 2.38
    ensures CalculateCalories(120.0, 10.0, 50.0, "Sedentary", "female") == -418
  {
  }
}
