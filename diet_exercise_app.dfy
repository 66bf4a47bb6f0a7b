/** The metric functions of the first planner script: BMI with a numeric
    health rating, daily calories by the Mifflin-St Jeor equation, and an
    exercise plan looked up in a table keyed by four weight bands. The
    calorie function is a copy of the second script's; the module keeps its
    own copy, and the two are proved equal elsewhere. */
module DietApp {
  import opened PyBuiltins
  import opened Bands

  // ---------------------------------------------------------------- BMI

  /** Weight in kg over the square of the height in metres. */
  function Bmi(weight: real, height: real): (bmi: real)
    requires height != 0.0
    ensures bmi * ((height / 100.0) * (height / 100.0)) == weight
    ensures weight > 0.0 ==> bmi > 0.0
  {
    var m := height / 100.0;
    assert m * m > 0.0 by {
      if m > 0.0 { assert m * m > 0.0; } else { assert (-m) * (-m) > 0.0; }
    }
    weight / (m * m)
  }

  /** The same seven boundaries as the category chain, strictly rising. */
  const RatingThresholds: seq<real> := [16.0, 17.0, 18.5, 25.0, 30.0, 35.0, 40.0]

  /** The score of each of the eight bands, lightest first: severe, moderate
      and mild underweight, normal, overweight, obese classes 1 to 3. */
  const BandScores: seq<int> := [1, 2, 3, 7, 5, 3, 2, 1]

  /** The health rating of a BMI: the threshold chain of the script. It is
      one of 1, 2, 3, 5, 7, inside the 1-10 scale the script displays. */
  function Rating(bmi: real): (rating: int)
    ensures rating in {1, 2, 3, 5, 7}
    ensures 1 <= rating <= 10
  {
    if bmi < 16.0 then 1
    else if 16.0 <= bmi < 17.0 then 2
    else if 17.0 <= bmi < 18.5 then 3
    else if 18.5 <= bmi < 25.0 then 7
    else if 25.0 <= bmi < 30.0 then 5
    else if 30.0 <= bmi < 35.0 then 3
    else if 35.0 <= bmi < 40.0 then 2
    else 1
  }

  /** The rating is the score of the band the BMI lies in. */
  lemma RatingByBand(bmi: real)
    ensures Rating(bmi) == BandScores[Reached(RatingThresholds, bmi)]
  {
    ReachedIsBand(RatingThresholds, bmi);
  }

  /** `calculate_bmi`: the BMI rounded to two decimals and the rating of the
      unrounded BMI. A zero height divides by zero. */
  function CalculateBmi(weight: real, height: real): (r: Result<(real, int)>)
    ensures r.Raised? <==> height == 0.0
    ensures r.Ok? ==> Abs(r.value.0 - Bmi(weight, height)) <= 0.005
    ensures r.Ok? ==> r.value.1 == Rating(Bmi(weight, height))
  {
    if height == 0.0 then Raised(ZeroDivisionError)
    else
      var bmi := Bmi(weight, height);
      Ok((Round2(bmi), Rating(bmi)))
  }

  /** The rating peaks, at 7, exactly on normal weight. */
  lemma RatingPeaksAtNormal(bmi: real)
    ensures Rating(bmi) <= 7
    ensures Rating(bmi) == 7 <==> 18.5 <= bmi < 25.0
  {
  }

  /** Below 25 the rating never falls as the BMI grows. */
  lemma RatingRisesTowardNormal(b1: real, b2: real)
    requires b1 <= b2 < 25.0
    ensures Rating(b1) <= Rating(b2)
  {
  }

  /** From 18.5 up the rating never rises as the BMI grows. */
  lemma RatingFallsAwayFromNormal(b1: real, b2: real)
    requires 18.5 <= b1 <= b2
    ensures Rating(b1) >= Rating(b2)
  {
  }

  // ---------------------------------------------------------------- calories

  /** `gender.lower() == "male"`. */
  predicate IsMale(gender: string): (b: bool)
    ensures b <==> |gender| == 4 && forall i :: 0 <= i < 4 ==> LowerChar(gender[i]) == "male"[i]
  {
    Lower(gender) == "male"
  }

  /** Basal metabolic rate by the Mifflin-St Jeor equation. */
  function Bmr(age: real, weight: real, height: real, gender: string): (bmr: real)
    ensures var c := bmr - (10.0 * weight + 6.25 * height - 5.0 * age);
      (c == 5.0 <==> IsMale(gender)) && (c == -161.0 <==> !IsMale(gender))
  {
    if IsMale(gender) then 10.0 * weight + 6.25 * height - 5.0 * age + 5.0
    else 10.0 * weight + 6.25 * height - 5.0 * age - 161.0
  }

  /** The constant of the equation is +5 exactly for strings that lower-case
      to "male", and -161 for every other string. */
  lemma BmrConstant(age: real, weight: real, height: real, gender: string)
    ensures var c := Bmr(age, weight, height, gender) - (10.0 * weight + 6.25 * height - 5.0 * age);
      (c == 5.0 <==> Lower(gender) == "male") && (c != 5.0 <==> c == -161.0)
  {
  }

  const ActivityMultipliers: map<string, real> :=
    map["Sedentary" := 1.2, "Light" := 1.375, "Moderate" := 1.55,
        "Active" := 1.725, "Very Active" := 1.9]

  /** `activity_multipliers.get(activity_level, 1.2)`. */
  function Multiplier(level: string): (m: real)
    ensures 1.2 <= m <= 1.9
    ensures level !in ActivityMultipliers ==> m == ActivityMultipliers["Sedentary"]
    ensures level in ActivityMultipliers ==> m == ActivityMultipliers[level]
  {
    if level in ActivityMultipliers then ActivityMultipliers[level] else 1.2
  }

  /** `calculate_calories`: the BMR times the activity multiplier, truncated
      toward zero. */
  function CalculateCalories(age: real, weight: real, height: real, level: string, gender: string): (kcal: int)
    ensures var p := Bmr(age, weight, height, gender) * Multiplier(level);
      (p >= 0.0 ==> kcal as real <= p < kcal as real + 1.0) &&
      (p < 0.0 ==> kcal as real - 1.0 < p <= kcal as real)
  {
    Trunc(Bmr(age, weight, height, gender) * Multiplier(level))
  }

  /** An unlisted activity level is treated as "Sedentary". */
  lemma UnknownLevelIsSedentary(age: real, weight: real, height: real, level: string, gender: string)
    requires level !in ActivityMultipliers
    ensures CalculateCalories(age, weight, height, level, gender)
         == CalculateCalories(age, weight, height, "Sedentary", gender)
  {
  }

  // ---------------------------------------------------------------- exercise

  /** The boundaries between the four exercise bands. */
  const ExerciseThresholds: seq<real> := [18.5, 25.0, 30.0]

  /** The keys of the plan table, lightest band first. */
  const ExerciseKeys: seq<string> := ["Underweight", "Normal Weight", "Overweight", "Obese"]

  const ExercisePlan: map<string, seq<string>> := map[
    "Underweight" := ["Strength training (3-4x per week)", "Yoga and flexibility exercises", "Moderate cardio (15-20 mins/day)"],
    "Normal Weight" := ["Strength training & cardio (30-45 mins/day)", "Cycling, jogging, or swimming"],
    "Overweight" := ["Low-impact cardio (walking, cycling)", "Strength training (2-3x per week)", "HIIT workouts"],
    "Obese" := ["Brisk walking (30-40 mins/day)", "Water aerobics", "Bodyweight exercises"]
  ]

  /** `suggest_exercise`: the stored plan of the BMI's band. */
  function SuggestExercise(bmi: real): (plan: seq<string>)
    ensures 2 <= |plan| <= 3
    ensures plan in ExercisePlan.Values
  {
    if bmi < 18.5 then ExercisePlan["Underweight"]
    else if 18.5 <= bmi < 25.0 then ExercisePlan["Normal Weight"]
    else if 25.0 <= bmi < 30.0 then ExercisePlan["Overweight"]
    else ExercisePlan["Obese"]
  }

  /** The table has exactly the four band keys, and every BMI gets the plan
      stored under the key of its band and under no other key. */
  lemma SuggestExerciseByKey(bmi: real, key: string)
    ensures ExercisePlan.Keys == set k | k in ExerciseKeys
    ensures key in ExercisePlan ==>
      (SuggestExercise(bmi) == ExercisePlan[key] <==> key == ExerciseKeys[Reached(ExerciseThresholds, bmi)])
  {
    ReachedIsBand(ExerciseThresholds, bmi);
    var plans := [ExercisePlan["Underweight"], ExercisePlan["Normal Weight"],
                  ExercisePlan["Overweight"], ExercisePlan["Obese"]];
    assert forall i, j :: 0 <= i < j < 4 ==> plans[i][0] != plans[j][0];
  }
}
