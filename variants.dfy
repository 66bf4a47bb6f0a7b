/** How the two near-duplicate planner scripts relate: where their copies
    agree, how the first script's rating follows the second script's
    category, and where their exercise plans differ. */
module Variants {
  import Diet2App
  import DietApp
  import Bands

  /** The two calorie functions agree on every input. */
  lemma CaloriesAgree(age: real, weight: real, height: real, level: string, gender: string)
    ensures DietApp.CalculateCalories(age, weight, height, level, gender)
         == Diet2App.CalculateCalories(age, weight, height, level, gender)
  {
  }

  /** Both scripts fail on the same heights and report the same rounded BMI. */
  lemma BmiAgrees(weight: real, height: real)
    ensures DietApp.CalculateBmi(weight, height).Ok? == Diet2App.CalculateBmi(weight, height).Ok?
    ensures height != 0.0 ==>
      DietApp.CalculateBmi(weight, height).value.0 == Diet2App.CalculateBmi(weight, height).value.0
  {
  }

  /** The score the first script gives to each of the second script's
      categories. */
  function CategoryScore(c: Diet2App.Category): int {
    match c
    case SeverelyUnderweight => 1
    case ModeratelyUnderweight => 2
    case MildlyUnderweight => 3
    case HealthyWeight => 7
    case Overweight => 5
    case ObeseClass1 => 3
    case ObeseClass2 => 2
    case SeverelyObese => 1
  }

  /** The rating is a function of the category: the two chains cut the BMI at
      the same seven points. */
  lemma RatingFollowsCategory(bmi: real)
    ensures DietApp.Rating(bmi) == CategoryScore(Diet2App.Classify(bmi))
    ensures DietApp.RatingThresholds == Diet2App.CategoryThresholds
  {
  }

  /** The rating mirrors across the extremes: the k-th lightest and the k-th
      heaviest category score the same, for the three underweight ones. */
  lemma RatingMirrors(b1: real, b2: real)
    requires Diet2App.Rank(Diet2App.Classify(b1)) < 3
    requires Diet2App.Rank(Diet2App.Classify(b1)) + Diet2App.Rank(Diet2App.Classify(b2)) == 7
    ensures DietApp.Rating(b1) == DietApp.Rating(b2)
  {
  }

  /** The two scripts suggest the same exercises exactly from BMI 25 up; below
      it their underweight and normal-weight lists differ. */
  lemma ExercisePlansAgreeFromOverweight(bmi: real)
    ensures DietApp.SuggestExercise(bmi) == Diet2App.SuggestExercise(bmi) <==> bmi >= 25.0
  {
    var p1, p2 := DietApp.SuggestExercise(bmi), Diet2App.SuggestExercise(bmi);
    if bmi < 18.5 {
      assert p1[1] != p2[1];
    } else if bmi < 25.0 {
      assert p1[0] != p2[0];
    }
  }

  /** Both exercise functions change their plan at the same BMIs. */
  lemma ExerciseBandsAgree(b1: real, b2: real)
    ensures DietApp.SuggestExercise(b1) == DietApp.SuggestExercise(b2)
        <==> Diet2App.SuggestExercise(b1) == Diet2App.SuggestExercise(b2)
  {
    Diet2App.ExercisePlanIdentifiesBand(b1, b2);
    DietApp.SuggestExerciseByKey(b1, DietApp.ExerciseKeys[Bands.Reached(DietApp.ExerciseThresholds, b2)]);
    DietApp.SuggestExerciseByKey(b2, DietApp.ExerciseKeys[Bands.Reached(DietApp.ExerciseThresholds, b2)]);
    assert DietApp.ExerciseThresholds == Diet2App.ExerciseThresholds;
  }
}
