# Balanced diet & exercise planner: the health-metric engine

The repository holds two near-duplicate planner scripts. Each begins with a
block of pure functions and then renders a form. This project models those
functions and proves what they promise:

- `calculate_bmi` computes `weight / (height/100)^2`. It returns the BMI rounded to two decimals, plus one of these:
  - an 8-way category label (`diet2_exercise_app.py`);
  - a numeric health rating (`diet_exercise_app.py`).
- `calculate_calories` applies the Mifflin-St Jeor basal metabolic rate:
  - gender is matched case-insensitively against `"male"`;
  - the activity multiplier comes from a five-entry table, with 1.2 as the default;
  - the result is truncated toward zero with Python `int()`.
- `macronutrient_distribution` splits the calories 30/50/20 by energy into truncated grams of protein, carbohydrate and fat.
- `suggest_exercise` maps four BMI bands to fixed lists of suggestions. `suggest_diet` is a category-to-advice table with a generic fallback.
- `calculate_water_intake` returns 0.033 l per kg, rounded to two decimals.

Modules:

- `PyBuiltins` (`py_builtins.dfy`) holds the Python built-ins the functions use:
  - `int()` on a number (truncation toward zero);
  - `round(x, 2)`;
  - `str.lower()` over ASCII;
  - a `Result` type for the `ZeroDivisionError` raised when the height is 0.
- `Bands` (`bands.dfy`) gives the shape shared by every threshold chain. A strictly rising list of thresholds cuts the reals into half-open bands, and the band of a value is the number of thresholds it has reached.
- `Diet2App` (`diet2_exercise_app.dfy`) and `DietApp` (`diet_exercise_app.dfy`) model one script each. They keep the scripts' own duplicated code as two copies.
- `Variants` (`variants.dfy`) relates the two scripts:
  - the calorie functions are equal;
  - the rating is a function of the category;
  - the exercise plans agree exactly from BMI 25 up.

Weights, heights, ages and BMIs are exact reals, and calories and grams are integers.

Error and rating behaviour, as the code has it:

- On exact reals, only a zero height raises: it is a `ZeroDivisionError` in the BMI division. The same holds on the form's clamped ranges. Negative height, weight and age are computed like any other value.
- Normal weight rates 7.

## Model

| member | source | states |
|---|---|---|
| PyBuiltins.Trunc | diet2_exercise_app.py:43 | `int()` truncates toward zero: for x >= 0 the result is the greatest integer <= x; for x < 0 it is the least integer >= x |
| PyBuiltins.Round2 | diet2_exercise_app.py:26 | `round(x, 2)` is a whole number of hundredths within 0.005 of x |
| PyBuiltins.RoundHalfEven | diet2_exercise_app.py:26 | the nearest integer, within 1/2; an exact tie goes to the even one |
| PyBuiltins.LowerChar | diet2_exercise_app.py:30 | ASCII capitals move down by 32 code points; every other character is kept; no result is a capital |
| PyBuiltins.Lower | diet2_exercise_app.py:30 | `str.lower()` keeps the length and lower-cases each character in place |
| Bands.BandIsReached | diet2_exercise_app.py:9-24 | with strictly rising thresholds, a value lies in band k exactly when it has reached k thresholds, so bands are exclusive and cover every value |
| Bands.ReachedMonotone | diet2_exercise_app.py:9-24 | a larger value has reached at least as many thresholds |
| Diet2App.Rank | diet2_exercise_app.py:9-24 | the categories' positions from lightest to heaviest are below 8 |
| Diet2App.RankInjective | diet2_exercise_app.py:9-24 | distinct categories have distinct positions, so the position fixed by Classify names one category |
| Diet2App.Classify | diet2_exercise_app.py:9-24 | the category of a BMI is the one whose half-open interval [lower, upper) holds it |
| Diet2App.ClassifyPartitions | diet2_exercise_app.py:9-24 | each BMI lies in exactly one of the 8 intervals, the one of its category |
| Diet2App.ClassifyCountsThresholds | diet2_exercise_app.py:9-24 | the category index is the number of the boundaries 16, 17, 18.5, 25, 30, 35, 40 the BMI has reached |
| Diet2App.ClassifyMonotone | diet2_exercise_app.py:9-24 | bmi1 <= bmi2 implies the category of bmi1 is no heavier than that of bmi2 |
| Diet2App.BoundariesGoUpward | diet2_exercise_app.py:9-24 | each boundary value belongs to the heavier category (18.5 is Healthy Weight, 25 is Overweight, ...) |
| Diet2App.LabelInjective | diet2_exercise_app.py:10-24 | distinct categories are reported under distinct labels |
| Diet2App.Label | diet2_exercise_app.py:10-24 | each of the eight category strings is a key of the diet table |
| Diet2App.Bmi | diet2_exercise_app.py:8 | the BMI times the squared height in metres is the weight; a positive weight gives a positive BMI |
| Diet2App.CalculateBmi | diet2_exercise_app.py:7-26 | it raises exactly when height is 0; otherwise the reported BMI is within 0.005 of the exact one, and the label is the category of the unrounded BMI and is a key of the diet table |
| Diet2App.IsMale | diet2_exercise_app.py:30 | `gender.lower() == "male"` holds exactly for four-character strings whose characters lower-case to m, a, l, e |
| Diet2App.Bmr | diet2_exercise_app.py:31-33 | the Mifflin-St Jeor BMR `10w + 6.25h - 5a` plus +5 for male and -161 otherwise; FemaleBmrOffset states the 166 difference |
| Diet2App.MaleSpellings | diet2_exercise_app.py:30 | the male formula is chosen exactly for the 16 capitalisations of "male" |
| Diet2App.FemaleBmrOffset | diet2_exercise_app.py:30-33 | every gender string that does not lower-case to "male" gives a BMR exactly 166 below the male one |
| Diet2App.Multiplier | diet2_exercise_app.py:35-43 | a listed level gets its table value; the multiplier lies in [1.2, 1.9] and is 1.2 exactly for "Sedentary" and for every level outside the table |
| Diet2App.MultipliersRise | diet2_exercise_app.py:35-41 | the table keys are the five listed levels, and the multiplier rises strictly from Sedentary to Very Active |
| Diet2App.CalculateCalories | diet2_exercise_app.py:29-43 | the result is the BMR-times-multiplier product truncated toward zero: r <= p < r + 1 for p >= 0, and r - 1 < p <= r for p < 0 |
| Diet2App.UnknownLevelIsSedentary | diet2_exercise_app.py:43 | an activity level outside the table gives the same calories as "Sedentary" |
| Diet2App.MacronutrientDistribution | diet2_exercise_app.py:46-50 | protein, carbs and fats are `0.3c/4`, `0.5c/4` and `0.2c/9` truncated toward zero (r <= share < r + 1 for c >= 0, r - 1 < share <= r for c < 0); for calories >= 0, all grams are >= 0, protein <= carbs, and the energy 4p + 4c + 9f lies in (calories - 17, calories]; mirrored for negative calories |
| Diet2App.SuggestExercise | diet2_exercise_app.py:53-61 | the plan is one of the four fixed lists and has 2 or 3 entries |
| Diet2App.SuggestExerciseByBand | diet2_exercise_app.py:53-61 | the plan is the list of the band among the cuts 18.5, 25, 30 that the BMI falls in |
| Diet2App.ExerciseBoundariesGoUpward | diet2_exercise_app.py:53-61 | 18.5 gets the healthy list, 25 the overweight list, and every BMI >= 30 the brisk-walking list |
| Diet2App.ExercisePlanIdentifiesBand | diet2_exercise_app.py:53-61 | two BMIs get the same plan exactly when they lie in the same band |
| Diet2App.ExerciseBandFromCategory | diet2_exercise_app.py:53-61 | the exercise band coarsens the category: the three underweight categories, healthy, overweight, and the three obese categories |
| Diet2App.SuggestDiet | diet2_exercise_app.py:64-76 | the fallback message is returned exactly for strings that are not table keys; keys get their table entry |
| Diet2App.DietKnowsEveryCategory | diet2_exercise_app.py:65-74 | every category label is a key of the diet table |
| Diet2App.DietKeysAreLabels | diet2_exercise_app.py:65-74 | a string is a diet-table key exactly when it is the label of some category |
| Diet2App.CategoryAlwaysHasAdvice | diet2_exercise_app.py:64-76 | the diet advice for the category of any computed BMI is never the fallback |
| Diet2App.CalculateWaterIntake | diet2_exercise_app.py:79-80 | the target is a whole number of hundredths of a litre, within 0.005 of 0.033 l per kg, and non-negative for a non-negative weight |
| Diet2App.WorkedExamples | diet2_exercise_app.py:7-80 | BMI of 70 kg at 170 cm is (24.22, Healthy Weight); 1971 kcal for a sedentary male aged 25, 70 kg, 170 cm; macros of 2000 kcal are 150/250/44; 72 kg needs 2.38 l; a sedentary female aged 120, 10 kg, 50 cm gets -418 kcal (truncation, not floor) |
| DietApp.Bmi | diet_exercise_app.py:5 | the BMI times the squared height in metres is the weight; a positive weight gives a positive BMI |
| DietApp.Rating | diet_exercise_app.py:7-22 | the rating is one of 1, 2, 3, 5, 7, inside the 1-10 scale of the docstring |
| DietApp.RatingByBand | diet_exercise_app.py:7-22 | the rating is the score 1, 2, 3, 7, 5, 3, 2, 1 of the band among the seven cuts that the BMI falls in |
| DietApp.CalculateBmi | diet_exercise_app.py:3-24 | it raises exactly when height is 0; otherwise the reported BMI is within 0.005 of the exact one and the rating is that of the unrounded BMI |
| DietApp.RatingPeaksAtNormal | diet_exercise_app.py:13-14 | the rating never exceeds 7 and equals 7 exactly on [18.5, 25) |
| DietApp.RatingRisesTowardNormal | diet_exercise_app.py:7-22 | below 25 the rating is non-decreasing in the BMI |
| DietApp.RatingFallsAwayFromNormal | diet_exercise_app.py:7-22 | from 18.5 up the rating is non-increasing in the BMI |
| DietApp.IsMale | diet_exercise_app.py:28 | `gender.lower() == "male"` holds exactly for four-character strings whose characters lower-case to m, a, l, e |
| DietApp.Bmr | diet_exercise_app.py:29-31 | the Mifflin-St Jeor BMR `10w + 6.25h - 5a` plus +5 for male and -161 otherwise; BmrConstant states the same of the copy |
| DietApp.BmrConstant | diet_exercise_app.py:28-31 | the equation's constant is +5 exactly when the gender lower-cases to "male", and -161 otherwise |
| DietApp.Multiplier | diet_exercise_app.py:33-41 | a listed level gets its table value; the multiplier lies in [1.2, 1.9]; a level outside the table gets the Sedentary multiplier |
| DietApp.CalculateCalories | diet_exercise_app.py:26-41 | the result is the BMR-times-multiplier product truncated toward zero |
| DietApp.UnknownLevelIsSedentary | diet_exercise_app.py:41 | an activity level outside the table gives the same calories as "Sedentary" |
| DietApp.SuggestExercise | diet_exercise_app.py:43-59 | the plan is a stored value of the table and has 2 or 3 entries |
| DietApp.SuggestExerciseByKey | diet_exercise_app.py:45-59 | the table's keys are the four band names, and each BMI gets the plan stored under its band's key and under no other key |
| Variants.CaloriesAgree | diet_exercise_app.py:26-41 | the two scripts' calorie functions agree on every input |
| Variants.BmiAgrees | diet_exercise_app.py:3-24 | both scripts raise on the same heights and report the same rounded BMI |
| Variants.RatingFollowsCategory | diet_exercise_app.py:7-22 | the rating is the score of the other script's category, and both chains use the same seven cuts |
| Variants.RatingMirrors | diet_exercise_app.py:7-22 | severe, moderate and mild underweight score the same as obese class 3, 2 and 1 |
| Variants.ExercisePlansAgreeFromOverweight | diet_exercise_app.py:45-59 | the two scripts' plans agree exactly when the BMI is at least 25 |
| Variants.ExerciseBandsAgree | diet_exercise_app.py:52-59 | two BMIs share a plan in one script exactly when they share one in the other |

## Left out

- The form widgets and the range clamping they apply are not modelled: `diet2_exercise_app.py:83-88` and `diet_exercise_app.py:62-70`. They are presentation through a foreign library.
- The rendering of results is not modelled, including the loops that write the exercise lists (`diet2_exercise_app.py:99-114`, `diet_exercise_app.py:75-81`). It has no logic beyond printing.
- The BMI trend chart is not modelled (`diet2_exercise_app.py:117-132`). It plots fixed sample data through pandas and matplotlib.
- How the scripts wire the functions together is not modelled (`diet2_exercise_app.py:91-96`, `diet_exercise_app.py:71-73`). Both pass the rounded BMI to `suggest_exercise`, while the category (or rating) comes from the unrounded value, so the two can disagree next to a threshold: an unrounded 24.996 rounds to 25.0 and gets the overweight plan with a healthy category. Only at exact rounding ties does the outcome depend on binary float rounding.
- Binary floating point is not modelled. Every quantity is an exact real, so a result that float error would push across an integer or a rounding tie can differ from the float result. The exact-real model has no overflow or underflow, so four float exceptions do not arise in the model: `ZeroDivisionError` from a squared height that underflows to 0.0 (|height| below about 1e-160), `OverflowError` from `**` on a very large height, `OverflowError` from `int()` on an infinite BMR (a weight near 1e308), and `ValueError` from `int()` on a NaN BMR (when both `10 * weight` and `5 * age` overflow, `inf - inf` is NaN). NaN and infinities do not arise in the model either.
- PyBuiltins.Round2 rounds exact ties (say 2.675) half to even. Python rounds the binary value nearest the decimal, which is rarely an exact tie. The model therefore promises only the 0.005 bound and whole hundredths, not the float result at such inputs.
- PyBuiltins.Lower maps only ASCII capitals. Python's `str.lower()` applies the full Unicode case mapping.
- Arguments of the wrong Python type (a non-string gender, a non-number weight) are not modelled; they would raise `TypeError` or `AttributeError`.
