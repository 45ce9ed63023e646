/**
 * The goal calculators: daily calorie goal (Mifflin-St Jeor BMR times an
 * activity factor), daily water goal, calories burned by a workout and the
 * extra water a workout adds to the water goal. Python floats are modelled as
 * exact reals.
 */
module Goals {
  import Text

  /** The gender value counted as male: the Cyrillic letter М sent by the keyboard button. */
  const Male: string := "М"

  /** Basal metabolic rate: +5 for male, -161 for any other gender value. */
  function Bmr(weight: int, height: int, age: int, gender: string): real
  {
    10.0 * weight as real + 6.25 * height as real - 5.0 * age as real
      + (if gender == Male then 5.0 else -161.0)
  }

  /** The stepped activity factor over half-open intervals split at 30, 60, 90 and 120 minutes. */
  function ActivityFactor(activity: int): (f: real)
    ensures 1.2 <= f <= 1.9
    ensures f == 1.2 <==> activity < 30
    ensures f == 1.9 <==> activity >= 120
  {
    if activity < 30 then 1.2
    else if activity < 60 then 1.375
    else if activity < 90 then 1.55
    else if activity < 120 then 1.725
    else 1.9
  }

  function CalorieGoal(weight: int, height: int, age: int, gender: string, activity: int): (goal: real)
    ensures Bmr(weight, height, age, gender) >= 0.0 ==>
      1.2 * Bmr(weight, height, age, gender) <= goal <= 1.9 * Bmr(weight, height, age, gender)
  {
    Bmr(weight, height, age, gender) * ActivityFactor(activity)
  }

  /** The factor never decreases as the activity minutes grow. */
  lemma ActivityFactorMonotone(a1: int, a2: int)
    requires a1 <= a2
    ensures ActivityFactor(a1) <= ActivityFactor(a2)
  {
  }

  /** Each threshold raises the factor: one minute below it and at it give different factors. */
  lemma ActivityFactorSteps(t: int)
    requires t == 30 || t == 60 || t == 90 || t == 120
    ensures ActivityFactor(t - 1) < ActivityFactor(t)
  {
  }

  /** With a positive BMR, more activity never lowers the calorie goal. */
  lemma CalorieGoalMonotone(weight: int, height: int, age: int, gender: string, a1: int, a2: int)
    requires a1 <= a2
    requires Bmr(weight, height, age, gender) > 0.0
    ensures CalorieGoal(weight, height, age, gender, a1) <= CalorieGoal(weight, height, age, gender, a2)
  {
    var b := Bmr(weight, height, age, gender);
    ActivityFactorMonotone(a1, a2);
    var d := ActivityFactor(a2) - ActivityFactor(a1);
    assert b * ActivityFactor(a2) == b * ActivityFactor(a1) + b * d;
    assert b * d >= 0.0;
  }

  /** The male and the female BMR differ by exactly 166 kcal, everything else equal. */
  lemma BmrGenderGap(weight: int, height: int, age: int, gender: string)
    requires gender != Male
    ensures Bmr(weight, height, age, Male) - Bmr(weight, height, age, gender) == 166.0
  {
  }

  /** Python's `int()` on a float: truncation toward zero. */
  function Trunc(x: real): (n: int)
    ensures 0.0 <= x ==> 0 <= n && n as real <= x < n as real + 1.0
    ensures x < 0.0 ==> n <= 0 && n as real - 1.0 < x <= n as real
  {
    if x >= 0.0 then x.Floor else -((-x).Floor)
  }

  /** `500 * (temperature > 25)`: the whole bonus above 25 degrees, none at 25 or below. */
  function HeatBonus(temperature: real): (b: int)
    ensures b == 0 || b == 500
    ensures b == 500 <==> temperature > 25.0
  {
    if temperature > 25.0 then 500 else 0
  }

  /** 30 ml per kg, 500 ml per 30 minutes of activity, the heat bonus, truncated. */
  function WaterGoal(weight: int, activity: int, temperature: real): int
  {
    Trunc(30.0 * weight as real + 500.0 * (activity as real / 30.0) + HeatBonus(temperature) as real)
  }

  /** Flooring an integer plus a real adds the integer to the floor of the real. */
  lemma FloorShift(n: int, x: real)
    ensures (n as real + x).Floor == n + x.Floor
  {
    var f := x.Floor;
    assert f as real <= x < f as real + 1.0;
    assert (n + f) as real <= n as real + x < (n + f) as real + 1.0;
  }

  /** `k / d` on reals floors to Euclidean integer division for non-negative `k` and positive `d`. */
  lemma FloorDiv(k: int, d: int)
    requires k >= 0 && d > 0
    ensures (k as real / d as real).Floor == k / d
  {
    var q, r := k / d, k % d;
    assert k == q * d + r && 0 <= r < d;
    assert k as real / d as real == q as real + r as real / d as real;
    assert 0.0 <= r as real / d as real < 1.0;
    FloorShift(q, r as real / d as real);
  }

  /**
   * For a non-negative weight and activity the water goal is exact integer
   * arithmetic: 30 ml per kg, 50/3 ml per minute rounded down, plus the bonus.
   */
  lemma {:induction false} WaterGoalClosedForm(weight: int, activity: int, temperature: real)
    requires weight >= 0 && activity >= 0
    ensures WaterGoal(weight, activity, temperature)
      == 30 * weight + (50 * activity) / 3 + HeatBonus(temperature)
  {
    var whole := 30 * weight + HeatBonus(temperature);
    assert 500.0 * (activity as real / 30.0) == (50 * activity) as real / 3.0;
    FloorDiv(50 * activity, 3);
    FloorShift(whole, (50 * activity) as real / 3.0);
  }

  /** At exactly 25 degrees there is no bonus; above it the goal is 500 ml higher. */
  lemma WaterGoalHeatStep(weight: int, activity: int, temperature: real)
    requires weight >= 0 && activity >= 0 && temperature > 25.0
    ensures WaterGoal(weight, activity, temperature) == WaterGoal(weight, activity, 25.0) + 500
  {
    WaterGoalClosedForm(weight, activity, temperature);
    WaterGoalClosedForm(weight, activity, 25.0);
  }

  /** MET values of the known workout types (lower-case Russian names). */
  const MetTable: map<string, real> := map[
    "бег" := 8.0, "ходьба" := 3.5, "велосипед" := 6.0, "плавание" := 6.0,
    "йога" := 3.0, "силовая" := 5.0, "кардио" := 7.0, "танцы" := 5.0,
    "футбол" := 7.0, "баскетбол" := 6.5]

  const DefaultMet: real := 5.0

  /** Exact match of the lower-cased workout type against the table, 5.0 otherwise. */
  function Met(workoutType: string): (met: real)
    ensures 3.0 <= met <= 8.0
  {
    var key := Text.Lower(workoutType);
    if key in MetTable then MetTable[key] else DefaultMet
  }

  /** The MET does not depend on letter case. */
  lemma MetCaseInsensitive(workoutType: string)
    ensures Met(Text.Lower(workoutType)) == Met(workoutType)
  {
    Text.LowerIdempotent(workoutType);
  }

  /** `round(x, 1)` on exact reals: to the nearest tenth, a tie to the even tenth. */
  function RoundTenth(x: real): (r: real)
    ensures -0.05 <= r - x <= 0.05
    ensures (r * 10.0).Floor as real == r * 10.0
  {
    var y := x * 10.0;
    var n := y.Floor;
    var k := if y - n as real < 0.5 then n
             else if y - n as real > 0.5 then n + 1
             else if n % 2 == 0 then n else n + 1;
    assert -0.5 <= k as real - y <= 0.5;
    var r := k as real / 10.0;
    assert r * 10.0 == k as real;
    assert r - x == (k as real - y) / 10.0;
    r
  }

  /** A value that is already a whole number of tenths is left as it is. */
  lemma RoundTenthExact(x: real)
    requires (x * 10.0).Floor as real == x * 10.0
    ensures RoundTenth(x) == x
  {
    var y := x * 10.0;
    assert y - y.Floor as real == 0.0;
  }

  /** MET times weight times hours, rounded to one decimal. */
  function WorkoutCalories(workoutType: string, duration: int, weight: int): (kcal: real)
    ensures -0.05 <= kcal - Met(workoutType) * weight as real * (duration as real / 60.0) <= 0.05
  {
    RoundTenth(Met(workoutType) * weight as real * (duration as real / 60.0))
  }

  /** `int((duration / 30) * 200)`: 200 ml per 30 minutes, truncated toward zero. */
  function ExtraWater(duration: int): int
  {
    Trunc((duration as real / 30.0) * 200.0)
  }

  /**
   * The extra water is 20/3 ml per minute with the fraction dropped toward
   * zero, so a negative duration gives the mirror image of the positive one.
   */
  lemma {:induction false} ExtraWaterClosedForm(duration: int)
    ensures duration >= 0 ==> ExtraWater(duration) == (20 * duration) / 3
    ensures duration < 0 ==> ExtraWater(duration) == -((20 * -duration) / 3)
  {
    var m := if duration >= 0 then duration else -duration;
    assert (duration as real / 30.0) * 200.0 == (20 * duration) as real / 3.0;
    FloorDiv(20 * m, 3);
    if duration < 0 {
      assert -((20 * duration) as real / 3.0) == (20 * m) as real / 3.0;
    }
  }

  lemma ExtraWaterOdd(duration: int)
    ensures ExtraWater(-duration) == -ExtraWater(duration)
  {
    ExtraWaterClosedForm(duration);
    ExtraWaterClosedForm(-duration);
  }
}
