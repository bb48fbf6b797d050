/**
 * The calculation core of the workout calculator: the three kinds of
 * training, and the distance, mean speed and calories derived from the
 * values a tracker records for one session.
 *
 * The base class of the program, whose calorie method has no formula, is
 * not a constructor here: the set of trainings is closed.
 */
module Trainings {

  /** Metres in a kilometre (Training.M_IN_KM). */
  const MetersInKm: real := 1000.0
  /** Metres covered by one step when running or walking (Training.LEN_STEP). */
  const StepLength: real := 0.65
  /** Metres covered by one stroke when swimming (Swimming.LEN_STEP). */
  const StrokeLength: real := 1.38
  /** Minutes in an hour. */
  const MinutesInHour: real := 60.0

  /** Coefficients of the running calorie formula. */
  const RunSpeedMultiplier: real := 18.0
  const RunSpeedShift: real := 20.0
  /** Coefficients of the walking calorie formula. */
  const WalkWeightCoeff: real := 0.035
  const WalkSpeedHeightCoeff: real := 0.029
  /** Coefficients of the swimming calorie formula. */
  const SwimSpeedShift: real := 1.1
  const SwimWeightMultiplier: real := 2.0

  /**
   * One recorded session. `action` is the number of steps or strokes,
   * `duration` is in hours, `weight` in kilograms, `height` in centimetres,
   * `lengthPool` in metres and `countPool` the number of pool lengths swum.
   */
  datatype Training =
    | Running(action: real, duration: real, weight: real)
    | SportsWalking(action: real, duration: real, weight: real, height: real)
    | Swimming(action: real, duration: real, weight: real, lengthPool: real, countPool: real)

  /** What every getter needs: a positive duration, and a positive height for walking. */
  predicate Computable(t: Training) {
    t.duration > 0.0 && (t.SportsWalking? ==> t.height > 0.0)
  }

  /** The step length the training's class uses. */
  function LenStep(t: Training): (len: real) {
    if t.Swimming? then StrokeLength else StepLength
  }

  /** Distance in kilometres: the actions times the step length, in metres, converted to km. */
  function Distance(t: Training): (km: real)
    ensures km * MetersInKm == t.action * LenStep(t)
    ensures t.action >= 0.0 ==> km >= 0.0
  {
    t.action * LenStep(t) / MetersInKm
  }

  /**
   * Mean speed in km/h. Running and walking divide the distance by the
   * duration; swimming instead uses the pool length times the number of
   * lengths, and so never looks at the stroke count.
   */
  function MeanSpeed(t: Training): (kmh: real)
    requires t.duration > 0.0
    ensures !t.Swimming? ==> kmh * t.duration == Distance(t)
    ensures t.Swimming? ==> kmh * t.duration * MetersInKm == t.lengthPool * t.countPool
    ensures t.Swimming? && t.lengthPool * t.countPool >= 0.0 ==> kmh >= 0.0
    ensures !t.Swimming? && t.action >= 0.0 ==> kmh >= 0.0
  {
    match t
    case Swimming(_, duration, _, lengthPool, countPool) =>
      lengthPool * countPool / MetersInKm / duration
    case _ =>
      Distance(t) / t.duration
  }

  /**
   * Python's floor division `x // y` of two numbers, for a positive divisor:
   * the largest whole number of times `y` fits into `x`.
   */
  function FloorDiv(x: real, y: real): (q: int)
    requires y > 0.0
    ensures q as real * y <= x < (q + 1) as real * y
  {
    var q := (x / y).Floor;
    DivBounds(x, y, q);
    q
  }

  /** From `q <= x / y < q + 1` to the same bounds multiplied out. */
  lemma DivBounds(x: real, y: real, q: int)
    requires y > 0.0
    requires q as real <= x / y < (q + 1) as real
    ensures q as real * y <= x < (q + 1) as real * y
  {
  }

  /** Multiplying both sides by a positive number keeps the order. */
  lemma MultiplyBoth(a: real, b: real, c: real)
    requires a <= b && c > 0.0
    ensures a * c <= b * c
  {
  }

  /** For a non-negative dividend, floor division is zero exactly when the dividend is below the divisor. */
  lemma FloorDivZeroIff(x: real, y: real)
    requires y > 0.0 && x >= 0.0
    ensures FloorDiv(x, y) >= 0
    ensures FloorDiv(x, y) == 0 <==> x < y
  {
    var q := FloorDiv(x, y);
    if q >= 1 {
      MultiplyBoth(1.0, q as real, y);
      assert y <= q as real * y <= x;
    } else {
      assert q == 0;
      assert x < 1.0 * y;
    }
  }

  /** Scaling by a positive weight and duration keeps the sign of the running coefficient. */
  lemma ScaledSign(c: real, weight: real, minutes: real)
    requires minutes > 0.0
    ensures weight > 0.0 ==> (c * weight / MetersInKm * minutes > 0.0 <==> c > 0.0)
  {
  }

  /**
   * The floor term of the walking formula adds to the weight term, and for a
   * positive weight adds something exactly when it is positive.
   */
  lemma WalkingWeightTerm(k: int, weight: real, minutes: real)
    requires k >= 0 && minutes > 0.0
    ensures weight >= 0.0 ==>
      (WalkWeightCoeff * weight + k as real * WalkSpeedHeightCoeff * weight) * minutes
        >= WalkWeightCoeff * weight * minutes
    ensures weight > 0.0 ==>
      (((WalkWeightCoeff * weight + k as real * WalkSpeedHeightCoeff * weight) * minutes
         == WalkWeightCoeff * weight * minutes) <==> k == 0)
  {
  }

  /**
   * Running.get_spent_calories: `(18 * speed - 20) * weight / 1000 * minutes`.
   * The result is positive exactly when `18 * speed` exceeds 20.
   */
  function RunningCalories(speed: real, duration: real, weight: real): (kcal: real)
    requires duration > 0.0
    ensures weight > 0.0 ==> (kcal > 0.0 <==> RunSpeedMultiplier * speed > RunSpeedShift)
  {
    var c := RunSpeedMultiplier * speed - RunSpeedShift;
    var minutes := duration * MinutesInHour;
    ScaledSign(c, weight, minutes);
    c * weight / MetersInKm * minutes
  }

  /**
   * SportsWalking.get_spent_calories:
   * `(0.035 * weight + (speed ** 2 // height) * 0.029 * weight) * minutes`.
   * The floor term never lowers the result below the weight term, and adds
   * nothing exactly when the squared speed is below the height.
   */
  function WalkingCalories(speed: real, duration: real, weight: real, height: real): (kcal: real)
    requires duration > 0.0 && height > 0.0
    ensures weight >= 0.0 ==> kcal >= WalkWeightCoeff * weight * (duration * MinutesInHour)
    ensures weight > 0.0 ==>
      (kcal == WalkWeightCoeff * weight * (duration * MinutesInHour) <==> speed * speed < height)
  {
    var minutes := duration * MinutesInHour;
    var k := FloorDiv(speed * speed, height);
    FloorDivZeroIff(speed * speed, height);
    WalkingWeightTerm(k, weight, minutes);
    (WalkWeightCoeff * weight + k as real * WalkSpeedHeightCoeff * weight) * minutes
  }

  /**
   * Swimming.get_spent_calories: `(speed + 1.1) * 2 * weight`, positive for a
   * positive weight and a speed of at least zero.
   */
  function SwimmingCalories(speed: real, weight: real): (kcal: real)
    ensures weight > 0.0 && speed >= 0.0 ==> kcal > 0.0
  {
    (speed + SwimSpeedShift) * SwimWeightMultiplier * weight
  }

  /** Calories (kcal) spent, by the formula of the training's class. */
  function Calories(t: Training): (kcal: real)
    requires Computable(t)
    ensures t.Running? && t.weight > 0.0 ==>
      (kcal > 0.0 <==> RunSpeedMultiplier * MeanSpeed(t) > RunSpeedShift)
    ensures t.SportsWalking? && t.weight >= 0.0 ==>
      kcal >= WalkWeightCoeff * t.weight * (t.duration * MinutesInHour)
    ensures t.SportsWalking? && t.weight > 0.0 ==>
      (kcal == WalkWeightCoeff * t.weight * (t.duration * MinutesInHour) <==> MeanSpeed(t) * MeanSpeed(t) < t.height)
    ensures t.Swimming? && t.weight > 0.0 && MeanSpeed(t) >= 0.0 ==> kcal > 0.0
  {
    match t
    case Running(_, duration, weight) =>
      RunningCalories(MeanSpeed(t), duration, weight)
    case SportsWalking(_, duration, weight, height) =>
      WalkingCalories(MeanSpeed(t), duration, weight, height)
    case Swimming(_, _, weight, _, _) =>
      SwimmingCalories(MeanSpeed(t), weight)
  }

  /** The step length is 0.65 m for running and walking and 1.38 m for swimming. */
  lemma DistanceByVariant(t: Training)
    ensures t.Swimming? ==> Distance(t) == t.action * 1.38 / 1000.0
    ensures !t.Swimming? ==> Distance(t) == t.action * 0.65 / 1000.0
  {
  }

  /** Running and walking with the same shared fields cover the same distance at the same speed. */
  lemma RunningAndWalkingAgree(action: real, duration: real, weight: real, height: real)
    requires duration > 0.0
    ensures Distance(Running(action, duration, weight)) == Distance(SportsWalking(action, duration, weight, height))
    ensures MeanSpeed(Running(action, duration, weight)) == MeanSpeed(SportsWalking(action, duration, weight, height))
  {
  }

  /**
   * Two swims that differ only in their stroke count have the same speed and
   * the same calories; only their distances differ, by the strokes' length.
   */
  lemma SwimmingIgnoresAction(action1: real, action2: real, duration: real, weight: real,
                              lengthPool: real, countPool: real)
    requires duration > 0.0
    ensures var s1, s2 := Swimming(action1, duration, weight, lengthPool, countPool),
                          Swimming(action2, duration, weight, lengthPool, countPool);
      && MeanSpeed(s1) == MeanSpeed(s2)
      && Calories(s1) == Calories(s2)
      && Distance(s1) - Distance(s2) == (action1 - action2) * StrokeLength / MetersInKm
  {
  }

  /**
   * The running formula `(18 * speed - 20) * weight / 1000 * minutes` with the
   * speed written out: the duration cancels against the speed's divisor.
   */
  lemma RunningCaloriesFromDistance(t: Training)
    requires t.Running? && Computable(t)
    ensures Calories(t) ==
      (RunSpeedMultiplier * Distance(t) - RunSpeedShift * t.duration) * t.weight * MinutesInHour / MetersInKm
  {
  }

  /**
   * The walking term `speed ** 2 // height` is a whole number of at least
   * zero, and zero exactly when the squared speed is below the height.
   */
  lemma WalkingFloorTerm(t: Training)
    requires t.SportsWalking? && Computable(t)
    ensures FloorDiv(MeanSpeed(t) * MeanSpeed(t), t.height) >= 0
    ensures FloorDiv(MeanSpeed(t) * MeanSpeed(t), t.height) == 0 <==> MeanSpeed(t) * MeanSpeed(t) < t.height
  {
    FloorDivZeroIff(MeanSpeed(t) * MeanSpeed(t), t.height);
  }

  /**
   * For a positive weight, walking burns only the weight term exactly when
   * the squared speed is below the height, where the floor term vanishes.
   */
  lemma WalkingCaloriesSlow(t: Training)
    requires t.SportsWalking? && Computable(t) && t.weight > 0.0
    ensures Calories(t) == WalkWeightCoeff * t.weight * (t.duration * MinutesInHour)
      <==> MeanSpeed(t) * MeanSpeed(t) < t.height
  {
  }

  /** The swimming formula `(speed + 1.1) * 2 * weight` with the pool speed written out. */
  lemma SwimmingCaloriesFromPool(t: Training)
    requires t.Swimming? && Computable(t)
    ensures Calories(t) ==
      (t.lengthPool * t.countPool / (MetersInKm * t.duration) + SwimSpeedShift) * SwimWeightMultiplier * t.weight
  {
  }
}
