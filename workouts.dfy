/** The three workout kinds of the fitness tracker and the quantities derived
    from their sensor readings: distance (km), mean speed (km/h) and the
    calories spent. Every quantity is an exact `real`. */
module Workouts {

  // Conversion factors shared by every workout kind.
  const MetresPerKm: real := 1000.0
  const MinutesPerHour: real := 60.0

  // Distance covered by one step (running, sports walking) or one stroke (swimming), in metres.
  const StepLengthM: real := 0.65
  const StrokeLengthM: real := 1.38

  // Running calorie formula.
  const RunSpeedMultiplier: real := 18.0
  const RunSpeedShift: real := 1.79

  // Sports-walking calorie formula.
  const WalkWeightMultiplier: real := 0.035
  const WalkSpeedHeightMultiplier: real := 0.029
  const CmPerMetre: real := 100.0
  const KmhToMetresPerSecond: real := 0.278

  // Swimming calorie formula.
  const SwimSpeedShift: real := 1.1
  const SwimWeightMultiplier: real := 2.0

  /** One workout session: the readings each kind is constructed from. They are
      stored as given and never change afterwards. `action` counts steps or
      strokes, `duration` is in hours, `weight` in kg, `height` in cm,
      `lengthPool` in metres and `countPool` is the number of pool lengths. */
  datatype Workout =
    | Running(action: real, duration: real, weight: real)
    | SportsWalking(action: real, duration: real, weight: real, height: real)
    | Swimming(action: real, duration: real, weight: real, lengthPool: real, countPool: real)

  /** The per-kind step length: swimming overrides the base value with its stroke length. */
  function StepLength(w: Workout): (m: real)
    ensures m > 0.0
    ensures w.Swimming? <==> m == StrokeLengthM
    ensures !w.Swimming? ==> m == StepLengthM
  {
    if w.Swimming? then StrokeLengthM else StepLengthM
  }

  /** Distance in km, shared by all kinds: steps (or strokes) times their length. */
  function Distance(w: Workout): (r: real)
    ensures r >= 0.0 <==> w.action >= 0.0
    ensures r == 0.0 <==> w.action == 0.0
    ensures !w.Swimming? ==> r == w.action * 0.00065
    ensures w.Swimming? ==> r == w.action * 0.00138
  {
    w.action * StepLength(w) / MetresPerKm
  }

  /** Mean speed in km/h. Running and sports walking inherit the base rule
      (distance over duration); swimming overrides it with the pool distance
      over duration, which does not involve `action` at all. Dividing by a zero
      duration is an error in every kind. */
  function MeanSpeed(w: Workout): (r: real)
    requires w.duration != 0.0
    ensures !w.Swimming? ==> r * w.duration == Distance(w)
    ensures w.Swimming? ==> r * w.duration * MetresPerKm == w.lengthPool * w.countPool
  {
    match w
    case Swimming(_, duration, _, lengthPool, countPool) =>
      lengthPool * countPool / MetresPerKm / duration
    case _ =>
      Distance(w) / w.duration
  }

  /** The inputs for which every calorie formula is free of division by zero:
      a non-zero duration, and for sports walking a non-zero height. */
  predicate CaloriesDefined(w: Workout)
  {
    w.duration != 0.0 && (w.SportsWalking? ==> w.height != 0.0)
  }

  /** Physically meaningful readings: nothing negative, and a positive
      duration, weight and (for walking) height. */
  predicate Plausible(w: Workout)
  {
    && w.action >= 0.0
    && w.duration > 0.0
    && w.weight > 0.0
    && (w.SportsWalking? ==> w.height > 0.0)
    && (w.Swimming? ==> w.lengthPool >= 0.0 && w.countPool >= 0.0)
  }

  /** A product of two positive numbers is positive. */
  lemma PositiveProduct(a: real, b: real)
    ensures a > 0.0 && b > 0.0 ==> a * b > 0.0
  {
  }

  /** Running calories, from the mean speed in km/h. */
  function RunningCalories(speed: real, duration: real, weight: real): (r: real)
    ensures speed >= 0.0 && duration > 0.0 && weight > 0.0 ==> r > 0.0
  {
    var perMinute := (RunSpeedMultiplier * speed + RunSpeedShift) * weight / MetresPerKm;
    PositiveProduct(perMinute, duration);
    perMinute * duration * MinutesPerHour
  }

  /** The squared walking speed in m/s over the height in metres, the
      speed-dependent part of the sports-walking formula. */
  function SpeedHeightRatio(speed: real, height: real): (r: real)
    requires height != 0.0
    ensures height > 0.0 ==> r >= 0.0
  {
    var speedMs := speed * KmhToMetresPerSecond;
    var heightM := height / CmPerMetre;
    speedMs * speedMs / heightM
  }

  /** Sports-walking calories, from the mean speed converted to m/s and the
      height converted from cm to metres. */
  function WalkingCalories(speed: real, duration: real, weight: real, height: real): (r: real)
    requires height != 0.0
    ensures duration > 0.0 && weight > 0.0 && height > 0.0 ==> r > 0.0
  {
    (WalkWeightMultiplier * weight
      + SpeedHeightRatio(speed, height) * WalkSpeedHeightMultiplier * weight)
    * duration * MinutesPerHour
  }

  /** Swimming calories, from the pool-based mean speed in km/h. */
  function SwimmingCalories(speed: real, duration: real, weight: real): (r: real)
    ensures speed >= 0.0 && duration > 0.0 && weight > 0.0 ==> r > 0.0
  {
    (speed + SwimSpeedShift) * SwimWeightMultiplier * weight * duration
  }

  /** Calories spent; each kind applies its own formula to its own mean speed. */
  function Calories(w: Workout): (r: real)
    requires CaloriesDefined(w)
    ensures Plausible(w) ==> r > 0.0
  {
    PlausibleSpeedNonNegative(w);
    match w
    case Running(_, duration, weight) =>
      RunningCalories(MeanSpeed(w), duration, weight)
    case SportsWalking(_, duration, weight, height) =>
      WalkingCalories(MeanSpeed(w), duration, weight, height)
    case Swimming(_, duration, weight, _, _) =>
      SwimmingCalories(MeanSpeed(w), duration, weight)
  }

  /** With plausible readings no kind reports a negative speed. */
  lemma PlausibleSpeedNonNegative(w: Workout)
    requires w.duration != 0.0
    ensures Plausible(w) ==> MeanSpeed(w) >= 0.0
  {
  }

  /** The same session with another step (or stroke) count. */
  function WithAction(w: Workout, action: real): Workout
  {
    match w
    case Running(_, d, wt) => Running(action, d, wt)
    case SportsWalking(_, d, wt, h) => SportsWalking(action, d, wt, h)
    case Swimming(_, d, wt, l, c) => Swimming(action, d, wt, l, c)
  }

  /** The same session for an athlete of another weight. */
  function WithWeight(w: Workout, weight: real): Workout
  {
    match w
    case Running(a, d, _) => Running(a, d, weight)
    case SportsWalking(a, d, _, h) => SportsWalking(a, d, weight, h)
    case Swimming(a, d, _, l, c) => Swimming(a, d, weight, l, c)
  }

  /** Swimming's speed and calories come from the pool, not from the stroke
      count: two swims that differ only in `action` report the same speed and
      calories, while their distances differ. */
  lemma SwimmingIgnoresStrokes(w: Workout, strokes: real)
    requires w.Swimming? && w.duration != 0.0
    ensures MeanSpeed(WithAction(w, strokes)) == MeanSpeed(w)
    ensures Calories(WithAction(w, strokes)) == Calories(w)
    ensures Distance(WithAction(w, strokes)) == Distance(w) <==> strokes == w.action
  {
  }

  /** Every calorie formula is proportional to the athlete's weight. */
  lemma CaloriesProportionalToWeight(w: Workout, k: real)
    requires CaloriesDefined(w)
    ensures Calories(WithWeight(w, k * w.weight)) == k * Calories(w)
  {
    var v := WithWeight(w, k * w.weight);
    assert MeanSpeed(v) == MeanSpeed(w) by { SpeedIgnoresWeight(w, k * w.weight); }
    match w
    case Running(_, d, wt) => RunningCaloriesScale(MeanSpeed(w), d, wt, k);
    case SportsWalking(a, d, wt, h) =>
      assert v == SportsWalking(a, d, k * wt, h);
      WalkingCaloriesScale(MeanSpeed(w), d, wt, h, k);
    case Swimming(_, d, wt, _, _) => SwimmingCaloriesScale(MeanSpeed(w), d, wt, k);
  }

  /** The mean speed of a session does not depend on the athlete's weight. */
  lemma SpeedIgnoresWeight(w: Workout, weight: real)
    requires w.duration != 0.0
    ensures MeanSpeed(WithWeight(w, weight)) == MeanSpeed(w)
  {
  }

  lemma RunningCaloriesScale(s: real, d: real, wt: real, k: real)
    ensures RunningCalories(s, d, k * wt) == k * RunningCalories(s, d, wt)
  {
  }

  lemma WalkingCaloriesScale(s: real, d: real, wt: real, h: real, k: real)
    requires h != 0.0
    ensures WalkingCalories(s, d, k * wt, h) == k * WalkingCalories(s, d, wt, h)
  {
  }

  lemma SwimmingCaloriesScale(s: real, d: real, wt: real, k: real)
    ensures SwimmingCalories(s, d, k * wt) == k * SwimmingCalories(s, d, wt)
  {
  }

  /** In running, the duration inside the mean speed cancels against the
      duration factor: the calories are a linear function of the steps and
      the duration. */
  lemma RunningCaloriesClosedForm(w: Workout)
    requires w.Running? && w.duration != 0.0
    ensures Calories(w) == (RunSpeedMultiplier * 0.00065 * w.action + RunSpeedShift * w.duration) * w.weight * 0.06
  {
  }

  /** In swimming the duration cancels the same way against the pool distance. */
  lemma SwimmingCaloriesClosedForm(w: Workout)
    requires w.Swimming? && w.duration != 0.0
    ensures Calories(w) == (w.lengthPool * w.countPool / MetresPerKm + SwimSpeedShift * w.duration) * SwimWeightMultiplier * w.weight
  {
  }

  /** For running and sports walking, more steps over the same session mean
      a higher speed and more calories. */
  lemma MoreStepsMoreCalories(w: Workout, steps: real)
    requires !w.Swimming? && Plausible(w) && steps > w.action
    ensures MeanSpeed(WithAction(w, steps)) > MeanSpeed(w)
    ensures Calories(WithAction(w, steps)) > Calories(w)
  {
    var v := WithAction(w, steps);
    var s, t := MeanSpeed(w), MeanSpeed(v);
    PlausibleSpeedNonNegative(w);
    DivideStrictly(Distance(w), Distance(v), w.duration);
    match w
    case Running(_, d, wt) => RunningCaloriesGrow(s, t, d, wt);
    case SportsWalking(_, d, wt, h) => WalkingCaloriesGrow(s, t, d, wt, h);
  }

  lemma RunningCaloriesGrow(s: real, t: real, d: real, wt: real)
    requires s < t && d > 0.0 && wt > 0.0
    ensures RunningCalories(s, d, wt) < RunningCalories(t, d, wt)
  {
    var m := wt / MetresPerKm * d;
    PositiveProduct(wt / MetresPerKm, d);
    ScaleStrictly(RunSpeedMultiplier * s + RunSpeedShift, RunSpeedMultiplier * t + RunSpeedShift, m);
    assert RunningCalories(s, d, wt) == (RunSpeedMultiplier * s + RunSpeedShift) * m * MinutesPerHour;
    assert RunningCalories(t, d, wt) == (RunSpeedMultiplier * t + RunSpeedShift) * m * MinutesPerHour;
  }

  lemma WalkingCaloriesGrow(s: real, t: real, d: real, wt: real, h: real)
    requires 0.0 <= s < t && d > 0.0 && wt > 0.0 && h > 0.0
    ensures WalkingCalories(s, d, wt, h) < WalkingCalories(t, d, wt, h)
  {
    var p, q := SpeedHeightRatio(s, h), SpeedHeightRatio(t, h);
    SpeedHeightRatioGrows(s, t, h);
    var f := WalkSpeedHeightMultiplier * wt;
    ScaleStrictly(p, q, f);
    var m := d * MinutesPerHour;
    ScaleStrictly(WalkWeightMultiplier * wt + p * f, WalkWeightMultiplier * wt + q * f, m);
    assert WalkingCalories(s, d, wt, h) == (WalkWeightMultiplier * wt + p * f) * m;
    assert WalkingCalories(t, d, wt, h) == (WalkWeightMultiplier * wt + q * f) * m;
  }

  /** A faster walk gives a larger speed-height ratio. */
  lemma SpeedHeightRatioGrows(s: real, t: real, height: real)
    requires 0.0 <= s < t && height > 0.0
    ensures SpeedHeightRatio(s, height) < SpeedHeightRatio(t, height)
  {
    var sm, tm := s * KmhToMetresPerSecond, t * KmhToMetresPerSecond;
    SquareStrictly(sm, tm);
    DivideStrictly(sm * sm, tm * tm, height / CmPerMetre);
  }

  /** Dividing by a positive number keeps a strict order. */
  lemma DivideStrictly(a: real, b: real, d: real)
    requires d > 0.0
    ensures a < b ==> a / d < b / d
  {
  }

  /** Squaring keeps the strict order of non-negative numbers. */
  lemma SquareStrictly(a: real, b: real)
    requires 0.0 <= a < b
    ensures a * a < b * b
  {
    ScaleStrictly(a, b, b);
    NonNegTimes(a, b - a);
  }

  lemma NonNegTimes(a: real, b: real)
    ensures a >= 0.0 && b >= 0.0 ==> a * b >= 0.0
  {
  }

  /** Multiplying by a positive factor keeps a strict order. */
  lemma ScaleStrictly(a: real, b: real, c: real)
    ensures a < b && c > 0.0 ==> a * c < b * c
  {
  }
}
