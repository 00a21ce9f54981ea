/**
 * Workout records and the metrics derived from them: distance, mean speed,
 * spent calories, and the information message that packs them together.
 *
 * Every quantity is an exact `real`; the model abstracts from IEEE-754
 * rounding.  A record is never changed after it is built, so the class
 * hierarchy of homework.py becomes one closed datatype.
 */
module Workouts {

  /** Metres in a kilometre. */
  const MetersInKm: real := 1000.0
  /** Minutes in an hour. */
  const MinutesInHour: real := 60.0
  /** Metres covered by one step (running and sports walking). */
  const StepLength: real := 0.65
  /** Metres covered by one stroke (swimming). */
  const StrokeLength: real := 1.38

  /** Coefficients of the running calorie formula. */
  const RunSpeedFactor: real := 18.0
  const RunSpeedShift: real := 20.0
  /** Coefficients of the sports-walking calorie formula. */
  const WalkWeightFactor: real := 0.035
  const WalkSpeedFactor: real := 0.029
  /** Coefficients of the swimming calorie formula. */
  const SwimSpeedShift: real := 1.1
  const SwimWeightFactor: real := 2.0

  /**
   * One training session.  All kinds share the number of actions (steps or
   * strokes), the duration in hours and the weight in kilograms.
   */
  datatype Training =
    | Running(action: real, duration: real, weight: real)
    | SportsWalking(action: real, duration: real, weight: real, height: real)
    | Swimming(action: real, duration: real, weight: real, lengthPool: real, countPool: real)

  /** The report built from a training: its kind name and four metrics. */
  datatype InfoMessage = InfoMessage(
    trainingType: string,
    duration: real,
    distance: real,
    speed: real,
    calories: real)

  /** The kind's name as the report shows it: the Python class name of the record. */
  function KindName(t: Training): (name: string)
    ensures name == "Running" <==> t.Running?
    ensures name == "SportsWalking" <==> t.SportsWalking?
    ensures name == "Swimming" <==> t.Swimming?
  {
    match t
    case Running(_, _, _) => "Running"
    case SportsWalking(_, _, _, _) => "SportsWalking"
    case Swimming(_, _, _, _, _) => "Swimming"
  }

  /** Length of one action: swimming overrides the inherited step length. */
  function LenStep(t: Training): (len: real)
    ensures len > 0.0
    ensures t.Swimming? ==> len == StrokeLength
    ensures !t.Swimming? ==> len == StepLength
  {
    if t.Swimming? then StrokeLength else StepLength
  }

  /** Distance in kilometres: the actions' total length in metres, scaled to km. */
  function Distance(t: Training): (km: real)
    ensures km * MetersInKm == t.action * LenStep(t)
    ensures t.action >= 0.0 ==> km >= 0.0
  {
    t.action * LenStep(t) / MetersInKm
  }

  /** The inherited mean speed: distance per hour. */
  function BaseMeanSpeed(t: Training): (v: real)
    requires t.duration != 0.0
    ensures v * t.duration == Distance(t)
  {
    Distance(t) / t.duration
  }

  /**
   * The mean speed each kind reports: swimming overrides it with the pool
   * length times the number of pools, which ignores the stroke count.
   */
  function MeanSpeed(t: Training): (v: real)
    requires t.duration != 0.0
    ensures !t.Swimming? ==> v == BaseMeanSpeed(t)
    ensures t.Swimming? ==> v * t.duration * MetersInKm == t.lengthPool * t.countPool
  {
    match t
    case Swimming(_, duration, _, lengthPool, countPool) =>
      lengthPool * countPool / MetersInKm / duration
    case _ => BaseMeanSpeed(t)
  }

  /** A real number with no fractional part. */
  predicate IsWhole(x: real)
  {
    x == x.Floor as real
  }

  /**
   * The inputs the formulas are defined on: speeds divide by the duration and
   * the walking formula divides by the height.
   */
  predicate Computable(t: Training)
  {
    t.duration != 0.0 &&
    match t
    case SportsWalking(_, _, _, height) => height != 0.0
    case _ => true
  }

  /** Floor division of reals, as Python's `//` on floats. */
  function FloorDiv(x: real, y: real): (q: real)
    requires y != 0.0
    ensures IsWhole(q)
    ensures q <= x / y < q + 1.0
  {
    (x / y).Floor as real
  }

  /** Running calories, on the inherited mean speed. */
  function RunningCalories(t: Training): (kcal: real)
    requires t.Running? && t.duration != 0.0
    ensures kcal == t.weight * (RunSpeedFactor * MinutesInHour / MetersInKm * Distance(t)
                                - RunSpeedShift * MinutesInHour / MetersInKm * t.duration)
  {
    (RunSpeedFactor * BaseMeanSpeed(t) - RunSpeedShift) * t.weight / MetersInKm * t.duration * MinutesInHour
  }

  /** The squared inherited speed over the height: the walking formula's speed term before flooring. */
  function WalkingSpeedRatio(t: Training): (x: real)
    requires t.SportsWalking? && Computable(t)
    ensures t.height > 0.0 ==> x >= 0.0
  {
    var speed := BaseMeanSpeed(t);
    assert speed * speed >= 0.0;
    speed * speed / t.height
  }

  /**
   * Sports-walking calories, on the inherited mean speed, with floor division
   * by the height: a weight term plus the whole part of the speed ratio, per
   * kilogram and hour.
   */
  function WalkingCalories(t: Training): (kcal: real)
    requires t.SportsWalking? && Computable(t)
    ensures kcal == (WalkWeightFactor * MinutesInHour) * (t.weight * t.duration)
                    + WalkingSpeedRatio(t).Floor as real * (WalkSpeedFactor * MinutesInHour * (t.weight * t.duration))
  {
    var speed := BaseMeanSpeed(t);
    var term := FloorDiv(speed * speed, t.height);
    assert term == (speed * speed / t.height).Floor as real;
    assert WalkingSpeedRatio(t) == speed * speed / t.height;
    assert term == WalkingSpeedRatio(t).Floor as real;
    Regroup(WalkWeightFactor, WalkSpeedFactor, term, t.weight, t.duration, MinutesInHour);
    (WalkWeightFactor * t.weight + term * WalkSpeedFactor * t.weight) * t.duration * MinutesInHour
  }

  /** Collects a formula per kilogram and minute into terms per kilogram-hour. */
  lemma Regroup(a: real, b: real, k: real, w: real, d: real, m: real)
    ensures (a * w + k * b * w) * d * m == (a * m) * (w * d) + k * (b * m * (w * d))
  {
  }

  /** Swimming calories, on the pool-based mean speed. */
  function SwimmingCalories(t: Training): (kcal: real)
    requires t.Swimming? && t.duration != 0.0
    ensures kcal * t.duration
      == SwimWeightFactor * t.weight * (t.lengthPool * t.countPool / MetersInKm + SwimSpeedShift * t.duration)
  {
    (MeanSpeed(t) + SwimSpeedShift) * SwimWeightFactor * t.weight
  }

  /**
   * Calories spent; each kind has its own formula.  Running and sports
   * walking use the inherited mean speed, swimming its own override.
   */
  function Calories(t: Training): (kcal: real)
    requires Computable(t)
    ensures t.Running? ==>
      kcal == t.weight * (RunSpeedFactor * MinutesInHour / MetersInKm * Distance(t)
                          - RunSpeedShift * MinutesInHour / MetersInKm * t.duration)
    ensures t.SportsWalking? ==>
      kcal == (WalkWeightFactor * MinutesInHour) * (t.weight * t.duration)
              + WalkingSpeedRatio(t).Floor as real * (WalkSpeedFactor * MinutesInHour * (t.weight * t.duration))
    ensures t.Swimming? ==>
      kcal * t.duration == SwimWeightFactor * t.weight * (t.lengthPool * t.countPool / MetersInKm + SwimSpeedShift * t.duration)
  {
    match t
    case Running(_, _, _) => RunningCalories(t)
    case SportsWalking(_, _, _, _) => WalkingCalories(t)
    case Swimming(_, _, _, _, _) => SwimmingCalories(t)
  }

  /** The report of a training: its kind name and its metrics, in that order. */
  function ShowTrainingInfo(t: Training): (msg: InfoMessage)
    requires Computable(t)
    ensures msg.trainingType == KindName(t) && msg.duration == t.duration
    ensures msg.distance == Distance(t) && msg.calories == Calories(t)
    ensures msg.speed == MeanSpeed(t)
    ensures !t.Swimming? ==> msg.speed * msg.duration == msg.distance
  {
    InfoMessage(KindName(t), t.duration, Distance(t), MeanSpeed(t), Calories(t))
  }
}
