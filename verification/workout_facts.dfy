/**
 * Properties of the workout formulas that relate several records or compare
 * a formula with an alternative reading of it.
 */
module WorkoutFacts {
  import opened Workouts

  /** Each kind has its own name, so the report's name identifies the kind. */
  lemma KindNameIdentifiesKind(a: Training, b: Training)
    ensures KindName(a) == KindName(b) <==>
      (a.Running? && b.Running?) || (a.SportsWalking? && b.SportsWalking?) || (a.Swimming? && b.Swimming?)
  {
  }

  /** More actions of the same kind never give a shorter distance. */
  lemma DistanceMonotone(t: Training, more: real)
    requires t.action <= more
    ensures Distance(t) <= Distance(t.(action := more))
  {
  }

  /** The swimming speed depends on the pool, not on the number of strokes. */
  lemma SwimmingSpeedIgnoresStrokes(t: Training, strokes: real)
    requires t.Swimming? && t.duration != 0.0
    ensures var u := Swimming(strokes, t.duration, t.weight, t.lengthPool, t.countPool);
      MeanSpeed(u) == MeanSpeed(t) && Calories(u) == Calories(t)
  {
  }

  /**
   * The override matters: for the stock swimming package the pool-based speed
   * differs from the inherited distance-based one.
   */
  lemma SwimmingOverrideDiffersFromBase()
    ensures var t := Swimming(720.0, 1.0, 80.0, 25.0, 40.0);
      MeanSpeed(t) == 1.0 && BaseMeanSpeed(t) == 0.9936 && MeanSpeed(t) != BaseMeanSpeed(t)
  {
  }

  /**
   * In general the override agrees with the inherited speed exactly when the
   * pools swum cover the same metres as the strokes at 1.38 m each.
   */
  lemma SwimmingOverrideAgreesWithBaseIff(t: Training)
    requires t.Swimming? && t.duration != 0.0
    ensures MeanSpeed(t) == BaseMeanSpeed(t) <==> t.lengthPool * t.countPool == t.action * StrokeLength
  {
  }

  /** Walking calories with true division in place of floor division. */
  function WalkingCaloriesTrueDivision(t: Training): real
    requires t.SportsWalking? && Computable(t)
  {
    (WalkWeightFactor * t.weight + WalkingSpeedRatio(t) * WalkSpeedFactor * t.weight) * t.duration * MinutesInHour
  }

  /** Multiplying by a positive factor keeps a strict order. */
  lemma MulStrictMono(a: real, b: real, c: real)
    requires a < b && c > 0.0
    ensures a * c < b * c
  {
  }

  /**
   * A formula linear in a term with a positive coefficient, evaluated at a
   * value less than one below the term, lies within one coefficient of its
   * value at the term itself.
   */
  lemma LowerTermWithin(base: real, x: real, k: real, c: real, lower: real, exact: real)
    requires x < k + 1.0 && c > 0.0
    requires lower == base + k * c && exact == base + x * c
    ensures exact - c < lower
  {
    MulStrictMono(x, k + 1.0, c);
    assert (k + 1.0) * c == k * c + c;
  }

  /**
   * The same formula evaluated at a value not above the term is not above its
   * value at the term, and equal to it only when the two values coincide.
   */
  lemma LowerTermBelow(base: real, x: real, k: real, c: real, lower: real, exact: real)
    requires k <= x && c > 0.0
    requires lower == base + k * c && exact == base + x * c
    ensures lower <= exact
    ensures lower == exact <==> k == x
  {
    if k < x {
      MulStrictMono(k, x, c);
    }
  }

  /**
   * The floored formula lies below the true-division formula by less than one
   * unit of the speed term (0.029 * 60 kcal per kg and hour), and meets it
   * exactly when the squared speed divided by the height is a whole number.
   */
  lemma WalkingFloorWithinOneTermOfTrueDivision(t: Training)
    requires t.SportsWalking? && Computable(t)
    requires t.weight * t.duration > 0.0
    ensures WalkingCaloriesTrueDivision(t) - WalkSpeedFactor * MinutesInHour * (t.weight * t.duration)
            < Calories(t) <= WalkingCaloriesTrueDivision(t)
    ensures Calories(t) == WalkingCaloriesTrueDivision(t) <==> IsWhole(WalkingSpeedRatio(t))
  {
    var x := WalkingSpeedRatio(t);
    var c := WalkSpeedFactor * MinutesInHour * (t.weight * t.duration);
    var base := (WalkWeightFactor * MinutesInHour) * (t.weight * t.duration);
    var k := x.Floor as real;
    assert Calories(t) == base + k * c;
    assert WalkingCaloriesTrueDivision(t) == base + x * c;
    LowerTermWithin(base, x, k, c, Calories(t), WalkingCaloriesTrueDivision(t));
    LowerTermBelow(base, x, k, c, Calories(t), WalkingCaloriesTrueDivision(t));
  }

  /** A walk slow for its height only pays the weight term of the formula. */
  lemma SlowWalkPaysWeightTermOnly(t: Training)
    requires t.SportsWalking? && Computable(t) && t.height > 0.0
    requires WalkingSpeedRatio(t) < 1.0
    ensures Calories(t) == WalkWeightFactor * MinutesInHour * t.weight * t.duration
  {
  }
}
