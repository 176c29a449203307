/** Properties of the workout statistics: the constants each variant uses, how
    the overridden steps relate to the base ones, closed forms that make the
    dependence on each input visible, and monotonicity and sign facts. */
module TrainingProperties {
  import opened Training

  /** get_distance is positive exactly when the step count is, and zero
      exactly when it is. */
  lemma DistanceSign(w: Workout)
    ensures (Distance(w) > 0.0) == (w.action > 0.0)
    ensures (Distance(w) == 0.0) == (w.action == 0.0)
  {
  }

  /** The base mean speed covers get_distance in the workout's duration. */
  lemma BaseMeanSpeedCoversDistance(w: Workout)
    requires w.duration != 0.0
    ensures BaseMeanSpeed(w) * w.duration == Distance(w)
  {
  }

  /** Over the workout's duration, the dispatched mean speed covers
      get_distance on land, and the pool length times the lap count (in km)
      in the pool. */
  lemma MeanSpeedCoversDistance(w: Workout)
    requires w.duration != 0.0
    ensures !w.Swimming? ==> MeanSpeed(w) * w.duration == Distance(w)
    ensures w.Swimming? ==> MeanSpeed(w) * w.duration * MetersInKm == w.lengthPool * w.countPool
  {
  }

  /** Land workouts walk 0.65 m per step, swimming covers 1.38 m per stroke. */
  lemma DistancePerVariant(w: Workout)
    ensures !w.Swimming? ==> Distance(w) == w.action * 0.00065
    ensures w.Swimming? ==> Distance(w) == w.action * 0.00138
  {
  }

  /** The base mean speed recomputes the distance inline; it is exactly
      get_distance divided by the duration. */
  lemma LandMeanSpeedIsDistanceOverDuration(w: Workout)
    requires !w.Swimming? && w.duration != 0.0
    ensures MeanSpeed(w) == Distance(w) / w.duration
  {
  }

  /** Swimming's speed and calories come from the pool geometry: the stroke
      count does not enter them. */
  lemma SwimmingIgnoresAction(action: real, action': real, duration: real, weight: real,
                              lengthPool: real, countPool: real)
    requires duration != 0.0
    ensures var w, w' := Swimming(action, duration, weight, lengthPool, countPool),
                         Swimming(action', duration, weight, lengthPool, countPool);
            MeanSpeed(w') == MeanSpeed(w) && Calories(w') == Calories(w)
  {
  }

  /** Running calories in closed form: the stride term only depends on the
      step count and the weight, because the duration cancels. */
  lemma RunningCaloriesClosedForm(action: real, duration: real, weight: real)
    requires duration != 0.0
    ensures Calories(Running(action, duration, weight))
              == 0.000702 * action * weight + 0.1074 * duration * weight
  {
    var w := Running(action, duration, weight);
    var v := BaseMeanSpeed(w);
    assert v * duration == action * 0.00065;
    calc {
      Calories(w);
      (18.0 * v + 1.79) * weight / 1000.0 * duration * 60.0;
      1.08 * (v * duration) * weight + 0.1074 * duration * weight;
      0.000702 * action * weight + 0.1074 * duration * weight;
    }
  }

  /** Swimming calories in closed form. */
  lemma SwimmingCaloriesClosedForm(action: real, duration: real, weight: real,
                                   lengthPool: real, countPool: real)
    requires duration != 0.0
    ensures Calories(Swimming(action, duration, weight, lengthPool, countPool))
              == 0.002 * lengthPool * countPool * weight + 2.2 * duration * weight
  {
    var w := Swimming(action, duration, weight, lengthPool, countPool);
    var v := MeanSpeed(w);
    assert v * duration == lengthPool * countPool / 1000.0;
    calc {
      Calories(w);
      (v + 1.1) * 2.0 * weight * duration;
      2.0 * (v * duration) * weight + 2.2 * duration * weight;
      0.002 * lengthPool * countPool * weight + 2.2 * duration * weight;
    }
  }

  /** Race-walking mean speed does not depend on the walker's height. */
  lemma WalkingSpeedIgnoresHeight(action: real, duration: real, weight: real,
                                  height: real, height': real)
    requires duration != 0.0
    ensures BaseMeanSpeed(SportsWalking(action, duration, weight, height'))
              == BaseMeanSpeed(SportsWalking(action, duration, weight, height))
  {
  }

  /** The shape of SportsWalking's calorie formula, over plain reals: with a
      positive weight, duration and squared speed it strictly decreases as the
      height in metres grows. */
  lemma WalkingFormulaDecreases(weight: real, duration: real, sq: real, heightM: real, tallerM: real)
    requires weight > 0.0 && duration > 0.0 && sq > 0.0 && 0.0 < heightM < tallerM
    ensures (WalkWeightCoef1 * weight + (sq / tallerM) * WalkWeightCoef2 * weight)
              * duration * MinutesInHour
            < (WalkWeightCoef1 * weight + (sq / heightM) * WalkWeightCoef2 * weight)
              * duration * MinutesInHour
  {
    assert sq / tallerM < sq / heightM by {
      assert sq / tallerM * tallerM == sq;
      assert sq / heightM * heightM == sq;
    }
  }

  /** A taller walker with the same steps, time and weight burns strictly fewer
      calories: the squared speed is divided by the height. */
  lemma WalkingCaloriesDecreaseWithHeight(action: real, duration: real, weight: real,
                                          height: real, taller: real)
    requires action != 0.0 && duration > 0.0 && weight > 0.0 && 0.0 < height < taller
    ensures Calories(SportsWalking(action, duration, weight, taller))
              < Calories(SportsWalking(action, duration, weight, height))
  {
    var w := SportsWalking(action, duration, weight, height);
    WalkingSpeedIgnoresHeight(action, duration, weight, height, taller);
    assert BaseMeanSpeed(w) != 0.0 by {
      assert BaseMeanSpeed(w) * duration == Distance(w);
    }
    WalkingFormulaDecreases(weight, duration, Squared(BaseMeanSpeed(w) * KmhToMs),
                            height / CmInM, taller / CmInM);
  }

  /** In the intended physical domain every workout burns a positive number of
      calories. */
  lemma CaloriesPositive(w: Workout)
    requires Plausible(w)
    ensures Calories(w) > 0.0
  {
    match w
    case Running(a, d, m) =>
      RunningCaloriesClosedForm(a, d, m);
      assert a * m >= 0.0;
      assert d * m > 0.0;
    case SportsWalking(a, d, m, h) =>
      WalkingFormulaPositive(m, d, Squared(BaseMeanSpeed(w) * KmhToMs), h / CmInM);
    case Swimming(a, d, m, l, c) =>
      SwimmingCaloriesClosedForm(a, d, m, l, c);
      assert l * c >= 0.0;
      assert l * c * m >= 0.0;
      assert d * m > 0.0;
  }

  /** The shape of SportsWalking's calorie formula is positive for a positive
      weight, duration and height and any squared speed. */
  lemma WalkingFormulaPositive(weight: real, duration: real, sq: real, heightM: real)
    requires weight > 0.0 && duration > 0.0 && sq >= 0.0 && heightM > 0.0
    ensures (WalkWeightCoef1 * weight + (sq / heightM) * WalkWeightCoef2 * weight)
              * duration * MinutesInHour > 0.0
  {
    assert sq / heightM >= 0.0;
  }
}
