/** What the formulas of the training hierarchy promise, over all inputs. */
module WorkoutProperties {
  import opened Wrappers
  import opened Workouts

  /** The distance determines the number of actions: dividing back by the step length recovers it. */
  lemma DistanceRecoversAction(w: Workout)
    ensures Distance(w) * M_IN_KM / StepLength(w) == w.action
  {
  }

  /** Distance grows with the number of actions, for workouts of one kind. */
  lemma DistanceMonotone(w: Workout, w': Workout)
    requires KindOf(w) == KindOf(w') && w.action <= w'.action
    ensures Distance(w) <= Distance(w')
  {
  }

  /** Base mean speed is non-negative for a non-negative action count and a positive duration. */
  lemma MeanSpeedNonNegative(w: Workout)
    requires !w.Swimming? && w.action >= 0.0 && w.duration > 0.0
    ensures MeanSpeed(w) >= 0.0
  {
  }

  /** Swimming's mean speed is non-negative for non-negative pool data and a positive duration. */
  lemma SwimmingSpeedNonNegative(w: Workout)
    requires w.Swimming? && w.lengthPool >= 0.0 && w.countPool >= 0.0 && w.duration > 0.0
    ensures MeanSpeed(w) >= 0.0
  {
  }

  /** Swimming's mean speed does not depend on the action count. */
  lemma SwimmingSpeedIgnoresAction(w: Workout, w': Workout)
    requires w.Swimming? && w'.Swimming? && w.duration != 0.0
    requires w'.duration == w.duration && w'.lengthPool == w.lengthPool && w'.countPool == w.countPool
    ensures MeanSpeed(w') == MeanSpeed(w)
  {
  }

  /**
   * Running calories in closed form over the stored fields: the mean speed
   * cancels against the duration, leaving 0.000702 per action-kilogram less
   * 1.2 per hour-kilogram.
   */
  lemma RunningCaloriesClosedForm(w: Workout)
    requires w.Running? && w.duration != 0.0
    ensures Calories(w).Ok? && Calories(w).value == 0.000702 * w.action * w.weight - 1.2 * w.duration * w.weight
  {
  }

  /** The walking formula with real division where the program floor-divides: a reference to compare against. */
  function WalkingCaloriesRealDivision(speed: real, duration: real, weight: real, height: real): real
    requires height != 0.0
  {
    (WLK_COEFF1 * weight + speed * speed / height * WLK_COEFF2 * height) * (duration * MIN_IN_H)
  }

  /**
   * Walking calories: the floor-divided term is a whole number between
   * (speed^2 - height)/height and speed^2/height, so the calories lie between
   * the formula with real division less one height's worth and the formula
   * with real division.
   */
  lemma WalkingCaloriesBounds(w: Workout)
    requires w.SportsWalking? && w.height > 0.0 && w.duration > 0.0
    ensures Calories(w).Ok?
    ensures var speed, t := MeanSpeed(w), w.duration * MIN_IN_H;
      var c := Calories(w).value;
      && c <= WalkingCaloriesRealDivision(speed, w.duration, w.weight, w.height)
      && c > WalkingCaloriesRealDivision(speed, w.duration, w.weight, w.height) - WLK_COEFF2 * w.height * t
      && c >= WLK_COEFF1 * w.weight * t
  {
  }

  /** Swimming calories in closed form over the stored fields. */
  lemma SwimmingCaloriesClosedForm(w: Workout)
    requires w.Swimming? && w.duration != 0.0
    ensures Calories(w).Ok?
    ensures Calories(w).value == 2.2 * w.weight + w.lengthPool * w.countPool * w.weight / (500.0 * w.duration)
  {
  }

  /** Swimming calories depend on the pool data, the duration and the weight, not on the action count. */
  lemma SwimmingCaloriesIgnoreAction(w: Workout, w': Workout)
    requires w.Swimming? && w'.Swimming? && w.duration != 0.0
    requires w'.duration == w.duration && w'.weight == w.weight
    requires w'.lengthPool == w.lengthPool && w'.countPool == w.countPool
    ensures Calories(w').Ok? && Calories(w).Ok? && Calories(w').value == Calories(w).value
  {
  }

  /** Swimming calories are at least 2.2 per kilogram when nothing measured is negative. */
  lemma SwimmingCaloriesLowerBound(w: Workout)
    requires w.Swimming? && w.weight >= 0.0 && w.lengthPool >= 0.0 && w.countPool >= 0.0 && w.duration > 0.0
    ensures Calories(w).Ok? && Calories(w).value >= SWM_COEFF1 * SWM_COEFF2 * w.weight
  {
  }

  /**
   * In a summary of running or walking, speed times duration gives back the
   * distance: the fields come from one and the same workout.
   */
  lemma SummaryConsistent(w: Workout)
    requires Computable(w) && (w.Running? || w.SportsWalking?)
    ensures ShowTrainingInfo(w).Ok?
    ensures var info := ShowTrainingInfo(w).value;
      && info.speed * info.duration == info.distance
      && info.trainingType == (if w.Running? then "Running" else "SportsWalking")
  {
  }

  /** The label tells the kind: no two kinds share a training type name. */
  lemma LabelIdentifiesKind(k: Kind, k': Kind)
    ensures Label(k) == Label(k') <==> k == k'
  {
  }
}
