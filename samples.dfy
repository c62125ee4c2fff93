/** The three sample packages of the program's driver, with the summaries they produce. */
module Samples {
  import opened Wrappers
  import opened Workouts
  import opened Packages
  import opened WorkoutProperties

  /** A swim of 720 strokes, one hour, 80 kg, 40 laps of a 25 m pool. */
  lemma SwimmingSample()
    ensures ReadPackage("SWM", [720.0, 1.0, 80.0, 25.0, 40.0]) == Ok(Swimming(720.0, 1.0, 80.0, 25.0, 40.0))
    ensures ShowTrainingInfo(Swimming(720.0, 1.0, 80.0, 25.0, 40.0))
      == Ok(InfoMessage("Swimming", 1.0, 0.9936, 1.0, 336.0))
  {
  }

  /** A run of 15000 steps, one hour, 75 kg. */
  lemma RunningSample()
    ensures ReadPackage("RUN", [15000.0, 1.0, 75.0]) == Ok(Running(15000.0, 1.0, 75.0))
    ensures ShowTrainingInfo(Running(15000.0, 1.0, 75.0))
      == Ok(InfoMessage("Running", 1.0, 9.75, 9.75, 699.75))
  {
  }

  /** A walk of 9000 steps, one hour, 75 kg, 180 cm: the squared speed 34.2225 floor-divides by 180 to 0. */
  lemma WalkingSample()
    ensures ReadPackage("WLK", [9000.0, 1.0, 75.0, 180.0]) == Ok(SportsWalking(9000.0, 1.0, 75.0, 180.0))
    ensures ShowTrainingInfo(SportsWalking(9000.0, 1.0, 75.0, 180.0))
      == Ok(InfoMessage("SportsWalking", 1.0, 5.85, 5.85, 157.5))
  {
  }

  /**
   * On the walking sample, floor division changes the result: with real
   * division in its place the formula would give 217.04715 instead of 157.5.
   */
  lemma WalkingSampleNeedsFloor()
    ensures WalkingCalories(5.85, 1.0, 75.0, 180.0) == 157.5
    ensures WalkingCaloriesRealDivision(5.85, 1.0, 75.0, 180.0) == 217.04715
  {
  }

  /** A code outside the table fails before its data is looked at; a known code with too few values fails on the count. */
  lemma ErrorSamples()
    ensures ReadPackage("BIKE", [1.0, 1.0, 1.0]) == Err(UnknownType("BIKE"))
    ensures ReadPackage("RUN", [15000.0, 1.0]) == Err(ArityMismatch("RUN", 3, 2))
    ensures ShowTrainingInfo(Training(15000.0, 1.0, 75.0)) == Err(NotImplemented("Training"))
  {
  }
}
