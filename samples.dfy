/** The three sample packages the program's driver processes, and two rejected ones. */
module Samples {
  import opened Wrappers
  import opened Trainings
  import opened Info
  import opened Packages

  /** ('SWM', [720, 1, 80, 25, 40]): 0.9936 km at 1 km/h, 336 kcal. */
  lemma SampleSwimming()
    ensures ReadPackage("SWM", [720.0, 1.0, 80.0, 25.0, 40.0]) == Ok(Swimming(720.0, 1.0, 80.0, 25.0, 40.0))
    ensures ShowTrainingInfo(Swimming(720.0, 1.0, 80.0, 25.0, 40.0))
      == InfoMessage("Swimming", 1.0, 0.9936, 1.0, 336.0)
  {
  }

  /** ('RUN', [15000, 1, 75]): 9.75 km at 9.75 km/h, 699.75 kcal. */
  lemma SampleRunning()
    ensures ReadPackage("RUN", [15000.0, 1.0, 75.0]) == Ok(Running(15000.0, 1.0, 75.0))
    ensures ShowTrainingInfo(Running(15000.0, 1.0, 75.0))
      == InfoMessage("Running", 1.0, 9.75, 9.75, 699.75)
  {
  }

  /** ('WLK', [9000, 1, 75, 180]): 5.85 km at 5.85 km/h; 5.85 squared is below 180, so 157.5 kcal. */
  lemma SampleWalking()
    ensures ReadPackage("WLK", [9000.0, 1.0, 75.0, 180.0]) == Ok(SportsWalking(9000.0, 1.0, 75.0, 180.0))
    ensures ShowTrainingInfo(SportsWalking(9000.0, 1.0, 75.0, 180.0))
      == InfoMessage("SportsWalking", 1.0, 5.85, 5.85, 157.5)
  {
    var t := SportsWalking(9000.0, 1.0, 75.0, 180.0);
    assert MeanSpeed(t) == 5.85;
    assert MeanSpeed(t) * MeanSpeed(t) < t.height;
  }

  /** An unknown code, and a known code with too few values, build no training. */
  lemma SampleRejected()
    ensures ReadPackage("XYZ", [1.0, 2.0, 3.0]) == Err(UnknownWorkoutType("XYZ"))
    ensures ReadPackage("RUN", [1.0, 2.0]) == Err(WrongLength(3, 2))
  {
  }
}
