/** The sample packages processed by the tracker's driver, worked through the
    model, together with the failure cases of the pipeline from a package to
    its summary. */
module Samples {
  import opened Outcomes
  import opened Workouts
  import opened Summary
  import opened Factory

  /** Swimming 720 strokes in one hour, 80 kg, 40 lengths of a 25 m pool. */
  lemma SwimmingSample()
    ensures ReadPackage("SWM", [720.0, 1.0, 80.0, 25.0, 40.0]) == Ok(Swimming(720.0, 1.0, 80.0, 25.0, 40.0))
    ensures ShowTrainingInfo(Swimming(720.0, 1.0, 80.0, 25.0, 40.0))
      == Ok(InfoMessage("Swimming", 1.0, 0.9936, 1.0, 336.0))
  {
  }

  /** Running 15000 steps in one hour, 75 kg. */
  lemma RunningSample()
    ensures ReadPackage("RUN", [15000.0, 1.0, 75.0]) == Ok(Running(15000.0, 1.0, 75.0))
    ensures ShowTrainingInfo(Running(15000.0, 1.0, 75.0))
      == Ok(InfoMessage("Running", 1.0, 9.75, 9.75, 797.805))
  {
  }

  /** Sports walking 9000 steps in one hour, 75 kg, 180 cm. */
  lemma WalkingSample()
    ensures ReadPackage("WLK", [9000.0, 1.0, 75.0, 180.0]) == Ok(SportsWalking(9000.0, 1.0, 75.0, 180.0))
    ensures ShowTrainingInfo(SportsWalking(9000.0, 1.0, 75.0, 180.0))
      == Ok(InfoMessage("SportsWalking", 1.0, 5.85, 5.85, 349.251747525))
  {
  }

  /** A package whose summary can be built reports the kind its code selects
      and the duration it was given. */
  lemma PackageSummary(code: string, data: seq<real>)
    requires ReadPackage(code, data).Ok?
    requires data[1] != 0.0 && (code == "WLK" ==> data[3] != 0.0)
    ensures ShowTrainingInfo(ReadPackage(code, data).value).Ok?
    ensures var m := ShowTrainingInfo(ReadPackage(code, data).value).value;
      && m.duration == data[1]
      && m.trainingType == (if code == "RUN" then "Running" else if code == "WLK" then "SportsWalking" else "Swimming")
  {
  }

  /** A zero duration makes the summary of every kind fail, and so does a zero
      height for sports walking. */
  lemma ZeroDivisorPackages(code: string, data: seq<real>)
    requires ReadPackage(code, data).Ok?
    requires data[1] == 0.0 || (code == "WLK" && data[3] == 0.0)
    ensures ShowTrainingInfo(ReadPackage(code, data).value) == Err(ZeroDivision)
  {
  }

  /** An unknown code never yields a default workout. */
  lemma UnknownCodeSample()
    ensures ReadPackage("BIKE", [1.0, 1.0, 1.0]) == Err(UnknownWorkout("BIKE"))
  {
  }

  /** A running package with a height reading is refused. */
  lemma WrongAritySample()
    ensures ReadPackage("RUN", [9000.0, 1.0, 75.0, 180.0]) == Err(WrongArgumentCount(3, 4))
  {
  }
}
