/** The summary record a workout reports about itself. */
module Summary {
  import opened Outcomes
  import opened Workouts

  /** The fields of the summary, in the order they are reported. */
  datatype InfoMessage = InfoMessage(
    trainingType: string,
    duration: real,
    distance: real,
    speed: real,
    calories: real)

  /** The name of the workout kind as it appears in the summary. */
  function ClassName(w: Workout): (name: string)
    ensures name in {"Running", "SportsWalking", "Swimming"}
  {
    match w
    case Running(_, _, _) => "Running"
    case SportsWalking(_, _, _, _) => "SportsWalking"
    case Swimming(_, _, _, _, _) => "Swimming"
  }

  /** Two sessions report the same name exactly when they are of the same kind. */
  lemma ClassNameIdentifiesKind(a: Workout, b: Workout)
    ensures ClassName(a) == ClassName(b) <==>
      (a.Running? && b.Running?) || (a.SportsWalking? && b.SportsWalking?) || (a.Swimming? && b.Swimming?)
  {
  }

  /** Builds the summary: name, the stored duration, then distance, mean speed
      and calories, each computed afresh. The mean speed divides by the
      duration and the walking formula by the height, so either being zero
      fails with a division by zero. */
  function ShowTrainingInfo(w: Workout): (r: Result<InfoMessage>)
    ensures r.Ok? <==> w.duration != 0.0 && (w.SportsWalking? ==> w.height != 0.0)
    ensures r.Err? ==> r.failure == ZeroDivision
  {
    if !CaloriesDefined(w) then Err(ZeroDivision)
    else Ok(InfoMessage(ClassName(w), w.duration, Distance(w), MeanSpeed(w), Calories(w)))
  }

  /** What a successful summary reports: the session's own name and duration,
      the step-based distance (for swimming too, from the stroke count), a speed consistent with the distance (or, for swimming, with the pool
      distance), and for plausible readings non-negative distance and speed
      and positive calories. */
  lemma SummaryIsConsistent(w: Workout)
    requires CaloriesDefined(w)
    ensures ShowTrainingInfo(w).Ok?
    ensures var m := ShowTrainingInfo(w).value;
      && m.trainingType == ClassName(w)
      && m.duration == w.duration
      && (!w.Swimming? ==> m.distance == w.action * 0.00065)
      && (w.Swimming? ==> m.distance == w.action * 0.00138)
      && (!w.Swimming? ==> m.speed * m.duration == m.distance)
      && (w.Swimming? ==> m.speed * m.duration * MetresPerKm == w.lengthPool * w.countPool)
      && m.calories == Calories(w)
      && (Plausible(w) ==> m.distance >= 0.0 && m.speed >= 0.0 && m.calories > 0.0)
  {
  }
}
