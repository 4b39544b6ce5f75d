/** Building a workout from the sensor package: a workout code and the flat,
    positional list of readings. */
module Factory {
  import opened Outcomes
  import opened Workouts

  /** The constructor a workout code selects. */
  datatype Kind = RunningKind | WalkingKind | SwimmingKind

  /** The registry of workout codes: exactly three codes, and every kind is
      reachable from one of them. */
  function Registry(): (reg: map<string, Kind>)
    ensures reg.Keys == {"RUN", "SWM", "WLK"}
    ensures reg.Values == {RunningKind, WalkingKind, SwimmingKind}
  {
    map["RUN" := RunningKind, "SWM" := SwimmingKind, "WLK" := WalkingKind]
  }

  /** How many positional readings each constructor takes. */
  function Arity(k: Kind): (n: nat)
    ensures 3 <= n <= 5
  {
    match k
    case RunningKind => 3
    case WalkingKind => 4
    case SwimmingKind => 5
  }

  function KindOf(w: Workout): Kind
  {
    match w
    case Running(_, _, _) => RunningKind
    case SportsWalking(_, _, _, _) => WalkingKind
    case Swimming(_, _, _, _, _) => SwimmingKind
  }

  /** The readings of a session, in constructor order. */
  function Arguments(w: Workout): (data: seq<real>)
    ensures |data| == Arity(KindOf(w))
    ensures data[0] == w.action && data[1] == w.duration && data[2] == w.weight
    ensures w.SportsWalking? ==> data[3] == w.height
    ensures w.Swimming? ==> data[3] == w.lengthPool && data[4] == w.countPool
  {
    match w
    case Running(a, d, wt) => [a, d, wt]
    case SportsWalking(a, d, wt, h) => [a, d, wt, h]
    case Swimming(a, d, wt, l, c) => [a, d, wt, l, c]
  }

  /** The registry code under which a session's kind is found. */
  function Code(w: Workout): (code: string)
    ensures code in Registry() && Registry()[code] == KindOf(w)
  {
    match w
    case Running(_, _, _) => "RUN"
    case SportsWalking(_, _, _, _) => "WLK"
    case Swimming(_, _, _, _, _) => "SWM"
  }

  /** Calls the selected constructor with the readings spread positionally;
      a list of the wrong length is refused. */
  function Construct(k: Kind, data: seq<real>): (r: Result<Workout>)
    ensures r.Ok? <==> |data| == Arity(k)
    ensures r.Err? ==> r.failure == WrongArgumentCount(Arity(k), |data|)
    ensures r.Ok? ==> KindOf(r.value) == k && Arguments(r.value) == data
  {
    if |data| != Arity(k) then Err(WrongArgumentCount(Arity(k), |data|))
    else match k
      case RunningKind => Ok(Running(data[0], data[1], data[2]))
      case WalkingKind => Ok(SportsWalking(data[0], data[1], data[2], data[3]))
      case SwimmingKind => Ok(Swimming(data[0], data[1], data[2], data[3], data[4]))
  }

  /** Looks the code up in the registry, then constructs the workout. An
      unknown code fails before the readings are looked at. A workout that is
      built is the one whose code and readings were given. */
  function ReadPackage(code: string, data: seq<real>): (r: Result<Workout>)
    ensures code !in Registry() ==> r == Err(UnknownWorkout(code))
    ensures code in Registry() && |data| != Arity(Registry()[code]) ==>
      r == Err(WrongArgumentCount(Arity(Registry()[code]), |data|))
    ensures r.Ok? <==> code in Registry() && |data| == Arity(Registry()[code])
    ensures r.Ok? ==> Code(r.value) == code && Arguments(r.value) == data
  {
    if code !in Registry() then Err(UnknownWorkout(code))
    else Construct(Registry()[code], data)
  }

  /** Reading back the package of any session rebuilds that session: the
      factory is the inverse of taking a session's code and readings. */
  lemma ReadPackageRoundTrip(w: Workout)
    ensures ReadPackage(Code(w), Arguments(w)) == Ok(w)
  {
  }
}
