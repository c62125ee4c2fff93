/**
 * Reading a sensor package: a workout type code and a flat list of numbers
 * become a workout of the matching kind, or an error.
 */
module Packages {
  import opened Wrappers
  import opened Workouts

  /** The table of known workout type codes. */
  const Registry: map<string, Kind> := map["SWM" := SwimmingKind, "RUN" := RunningKind, "WLK" := SportsWalkingKind]

  /** The code under which a kind is registered; the base training has none. */
  function Code(k: Kind): (c: string)
    requires k != TrainingKind
    ensures c in Registry && Registry[c] == k
  {
    match k
    case RunningKind => "RUN"
    case SportsWalkingKind => "WLK"
    case SwimmingKind => "SWM"
  }

  /** Calls the constructor of a kind with the values as positional arguments. */
  function Construct(k: Kind, data: seq<real>): (w: Workout)
    requires |data| == Arity(k)
    ensures KindOf(w) == k && Fields(w) == data
  {
    match k
    case TrainingKind => Training(data[0], data[1], data[2])
    case RunningKind => Running(data[0], data[1], data[2])
    case SportsWalkingKind => SportsWalking(data[0], data[1], data[2], data[3])
    case SwimmingKind => Swimming(data[0], data[1], data[2], data[3], data[4])
  }

  /**
   * Looks the code up first, so an unknown code fails whatever the data;
   * a known code then needs exactly as many values as its constructor takes.
   */
  function ReadPackage(code: string, data: seq<real>): (r: Result<Workout, Error>)
    ensures r.Ok? <==> code in Registry && |data| == Arity(Registry[code])
    ensures r.Ok? ==> KindOf(r.value) == Registry[code] && Fields(r.value) == data
    ensures code !in Registry ==> r == Err(UnknownType(code))
    ensures code in Registry && |data| != Arity(Registry[code])
      ==> r == Err(ArityMismatch(code, Arity(Registry[code]), |data|))
  {
    if code !in Registry then Err(UnknownType(code))
    else
      var kind := Registry[code];
      if |data| != Arity(kind) then Err(ArityMismatch(code, Arity(kind), |data|))
      else Ok(Construct(kind, data))
  }

  /** A workout is determined by its kind and its positional fields. */
  lemma FieldsDetermineWorkout(w: Workout, w': Workout)
    requires KindOf(w) == KindOf(w') && Fields(w) == Fields(w')
    ensures w == w'
  {
  }

  /** The registered kinds are exactly running, sports walking and swimming, each under its own code. */
  lemma RegistryCodes(code: string)
    ensures code in Registry <==> code in {"SWM", "RUN", "WLK"}
    ensures code in Registry ==> Registry[code] != TrainingKind && Code(Registry[code]) == code
  {
  }

  /** Reading back the code and the fields of any registered kind of workout gives that workout. */
  lemma ReadPackageRoundTrip(w: Workout)
    requires !w.Training?
    ensures ReadPackage(Code(KindOf(w)), Fields(w)) == Ok(w)
  {
  }

  /** Whatever a package reads into, its code and data are that workout's code and fields. */
  lemma ReadPackageInverse(code: string, data: seq<real>, w: Workout)
    requires ReadPackage(code, data) == Ok(w)
    ensures !w.Training? && Code(KindOf(w)) == code && Fields(w) == data
  {
  }
}
