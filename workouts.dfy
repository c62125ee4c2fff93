/**
 * The training hierarchy of the fitness-tracker calculator: a base training
 * and three kinds of workout (running, sports walking, swimming), each with
 * its distance, mean speed and calorie formula, and the summary record built
 * from them. Every quantity is an exact `real`.
 */
module Workouts {
  import opened Wrappers

  const M_IN_KM: real := 1000.0
  const MIN_IN_H: real := 60.0
  /** Step length of the base training, inherited by running and walking. */
  const LEN_STEP: real := 0.65
  /** Swimming's own stroke length. */
  const SWM_LEN_STEP: real := 1.38
  const RUN_COEFF1: real := 18.0
  const RUN_COEFF2: real := 20.0
  const WLK_COEFF1: real := 0.035
  const WLK_COEFF2: real := 0.029
  const SWM_COEFF1: real := 1.1
  const SWM_COEFF2: real := 2.0

  /** The kind of a workout; it stands for the class of the object. */
  datatype Kind = TrainingKind | RunningKind | SportsWalkingKind | SwimmingKind

  /**
   * A workout with the fields its constructor stores, in constructor order.
   * `Training` is the base class, which can be built but has no calorie formula.
   */
  datatype Workout =
    | Training(action: real, duration: real, weight: real)
    | Running(action: real, duration: real, weight: real)
    | SportsWalking(action: real, duration: real, weight: real, height: real)
    | Swimming(action: real, duration: real, weight: real, lengthPool: real, countPool: real)

  /** What the training classes report about a workout. */
  datatype InfoMessage = InfoMessage(trainingType: string, duration: real, distance: real, speed: real, calories: real)

  /** The failures of the calculator, each standing for an exception of the program. */
  datatype Error =
    | UnknownType(code: string)
    | ArityMismatch(code: string, expected: nat, given: nat)
    | NotImplemented(trainingType: string)

  function KindOf(w: Workout): Kind
  {
    match w
    case Training(_, _, _) => TrainingKind
    case Running(_, _, _) => RunningKind
    case SportsWalking(_, _, _, _) => SportsWalkingKind
    case Swimming(_, _, _, _, _) => SwimmingKind
  }

  /** The class name that the summary shows as the training type. */
  function Label(k: Kind): string
  {
    match k
    case TrainingKind => "Training"
    case RunningKind => "Running"
    case SportsWalkingKind => "SportsWalking"
    case SwimmingKind => "Swimming"
  }

  /** Number of positional values a kind's constructor takes. */
  function Arity(k: Kind): nat
  {
    match k
    case TrainingKind => 3
    case RunningKind => 3
    case SportsWalkingKind => 4
    case SwimmingKind => 5
  }

  /** The positional constructor arguments a workout was built from. */
  function Fields(w: Workout): (s: seq<real>)
    ensures |s| == Arity(KindOf(w))
    ensures s[0] == w.action && s[1] == w.duration && s[2] == w.weight
    ensures w.SportsWalking? ==> s[3] == w.height
    ensures w.Swimming? ==> s[3] == w.lengthPool && s[4] == w.countPool
  {
    match w
    case Training(a, d, m) => [a, d, m]
    case Running(a, d, m) => [a, d, m]
    case SportsWalking(a, d, m, h) => [a, d, m, h]
    case Swimming(a, d, m, l, c) => [a, d, m, l, c]
  }

  /** The divisions the formulas perform are defined: duration, and a walker's height, are non-zero. */
  predicate Computable(w: Workout)
  {
    w.duration != 0.0 && (w.SportsWalking? ==> w.height != 0.0)
  }

  function StepLength(w: Workout): real
  {
    if w.Swimming? then SWM_LEN_STEP else LEN_STEP
  }

  /** Python's floor division `x // h` on numbers, taken exactly. */
  function FloorDiv(x: real, h: real): (q: real)
    requires h != 0.0
    ensures q == q.Floor as real
    ensures h > 0.0 ==> q * h <= x < q * h + h
    ensures h < 0.0 ==> q * h + h < x <= q * h
  {
    var q := (x / h).Floor as real;
    FloorDivBounds(x, h, q);
    q
  }

  lemma FloorDivBounds(x: real, h: real, q: real)
    requires h != 0.0 && q == (x / h).Floor as real
    ensures h > 0.0 ==> q * h <= x < q * h + h
    ensures h < 0.0 ==> q * h + h < x <= q * h
  {
    var y := x / h;
    var below, above := y - q, q + 1.0 - y;
    assert 0.0 <= below && 0.0 < above;
    assert x - q * h == below * h;
    assert q * h + h - x == above * h;
    if h > 0.0 {
      assert below * h >= 0.0;
      assert above * h > 0.0;
    } else {
      assert below * h <= 0.0;
      assert above * h < 0.0;
    }
  }

  /** Distance in kilometres: the number of actions times the step length, in metres over a thousand. */
  function Distance(w: Workout): (r: real)
    ensures r == w.action * (if w.Swimming? then 0.00138 else 0.00065)
    ensures w.action >= 0.0 ==> r >= 0.0
  {
    w.action * StepLength(w) / M_IN_KM
  }

  /** Swimming's own mean speed: the pool length times the number of laps, in kilometres, over duration. */
  function SwimmingMeanSpeed(lengthPool: real, countPool: real, duration: real): (r: real)
    requires duration != 0.0
    ensures r * duration * M_IN_KM == lengthPool * countPool
    ensures lengthPool * countPool >= 0.0 && duration > 0.0 ==> r >= 0.0
  {
    lengthPool * countPool / M_IN_KM / duration
  }

  /**
   * Mean speed in km/h: distance over duration, except for swimming, which
   * overrides it with its pool-based speed.
   */
  function MeanSpeed(w: Workout): (r: real)
    requires w.duration != 0.0
    ensures !w.Swimming? ==> r * w.duration == Distance(w)
    ensures w.Swimming? ==> r * w.duration * M_IN_KM == w.lengthPool * w.countPool
  {
    if w.Swimming? then SwimmingMeanSpeed(w.lengthPool, w.countPool, w.duration)
    else Distance(w) / w.duration
  }

  /**
   * Running's calorie formula, over its mean speed, duration and weight: for
   * a positive weight and duration it is positive exactly when the speed
   * exceeds 20/18 km/h.
   */
  function RunningCalories(speed: real, duration: real, weight: real): (r: real)
    ensures weight > 0.0 && duration > 0.0 ==> (r > 0.0 <==> speed > RUN_COEFF2 / RUN_COEFF1)
    ensures weight > 0.0 && duration > 0.0 ==> (r == 0.0 <==> speed == RUN_COEFF2 / RUN_COEFF1)
  {
    var r := (RUN_COEFF1 * speed - RUN_COEFF2) * weight / M_IN_KM * (duration * MIN_IN_H);
    assert r == (RUN_COEFF1 * speed - RUN_COEFF2) * (weight * duration * 0.06);
    r
  }

  /**
   * Sports walking's calorie formula; the squared speed is floor-divided by
   * the height. For a positive height and duration the floored term never
   * makes the result exceed the formula with real division, nor fall below
   * the weight term alone.
   */
  function WalkingCalories(speed: real, duration: real, weight: real, height: real): (r: real)
    requires height != 0.0
    ensures height > 0.0 && duration > 0.0 ==>
      WLK_COEFF1 * weight * (duration * MIN_IN_H) <= r <= (WLK_COEFF1 * weight + WLK_COEFF2 * speed * speed) * (duration * MIN_IN_H)
  {
    (WLK_COEFF1 * weight + FloorDiv(speed * speed, height) * WLK_COEFF2 * height) * (duration * MIN_IN_H)
  }

  /**
   * Swimming's calorie formula, over its mean speed and weight: for a
   * positive weight it is positive exactly when the speed exceeds -1.1, and
   * at a non-negative speed it is at least 2.2 per kilogram.
   */
  function SwimmingCalories(speed: real, weight: real): (r: real)
    ensures weight > 0.0 ==> (r > 0.0 <==> speed > -SWM_COEFF1)
    ensures speed >= 0.0 && weight >= 0.0 ==> r >= SWM_COEFF1 * SWM_COEFF2 * weight
  {
    var lead := speed + SWM_COEFF1;
    assert weight > 0.0 && lead <= 0.0 ==> lead * weight <= 0.0;
    lead * SWM_COEFF2 * weight
  }

  /** Calories burned; the base training has no formula and fails. */
  function Calories(w: Workout): (r: Result<real, Error>)
    requires Computable(w)
    ensures r.Err? <==> w.Training?
    ensures r.Err? ==> r.error == NotImplemented(Label(TrainingKind))
  {
    match w
    case Training(_, _, _) => Err(NotImplemented(Label(KindOf(w))))
    case Running(_, duration, weight) => Ok(RunningCalories(MeanSpeed(w), duration, weight))
    case SportsWalking(_, duration, weight, height) => Ok(WalkingCalories(MeanSpeed(w), duration, weight, height))
    case Swimming(_, _, weight, _, _) => Ok(SwimmingCalories(MeanSpeed(w), weight))
  }

  /** The summary of a workout, or the failure of its calorie formula. */
  function ShowTrainingInfo(w: Workout): (r: Result<InfoMessage, Error>)
    requires Computable(w)
    ensures r.Ok? <==> !w.Training?
    ensures r.Ok? ==> r.value.trainingType == Label(KindOf(w)) && r.value.duration == w.duration
    ensures r.Ok? ==> r.value.distance == Distance(w) && r.value.speed == MeanSpeed(w)
    ensures r.Ok? ==> Calories(w) == Ok(r.value.calories)
    ensures r.Err? ==> r.error == NotImplemented("Training")
  {
    var distance := Distance(w);
    var speed := MeanSpeed(w);
    match Calories(w)
    case Err(e) => Err(e)
    case Ok(calories) => Ok(InfoMessage(Label(KindOf(w)), w.duration, distance, speed, calories))
  }
}
