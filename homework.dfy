/** The fitness calculator: three kinds of workout, the distance, mean speed
    and calories each of them reports, the report record, and the table that
    turns a sensor package (a code and a list of readings) into a workout.

    Every quantity is an exact `real`; the calculator itself computes in
    floating point, so these equalities hold of the formulas, not of the
    rounded values it prints. */
module Homework {
  import opened Wrappers

  /** One workout. The constructors are the three workout classes and their
      fields are the constructor arguments, in the same order. */
  datatype Training =
    | Running(action: real, duration: real, weight: real)
    | SportsWalking(action: real, duration: real, weight: real, height: real)
    | Swimming(action: real, duration: real, weight: real, lengthPool: real, countPool: real)

  /** The report a workout produces: its class name and four numbers. */
  datatype InfoMessage = InfoMessage(
    trainingType: string,
    duration: real,
    distance: real,
    speed: real,
    calories: real)

  /** The three workout classes, as the dispatch table stores them. */
  datatype Kind = RunningKind | SportsWalkingKind | SwimmingKind

  /** Raised when a package carries the wrong number of readings for the class
      its code selects (the constructor's positional-argument error). */
  datatype ArgumentCountError = ArgumentCountError(expected: nat, given: nat)

  // Constants shared by every workout class.
  const MetresInKm: real := 1000.0
  const MinutesInHour: real := 60.0
  // Constants of the walking formula.
  const KmhToMps: real := 0.278
  const CmInM: real := 100.0

  function KindOf(t: Training): Kind
  {
    match t
    case Running(_, _, _) => RunningKind
    case SportsWalking(_, _, _, _) => SportsWalkingKind
    case Swimming(_, _, _, _, _) => SwimmingKind
  }

  /** The name of the class, as the report shows it. */
  function KindName(k: Kind): (name: string)
    ensures name == "Running" <==> k == RunningKind
    ensures name == "SportsWalking" <==> k == SportsWalkingKind
    ensures name == "Swimming" <==> k == SwimmingKind
  {
    match k
    case RunningKind => "Running"
    case SportsWalkingKind => "SportsWalking"
    case SwimmingKind => "Swimming"
  }

  /** Length of one step (or one stroke) in metres; Swimming overrides it. */
  function LenStep(t: Training): (len: real)
    ensures len > 0.0
    ensures t.Swimming? ==> len == 1.38
    ensures !t.Swimming? ==> len == 0.65
  {
    if t.Swimming? then 1.38 else 0.65
  }

  /** Each class's first calorie constant. For Swimming it is ADDED to the
      speed, not multiplied, whatever its name says. */
  function CaloriesMeanSpeedMultiplier(t: Training): (c: real)
    ensures c > 0.0
    ensures t.Running? ==> c == 18.0
    ensures t.SportsWalking? ==> c == 0.035
    ensures t.Swimming? ==> c == 1.1
  {
    match t
    case Running(_, _, _) => 18.0
    case SportsWalking(_, _, _, _) => 0.035
    case Swimming(_, _, _, _, _) => 1.1
  }

  /** Each class's second calorie constant. For Swimming it MULTIPLIES,
      whatever its name says. */
  function CaloriesMeanSpeedShift(t: Training): (c: real)
    ensures c > 0.0
    ensures t.Running? ==> c == 1.79
    ensures t.SportsWalking? ==> c == 0.029
    ensures t.Swimming? ==> c == 2.0
  {
    match t
    case Running(_, _, _) => 1.79
    case SportsWalking(_, _, _, _) => 0.029
    case Swimming(_, _, _, _, _) => 2.0
  }

  /** The inputs for which the calorie formula of `t` divides by nothing that is
      zero: a non-zero duration, and for walking a non-zero height. */
  predicate CaloriesDefined(t: Training)
  {
    t.duration != 0.0 && (t.SportsWalking? ==> t.height != 0.0)
  }

  /** The inputs a sensor can actually produce: no negative count, length or
      weight, a positive duration and, for walking, a positive height. */
  predicate Plausible(t: Training)
  {
    && t.action >= 0.0 && t.duration > 0.0 && t.weight >= 0.0
    && (t.SportsWalking? ==> t.height > 0.0)
    && (t.Swimming? ==> t.lengthPool >= 0.0 && t.countPool >= 0.0)
  }

  /** Duration in minutes. */
  function TrainingTimeInMinutes(t: Training): (m: real)
    ensures m / MinutesInHour == t.duration
    ensures t.duration > 0.0 ==> m > 0.0
  {
    t.duration * MinutesInHour
  }

  /** Distance in km: steps times step length, converted from metres. */
  function Distance(t: Training): (d: real)
    ensures d * MetresInKm == t.action * LenStep(t)
    ensures t.action >= 0.0 ==> d >= 0.0
    ensures t.action > 0.0 ==> d > 0.0
  {
    t.action * LenStep(t) / MetresInKm
  }

  /** The mean speed every class inherits: distance over duration, in km/h. */
  function BaseMeanSpeed(t: Training): (v: real)
    requires t.duration != 0.0
    ensures v * t.duration == Distance(t)
    ensures t.action >= 0.0 && t.duration > 0.0 ==> v >= 0.0
  {
    Distance(t) / t.duration
  }

  /** The mean speed of `t`'s own class. Swimming overrides it with the pool
      length times the number of lengths, so its speed ignores the steps. */
  function MeanSpeed(t: Training): (v: real)
    requires t.duration != 0.0
    ensures !t.Swimming? ==> v * t.duration == Distance(t)
    ensures t.Swimming? ==> v * t.duration * MetresInKm == t.lengthPool * t.countPool
    ensures Plausible(t) ==> v >= 0.0
  {
    match t
    case Swimming(_, duration, _, lengthPool, countPool) =>
      lengthPool * countPool / MetresInKm / duration
    case _ => BaseMeanSpeed(t)
  }

  /** Height of a walker in metres. */
  function HeightInM(t: Training): (h: real)
    requires t.SportsWalking?
    ensures h * CmInM == t.height
    ensures t.height != 0.0 ==> h != 0.0
  {
    t.height / CmInM
  }

  function Square(x: real): (r: real)
    ensures r >= 0.0
  {
    x * x
  }

  /** Calories spent. Running and walking use the inherited mean speed, as
      their classes call the base class for it; swimming uses its own. */
  function SpentCalories(t: Training): (c: real)
    requires CaloriesDefined(t)
    ensures t.weight == 0.0 ==> c == 0.0
  {
    match t
    case Running(_, _, weight) =>
      (CaloriesMeanSpeedMultiplier(t) * BaseMeanSpeed(t) + CaloriesMeanSpeedShift(t))
      * weight / MetresInKm * TrainingTimeInMinutes(t)
    case SportsWalking(_, _, weight, _) =>
      (CaloriesMeanSpeedMultiplier(t) * weight
       + (Square(BaseMeanSpeed(t) * KmhToMps) / HeightInM(t)) * CaloriesMeanSpeedShift(t) * weight)
      * TrainingTimeInMinutes(t)
    case Swimming(_, duration, weight, _, _) =>
      (MeanSpeed(t) + CaloriesMeanSpeedMultiplier(t)) * CaloriesMeanSpeedShift(t) * weight * duration
  }

  /** The report of a workout: its class name, its duration as given, and the
      distance, mean speed and calories of that same workout. */
  function ShowTrainingInfo(t: Training): (m: InfoMessage)
    requires CaloriesDefined(t)
    ensures m.trainingType == KindName(KindOf(t)) && m.duration == t.duration
    ensures m.distance == Distance(t) && m.speed == MeanSpeed(t) && m.calories == SpentCalories(t)
    ensures !t.Swimming? ==> m.speed * m.duration == m.distance
    ensures Plausible(t) ==> m.distance >= 0.0 && m.speed >= 0.0
  {
    InfoMessage(KindName(KindOf(t)), t.duration, Distance(t), MeanSpeed(t), SpentCalories(t))
  }

  /** The dispatch table from package codes to workout classes. */
  const TrainingByCode: map<string, Kind> :=
    map["SWM" := SwimmingKind, "RUN" := RunningKind, "WLK" := SportsWalkingKind]

  /** Number of positional arguments the constructor of a class takes. */
  function Arity(k: Kind): (n: nat)
    ensures 3 <= n <= 5
    ensures k == RunningKind ==> n == 3
    ensures k == SportsWalkingKind ==> n == 4
    ensures k == SwimmingKind ==> n == 5
  {
    match k
    case RunningKind => 3
    case SportsWalkingKind => 4
    case SwimmingKind => 5
  }

  /** The constructor arguments of a workout, in order. */
  function Fields(t: Training): (data: seq<real>)
    ensures |data| == Arity(KindOf(t))
    ensures data[0] == t.action && data[1] == t.duration && data[2] == t.weight
    ensures t.SportsWalking? ==> data[3] == t.height
    ensures t.Swimming? ==> data[3] == t.lengthPool && data[4] == t.countPool
  {
    match t
    case Running(a, d, w) => [a, d, w]
    case SportsWalking(a, d, w, h) => [a, d, w, h]
    case Swimming(a, d, w, l, c) => [a, d, w, l, c]
  }

  /** Calls the constructor of class `k` with `data` spread as positional
      arguments: it fails when the count does not match, and otherwise yields
      the workout of that class whose fields are `data`. */
  function Construct(k: Kind, data: seq<real>): (r: Result<Training, ArgumentCountError>)
    ensures r.Success? <==> |data| == Arity(k)
    ensures r.Success? ==> KindOf(r.value) == k && Fields(r.value) == data
    ensures r.Failure? ==> r.error == ArgumentCountError(Arity(k), |data|)
  {
    if |data| != Arity(k) then
      Failure(ArgumentCountError(Arity(k), |data|))
    else
      match k
      case RunningKind => Success(Running(data[0], data[1], data[2]))
      case SportsWalkingKind => Success(SportsWalking(data[0], data[1], data[2], data[3]))
      case SwimmingKind => Success(Swimming(data[0], data[1], data[2], data[3], data[4]))
  }

  /** Reads one sensor package. An unknown code gives `None`; a known code
      gives the workout of its class, or the constructor's error. */
  function ReadPackage(workoutType: string, data: seq<real>): (r: Result<Option<Training>, ArgumentCountError>)
    ensures workoutType !in TrainingByCode ==> r == Success(None)
    ensures workoutType in TrainingByCode ==>
              (r.Success? <==> |data| == Arity(TrainingByCode[workoutType]))
    ensures r.Success? && r.value.Some? ==>
              workoutType in TrainingByCode
              && KindOf(r.value.value) == TrainingByCode[workoutType]
              && Fields(r.value.value) == data
  {
    if workoutType in TrainingByCode then
      match Construct(TrainingByCode[workoutType], data)
      case Success(t) => Success(Some(t))
      case Failure(e) => Failure(e)
    else
      Success(None)
  }
}
