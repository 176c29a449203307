/** The workout records of the fitness tracker and the statistics computed from
    them: distance (km), mean speed (km/h) and spent calories (kcal).

    Every record is immutable once built, so each Python `get_*` method becomes
    a function of the record. Arithmetic is exact over `real`; IEEE-754 rounding
    is not modelled. A division by zero, which raises in the source, is excluded
    by a precondition instead. */
module Training {

  // Class constants of Training and its subclasses.
  const LenStep: real := 0.65               // Training.LEN_STEP (metres per step)
  const SwimLenStep: real := 1.38           // Swimming.LEN_STEP (metres per stroke)
  const MetersInKm: real := 1000.0          // Training.M_IN_KM
  const MinutesInHour: real := 60.0         // Training.MIN_IN_HOUR
  const RunSpeedMultiplier: real := 18.0    // Running.CALORIES_MEAN_SPEED_MULTIPLIER
  const RunSpeedShift: real := 1.79         // Running.CALORIES_MEAN_SPEED_SHIFT
  const KmhToMs: real := 0.278              // SportsWalking.COEF_KMH_MS
  const WalkWeightCoef1: real := 0.035      // SportsWalking.WEIGHT_COEF1
  const WalkWeightCoef2: real := 0.029      // SportsWalking.WEIGHT_COEF2
  const CmInM: real := 100.0                // SportsWalking.M_TO_SM
  const SwimSpeedShift: real := 1.1         // Swimming.SWIM_CONST1
  const SwimMultiplier: real := 2.0         // Swimming.SWIM_CONST2

  /** The three concrete subclasses of Training. */
  datatype Kind = RunningKind | SportsWalkingKind | SwimmingKind

  /** One workout: the constructor arguments of its class, in declaration order. */
  datatype Workout =
    | Running(action: real, duration: real, weight: real)
    | SportsWalking(action: real, duration: real, weight: real, height: real)
    | Swimming(action: real, duration: real, weight: real, lengthPool: real, countPool: real)

  /** The summary record (InfoMessage). */
  datatype InfoMessage = InfoMessage(trainingType: string, duration: real, distance: real,
                                     speed: real, calories: real)

  function KindOf(w: Workout): Kind
  {
    match w
    case Running(_, _, _) => RunningKind
    case SportsWalking(_, _, _, _) => SportsWalkingKind
    case Swimming(_, _, _, _, _) => SwimmingKind
  }

  /** The class name, which the summary reports as the training type. */
  function Label(k: Kind): (s: string)
    ensures |s| > 0
  {
    match k
    case RunningKind => "Running"
    case SportsWalkingKind => "SportsWalking"
    case SwimmingKind => "Swimming"
  }

  /** The reported training type identifies the class. */
  lemma LabelIdentifiesClass(k: Kind, k': Kind)
    ensures Label(k) == Label(k') ==> k == k'
  {
    if k != k' {
      assert Label(k)[0] != Label(k')[0] || |Label(k)| != |Label(k')|;
    }
  }

  /** The number of positional arguments the class's constructor takes. */
  function Arity(k: Kind): (n: nat)
    ensures 3 <= n <= 5
  {
    match k
    case RunningKind => 3
    case SportsWalkingKind => 4
    case SwimmingKind => 5
  }

  /** Calling the class with `args` unpacked positionally. */
  function Construct(k: Kind, args: seq<real>): (w: Workout)
    requires |args| == Arity(k)
    ensures KindOf(w) == k
    ensures w.action == args[0] && w.duration == args[1] && w.weight == args[2]
    ensures w.SportsWalking? ==> w.height == args[3]
    ensures w.Swimming? ==> w.lengthPool == args[3] && w.countPool == args[4]
  {
    match k
    case RunningKind => Running(args[0], args[1], args[2])
    case SportsWalkingKind => SportsWalking(args[0], args[1], args[2], args[3])
    case SwimmingKind => Swimming(args[0], args[1], args[2], args[3], args[4])
  }

  /** The constructor arguments of a record, in declaration order. */
  function Fields(w: Workout): (args: seq<real>)
    ensures |args| == Arity(KindOf(w))
  {
    match w
    case Running(a, d, m) => [a, d, m]
    case SportsWalking(a, d, m, h) => [a, d, m, h]
    case Swimming(a, d, m, l, c) => [a, d, m, l, c]
  }

  /** The divisions the source performs do not divide by zero. */
  predicate Computable(w: Workout)
  {
    w.duration != 0.0 && (w.SportsWalking? ==> w.height != 0.0)
  }

  /** Inputs in the intended physical domain: a non-negative step count and
      pool geometry, a positive duration, weight and height. The source does
      not check these. */
  predicate Plausible(w: Workout)
  {
    w.action >= 0.0 && w.duration > 0.0 && w.weight > 0.0
    && (w.SportsWalking? ==> w.height > 0.0)
    && (w.Swimming? ==> w.lengthPool >= 0.0 && w.countPool >= 0.0)
  }

  /** The LEN_STEP the record's class sees. */
  function StepLength(w: Workout): (len: real)
    ensures len > 0.0
  {
    if w.Swimming? then SwimLenStep else LenStep
  }

  /** get_distance: steps (or strokes) times their length, in km. The base
      method and Swimming's override compute the same expression. */
  function Distance(w: Workout): real
  {
    w.action * StepLength(w) / MetersInKm
  }

  /** Training.get_mean_speed: the base mean speed, which recomputes the
      distance inline rather than calling get_distance. */
  function BaseMeanSpeed(w: Workout): real
    requires w.duration != 0.0
  {
    var dist := w.action * StepLength(w) / MetersInKm;
    dist / w.duration
  }

  /** get_mean_speed as dispatched on the record's class: Swimming derives its
      speed from pool geometry, the others inherit the base. */
  function MeanSpeed(w: Workout): real
    requires w.duration != 0.0
  {
    match w
    case Swimming(_, duration, _, lengthPool, countPool) =>
      lengthPool * countPool / MetersInKm / duration
    case _ => BaseMeanSpeed(w)
  }

  /** x ** 2. */
  function Squared(x: real): (y: real)
    ensures y >= 0.0
    ensures x != 0.0 ==> y > 0.0
  {
    var y := x * x;
    assert x != 0.0 ==> y / x == x;
    y
  }

  /** get_spent_calories of the record's class. Running and SportsWalking call
      the base mean speed explicitly; Swimming calls its own. */
  function Calories(w: Workout): (kcal: real)
    requires Computable(w)
  {
    match w
    case Running(_, duration, weight) =>
      (RunSpeedMultiplier * BaseMeanSpeed(w) + RunSpeedShift)
        * weight / MetersInKm * duration * MinutesInHour
    case SportsWalking(_, duration, weight, height) =>
      var speedMs := BaseMeanSpeed(w) * KmhToMs;
      var heightM := height / CmInM;
      (WalkWeightCoef1 * weight + (Squared(speedMs) / heightM) * WalkWeightCoef2 * weight)
        * duration * MinutesInHour
    case Swimming(_, duration, weight, _, _) =>
      (MeanSpeed(w) + SwimSpeedShift) * SwimMultiplier * weight * duration
  }

  /** show_training_info: the template step that bundles the class label, the
      duration and the three computed statistics. */
  function ShowTrainingInfo(w: Workout): (m: InfoMessage)
    requires Computable(w)
    ensures m.trainingType == Label(KindOf(w))
    ensures m.duration == w.duration
    ensures m.distance == Distance(w) && m.speed == MeanSpeed(w) && m.calories == Calories(w)
  {
    var distance := Distance(w);
    var speed := MeanSpeed(w);
    var calories := Calories(w);
    InfoMessage(Label(KindOf(w)), w.duration, distance, speed, calories)
  }
}
