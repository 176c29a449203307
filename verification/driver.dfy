/** The driver loop of the tracker: for each (code, data) package in turn it
    calls read_package and then main, which asks the record for its summary.
    The loop stops at the first exception. Printing is not modelled: the
    driver's output is the sequence of summaries it would print. */
module Driver {
  import opened Training
  import opened Dispatch

  datatype Option<T> = None | Some(value: T)

  /** The exception that ends the loop: main calls a method on the None that
      read_package returns for an unknown code (AttributeError), the class is
      called with the wrong number of values (TypeError), or a statistic
      divides by zero (ZeroDivisionError). */
  datatype Failure =
    | NoTraining(workoutType: string)
    | WrongArity(expected: nat, given: nat)
    | DivisionByZero(workout: Workout)

  /** One iteration: a summary, or the exception it raises. */
  datatype Outcome = Summary(info: InfoMessage) | Raised(failure: Failure)

  /** The summaries printed, in order, and the exception that stopped the loop
      if there was one. */
  datatype Report = Report(summaries: seq<InfoMessage>, stopped: Option<Failure>)

  /** One iteration of the loop: read_package, then main(training). */
  function Process(workoutType: string, data: seq<real>): (r: Outcome)
    ensures r.Summary? <==>
              ReadPackage(workoutType, data).Built? && Computable(ReadPackage(workoutType, data).workout)
    ensures r.Summary? ==> r.info == ShowTrainingInfo(ReadPackage(workoutType, data).workout)
    ensures r == Raised(NoTraining(workoutType)) <==> workoutType !in WorkoutDict
    ensures ReadPackage(workoutType, data).ArityMismatch? ==>
              r == Raised(WrongArity(Arity(WorkoutDict[workoutType]), |data|))
    ensures ReadPackage(workoutType, data).Built? && !Computable(ReadPackage(workoutType, data).workout) ==>
              r == Raised(DivisionByZero(ReadPackage(workoutType, data).workout))
  {
    match ReadPackage(workoutType, data)
    case NoWorkout => Raised(NoTraining(workoutType))
    case ArityMismatch(expected, given) => Raised(WrongArity(expected, given))
    case Built(w) => if Computable(w) then Summary(ShowTrainingInfo(w)) else Raised(DivisionByZero(w))
  }

  /** The outcome of each package, in order, as if every iteration ran. */
  function Outcomes(packages: seq<(string, seq<real>)>): (r: seq<Outcome>)
    ensures |r| == |packages|
  {
    seq(|packages|, i requires 0 <= i < |packages| => Process(packages[i].0, packages[i].1))
  }

  /** What the loop makes of a sequence of iteration outcomes: every summary
      up to the first exception, and that exception. */
  function Collect(outcomes: seq<Outcome>): (r: Report)
    ensures |r.summaries| <= |outcomes|
    ensures r.stopped.None? <==> |r.summaries| == |outcomes|
  {
    if |outcomes| == 0 then Report([], None)
    else
      match outcomes[0]
      case Raised(f) => Report([], Some(f))
      case Summary(m) =>
        var rest := Collect(outcomes[1..]);
        Report([m] + rest.summaries, rest.stopped)
  }

  /** The summaries are those of the leading iterations, and the exception is
      the one the next iteration raises. */
  lemma {:induction false} CollectStopsAtFirstRaise(outcomes: seq<Outcome>)
    ensures forall i :: 0 <= i < |Collect(outcomes).summaries| ==>
              outcomes[i] == Summary(Collect(outcomes).summaries[i])
    ensures Collect(outcomes).stopped.Some? ==>
              outcomes[|Collect(outcomes).summaries|] == Raised(Collect(outcomes).stopped.value)
    decreases |outcomes|
  {
    if |outcomes| > 0 && outcomes[0].Summary? {
      CollectStopsAtFirstRaise(outcomes[1..]);
    }
  }

  /** What the driver produces on a list of packages. */
  function Run(packages: seq<(string, seq<real>)>): Report
  {
    Collect(Outcomes(packages))
  }

  /** The `for` loop of the driver, collecting what it would print. */
  method RunDriver(packages: seq<(string, seq<real>)>)
    returns (printed: seq<InfoMessage>, stopped: Option<Failure>)
    ensures Report(printed, stopped) == Run(packages)
  {
    printed := [];
    stopped := None;
    var i := 0;
    while i < |packages|
      invariant 0 <= i <= |packages| && |printed| == i
      invariant forall k :: 0 <= k < i ==> Outcomes(packages)[k] == Summary(printed[k])
    {
      var outcome := Iterate(packages, i);
      match outcome
      case Raised(f) =>
        stopped := Some(f);
        CollectStopsAt(Outcomes(packages), printed, f);
        return;
      case Summary(m) =>
        printed := printed + [m];
      i := i + 1;
    }
    CollectCompletes(Outcomes(packages), printed);
  }

  /** The body of the loop on the i-th package. */
  method Iterate(packages: seq<(string, seq<real>)>, i: nat) returns (outcome: Outcome)
    requires i < |packages|
    ensures outcome == Outcomes(packages)[i]
  {
    var (workoutType, data) := packages[i];
    outcome := Process(workoutType, data);
  }

  /** If the leading iterations all print and the next raises, that is what
      the loop produces. */
  lemma {:induction false} CollectStopsAt(outcomes: seq<Outcome>, printed: seq<InfoMessage>, f: Failure)
    requires |printed| < |outcomes|
    requires forall k :: 0 <= k < |printed| ==> outcomes[k] == Summary(printed[k])
    requires outcomes[|printed|] == Raised(f)
    ensures Collect(outcomes) == Report(printed, Some(f))
    decreases |printed|
  {
    if |printed| > 0 {
      CollectStopsAt(outcomes[1..], printed[1..], f);
      assert printed == [printed[0]] + printed[1..];
    }
  }

  /** If every iteration prints, the loop prints every summary and raises
      nothing. */
  lemma {:induction false} CollectCompletes(outcomes: seq<Outcome>, printed: seq<InfoMessage>)
    requires |printed| == |outcomes|
    requires forall k :: 0 <= k < |printed| ==> outcomes[k] == Summary(printed[k])
    ensures Collect(outcomes) == Report(printed, None)
    decreases |printed|
  {
    if |printed| > 0 {
      CollectCompletes(outcomes[1..], printed[1..]);
      assert printed == [printed[0]] + printed[1..];
    }
  }
}
