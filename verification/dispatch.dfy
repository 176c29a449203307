/** The dispatch table from a three-letter workout code to a workout class,
    and read_package, which builds a record from a code and the sensor data. */
module Dispatch {
  import opened Training

  /** workout_dict. */
  const WorkoutDict: map<string, Kind> := map["SWM" := SwimmingKind, "RUN" := RunningKind,
                                              "WLK" := SportsWalkingKind]

  /** What read_package produces: nothing for an unknown code (the function
      falls off its end and returns None), the TypeError Python raises when the
      data does not match the constructor's parameter count, or a record. */
  datatype ReadResult =
    | NoWorkout
    | ArityMismatch(expected: nat, given: nat)
    | Built(workout: Workout)

  /** read_package: look the code up and call the class on the unpacked data. */
  function ReadPackage(workoutType: string, data: seq<real>): (p: ReadResult)
    ensures p.NoWorkout? <==> workoutType !in WorkoutDict
    ensures p.ArityMismatch? <==>
              workoutType in WorkoutDict && |data| != Arity(WorkoutDict[workoutType])
    ensures p.ArityMismatch? ==> p.expected == Arity(WorkoutDict[workoutType]) && p.given == |data|
    ensures p.Built? ==> KindOf(p.workout) == WorkoutDict[workoutType] && Fields(p.workout) == data
  {
    if workoutType in WorkoutDict then
      var cls := WorkoutDict[workoutType];
      if |data| == Arity(cls) then
        var w := Construct(cls, data);
        FieldsOfConstruct(cls, data);
        Built(w)
      else
        ArityMismatch(Arity(cls), |data|)
    else
      NoWorkout
  }

  /** The code under which workout_dict lists a class. */
  function CodeOf(k: Kind): (code: string)
    ensures code in WorkoutDict && WorkoutDict[code] == k
    ensures forall c :: c in WorkoutDict && WorkoutDict[c] == k ==> c == code
  {
    match k
    case RunningKind => "RUN"
    case SportsWalkingKind => "WLK"
    case SwimmingKind => "SWM"
  }

  /** Constructing a class and reading its arguments back gives the arguments. */
  lemma FieldsOfConstruct(k: Kind, args: seq<real>)
    requires |args| == Arity(k)
    ensures Fields(Construct(k, args)) == args
  {
    var f := Fields(Construct(k, args));
    assert |f| == |args|;
    assert forall i :: 0 <= i < |args| ==> f[i] == args[i];
  }

  /** A record is determined by its class and its arguments. */
  lemma ConstructOfFields(w: Workout)
    ensures Construct(KindOf(w), Fields(w)) == w
  {
  }

  /** Every record is produced by read_package from its class's code and its
      own arguments, and that is the only package that produces it. */
  lemma {:induction false} PackageRoundTrip(w: Workout, workoutType: string, data: seq<real>)
    ensures ReadPackage(CodeOf(KindOf(w)), Fields(w)) == Built(w)
    ensures ReadPackage(workoutType, data) == Built(w) ==>
              workoutType == CodeOf(KindOf(w)) && data == Fields(w)
  {
    ConstructOfFields(w);
    if ReadPackage(workoutType, data) == Built(w) {
      assert WorkoutDict[workoutType] == KindOf(w);
    }
  }

  /** The three table entries, with the data filled in positionally. */
  lemma DispatchTable(a: real, d: real, m: real, x: real, y: real)
    ensures ReadPackage("RUN", [a, d, m]) == Built(Running(a, d, m))
    ensures ReadPackage("WLK", [a, d, m, x]) == Built(SportsWalking(a, d, m, x))
    ensures ReadPackage("SWM", [a, d, m, x, y]) == Built(Swimming(a, d, m, x, y))
  {
  }

  /** Only the three codes name a workout: any other code yields nothing, and
      never a record, whatever the data. */
  lemma UnknownCodeYieldsNothing(workoutType: string, data: seq<real>)
    requires workoutType != "RUN" && workoutType != "WLK" && workoutType != "SWM"
    ensures ReadPackage(workoutType, data) == NoWorkout
  {
  }
}
