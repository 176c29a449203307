# Fitness-tracker workout statistics, modelled in Dafny

The program computes, for one workout, the distance covered (km), the mean
speed (km/h) and the calories spent (kcal), for three kinds of workout:
running, race walking (`SportsWalking`) and swimming. A workout is built from
a three-letter code (`RUN`, `WLK`, `SWM`) and a list of sensor numbers by
`read_package`, and `show_training_info` bundles the results into an
`InfoMessage` summary.

The model has five modules:

- `Training` (`training.dfy`): the class constants; a `Workout` datatype with
  one constructor per class, whose fields are the constructor arguments in
  declaration order; `Kind` for the class itself, with its name (`Label`) and
  its parameter count (`Arity`); `Construct` and `Fields`, which call a class
  on positional arguments and read them back; the statistics `Distance`,
  `BaseMeanSpeed` (`Training.get_mean_speed`), `MeanSpeed` (the method as
  dispatched on the class), `Calories` and the summary `ShowTrainingInfo`.
- `TrainingProperties` (`properties.dfy`): constants per variant, closed
  forms of the running and swimming calorie formulas, independence of
  swimming speed and calories from the stroke count, strict decrease of
  walking calories in the walker's height, positivity of calories.
- `Dispatch` (`dispatch.dfy`): `workout_dict`, `read_package` with its three
  outcomes, and the round trip between a record and the package that
  builds it.
- `Driver` (`driver.dfy`): the `__main__` loop, which calls `read_package`
  and then `main` on each package in turn. `Process` is one iteration,
  `Run` specifies what the loop produces, and `RunDriver` is the loop itself,
  proved against `Run`. The loop stops at the first exception.
- `Scenarios` (`scenarios.dfy`): the exact summaries of the three packages
  that the driver processes, and the driver's whole output on them.

Every record is immutable once built and every `get_*` method is one
expression over its fields, so the records and statistics are modelled as
functions; only the driver's loop (`RunDriver`) and its body (`Iterate`) are
methods. Arithmetic is exact over
`real`. `Squared` models Python's `** 2`.

Where the source would raise `ZeroDivisionError` (a zero duration, or a zero
height for race walking) the functions require `Computable(w)`; no other
precondition is placed on the inputs. The driver, which does not check,
reports `DivisionByZero` for such a record instead of a summary. Because
arithmetic is exact, the `OverflowError` that Python raises for values too
large for a float is not modelled (see "Left out"). `Plausible(w)`
(non-negative counts, positive duration, weight and height) appears only as
the hypothesis of `CaloriesPositive`; the source checks neither.

`read_package` returns `NoWorkout` for a code that is not in `workout_dict`:
the Python function falls off its end and returns `None` (homework.py:150-153);
it does not raise. A known code
with the wrong number of values makes Python raise `TypeError` when it calls
the class; the model returns `ArityMismatch(expected, given)`, whose counts
are the constructor's parameters and the list's values, not counting `self`.
In the driver, `main` then
receives `None` and raises `AttributeError` (`NoTraining`), or the `TypeError`
ends the loop (`WrongArity`).

Under the formulas at homework.py:53-62, 77-85 and 112-118, the driver's
swimming, running and walking packages give 336, 797.805 and 349.251747525
kcal (proved in `Scenarios`).

## Model

| member | source | states |
|---|---|---|
| `Training.InfoMessage` | homework.py:121-134 | the summary record with the five fields of class `InfoMessage`, in its parameter order: training type, duration, distance, speed, calories |
| `Training.KindOf` | homework.py:48-88 | the class of a record: Running, SportsWalking or Swimming, one per `Workout` constructor |
| `Training.Arity` | homework.py:14-98 | the positional parameter count of each class's constructor, not counting `self`: 3 for Running (lines 14-18, inherited), 4 for SportsWalking (72-73), 5 for Swimming (94-95) |
| `Training.StepLength` | homework.py:10-90 | the `LEN_STEP` each class sees, positive: 0.65 inherited from Training (line 10), 1.38 for Swimming's override (line 90) |
| `Training.Computable` | homework.py:28-118 | exactly the records for which no division raises `ZeroDivisionError`: a non-zero duration (lines 31 and 109) and, for SportsWalking, a non-zero height (lines 80-83) |
| `Training.Label` | homework.py:43 | the class name reported as the training type, a non-empty fixed string per class; `LabelIdentifiesClass` states that it determines the class |
| `Training.LabelIdentifiesClass` | homework.py:43 | the training type reported is the class name, and distinct classes report distinct names |
| `Training.Construct` | homework.py:14-98 | calling a class (the constructors at lines 14-21, 72-75 and 94-98) on a list of its constructor's length (3, 4 or 5) builds a record of that class whose fields are the list's values in declaration order |
| `Training.Distance` | homework.py:23-26 | its definition is the expression of `get_distance` (the same at lines 100-103 with Swimming's step length); `DistanceSign` and `DistancePerVariant` state its properties |
| `TrainingProperties.DistanceSign` | homework.py:23-26 | `get_distance` is positive exactly when the step count is, and zero exactly when it is |
| `TrainingProperties.DistancePerVariant` | homework.py:23-103 | distance is `action * 0.00065` km on land (lines 23-26) and `action * 0.00138` km in the pool (lines 100-103) |
| `Training.BaseMeanSpeed` | homework.py:28-32 | its definition is the expression of `Training.get_mean_speed`; `BaseMeanSpeedCoversDistance`, `LandMeanSpeedIsDistanceOverDuration` and `WalkingSpeedIgnoresHeight` state its properties |
| `TrainingProperties.BaseMeanSpeedCoversDistance` | homework.py:28-32 | the base mean speed times the duration is `get_distance`, although it recomputes the distance inline |
| `TrainingProperties.LandMeanSpeedIsDistanceOverDuration` | homework.py:28-32 | for Running and SportsWalking the mean speed is `get_distance() / duration` |
| `Training.MeanSpeed` | homework.py:105-110 | `get_mean_speed` as dispatched: Swimming's override, else the base method; `MeanSpeedCoversDistance` and `SwimmingIgnoresAction` state its properties |
| `TrainingProperties.MeanSpeedCoversDistance` | homework.py:105-110 | land speed times duration is the distance; swimming speed times duration times 1000 is pool length times lap count |
| `TrainingProperties.SwimmingIgnoresAction` | homework.py:105-118 | two Swimming records that differ only in the stroke count have equal mean speed and equal calories |
| `Training.Calories` | homework.py:53-118 | its definition is the expression of each class's `get_spent_calories` (lines 53-62, 77-85, 112-118); the closed-form, monotonicity and positivity lemmas below state its properties |
| `TrainingProperties.RunningCaloriesClosedForm` | homework.py:50-62 | running calories equal `0.000702 * action * weight + 0.1074 * duration * weight`: the speed term, built on the stride-based mean speed, cancels the duration |
| `TrainingProperties.SwimmingCaloriesClosedForm` | homework.py:112-118 | swimming calories equal `0.002 * length_pool * count_pool * weight + 2.2 * duration * weight`, from the pool-based speed |
| `Training.Squared` | homework.py:82 | the square of the speed in m/s is non-negative, and positive for a non-zero speed |
| `TrainingProperties.WalkingCaloriesDecreaseWithHeight` | homework.py:77-85 | with a non-zero step count and positive duration and weight, a taller walker burns strictly fewer calories |
| `TrainingProperties.CaloriesPositive` | homework.py:53-118 | for non-negative counts and positive duration, weight and height, every class's calories are positive |
| `Training.ShowTrainingInfo` | homework.py:38-45 | the summary holds the class label, the record's unchanged duration, and exactly the distance, mean speed and calories of the record's class |
| `Dispatch.WorkoutDict` | homework.py:145-147 | the three codes and their classes; `CodeOf`, `DispatchTable` and `UnknownCodeYieldsNothing` state what it maps |
| `Dispatch.CodeOf` | homework.py:145-147 | each class is listed in `workout_dict` under the code returned, and under no other code |
| `Dispatch.ReadPackage` | homework.py:150-153 | an unknown code yields nothing; a known code with a wrong-length list yields an arity error naming both counts; otherwise a record of the listed class whose constructor arguments are the list |
| `Dispatch.FieldsOfConstruct` | homework.py:153 | unpacking a list into a class's constructor loses nothing: reading the arguments back gives the list |
| `Dispatch.PackageRoundTrip` | homework.py:145-153 | every record is built by `read_package` from its class's code and its own arguments, and no other package builds it |
| `Dispatch.DispatchTable` | homework.py:145-147 | `RUN`, `WLK` and `SWM` build Running, SportsWalking and Swimming with the values filled in positionally |
| `Dispatch.UnknownCodeYieldsNothing` | homework.py:152-153 | a code other than the three yields nothing, never a record, whatever the data |
| `Driver.Process` | homework.py:170-171 | over exact arithmetic (no `OverflowError`), one iteration prints a summary exactly when the code is known, the list fits the class and no division by zero occurs, and the summary is `show_training_info` of the record built; an unknown code raises (main gets `None`) exactly when it is not in `workout_dict`; a wrong-length list raises the arity error with the constructor's and the list's counts; a record that divides by zero raises that error for that record |
| `Driver.Outcomes` | homework.py:169-171 | one outcome per package (its contract); its definition maps each package, in order, to `Process` of that package |
| `Driver.Collect` | homework.py:169-171 | the loop prints at most one summary per package, and ends without an exception exactly when it printed one for every package |
| `Driver.CollectStopsAtFirstRaise` | homework.py:169-171 | each printed summary is the one its package yields, in order, and the exception that ends the loop is the one the next package raises |
| `Driver.CollectStopsAt` | homework.py:169-171 | conversely, if the leading packages all print and the next one raises, the loop prints exactly those summaries and stops with that exception |
| `Driver.CollectCompletes` | homework.py:169-171 | if every package prints, the loop prints all their summaries in order and raises nothing |
| `Driver.Run` | homework.py:169-171 | what the loop produces, `Collect` of the packages' outcomes; the `Collect` lemmas state its meaning |
| `Driver.RunDriver` | homework.py:169-171 | the loop prints exactly the summaries `Run` specifies and stops with exactly its exception |
| `Scenarios.SwimmingPackage` | homework.py:164 | `SWM [720, 1, 80, 25, 40]` gives distance 0.9936 km, speed 1 km/h and 336 kcal |
| `Scenarios.RunningPackage` | homework.py:165 | `RUN [15000, 1, 75]` gives distance 9.75 km, speed 9.75 km/h and 797.805 kcal |
| `Scenarios.WalkingPackage` | homework.py:166 | `WLK [9000, 1, 75, 180]` gives distance 5.85 km, speed 5.85 km/h and 349.251747525 kcal |
| `Scenarios.DriverOutput` | homework.py:163-171 | on its three packages the driver prints the swimming, running and walking summaries, in that order, and nothing raises |

## Left out

- `InfoMessage.get_message` (homework.py:136-142): the text renders floats with `:.3f`, decimal rounding of IEEE-754 values that has no meaning over reals; only the summary's fields are modelled.
- Printing (homework.py:159): the driver's output is the sequence of summaries it would print, not the text.
- The traceback Python prints when the loop raises: only which exception ends the loop is kept.
- `Training.get_spent_calories` (homework.py:34-36): its body is `pass`, and the dispatch table never builds a bare `Training`.
- Floating-point rounding and `OverflowError`: the model is exact over `real`, so it prints a summary where Python raises `OverflowError` (the float `** 2` at homework.py:82 beyond about 1.34e154, or an `int` too large for a float in `action * LEN_STEP` at lines 25 and 30 or in `length_pool * count_pool / M_IN_KM` at lines 106-108). The divisions by zero, which raise `ZeroDivisionError`, are modelled by `Computable`.
- Type hints: `action`, `height`, `length_pool` and `count_pool` are hinted `int` but nothing enforces it; `read_package` passes the list's values through, so every field is a `real`.
- `self.__class__.__name__` (homework.py:43) is runtime reflection; `Label` gives the fixed class name instead.
- The message text of Python's `TypeError` on an arity mismatch: only the expected and given counts are kept, both without `self` (Python's message counts `self`, and with too few values names the missing parameters instead).
