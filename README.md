# Workout calculator, modelled in Dafny

The fitness-tracker homework computes, for a workout read from a sensor
package, the distance covered, the mean speed and the calories burned, and
packs them with the workout's type name and duration into a summary record.
Three kinds of workout exist — running, sports walking and swimming — over a
base training that stores the action count, the duration in hours and the
weight in kilograms. Walking adds the height; swimming adds the pool length
and the number of laps. `read_package` turns a type code (`SWM`, `RUN`,
`WLK`) and a flat list of numbers into a workout of the matching kind.

The class hierarchy becomes one datatype `Workout` with a constructor per
class (including the base `Training`, which Python lets one build), and the
class name shown in the summary becomes the explicit `Label` of a `Kind`.
Every quantity is an exact `real`; the one floor division of the walking
formula is `FloorDiv`, the floor of the exact quotient.

Files (all modules are flat and import one another):

- `wrappers.dfy` — `Result`, standing in for the exceptions raised.
- `workouts.dfy` — module `Workouts`: the datatype, constants, distance,
  mean speed, the three calorie formulas, `Calories` and `ShowTrainingInfo`.
- `workout_properties.dfy` — module `WorkoutProperties`: what the formulas
  promise over all inputs.
- `packages.dfy` — module `Packages`: the code table and `ReadPackage`, with
  its round trip.
- `samples.dfy` — module `Samples`: the three packages of the driver as
  exact golden values, and the error cases.

Three points of the code that the model keeps as written:

- The running sample burns exactly 699.75 kcal (`Samples.RunningSample`).
- Swimming inherits `get_distance` with its own `LEN_STEP` of 1.38
  (homework.py:42-45, 109), so the summary of the swim sample reports a
  distance of 0.9936 km even though its mean speed ignores that distance.
- An unknown code fails at the dictionary lookup (homework.py:145), before any
  constructor runs and before the explicit check at homework.py:147-148, so
  the model fails with `UnknownType` first and has no separate path for that check.

## Model

| member | source | states |
|---|---|---|
| Workouts.Fields | homework.py:34-40 | each constructor stores its positional arguments unchanged: action, duration, weight, then height or pool length and laps |
| Workouts.FloorDiv | homework.py:100-101 | `x // h` is a whole number q with q·h ≤ x < q·h + h for positive h (and the mirror image for negative h) |
| Workouts.Distance | homework.py:42-45 | distance is action × 0.00065 km, and action × 0.00138 km for swimming, which inherits the formula with its own step of 1.38; never negative for a non-negative action |
| WorkoutProperties.DistanceRecoversAction | homework.py:42-45 | multiplying the distance by 1000 and dividing by the step length gives back the action count |
| WorkoutProperties.DistanceMonotone | homework.py:42-45 | for one kind of workout, more actions never give less distance |
| Workouts.SwimmingMeanSpeed | homework.py:124-128 | swimming's overriding speed times duration times 1000 equals pool length times laps; non-negative for non-negative pool data and a positive duration |
| Workouts.MeanSpeed | homework.py:47-50 | for running and walking, speed × duration equals the distance; needs a non-zero duration |
| WorkoutProperties.MeanSpeedNonNegative | homework.py:47-50 | the base mean speed is non-negative for a non-negative action count and a positive duration |
| WorkoutProperties.SwimmingSpeedNonNegative | homework.py:124-128 | swimming's speed is non-negative for non-negative pool data and a positive duration |
| WorkoutProperties.SwimmingSpeedIgnoresAction | homework.py:124-128 | two swims that differ only in action count have the same mean speed |
| Workouts.RunningCalories | homework.py:74-80 | for a positive weight and duration, running calories are positive exactly when the speed exceeds 20/18 km/h, and zero exactly at that speed |
| Workouts.WalkingCalories | homework.py:97-104 | for a positive height and duration, walking calories are at least the weight term 0.035 × weight × minutes and at most (0.035 × weight + 0.029 × speed²) × minutes: the floored term `(speed² // height) × height` lies between 0 and speed² |
| Workouts.SwimmingCalories | homework.py:130-135 | for a positive weight, swimming calories are positive exactly when the speed exceeds −1.1; at a non-negative speed and weight they are at least 2.2 per kilogram |
| Workouts.Calories | homework.py:52-57 | the calorie computation fails exactly for the base training, with an error naming `Training` |
| WorkoutProperties.RunningCaloriesClosedForm | homework.py:74-80 | running calories equal 0.000702 × action × weight − 1.2 × duration × weight |
| WorkoutProperties.WalkingCaloriesBounds | homework.py:97-104 | with positive height and duration, walking calories are at most the same formula with real division in place of the floor division, above it less 0.029 × height × minutes, and at least the weight term alone |
| WorkoutProperties.SwimmingCaloriesClosedForm | homework.py:130-135 | swimming calories equal 2.2 × weight + pool length × laps × weight / (500 × duration) |
| WorkoutProperties.SwimmingCaloriesIgnoreAction | homework.py:130-135 | two swims that differ only in action count burn the same calories |
| WorkoutProperties.SwimmingCaloriesLowerBound | homework.py:130-135 | with nothing negative measured, a swim burns at least 2.2 kcal per kilogram |
| Workouts.ShowTrainingInfo | homework.py:59-66 | the summary exists exactly for the three registered kinds and carries the kind's label, the stored duration, and that workout's distance, speed and calories; for the base training it fails as the calorie formula does |
| WorkoutProperties.SummaryConsistent | homework.py:59-66 | in a running or walking summary, speed × duration gives back the distance, and the label is `Running` or `SportsWalking` |
| WorkoutProperties.LabelIdentifiesKind | homework.py:61 | two kinds share a training type label only if they are the same kind |
| Packages.Code | homework.py:140-144 | each registered kind has a code under which the table holds exactly that kind |
| Packages.Construct | homework.py:145 | building a workout from a kind and as many values as its constructor takes yields that kind with exactly those fields |
| Packages.ReadPackage | homework.py:138-150 | a package reads into a workout exactly when its code is registered and its value count matches; then the workout is of the registered kind with the values as its fields; otherwise `UnknownType` for an unknown code, whatever the data, or `ArityMismatch` with the expected and given counts |
| Packages.RegistryCodes | homework.py:140-144 | the registered codes are exactly SWM, RUN and WLK, each naming a kind other than the base |
| Packages.FieldsDetermineWorkout | homework.py:34-40 | two workouts of one kind with the same fields are equal |
| Packages.ReadPackageRoundTrip | homework.py:138-150 | reading a registered workout's code and fields gives back that workout |
| Packages.ReadPackageInverse | homework.py:138-150 | a workout read from a package has that package's code and values, and is never the base training |
| Samples.SwimmingSample | homework.py:161 | the swim package reads as a swim whose summary is 1 h, 0.9936 km, 1 km/h, 336 kcal |
| Samples.RunningSample | homework.py:162 | the run package reads as a run whose summary is 1 h, 9.75 km, 9.75 km/h, 699.75 kcal |
| Samples.WalkingSample | homework.py:163 | the walk package reads as a walk whose summary is 1 h, 5.85 km, 5.85 km/h, 157.5 kcal |
| Samples.WalkingSampleNeedsFloor | homework.py:99-103 | on the walk sample the floor division gives 157.5 kcal where the same formula with real division gives 217.04715 |
| Samples.ErrorSamples | homework.py:145 | an unknown code fails with `UnknownType`, a known code with too few values with `ArityMismatch`, and the base training's summary with `NotImplemented` |

## Left out

- The driver (`main`, the `__main__` loop over the three packages, and `print`) is console output; its packages appear only as the golden values in `Samples`.
- The message template and `get_message` render the fields with three decimals through `str.format` and `asdict`; the model keeps the numeric fields of the record only.
- Floating point: every quantity is an exact `real`, so binary rounding of `/`, `//` and `**` is not modelled.
- Division by zero: a zero duration, and a zero height for walking, raise `ZeroDivisionError` in the program; the model makes them preconditions (`Computable`, and the `requires` of `MeanSpeed` and `FloorDiv`) instead of an error result.
- The `ValueError` branch of `read_package` cannot be reached, because the dictionary lookup fails first with `KeyError`; the model has only `UnknownType` for it.
- The action count is annotated `int` but nothing enforces it and packages are lists of numbers, so it is a `real` like the other fields.
- Python machinery (`abstractmethod`, `dataclass`, `__class__.__name__`) is replaced by the datatype's constructors and the `Label` function; the exact wording of the exceptions' messages is not modelled.
