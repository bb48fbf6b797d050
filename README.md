# Workout calculator core, in Dafny

A model of the calculation core of a fitness-tracker homework program
(`homework.py`). The tracker records, for one session, a number of actions
(steps or strokes), a duration in hours, the athlete's weight and, for some
activities, extra values. The program:

- builds one of three trainings — `Running`, `SportsWalking`, `Swimming` —
  from a workout code (`RUN`, `WLK`, `SWM`) and a positional list of values
  (`read_package`);
- derives the distance in km, the mean speed in km/h and the calories spent,
  with a formula per training;
- bundles the class name and those values into an `InfoMessage`
  (`show_training_info`).

Files:

- `wrappers.dfy` (module `Wrappers`): a `Result` datatype for the
  dispatcher's failures.
- `trainings.dfy` (module `Trainings`): the `Training` datatype (one
  constructor per class), the constants of the program, `Distance`,
  `MeanSpeed`, the three calorie formulas and `Calories`, which picks the
  training's own formula. Python's `//` on floats is `FloorDiv`.
- `info.dfy` (module `Info`): the fields of `InfoMessage`, the class names,
  and `ShowTrainingInfo`.
- `packages.dfy` (module `Packages`): `ReadPackage`, and `Code`/`Fields`,
  which give back the code and the list a training is read from, so that the
  dispatcher can be stated as a round trip.
- `samples.dfy` (module `Samples`): the driver's three sample packages with
  their exact results, and two rejected packages.

Modelling decisions:

- Numbers are `real`, an exact idealisation of the program's float
  arithmetic; see "## Left out" for rounding. The list
  given to `read_package` is a `seq<real>`, and `action` is `real` too: the
  program does not enforce the `int` annotation on `action`.
- The model requires a positive duration and, for walking, a positive
  height. `MeanSpeed` requires `duration > 0`. `Calories` and `ShowTrainingInfo`
  require `Computable`, which is `duration > 0` plus `height > 0` for walking.
  `ReadPackage` checks neither value, and neither does the program.
- The program's base class `Training` is never built by `read_package`. Its
  calorie method has no formula, so the model has no constructor for it.
- `read_package` behaves differently for the two failures. For an unknown
  code it prints a message and returns `None`. For a known code with the wrong
  number of values, unpacking the list raises an error. The model returns
  `Err(UnknownWorkoutType(code))` in the first case and
  `Err(WrongLength(expected, actual))` in the second, and builds no training in
  either.
- The swimming class overrides `get_distance` with the same body as the base
  class. Only its class constant `LEN_STEP` (1.38) differs, so one `Distance`
  function with a per-class step length (`LenStep`) models both.
- For the running sample `[15000, 1, 75]` the formula gives exactly
  699.75 kcal: (18 · 9.75 − 20) · 75 / 1000 · 60.

## Model

| member | source | states |
|---|---|---|
| Trainings.Distance | homework.py:41-43 | the distance in km times 1000 is the actions times the class's step length in metres; it is at least zero when the action count is |
| Trainings.DistanceByVariant | homework.py:28-123 | the step length is 0.65 m for running and walking (`Training.LEN_STEP`, line 28) and 1.38 m for swimming (`Swimming.LEN_STEP`, line 108), used by the distance of lines 41-43 and 121-123 |
| Trainings.MeanSpeed | homework.py:45-48 | running and walking: speed × duration = distance; swimming (the override at lines 125-129): speed × duration × 1000 = pool length × pool count, so the stroke count plays no part; it is at least zero for non-negative inputs |
| Trainings.Calories | homework.py:58 | the calorie call of show_training_info applies the training's own override (lines 73-80, 94-103, 131-136) to its own mean speed: running calories are positive exactly when 18 × speed > 20 (for a positive weight); walking calories are at least 0.035 × weight × minutes for a weight of at least zero, and for a positive weight equal that term exactly when speed² < height; swimming calories are positive for a positive weight and a speed of at least zero. RunningCaloriesFromDistance, WalkingCaloriesSlow and SwimmingCaloriesFromPool give its value per kind |
| Trainings.RunningAndWalkingAgree | homework.py:83-92 | walking inherits distance and speed, so a walk and a run with the same action, duration and weight have equal distance and equal speed |
| Trainings.FloorDiv | homework.py:102 | Python's `x // y` for y > 0 is the whole number q with q·y ≤ x < (q+1)·y |
| Trainings.FloorDivZeroIff | homework.py:102 | for x ≥ 0 the floor quotient is at least zero, and zero exactly when x < y |
| Trainings.WalkingFloorTerm | homework.py:100-102 | the walking term speed² // height is a natural number, and zero exactly when speed² < height |
| Trainings.RunningCalories | homework.py:73-80 | for a positive weight and duration, the running calories are positive exactly when 18 × speed > 20 |
| Trainings.RunningCaloriesFromDistance | homework.py:76-80 | with running's own speed substituted, the calories are (18 × distance − 20 × duration) × weight × 60 / 1000 |
| Trainings.WalkingCalories | homework.py:94-103 | the walking calories are at least 0.035 × weight × minutes for a weight of at least zero; for a positive weight they are exactly that weight term when speed² < height, and more when not |
| Trainings.WalkingCaloriesSlow | homework.py:99-103 | for a walk with a positive weight, the calories reduce to 0.035 × weight × duration × 60 exactly when its squared mean speed is below its height |
| Trainings.SwimmingCalories | homework.py:131-136 | the swimming calories are positive for a positive weight and a speed of at least zero |
| Trainings.SwimmingCaloriesFromPool | homework.py:125-136 | with the pool speed substituted, the swimming calories are (pool length × pool count / (1000 × duration) + 1.1) × 2 × weight |
| Trainings.SwimmingIgnoresAction | homework.py:125-136 | two swims that differ only in stroke count have equal speed and equal calories, and distances that differ by the stroke difference × 1.38 / 1000 |
| Info.TypeName | homework.py:60 | the reported name is "Running", "SportsWalking" or "Swimming" exactly for that kind of training |
| Info.ShowTrainingInfo | homework.py:54-60 | the message carries the class name, the training's own duration, and the distance, speed and calories exactly as the getters give them |
| Info.TypeNameIdentifiesVariant | homework.py:54-60 | two messages have the same training type exactly when they describe the same kind of training |
| Packages.ReadPackage | homework.py:139-154 | a training is built exactly for SWM with 5 values, RUN with 3 or WLK with 4, and it is the training whose code and positional values are the inputs; an unknown code gives UnknownWorkoutType, a wrong count gives WrongLength with the expected and actual counts |
| Packages.ReadPackageRoundTrip | homework.py:143-152 | every training is read back unchanged from its own code and values, in constructor argument order |
| Packages.ReadPackageVariant | homework.py:143-152 | when a training is built, SWM gives a swim, RUN a run and WLK a walk |
| Samples.SampleSwimming | homework.py:165 | SWM [720, 1, 80, 25, 40] reads as a swim reported as 0.9936 km, 1.0 km/h, 336 kcal |
| Samples.SampleRunning | homework.py:166 | RUN [15000, 1, 75] reads as a run reported as 9.75 km, 9.75 km/h, 699.75 kcal |
| Samples.SampleWalking | homework.py:167 | WLK [9000, 1, 75, 180] reads as a walk reported as 5.85 km, 5.85 km/h, 157.5 kcal, because the floor term is 0 |
| Samples.SampleRejected | homework.py:153-154 | code XYZ gives UnknownWorkoutType; RUN with two values gives WrongLength(3, 2) |

## Left out

- `InfoMessage.get_message` (homework.py:16-23): it renders the record as Cyrillic text with `:.3f` float formatting. Its rounding depends on IEEE-754 and string formatting, so the model keeps only the record's fields.
- `main` and the `__main__` loop (homework.py:157-172): they only print. Their sample packages appear as the lemmas in `Samples`.
- The `print` for an unknown code (homework.py:154): the model keeps only the outcome, no training.
- `Training.get_spent_calories` of the base class (homework.py:50-52): it returns `None`, and the closed datatype has no base constructor.
- A negative duration or height: the program computes results for them (a run with duration −1 has speed −9.75, and `34.2225 // -180` is −1), but they are outside the model, whose getters require a positive duration and, for walking, a positive height.
- IEEE-754 rounding, and division by a zero duration or height: the model uses exact `real` arithmetic, with `duration > 0` and `height > 0` as preconditions of the getters. The sample results in `Samples` are therefore the exact values; the program's doubles can differ in the last digits (for instance 720 · 1.38 / 1000 evaluates to 0.99359999999999993).
- Values of other types in the package list (the program accepts any numbers, and would fail on non-numbers): the list is a sequence of reals.
