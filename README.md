# Fitness calculator, modelled in Dafny

A model of the fitness-tracker calculator in `homework.py`. A sensor package
is a workout code (`'SWM'`, `'RUN'` or `'WLK'`) and a list of readings. The
dispatch table turns it into one of three workouts: `Running`,
`SportsWalking` or `Swimming`. Each workout reports its distance in km, its
mean speed in km/h and the calories it burned. `show_training_info` bundles
these with the class name into an `InfoMessage` record.

The program is pure, so the model is datatypes and functions:

- `wrappers.dfy` (module `Wrappers`): `Option`, for the `None` that
  `read_package` returns, and `Result`, for the `TypeError` raised when a
  constructor gets the wrong number of readings.
- `homework.dfy` (module `Homework`): the `Training` datatype, with one
  constructor per class. It holds the per-class constants (`LenStep`,
  `CaloriesMeanSpeedMultiplier`, `CaloriesMeanSpeedShift`), the class name
  (`KindName`), and one function per method. It also holds the `InfoMessage`
  record and the dispatch table `TrainingByCode`, with `Construct` (the call
  `cls(*data)`) and `ReadPackage`.
- `homework_properties.dfy` (module `HomeworkProperties`): lemmas that relate
  several operations. They cover closed forms of the calorie formulas, their
  signs, monotonicity, proportionality to weight, and which inputs a result
  ignores. They also read the dispatch table backwards (`ReadPackage`
  round trip and inverse) and check the three sample packages.

Every quantity is an exact `real`. The program computes in IEEE doubles, so
the equalities here hold of the formulas, not bit-for-bit of the printed
numbers. Python raises `ZeroDivisionError` on a zero duration, or on a zero
height for walking. Those divisions carry `requires t.duration != 0.0`, or
`CaloriesDefined(t)`, which also asks for a non-zero height when walking.

Running and walking compute calories from the base class's mean speed (their
code calls `super().get_mean_speed()`), so the model has `BaseMeanSpeed` for
it. Swimming overrides the mean speed, and its calories use the override
(`MeanSpeed`). For swimming, the constant named `CALORIES_MEAN_SPEED_MULTIPLIER`
(1.1) is added and the one named `CALORIES_MEAN_SPEED_SHIFT` (2) multiplies.
The model keeps this arithmetic as written.

An unknown code gives `None` (homework.py:143), not an error; `ReadPackage`
returns `Success(None)` for it. For `('RUN', [15000, 1, 75])` the running
formula gives 797.805 kcal (`SamplePackages`).

## Model

| member | source | states |
|---|---|---|
| `Homework.KindName` | homework.py:60 | The report's class name is "Running", "SportsWalking" or "Swimming", each exactly for its own class |
| `Homework.LenStep` | homework.py:24 | The step length is 0.65 m for running and walking (inherited) and 1.38 m for swimming (overridden at homework.py:113) |
| `Homework.CaloriesMeanSpeedMultiplier` | homework.py:27 | The first calorie constant: 18 for running (redeclared at homework.py:70), 0.035 for walking (homework.py:85), 1.1 for swimming (homework.py:111) |
| `Homework.CaloriesMeanSpeedShift` | homework.py:28 | The second calorie constant: 1.79 for running (redeclared at homework.py:71), 0.029 for walking (homework.py:86), 2 for swimming (homework.py:112) |
| `Homework.Arity` | homework.py:30-34 | A constructor takes 3 positional arguments for running, 4 for walking (homework.py:90-91) and 5 for swimming (homework.py:115-116) |
| `Homework.TrainingTimeInMinutes` | homework.py:39-42 | Minutes divided by 60 give back the duration in hours; a positive duration gives positive minutes |
| `Homework.Distance` | homework.py:44-47 | Distance times 1000 equals steps times the class's step length (0.65 m, or 1.38 m for swimming); non-negative for non-negative steps and positive for positive steps |
| `Homework.BaseMeanSpeed` | homework.py:49-51 | The inherited speed times the duration gives back the distance; non-negative for non-negative steps and positive duration; requires a non-zero duration |
| `Homework.MeanSpeed` | homework.py:121-125 | For running and walking, speed times duration is the distance. For swimming, speed times duration times 1000 is pool length times pool count, so strokes play no part. Non-negative on plausible inputs |
| `Homework.HeightInM` | homework.py:95-97 | Height in metres times 100 gives back the height in cm; non-zero when the height is |
| `Homework.SpentCalories` | homework.py:68-133 | Zero weight burns zero calories for every class; defined exactly when no divisor (duration, walking height) is zero |
| `Homework.ShowTrainingInfo` | homework.py:58-65 | The report carries the class name and the unchanged duration, plus the same workout's distance, speed and calories. For running and walking, speed times duration equals distance. On plausible inputs, distance and speed are non-negative |
| `Homework.Fields` | homework.py:30-34 | A workout's constructor arguments are action, duration and weight, then the class's extras in declaration order: height for walking (homework.py:90-91); pool length and count for swimming (homework.py:115-116) |
| `Homework.Construct` | homework.py:142 | Spreading the readings into a class's constructor succeeds exactly when their count equals its arity (3, 4 or 5). On success it yields that class with those fields; otherwise it fails with the expected and given counts |
| `Homework.ReadPackage` | homework.py:136-143 | An unknown code gives `None` and no error. A known code fails exactly when the count is wrong for its class. A workout returned is of the class the table gives for the code, and its fields are exactly the readings |
| `HomeworkProperties.SwimmingIgnoresStrokes` | homework.py:121-133 | Changing a swimmer's stroke count leaves speed and calories unchanged, but changes the distance, which uses the 1.38 m stroke |
| `HomeworkProperties.WalkingSpeedIgnoresHeight` | homework.py:44-51 | A walker's height affects neither distance nor speed |
| `HomeworkProperties.RunningCaloriesClosedForm` | homework.py:73-80 | Running calories equal (18·distance + 1.79·duration)·weight·60/1000, i.e. the formula with the speed multiplied back out |
| `HomeworkProperties.SwimmingCaloriesClosedForm` | homework.py:127-133 | Swimming calories equal 2·weight·(length·count/1000 + 1.1·duration); the 1.1 is added and the 2 multiplies |
| `HomeworkProperties.WalkingCaloriesFloor` | homework.py:99-106 | With positive duration and height and non-negative weight, walking calories are at least 0.035·weight·minutes, whatever the step count (even a negative one) |
| `HomeworkProperties.CaloriesNonNegative` | homework.py:68-133 | For plausible inputs (non-negative counts, lengths and weight; positive duration and height), no class reports negative calories |
| `HomeworkProperties.SwimmingCaloriesPositive` | homework.py:127-133 | A swimmer with positive weight and duration and non-negative pool length and count burns a positive amount, even with zero lengths and whatever the stroke count |
| `HomeworkProperties.CaloriesScaleWithWeight` | homework.py:68-133 | Multiplying the weight by k multiplies every class's calories by k |
| `HomeworkProperties.WalkingCaloriesScaleWithWeight` | homework.py:99-106 | The walking case of proportionality to weight |
| `HomeworkProperties.RunningCaloriesMonotoneInSteps` | homework.py:73-80 | With the same duration and non-negative weight, more running steps never give fewer calories |
| `HomeworkProperties.KindNameInjective` | homework.py:60 | Two reports have the same class name exactly when they come from the same class |
| `HomeworkProperties.ReportOfReadPackage` | homework.py:58-65 | The report of a read package names the class its code selects and shows the second reading as the duration |
| `HomeworkProperties.DispatchTable` | homework.py:138-140 | The table has exactly the keys SWM, RUN and WLK, and maps each class's code back to that class |
| `HomeworkProperties.FieldsInjective` | homework.py:115-116 | Two workouts of the same class with the same constructor arguments are equal |
| `HomeworkProperties.ReadPackageRoundTrip` | homework.py:136-143 | Reading a workout's own code and constructor arguments gives back that workout |
| `HomeworkProperties.ReadPackageInverse` | homework.py:136-143 | Any workout read from a package has that package's code and its readings as constructor arguments |
| `HomeworkProperties.ReadPackageOutcomes` | homework.py:136-143 | The three known codes give a workout (never `None`) exactly when the count is right. Every other code gives `None` without error |
| `HomeworkProperties.ReadPackageSurjective` | homework.py:136-143 | Every workout of the three classes is what some package reads as |
| `HomeworkProperties.SwimmingReportSpeedNotDistanceOverTime` | homework.py:109-133 | Some plausible swimming report has speed times duration different from its distance: distance counts 1.38 m strokes and speed counts pool lengths (e.g. the sample package: 0.9936 km against 1 km/h over 1 h) |
| `HomeworkProperties.SamplePackages` | homework.py:153-157 | The three sample packages read as the expected workouts. Their reports are: swimming 0.9936 km, 1 km/h, 336 kcal; running 9.75 km, 9.75 km/h, 797.805 kcal; walking 5.85 km, 5.85 km/h, 349.251747525 kcal (exact reals) |

## Left out

- `InfoMessage.get_message` (homework.py:15-19): renders floats with `:.3f` rounding. `InfoMessage` is kept only as a five-field record.
- `main` and the `__main__` loop (homework.py:146-161): printing and driver glue. Their sample data appears only in `SamplePackages`.
- IEEE-754 rounding: all arithmetic is exact `real`. No result is claimed to be bit-identical to the program's floats.
- `Training.get_spent_calories` of the base class (homework.py:53-56): returns `None` and is never reached for the three concrete classes.
- The int/float distinction: `action` and the pool count are typed `int` in the source, and `training_time_in_minutes` is annotated `-> int` but returns a float. The model uses `real` throughout.
- Non-numeric readings: the readings are `seq<real>`, so the only constructor error modelled is a wrong count.
- `ZeroDivisionError`: modelled as a precondition (non-zero duration; non-zero height for walking), not as an error value.
