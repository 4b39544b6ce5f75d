# Fitness tracker calculations, modelled in Dafny

The tracker (`homework.py`) turns one package of sensor readings into a
workout summary. A package is a workout code and a flat list of readings.
`read_package` looks the code up in a registry (`RUN`, `WLK`, `SWM`) and
calls the matching constructor with the readings spread positionally. There
are three kinds: `Running`, `SportsWalking` and `Swimming`, all built on the
base class `Training`. Each kind derives three values from its readings:

- distance in km: steps (or strokes) times the step length, over 1000;
- mean speed in km/h: distance over duration, except that swimming uses the
  pool length times the pool count;
- calories: a formula of its own for each kind.

`show_training_info` collects the kind's name, the duration and these three
values into an `InfoMessage` record.

The model has five modules:

- `Workouts` (`workouts.dfy`): the `Workout` datatype, one constructor per
  kind. It holds the constants, the `Distance`, `MeanSpeed` and `Calories`
  functions, and lemmas about them: positivity, proportionality to weight,
  growth with the step count, closed forms, and swimming's independence
  from the stroke count.
- `Summary` (`summary.dfy`): the `InfoMessage` record and
  `ShowTrainingInfo`, including its division-by-zero failure.
- `Factory` (`factory.dfy`): the code registry and `ReadPackage`, with its
  two failures: an unknown code, and an argument list of the wrong length.
  Its partner is the pair `Code`/`Arguments`, which turns a session back
  into its package. The round trip is proved.
- `Outcomes` (`outcomes.dfy`): the failures and the `Result` type.
- `Samples` (`samples.dfy`): the driver's three sample packages, worked
  through exactly, plus the failure cases of the path from a package to its
  summary.

Each quantity is an exact `real`. The constants are the source's decimal
literals read exactly: 0.65, 1.38, 1000, 60, 18, 1.79, 0.035, 0.029, 100,
0.278, 1.1 and 2. Python raises `ZeroDivisionError` when a duration is zero,
or when a walker's height is zero. `MeanSpeed` and `Calories` therefore
require non-zero divisors. `ShowTrainingInfo` covers every input and returns
`Err(ZeroDivision)` exactly when one of these divisors is zero.

Notes on the source:

- The comment on `SportsWalking.height` (homework.py:90) says the height is
  in metres. The formula divides it by `CM_IN_M` (100), so it treats the
  height as centimetres. The model follows the formula.
- By the code's formula, the running sample `('RUN', [15000, 1, 75])`
  spends exactly 797.805 kcal, which `Samples.RunningSample` proves.
- Swimming's distance uses the stroke count and the 1.38 m stroke length.
  Its mean speed and calories use the pool figures instead of the stroke
  count. The model keeps this divergence, and
  `Workouts.SwimmingIgnoresStrokes` states it.

## Model

| member | source | states |
|---|---|---|
| Workouts.StepLength | homework.py:103-107 | swimming, and only swimming, overrides the step with its 1.38 m stroke; running and walking keep the inherited 0.65 m; both are positive |
| Workouts.Distance | homework.py:40-43 | the distance is non-negative exactly when the step count is, and zero exactly when it is; it is `action * 0.00065` km for running and walking and `action * 0.00138` km for swimming |
| Workouts.MeanSpeed | homework.py:45-123 | the base rule (lines 45-48) and the swimming override (lines 120-123); defined for a non-zero duration; for running and walking, speed times duration gives back the distance; for swimming, speed times duration times 1000 gives back pool length times pool count |
| Workouts.PlausibleSpeedNonNegative | homework.py:45-123 | for the base rule (lines 45-48) and the swimming override (lines 120-123): with non-negative steps, a positive duration and non-negative pool figures, no kind reports a negative speed |
| Workouts.RunningCalories | homework.py:63-71 | the running formula is positive for a non-negative speed, positive duration and positive weight |
| Workouts.SpeedHeightRatio | homework.py:95-99 | the squared speed in m/s over the height in metres is never negative for a positive height |
| Workouts.WalkingCalories | homework.py:76-100 | the walking formula needs a non-zero height and is positive for a positive duration, weight and height, at any speed |
| Workouts.SwimmingCalories | homework.py:105-129 | the swimming formula is positive for a non-negative speed, positive duration and positive weight |
| Workouts.Calories | homework.py:61-129 | each kind applies its own formula to its own mean speed; defined when the duration (and, for walking, the height) is non-zero; positive for plausible readings |
| Workouts.SwimmingIgnoresStrokes | homework.py:120-123 | changing a swim's stroke count changes neither its mean speed nor its calories, but its distance changes exactly when the count does |
| Workouts.SpeedIgnoresWeight | homework.py:40-123 | the mean speed of every kind is independent of the athlete's weight |
| Workouts.CaloriesProportionalToWeight | homework.py:61-129 | for every kind, scaling the weight by k scales the calories by k |
| Workouts.RunningCaloriesScale | homework.py:66-71 | the running formula is linear in the weight |
| Workouts.WalkingCaloriesScale | homework.py:92-100 | the walking formula is linear in the weight |
| Workouts.SwimmingCaloriesScale | homework.py:125-129 | the swimming formula is linear in the weight |
| Workouts.RunningCaloriesClosedForm | homework.py:63-71 | the duration inside the running speed cancels: calories equal `(18 * 0.00065 * action + 1.79 * duration) * weight * 0.06` |
| Workouts.SwimmingCaloriesClosedForm | homework.py:120-129 | the duration inside the swimming speed cancels: calories equal `(lengthPool * countPool / 1000 + 1.1 * duration) * 2 * weight` |
| Workouts.MoreStepsMoreCalories | homework.py:40-100 | for running and walking with plausible readings, more steps in the same session give a strictly higher speed and strictly more calories |
| Workouts.RunningCaloriesGrow | homework.py:66-71 | the running formula strictly increases with the speed for a positive duration and weight |
| Workouts.WalkingCaloriesGrow | homework.py:92-100 | the walking formula strictly increases with a non-negative speed for a positive duration, weight and height |
| Workouts.SpeedHeightRatioGrows | homework.py:95-99 | a faster non-negative walking speed gives a strictly larger squared-speed-over-height term |
| Summary.ClassNameIdentifiesKind | homework.py:56 | two sessions report the same name exactly when they are of the same kind |
| Summary.ClassName | homework.py:56 | the name reported for a session is one of the three class names `Running`, `SportsWalking`, `Swimming` |
| Summary.ShowTrainingInfo | homework.py:54-58 | the summary is built exactly when the duration (and, for walking, the height) is non-zero; otherwise it fails with a division by zero |
| Summary.SummaryIsConsistent | homework.py:5-13 | a built summary carries the session's own name and duration, the step-based distance (`action * 0.00065` km, or `action * 0.00138` km for a swim, whose speed ignores the strokes), a speed consistent with the distance (or the pool distance), the calories `Calories(w)` of the session's own formula (so weight proportionality, the closed forms and growth with steps carry over to the summary), and for plausible readings a non-negative distance and speed and positive calories |
| Factory.Registry | homework.py:134-137 | the registry knows exactly the codes `RUN`, `SWM` and `WLK`, and every workout kind is reachable from one of them |
| Factory.Arity | homework.py:31-115 | each constructor takes between 3 and 5 positional readings; the exact counts (3 for running, inherited from lines 31-35; 4 for sports walking, lines 82-87; 5 for swimming, lines 109-115) are tied to each constructor's fields by the contracts of `Factory.Arguments` and `Factory.Construct` |
| Factory.Arguments | homework.py:31-115 | a session's readings list has its constructor's length and holds every field in constructor order: action, duration, weight (lines 31-35), then height for sports walking (lines 82-87), or pool length and pool count for swimming (lines 109-115) |
| Factory.Code | homework.py:134-137 | every session's code is a registry key that selects that session's kind |
| Factory.Construct | homework.py:138 | a constructor call succeeds exactly when the list has the constructor's length; otherwise it fails naming the expected and given counts; a built session has the selected kind and gives back the same readings |
| Factory.ReadPackage | homework.py:132-138 | an unknown code fails as a lookup failure; a known code with the wrong list length fails as an argument-count failure; otherwise it succeeds, and the built session has the given code and readings |
| Factory.ReadPackageRoundTrip | homework.py:132-138 | reading a session's own code and readings rebuilds exactly that session |
| Samples.SwimmingSample | homework.py:148 | `('SWM', [720, 1, 80, 25, 40])` builds a swim reporting distance 0.9936, speed 1.0 and calories 336.0 |
| Samples.RunningSample | homework.py:149 | `('RUN', [15000, 1, 75])` builds a run reporting distance 9.75, speed 9.75 and calories 797.805 |
| Samples.WalkingSample | homework.py:150 | `('WLK', [9000, 1, 75, 180])` builds a walk reporting distance 5.85, speed 5.85 and calories 349.251747525 |
| Samples.PackageSummary | homework.py:153-155 | a package that reads and summarises reports the kind its code selects and the duration it was given |
| Samples.ZeroDivisorPackages | homework.py:45-123 | a package with zero duration, or a walking package with zero height, reads but fails to summarise with a division by zero |
| Samples.UnknownCodeSample | homework.py:134-138 | the code `BIKE` fails the lookup rather than producing a default workout |
| Samples.WrongAritySample | homework.py:138 | a running package with four readings fails with expected 3, given 4 |

## Left out

- `InfoMessage.get_message` (homework.py:15-22) is not modelled. It renders
  the record as fixed Russian text, with each number rounded to three
  decimals. Decimal rendering of floats is outside the model; the record's
  fields are modelled.
- IEEE-754 floating point is not modelled. Every quantity is an exact real,
  so the model states the arithmetic the formulas describe. It leaves out
  the rounding of Python floats, and also their overflow and non-finite
  values: `speed_kmh_in_msec ** 2` (homework.py:99) raises `OverflowError`
  for a huge speed, a huge integer `action` fails to convert to a float at
  homework.py:43, and a NaN or infinite duration never raises
  `ZeroDivisionError`.
- `type(self).__name__` (homework.py:56) is reflection. The model gives each
  constructor a fixed name instead (`Summary.ClassName`).
- The base `Training.get_spent_calories` (homework.py:50-52) returns `None`.
  The factory never builds a bare `Training`, so the model has no base
  constructor.
- `main` and the driver loop (homework.py:141-155) print to the console and
  are not modelled. Their sample packages appear as lemmas in `Samples`.
- The type annotations (`action: int`, the others `float`) are not
  enforced by Python. The model takes every reading as a real number, which
  includes the integer samples. Non-numeric readings are not modelled.
- Python raises `ZeroDivisionError` when a getter is called directly with a
  zero divisor. For the getters, the model states this as a precondition.
  The error itself is modelled only on the path through `ShowTrainingInfo`.
