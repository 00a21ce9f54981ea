# Workout metrics: a verified model

This project models the fitness-tracker module `homework.py`. The module takes a
sensor package: a three-letter workout code (`SWM`, `RUN` or `WLK`) and a
positional list of numbers. It builds the matching training record and derives three
metrics from it: distance in km, mean speed in km/h and spent calories. It packs
the kind name and those metrics into an information message.

The class hierarchy `Training` / `Running` / `SportsWalking` / `Swimming` becomes
one closed datatype `Workouts.Training`. Records are never changed after
construction, so every getter is a function. Floats are modelled as exact
`real` numbers. Python's float floor division `//` becomes `(x / y).Floor as real`.

- `workouts.dfy` (module `Workouts`): the constants, the record and message
  datatypes, distance, the inherited and the overridden mean speed, the calorie
  formulas and the message.
- `workout_facts.dfy` (module `WorkoutFacts`): properties relating several records,
  and the walking formula compared with a true-division reading of it.
- `packages.dfy` (module `Packages`): `read_package` as a function returning an
  explicit `Result`, its round trip with a record's code and fields, and the three
  stock packages of the driver as concrete lemmas.

Two worked figures from the driver's stock packages (homework.py:187-191):
- Swimming overrides the step length with 1.38 m (homework.py:108). The package
  `[720, 1, 80, 25, 40]` therefore covers 720 × 1.38 / 1000 = 0.9936 km.
- The running package `[15000, 1, 75]` spends (18 × 9.75 − 20) × 75 / 1000 × 1 × 60 = 699.75 kcal.

## Model

| member | source | states |
|---|---|---|
| `Workouts.LenStep` | homework.py:15 | one action is 0.65 m for running and walking (inherited) and 1.38 m for swimming (overridden at line 108) |
| `Workouts.Distance` | homework.py:32-35 | the distance in km times 1000 is the number of actions times the kind's action length; non-negative for a non-negative action count |
| `Workouts.BaseMeanSpeed` | homework.py:39-42 | the inherited speed times the duration is the distance; defined only for a nonzero duration |
| `Workouts.MeanSpeed` | homework.py:126-129 | running and walking report the inherited speed; swimming's speed times duration times 1000 is pool length times pool count |
| `Workouts.FloorDiv` | homework.py:99 | `//` gives a whole number q with q ≤ x / y < q + 1; the divisor must be nonzero |
| `Workouts.KindName` | homework.py:52 | the name is `Running`, `SportsWalking` or `Swimming` exactly for a record of that kind, standing in for the Python class name |
| `Workouts.RunningCalories` | homework.py:70-74 | running calories equal weight × (1.08 × distance − 1.2 × duration): the formula on the inherited speed, with the speed eliminated |
| `Workouts.WalkingSpeedRatio` | homework.py:99 | the squared inherited speed over the height, non-negative for a positive height |
| `Workouts.WalkingCalories` | homework.py:97-102 | walking calories are 0.035 × 60 × weight × duration plus the whole part of speed² / height times 0.029 × 60 × weight × duration |
| `Workouts.SwimmingCalories` | homework.py:133-135 | swimming calories times duration equal 2 × weight × (pool length × pool count / 1000 + 1.1 × duration): the formula on the pool-based speed |
| `Workouts.Calories` | homework.py:70-135 | each kind gets its own formula: the running and walking closed forms on the inherited speed, and the swimming closed form on the pool-based speed |
| `Workouts.ShowTrainingInfo` | homework.py:50-57 | the message holds, in order, the kind name, the duration, the distance, the kind's own mean speed and its calories; for running and walking its speed times duration is its distance |
| `WorkoutFacts.KindNameIdentifiesKind` | homework.py:52 | two records have the same kind name exactly when they are of the same kind |
| `WorkoutFacts.DistanceMonotone` | homework.py:32-35 | more actions of the same kind never give a shorter distance |
| `WorkoutFacts.SwimmingSpeedIgnoresStrokes` | homework.py:126-135 | swimming speed and calories do not depend on the stroke count |
| `WorkoutFacts.SwimmingOverrideAgreesWithBaseIff` | homework.py:126-129 | for any swimming record, the override equals the inherited speed exactly when pool length × pool count equals the strokes × 1.38 m |
| `WorkoutFacts.SwimmingOverrideDiffersFromBase` | homework.py:126-129 | for the stock swimming package the override gives 1.0 km/h where the inherited formula would give 0.9936 |
| `WorkoutFacts.WalkingFloorWithinOneTermOfTrueDivision` | homework.py:99 | with positive weight × duration, the floored formula lies below the true-division formula by less than 0.029 × 60 × weight × duration, and equals it exactly when speed² / height is whole |
| `WorkoutFacts.SlowWalkPaysWeightTermOnly` | homework.py:97-102 | when speed² / height is below 1, walking calories are 0.035 × 60 × weight × duration |
| `Packages.ParameterCount` | homework.py:174-176 | exactly the codes `SWM`, `RUN` and `WLK` are known |
| `Packages.Code` | homework.py:174-176 | the lookup table read backwards: a record's code is known, and its parameter count is the record's number of fields |
| `Packages.Fields` | homework.py:17-28 | a record's fields in constructor order: action, duration, weight, then the height for walking (homework.py:83-93) or the pool length and pool count for swimming (homework.py:110-123) |
| `Packages.ParameterCountIsArity` | homework.py:174-177 | each known code's parameter count is the field count of a record of that kind |
| `Packages.ReadPackage` | homework.py:171-177 | a record is built exactly when the code is known and the list has that constructor's arity; the record's code and positional fields are then the package; an unknown code and a wrong arity give their own errors |
| `Packages.ReadPackageOfRecord` | homework.py:171-177 | every record is read back from its own code and fields |
| `Packages.PackageDeterminesRecord` | homework.py:174-177 | a code and a field list name at most one record |
| `Packages.SwimmingSample` | homework.py:188 | `SWM [720, 1, 80, 25, 40]` gives a swimming record reporting 1.0 h, 0.9936 km, 1.0 km/h, 336.0 kcal |
| `Packages.RunningSample` | homework.py:189 | `RUN [15000, 1, 75]` gives a running record reporting 1.0 h, 9.75 km, 9.75 km/h, 699.75 kcal |
| `Packages.WalkingSample` | homework.py:190 | `WLK [9000, 1, 75, 180]` gives a walking record reporting 1.0 h, 5.85 km, 5.85 km/h, 157.5 kcal (the floored term is 0) |
| `Packages.UnknownCodeSample` | homework.py:177 | code `XYZ` gives the unknown-workout-type error for any data |

## Left out

- `InfoMessage.get_message` (homework.py:160-167): its three-decimal string formatting depends on IEEE rounding and Python's formatter.
- `main` and the driver loop (homework.py:180-195): they print. The driver's three packages appear only as the sample lemmas.
- IEEE-754 float semantics: every quantity is an exact `real`. Results agree with the exact mathematical formulas, not bit for bit with Python's output.
- The base `Training.get_spent_calories` (homework.py:45-47) returns `None`. The dispatcher never builds a bare `Training`, so the closed datatype has no base case.
- Zero duration, and zero height for walking, raise `ZeroDivisionError` in Python. The model makes them preconditions (`Workouts.Computable`) rather than error results.
- Package entries are modelled as numbers only. The source accepts any Python values and fails later on non-numeric ones. The `int` hint on `action` is not enforced, so `action` is a `real`.
- `type(self).__name__` (homework.py:52) is runtime reflection; the model uses the fixed names of `Workouts.KindName` instead.
