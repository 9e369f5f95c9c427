# Orbital dynamics simulator — a Dafny model of the N-body engine

The program simulates point masses under mutual Newtonian gravity. An
interactive menu keeps a list of bodies, a timestep `dt` and a step count.
On `run` it builds a forward Euler integrator and stores the resulting
history of states in a CSV file.

This project models:

- the value types `Vector3` and `Body` (`src/body.h`);
- the forward Euler integrator, its `run` and the rate function `grav_rate_func` (`src/integrator.h`);
- the gravitational rate function `rate_func` (`src/main.cpp`);
- the session rules of the menu loop (`src/main.cpp`): the command keyword table, the y/N and Y/n answers, the `dt` and step-count clamps, and the add, delete, clear, rename and run commands.

Every `double` is a `real`. The program divides `mu_j` by
`pow(dist(p_j, p_i), 3)`; the model multiplies `mu_j` by `invCube(p_j, p_i)`,
which stands for the reciprocal; the two agree over the reals when the bodies
are apart. `invCube: (Vector3, Vector3) -> real` is a function parameter. No
operation and no general lemma assumes anything about it; only the concrete
two-body scenario lemma fixes one of its values.

Files, one module each:

- `results.dfy` — `Option` and `Result`.
- `bodies.dfy` — `Bodies`: `Vector3`, `Body`, their constructors and `+`/`-`.
- `integrator.dfy` — `Integrator`: states, the reference function `History`, `grav_rate_func` as written, and the class `ForwardEuler` with `Run` (corrected) and `RunAsWritten`.
- `gravity.dfy` — `Gravity`: the force law `rate_func` and its properties.
- `frontend.dfy` — `Frontend`: the session rules, and the class `Session` holding `bodies`, `dt`, `steps` and the file name.

`ForwardEuler.Run` is a loop method. It is proved equal to the recursive
function `History`. The lemmas about the history are proved about that
function: its length, its head, the one-step rule, its shape, and which
fields change. `Gravity.RateFunc` has the nested loops of `rate_func`. It is
proved equal to `Accelerations`, an ascending fold over `j != i`.

## Model

| member | source | states |
|---|---|---|
| `Bodies.VectorComponentsStored` | src/body.h:8 | the three-argument constructor is modelled as the datatype constructor, which stores exactly x, y and z; the lemma only spells that out |
| `Bodies.Zero` | src/body.h:9 | `Vector3()` added to any vector leaves that vector unchanged |
| `Bodies.Add` | src/body.h:11-13 | adding the zero vector on either side gives the other operand |
| `Bodies.Sub` | src/body.h:15-17 | the difference is the zero vector iff the two operands are equal |
| `Bodies.ZeroIsIdentity` | src/body.h:9-17 | `Vector3()` is (0,0,0); it is the identity of `+`, it is what `v - v` gives, and subtracting it changes nothing |
| `Bodies.SubUndoesAdd` | src/body.h:11-17 | `Add`/`Sub` (componentwise by definition) undo each other; `Add` commutes |
| `Bodies.DefaultBody` | src/body.h:22-28 | `Body()` has zero pos, zero vel, mu = 0 and an empty name |
| `Bodies.NewBody` | src/body.h:27 | `Body(pos, vel, mu)` leaves the name empty, as the default body has it |
| `Bodies.NewBodyOverridesDefault` | src/body.h:27-28 | `Body(pos, vel, mu)` is the default body with exactly pos, vel and mu replaced; with zero vectors and mu = 0 it is the default body |
| `Integrator.Step` | src/integrator.h:58-69 | one step keeps the number of bodies |
| `Integrator.History` | src/integrator.h:52-72 | the reference history of `steps` Euler steps has exactly `steps + 1` states |
| `Integrator.Advance` | src/integrator.h:58-69 | the per-body loop on a copy of the previous state: it succeeds iff there is a rate for every body, and then body i is the previous body i stepped under `rate[i]`; otherwise it reports the first index read out of range |
| `Integrator.GravRateFunc` | src/integrator.h:24-40 | `grav_rate_func` as written returns the empty sequence for every input |
| `Integrator.ForwardEuler.constructor` | src/integrator.h:45-50 | the constructor stores dt, steps, the initial conditions and the rate function unchanged |
| `Integrator.ForwardEuler.Run` | src/integrator.h:52-72 | `run` with the stored rate function returns `History(initial, dt, steps, rate)`: `steps + 1` states, the first being the initial conditions |
| `Integrator.ForwardEuler.RunAsWritten` | src/integrator.h:52-72 | `run` as written faults (reads `rate[0]` of an empty vector at step 1) iff there is at least one step and one body; otherwise every state of its `steps + 1` states is the initial state |
| `Integrator.HistoryHead` | src/integrator.h:54 | state 0 of the history is the initial state, unchanged in order, names and mu |
| `Integrator.HistoryPrefix` | src/integrator.h:53-71 | a run of k steps is a prefix of a run of more steps with the same parameters |
| `Integrator.HistoryStepRule` | src/integrator.h:56-69 | state n is state n-1 stepped under the rates the rate function gives for state n-1 at time `(n-1)*dt`, and depends on nothing else |
| `Integrator.HistoryShape` | src/integrator.h:58-69 | every state has as many bodies as the initial state, and body i keeps the name and mu of initial body i |
| `Integrator.StepBody` | src/integrator.h:61-68 | the body keeps its name and mu; its velocity changes by exactly `dt * a` and its position by exactly `dt` times the velocity before the step |
| `Integrator.StepUpdatesMotionOnly` | src/integrator.h:61-68 | one step keeps name and mu; vel gains `dt * rate[i]`; pos gains `dt` times the velocity before the step |
| `Integrator.PositionUsesOldVelocity` | src/integrator.h:65-67 | whenever dt is non-zero and the body accelerates, the new position differs from the one the new velocity would give, so the scheme is not symplectic Euler |
| `Integrator.EmptyStateHistory` | src/integrator.h:53-71 | with no bodies every state of the history is empty |
| `Integrator.OneStepHistory` | src/integrator.h:53-70 | a one-step run is the initial state followed by its successor computed at time 0 |
| `Integrator.StepOfPair` | src/integrator.h:61-68 | stepping two bodies steps each under its own rate, in order |
| `Gravity.Accelerations` | src/main.cpp:111-124 | the force law gives one acceleration per body |
| `Gravity.GravityModel` | src/main.cpp:109-126 | `rate_func` as a rate function: it meets the one-acceleration-per-body contract and ignores the time argument |
| `Gravity.RateFunc` | src/main.cpp:109-126 | the nested loops of `rate_func` return `Accelerations(state)`: entry i is the zero vector plus, for each j != i in ascending order, `mu_j * invCube(p_j, p_i) * (p_j - p_i)` |
| `Gravity.Pull` | src/main.cpp:117-121 | the term of body j in body i's sum is the zero vector when body j is massless or sits at body i's position |
| `Gravity.AccumulateStep` | src/main.cpp:113-122 | one turn of the inner loop: for j = i the partial sum is unchanged; otherwise it grows by `mu_j * invCube(p_j, p_i)` times `p_j - p_i`, component by component |
| `Gravity.MasslessPullIsZero` | src/main.cpp:117-121 | a body with mu = 0 pulls nothing |
| `Gravity.AtMostOneBodyFeelsNoPull` | src/main.cpp:113-116 | with at most one body, every acceleration is the zero vector |
| `Gravity.PullSumIgnoresMassless` | src/main.cpp:113-122 | every partial sum for body i stays the same when a massless body j != i is replaced by any other massless body |
| `Gravity.MasslessBodyContributesNothing` | src/main.cpp:113-122 | a massless body j does not affect the acceleration of any other body i, wherever it is and however it moves |
| `Gravity.MasslessSumIsZero` | src/main.cpp:112-122 | if every body other than i among the first k is massless, body i's partial sum over them is the zero vector |
| `Gravity.AllMasslessFeelNoPull` | src/main.cpp:111-124 | if every body is massless, no body accelerates |
| `Gravity.TwoBodyAccelerations` | src/main.cpp:111-124 | for a massless A and any B, A is pulled by B's term alone and B's acceleration is exactly zero |
| `Gravity.OneStepOfMasslessAndMassive` | src/integrator.h:61-68 | one Euler step of a massless A and any B moves A under B's pull and B under no acceleration |
| `Gravity.EulerTwoBodyScenario` | src/integrator.h:61-67 | A at rest at the origin with mu = 0 and B at rest at (1,0,0) with mu = 1, dt = 1, inverse cube 1: after one step A has vel (1,0,0) and stays at the origin, and B neither moves nor accelerates |
| `Frontend.InputCommand` | src/main.cpp:25-53 | a recognised command comes from one of its own keywords; INVALID only for a token that is no command's keyword |
| `Frontend.InputCommandMatchesKeywords` | src/main.cpp:30-52 | a token maps to a command iff it is one of that command's keywords, and to INVALID iff it is no command's keyword |
| `Frontend.ConfirmDefaultNo` | src/main.cpp:87-92 | an empty answer is a no, and any yes to y/N is also a yes to Y/n |
| `Frontend.ConfirmDefaultYes` | src/main.cpp:96-101 | an empty answer is a yes, and a no needs a non-empty answer starting with 'n' or 'N' |
| `Frontend.AnswerRules` | src/main.cpp:87-101 | only the first character counts; an empty answer gives the default (no for y/N, yes for Y/n); a yes to y/N is also a yes to Y/n |
| `Frontend.ClampDt` | src/main.cpp:217-221 | SET_DT replaces a negative dt with 0.01 and keeps any other value, zero included |
| `Frontend.ClampSteps` | src/main.cpp:224-227 | SET_STEPS replaces any count below 1 with 1 and keeps the others |
| `Frontend.ClampsAreIdempotent` | src/main.cpp:217-227 | clamping twice equals clamping once; a clamp changes a value iff the value is out of range |
| `Frontend.RemoveAt` | src/main.cpp:198-203 | an index outside `[0, size)` leaves the list unchanged; a valid index removes that element and keeps the others in order |
| `Frontend.RemoveAtLosesOneBody` | src/main.cpp:203 | a valid delete loses exactly the chosen body: the multiset of bodies loses that one element |
| `Frontend.Session.constructor` | src/main.cpp:129-134 | a session starts with no bodies, dt = 100, 100 steps and file name `output.csv` |
| `Frontend.Session.AddBody` | src/main.cpp:174-188 | ADD_BODY appends the body at the end and changes nothing else |
| `Frontend.Session.DeleteBody` | src/main.cpp:190-205 | DEL_BODY deletes iff the index is in range; the new list is `RemoveAt(old list, index)`; nothing else changes |
| `Frontend.Session.ClearBodies` | src/main.cpp:206-214 | CLEAR_BODIES empties the list iff the y/N answer is yes, and changes nothing else |
| `Frontend.Session.SetDt` | src/main.cpp:216-222 | SET_DT stores the clamped value and keeps `dt >= 0` |
| `Frontend.Session.SetSteps` | src/main.cpp:223-229 | SET_STEPS stores the clamped value and keeps `steps >= 1` |
| `Frontend.Session.ChangeName` | src/main.cpp:247-251 | CHANGE_NAME replaces the file name and nothing else |
| `Frontend.Session.RunSimulation` | src/main.cpp:230-246 | RUN produces nothing on a no; on a yes it produces the history of the session's bodies with its dt, steps and the gravitational rate function: `steps + 1` states starting with the bodies |

## Left out

- `save_to_file` (src/file_handler.cpp) writes CSV text to a file. That is output formatting and I/O, so the history is the last value the model produces.
- All prompting and printing, the retry loops of `input_int` and `input_double`, and the `stoi`/`stod` parsing are left out. The commands take the already-read token, index or number. The LIST_BODIES, HELP and INVALID commands only print, so they are not modelled. QUIT only ends the loop, so it is not modelled either. The `Command` datatype keeps all eleven commands.
- Floating point is modelled as `real`. NaN and infinity from coincident bodies, rounding, summation-order effects and bit-level determinism are not modelled. `std::sqrt` and `std::pow` are replaced by the parameter `invCube`. In the program, a massless body at the same position as body i makes body i's acceleration NaN (0 divided by 0); `MasslessBodyContributesNothing` and `Pull` hold over the reals only.
- Gravity.RateFunc: the result is stated for any `invCube`. The program's value is the reciprocal of the cubed distance, which may be infinite; that value is not modelled.
- Frontend.Session.RunSimulation: uses the corrected `run` (see Findings). The program as written would fault there for any non-empty body list, as `ForwardEuler.RunAsWritten` shows.
- `steps` is converted from `int` to `size_t` in the program. `Session.Valid` keeps `steps >= 1`, so this conversion never wraps and is not modelled as 64-bit arithmetic.
- The abstract base class `Integrator` and its virtual `run` are folded into the class `ForwardEuler`. The raw function pointer is a function-typed field.
- `main.cpp` does not compile as written, because its `dist` (src/main.cpp:104) redefines the one `integrator.h` already defines (src/integrator.h:19). That is a build problem, and both are covered by `invCube`.
- Numerical-analysis properties such as truncation error and energy drift are not modelled.

## Findings

| source | as written | input that shows it | evidently intended | confidence | as-written member | corrected member |
|---|---|---|---|---|---|---|
| src/integrator.h:24-40 | `grav_rate_func` computes each body's acceleration and never appends it to `rates` | any state with one or more bodies, e.g. a single body: the result is empty instead of one zero vector | append `rate` once per body, as `rate_func` does at src/main.cpp:123 | high (not executed) | `Integrator.GravRateFunc` | `Gravity.RateFunc` |
| src/integrator.h:59-62 | `run` calls `grav_rate_func` instead of the stored `rate_func`, then reads `rate[i]` past the end of the empty result | `steps = 1` and one body: `rate[0]` is read from an empty vector (undefined behaviour) | call the stored rate function `rate_func` set at src/integrator.h:49 | high (not executed) | `Integrator.ForwardEuler.RunAsWritten` | `Integrator.ForwardEuler.Run` |
