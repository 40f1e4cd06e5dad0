# Ramp-meter controller over SUMO/TraCI, modelled in Dafny

The repository drives the ramp-metering signal of a SUMO traffic simulation with a
pre-trained policy. Two entry points share one control loop and differ only in the
policy:

- `code/simulation_q_learning_with_lights.py`: the state is the pair
  (vehicles on `ramp_0`, vehicles on `main_road_0`). It is flattened into the row
  index `ramp * 10 + main` of a Q-table, and the action is the argmax of that row.
- `code/simulation_DQN_without_lights.py`: the state is the 3-vector
  (vehicles on `ramp_0`, vehicles on `main_road_0`, phase of `intersection_0`).
  The action is the argmax of a trained network's output.

Both entry points start the simulator and run `NUM_STEPS` (1000) iterations inside
`try`/`finally`. Each iteration advances the simulator, observes, decides, sets the
`ramp_meter` phase (0 for action 0, 1 for action 1, nothing otherwise) and prints a
report that looks the action up in `ACTION_MAPPING`. The `finally` closes the
simulator.

Modules:

- `Faults` (`faults.dfy`): the exceptions a run can raise, and `Result`/`Option`.
- `Traci` (`traci.dfy`): the simulator connection. `Session` is a class whose
  `trace` field records every call in order, report lines included. A `World`
  value answers the lane and phase queries and decides which call raises. Each
  answer is a function of the whole history of calls, so the effect of earlier
  `setPhase` commands on traffic stays expressible.
- `Policy` (`policy.dfy`): the first-maximum argmax that `np.argmax` and
  `torch.argmax` share.
- `Tabular` (`tabular.dfy`) and `Network` (`network.dfy`): each entry point's
  `get_current_state`, `encode_state` and `select_action`.
- `Control` (`control.dfy`): `apply_action` and the loop. The loop is written once,
  over `Backend = TabularBackend(table) | NetworkBackend(net)`. `QLearningMain` and
  `DqnMain` are the two `main`s. The apply step of the DQN file
  (`code/simulation_DQN_without_lights.py:47-54`) is the same code as that of the
  Q-table file, so `Control.ApplyAction` models both.

How the loop is specified: `Execute(b, w, n)` is a pure function giving the trace,
the step records and the exit of a run. Its loop, `Loop`, is written over an
arbitrary loop body, and `BodyOf(b, w)` is the body `main` runs: `Iteration`. The
shape lemmas about `Loop` therefore assume only what `IterationShape` proves of
every iteration (`Shaped`). `Run` is the imperative loop on a `Session`,
and its postcondition equates its final trace and exit with `Execute`. Lemmas then
describe `Execute` from the outside:

- the start is the first call and is never repeated;
- the close is the last call and is made exactly once on every exit path that got
  past the start;
- between them come whole iterations in order (`Block`), then possibly one
  interrupted iteration;
- the report lines are the step records, numbered 0, 1, … .

Determinism of `select_action` for both backends comes from modelling them as
Dafny functions. The network is an uninterpreted total function from state to
values, which stands for evaluation under `no_grad` in `eval` mode.

Behaviour the model keeps from the code:

- An action outside {0, 1} is not rejected by the apply step. That step issues no
  command, and the run then fails on the `ACTION_MAPPING` lookup (`UnmappedAction`).
- A Q-table index past the last row is neither clamped nor wrapped. It raises
  (`IndexOutOfRange`).
- `traci.start` runs before the `try`. A failing start is therefore never followed
  by `close` (`StartFailed`).
- An exception raised by `close` replaces the exception pending from the loop
  (`CloseFailed(pending)`).
- The network's action can be any index into its output, not only 0 or 1.

## Model

| member | source | states |
|---|---|---|
| `Policy.Argmax` | code/simulation_q_learning_with_lights.py:40 | the chosen position is in range, holds a maximum of the values, and no earlier position holds that maximum (ties go to the lowest index) |
| `Policy.FirstMaxUnique` | code/simulation_DQN_without_lights.py:45 | at most one position satisfies the first-maximum rule, so the argmax is fully determined by it |
| `Tabular.EncodeState` | code/simulation_q_learning_with_lights.py:51-58 | the index is a natural number at least `ramp * 10`; when the main-road count is below 10, dividing by 10 and taking the remainder give back both counts |
| `Tabular.VectorNamesRow` | code/simulation_q_learning_with_lights.py:57-58 | the state printed in the report is a pair whose first component times 10 plus the second is the Q-table row the decision read |
| `Tabular.EncodeStateInjective` | code/simulation_q_learning_with_lights.py:57-58 | two states with main-road counts below 10 that share an index are the same state |
| `Tabular.EncodeStateCollides` | code/simulation_q_learning_with_lights.py:58 | past the stride, distinct states share a row: (0, 10) and (1, 0) both map to 10 |
| `Tabular.SelectAction` | code/simulation_q_learning_with_lights.py:34-40 | an action is returned exactly when the index lies inside the table and its row is non-empty; an index past the table raises an index error carrying the index; the action is the first maximum of the state's row |
| `Tabular.SelectActionRowTwentyThree` | code/simulation_q_learning_with_lights.py:39-40 | state (2, 3) reads row 23; with values [0.1, 0.9] the action is 1 |
| `Tabular.SelectActionTieOpens` | code/simulation_q_learning_with_lights.py:40 | a tied row [0.5, 0.5] yields action 0 |
| `Tabular.Observe` | code/simulation_q_learning_with_lights.py:18-32 | the observation queries `ramp_0` then `main_road_0` and, unless a query raises, returns exactly the number of vehicle IDs each query returned |
| `Tabular.GetCurrentState` | code/simulation_q_learning_with_lights.py:24-32 | on a live session, issues the calls and returns the result of `Observe` |
| `Network.SelectAction` | code/simulation_DQN_without_lights.py:37-45 | an action is returned exactly when the network output is non-empty; it is the first maximum of the output and lies in `[0, |output|)`; an empty output raises |
| `Network.SelectActionByOutput` | code/simulation_DQN_without_lights.py:43-45 | the action depends on the state only through the network's output: equal outputs give equal actions, whatever the networks and states |
| `Network.SelectActionFirstValueWins` | code/simulation_DQN_without_lights.py:44-45 | output [2.3, -1.1] for state (5, 12, 1) yields action 0 |
| `Network.Observe` | code/simulation_DQN_without_lights.py:21-35 | the observation queries `ramp_0`, `main_road_0`, then the phase of `intersection_0`; unless a query raises, the state has length 3 and is the two vehicle counts and the phase |
| `Network.GetCurrentState` | code/simulation_DQN_without_lights.py:27-35 | on a live session, issues the calls and returns the result of `Observe` |
| `Control.ApplyAction` | code/simulation_q_learning_with_lights.py:42-49 | action 0 issues exactly `setPhase("ramp_meter", 0)`, action 1 exactly `setPhase("ramp_meter", 1)`, any other value issues nothing and succeeds |
| `Control.Decide` | code/simulation_q_learning_with_lights.py:73-76 | defines observing then selecting: the backend's `get_current_state`, then its `select_action` on the result; a fault in either ends the decision |
| `Control.Iteration` | code/simulation_q_learning_with_lights.py:70-82 | defines one loop pass: `simulationStep`, decide, `apply_action`, then the `ACTION_MAPPING` lookup and the report; each call that raises ends the pass with its fault |
| `Control.Loop` | code/simulation_q_learning_with_lights.py:68-82 | defines the `for` loop: iterations numbered from the count of completed ones, up to `n`, stopping at the first fault |
| `Control.ExitOf` | code/simulation_q_learning_with_lights.py:83-85 | defines how the `finally` ends a started run: a failing close replaces the pending fault, otherwise the loop's fault, or none, decides the exit |
| `Control.Execute` | code/simulation_q_learning_with_lights.py:60-85 | defines `main`: a start that raises ends the run with nothing else; otherwise the loop, then one close |
| `Control.DecideTabular` | code/simulation_q_learning_with_lights.py:24-40 | with the Q-table, deciding makes exactly the observation's calls, succeeds exactly when the observation and the row lookup do, and yields the observed pair and the first maximum of its row |
| `Control.DecideNetwork` | code/simulation_DQN_without_lights.py:27-45 | with the network, deciding makes exactly the observation's calls, succeeds exactly when the observation does and the output is non-empty, and yields the observed vector and the first maximum of the output |
| `Control.IterationRecord` | code/simulation_q_learning_with_lights.py:70-82 | a completed pass reports its own index with the state it observed and the action the policy selected |
| `Control.IterationUnmapped` | code/simulation_DQN_without_lights.py:75-78 | a selected action outside {0, 1} issues no ramp-meter command, and the pass ends right after deciding with `UnmappedAction(action)` (the `ACTION_MAPPING` key error) and no report |
| `Control.IterationCommandFails` | code/simulation_q_learning_with_lights.py:46-49 | a ramp-meter command that raises ends the pass with the simulator fault, the command being its last call and nothing reported |
| `Control.RunIteration` | code/simulation_q_learning_with_lights.py:68-82 | one loop pass on a live session makes the calls of `Iteration` and returns its record or its fault |
| `Control.Run` | code/simulation_q_learning_with_lights.py:60-85 | the run's final trace and exit are those of `Execute`: start, iterations until `n` or the first fault, then close |
| `Control.QLearningMain` | code/simulation_q_learning_with_lights.py:60-88 | the Q-table entry point runs `Execute` with the table backend and 1000 steps |
| `Control.DqnMain` | code/simulation_DQN_without_lights.py:56-84 | the DQN entry point runs `Execute` with the network backend and 1000 steps |
| `Control.IterationShape` | code/simulation_DQN_without_lights.py:64-78 | a completed iteration makes exactly step, lane queries, (phase query,) setPhase, report, in that order, and carries its index and a mapped action; a raising one stops part-way through, before its report |
| `Control.BodyShaped` | code/simulation_q_learning_with_lights.py:70-82 | every pass of a run's loop body is shaped: a whole block when it completes, a start of one when it raises |
| `Control.LoopRecords` | code/simulation_q_learning_with_lights.py:68-82 | a loop of shaped passes keeps its records numbered in order with mapped actions, extends the records it started from, and stops after `n` of them or at the first pass that raised, whose index is below `n` |
| `Control.LoopShape` | code/simulation_q_learning_with_lights.py:68-82 | a loop of shaped passes makes the blocks of its records back to back, then the calls of the pass that raised, which are empty exactly when no pass raised |
| `Control.ExecuteStartsOnce` | code/simulation_q_learning_with_lights.py:65 | the first call of a run is `start(["sumo", "-c", "simulation.sumocfg"])` and no later call starts the simulator again |
| `Control.ExecuteClosesOnce` | code/simulation_DQN_without_lights.py:61-81 | the run fails at start exactly when `start` raises, and then nothing follows; otherwise the last call is `close` and `close` occurs exactly once, whether the loop finished or raised |
| `Control.ExecuteIterations` | code/simulation_DQN_without_lights.py:63-81 | between start and close come all `n` completed iterations back to back; if iteration `k` raised, then `k < n` and exactly `k` completed iterations precede its interrupted calls |
| `Control.ExecuteReports` | code/simulation_q_learning_with_lights.py:82 | the report lines of a run are exactly its step records, numbered 0, 1, … with mapped actions and states of the backend's fixed length |
| `Control.ThirdStepFailureClosesOnce` | code/simulation_DQN_without_lights.py:63-81 | with 3 steps and a third `simulationStep` that raises, the run exits with the simulator fault at step 2 after two completed iterations and closes exactly once |

## Left out

- Simulator semantics and the SUMO process: lane contents, phases and exceptions come from the `World` input, not from a traffic model.
- Loading the Q-table (`np.load`) and the network (`torch.load`), and device selection: the table is a `seq<seq<real>>` parameter and the network an uninterpreted total function.
- The network's forward pass, float32 conversion of the state, and NaN handling in argmax: action values are Dafny reals, and the state is passed as integers.
- Ragged tables: the model accepts rows of different lengths, which a numpy array cannot have. This only widens the inputs.
- The text of the report line: a report is an event carrying the step record (index, state, action). Printing is assumed never to raise.
- Module-level globals: the table, the network and the step count are parameters. `QLearningMain` and `DqnMain` fix the step count at 1000.
