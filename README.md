# Deterministic bitrate scenario scheduler

This project models the experiment start-up hook of the YouTube QoE browser
extension (`useExperimentStart`). It is written in Dafny and proves
properties of the model. The hook has three parts:

- **Permutation generator** (`permutations.dfy`, module `Permutations`).
  `generatePermutations` runs an in-place, swap-based backtracking recursion
  (`permute`) over an array. It swaps each candidate into the current
  position, recurses, swaps it back, and at the last position pushes a copy of
  the array onto a result list. `PermsFrom`/`PermsLoop` state, as functions on
  values, which orderings the recursion records and in what order.
  `PermutationCollector.Permute` is the recursion itself on an `array<int>`,
  and is proved to record exactly those orderings and to restore the array.
  The proved properties are:
  - every entry is a rearrangement of the input;
  - the count is (n − k)!;
  - for three elements the table is exactly
    `[A,B,C],[A,C,B],[B,A,C],[B,C,A],[C,B,A],[C,A,B]`;
  - for three pairwise-distinct inputs the six entries are pairwise distinct
    and are all the orderings.
- **Scenario builder** (`scenario.dfy`, module `Scenario`).
  `getBitrateScenario` maps an experiment id to
  `[1250000000, p0, p1, p2, 1250000000]`, where `(p0, p1, p2)` is entry
  `id % 6` of the table for `[37500, 75000, 125000]`. `BitrateScenario` is
  the specification function, written with the documented table.
  `GetBitrateScenario` builds the scenario as `getBitrateScenario` does, by
  running the in-place generator, and is proved equal to `BitrateScenario`.
- **Activator** (`activation.dfy`, module `Activation`). `startExperiment`
  makes seven awaited store writes and then navigates away:
  - the settings keys `bitrateScenario`, `bitrateIntervalMs = 600000`,
    `experimentDurationMs = 3000000`, `assessmentJitterRangeMs = [0, 0]` and
    `assessmentTimeoutMs = 150000`;
  - then the variables keys `running = true` and `experimentID = id`;
  - then the navigation to `https://www.youtube.com/`.

  `handleSubmit` runs it only when the create call succeeds. The page is the
  class `ExtensionPage`. It holds the two stores as maps and a trace of
  events (`WriteSetting`, `WriteVariable`, `Navigate`). Its invariant says
  that the stores are what replaying the trace gives. The outcome of the
  external create call is an input of type `Result<int>`. The contracts rest
  on specification functions: `Apply` and `Replay` give the effect of one event
  and of a trace on the stores; `ExperimentConfig` and `ActivationFlags` are
  the records written to the settings and variables stores; `ConfigWrites`,
  `FlagWrites`, `ActivationEvents` and `SubmitEvents` list the side effects in
  the order the code awaits them.

The swapped array in the generator is an `array<int>`. Each entry pushed with
`[...arr]` is a value snapshot (`arr[..]`). `Permute`'s postcondition
`result == old(result) + …` states that entries already recorded are never
changed by later swaps.

The code uses JavaScript's truncating `%`, so `experiment_id % 6` is negative
for most negative ids; the model therefore requires `experimentId >= 0` (see
"Left out").

## Model

| member | source | states |
|---|---|---|
| Permutations.PermutationCollector.Permute | extension/src/pages/setup/views/Setup/useExperimentStart.ts:58-74 | after the call `arr` holds its entry contents again (every swap undone); `result` is its old value extended by exactly the orderings `PermsFrom(arr, startIndex)`, so earlier entries are untouched |
| Permutations.GeneratePermutations | extension/src/pages/setup/views/Setup/useExperimentStart.ts:55-78 | the caller's array is unchanged; the result is the backtracking table, has n! entries, each a rearrangement of the input; for length 3 it is `[A,B,C],[A,C,B],[B,A,C],[B,C,A],[C,B,A],[C,A,B]` |
| Permutations.PermsShape | extension/src/pages/setup/views/Setup/useExperimentStart.ts:64-73 | every ordering recorded from start index k has the input's length, keeps the prefix before k and has the input's multiset |
| Permutations.PermsLoopShape | extension/src/pages/setup/views/Setup/useExperimentStart.ts:64-73 | the same for what the `for` loop records from iteration i on |
| Permutations.PermsCount | extension/src/pages/setup/views/Setup/useExperimentStart.ts:58-74 | started at k < n, the recursion records (n − k)! orderings |
| Permutations.PermsLoopCount | extension/src/pages/setup/views/Setup/useExperimentStart.ts:64-73 | the loop from iteration i records (n − i)·(n − k − 1)! orderings |
| Permutations.SwapPermutes | extension/src/pages/setup/views/Setup/useExperimentStart.ts:66 | a swap keeps the multiset of the array |
| Permutations.TableOrder | extension/src/pages/setup/views/Setup/useExperimentStart.ts:58-77 | for `[a,b,c]` the recursion records exactly `[a,b,c],[a,c,b],[b,a,c],[b,c,a],[c,b,a],[c,a,b]`; entry 0 is the input |
| Permutations.TableDistinct | extension/src/pages/setup/views/Setup/useExperimentStart.ts:64-73 | for pairwise-distinct a, b, c the table has 6 entries that are pairwise distinct |
| Permutations.TableIsAllOrderings | extension/src/pages/setup/views/Setup/useExperimentStart.ts:55-78 | for pairwise-distinct a, b, c a sequence is in the table if and only if it is an ordering of `[a,b,c]` |
| Scenario.BitrateScenario | extension/src/pages/setup/views/Setup/useExperimentStart.ts:80-87 | for id ≥ 0 the scenario has 5 steps, starts and ends with 1250000000, and every middle step is positive and strictly below it |
| Scenario.GetBitrateScenario | extension/src/pages/setup/views/Setup/useExperimentStart.ts:80-87 | running the in-place generator on `[37500, 75000, 125000]` and indexing with `id % 6` yields `BitrateScenario(id)` |
| Scenario.ScenarioMiddleIsOrdering | extension/src/pages/setup/views/Setup/useExperimentStart.ts:81-86 | the three middle steps are an ordering of 37500, 75000, 125000 |
| Scenario.ScenarioFromGenerator | extension/src/pages/setup/views/Setup/useExperimentStart.ts:84-86 | the generator's table for the base values has 6 entries, and the middle of the scenario is its entry `id % 6` |
| Scenario.ScenarioDeterminedByResidue | extension/src/pages/setup/views/Setup/useExperimentStart.ts:86 | two ids get the same scenario if and only if they agree modulo 6 |
| Scenario.ScenarioPeriodic | extension/src/pages/setup/views/Setup/useExperimentStart.ts:86 | `BitrateScenario(id + 6) == BitrateScenario(id)` |
| Scenario.EveryOrderingAssigned | extension/src/pages/setup/views/Setup/useExperimentStart.ts:84-86 | every ordering of the three base values is the middle of the scenario of some id in 0..5 |
| Scenario.ScenarioExamples | extension/src/pages/setup/views/Setup/useExperimentStart.ts:80-87 | id 0 gives `[1250000000,37500,75000,125000,1250000000]`, id 5 gives `[1250000000,125000,37500,75000,1250000000]`, id 7 gives the scenario of id 1 |
| Activation.ActivationEvents | extension/src/pages/setup/views/Setup/useExperimentStart.ts:43-52 | an activation has 8 side effects; the last is the navigation to the playback URL and none before it navigates |
| Activation.ReplayAppend | extension/src/pages/setup/views/Setup/useExperimentStart.ts:43-52 | replaying two runs of awaited writes one after the other equals replaying their concatenation |
| Activation.ReplayKeepsOtherStore | extension/src/pages/setup/views/Setup/useExperimentStart.ts:43-51 | settings writes leave the variables store unchanged; variables writes and navigation leave the settings store unchanged |
| Activation.ConfigWritesOutcome | extension/src/pages/setup/views/Setup/useExperimentStart.ts:43-47 | the five settings writes add exactly the configuration record to the settings store, and every other key keeps its value |
| Activation.FlagWritesOutcome | extension/src/pages/setup/views/Setup/useExperimentStart.ts:50-51 | the two variables writes add exactly `running = true` and `experimentID = id` |
| Activation.ActivationOutcome | extension/src/pages/setup/views/Setup/useExperimentStart.ts:38-53 | replaying an activation turns the stores into settings + configuration and variables + flags |
| Activation.DurationCoversScenario | extension/src/pages/setup/views/Setup/useExperimentStart.ts:39-45 | the stored duration equals the stored interval times the scenario length (3000000 = 600000 × 5) |
| Activation.NavigatesOnlyOnSuccess | extension/src/pages/setup/views/Setup/useExperimentStart.ts:24-36 | submitting navigates if and only if the create call succeeded; a failed call produces no side effect |
| Activation.ActivationExample | extension/src/pages/setup/views/Setup/useExperimentStart.ts:41-51 | activating id 7 stores the scenario of id 1, `running = true` and `experimentID = 7` |
| Activation.ExtensionPage.SetSetting | extension/src/pages/setup/views/Setup/useExperimentStart.ts:43 | one settings write updates that key only and is appended to the trace; the replay invariant is kept |
| Activation.ExtensionPage.SetVariable | extension/src/pages/setup/views/Setup/useExperimentStart.ts:50 | one variables write updates that key only and is appended to the trace; the replay invariant is kept |
| Activation.ExtensionPage.NavigateTo | extension/src/pages/setup/views/Setup/useExperimentStart.ts:52 | the navigation writes nothing and is appended to the trace |
| Activation.ExtensionPage.StartExperiment | extension/src/pages/setup/views/Setup/useExperimentStart.ts:38-53 | the trace grows by exactly `ActivationEvents(id)` (all writes, then the navigation); settings become old settings + configuration; variables become old variables + flags |
| Activation.ExtensionPage.HandleSubmit | extension/src/pages/setup/views/Setup/useExperimentStart.ts:24-36 | on success the activation runs for the created id; on failure neither store nor the trace changes |

## Left out

- Negative experiment ids: `BitrateScenario`, `GetBitrateScenario`, `StartExperiment` and `HandleSubmit` require a non-negative id, as the server assigns. In the code a negative id that is not a multiple of 6 gives a negative index, `undefined` and a `TypeError` before the first write, which `handleSubmit` catches and logs. A negative multiple of 6 gives `-0`, which indexes entry 0.
- Failures of the storage writes: every `setItem` is modelled as succeeding. In the code a rejected write would skip the remaining writes and the navigation, and the error would be logged.
- Form validation with formik and yup, the initial form values, and the React hook's return value. These are external libraries and UI plumbing.
- The create request: `usePostExperimentMutation`, the request body, `isLoading`, and the `DateTime.now()` timestamp. This is network and clock I/O. Only the call's outcome, success with an id or failure, is an input.
- `console.log` of a failed create call. The failure branch is modelled as having no effect on the stores or the trace.
- Concurrent submissions: `StartExperiment` and `HandleSubmit` run as one unbroken step. In the code every `await` in `startExperiment` yields, so the writes of two activations started close together can interleave, and the stored `experimentID` could then belong to a different id than the stored `bitrateScenario`. The model does not capture that interleaving.
- Chrome extension storage itself: the stores are in-memory maps.
- `window.location.href`: the navigation is a final `Navigate` event in the trace. The model does not tear down the page.
- Array identity of the pushed entries: each `[...arr]` copy is a value snapshot `arr[..]`, not a fresh array object.
