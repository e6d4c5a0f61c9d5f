# Deployment Rollout Index: scoring engine

A Dafny model of the scoring engine behind the Deployment Rollout Index (DRI)
dashboard. The engine has two stages.

- **The observability agent** (`observability_agent.dfy`, module
  `ObservabilityAgent`).
  - It reads a table of raw rollout metrics, one row per project.
  - It perturbs two deviation percentages and the data-readiness percentage
    with a clamped random offset (`jitter`).
  - It maps every row to six integer dimension scores in 1..5 through fixed
    threshold ladders.
  - The random offsets are a `Draws` parameter, each bounded by
    `|value * pct|`, as `np.random.uniform(-delta, delta)` draws them.
  - A column the scoring reads that is missing from the table is pandas'
    `KeyError`. It is modelled as `Err(MissingColumn(name))`, naming the first
    column the code reads that is absent.
  - `RunAgent` is imperative: it copies the rows into an array, jitters it
    in place one column at a time (`ApplyJitter`) and fills the score table
    row by row (`BuildScoreTable`). It is proved equal to the functional
    specification `AgentRun`.
- **The composite ranker** (`dri_dashboard.dfy`, module `DriDashboard`).
  - It normalises six slider weights by their sum, with 1 in place of a zero
    sum.
  - It computes each project's DRI as the dot product of its scores with the
    weights, and flags the project as a "Pilot Candidate" when the DRI
    reaches the threshold.
  - It ranks the table by DRI, highest first, and counts the pilots.
  - `load_observed_scores` becomes a function of the file's presence and its
    parsed rows. It returns the one-row placeholder table when the file is
    absent.
  - The dashboard embeds its own copy of the agent, `run_observability_agent`.
    Its `jitter` and ladders are textually the same as the agent's, so they
    are modelled by the same functions. The one difference is that each
    jitter pass is skipped when its column is absent. `DashboardAgentRun`
    models this, and `DashboardAgentAgrees` relates it to the stand-alone
    agent.
  - `Rank` is the imperative ranking stage. It adds the "DRI Score" and
    "Pilot Candidate" columns row by row (`AddRankColumns`), sorts, and
    counts.

Numbers: percentages, weights, scores read by the dashboard and the DRI are
`real`; counts read by the agent and the scores it writes are `int`.
`Wrappers` holds `Option` (for the optional `min_val`/`max_val` arguments)
and `Result`.

## Model

| member | source | states |
|---|---|---|
| `ObservabilityAgent.FirstMissing` | observability_agent.py:111-117 | The lookup of the scoring columns fails exactly when some wanted column is absent, and then names the first wanted column that is absent: every column before it is present |
| `ObservabilityAgent.Jitter` | observability_agent.py:7-14 | The result is at most `max_val` when given; at least `min_val` when given and `min_val <= max_val` (or no max); exactly `value + offset` when neither bound is given |
| `ObservabilityAgent.JitterClamps` | observability_agent.py:7-14 | With both bounds in order, jitter lands in `[lo, hi]`, keeps an in-range perturbed value, and sends a value below `lo` to `lo` and above `hi` to `hi` |
| `ObservabilityAgent.JitterUnclampedBound` | observability_agent.py:7-14 | Without bounds, jitter moves the value by at most `abs(value * pct)` |
| `ObservabilityAgent.Put` | observability_agent.py:100-108 | Overwriting one jittered column sets that column and leaves every other field of the record (the other two jittered columns, the project id and the seven counts) as it was |
| `ObservabilityAgent.JitterCell` | observability_agent.py:100-108 | The lambda applied to one cell: the new value lies in the column's `[min_val, max_val]`, equals the old value plus the draw when that sum is in range, and no other field changes |
| `ObservabilityAgent.JitteredColumn` | observability_agent.py:100-108 | One `.apply(jitter)` pass keeps the row count, changes only its column, and puts every cell in that column's `[min_val, max_val]` |
| `ObservabilityAgent.DrawsFitAfterJitter` | observability_agent.py:100-108 | A pass over one column leaves the draws for another column admissible, since that column's values do not change |
| `ObservabilityAgent.Jittered` | observability_agent.py:99-108 | After the three sequential passes each row equals its raw row with the two deviations replaced by `jitter(v, 0.2, 0, 60)` and readiness by `jitter(v, 0.05, 70, 99)` of its own draws, all other fields kept; both deviations lie in [0, 60] and readiness in [70, 99] |
| `ObservabilityAgent.JitterZeroDrawInRange` | observability_agent.py:7-14 | A zero draw leaves a column whose values already lie within its bounds unchanged |
| `ObservabilityAgent.ScopeRepeatability` | observability_agent.py:16-26 | The scope score is an integer in 1..5 for every input |
| `ObservabilityAgent.ScopeRepeatabilityTiers` | observability_agent.py:16-26 | Exact tiers: `rollouts_done` >= 10 gives 5, 6..9 gives 4, 3..5 gives 3, 1..2 gives 2, <= 0 gives 1 |
| `ObservabilityAgent.ScopeRepeatabilityMonotone` | observability_agent.py:16-26 | The scope score is non-decreasing in `rollouts_done` |
| `ObservabilityAgent.TemplateMaturity` | observability_agent.py:28-39 | The template score is an integer in 1..5 for every input |
| `ObservabilityAgent.TemplateMaturityTiers` | observability_agent.py:28-39 | 0, 1, 2, 3 changes give 5, 4, 3, 2; any other count (negative or >= 4) gives 1 |
| `ObservabilityAgent.TemplateMaturityAntitone` | observability_agent.py:28-39 | Over non-negative change counts, more changes never raise the score |
| `ObservabilityAgent.VariancePredictability` | observability_agent.py:41-52 | The variance score is an integer in 1..5 for every input |
| `ObservabilityAgent.VariancePredictabilityTiers` | observability_agent.py:41-52 | With `dev` the larger deviation: <= 10 gives 5, <= 15 gives 4, <= 25 gives 3, <= 35 gives 2, otherwise 1 |
| `ObservabilityAgent.VariancePredictabilityDependsOnMax` | observability_agent.py:41-52 | Two input pairs with the same maximum get the same score |
| `ObservabilityAgent.VariancePredictabilitySymmetric` | observability_agent.py:41-52 | Swapping effort and duration deviation does not change the score |
| `ObservabilityAgent.VariancePredictabilityAntitone` | observability_agent.py:41-52 | Raising either deviation never raises the score |
| `ObservabilityAgent.DependencyComplexity` | observability_agent.py:54-66 | The dependency score is an integer in 1..5 for every input |
| `ObservabilityAgent.DependencyComplexityTiers` | observability_agent.py:54-66 | The score is 5 iff integrations <= 2 and no incident; it is at least 4, 3, 2 iff integrations <= 3, 4, 5 and incidents <= 1, 2, 4 respectively, both bounds together |
| `ObservabilityAgent.DependencyComplexityAntitone` | observability_agent.py:54-66 | Over non-negative incident counts, more integrations or more incidents never raise the score |
| `ObservabilityAgent.DependencyComplexityMixedTiers` | observability_agent.py:54-66 | One integration with three incidents scores 2, not 5: both conditions are needed |
| `ObservabilityAgent.LanguageIntensity` | observability_agent.py:68-80 | The language score is an integer in 1..5 for every input |
| `ObservabilityAgent.LanguageIntensityTiers` | observability_agent.py:68-80 | The score is 5 iff workshops <= 2 and no localisation change; it is at least 4, 3, 2 iff workshops <= 3, 4, 6 and localisation changes <= 1, 1, 3 respectively, both bounds together |
| `ObservabilityAgent.LanguageIntensityAntitone` | observability_agent.py:68-80 | Over non-negative localisation counts, more workshops or more localisation changes never raise the score |
| `ObservabilityAgent.LanguageIntensityFourWorkshops` | observability_agent.py:68-80 | Four workshops and no localisation change score 3 |
| `ObservabilityAgent.GovernanceReadiness` | observability_agent.py:82-94 | The governance score is an integer in 1..5 for every input |
| `ObservabilityAgent.GovernanceReadinessTiers` | observability_agent.py:82-94 | The score is 5 iff readiness >= 95 and no gate failed; it is at least 4, 3, 2 iff readiness >= 92, 88, 80 and failed gates <= 1, 2, 3 respectively |
| `ObservabilityAgent.GovernanceReadinessMonotone` | observability_agent.py:82-94 | Over non-negative failure counts, the score is non-decreasing in readiness and non-increasing in failed gates |
| `ObservabilityAgent.ScoreTable` | observability_agent.py:110-117 | One score record per raw row, in order, each with that row's project id and all six scores in 1..5 |
| `ObservabilityAgent.ScoreRow` | observability_agent.py:110-117 | A score record carries its row's project id, and all six scores lie in 1..5 |
| `ObservabilityAgent.AgentRun` | observability_agent.py:96-117 | The run succeeds iff every column the scoring reads is present; an absent effort, duration or readiness column (checked in that order, as lines 100, 103, 106 read them) is the error; with those three present the error names the first absent scoring column in read order; on success it gives one record per raw row, in order, with that row's project id, scores in 1..5, and each score the ladder applied to the jittered row |
| `ObservabilityAgent.ApplyJitter` | observability_agent.py:100-108 | The in-place pass over the array leaves it equal to the column-jittered copy of its old contents |
| `ObservabilityAgent.BuildScoreTable` | observability_agent.py:110-117 | Filling the output row by row yields the score table of the (jittered) array |
| `ObservabilityAgent.RunAgent` | observability_agent.py:96-117 | The imperative agent (array copy, three in-place passes, row-by-row fill) returns exactly what `AgentRun` specifies |
| `DriDashboard.Normalise` | dri_dashboard.py:21-32 | With a zero sum the weights pass through unchanged (each divided by 1); with any other sum the normalised weights sum to exactly 1 |
| `DriDashboard.NormaliseRoundTrip` | dri_dashboard.py:21-32 | With a non-zero sum S, each normalised weight times S gives back its raw weight: weight i is raw_i / S |
| `DriDashboard.NormaliseAllZero` | dri_dashboard.py:21-32 | All-zero sliders normalise to all-zero weights, with no division by zero |
| `DriDashboard.ZeroSumMeansAllZero` | dri_dashboard.py:21-23 | For non-negative sliders the sum is 0 only when every slider is 0, so the zero-sum substitution only ever sees all-zero weights |
| `DriDashboard.NormaliseIsDistribution` | dri_dashboard.py:21-32 | Non-negative weights with a positive sum normalise to values in [0, 1] that sum to 1 |
| `DriDashboard.NormaliseIdempotent` | dri_dashboard.py:21-32 | Normalising normalised weights changes nothing |
| `DriDashboard.DefaultWeightsNormalised` | dri_dashboard.py:14-32 | The default sliders (20, 20, 20, 15, 10, 15) normalise to 0.2, 0.2, 0.2, 0.15, 0.1, 0.15 |
| `DriDashboard.ToDimensionRow` | dri_dashboard.py:181 | An agent record read back by the dashboard has its scores in the editor's range [1, 5] |
| `DriDashboard.LoadObservedScores` | dri_dashboard.py:43-61 | When the file exists the table is its rows; otherwise it is one row, "MDG-S Rollout" |
| `DriDashboard.FallbackTable` | dri_dashboard.py:43-61 | The placeholder is exactly the row ("MDG-S Rollout", 4.5, 4.5, 4.0, 3.5, 3.5, 4.0); it lies in the editor's range; no agent record reads back as it |
| `DriDashboard.GuardedJitter` | dri_dashboard.py:77-88 | A guarded pass is the plain pass when its column is present and leaves the rows unchanged when it is absent |
| `DriDashboard.DashboardAgentRun` | dri_dashboard.py:63-177 | The dashboard's agent succeeds iff every scoring column is present, and an error names the first absent scoring column in read order (the guards skip the jitter passes, so no jittered column is read early) |
| `DriDashboard.DashboardAgentAgrees` | dri_dashboard.py:67-177 | The dashboard's agent succeeds on the same tables as the stand-alone agent and then gives the same scores; with all three jittered columns present the two agree outright |
| `DriDashboard.RunObservabilityAgent` | dri_dashboard.py:63-177 | The imperative dashboard agent (guarded in-place passes, row-by-row fill) returns exactly what `DashboardAgentRun` specifies |
| `DriDashboard.ComputeDri` | dri_dashboard.py:211-219 | For scores in [1, 5] and non-negative weights the DRI is a weighted average: between the weight sum and five times the weight sum |
| `DriDashboard.DriOfUniformScores` | dri_dashboard.py:211-219 | With weights summing to 1, a project scoring c on every dimension has DRI c |
| `DriDashboard.DriBounds` | dri_dashboard.py:211-219 | Scores in [1, 5] and non-negative weights summing to 1 give a DRI in [1, 5] |
| `DriDashboard.DriMonotone` | dri_dashboard.py:211-219 | Under non-negative weights, raising any dimension score never lowers the DRI |
| `DriDashboard.PilotFlag` | dri_dashboard.py:222-224 | The flag is "Yes" iff DRI >= threshold and "No" iff DRI < threshold, for any threshold |
| `DriDashboard.RankRow` | dri_dashboard.py:221-224 | A row with its two added columns keeps its scores, carries the DRI of those scores and the flag "Yes" exactly when that DRI reaches the threshold |
| `DriDashboard.Scored` | dri_dashboard.py:221-224 | The scored table has one row per edited row, in order, each keeping its scores with its own DRI and a flag that agrees with it |
| `DriDashboard.Insert` | dri_dashboard.py:226 | Inserting into a DRI-descending table adds exactly that row and keeps the table descending |
| `DriDashboard.SortByDri` | dri_dashboard.py:226 | The sorted table is a permutation of its input with DRI non-increasing from first to last row |
| `DriDashboard.SortByDriStable` | dri_dashboard.py:226 | Rows with equal DRI keep their input order (the chosen tie-break) |
| `DriDashboard.PilotCount` | dri_dashboard.py:245 | The number of "Yes" rows is at most the number of rows |
| `DriDashboard.CountAtLeast` | dri_dashboard.py:222-224 | The number of rows whose DRI reaches the threshold is at most the number of rows |
| `DriDashboard.PilotCountIsCountAtLeast` | dri_dashboard.py:222-245 | When every flag agrees with its DRI, counting "Yes" flags counts the rows with DRI >= threshold |
| `DriDashboard.PilotCountSorted` | dri_dashboard.py:226-245 | Sorting does not change the number of pilots |
| `DriDashboard.PilotsArePrefix` | dri_dashboard.py:222-245 | In a DRI-descending table with agreeing flags, the pilots are exactly the first `PilotCount` rows |
| `DriDashboard.RankedRowsCorrect` | dri_dashboard.py:211-226 | Every row of the ranked table carries the DRI of its own scores and the matching flag; with editor-range scores and distribution weights every DRI lies in [1, 5] |
| `DriDashboard.SortKeepsFlags` | dri_dashboard.py:222-226 | Sorting keeps every row's flag in agreement with its DRI |
| `DriDashboard.RankedPilots` | dri_dashboard.py:222-245 | The pilot count of the ranked table is the number of scored rows with DRI >= threshold, and the pilots are its first rows |
| `DriDashboard.AddRankColumns` | dri_dashboard.py:221-224 | Adding the two columns row by row gives the scored table: each row with its DRI and its flag |
| `DriDashboard.Rank` | dri_dashboard.py:211-245 | The ranked table is a permutation of the scored table, sorted by DRI, has the same per-DRI order, carries correct DRIs and flags, and has its pilots first; `pilots` counts the rows with DRI >= threshold and `total` is the row count; editor-range scores under non-negative sliders with positive sum give DRIs in [1, 5] |
| `ObservabilityAgent.TopProjectScenario` | observability_agent.py:16-117 | With zero draws, a raw row at the top of every ladder scores 5 on all six dimensions |
| `DriDashboard.TopProjectDri` | dri_dashboard.py:211-224 | A project scoring 5 everywhere has DRI 5.0 under the default weights and is a pilot at 3.5 |
| `DriDashboard.FallbackScenario` | dri_dashboard.py:43-61 | The placeholder project has DRI 4.075 under the default weights and is a pilot at the default threshold 3.5 |
| `DriDashboard.AgentOutputDriBounds` | dri_dashboard.py:211-219 | Any score record the agent writes, read back and ranked under non-negative sliders with a positive sum, has DRI in [1, 5] |

## Left out

- The Streamlit user interface is not modelled: page setup, sliders, the data editor, metrics, the progress bar, the button and the rerun. It is presentation only. The editor's 1..5 bounds appear as a precondition on the ranker's inputs (`InEditorDomain`), and the sliders' values as the inputs of `Normalise` and `Rank`.
- CSV input and output (`read_csv`, `to_csv`), `os.path.exists` and the `st.cache_data` cache are not modelled. File presence is the boolean input of `LoadObservedScores`, and the parsed file is its row sequence.
- `np.random.uniform` is not modelled. Each draw is an input offset bounded by `|value * pct|`. The model uses the closed interval where NumPy's is half-open, so it also admits the `high` end `delta = value * pct` itself, which NumPy excludes.
- IEEE floating point is not modelled. All arithmetic is exact on `real`, so normalised weights sum to exactly 1 and comparisons are exact. NaN cells and non-numeric cells are not modelled.
- The slider weights are whole numbers in 0..50 in the source. The model takes any real weights, which covers them.
- pandas vectorisation is modelled row by row and column by column as sequence maps. `apply`, `np.where` and the column-assignment order as data-frame operations are not modelled. On a table with no rows, pandas' `apply(axis=1)` may return an empty frame rather than empty score columns; the model gives an empty score table.
- The tie order of `sort_values` is not specified by pandas. The model's insertion sort is stable; this is a choice, and `SortByDriStable` states it.
- A column present but holding the wrong type is not modelled, nor is any other pandas error. A missing column is the only error path.
- The session state that keeps user edits across reruns is not modelled. The display helpers are left out too: the progress ratio `pilots / total` and the weight percentages.
- `DependencyComplexityAntitone`, `LanguageIntensityAntitone`, `GovernanceReadinessMonotone`, `TemplateMaturityAntitone`: are stated over non-negative counts only. The top tier tests a count for `== 0`, so a negative count scores below what a zero count scores (for example `TemplateMaturity(-1) == 1 < 5 == TemplateMaturity(0)`) and the ladder is not monotone there. Counts in the raw table are never negative.
- `Normalise`: scale invariance (multiplying every slider by the same positive factor gives the same weights) is not stated.
