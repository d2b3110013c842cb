# MCPower-gui core, modelled in Dafny

MCPower-gui is a Qt desktop front end for the MCPower Monte Carlo power-analysis
library. The user writes a model formula or builds ANOVA factors. They then
declare variable types, effect sizes, correlations and cluster structure, and
start a power run or a sample-size search. The results appear in tabs and are
kept in an on-disk history.

Under the widgets sits a layer of plain logic over strings, lists and
dictionaries. This project models that layer, one Dafny file per source file:

- `predictor_expansion.dfy`: the dummy coding of predictors and interactions
  (`ModelTab._expand_predictors`).
- `type_detection.dfy`: the cardinality rules that turn uploaded columns into
  variable types and ANOVA factors.
- `type_info.dfy`: the per-variable type record.
- `model_tab.dfy`: the correlation-mode reconciler over the data and user
  correlation maps, the model-type switch, and the lists of available tests
  and factors.
- `correlation_editor.dfy`: the correlation keys and the triangular grid.
- `variable_type_editor.dfy`, `anova_factor_editor.dfy`, `effects_editor.dfy`,
  `cluster_editor.dfy` and `formula_input.dfy`: the editors, each a class
  whose rows are values.
- `state.dfy`: the shared model state, its defaults, its snapshot and the
  engine's specification strings.
- `worker.dfy`: the request the analysis worker assembles, as an ordered plan
  of engine calls.
- `analysis_tab.dfy`, `target_test_selector.dfy` and `post_hoc_selector.dfy`:
  the run settings, their validation and the tri-state checklists.
- `tip_engine.dfy` and `tutorial_guide.dfy`: the declarative tip rules, their
  matching, placeholder filling and priority order, and the guide that feeds
  and gates them.
- `history_manager.dfy`: the history store, as an abstract directory of files
  with modification times.
- `results_table.dfy`, `results_tab.dfy` and `result_panel.dfy`: the
  presentation rules for result cells, tab names and the run header.
- `common.dfy` and `sorting.dfy`: the Python built-ins the code relies on.
  These are insertion-ordered dictionaries, `split`, `strip`, `join`,
  `itertools.combinations` and the stable `sorted`.

Modelling conventions:

- A Python dictionary that is iterated in order is an association list
  `Entries<V>`. Its lookup finds the first match and `Put` keeps insertion
  order.
- A widget is a plain field: a check box is a `bool`, a spin box a number
  clamped to its range, a combo box its items and index.
- Methods that run a handler are atomic: signal re-entry is not modelled.
- Floats are `real`. Float-to-text conversion, the Pearson coefficient, value
  ordering, the clock, uuids, JSON encoding and the external formula parser
  are parameters.
- Where the code raises, the model returns an explicit outcome. Examples are
  `int()` on a bad threshold in a tip rule, a correlation key that does not
  split in two, and `format_map` on unbalanced braces.

## Model

| member | source | states |
|---|---|---|
| Common.Put | mcpower_gui/tabs/model_tab.py:351 | after `d[k] = v` the key finds the new value and every other key its old one |
| Common.Split | mcpower_gui/tabs/model_tab.py:599 | splitting never yields an empty list and no part holds the separator |
| Common.SplitJoin | mcpower_gui/tabs/model_tab.py:481 | splitting and joining with the same separator gives the text back |
| Common.JoinSplit | mcpower_gui/tabs/model_tab.py:481 | joining separator-free parts and splitting again gives the parts back |
| Common.StripSpec | mcpower_gui/widgets/formula_input.py:113 | a stripped text starts and ends with no white space, and is empty exactly when the text is all white space |
| Common.StripIdempotent | mcpower_gui/widgets/formula_input.py:126 | stripping twice is stripping once |
| Common.Dedup | mcpower_gui/widgets/formula_input.py:134-135 | the result holds every element of the input, only those, each once, and is no longer |
| Common.DedupDistinct | mcpower_gui/widgets/formula_input.py:134-135 | a list without repetitions is kept as it is |
| Common.Combinations | mcpower_gui/widgets/formula_input.py:41 | every combination has r elements |
| Common.CombinationsCount | mcpower_gui/widgets/formula_input.py:41 | there are binomial(n, r) combinations |
| Sorting.Sort | mcpower_gui/widgets/tip_engine.py:61 | the sort is a permutation of its input |
| Sorting.SortSorted | mcpower_gui/widgets/tip_engine.py:61 | under a total preorder the result is in order |
| Sorting.SortStable | mcpower_gui/widgets/tip_engine.py:61 | elements with equal keys keep their relative order |
| Sorting.SortStrings | mcpower_gui/tabs/model_tab.py:359 | a permutation of the strings in ascending code-point order |
| Sorting.SortStringsDistinct | mcpower_gui/widgets/post_hoc_selector.py:68 | sorting distinct names gives distinct names with the same members |
| State.ClauseTextShape | mcpower_gui/state.py:64-77 | every clause of a typed variable is its name, `=(`, a description and `)` |
| State.BuildVariableTypeString | mcpower_gui/state.py:57-78 | the loop's result is the typed clauses in map order joined by ", " |
| State.TypeClausesFiltered | mcpower_gui/state.py:63-77 | exactly one clause per non-continuous entry, in map order, each rendered from its own entry |
| State.ContinuousOnlyIsEmpty | mcpower_gui/state.py:65-66 | a map of only continuous variables gives the empty string |
| State.ExampleBinary | mcpower_gui/state.py:67-69 | a binary variable with proportion 0.3 renders as `x1=(binary, 0.3)` |
| State.ExampleFactorProportions | mcpower_gui/state.py:70-74 | a factor with proportions renders them comma-separated after `factor` |
| State.ExampleFactorLevels | mcpower_gui/state.py:75-77 | a factor without proportions renders its level count |
| State.ExampleMixed | mcpower_gui/state.py:57-78 | a mixed map drops the continuous entry and keeps the others' order |
| State.TypeClausesSnoc | mcpower_gui/state.py:63-77 | one more entry adds its clause at the end, or nothing when continuous |
| State.BuildCorrelationsString | mcpower_gui/state.py:81-91 | the result is the `corr(a, b)=v` clauses joined by ", ", or the failure of the first key that does not split in two |
| State.NoneExtends | mcpower_gui/state.py:88-90 | once one key fails to split, the whole build fails |
| State.CorrClauseOfKey | mcpower_gui/state.py:89-90 | a key built from two comma-free names renders as `corr(lo, hi)=v`, smaller name first |
| State.CorrClausesSucceed | mcpower_gui/state.py:87-91 | when every key splits in two, there is one clause per entry, each from its own entry |
| State.CorrClausesRaise | mcpower_gui/state.py:89 | a key with no comma or more than one makes the build fail |
| State.ExampleCorrelation | mcpower_gui/state.py:81-91 | `{"x1,x2": 0.3}` renders as `corr(x1, x2)=0.3` |
| State.ScenarioDefaultsEscalate | mcpower_gui/state.py:12-54 | the default scenarios are keyed optimistic, realistic, doomer, in that order, each no milder than the one before |
| State.HarsherConfig | mcpower_gui/state.py:14-54 | a scenario with no smaller perturbation and no more degrees of freedom is harsher |
| State.DefaultCores | mcpower_gui/state.py:143 | the default core count is at least 1, half the processor count rounded down, and 2 when the count is unknown or 0 |
| State.Columns | mcpower_gui/state.py:167 | the snapshot's column list is empty without data, otherwise the data's column names in order |
| State.DefaultState | mcpower_gui/state.py:94-146 | the defaults describe an empty linear model with no data and valid alpha, power, simulation and core settings, whose scenarios come in the fixed order |
| State.Snapshot | mcpower_gui/state.py:152-180 | corrected (see Findings row 1): of the uploaded data only the column names are kept (none without data); the formula, predictors, effects, types, correlations, cluster and scenario configurations are carried over as they are |
| State.SnapshotAsWritten | mcpower_gui/state.py:152-180 | as written, the snapshot exists exactly when no data frame is held |
| State.SnapshotOmitsData | mcpower_gui/state.py:152-180 | the snapshot keeps only the column names: states that differ only in data cells and file path have equal snapshots |
| State.SnapshotWithDataRaises | mcpower_gui/state.py:167 | with data uploaded, the snapshot as written fails, while the intended snapshot lists the data's columns |
| Workers.DataTypes | mcpower_gui/worker.py:74-81 | the factor-reference dict never has more entries than the references |
| Workers.DataTypesMember | mcpower_gui/worker.py:77-81 | a factor is passed with its reference exactly when it has level labels and the reference is not the first of them |
| Workers.DataTypesArg | mcpower_gui/worker.py:87 | an empty reference dict is passed as none, a non-empty one as itself |
| Workers.FilteredTypes | mcpower_gui/worker.py:95-103 | without data the variable types pass through unchanged |
| Workers.FilteredTypesMember | mcpower_gui/worker.py:95-101 | with data, a type entry survives exactly when it is not about a data column |
| Workers.EffectClauses | mcpower_gui/worker.py:109-111 | one `name=value` clause per effect, in order, zero effects included |
| Workers.EffectsSpecEmpty | mcpower_gui/worker.py:109-113 | the effects string is empty exactly when there are no effects |
| Workers.ClusterKwargs | mcpower_gui/worker.py:117-127 | the cluster call carries the ICC and the optional counts as given, and slopes exactly when the configuration has non-empty slopes, with variance and correlation defaulting to 0 |
| Workers.ClusterCalls | mcpower_gui/worker.py:116-128 | one cluster call per configuration, in order, each for its grouping variable |
| Workers.UploadPart | mcpower_gui/worker.py:72-88 | with data there is exactly one upload call carrying the data, the correlation mode and the reference dict; without data none |
| Workers.TypePart | mcpower_gui/worker.py:104-106 | the variable-type call is made exactly when the type string is non-empty, and carries it |
| Workers.EffectPart | mcpower_gui/worker.py:108-113 | the effects call is made exactly when there are effects, and carries their string |
| Workers.CorrCalls | mcpower_gui/worker.py:140-141 | building the correlation call can fail only when there are correlations |
| Workers.CorrectionArg | mcpower_gui/worker.py:145 | the correction passed is never empty, and is the given one when that is non-empty |
| Workers.TestFormulaArg | mcpower_gui/worker.py:149-158 | the test formula passed is never empty, and is the given one when that is non-empty |
| Workers.FindCall | mcpower_gui/worker.py:144-178 | a power run calls the power search and any other mode the size search, with a short summary, the target test defaulting to "all", the scenarios flag, correction and test formula as passed |
| Workers.FindCallDefaults | mcpower_gui/worker.py:146-168 | with no run parameters, the searches use sample size 100, or 30 to 200 by 10, and target test "all" |
| Workers.Run | mcpower_gui/worker.py:58-188 | the run either fails at the correlation string, having made the setup calls only, or makes the setup calls, the correlation call, apply and the search, in that order |
| Workers.AddClusterCalls | mcpower_gui/worker.py:116-128 | the loop appends exactly the cluster calls of the configurations |
| Workers.SetupOrder | mcpower_gui/worker.py:69-88 | the engine is created first and, with data, the upload comes right after it, before any type is set |
| Workers.TypesSkipDataColumns | mcpower_gui/worker.py:90-104 | with data, no type is set for a data column |
| Workers.RunEnds | mcpower_gui/worker.py:140-178 | correlations are set once when there are some and never otherwise, and a completed run ends with apply and the search |
| CorrelationEditors.CorrKey | mcpower_gui/widgets/correlation_editor.py:12-14 | the key is the two names joined by a comma, the smaller name (in code-point order) first |
| CorrelationEditors.CorrKeySymmetric | mcpower_gui/widgets/correlation_editor.py:12-14 | the key does not depend on the order of the two names |
| CorrelationEditors.CorrKeyParts | mcpower_gui/widgets/correlation_editor.py:12-14 | for comma-free names, splitting the key at the comma gives back the sorted pair |
| CorrelationEditors.CorrKeyInjective | mcpower_gui/widgets/correlation_editor.py:12-14 | for comma-free names, two pairs with equal keys are the same unordered pair |
| CorrelationEditors.RowKeysAt | mcpower_gui/widgets/correlation_editor.py:75-76 | cell `c` of a row is keyed by the row's variable and the variable of column `c` |
| CorrelationEditors.TriangleKeysSound | mcpower_gui/widgets/correlation_editor.py:66-76 | every key of the grid is the key of a pair of variables, the row one later in the list than the column one |
| CorrelationEditors.TriangleKeysComplete | mcpower_gui/widgets/correlation_editor.py:66-76 | every pair of distinct positions in the variable list has its cell |
| CorrelationEditors.TriangleKeysDistinct | mcpower_gui/widgets/correlation_editor.py:66-84 | for distinct comma-free names the grid holds no key twice and holds exactly n(n-1)/2 cells |
| CorrelationEditors.BuildValid | mcpower_gui/widgets/correlation_editor.py:75-84 | building the cell dict keeps each key once, in first-occurrence order, each cell holding the previous value of its key (0.0 when none), in range and enabled |
| CorrelationEditors.RebuildKeepsValues | mcpower_gui/widgets/correlation_editor.py:40-82 | a pair that survives a rebuild gets back its previous nonzero value |
| CorrelationEditors.NonZeroExactly | mcpower_gui/widgets/correlation_editor.py:94-100 | `get_correlations` maps a key to v exactly when a cell with that key holds the nonzero value v |
| CorrelationEditors.NonZeroKeys | mcpower_gui/widgets/correlation_editor.py:94-100 | a key without a cell is absent from `get_correlations` |
| CorrelationEditors.SetCorrelationsValues | mcpower_gui/widgets/correlation_editor.py:87-92 | after `set_correlations` each cell keeps its key and holds the dict's value for it, 0.0 when the key is missing |
| CorrelationEditors.LockedKeysEditable | mcpower_gui/widgets/correlation_editor.py:111-114 | after `set_locked_keys(L)` a cell is enabled exactly when its key is not in L, and its value is unchanged |
| CorrelationEditors.BuildGrid | mcpower_gui/widgets/correlation_editor.py:56-85 | the nested loops produce exactly the cell dict built from the triangle of keys |
| CorrelationEditors.BuildRow | mcpower_gui/widgets/correlation_editor.py:75-85 | the inner loop extends the cells by exactly the row's keys, left to right |
| CorrelationEditors.CorrelationEditor.constructor | mcpower_gui/widgets/correlation_editor.py:25-36 | a new editor has no variables and no cells |
| CorrelationEditors.CorrelationEditor.SetVariables | mcpower_gui/widgets/correlation_editor.py:38-85 | the variables become the new list and the cells are rebuilt from its triangle of keys, seeded with the previous nonzero values; fewer than two variables leave no cells |
| CorrelationEditors.CorrelationEditor.SetCorrelations | mcpower_gui/widgets/correlation_editor.py:87-92 | the cells take the dict's values (0.0 when missing), variables unchanged |
| CorrelationEditors.CorrelationEditor.SetEnabled | mcpower_gui/widgets/correlation_editor.py:106-109 | every cell takes the same enabled flag, values unchanged |
| CorrelationEditors.CorrelationEditor.SetLockedKeys | mcpower_gui/widgets/correlation_editor.py:111-114 | each cell is enabled exactly when its key is not locked |
| ModelTabs.CorrelableVariables | mcpower_gui/tabs/model_tab.py:551-561 | a name is correlable exactly when it is a predictor, not an interaction, and typed continuous or binary (continuous when untyped) |
| ModelTabs.DataBacked | mcpower_gui/tabs/model_tab.py:563-569 | without data no variable is data-backed; with data a name is data-backed exactly when it is correlable and a column of the data |
| ModelTabs.OverlayLookup | mcpower_gui/tabs/model_tab.py:594-595 | in the merged map a key reads the user's value when there is one, else the data value |
| ModelTabs.KeepWhereLookup | mcpower_gui/tabs/model_tab.py:631-647 | filling a cleared dict with the accepted entries keeps exactly the accepted entries, with their values |
| ModelTabs.TouchesCorrKey | mcpower_gui/tabs/model_tab.py:599-600 | a grid key touches a set of variables exactly when one of its two names is in the set |
| ModelTabs.LockedKeys | mcpower_gui/tabs/model_tab.py:597-601 | the loop collects exactly the grid keys that touch a data-backed variable, and nothing else |
| ModelTabs.Reconciled | mcpower_gui/tabs/model_tab.py:586-613 | redrawing the grid for any mode keeps its keys in their order |
| ModelTabs.StrictWithoutData | mcpower_gui/tabs/model_tab.py:603-605 | strict mode without data-backed variables disables every cell and leaves no correlations |
| ModelTabs.StrictWithData | mcpower_gui/tabs/model_tab.py:590-602 | strict mode with data locks a cell exactly when its pair touches a data-backed variable, and shows the user's value when there is one, else the data's, clamped to the cell's range |
| ModelTabs.PartialShowsOverlay | mcpower_gui/tabs/model_tab.py:606-610 | partial mode enables every cell and shows the user's value when there is one, else the data's |
| ModelTabs.NoModeShowsUser | mcpower_gui/tabs/model_tab.py:611-613 | "no" mode enables every cell and shows only the user's values, 0.0 elsewhere |
| ModelTabs.PartialKeepsDiffs | mcpower_gui/tabs/model_tab.py:629-635 | in partial mode an edited value is stored exactly when it differs from the data value (0.0 without one) |
| ModelTabs.StrictKeepsOffData | mcpower_gui/tabs/model_tab.py:636-645 | in strict mode an edited value is stored exactly when it is nonzero and its pair touches no data-backed variable |
| ModelTabs.CapturedOnlyEdited | mcpower_gui/tabs/model_tab.py:626-647 | in every mode a key the edited map lacks is never stored |
| ModelTabs.KeepEntries | mcpower_gui/tabs/model_tab.py:631-645 | the loop that refills the cleared user map stores exactly the accepted entries |
| ModelTabs.PairCorrsKeys | mcpower_gui/tabs/model_tab.py:660-664 | the pairs the nested loops visit have exactly the grid's keys, in grid order |
| ModelTabs.PairCorrsComplete | mcpower_gui/tabs/model_tab.py:660-665 | every pair of columns i > j is visited with its coefficient |
| ModelTabs.DataCorrelationsLookup | mcpower_gui/tabs/model_tab.py:651-666 | for distinct comma-free columns the data map holds each pair's coefficient exactly when it is nonzero |
| ModelTabs.DataCorrelationsKeys | mcpower_gui/tabs/model_tab.py:651-666 | every key of the data map is a grid key with a nonzero value |
| ModelTabs.DataColumns | mcpower_gui/tabs/model_tab.py:654 | a column is used exactly when it is correlable and present in the data |
| ModelTabs.DataCorrRow | mcpower_gui/tabs/model_tab.py:660-666 | one pass of the outer loop adds exactly the nonzero pairs of row i |
| ModelTabs.DataCorrCell | mcpower_gui/tabs/model_tab.py:661-666 | one pass of the inner loop stores the pair of row i and column j exactly when it is nonzero |
| ModelTabs.ShowMode | mcpower_gui/tabs/model_tab.py:587-613 | the editor calls leave the grid in the reconciled state for the mode, variables unchanged |
| ModelTabs.ModelTab.constructor | mcpower_gui/tabs/model_tab.py:43-47 | a new tab starts with empty data and user correlation maps in partial mode |
| ModelTabs.ModelTab.ApplyCorrMode | mcpower_gui/tabs/model_tab.py:586-616 | the grid is reconciled for the current mode, and the shared state records the mode and exactly the grid's nonzero correlations |
| ModelTabs.ModelTab.OnCorrModeChanged | mcpower_gui/tabs/model_tab.py:618-624 | switching to partial discards the user's edits, other modes keep them, then the grid is reconciled for the new mode |
| ModelTabs.ModelTab.OnCorrelationsChanged | mcpower_gui/tabs/model_tab.py:626-649 | on a grid whose payload is its nonzero cells, the user map becomes the edits captured for the current mode, the state holds the edited correlations, and the tab stays valid |
| ModelTabs.ModelTab.ComputeDataCorrelations | mcpower_gui/tabs/model_tab.py:651-666 | the data map becomes the nonzero coefficients of the correlable data columns; nothing else changes |
| ModelTabs.DetectedFactors | mcpower_gui/tabs/model_tab.py:375-398 | the factors detected in the data are ones the ANOVA editor can take: each has 2 to 12 levels and one proportion per level |
| ModelTabs.EmittedReady | mcpower_gui/widgets/anova_factor_editor.py:322-335 | the ANOVA editor emits a non-empty formula and predictors exactly when it has named factors |
| ModelTabs.ParseStripped | mcpower_gui/widgets/formula_input.py:172-173 | parsing the stripped text of the formula line gives the same result as parsing the text itself |
| ModelTabs.ParsedReady | mcpower_gui/tabs/model_tab.py:688-690 | after a switch to linear the tab is ready exactly when the stripped formula text is non-blank, parses, and has predictors |
| ModelTabs.Reparse | mcpower_gui/widgets/formula_input.py:166-173 | `set_formula(text())` leaves the line holding the stripped text, stops the pending parse, and emits what parsing the text gives |
| ModelTabs.ModelTab.OnModelTypeChanged | mcpower_gui/tabs/model_tab.py:242-279 | for ANOVA the model fields are cleared and the state then holds what the factor editor emits, with the effects rebuilt for the expanded predictors and shown by the effects editor: with data and no detected factors the editor is untouched, the state stays cleared and the tab is not ready; with detected factors the editor takes them in data mode; without data it re-emits; the tab is then ready exactly when there are named factors, and the grid, the data and user correlation maps and the correlation mode are kept. For linear the editor leaves data mode with its data rows cleared; the model type and the re-parsed formula, dependent variable and predictors are set, the ANOVA factors and interactions dropped, and every other field keeps its value except the effects, the variable types and the correlation fields, which the handlers the re-parse sets off may rewrite; the formula text is stripped and the tab is ready exactly when that text is non-blank, parses and has predictors; the user correlation map and the mode are kept |
| ModelTabs.ModelTab.SwitchToAnova | mcpower_gui/tabs/model_tab.py:253-261 | the ANOVA half of the switch: the data-detected factors go to the editor when there are any, or the editor re-emits without data; the state takes its emission with the effects rebuilt for the expanded predictors, the effects editor shows them, and the grid and the correlation maps are kept |
| ModelTabs.ModelTab.SwitchToLinear | mcpower_gui/tabs/model_tab.py:262-275 | the linear half of the switch: the editor leaves data mode, the ANOVA factors and interactions are dropped, and the state takes the model type and the re-parsed formula, dependent variable and predictors; besides those only the effects, the variable types and the correlation fields may change, and the grid, the user correlation map and the mode are kept |
| ModelTabs.ModelTab.OnAnovaFormulaChanged | mcpower_gui/tabs/model_tab.py:281-299 | the state takes the editor's formula, dependent variable and predictors, its types, factor definitions, interactions, reference levels and level labels, and the effects rebuilt for the expanded predictors, which the effects editor shows; the grid and correlation maps are kept; the tab is ready exactly when the editor has named factors |
| ModelTabs.ModelTab.OnAnovaTypesChanged | mcpower_gui/tabs/model_tab.py:301-304 | the given types are stored, every other field is kept, and the effects are rebuilt for the predictors expanded under those types, which the effects editor shows; the result is the expanded names |
| ModelTabs.ModelTab.OnAnovaEmitted | mcpower_gui/widgets/anova_factor_editor.py:336-337 | the editor's `formula_changed` and then `types_changed` leave the state as one rebuild would: the emitted fields with the effects rebuilt for them, shown by the effects editor; the tab is ready exactly when the editor has named factors |
| ModelTabs.RebuiltEffects | mcpower_gui/tabs/model_tab.py:535-547 | corrected (see Findings row 4): the rebuilt effects have one entry per distinct expanded predictor, in order, each within the spin range |
| ModelTabs.RebuiltEffectsLookup | mcpower_gui/tabs/model_tab.py:535-547 | an expanded predictor keeps its current effect (0.0 when it had none), pulled into range; any other name has no effect |
| ModelTabs.RebuiltEffectsIdempotent | mcpower_gui/tabs/model_tab.py:535-547 | rebuilding twice with nothing changed in between gives the same effects as rebuilding once |
| ModelTabs.ModelTab.RebuildEffects | mcpower_gui/tabs/model_tab.py:535-547 | corrected (see Findings row 4): the result is the names of the expanded predictors, the effects become the rebuilt effects and the effects editor shows exactly them, every other field is kept |
| ModelTabs.RebuildEffectsAsWritten | mcpower_gui/tabs/model_tab.py:543-546 | as written the rebuild yields effects only if four arguments fit the three parameters of `set_predictors`, and then they are the rebuilt effects |
| ModelTabs.RebuildEffectsAsWrittenRaises | mcpower_gui/tabs/model_tab.py:543-546 | as written the rebuild raises for every state, including the `mpg = origin` state of the factor naming tests |
| ModelTabs.OriginEffects | mcpower_gui/tabs/model_tab.py:535-547 | the corrected rebuild of the `mpg = origin` state with a three-level factor gives the effects origin[Japan] and origin[USA], each 0.0 |
| ModelTabs.ModelTab.Ready | mcpower_gui/tabs/model_tab.py:688-690 | ready exactly when the formula is non-empty and there is at least one predictor |
| ModelTabs.AvailableTests | mcpower_gui/tabs/model_tab.py:692-694 | the target tests are "overall" followed by the expanded terms in order |
| ModelTabs.AvailableFactors | mcpower_gui/tabs/model_tab.py:696-701 | the factor map fails exactly when some factor lacks a level count; otherwise every entry is a factor with its level count |
| PredictorExpansion.BasePredictors | mcpower_gui/tabs/model_tab.py:209-211 | the base predictors are predictors that are not interactions, and every non-interaction predictor is among them |
| PredictorExpansion.NumberedLevels | mcpower_gui/tabs/model_tab.py:502-526 | an unlabelled factor with n levels has n - 1 numbered dummy levels (none for n < 2) |
| PredictorExpansion.FactorPositions | mcpower_gui/tabs/model_tab.py:482-486 | the factor indices are exactly the positions of the factor components, ascending |
| PredictorExpansion.FindFactors | mcpower_gui/tabs/model_tab.py:482-486 | the loop collects exactly those factor positions |
| PredictorExpansion.EmitLabelDummies | mcpower_gui/tabs/model_tab.py:492-523 | the label loop appends the dummies of exactly the labels other than the first, in label order, and records each in the type map |
| PredictorExpansion.EmitNumberedDummies | mcpower_gui/tabs/model_tab.py:501-529 | the numbered loop appends the dummies of levels 2..n in order and records each in the type map |
| PredictorExpansion.EmitDummies | mcpower_gui/tabs/model_tab.py:489-508 | the dummies of one factor component are appended, by label when it has labels, numbered otherwise |
| PredictorExpansion.EmitDummy | mcpower_gui/tabs/model_tab.py:496-500 | one dummy replaces the factor component by `comp[level]` and is recorded as a factor |
| PredictorExpansion.EmitFactorDummies | mcpower_gui/tabs/model_tab.py:487-508 | the loop over the factor indices appends the dummies of every factor component in turn |
| PredictorExpansion.EmitFactorStep | mcpower_gui/tabs/model_tab.py:488-508 | one turn of that loop appends the dummies of the next factor component |
| PredictorExpansion.EmitInteraction | mcpower_gui/tabs/model_tab.py:480-512 | an interaction appends its per-factor dummies, or itself tagged continuous when it has no factor component |
| PredictorExpansion.EmitTerm | mcpower_gui/tabs/model_tab.py:479-532 | the loop body appends exactly the terms of one predictor |
| PredictorExpansion.ExpandPredictors | mcpower_gui/tabs/model_tab.py:463-533 | the expanded names and type map are those of the predictors' terms in order, a later duplicate name overwriting the type |
| PredictorExpansion.PassThrough | mcpower_gui/tabs/model_tab.py:513-532 | a non-interaction non-factor predictor is emitted once, unchanged, tagged with its type (continuous when untyped) |
| PredictorExpansion.MainEffectFactor | mcpower_gui/tabs/model_tab.py:515-529 | a main-effect factor yields `name[level]` for each dummy level, in order, all tagged factor |
| PredictorExpansion.WithoutRefMembers | mcpower_gui/tabs/model_tab.py:518-520 | the reference label never gets a dummy, every other label does, and the count drops by the reference's multiplicity |
| PredictorExpansion.LabelledFactorLevels | mcpower_gui/tabs/model_tab.py:516-523 | a labelled factor gets dummies for exactly its non-reference labels, n - 1 of them when the labels are distinct |
| PredictorExpansion.UnlabelledFactorLevels | mcpower_gui/tabs/model_tab.py:524-529 | an unlabelled factor (3 levels when the count is missing) gets levels 2..n, n - 1 dummies, never level 1 |
| PredictorExpansion.InteractionCount | mcpower_gui/tabs/model_tab.py:487-508 | an interaction yields the sum, not the product, of its factors' dummy counts |
| PredictorExpansion.InteractionWithoutFactor | mcpower_gui/tabs/model_tab.py:509-511 | an interaction with no factor component is emitted verbatim and tagged continuous |
| PredictorExpansion.DummyTermShape | mcpower_gui/tabs/model_tab.py:496-506 | split at ':', an interaction dummy is the component list with only the factor component replaced by `comp[level]` |
| PredictorExpansion.InteractionDummyOrigin | mcpower_gui/tabs/model_tab.py:487-508 | every interaction dummy comes from one factor component and one of its dummy levels |
| PredictorExpansion.TagMapKeys | mcpower_gui/tabs/model_tab.py:477-533 | every emitted name is a key of the type map |
| PredictorExpansion.ExampleLabelledFactor | mcpower_gui/tabs/model_tab.py:468-470 | `origin` labelled Europe, Japan, USA expands to origin[Japan], origin[USA] |
| PredictorExpansion.ExampleUnlabelledFactor | mcpower_gui/tabs/model_tab.py:470-471 | `group` with three unlabelled levels expands to group[2], group[3] |
| PredictorExpansion.OneFactor | mcpower_gui/tabs/model_tab.py:515-529 | a single factor predictor expands to its dummies |
| PredictorExpansion.ExpansionOne | mcpower_gui/tabs/model_tab.py:479-532 | a one-predictor list expands to that predictor's terms |
| TypeInfos.TypeName | mcpower_gui/tabs/model_tab.py:513-514 | the type name read from a type entry is always one of continuous, binary, factor |
| TypeDetection.ValueOrder | mcpower_gui/tabs/model_tab.py:349-360 | the value-ordered index has one entry per distinct value |
| TypeDetection.Proportions | mcpower_gui/tabs/model_tab.py:360-361 | there is one proportion per value in the order read |
| TypeDetection.DetectColumn | mcpower_gui/tabs/model_tab.py:345-373 | a column is binary exactly with 2 distinct values (with a proportion), a factor exactly with 3 to 6 (with that many levels), continuous otherwise, and records its distinct count |
| TypeDetection.DetectTypes | mcpower_gui/tabs/model_tab.py:336-373 | the loop over the columns builds exactly the per-column detections |
| TypeDetection.DetectedTypesLookup | mcpower_gui/tabs/model_tab.py:344-373 | the detections have an entry exactly for each column, holding that column's own classification |
| TypeDetection.CountSumCovers | mcpower_gui/tabs/model_tab.py:360-361 | the counts of distinct values covering a column add up to its length |
| TypeDetection.ValueOrderCovers | mcpower_gui/tabs/model_tab.py:349-360 | the value-ordered index lists each value of the column once, and only those |
| TypeDetection.AllProportionsSumToOne | mcpower_gui/tabs/model_tab.py:360-361 | normalised counts over all distinct values add up to one |
| TypeDetection.FactorProportionsSumToOne | mcpower_gui/tabs/model_tab.py:356-368 | a detected factor's proportions add up to one |
| TypeDetection.BinaryProportion | mcpower_gui/tabs/model_tab.py:347-355 | a detected binary's proportion is the share of its larger value: strictly between 0 and 1 and one minus the share of the other value |
| TypeDetection.FactorLabels | mcpower_gui/tabs/model_tab.py:358-367 | a detected factor's labels are its distinct values, each once, ascending as strings |
| TypeDetection.AnovaFactor | mcpower_gui/tabs/model_tab.py:383-398 | a column becomes an ANOVA factor exactly when it has 2 to 12 distinct values, with its name, that level count, one proportion per level and its sorted distinct values as labels |
| TypeDetection.DetectAnovaFactors | mcpower_gui/tabs/model_tab.py:375-399 | the loop yields exactly the factors of the kept columns, in column order |
| TypeDetection.AnovaFactorsSound | mcpower_gui/tabs/model_tab.py:379-398 | every ANOVA factor comes from a column other than the dependent variable, with that column's definition |
| TypeDetection.AnovaFactorSource | mcpower_gui/tabs/model_tab.py:379-398 | each ANOVA factor has a source column, not the dependent variable, whose definition it is |
| TypeDetection.AnovaFactorsLevels | mcpower_gui/tabs/model_tab.py:386-391 | every detected ANOVA factor has 2 to 12 levels and one proportion per level |
| TypeDetection.AnovaFactorsCount | mcpower_gui/tabs/model_tab.py:379-398 | there is one ANOVA factor per column that is not the dependent variable and has 2 to 12 distinct values |
| VariableTypeEditors.KindOf | mcpower_gui/widgets/variable_type_editor.py:117-118 | the combo shows continuous, binary or factor exactly for an info of that type |
| VariableTypeEditors.FactorProportions | mcpower_gui/widgets/variable_type_editor.py:214-240 | there is one proportion per level; the stored list is reused when its length matches the level count, the uniform share 1/n is used otherwise, and every value lies in the spin box range |
| VariableTypeEditors.RebuildParams | mcpower_gui/widgets/variable_type_editor.py:151-207 | rebuilding keeps the row's name, labels and data mode, takes the new type, and has a proportion spin box exactly for binary and a levels spin box exactly for factor |
| VariableTypeEditors.NewRow | mcpower_gui/widgets/variable_type_editor.py:87-119 | a new row has its predictor's name, the stored type (continuous when absent), the stored labels, and is not in data mode |
| VariableTypeEditors.GetInfo | mcpower_gui/widgets/variable_type_editor.py:269-281 | the reported info has the row's type |
| VariableTypeEditors.ChangeLevels | mcpower_gui/widgets/variable_type_editor.py:209-212 | a new level count gets exactly that many proportions |
| VariableTypeEditors.NewRowRoundTrip | mcpower_gui/widgets/variable_type_editor.py:87-119 | a row built from a stored info whose values are within the spin boxes' ranges reports that same info back (also lines 269-281 of the same file) |
| VariableTypeEditors.NewRowDefaults | mcpower_gui/widgets/variable_type_editor.py:173-227 | missing keys take the defaults: binary proportion 0.5, a factor with 3 levels and uniform proportions |
| VariableTypeEditors.ChangeKindDefaults | mcpower_gui/widgets/variable_type_editor.py:123-125 | whatever the row held, a type change starts over from the defaults for the new type, keeping the labels (also lines 173, 188 of the same file) |
| VariableTypeEditors.FactorRowShape | mcpower_gui/widgets/variable_type_editor.py:180-240 | a factor row has one proportion spin box per level it was built with, each inside its range, and the levels spin box agrees with that count when the count is in range |
| VariableTypeEditors.MarkDetected | mcpower_gui/widgets/variable_type_editor.py:66-72 | detection keeps one row per predictor |
| VariableTypeEditors.MarkDetectedRow | mcpower_gui/widgets/variable_type_editor.py:66-72 | after detection a row is in data mode exactly when its predictor was detected; it keeps its type and adopts the detected labels when there are any (also lines 127-140 of the same file) |
| VariableTypeEditors.RowsKeys | mcpower_gui/widgets/variable_type_editor.py:59-64 | there is one row per distinct predictor, in first-occurrence order |
| VariableTypeEditors.RowsLookup | mcpower_gui/widgets/variable_type_editor.py:59-63 | each listed predictor's row is built from its stored info, and no other row exists |
| VariableTypeEditors.RowsAreNamed | mcpower_gui/widgets/variable_type_editor.py:59-63 | every row is named after its key |
| VariableTypeEditors.TypesAfterSetPredictors | mcpower_gui/widgets/variable_type_editor.py:41-76 | after `set_predictors`, `get_types` has exactly the distinct names in order; a name with representable stored info reports it, a name without reports continuous, other names are absent |
| VariableTypeEditors.VariableTypeEditor.constructor | mcpower_gui/widgets/variable_type_editor.py:33-35 | a new editor has no rows |
| VariableTypeEditors.VariableTypeEditor.SetPredictors | mcpower_gui/widgets/variable_type_editor.py:41-64 | the rows become exactly the rows built for the predictors from the stored types |
| VariableTypeEditors.VariableTypeEditor.SetDataDetectedTypes | mcpower_gui/widgets/variable_type_editor.py:66-72 | the rows become the detection-marked rows |
| VariableTypeEditors.VariableTypeEditor.OnTypeChanged | mcpower_gui/widgets/variable_type_editor.py:123-125 | picking a different type rebuilds only the named row for that type from defaults; picking the type it already has changes nothing, as Qt emits no change then |
| VariableTypeEditors.VariableTypeEditor.OnLevelsChanged | mcpower_gui/widgets/variable_type_editor.py:209-212 | only the named row changes, with uniform proportions for the new level count |
| VariableTypeEditors.VariableTypeEditor.UpdateRow | mcpower_gui/widgets/variable_type_editor.py:61-63 | only the named row is replaced; the keys and their order are unchanged |
| VariableTypeEditors.VariableTypeEditor.GetTypes | mcpower_gui/widgets/variable_type_editor.py:74-76 | one entry per row under the row's name, in order, each reporting the row's type |
| AnovaFactorEditors.NewFactorRow | mcpower_gui/widgets/anova_factor_editor.py:346-396 | a new row shows its name, a level count pulled into 2..20, one proportion per requested level (matching the level count when that is in range), no labels, no selector, not locked (also lines 464-488 of the same file) |
| AnovaFactorEditors.NamedRows | mcpower_gui/widgets/anova_factor_editor.py:74-77 | only rows with a non-empty stripped name are kept |
| AnovaFactorEditors.FactorNames | mcpower_gui/widgets/anova_factor_editor.py:282-298 | the factor names are the non-empty stripped names, one per named row |
| AnovaFactorEditors.TypeItems | mcpower_gui/widgets/anova_factor_editor.py:74-88 | one type item per named row, keyed by its name |
| AnovaFactorEditors.FactorDefinitions | mcpower_gui/widgets/anova_factor_editor.py:91-105 | one definition per named row |
| AnovaFactorEditors.TypesOfKeys | mcpower_gui/widgets/anova_factor_editor.py:71-89 | `get_types` has one entry per distinct factor name, in first-occurrence order |
| AnovaFactorEditors.TypesOfDistinct | mcpower_gui/widgets/anova_factor_editor.py:71-89 | with distinct names each name reports its own row's info |
| AnovaFactorEditors.TypesOfFactors | mcpower_gui/widgets/anova_factor_editor.py:80-84 | every reported type is a factor with a level count in 2..20 |
| AnovaFactorEditors.RowTerms | mcpower_gui/widgets/anova_factor_editor.py:286-287 | the terms of one name pair it with each later name, in order |
| AnovaFactorEditors.PairTermsCount | mcpower_gui/widgets/anova_factor_editor.py:282-291 | n names give n(n-1)/2 candidate interactions, none for fewer than two |
| AnovaFactorEditors.PairTermsSound | mcpower_gui/widgets/anova_factor_editor.py:286-287 | every candidate joins an earlier name to a later one |
| AnovaFactorEditors.PairTermsComplete | mcpower_gui/widgets/anova_factor_editor.py:286-287 | every pair of an earlier and a later name is a candidate |
| AnovaFactorEditors.PairTermsLoop | mcpower_gui/widgets/anova_factor_editor.py:282-291 | the nested loop produces exactly the candidate pairs in `combinations` order |
| AnovaFactorEditors.PairTermsIndex | mcpower_gui/widgets/anova_factor_editor.py:286-287 | each pair of an earlier and a later name has a position among the candidates holding its term |
| AnovaFactorEditors.RowLoop | mcpower_gui/widgets/anova_factor_editor.py:286-290 | the pairs of one name with every later name are appended after the terms already built, in `combinations` order |
| AnovaFactorEditors.Boxes | mcpower_gui/widgets/anova_factor_editor.py:286-291 | the check boxes are exactly the candidate terms |
| AnovaFactorEditors.CheckedTerms | mcpower_gui/widgets/anova_factor_editor.py:141-145 | the checked terms are exactly the terms of checked boxes |
| AnovaFactorEditors.BoxesFor | mcpower_gui/widgets/anova_factor_editor.py:309-311 | each rebuilt box is checked exactly when its term is to be kept |
| AnovaFactorEditors.RebuildBoxes | mcpower_gui/widgets/anova_factor_editor.py:303-311 | rebuilding gives the candidate boxes of the names, checked exactly for the terms checked before |
| AnovaFactorEditors.RebuildKeepsChecked | mcpower_gui/widgets/anova_factor_editor.py:301-313 | after a rebuild a term is checked exactly when it is a candidate of the new names and was checked before |
| AnovaFactorEditors.CheckedAreCandidates | mcpower_gui/widgets/anova_factor_editor.py:141-145 | every checked interaction is a candidate pair |
| AnovaFactorEditors.ChangeBoxes | mcpower_gui/widgets/anova_factor_editor.py:300-313 | the box step of `_on_changed`: rebuild only when interactions are on and the names changed |
| AnovaFactorEditors.ChangedCoherent | mcpower_gui/widgets/anova_factor_editor.py:293-319 | with interactions on, the boxes after `_on_changed` are the candidates of the current names |
| AnovaFactorEditors.ChangedInteractions | mcpower_gui/widgets/anova_factor_editor.py:293-322 | after `_on_changed` every reported interaction is a candidate of the current names |
| AnovaFactorEditors.ToggledBoxes | mcpower_gui/widgets/anova_factor_editor.py:265-271 | turning interactions on always rebuilds the boxes as the unchecked candidates of the current names |
| AnovaFactorEditors.StaleInteractionAsWritten | mcpower_gui/widgets/anova_factor_editor.py:265-271 | with one named row left, turning interactions back on keeps a stale checked "B:C", which is then emitted |
| AnovaFactorEditors.ToggledBoxesAsWritten | mcpower_gui/widgets/anova_factor_editor.py:265-271 | as written, turning interactions on with at least two rows gives unchecked boxes for exactly the pairs of current names; in every other case the old boxes stay |
| AnovaFactorEditors.EmissionFor | mcpower_gui/widgets/anova_factor_editor.py:321-337 | the dependent variable is y; with no names everything emitted is empty; otherwise the predictors are the names followed by the interactions, with the types |
| AnovaFactorEditors.AutoNameInjective | mcpower_gui/widgets/anova_factor_editor.py:229-235 | distinct counters give distinct `factor{k}` names |
| AnovaFactorEditors.TriedStep | mcpower_gui/widgets/anova_factor_editor.py:233-235 | each name tried is new |
| AnovaFactorEditors.FreshAutoName | mcpower_gui/widgets/anova_factor_editor.py:229-235 | the search yields the first `factor{k}` from the start counter that is not among the existing names |
| AnovaFactorEditors.RestoredRows | mcpower_gui/widgets/anova_factor_editor.py:159-166 | one row per saved definition |
| AnovaFactorEditors.RestoredRowsOk | mcpower_gui/widgets/anova_factor_editor.py:159-166 | restored rows are well formed and none is locked |
| AnovaFactorEditors.DataRows | mcpower_gui/widgets/anova_factor_editor.py:186-195 | one locked row per detected factor |
| AnovaFactorEditors.DataRowsOk | mcpower_gui/widgets/anova_factor_editor.py:186-195 | rows made from data columns are well formed, and with at least one factor the editor is in data mode |
| AnovaFactorEditors.DataRowReference | mcpower_gui/widgets/anova_factor_editor.py:398-429 | a data row with labels is locked and starts with its first label as reference |
| AnovaFactorEditors.RestoredInteractions | mcpower_gui/widgets/anova_factor_editor.py:169-174 | restoring checks exactly the saved terms that are candidates of the restored factors |
| AnovaFactorEditors.RowSetLevels | mcpower_gui/widgets/anova_factor_editor.py:460-462 | a new level count gives that many uniform proportions; nothing else in the row changes |
| AnovaFactorEditors.RowSetProportion | mcpower_gui/widgets/anova_factor_editor.py:479-499 | a proportion edit changes only that spin box, pulled into its range |
| AnovaFactorEditors.RowSetReference | mcpower_gui/widgets/anova_factor_editor.py:427-431 | a reference choice is one of the labels and changes only the selector |
| AnovaFactorEditors.RowEditsOk | mcpower_gui/widgets/anova_factor_editor.py:366-369 | every edit a user can make keeps the row well formed (also lines 421-431, 460-462 of the same file) |
| AnovaFactorEditors.ClearedRows | mcpower_gui/widgets/anova_factor_editor.py:206-207 | unlocking maps every row through its own `clear_data_mode` |
| AnovaFactorEditors.ClearedRowsOk | mcpower_gui/widgets/anova_factor_editor.py:201-207 | unlocking keeps the rows well formed and leaves no locked row (also lines 410-419 of the same file) |
| AnovaFactorEditors.FreshBoxes | mcpower_gui/widgets/anova_factor_editor.py:273-291 | a rebuild leaves the candidate boxes, none checked |
| AnovaFactorEditors.SetCheckedKeys | mcpower_gui/widgets/anova_factor_editor.py:173-174 | checking or unchecking a box keeps the terms |
| AnovaFactorEditors.RestoreBoxes | mcpower_gui/widgets/anova_factor_editor.py:169-174 | restoring rebuilds the boxes and checks exactly the saved terms |
| AnovaFactorEditors.SavedSet | mcpower_gui/widgets/anova_factor_editor.py:172 | a term is in the saved set exactly when it was saved |
| AnovaFactorEditors.RestoreChanged | mcpower_gui/widgets/anova_factor_editor.py:179 | the `_on_changed` after a restore keeps the restored boxes (also lines 300-313 of the same file) |
| AnovaFactorEditors.RebuildSame | mcpower_gui/widgets/anova_factor_editor.py:300-313 | rebuilding for unchanged names changes nothing |
| AnovaFactorEditors.RowNames | mcpower_gui/widgets/anova_factor_editor.py:232 | every row's name, empty ones included, is among the existing names |
| AnovaFactorEditors.LoadFactors | mcpower_gui/widgets/anova_factor_editor.py:155-178 | new rows, none locked; with saved interactions the check box is on and exactly the saved terms are checked, otherwise it is off and the boxes stay |
| AnovaFactorEditors.Change | mcpower_gui/widgets/anova_factor_editor.py:293-337 | the new boxes, the remembered names and the emission of `_on_changed` |
| AnovaFactorEditors.AnovaFactorEditor.constructor | mcpower_gui/widgets/anova_factor_editor.py:34-40 | a new editor has no rows, no boxes, interactions off and no data mode |
| AnovaFactorEditors.AnovaFactorEditor.OnChanged | mcpower_gui/widgets/anova_factor_editor.py:293-337 | rows and flags are kept, the boxes follow the names, and the emission is the current state's |
| AnovaFactorEditors.AnovaFactorEditor.AddFactor | mcpower_gui/widgets/anova_factor_editor.py:227-239 | a row named with the first unused `factor{k}` (k from the row count + 1) and 2 levels is appended |
| AnovaFactorEditors.AnovaFactorEditor.EditRow | mcpower_gui/widgets/anova_factor_editor.py:366-369 | a row edit replaces only that row, then `_on_changed` runs (also lines 460-462 of the same file) |
| AnovaFactorEditors.AnovaFactorEditor.ToggleTerm | mcpower_gui/widgets/anova_factor_editor.py:289 | checking one box changes only it, then `_on_changed` runs |
| AnovaFactorEditors.AnovaFactorEditor.OnInteractionsToggled | mcpower_gui/widgets/anova_factor_editor.py:265-271 | corrected (see Findings row 2): turning interactions on rebuilds the boxes, all unchecked, for the current names whatever the number of rows; turning them off keeps the boxes; then `_on_changed` runs and its emission is returned |
| AnovaFactorEditors.AnovaFactorEditor.RemoveFactor | mcpower_gui/widgets/anova_factor_editor.py:249-257 | a row in the editor is removed and data mode ends when no locked row is left; any other row is ignored and nothing is emitted |
| AnovaFactorEditors.AnovaFactorEditor.AddDataFactor | mcpower_gui/widgets/anova_factor_editor.py:127-139 | a locked row from the column is appended and data mode is on |
| AnovaFactorEditors.AnovaFactorEditor.SetFactors | mcpower_gui/widgets/anova_factor_editor.py:153-179 | the rows are the restored ones, the interactions restored as saved, data mode kept |
| AnovaFactorEditors.AnovaFactorEditor.SetDataFactors | mcpower_gui/widgets/anova_factor_editor.py:181-199 | the rows are the locked data rows and data mode is on |
| AnovaFactorEditors.AnovaFactorEditor.ClearDataMode | mcpower_gui/widgets/anova_factor_editor.py:201-207 | in data mode every row is unlocked and data mode ends; otherwise nothing changes |
| AnovaFactorEditors.AnovaFactorEditor.ClearFactors | mcpower_gui/widgets/anova_factor_editor.py:213-263 | every row is removed; nothing else changes |
| AnovaFactorEditors.AnovaFactorEditor.GetTypes | mcpower_gui/widgets/anova_factor_editor.py:71-89 | one entry per distinct name of a named row, in order; unnamed rows are skipped |
| AnovaFactorEditors.AnovaFactorEditor.GetInteractions | mcpower_gui/widgets/anova_factor_editor.py:141-145 | a term is returned exactly when interactions are turned on and its box is checked |
| Histories.OldestFirst | mcpower_gui/history_manager.py:126 | the files sorted by modification time: the same files, oldest first |
| Histories.CapSize | mcpower_gui/history_manager.py:124-128 | after the cap at most 25 files remain, and none is deleted while there are at most 25 |
| Histories.CapOldestFirst | mcpower_gui/history_manager.py:126-128 | every file the cap deletes was modified no later than every file it keeps |
| Histories.NewestSurvives | mcpower_gui/history_manager.py:124-128 | a file modified after all the others survives the cap |
| Histories.Cap | mcpower_gui/history_manager.py:124-128 | the unlink loop leaves exactly the files that are not among the oldest beyond 25 |
| Histories.Overwrite | mcpower_gui/history_manager.py:49-50 | writing a file of an existing name replaces that file and no other |
| Histories.Write | mcpower_gui/history_manager.py:49-50 | after a write the new file is present, other names keep their files, and a new name is listed last |
| Histories.WriteDistinct | mcpower_gui/history_manager.py:49-50 | a write keeps file names unique |
| Histories.Find | mcpower_gui/history_manager.py:92-93 | the file of a name is found exactly when the name is present |
| Histories.FindUnique | mcpower_gui/history_manager.py:92 | with unique names, looking up a file's name finds that file |
| Histories.LoadFrom | mcpower_gui/history_manager.py:90-98 | loading a missing name gives none, and a loaded record is the decoded content of that name's file |
| Histories.SaveThenLoad | mcpower_gui/history_manager.py:25-52 | a record just saved, whose file is the newest, loads back unchanged after the cap (also lines 90-98 of the same file) |
| Histories.RenamedFields | mcpower_gui/history_manager.py:115-119 | after renaming, the custom name is the given non-empty name or absent, and every other field is kept |
| Histories.Summarize | mcpower_gui/history_manager.py:62-86 | a record yields a summary exactly when it has an id, a timestamp and a mode; the snapshot and parameter fields are read from those objects, and a present non-object makes the listing raise (see NullSnapshotRaises) |
| Histories.SummariesMember | mcpower_gui/history_manager.py:56-86 | a summary is collected exactly when some file decodes to a record that yields it |
| Histories.NewerTextTotal | mcpower_gui/history_manager.py:87 | the newest-first comparison of string timestamps is a total preorder |
| Histories.NewerNumberTotal | mcpower_gui/history_manager.py:87 | the newest-first comparison of numeric timestamps is a total preorder |
| Histories.NullSnapshotRaises | mcpower_gui/history_manager.py:60-68 | a complete record whose `state_snapshot` is null makes `snap.get` raise an AttributeError the listing does not catch |
| Histories.MixedStampsRaise | mcpower_gui/history_manager.py:87 | two listed records whose timestamps are of different kinds (text, number, list, other) make the sort raise a TypeError |
| Histories.IncomparableStampRaises | mcpower_gui/history_manager.py:87 | with two summaries or more, a null or object timestamp makes the sort raise |
| Histories.OrderedSorted | mcpower_gui/history_manager.py:87 | when the sort does not raise, string timestamps come newest first by text and numeric ones newest first by value |
| Histories.Ordered | mcpower_gui/history_manager.py:87 | the sorted records are a permutation of the summaries |
| Histories.ListSpec | mcpower_gui/history_manager.py:54-88 | a listing that does not raise holds exactly the summaries of the readable files, in some order |
| Histories.ListRecordsOrder | mcpower_gui/history_manager.py:54-88 | a listing that does not raise is sorted newest first (by text for string timestamps, by value for numeric ones) and holds exactly the summaries of readable, complete files |
| Histories.ListFiles | mcpower_gui/history_manager.py:56-88 | the loop stops with no listing at the first record that raises, and otherwise collects the summaries and sorts them as the listing does |
| Histories.HistoryManager.constructor | mcpower_gui/history_manager.py:19-23 | opening a directory holds its existing files |
| Histories.HistoryManager.Load | mcpower_gui/history_manager.py:90-98 | loading a name that has no file gives none |
| Histories.HistoryManager.EnforceCap | mcpower_gui/history_manager.py:124-128 | the directory becomes the capped directory, names still unique |
| Histories.HistoryManager.Save | mcpower_gui/history_manager.py:25-52 | the new record, with the fresh id, timestamp, mode and payloads, is written and then the cap enforced, leaving at most 25 files; the id is returned |
| Histories.HistoryManager.Delete | mcpower_gui/history_manager.py:100-106 | the result is true exactly when the file existed; afterwards only that file is gone and it cannot be loaded |
| Histories.HistoryManager.UpdateCustomName | mcpower_gui/history_manager.py:108-122 | a missing or undecodable record is left alone; otherwise only that record changes, to its renamed form |
| Histories.HistoryManager.ListRecords | mcpower_gui/history_manager.py:54-88 | the records listed are the newest-first summaries of the directory, or none when a record or the sort raises |
| ResultsTables.SampleSizeText | mcpower_gui/widgets/results_table.py:96-123 | a sample-size cell shows the required N when one was reached (N ≥ 0), otherwise `> max_n` or "Not achieved" |
| ResultsTables.SampleSizeTextDigits | mcpower_gui/widgets/results_table.py:96-113 | a sample-size cell is all digits exactly when an N was reached, so the two kinds of cell cannot be confused |
| ResultsTables.PowerTable | mcpower_gui/widgets/results_table.py:29-79 | one row per effect in map order: name, power, "Yes" exactly when power reaches the target; with a non-empty corrected map, the corrected power and its verdict, or dashes for an effect it lacks |
| ResultsTables.PowerTableShape | mcpower_gui/widgets/results_table.py:40-57 | the table has 5 columns exactly when the corrected map is non-empty, else 3, and every row fills every column |
| ResultsTables.SampleSizeTable | mcpower_gui/widgets/results_table.py:81-128 | one row per effect in map order: name, its sample-size cell, the target; with a non-empty corrected map, the corrected sample-size cell |
| ResultsTables.SampleSizeTableShape | mcpower_gui/widgets/results_table.py:98-107 | the table has 4 columns exactly when the corrected map is non-empty, else 3, and every row fills every column |
| ResultsTables.FirstPresent | mcpower_gui/widgets/results_table.py:144-149 | the scenario found is present and non-empty, and every scenario before it in the order is absent or empty |
| ResultsTables.FindEffects | mcpower_gui/widgets/results_table.py:141-186 | the loop yields the effects of the first present scenario in the order optimistic, realistic, doomer, or none |
| ResultsTables.ScenarioEffectsFirst | mcpower_gui/widgets/results_table.py:144-149 | the rows come from the first present scenario whatever the later scenarios hold |
| ResultsTables.ScenarioTable | mcpower_gui/widgets/results_table.py:130-200 | one row per effect: the effect, then one cell per scenario in order, its power or a dash, or its sample-size cell |
| ResultsTables.ScenarioCells | mcpower_gui/widgets/results_table.py:153-159 | one row of a scenario table: the effect first, then for each scenario in order its power or a dash, or its sample-size cell |
| ResultsTables.ResultsTable.constructor | mcpower_gui/widgets/results_table.py:20-27 | a new table is empty |
| ResultsTables.ResultsTable.ShowPowerResults | mcpower_gui/widgets/results_table.py:29-79 | the table then shows the power table of the results |
| ResultsTables.ResultsTable.ShowSampleSizeResults | mcpower_gui/widgets/results_table.py:81-128 | the table then shows the sample-size table of the results |
| ResultsTables.ResultsTable.ShowScenarioPowerResults | mcpower_gui/widgets/results_table.py:130-163 | the table then shows the scenario power table |
| ResultsTables.ResultsTable.ShowScenarioSampleSizeResults | mcpower_gui/widgets/results_table.py:165-200 | the table then shows the scenario sample-size table |
| ResultsTabs.Prefix | mcpower_gui/tabs/results_tab.py:104-106 | the model part of a name is at most 30 characters; a shorter one is kept whole, a longer one keeps its first 27 characters followed by "..." |
| ResultsTabs.RawPrefixCases | mcpower_gui/tabs/results_tab.py:99-103 | an ANOVA run is named "ANOVA"; any other run by its formula, or "lm" without one |
| ResultsTabs.ModeSuffixCases | mcpower_gui/tabs/results_tab.py:108-114 | a power run's part starts "Power N=", a size search's "SS "; without parameters they read "Power N=?" and "SS ?→?" |
| ResultsTabs.DisplayName | mcpower_gui/tabs/results_tab.py:223-231 | under a minute the base name alone, under an hour the whole minutes ago, otherwise the whole hours ago |
| ResultsTabs.DisplayNameSuffix | mcpower_gui/tabs/results_tab.py:223-231 | the shown name always starts with the base name, the minute count is 1 to 59 and the hour count at least 1, and the base name is shown alone exactly under a minute |
| ResultsTabs.NewNameSpec | mcpower_gui/tabs/results_tab.py:183-187 | a new name is never blank and never starts or ends with white space; only a cancelled or all-blank input is refused |
| ResultsTabs.IdsWithout | mcpower_gui/tabs/results_tab.py:133-138 | removing a tab removes exactly its widget from the open widgets, which stay distinct |
| ResultsTabs.Refreshed | mcpower_gui/tabs/results_tab.py:214-231 | the loop keeps every tab's widget and gives each the name for its age |
| ResultsTabs.CloseOthersStep | mcpower_gui/tabs/results_tab.py:202-204 | one step of the downward loop keeps the tabs below the index and, above it, only the kept tab |
| ResultsTabs.ResultsTab.constructor | mcpower_gui/tabs/results_tab.py:29-73 | a new results tab has no tabs, shows the placeholder and has its timer stopped |
| ResultsTabs.ResultsTab.AddResult | mcpower_gui/tabs/results_tab.py:75-129 | a tab with a fresh widget and the built name is appended, and its time, base name and record id are recorded; the placeholder hides and the timer runs |
| ResultsTabs.ResultsTab.CloseTab | mcpower_gui/tabs/results_tab.py:131-143 | the tab at the index and its bookkeeping go, nothing else changes, and an index without a tab changes nothing; the placeholder shows and the timer stops when no tab is left |
| ResultsTabs.ResultsTab.CloseOthers | mcpower_gui/tabs/results_tab.py:196-204 | only the kept tab remains (none when the index has no tab), and the bookkeeping only loses entries |
| ResultsTabs.ResultsTab.CloseAll | mcpower_gui/tabs/results_tab.py:206-209 | no tab and no bookkeeping remain; the placeholder shows and the timer stops |
| ResultsTabs.ResultsTab.UpdateTabNames | mcpower_gui/tabs/results_tab.py:211-231 | the same tabs in the same order, each showing its base name with the suffix for its age, and the bookkeeping unchanged |
| ResultsTabs.ResultsTab.RenameTab | mcpower_gui/tabs/results_tab.py:175-194 | a cancelled or blank name or an index without a tab changes nothing; otherwise the stripped name becomes the tab's text and base name, and is sent to the history store when there is one and the tab has a record id |
| ResultsTabs.ResultsTab.SetTabName | mcpower_gui/tabs/results_tab.py:186-194 | the tab at the index keeps its widget and shows the new name, which also becomes its base name while every other tab and entry is unchanged and the tab bookkeeping stays consistent; the name is to be persisted exactly when a history store exists and the tab has a record id |
| ResultPanels.PartsRanks | mcpower_gui/widgets/result_panel.py:153-173 | for any settings, the parts come in the order label, model formula, test formula, sample size or range, scenarios, correction, with the optional ones present exactly when set |
| ResultPanels.HeaderOrder | mcpower_gui/widgets/result_panel.py:144-174 | the header parts come in that fixed order: the label and the sample size or range always, each other kind once exactly when set |
| ResultPanels.HeaderMode | mcpower_gui/widgets/result_panel.py:152-153 | there are at least two parts and the first is "Find Power" exactly for a power run, "Find Sample Size" otherwise |
| ResultPanels.ModelFormulaShown | mcpower_gui/widgets/result_panel.py:155-156 | the model formula part appears exactly when the formula is non-empty |
| ResultPanels.TestFormulaShown | mcpower_gui/widgets/result_panel.py:157-158 | the test formula part appears exactly when the test formula is set |
| ResultPanels.ScenariosShown | mcpower_gui/widgets/result_panel.py:169-170 | the scenarios part appears exactly when the flag is set |
| ResultPanels.CorrectionShown | mcpower_gui/widgets/result_panel.py:171-172 | the correction part appears exactly when a correction is set |
| ResultPanels.HeaderOptionalParts | mcpower_gui/widgets/result_panel.py:144-174 | for given parameters, the model formula, test formula, scenarios and correction parts each appear exactly when set |
| ResultPanels.HeaderRun | mcpower_gui/widgets/result_panel.py:160-168 | a power run shows its sample size, "?" when unknown; any other run shows its from, to and step |
| ResultPanels.HeaderText | mcpower_gui/widgets/result_panel.py:144-174 | the header joins the parts with a vertical-bar separator; it begins with the search label and goes on after it |
| EffectsEditors.PresetSize | mcpower_gui/widgets/effects_editor.py:15-19 | every preset is a positive size inside the spin range (also line 95 of the same file) |
| EffectsEditors.PresetsOrdered | mcpower_gui/widgets/effects_editor.py:15-19 | presets grow from small to large, binary and factor share the larger ones, and a type without its own presets gets the continuous ones (also line 95 of the same file) |
| EffectsEditors.SpinValue | mcpower_gui/widgets/effects_editor.py:80-83 | a spin box shows a value inside -2..2, and an in-range value unchanged |
| EffectsEditors.EffectItems | mcpower_gui/widgets/effects_editor.py:64-67 | one row per listed predictor, in order |
| EffectsEditors.EffectRowsKeys | mcpower_gui/widgets/effects_editor.py:62-108 | after a rebuild there is one row per distinct predictor, in order, and no stale row |
| EffectsEditors.EffectRowsLookup | mcpower_gui/widgets/effects_editor.py:64-108 | a predictor keeps its current value (0.0 when absent), pulled into range; a name that is not a predictor has no row |
| EffectsEditors.EffectRowsInRange | mcpower_gui/widgets/effects_editor.py:80-83 | every value shown after a rebuild lies in the spin range |
| EffectsEditors.EffectRowsIdempotent | mcpower_gui/widgets/effects_editor.py:62-108 | rebuilding the rows from rows just rebuilt for the same predictors changes nothing |
| EffectsEditors.Negated | mcpower_gui/widgets/effects_editor.py:132-134 | the sign toggle negates the value and stays in range |
| EffectsEditors.Sized | mcpower_gui/widgets/effects_editor.py:136-140 | a preset sets the preset's magnitude and keeps the current sign, zero counting as positive |
| EffectsEditors.SignLaws | mcpower_gui/widgets/effects_editor.py:132-140 | toggling twice restores the value; a preset after a toggle gives the opposite preset value; a preset twice is a preset once |
| EffectsEditors.Emitted | mcpower_gui/widgets/effects_editor.py:109-143 | the effect map is emitted exactly when a value actually changed, and then it is the new map |
| EffectsEditors.BuildRows | mcpower_gui/widgets/effects_editor.py:64-68 | the loop makes exactly the rows of the rebuild |
| EffectsEditors.PutInRange | mcpower_gui/widgets/effects_editor.py:80 | storing an in-range value keeps every value in range |
| EffectsEditors.EffectsEditor.constructor | mcpower_gui/widgets/effects_editor.py:36-39 | a new editor has no rows and no types |
| EffectsEditors.EffectsEditor.SetPredictors | mcpower_gui/widgets/effects_editor.py:47-68 | the rows are rebuilt for the predictors keeping the current values, and the types are replaced |
| EffectsEditors.EffectsEditor.ToggleSign | mcpower_gui/widgets/effects_editor.py:132-134 | only the named row changes, to the negated value, and the map is emitted when it changed |
| EffectsEditors.EffectsEditor.SetEffectSize | mcpower_gui/widgets/effects_editor.py:136-140 | only the named row changes, to the preset of its type with the current sign |
| EffectsEditors.EffectsEditor.EditValue | mcpower_gui/widgets/effects_editor.py:83-109 | only the named row changes, to the typed value pulled into range |
| EffectsEditors.EffectsEditor.GetEffects | mcpower_gui/widgets/effects_editor.py:145-146 | one effect per row, in row order, every value within the spin range |
| ClusterEditors.NewCard | mcpower_gui/widgets/cluster_editor.py:85-154 | a card for a random effect has a count per parent exactly when nested, a cluster count exactly when not, and slope spin boxes exactly for a random slope |
| ClusterEditors.ConfigShape | mcpower_gui/widgets/cluster_editor.py:156-178 | a config has exactly one of the two counts, the count per parent and the parent exactly for a nested effect, and the slope fields exactly for a random slope |
| ClusterEditors.CardDefaults | mcpower_gui/widgets/cluster_editor.py:110-149 | a card with nothing remembered shows ICC 0.2, 3 per parent or 20 clusters, slope variance 0.1 and slope correlation 0.0 |
| ClusterEditors.NewCardOk | mcpower_gui/widgets/cluster_editor.py:107-145 | every spin box of a new card holds a value inside its range |
| ClusterEditors.CardRoundTrip | mcpower_gui/widgets/cluster_editor.py:85-178 | a card rebuilt from its own config is the same card |
| ClusterEditors.NewCards | mcpower_gui/widgets/cluster_editor.py:54-59 | one card per random effect, built from what is remembered for its grouping variable |
| ClusterEditors.Configs | mcpower_gui/widgets/cluster_editor.py:63-65 | one config per card, in card order |
| ClusterEditors.RememberedLookup | mcpower_gui/widgets/cluster_editor.py:42-44 | after saving, the last card of a grouping variable is what is remembered for it |
| ClusterEditors.RebuildKeepsCards | mcpower_gui/widgets/cluster_editor.py:36-61 | rebuilding for the same random effects with distinct grouping variables keeps every card unchanged |
| ClusterEditors.EffectsOf | mcpower_gui/widgets/cluster_editor.py:86 | each card keeps its random effect |
| ClusterEditors.SaveConfigs | mcpower_gui/widgets/cluster_editor.py:42-44 | the saving loop remembers each card's config under its grouping variable |
| ClusterEditors.BuildCards | mcpower_gui/widgets/cluster_editor.py:54-59 | the building loop makes exactly the new cards |
| ClusterEditors.ClearForgets | mcpower_gui/widgets/cluster_editor.py:67-74 | after `clear`, rebuilding starts every card from the defaults |
| ClusterEditors.ClusterEditor.constructor | mcpower_gui/widgets/cluster_editor.py:27-30 | a new editor has no cards and remembers nothing |
| ClusterEditors.ClusterEditor.SetRandomEffects | mcpower_gui/widgets/cluster_editor.py:36-61 | every card's config is remembered, then one card per random effect is built from what is remembered, and the configs are emitted |
| ClusterEditors.ClusterEditor.Clear | mcpower_gui/widgets/cluster_editor.py:67-74 | every card is removed and every remembered config forgotten |
| ClusterEditors.ClusterEditor.SetIcc | mcpower_gui/widgets/cluster_editor.py:106-111 | only the card's ICC changes, pulled into 0..0.99; the configs are emitted when it changed |
| ClusterEditors.ClusterEditor.SetCount | mcpower_gui/widgets/cluster_editor.py:118-128 | only the card's count changes (per parent when nested), pulled into range; the configs are emitted when it changed |
| ClusterEditors.ClusterEditor.GetClusterConfigs | mcpower_gui/widgets/cluster_editor.py:63-65 | one configuration per card, in order, with the card's grouping variable and ICC |
| FormulaInputs.StripAll | mcpower_gui/widgets/formula_input.py:38 | each part is stripped, one result per part |
| FormulaInputs.StarParts | mcpower_gui/widgets/formula_input.py:38 | a `*` term has at least one part |
| FormulaInputs.Joined | mcpower_gui/widgets/formula_input.py:42 | each combination is written with ":" between its names |
| FormulaInputs.CombosFromCount | mcpower_gui/widgets/formula_input.py:40-42 | the combinations of sizes r up to k number the rest of the row of Pascal's triangle |
| FormulaInputs.StarTerms | mcpower_gui/widgets/formula_input.py:36-43 | the parts come first, in order, before any combination; a single part expands to itself |
| FormulaInputs.CombosFromSuffix | mcpower_gui/widgets/formula_input.py:40-42 | the combinations of sizes r up to k number the entries of row k of Pascal's triangle from column r on |
| FormulaInputs.StarTermsCount | mcpower_gui/widgets/formula_input.py:36-43 | a term of k parts expands into 2^k - 1 terms |
| FormulaInputs.StarOfThree | mcpower_gui/widgets/formula_input.py:36-43 | `a*b*c` gives a, b, c, then a:b, a:c, b:c, then a:b:c |
| FormulaInputs.ExpandStarTerm | mcpower_gui/widgets/formula_input.py:36-43 | the loops return the stripped parts followed by every combination of two or more, smaller sizes first |
| FormulaInputs.AppendJoined | mcpower_gui/widgets/formula_input.py:41-42 | the inner loop appends each combination joined with ":", in order |
| FormulaInputs.RawTerms | mcpower_gui/widgets/formula_input.py:126 | no raw term is blank |
| FormulaInputs.Predictors | mcpower_gui/widgets/formula_input.py:126-135 | the predictors never repeat a term |
| FormulaInputs.PredictorsFromTerms | mcpower_gui/widgets/formula_input.py:126-135 | a term is a predictor exactly when it comes from expanding a non-blank piece between "+" |
| FormulaInputs.PlainTerms | mcpower_gui/widgets/formula_input.py:128-132 | without `*` terms the expansion leaves the terms as they are |
| FormulaInputs.DedupTerms | mcpower_gui/widgets/formula_input.py:134-135 | the `seen` loop keeps the first occurrence of each term, in order |
| FormulaInputs.ExpandTerms | mcpower_gui/widgets/formula_input.py:127-132 | the expanding loop replaces each `*` term by its expansion and keeps every other term |
| FormulaInputs.ParseText | mcpower_gui/widgets/formula_input.py:112-158 | blank text emits an all-empty formula; a parse error emits nothing; otherwise the stripped text, the parser's dependent variable and random effects, and the predictors of its fixed-effects part are emitted |
| FormulaInputs.ParsedNotBlank | mcpower_gui/widgets/formula_input.py:112-154 | a non-blank formula that parses is never emitted as blank, and its predictors are distinct |
| FormulaInputs.FormulaInput.constructor | mcpower_gui/widgets/formula_input.py:59-107 | a new input has empty text and no pending parse |
| FormulaInputs.FormulaInput.OnTextChanged | mcpower_gui/widgets/formula_input.py:109-110 | a keystroke changes the text and starts the timer |
| FormulaInputs.FormulaInput.Parse | mcpower_gui/widgets/formula_input.py:112-158 | when the timer fires the text is parsed and the timer is idle |
| FormulaInputs.FormulaInput.SetFormula | mcpower_gui/widgets/formula_input.py:166-170 | the text is set and parsed at once, with no parse left pending |
| FormulaInputs.FormulaInput.LoadExample | mcpower_gui/widgets/formula_input.py:160-164 | the example's type hints are emitted when it has any, then its formula is set and parsed |
| AnalysisTabs.FindText | mcpower_gui/tabs/analysis_tab.py:153 | the index of the first item equal to the text, and -1 exactly when no item is |
| AnalysisTabs.SetCurrentText | mcpower_gui/tabs/analysis_tab.py:281-283 | selecting an offered text makes it the current text; an unknown text leaves the box unchanged; the items never change |
| AnalysisTabs.AddItem | mcpower_gui/tabs/analysis_tab.py:156 | the item is appended and an existing selection is kept |
| AnalysisTabs.RemoveItem | mcpower_gui/tabs/analysis_tab.py:166 | the item is removed, later items move up, and a selection before or after it keeps pointing at the same item |
| AnalysisTabs.CorrectionValue | mcpower_gui/tabs/analysis_tab.py:206-212 | the run value is empty exactly for "None" (or nothing selected); other corrections except Tukey pass through unchanged |
| AnalysisTabs.ComboForModel | mcpower_gui/tabs/analysis_tab.py:148-166 | the box stays well formed; Tukey is last exactly for ANOVA; the selection is kept except that a selected Tukey becomes "None" when leaving ANOVA |
| AnalysisTabs.WithTukey | mcpower_gui/tabs/analysis_tab.py:154-156 | the ANOVA branch offers the base corrections then Tukey and keeps the selection |
| AnalysisTabs.WithoutTukey | mcpower_gui/tabs/analysis_tab.py:161-166 | the other branch offers only the base corrections, a selected Tukey falling back to "None" |
| AnalysisTabs.ComboForModelText | mcpower_gui/tabs/analysis_tab.py:152-166 | Tukey is offered iff the model is ANOVA; the selected text survives unless it is Tukey leaving ANOVA, which reads "None" |
| AnalysisTabs.ComboForModelIdempotent | mcpower_gui/tabs/analysis_tab.py:143-170 | applying the same model type twice is the same as applying it once |
| AnalysisTabs.Lower | mcpower_gui/tabs/analysis_tab.py:287 | lower-casing keeps the length and maps every character on its own |
| AnalysisTabs.FirstCaseless | mcpower_gui/tabs/analysis_tab.py:285-289 | the index found matches the text up to case and no earlier item does; none found means no item matches |
| AnalysisTabs.FindCaseless | mcpower_gui/tabs/analysis_tab.py:286-289 | the search loop stops at exactly the first item equal up to case |
| AnalysisTabs.FirstCaselessAt | mcpower_gui/tabs/analysis_tab.py:286-289 | with no match before position i, a match at i is the first one and reaching the end means there is none |
| AnalysisTabs.RestoreCorrection | mcpower_gui/tabs/analysis_tab.py:278-289 | the items never change; an empty correction selects "None"; "tukey" in any case selects Tukey when offered |
| AnalysisTabs.RestoreCorrectionOf | mcpower_gui/tabs/analysis_tab.py:278-289 | the method with its search loop selects what the correction rules select |
| AnalysisTabs.RestoreCorrectionRoundTrip | mcpower_gui/tabs/analysis_tab.py:206-212 | restoring the correction a run recorded selects the item the run was started with, in any box offering the same items |
| AnalysisTabs.RoundTripNamed | mcpower_gui/tabs/analysis_tab.py:284-289 | Bonferroni, Benjamini-Hochberg and Holm are found again by the caseless search |
| AnalysisTabs.TargetTest | mcpower_gui/tabs/analysis_tab.py:214-234 | both branches are one rule: "overall" for ANOVA or the selector's value otherwise, then the post-hoc comparisons, joined by ", " |
| AnalysisTabs.CommonParams | mcpower_gui/tabs/analysis_tab.py:204-241 | short summary, the scenarios flag, the correction's run value, the target test, an empty test formula for ANOVA and the stripped one otherwise, and no size keys |
| AnalysisTabs.RestoreForm | mcpower_gui/tabs/analysis_tab.py:291-316 | the spin boxes stay in range; a recorded in-range value is restored exactly; an absent one leaves the box as it was; scenarios and test formula default to off and empty |
| AnalysisTabs.SpinValue | mcpower_gui/tabs/analysis_tab.py:303-316 | a restored spin box stays in its range, keeps its value when the key is absent and takes an in-range saved value exactly |
| AnalysisTabs.AnalysisTab.constructor | mcpower_gui/tabs/analysis_tab.py:34-123 | the base corrections with "None" selected, the state's target power pulled into range, sizes 100, 30 to 200 by 10, run buttons off |
| AnalysisTabs.AnalysisTab.SetModelType | mcpower_gui/tabs/analysis_tab.py:143-170 | the correction box follows the model type and target tests and test formula are shown exactly for non-ANOVA models; nothing else changes |
| AnalysisTabs.AnalysisTab.SetModelReady | mcpower_gui/tabs/analysis_tab.py:184-195 | both run buttons follow readiness and the placeholder names the current formula when there is one |
| AnalysisTabs.AnalysisTab.SetRunning | mcpower_gui/tabs/analysis_tab.py:197-200 | a run button is enabled iff the model is ready and no run is active |
| AnalysisTabs.AnalysisTab.OnRunPower | mcpower_gui/tabs/analysis_tab.py:243-247 | the target power is stored in the shared state and the common parameters plus the sample size are emitted |
| AnalysisTabs.AnalysisTab.OnRunSampleSize | mcpower_gui/tabs/analysis_tab.py:249-274 | parameters are emitted iff from < to and the step fits in the range; a refused range changes nothing; an accepted one stores the target power and emits the range |
| AnalysisTabs.AnalysisTab.RestoreParams | mcpower_gui/tabs/analysis_tab.py:276-319 | the correction and widgets are restored from the record and the model-type rules applied again; the shared state is untouched |
| TargetTestSelectors.CountChecked | mcpower_gui/widgets/target_test_selector.py:96 | the number of checked boxes never exceeds the number of boxes |
| TargetTestSelectors.CountCheckedBounds | mcpower_gui/widgets/target_test_selector.py:96-101 | the count equals the total exactly when every box is checked, and is 0 exactly when none is |
| TargetTestSelectors.TriState | mcpower_gui/widgets/target_test_selector.py:96-103 | select-all is checked iff every box is, unchecked iff there are boxes and none is checked, partially checked otherwise |
| TargetTestSelectors.Fill | mcpower_gui/widgets/target_test_selector.py:61-66 | n boxes, every one with the given flag |
| TargetTestSelectors.Selected | mcpower_gui/widgets/target_test_selector.py:75 | as many names as checked boxes, each one a test name |
| TargetTestSelectors.SelectedAll | mcpower_gui/widgets/target_test_selector.py:75-77 | with every box checked, every name is selected, in order |
| TargetTestSelectors.Value | mcpower_gui/widgets/target_test_selector.py:73-78 | "all" while every box is checked; otherwise the checked names joined by ", " |
| TargetTestSelectors.ValueNoneChecked | mcpower_gui/widgets/target_test_selector.py:73-78 | with tests but none checked, the value is empty |
| TargetTestSelectors.ScrollHeight | mcpower_gui/widgets/target_test_selector.py:11-13 | the height lies between the padding and the cap, and is the cap or one row per test plus padding, whichever is smaller (also lines 110-114 of the same file) |
| TargetTestSelectors.ScrollHeightMonotone | mcpower_gui/widgets/target_test_selector.py:110-114 | more tests never make the list shorter |
| TargetTestSelectors.SelectAllChecks | mcpower_gui/widgets/target_test_selector.py:82-90 | every box is checked when select-all is checked, and unchecked in either other state |
| TargetTestSelectors.ClickFromUncheckedAsWritten | mcpower_gui/widgets/target_test_selector.py:82-90 | as written, clicking an unchecked select-all leaves it partially checked while no box is checked |
| TargetTestSelectors.ClickState | mcpower_gui/widgets/target_test_selector.py:82-90 | the intended click never reaches partially checked, and reaches checked exactly from a state other than checked |
| TargetTestSelectors.ClickKeepsTriState | mcpower_gui/widgets/target_test_selector.py:82-103 | after the intended click, select-all again describes the boxes |
| TargetTestSelectors.TargetTestSelector.constructor | mcpower_gui/widgets/target_test_selector.py:25-49 | no tests, select-all checked, no height set yet |
| TargetTestSelectors.TargetTestSelector.SetTests | mcpower_gui/widgets/target_test_selector.py:53-71 | the new tests, all checked, select-all checked, the height recomputed, and the value "all" |
| TargetTestSelectors.TargetTestSelector.SetItem | mcpower_gui/widgets/target_test_selector.py:92-108 | only the one box changes; a real change makes select-all describe the boxes and emits the new value; a no-op change emits nothing |
| TargetTestSelectors.TargetTestSelector.ClickSelectAll | mcpower_gui/widgets/target_test_selector.py:82-90 | the corrected click of the Findings row: select-all becomes checked from any state but checked and unchecked from checked, never partially checked; every box takes that state, select-all describes them, and the new value is emitted ("all" when checked) |
| TargetTestSelectors.TargetTestSelector.GetValue | mcpower_gui/widgets/target_test_selector.py:73-77 | "all" when every test is checked (also when there are none), otherwise the checked names joined by ", " |
| TargetTestSelectors.ClickAsWritten | mcpower_gui/widgets/target_test_selector.py:82-90 | as written a click leaves the box checked exactly when it was partially checked; then every test is checked, and otherwise every test is unchecked |
| PostHocSelectors.LevelRange | mcpower_gui/widgets/post_hoc_selector.py:77 | the levels 1 to n, in order, and none for n below 1 |
| PostHocSelectors.LevelPairs | mcpower_gui/widgets/post_hoc_selector.py:77 | every combination drawn is a pair |
| PostHocSelectors.CombinationsDrawn | mcpower_gui/widgets/post_hoc_selector.py:77 | every element of every combination comes from the sequence combined |
| PostHocSelectors.ConsIncreasing | mcpower_gui/widgets/post_hoc_selector.py:77 | an element smaller than all of an increasing sequence keeps it increasing when put in front |
| PostHocSelectors.CombinationsIncreasing | mcpower_gui/widgets/post_hoc_selector.py:77 | combinations of an increasing sequence are increasing, as itertools yields them |
| PostHocSelectors.LexCons | mcpower_gui/widgets/post_hoc_selector.py:77 | a common first element keeps lexicographic order |
| PostHocSelectors.LexHead | mcpower_gui/widgets/post_hoc_selector.py:77 | a smaller first element decides lexicographic order |
| PostHocSelectors.CombinationsLex | mcpower_gui/widgets/post_hoc_selector.py:77 | combinations of an increasing sequence come in strictly increasing lexicographic order |
| PostHocSelectors.LevelPairsFacts | mcpower_gui/widgets/post_hoc_selector.py:54-77 | a factor with n levels has n(n-1)/2 pairs, each 1 <= a < b <= n, in lexicographic order |
| PostHocSelectors.FactorComparisons | mcpower_gui/widgets/post_hoc_selector.py:68-83 | no comparison below two levels; otherwise one "f[a] vs f[b]" per level pair, in pair order |
| PostHocSelectors.FactorComparisonsNonEmpty | mcpower_gui/widgets/post_hoc_selector.py:69-70 | a factor contributes a comparison iff it has at least two levels |
| PostHocSelectors.PerFactor | mcpower_gui/widgets/post_hoc_selector.py:68-83 | one block of comparisons per factor name, each for that factor's level count |
| PostHocSelectors.AppendFactor | mcpower_gui/widgets/post_hoc_selector.py:77-83 | the inner loop appends exactly the factor's comparisons |
| PostHocSelectors.BuildComparisons | mcpower_gui/widgets/post_hoc_selector.py:68-83 | the two loops build exactly every comparison of every factor, factors in name order |
| PostHocSelectors.FlattenNonEmpty | mcpower_gui/widgets/post_hoc_selector.py:94-96 | a flattened sequence is non-empty iff one of its parts is |
| PostHocSelectors.FactorOrderKeys | mcpower_gui/widgets/post_hoc_selector.py:68 | sorting the factors keeps exactly their names |
| PostHocSelectors.HasAnyFactors | mcpower_gui/widgets/post_hoc_selector.py:94-96 | some comparison exists iff some factor has at least two levels |
| PostHocSelectors.MinHeight | mcpower_gui/widgets/post_hoc_selector.py:123-127 | one row's height with no comparisons, else the checklist height of the target tests |
| PostHocSelectors.MaxHeightFor | mcpower_gui/widgets/post_hoc_selector.py:123-128 | one row's height with no comparisons, else the cap, never below the minimum |
| PostHocSelectors.PostHocSelector.constructor | mcpower_gui/widgets/post_hoc_selector.py:26-50 | no comparisons, select-all unchecked, no height set yet |
| PostHocSelectors.PostHocSelector.SetFactors | mcpower_gui/widgets/post_hoc_selector.py:54-88 | the comparisons rebuilt, all unchecked, select-all unchecked, the heights set, and nothing selected |
| PostHocSelectors.PostHocSelector.SetItem | mcpower_gui/widgets/post_hoc_selector.py:109-121 | only the one box changes; a real change makes select-all describe the boxes |
| PostHocSelectors.PostHocSelector.ClickSelectAll | mcpower_gui/widgets/post_hoc_selector.py:100-107 | the corrected click of the Findings row: select-all becomes checked from any state but checked and unchecked from checked, never partially checked; every comparison takes that state, select-all describes them, and checked selects every comparison |
| PostHocSelectors.PostHocSelector.GetSelected | mcpower_gui/widgets/post_hoc_selector.py:90-92 | as many comparisons as boxes are checked, each one of the offered comparisons |
| TipEngines.ParseInt | mcpower_gui/widgets/tip_engine.py:82-83 | `int()` of a threshold: blank text raises, and only a leading minus sign gives a negative value |
| TipEngines.ParseIntRoundTrip | mcpower_gui/widgets/tip_engine.py:82-83 | a threshold written as an integer's text parses back to that integer |
| TipEngines.ParseIntStrips | mcpower_gui/widgets/tip_engine.py:82-83 | white space around a threshold does not change how it parses, as `int()` strips it |
| TipEngines.ParseGroups | mcpower_gui/widgets/tip_engine.py:82-83 | an unsigned, unpadded literal of digits with single underscores between them parses to the value of its digits |
| TipEngines.ParseRaises | mcpower_gui/widgets/tip_engine.py:82-83 | an unsigned, unpadded text that is not such a literal makes `int()` raise |
| TipEngines.ParseIntGrouped | mcpower_gui/widgets/tip_engine.py:82-83 | "1_000" parses to 1000 |
| TipEngines.ParseIntPadded | mcpower_gui/widgets/tip_engine.py:82-83 | " 3 " parses to 3 |
| TipEngines.ParseIntLeadingUnderscore | mcpower_gui/widgets/tip_engine.py:82-83 | "_1" raises |
| TipEngines.ParseIntTrailingUnderscore | mcpower_gui/widgets/tip_engine.py:82-83 | "1_" raises |
| TipEngines.ParseIntDoubleUnderscore | mcpower_gui/widgets/tip_engine.py:82-83 | "1__0" raises |
| TipEngines.NotEqualNegates | mcpower_gui/widgets/tip_engine.py:86-91 | "!v" holds exactly when the plain condition "v" does not |
| TipEngines.ThresholdHolds | mcpower_gui/widgets/tip_engine.py:82-85 | ">=N" holds of a value exactly when it is a number at least N, and never of a string |
| TipEngines.EmptyConditions | mcpower_gui/widgets/tip_engine.py:76-81 | "" matches only the empty string; "!empty" matches exactly the truthy values |
| TipEngines.BoolConditionIsEquality | mcpower_gui/widgets/tip_engine.py:72-74 | a bool condition is Python equality, so True also matches 1 and False matches 0 |
| TipEngines.ConditionHolds | mcpower_gui/widgets/tip_engine.py:70-98 | a bool or number condition is Python equality with the actual value |
| TipEngines.ConditionRaisesOnThreshold | mcpower_gui/widgets/tip_engine.py:70-98 | a condition raises exactly when it is a ">=" threshold whose text `int()` rejects |
| TipEngines.MatchesRaisesAtCondition | mcpower_gui/widgets/tip_engine.py:65-98 | a match that raises has a condition on a key present in the state that raises; a missing key never raises |
| TipEngines.MatchesIffAllHold | mcpower_gui/widgets/tip_engine.py:65-98 | conditions are ANDed: the match succeeds exactly when every condition's key is in the state and the condition holds of its value |
| TipEngines.Matches | mcpower_gui/widgets/tip_engine.py:65-98 | the loop with early returns gives the condition-by-condition result, raising where a threshold is not an integer literal as `int()` reads it (optional white space and sign, ASCII digits with single underscores between them) |
| TipEngines.Format | mcpower_gui/widgets/tip_engine.py:47-51 | `format_map` over the safe map: text without braces comes back unchanged (also lines 101-108) |
| TipEngines.IndexOf | mcpower_gui/widgets/tip_engine.py:49 | the first position at or after i holding the character, or the end when there is none |
| TipEngines.FormatPlain | mcpower_gui/widgets/tip_engine.py:49 | text without braces passes through formatting unchanged |
| TipEngines.FormatField | mcpower_gui/widgets/tip_engine.py:49-108 | a placeholder is replaced by its field text and formatting goes on after it |
| TipEngines.FormatFieldPlain | mcpower_gui/widgets/tip_engine.py:49-108 | a placeholder followed by brace-free text becomes its field text followed by that text |
| TipEngines.FormatAround | mcpower_gui/widgets/tip_engine.py:49-108 | a placeholder between brace-free texts is replaced by its field text |
| TipEngines.FormatFillsKnown | mcpower_gui/widgets/tip_engine.py:49 | a placeholder naming a state key is filled with the text of its value |
| TipEngines.FormatKeepsUnknown | mcpower_gui/widgets/tip_engine.py:101-108 | a placeholder naming no state key is kept literally |
| TipEngines.FormatUnmatched | mcpower_gui/widgets/tip_engine.py:48-51 | an unmatched brace makes formatting fail |
| TipEngines.ResolveText | mcpower_gui/widgets/tip_engine.py:47-51 | the formatted text when formatting succeeds, the text as written when it fails |
| TipEngines.Entry | mcpower_gui/widgets/tip_engine.py:53-59 | the rule's id, its resolved text, style defaulting to "normal", type to "text", and priority to 999 |
| TipEngines.StepMember | mcpower_gui/widgets/tip_engine.py:41-59 | one loop turn adds exactly the rule's entry when the rule selects, and nothing else |
| TipEngines.StepRaises | mcpower_gui/widgets/tip_engine.py:41-59 | a loop turn raises exactly when it was already raised or the rule is on the tab and its conditions raise |
| TipEngines.MatchedMember | mcpower_gui/widgets/tip_engine.py:38-59 | an entry is matched exactly when some rule selects it |
| TipEngines.MatchedRaises | mcpower_gui/widgets/tip_engine.py:38-59 | the loop raises exactly when some rule on the state's tab has conditions that raise |
| TipEngines.Tips | mcpower_gui/widgets/tip_engine.py:62 | the tips of the entries, in order |
| TipEngines.RankedOrder | mcpower_gui/widgets/tip_engine.py:61 | the sort is a permutation of the matched entries, ascending in priority, keeping rule order among equal priorities |
| TipEngines.Ranked | mcpower_gui/widgets/tip_engine.py:36-62 | evaluation raises exactly when the matching loop raises; otherwise the ranked entries are a permutation of the matched ones |
| TipEngines.EvaluateMember | mcpower_gui/widgets/tip_engine.py:36-62 | a tip is returned exactly when some rule on the state's tab has all its conditions hold |
| TipEngines.EvaluateSpec | mcpower_gui/widgets/tip_engine.py:36-62 | evaluation raises exactly when matching a rule raises, and otherwise returns one tip per matched rule |
| TipEngines.Evaluate | mcpower_gui/widgets/tip_engine.py:36-62 | the loop and the sort give the matched tips ranked by priority, or raise |
| TipEngines.MatchedRaisesAt | mcpower_gui/widgets/tip_engine.py:44-83 | one rule on the tab whose conditions raise makes the whole evaluation raise |
| TutorialGuides.MainEffects | mcpower_gui/widgets/tutorial_guide.py:143 | exactly the predictors that are not interactions (no ':') |
| TutorialGuides.CountsBounded | mcpower_gui/widgets/tutorial_guide.py:133-143 | the correlable count is at most the number of main effects, which is at most the number of predictors |
| TutorialGuides.FactorsAreNonContinuous | mcpower_gui/widgets/tutorial_guide.py:129-142 | a model with a factor always reports a non-continuous predictor |
| TutorialGuides.PlainPredictorsCount | mcpower_gui/widgets/tutorial_guide.py:133-143 | without interactions and type entries every predictor counts and is correlable (continuous by default) |
| TutorialGuides.ClustersResolvedLookup | mcpower_gui/widgets/tutorial_guide.py:145-157 | the engine state reports clusters resolved exactly when there are none or they are configured |
| TutorialGuides.ClustersResolvedCondition | mcpower_gui/widgets/tutorial_guide.py:157 | a tip conditioned on clusters being resolved matches exactly when there are no clusters or they are configured |
| TutorialGuides.CorrelableLookup | mcpower_gui/widgets/tutorial_guide.py:133-162 | the engine state reports the number of continuous or binary main effects |
| TutorialGuides.CorrelableCondition | mcpower_gui/widgets/tutorial_guide.py:133-162 | a tip conditioned on ">=2" correlable predictors matches exactly when two of them can be correlated |
| TutorialGuides.ModeLookup | mcpower_gui/widgets/tutorial_guide.py:150 | the engine state's mode is "anova" for ANOVA models and "linear" otherwise |
| TutorialGuides.ModeCondition | mcpower_gui/widgets/tutorial_guide.py:150 | a tip conditioned on the ANOVA mode matches exactly for ANOVA models |
| TutorialGuides.EngineState | mcpower_gui/widgets/tutorial_guide.py:121-169 | the engine state has 19 entries; "tab" is the guide's tab, and "formula" and "formula_display" are both the cached formula |
| TutorialGuides.TutorialGuide.constructor | mcpower_gui/widgets/tutorial_guide.py:51-70 | a guide starts dismissed and hidden exactly when the persistent setting turns it off, with nothing cached or rendered |
| TutorialGuides.TutorialGuide.UpdateState | mcpower_gui/widgets/tutorial_guide.py:72-119 | while dismissed nothing changes; otherwise the state is cached and the engine's tips rendered and shown unless they equal the tips last rendered; an engine error changes nothing rendered |
| TutorialGuides.TutorialGuide.Dismiss | mcpower_gui/widgets/tutorial_guide.py:265-268 | dismissed and hidden, the cache and the rendered tips kept |
| TutorialGuides.TutorialGuide.Reopen | mcpower_gui/widgets/tutorial_guide.py:270-278 | no longer dismissed; the cached state, if any, is rendered afresh and shown; without a cache nothing is rendered |

## Left out

- Qt construction and wiring: layouts, style sheets, scroll areas, `deleteLater`, signals and slots, `blockSignals` and the `_suppress` re-entry flags. Each modelled method is one user action together with the handlers it sets off.
- Dialogs, theming, plotting and application glue (settings, history and documentation dialogs, the progress dialog, the update banner, `update_checker.py`, `theme.py`, `flow_layout.py`, the bar chart and power curve, `app.py`, `__main__.py`). They render or wire things and decide nothing the core depends on.
- The glue handlers of `mcpower_gui/tabs/model_tab.py` that only forward between editors: `_on_upload` (308-334), `_apply_data_detected_types` (411-427), `_on_formula_changed`, `_on_types_changed` and `_on_effects_changed` (429-461), `sync_state` (670-686) and `restore_state` (703-784). The editors they call are modelled. The order in which they call them is not. `_apply_data_to_anova` (401-409) is modelled inside `ModelTabs.ModelTab.SwitchToAnova`. `_on_anova_formula_changed` (281-299) is `ModelTabs.ModelTab.OnAnovaFormulaChanged`. `_on_anova_types_changed` (301-304) is `ModelTabs.ModelTab.OnAnovaTypesChanged`. The corrected `_rebuild_effects` (535-547) is `ModelTabs.ModelTab.RebuildEffects`.
- ModelTabs.ModelTab.OnModelTypeChanged and ModelTabs.ModelTab.SwitchToLinear leave the effects, the variable types and the correlation fields free after a switch to linear. On that branch OnModelTypeChanged also leaves the correlation grid's contents and the data correlation map free. The handlers that rewrite them are not modelled: `_on_formula_changed`, which the re-parse sets off and which rebuilds the variable type editor and the effects, and `_apply_data_detected_types` and `_apply_corr_mode` (269-270).
- ModelTabs.ModelTab.OnModelTypeChanged, ModelTabs.ModelTab.SwitchToAnova, ModelTabs.ModelTab.OnAnovaFormulaChanged and ModelTabs.ModelTab.OnAnovaEmitted do not model `_emit_available_tests` or the `model_type_changed` and `model_ready_changed` signals. `ModelTabs.AvailableTests` gives the list that is emitted, and `ModelTabs.ModelTab.Ready` the readiness. The widgets' visibility is not modelled either.
- ModelTabs.ModelTab.RebuildEffects, ModelTabs.RebuiltEffects and the handlers that call them perform the corrected rebuild of the fourth Findings row. They pass the effects editor the expanded names, the current effects and the types, and drop the reference levels, which `set_predictors` has no parameter for. As written every call raises `TypeError` (`ModelTabs.RebuildEffectsAsWrittenRaises`). So the effects the model promises after an ANOVA emission are those of the corrected rebuild, not of the source as written.
- State.Snapshot and AnovaFactorEditors.AnovaFactorEditor.OnInteractionsToggled perform the corrected behaviour of the first and second Findings rows. The source as written is modelled by State.SnapshotAsWritten and State.SnapshotWithDataRaises (the snapshot fails once data is uploaded), and by AnovaFactorEditors.ToggledBoxesAsWritten and AnovaFactorEditors.StaleInteractionAsWritten (stale interaction boxes survive). The rest of the model uses the corrected members.
- TipEngines.ParseInt and TipEngines.Matches accept only ASCII decimal digits. Python's `int()` also accepts the decimal digits of other scripts (for example Arabic-Indic "٣"), which the model treats as a raised `ValueError`.
- TipEngines.Format and TipEngines.ResolveText model only placeholders that are plain names. A placeholder with a format spec (`{n:>3}`), a conversion (`{k!r}`), an attribute (`{a.b}`) or an index (`{a[0]}`) makes the model's formatting fail, so the text is kept as written. Python's `format_map` formats such fields, or raises an `AttributeError`, `TypeError` or `IndexError` that `evaluate` does not catch. Positional fields (`{}`, `{0}`) raise the `ValueError` that is caught, as modelled.
- TargetTestSelectors.TargetTestSelector.ClickSelectAll and PostHocSelectors.PostHocSelector.ClickSelectAll perform the corrected click of the third Findings row (`ClickState`). They do not perform the tri-state cycle of `mcpower_gui/widgets/target_test_selector.py:82-90` and `mcpower_gui/widgets/post_hoc_selector.py:100-107` as written, which `TargetTestSelectors.ClickAsWritten` models.
- AnalysisTabs.LowerChar and AnalysisTabs.Lower fold ASCII letters only. Qt's case-insensitive `findText` folds Unicode letters as well, so two names that differ only in the case of a non-ASCII letter match in the source but not in the model.
- `set_available_tests` and `set_available_factors` of `mcpower_gui/tabs/analysis_tab.py:172-182` only forward to the checklists. Those are modelled as `TargetTestSelectors.TargetTestSelector.SetTests` and `PostHocSelectors.PostHocSelector.SetFactors`.
- The external MCPower library. Every engine call is a constructor of the worker's plan and is not executed. `_parse_equation` (`mcpower_gui/widgets/formula_input.py:121-123`) is the parameter `parser`.
- Threading and cancellation in `mcpower_gui/worker.py`, including `QThread`, `isRunning` and the cancel flag.
- pandas: reading a CSV, `nunique`, `value_counts` and `corr()`. A column is a sequence of already formatted values. The Pearson coefficient is the parameter `coef`, and the ordering of raw values the parameter `valueLe`. The `try`/`except` that skips unreadable columns (`mcpower_gui/tabs/model_tab.py:382-385`) is not modelled.
- Float rounding. This covers `round(…, 2)` of correlations, `round(1/n, 4)` of uniform proportions (exact `1/n` here), the two-decimal normalisers (`mcpower_gui/widgets/anova_factor_editor.py:501-514`, `mcpower_gui/widgets/variable_type_editor.py:255-267`) and `.1f` cell text. Number-to-text conversion is the parameter `fmt`.
- Persistence internals. JSON encoding (including `default=str`), uuid generation, `stat().st_mtime` and `datetime.now` are parameters or abstract values. YAML loading of `tips.yaml` (`mcpower_gui/widgets/tutorial_guide.py:24-31`) becomes the rule list handed to the guide. The persistent "show guide" setting becomes a constructor flag.
- Histories.ListRecordsOrder, Histories.Ordered and Histories.HistoryManager.ListRecords: when every timestamp is a JSON list, the listing keeps the order of the files, where Python compares the lists element by element (and raises if their elements cannot be compared). A history file whose top level is not a JSON object is read as unreadable and skipped, where `data.get` in `list_records` raises an AttributeError.
- CSV export (`mcpower_gui/widgets/results_table.py:202-220`, `mcpower_gui/widgets/result_panel.py:297-318`). This is quoting and file output only.
- The rest of `mcpower_gui/widgets/result_panel.py`: widget assembly and the charts and plots it appends. Only `_build_header_text` is modelled.
- Display-only text: the formula status line (`mcpower_gui/widgets/formula_input.py:137-158`), cluster card titles (`mcpower_gui/widgets/cluster_editor.py:91-102`), the effect buttons' text and resizing (`mcpower_gui/widgets/effects_editor.py:113-130`), tab selection, the tab context menu, and the guide's per-style rendering and formula-example buttons.
- VariableTypeEditors.NewRow, VariableTypeEditors.RebuildParams, VariableTypeEditors.Rows and VariableTypeEditors.VariableTypeEditor.SetPredictors require that no factor info has `n_levels` 0 together with a non-empty proportions list. That input divides by zero in `_build_factor_proportions`, and the exception is not modelled.
- AnovaFactorEditors.RestoredRows, AnovaFactorEditors.DataRows, AnovaFactorEditors.LoadFactors, AnovaFactorEditors.AnovaFactorEditor.SetFactors and AnovaFactorEditors.AnovaFactorEditor.SetDataFactors require the same of every factor definition, for the same division.
- ModelTabs.LockedKeys, ModelTabs.ShowMode, ModelTabs.ModelTab.ApplyCorrMode, ModelTabs.ModelTab.OnCorrModeChanged and ModelTabs.ModelTab.OnCorrelationsChanged require, in strict mode, that every correlation key splits into exactly two names. Otherwise the two-name unpacking raises `ValueError`, which is not modelled.
- CorrelationEditors.TriangleKeysDistinct, ModelTabs.DataCorrelationsLookup and ModelTabs.DataCorrelationsKeys assume variable names without commas. Only under that assumption do distinct pairs give distinct keys.
- VariableTypeEditors.MarkDetected reads an empty `level_labels` list as absent. Every use in the source tests the list's truthiness, so the two cases behave alike.
- Integer width plays no part: every integer in the core is a Python `int`, which is unbounded.

## Findings

| source | as written | input that shows it | evidently intended | confidence | as-written member | corrected member |
|---|---|---|---|---|---|---|
| mcpower_gui/state.py:167 | `snapshot` tests `if self.uploaded_data`. After an upload this holds the pandas DataFrame stored at `mcpower_gui/tabs/model_tab.py:314`, and the truth value of a DataFrame raises `ValueError` | any state after a CSV upload | record the column names of the uploaded data, or `[]` when there is none (`is not None`) | not executed; rests on pandas refusing DataFrame truthiness | State.SnapshotWithDataRaises | State.SnapshotOmitsData |
| mcpower_gui/widgets/anova_factor_editor.py:265-271 | turning interactions on rebuilds the pair boxes only when there are at least two factor rows, so boxes from before survive | factors A, B, C with B:C checked; interactions off; B and C removed; interactions on: the predictors hold "B:C" | interactions are always pairs of current factors | not executed | AnovaFactorEditors.StaleInteractionAsWritten | AnovaFactorEditors.ToggledBoxes |
| mcpower_gui/widgets/target_test_selector.py:82-90 | a click moves a tri-state box from unchecked to partially checked, and the handler then unchecks every test because the state is not "checked" | no test checked, click "Select All": nothing gets checked and the box shows "partially checked" | a click on an unchecked "Select All" checks every test (same in `mcpower_gui/widgets/post_hoc_selector.py:100-107`) | not executed; rests on Qt's tri-state click cycle | TargetTestSelectors.ClickFromUncheckedAsWritten | TargetTestSelectors.ClickKeepsTriState |
| mcpower_gui/tabs/model_tab.py:543-546 | `_rebuild_effects` passes four arguments (the expanded names, the effects, the predictor types and the reference levels, or `None` outside ANOVA) to `EffectsEditor.set_predictors`, which takes three (`mcpower_gui/widgets/effects_editor.py:47-51`), so the call raises `TypeError` before `state.effects` is set | the `mpg = origin` state of `tests/test_factor_autonaming.py:170-191`, with `origin` a three-level factor | the effects editor rebuilt for the expanded names, here origin[Japan] and origin[USA], and the state holding its effects | not executed; rests on Python rejecting an extra positional argument | ModelTabs.RebuildEffectsAsWrittenRaises | ModelTabs.OriginEffects |
