# MAChINE front end: training panel, onboarding tour and fittings page

This project models, in Dafny, the logic of three components of the MAChINE
web front end:

- **Training page.** `filterData` turns the training metrics (metric name to
  value list) into chart series. The epochs and batch-size fields are
  validated. The Start/Stop button and its abort dialog follow the training
  status that the backend reports.
- **Onboarding tour.** The guided tour has a fixed table of eight steps. Its
  callback moves the controlled step index as the tour library reports
  events, asks the router to navigate, and forwards each event to the outer
  callback.
- **Fittings page.** The user picks a trained model (a fitting) to analyse a
  molecule with. The page has a details popper and a help popper on the
  fitting cards. It builds a chart map from the histograms of the fitting's
  labels, and shows the analysis in a dialog.

Each component's state is a class. Its fields are the React state variables,
and its event handlers and effects are the class's methods. Calls to the REST
client and to the router are appended to log fields (`requests`,
`navigations`, `forwarded`); they are not performed. Pure logic is written as
functions with lemmas beside it. Loops (`filterData`, the chart effect) are
methods proved against those functions.

Files: `wrappers.dfy` (Option), `training.dfy` (module `Training`),
`onboarding.dfy` (module `Onboarding`), `fittings.dfy` (module `Fittings`).

Modelling choices:

- A number field holds an integer or a text that is not a number
  (`FieldValue`). `value > 0` is false for the latter.
- The tour library's `ACTIONS` and `EVENTS` are enumerations. `Restart` is
  included because the callback tests for it. If the library defines no
  `ACTIONS.RESTART`, that test compares with `undefined` and only START ever
  resets the index; the model's other results do not depend on it.
- A JavaScript `TypeError` (reading a property of `undefined`) is an explicit
  outcome:
  - The tour callback reads `steps[index]` and `steps[stepIndex]`; the model
    returns `threw` when `steps[index]` is outside the table on STEP_BEFORE, or
    when, on STEP_BEFORE for a step with a location, `steps[stepIndex]` is.
  - The chart effect reads `histograms[label][1]`. When a label has no
    histogram, `BuildCharts` returns `None` and `HistogramsArrived` returns
    `threw`.
  - When the tour callback throws, the step-index writes made before the
    throw stand, and the event is not forwarded.
- The tour callback reads `stepIndex` as it was when the callback was
  created, not after its own writes. The method keeps that value in
  `rendered`.
- An effect runs when its dependency changes:
  - `SetTrainingStatus` runs the status effect only when the status differs
    from the previous one.
  - `HandleFittingSelection` requests histograms only when the selected
    dataset changed.
  - `HistogramsArrived` rebuilds the charts only for a non-null response.

## Model

| member | source | states |
|---|---|---|
| `Training.Padded` | frontend/src/routes/TrainingPage.js:109-111 | a one-point list becomes that point twice; every other length, including 0, passes through unchanged |
| `Training.FilterData` | frontend/src/routes/TrainingPage.js:102-116 | the loop that pushes series produces exactly `Filtered(data)` |
| `Training.FilteredConcat` | frontend/src/routes/TrainingPage.js:106-114 | filtering distributes over concatenation, so series keep the input entry order |
| `Training.FilteredFromEntries` | frontend/src/routes/TrainingPage.js:104-112 | no series is named `epoch`; every series is named after an input key and holds that entry's values, padded |
| `Training.FilteredNameCount` | frontend/src/routes/TrainingPage.js:104-107 | `epoch` yields no series; any other key yields as many series as entries it has |
| `Training.OneSeriesPerKey` | frontend/src/routes/TrainingPage.js:106-112 | with distinct object keys, each key other than `epoch` yields exactly one series |
| `Training.HelperText` | frontend/src/routes/TrainingPage.js:132 | the helper text is `Required!` exactly when the field's error flag is set |
| `Training.TrainingPage.constructor` | frontend/src/routes/TrainingPage.js:21-63 | initial state, no errors, no dialog, no spinner, label chosen by the status effect on mount |
| `Training.TrainingPage.StatusEffect` | frontend/src/routes/TrainingPage.js:55-63 | status true: spinner off, label Stop; status false: dialog closed, label Start; nothing else changes |
| `Training.TrainingPage.SetTrainingStatus` | frontend/src/routes/TrainingPage.js:55-63 | runs the effect on a status change; same effect as above, and an unchanged status changes nothing; keeps the invariant that the dialog is open only while training and the spinner only while idle |
| `Training.TrainingPage.HandleEpochsChange` | frontend/src/routes/TrainingPage.js:30-39 | the value is stored whether valid or not; the error flag is set exactly when it is not > 0; nothing else changes |
| `Training.TrainingPage.HandleBatchSizeChange` | frontend/src/routes/TrainingPage.js:42-51 | the same for the batch size |
| `Training.TrainingPage.StartStopDisabled` | frontend/src/routes/TrainingPage.js:158 | disabled exactly when an error flag is set, hence only when an entered value is not > 0 |
| `Training.TrainingPage.HandleStartStop` | frontend/src/routes/TrainingPage.js:65-78 | while training: the abort dialog opens and no request is sent; while idle: the spinner is set and exactly one train request is sent |
| `Training.TrainingPage.HandleCloseDialog` | frontend/src/routes/TrainingPage.js:80-82 | the abort dialog is closed |
| `Training.TrainingPage.AbortTraining` | frontend/src/routes/TrainingPage.js:84-87 | the stop request is sent and the dialog is always closed |
| `Onboarding.Steps` | frontend/src/Onboarding.js:38-154 | eight steps; only step 2 has skip locations (`/models`); every step except 1 and 2 has a location, with the table's values |
| `Onboarding.SkipsExactly` | frontend/src/Onboarding.js:22-27 | a step is skipped exactly at step 2 on path `/models` |
| `Onboarding.StepBeforeMovesOnlyAtModels` | frontend/src/Onboarding.js:21-27 | a STEP_BEFORE event moves the index only at step 2 on `/models`, by one step in the direction of travel |
| `Onboarding.NextStepIndexNearReported` | frontend/src/Onboarding.js:18-34 | when the event reports the current step, the index ends at 0 or within one of the reported index |
| `Onboarding.IndexLeavesTable` | frontend/src/Onboarding.js:32-34 | there is no clamping: -1 and the table length are reachable |
| `Onboarding.NavigationOnlyBeforeLocatedStep` | frontend/src/Onboarding.js:28-30 | at most one navigation, only on STEP_BEFORE for a step with a location, to the location of the step at the pre-event index |
| `Onboarding.ReportedStepNeverThrows` | frontend/src/Onboarding.js:21-30 | an event for the step the tour is on never reads outside the table |
| `Onboarding.Tour.constructor` | frontend/src/Onboarding.js:14 | the step index starts at 0 |
| `Onboarding.Tour.InternalCallback` | frontend/src/Onboarding.js:16-36 | the sequence of writes leaves the last-write-wins index `NextStepIndex`: START or RESTART gives 0, a skip or STEP_AFTER/TARGET_NOT_FOUND gives index −1 on PREV and index+1 otherwise, and anything else leaves the index as it was; the navigations are those of `NavigationsOf`; the event is forwarded unchanged exactly once unless the callback throws |
| `Fittings.BuildCharts` | frontend/src/routes/FittingsPage.js:65-76 | a chart map exists exactly when every label has a histogram; it has one entry per label, each a `bar` chart with x-axis `histograms[label][1]` and one series named after the label holding `histograms[label][0]` |
| `Fittings.SecondClickToggles` | frontend/src/routes/FittingsPage.js:193 | a second click on the same card toggles the details popper |
| `Fittings.SplitJoin` | frontend/src/routes/FittingsPage.js:110 | comma-joined comma-free parts split back into the same parts (`Split` is the helper inverse of `Join` used only to state this and the next lemma; the page never splits) |
| `Fittings.AnalysisTextReadsBack` | frontend/src/routes/FittingsPage.js:110 | the analysis text lists every key and value of the response in order |
| `Fittings.FittingsPage.constructor` | frontend/src/routes/FittingsPage.js:33-50 | the initial state, and the fittings are requested on mount |
| `Fittings.FittingsPage.FittingsArrived` | frontend/src/routes/FittingsPage.js:48-50 | the fitting list is replaced by the response |
| `Fittings.FittingsPage.Render` | frontend/src/routes/FittingsPage.js:125-246 | an empty fitting list renders the placeholder card; with fittings, rendering fails once a chart object has been built (`charts.map` at line 219), and otherwise the grid shows the fittings in order with the popper and dialog flags; the result dialog is never shown before a fitting was selected |
| `Fittings.FittingsPage.ClickCard` | frontend/src/routes/FittingsPage.js:78-82 | the anchor becomes the clicked card and the content is replaced; the popper is open exactly when the card differs from the previous anchor or the popper was closed |
| `Fittings.FittingsPage.HelpPopperOpen` | frontend/src/routes/FittingsPage.js:101-106 | the help anchor and text are set only in help mode |
| `Fittings.FittingsPage.HelpPopperClose` | frontend/src/routes/FittingsPage.js:115-117 | closing clears the help anchor, so the help popper is closed |
| `Fittings.FittingsPage.HandleFittingSelection` | frontend/src/routes/FittingsPage.js:107-113 | the fitting is recorded and the analysis requested; histograms of its labels are requested only when the selected dataset changed |
| `Fittings.FittingsPage.HistogramsArrived` | frontend/src/routes/FittingsPage.js:55-76 | only a non-null response replaces the histograms; with a fitting selected, the effect throws exactly when one of its labels has no histogram, and then the old charts stay; otherwise there is one `bar` chart per label; with no fitting selected, the charts are not rebuilt |
| `Fittings.FittingsPage.AnalysisArrived` | frontend/src/routes/FittingsPage.js:109-112 | only after the response arrives is the analysis text set and the result dialog opened |
| `Fittings.FittingsPage.HandleCloseDialog` | frontend/src/routes/FittingsPage.js:88-90 | the result dialog is closed |
| `Fittings.FittingsPage.HandleGoToMol` | frontend/src/routes/FittingsPage.js:92-95 | the dialog is closed and one navigation to `/molecules` is recorded |
| `Fittings.FittingsPage.HandleClick` | frontend/src/routes/FittingsPage.js:121-123 | the placeholder card records one navigation to `/models/base-models` |

## Left out

- The REST client (frontend/src/api.js) and its 10-second `/check` heartbeat are left out. They are network I/O and timers; the model records each call as a request.
- The Flask route table (backend/api.py) is left out. It only delegates to storage and machine-learning code that is not part of this model.
- Histogram.js and MoleculeInfo.js are chart and list configuration and are left out.
- JSX rendering, theming, the content of the tour steps, and the internals of the router and the tour library are left out.
- Decimal and other non-integer text in the number fields is not modelled; a field holds an integer or something that is not a number.
- The training page's help popper (TrainingPage.js:91-100) and its "Continue to Molecules" button (TrainingPage.js:178) are left out. They are a fixed anchor setter and a fixed navigation.
- Training.TrainingPage.AbortTraining: assumes the REST client provides `stopTraining`. api.js defines none, so in that build the call at TrainingPage.js:85 fails before the dialog closes.
- `trainModel` gets 5 arguments at TrainingPage.js:70-76 but declares 7 parameters (api.js:150-158). So the labels bind to `fingerprint`, the epochs to `label` and the batch size to `epochs`. The model records the call as the page makes it.
- `analyzeMolecule` takes no arguments (api.js:144). The page passes the fitting id and the SMILES (FittingsPage.js:109), and the model records those.
- Fittings.FittingsPage.HandleFittingSelection: records a `GetHistograms` request whenever the selected dataset changes. As written, no histograms are ever requested: the button passes the click event (see the next line), whose `datasetID` is undefined like that of the initial `{}`, so the effect keyed on it (FittingsPage.js:55-63) never runs again. Were the fitting passed, `api.getHistograms` would be undefined (api.js defines none), and the effect would throw on the first selection of each dataset.
- Fittings.FittingsPage.HandleFittingSelection: takes the fitting that the handler's code expects. The "Choose this model" button actually passes the click event (FittingsPage.js:180).
- `charts` is set to an object but is rendered with `.map` (FittingsPage.js:74, 219). `Fittings.FittingsPage.Render` returns `RenderFails` for that state; the charts themselves are not rendered by the model.
- The backend serves training at `/user/<id>/train` (backend/api.py:91), but the client posts to `/users/<id>/train` (api.js:160). Both are outside the model.
- Fittings.AnalysisText: the response's keys and values are taken as text. How JavaScript turns numbers, booleans and `null` into text (`42`, `false`, an empty string) is not modelled. An analysis stored by the backend can hold numbers and booleans, for instance `42` and `False` (backend/api.py:105).
- `Onboarding.NextStepIndexNearReported` holds only for events that report the current step. For an event whose index differs from the step index, the index can stay far from it: a TOOLTIP event for step 3 leaves a step index of 7 unchanged.
- Training.TrainingPage.HandleStartStop, Training.TrainingPage.HandleEpochsChange, Training.TrainingPage.HandleBatchSizeChange: the `disabled` attributes are not preconditions. The Start/Stop button cannot be clicked while an error flag is set (TrainingPage.js:158), and the fields cannot be edited while training (TrainingPage.js:129, 141). The handlers are modelled for every state, and `StartStopDisabled` states when the button is disabled.
- Fittings.FittingsPage.HistogramsArrived, Fittings.FittingsPage.Render: after `threw` or `RenderFails`, the model carries on from the state the page was left in. In React, an error in an effect or in rendering that no error boundary catches unmounts the whole tree.
- Fittings.FittingsPage.AnalysisArrived: the response is a list of entries and cannot be `null`. A `null` response would make `Object.entries` at FittingsPage.js:110 throw, and the dialog would not open.
- Fittings.FittingsPage.constructor: requests the fittings on mount only. The effect is keyed on the user (FittingsPage.js:48-50), so a change of user requests them again; user changes are not modelled.
- The promise scheduling of responses is not modelled. A response is a method call (`HistogramsArrived`, `AnalysisArrived`, `FittingsArrived`) made after its request.
- Fittings.FittingsPage.AnalysisArrived: requires a selected fitting. The analysis request is made only on selection, so its response cannot arrive before one.
