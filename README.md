# farm_loocc: a Dafny model of the estimate workflow

This project models the parts of the farm_loocc module (LOOC-C carbon
estimates for land assets) that have real behaviour. It proves properties of
each part:

- **Batch estimate creation** (`src/Form/CreateEstimateForm.php`), in
  `create_estimate_form.dfy`:
  - `submitForm` resolves the submitted land asset ids, stops with
    "No assets selected." when none loads, normalises the project metadata and
    builds one batch operation per asset.
  - `createLooccEstimateBatch` updates the batch context (`BatchContext`, a
    class whose `results` and `message` the step changes in place).
  - `createLooccEstimateBatchfinished` reports the count and redirects.
  - Entity loading (`Asset::load`) and the estimation service are oracles,
    passed in as functions. `RunBatch` stands for the batch API, which runs the
    operations one after another on one context. Lemmas over `Successes` prove
    that the run's results are exactly the successful steps, in step order.
- **The estimate table behaviour** (`js/estimate_table.js`), in
  `estimate_table.dfy`:
  - Each table row is a `Row` object holding what the handlers change: the two
    carbon inputs, the ACCU text, the optional LRF co-benefit cell and the
    update link's classes.
  - `Derive` is the pure view model that `updateSelection` writes into a row.
  - `Behavior` holds the behaviour's `csrfToken` and its init-once guard.
  - The request builders state the URL and the form data of each AJAX request.
- **Grouping ACCU estimates by base estimate**
  (`src/Plugin/views/field/ACCUEstimates.php`), in `accu_estimates.dfy`:
  - `getAccuEstimates` is a loop that appends each row to the list of its
    `estimate_id`. It is proved equal to `Grouped`, a map from each id present
    to that id's rows in query order.
  - Lemmas prove that the groups partition the rows, keep their order and
    their count, and that no group is empty.

`wrappers.dfy` holds the shared `Option` type.

Notes on what the code does, which the model follows:

- The first co-benefit option is always the Great Barrier Reef one. The
  wetlands option is the third, and its text is capitalised: "Wetlands: 5"
  (`ExampleSnapshot`).
- The update link's `beforeSerialize` adds `carbon_average` and
  `carbon_target` from the two inputs whether or not they are disabled, and it
  adds no `method_id` (`Row.UpdateLinkRequest`).
- The success callback of the session-token fetch assigns to the jQuery
  settings object it runs on, not to the behaviour, so the behaviour's token
  stays the placeholder `'blah'` (`Behavior.Attach`).
- The change listeners and the AJAX objects exist only on a row that `attach`
  has processed. Before that, changing the select or a carbon input changes
  only its value (`Row.ChangeMethod`, `Row.ChangeCarbonInput`), and no request
  is built (`Row.MethodUpdateRequest`, `Row.UpdateLinkRequest`).

## Model

| member | source | states |
|---|---|---|
| `CreateEstimateForm.CheckedIds` | src/Form/CreateEstimateForm.php:244 | an id is returned iff some checked box carries it |
| `CreateEstimateForm.TargetIds` | src/Form/CreateEstimateForm.php:245 | an id is returned iff some autocomplete value has it as `target_id`; values without one are skipped |
| `CreateEstimateForm.SubmittedIds` | src/Form/CreateEstimateForm.php:242-245 | in bulk mode (a truthy `bulk`) the ids are the checked boxes; otherwise they are the autocomplete `target_id`s |
| `CreateEstimateForm.LoadMultiple` | src/Form/CreateEstimateForm.php:246 | only ids that load appear, each with its entity; every requested id that loads appears; ids are distinct; the result is empty iff no requested id loads |
| `CreateEstimateForm.LoadMultipleOrder` | src/Form/CreateEstimateForm.php:246 | the loaded entities appear in the order in which their ids were first requested |
| `CreateEstimateForm.Normalised` | src/Form/CreateEstimateForm.php:253-259 | `auto_select_method` is never kept; `selected_method` is kept, unchanged, iff `auto_select_method` was falsy or missing; every other key is kept with its value |
| `CreateEstimateForm.SubmitForm` | src/Form/CreateEstimateForm.php:239-278 | the error "No assets selected." is returned, and no batch is built, iff no submitted id loads; otherwise there is exactly one operation per loaded asset, in asset order, each with that asset's id, the same project types and the normalised metadata |
| `CreateEstimateForm.BatchContext.CreateEstimateStep` | src/Form/CreateEstimateForm.php:285-299 | a truthy estimate id appends exactly one `{asset, estimate}` result and sets the "created" message; a failure leaves the results unchanged and sets the "failed" message; both name the asset's label |
| `CreateEstimateForm.RunBatch` | src/Form/CreateEstimateForm.php:292-298 | running the operations in order on one fresh context completes every operation and collects `Successes(ops)` |
| `CreateEstimateForm.BatchFinished` | src/Form/CreateEstimateForm.php:306-319 | a status message is produced iff the batch succeeded; it counts the results and is singular iff there is exactly one; the redirect to the estimates page happens in every case |
| `CreateEstimateForm.SuccessesConcat` | src/Form/CreateEstimateForm.php:292-293 | the results of running `a` then `b` are those of `a` followed by those of `b`, so results are in step order and a run can be split at any step |
| `CreateEstimateForm.SuccessesAreTheSuccessfulSteps` | src/Form/CreateEstimateForm.php:292-298 | every result is the `{asset, estimate}` pair of some successful step, and every successful step contributes its pair |
| `CreateEstimateForm.SuccessCount` | src/Form/CreateEstimateForm.php:292-298 | the number of results equals the number of successful steps; successful and failed steps together are all the steps |
| `CreateEstimateForm.ReportCountsSuccesses` | src/Form/CreateEstimateForm.php:306-313 | after a successful run of N operations with K failures, the finisher reports N - K created estimates |
| `CreateEstimateForm.AtMostOneEstimatePerAsset` | src/Form/CreateEstimateForm.php:262-268 | for the operations of one submission, the results name distinct assets, all among the loaded ones |
| `EstimateTable.IntegerPart` | js/estimate_table.js:53 | `parseInt` of a number truncates toward zero: the result is within 1 of it, on the zero side |
| `EstimateTable.FindEstimate` | js/estimate_table.js:33-34 | the index found holds the selected `method_id` and no earlier entry does; nothing is found iff no entry has it |
| `EstimateTable.DeriveUsesFirstMatch` | js/estimate_table.js:34 | entries after the first one for the selected method change nothing that is displayed |
| `EstimateTable.CoBenefitOptions` | js/estimate_table.js:55-63 | exactly seven options with distinct values in the fixed key order, from `great_barrier_reef` to `summary`; the last reads "Summary: " and the summary value |
| `EstimateTable.BuildCoBenefitSelect` | js/estimate_table.js:72-82 | the loop appends, for each co-benefit in order, the option whose value is the key and whose text is "Label: estimate[key]" |
| `EstimateTable.Derive` | js/estimate_table.js:27-92 | both carbon inputs are disabled iff the selected value is not `soc-measure`; the ACCU text is the integer part of the first matching entry's `annual`; with an LRF column the cell is the seven-option select when that entry's `summary` is truthy and `N/A` otherwise; there is an LRF cell iff the column exists |
| `EstimateTable.ExampleSnapshot` | js/estimate_table.js:53-91 | for a two-entry snapshot, method "a" shows 120 and a select whose first option is "Great barrier reef: undefined" and whose third is "Wetlands: 5"; method "b" shows 80 and `N/A` |
| `EstimateTable.Row.UpdateSelection` | js/estimate_table.js:27-92 | the row then displays `Derive` of the selected method; with no LRF column there is still none; the selection, input values and link classes are unchanged |
| `EstimateTable.Row.ChangeMethod` | js/estimate_table.js:95-98 | selecting a method always records it; on an attached row the displayed fields are recomputed from it, on a row not yet attached they stay as they were; the link classes and input values never change |
| `EstimateTable.Row.Attach` | js/estimate_table.js:95-101 | the first attach updates the row for its current selection; once attached, later attaches leave the row unchanged |
| `EstimateTable.Row.ChangeCarbonInput` | js/estimate_table.js:124-130 | the changed input takes the new value and the other keeps its own; on an attached row `active` is added to the update link's classes, on a row not yet attached the classes are unchanged; when `active` is already there the classes stay the same; nothing displayed changes |
| `EstimateTable.Row.MethodUpdateRequest` | js/estimate_table.js:103-120 | a request exists iff the row is attached; its URL is `looc-c/estimates/{estimate_id}/update?token={token}` under the base path; its data gains `method_id` equal to the selected value and keeps every other entry |
| `EstimateTable.Row.UpdateLinkRequest` | js/estimate_table.js:138-160 | a request exists iff the row is attached; its URL is the link's href followed by `?token=` and the token; its data gains `carbon_average` and `carbon_target` from this row's inputs and keeps every other entry |
| `EstimateTable.Behavior.constructor` | js/estimate_table.js:9 | the token starts as null |
| `EstimateTable.Behavior.Attach` | js/estimate_table.js:10-24 | a falsy token becomes the placeholder `'blah'` and a set token is kept, so the token is set afterwards; every row is then attached, and rows not yet processed display `Derive` of their selection |
| `AccuEstimates.GroupedSnoc` | src/Plugin/views/field/ACCUEstimates.php:65-66 | appending one row appends it to the group of its own `estimate_id` (creating the group if needed) and leaves every other group unchanged |
| `AccuEstimates.GetAccuEstimates` | src/Plugin/views/field/ACCUEstimates.php:54-70 | the loop's map equals `Grouped(rows)`: one entry per `estimate_id` present, holding exactly that id's rows in query order |
| `AccuEstimates.GroupKeys` | src/Plugin/views/field/ACCUEstimates.php:63-67 | the keys are exactly the `estimate_id`s of the rows, and no group is empty |
| `AccuEstimates.EveryRowInItsGroup` | src/Plugin/views/field/ACCUEstimates.php:64-66 | every row is in the group keyed by its own `estimate_id`, and every group holds only rows of its key |
| `AccuEstimates.FilterConcat` | src/Plugin/views/field/ACCUEstimates.php:64-66 | splitting the query result splits every group the same way, so rows keep their relative order within a group |
| `AccuEstimates.GroupsConcatenateToRows` | src/Plugin/views/field/ACCUEstimates.php:57-67 | with the rows ordered by `estimate_id`, listing the groups in key order gives back the rows, so the items of all groups together are exactly as many as the rows |
| `AccuEstimates.AccuEstimatesField.Init` | src/Plugin/views/field/ACCUEstimates.php:20-23 | the field stores the grouping of the rows the query returned |
| `AccuEstimates.AccuEstimatesField.Query` | src/Plugin/views/field/ACCUEstimates.php:28-30 | the view's query is left as it was |
| `AccuEstimates.AccuEstimatesField.GetItems` | src/Plugin/views/field/ACCUEstimates.php:42-46 | the items are the rows of that estimate id in query order, and empty when the id has no group |
| `AccuEstimates.RenderItem` | src/Plugin/views/field/ACCUEstimates.php:35-37 | the text is `method_id`, then ": ", then `annual`, then " (", then `project`, then ")" |

## Left out

- Form building (`buildForm`) and the `assetSelectionCallback` AJAX wrapper: render arrays and an entity query, with no stateable behaviour.
- Entity loading: `Asset::loadMultiple` and `Asset::load` are an oracle from ids to optional assets. Access checks and caching are not modelled.
- `Checkboxes::getCheckedCheckboxes` is modelled as "the ids of the checked boxes, in form order"; how the form API encodes an unchecked box is not modelled.
- The estimation service (`createEstimate`) and `methodOptions`: their implementation is not part of this model. The estimator is an oracle returning an optional estimate id; None stands for any falsy return.
- `LooccClient::$projectTypes` is not part of this model; the project types are a parameter passed through unchanged.
- `batch_set` and the batch's title and progress texts, translation, and the wording of `formatPlural`. Only the singular-or-plural choice by count is kept, with the English rule (singular iff the count is 1). The redirect is reduced to its route name.
- The batch API's scheduling between requests and its abort path: `RunBatch` runs the steps in one go, and the finisher takes `success` as a parameter.
- `CreateEstimateForm.BatchContext.CreateEstimateStep`: requires the asset to load, because the step reads the asset's label unconditionally and the PHP call would fail on a missing asset.
- The database select in `getAccuEstimates`: its output is the input sequence of rows. Its ordering by `estimate_id` is a precondition of `GroupsConcatenateToRows` only. The PHP conversion of numeric-string keys to integers is taken as given (ids are integers).
- `ACCUEstimates` rendering beyond `render_item` (the list formatting inherited from the parent views field) is not modelled.
- The synchronous `session/token` fetch and what it returns. Only the init-once guard is modelled.
- `EstimateTable.Row.MethodUpdateRequest` and `EstimateTable.Row.UpdateLinkRequest`: take the token as a parameter. The callbacks read `this.csrfToken` from the callback's own receiver, not from the behaviour, and the model does not say which text the browser substitutes there.
- Sending the AJAX requests, the `RefreshView` trigger, the view refresh and the ordering of in-flight requests: I/O and concurrency. Only the URL and data each handler builds are modelled.
- `toLocaleString` and the conversion of numbers to text are the abstract `Formatter`. `parseInt` is modelled on numbers as truncation toward zero; its behaviour on numbers written in exponent notation, and on non-numbers, is not modelled.
- `EstimateTable.IntegerPart`: returns the integer 0 for an `annual` strictly between -1 and 0, where JavaScript's `parseInt` gives negative zero and `toLocaleString` displays "-0". The model has no negative zero, so the ACCU text it derives for such a value is that of 0, not "-0".
- DOM details: element creation, CSS classes of the select, `innerHTML`, the `onclick` override of the update link, and the `disabled` attribute's string value.
- `EstimateTable.Row.UpdateSelection` and `EstimateTable.Derive`: require a snapshot entry for the selected method, because the code reads `estimate.annual` unconditionally and would throw without one.
- `EstimateTable.Row.ChangeCarbonInput`: the new input value is set by the browser before the listener runs; the model sets it in the same method.
