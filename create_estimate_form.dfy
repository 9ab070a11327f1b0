/**
 * Batch creation of LOOC-C estimates (src/Form/CreateEstimateForm.php):
 * resolving the submitted land assets, normalising the project metadata,
 * building one batch operation per asset, the per-asset batch step that
 * updates the batch context, and the finisher.
 *
 * Entity loading and the external estimation service are oracles passed
 * in as functions; the batch scheduler that runs the operations one after
 * another is modelled by RunBatch.
 */
module CreateEstimateForm {
  import opened Wrappers

  type AssetId = int

  /** Estimate ids are database serials, so every id the estimator hands back is truthy. */
  type EstimateId = x: int | x > 0 witness 1

  type ProjectType = string

  /** A loaded land asset; only its label (`label()`) is used here. */
  datatype Asset = Asset(name: string)

  /** An entry of the array returned by `Asset::loadMultiple`: the requested id and the entity. */
  datatype LoadedAsset = LoadedAsset(id: AssetId, asset: Asset)

  /** A PHP scalar as the form API submits it. */
  datatype PhpValue = Null | Bool(b: bool) | Int(i: int) | Str(s: string)

  /** PHP's conversion to boolean. */
  predicate Truthy(v: PhpValue) {
    match v
    case Null => false
    case Bool(b) => b
    case Int(i) => i != 0
    case Str(s) => s != "" && s != "0"
  }

  /** The submitted `metadata` fieldset, keyed by element name. */
  type Metadata = map<string, PhpValue>

  const AutoSelectMethod := "auto_select_method"
  const SelectedMethod := "selected_method"

  /** Reading `$array[$key]`: a missing key reads as NULL. */
  function Lookup(m: Metadata, key: string): PhpValue {
    if key in m then m[key] else Null
  }

  /** One checkbox of the bulk asset selection. */
  datatype Checkbox = Checkbox(id: AssetId, checked: bool)

  /** One value of the entity autocomplete; `target_id` may be absent. */
  datatype AutocompleteItem = AutocompleteItem(targetId: Option<AssetId>)

  /** The submitted form values this handler reads. */
  datatype Submission = Submission(
    bulk: PhpValue,
    assetBulk: seq<Checkbox>,
    asset: seq<AutocompleteItem>,
    metadata: Metadata)

  /** `Asset::load`: the entity with this id, if there is one. */
  type Loader = AssetId -> Option<Asset>

  /** `createEstimate(asset, project types, metadata)`: the new estimate id, or None for a falsy return. */
  type Estimator = (Option<Asset>, seq<ProjectType>, Metadata) -> Option<EstimateId>

  /** `Checkboxes::getCheckedCheckboxes`: the ids of the checked boxes, in form order. */
  function CheckedIds(boxes: seq<Checkbox>): (ids: seq<AssetId>)
    ensures forall id :: id in ids <==> exists b :: b in boxes && b.checked && b.id == id
    ensures |ids| <= |boxes|
  {
    if boxes == [] then []
    else (if boxes[0].checked then [boxes[0].id] else []) + CheckedIds(boxes[1..])
  }

  /** `array_column($items, 'target_id')`: the target ids, skipping items without one. */
  function TargetIds(items: seq<AutocompleteItem>): (ids: seq<AssetId>)
    ensures forall id :: id in ids <==> AutocompleteItem(Some(id)) in items
    ensures |ids| <= |items|
  {
    if items == [] then []
    else (match items[0].targetId case Some(id) => [id] case None => []) + TargetIds(items[1..])
  }

  /** The asset ids the form submitted: the checked boxes in bulk mode, the autocomplete otherwise. */
  function SubmittedIds(s: Submission): (ids: seq<AssetId>)
    ensures Truthy(s.bulk) ==>
      forall id :: id in ids <==> exists b :: b in s.assetBulk && b.checked && b.id == id
    ensures !Truthy(s.bulk) ==>
      forall id :: id in ids <==> AutocompleteItem(Some(id)) in s.asset
  {
    if Truthy(s.bulk) then CheckedIds(s.assetBulk) else TargetIds(s.asset)
  }

  function IdsOf(assets: seq<LoadedAsset>): set<AssetId> {
    set e | e in assets :: e.id
  }

  ghost predicate DistinctIds(assets: seq<LoadedAsset>) {
    forall i, j :: 0 <= i < j < |assets| ==> assets[i].id != assets[j].id
  }

  /** The position at which `x` is first requested in `ids`, or `|ids|` when it never is. */
  function FirstIndex(ids: seq<AssetId>, x: AssetId): (r: nat)
    ensures r <= |ids|
    ensures r == |ids| <==> x !in ids
    ensures r < |ids| ==> ids[r] == x && x !in ids[..r]
  {
    if ids == [] then 0
    else
      var earlier := ids[..|ids| - 1];
      if x in earlier then FirstIndex(earlier, x)
      else if ids[|ids| - 1] == x then |ids| - 1
      else |ids|
  }

  /**
   * `Asset::loadMultiple($ids)`: the entities that exist, keyed by id, so each id
   * at most once, in the order in which the ids were first requested.
   */
  function LoadMultiple(load: Loader, ids: seq<AssetId>): (assets: seq<LoadedAsset>)
    ensures forall e :: e in assets ==> e.id in ids && load(e.id) == Some(e.asset)
    ensures forall id :: id in ids && load(id).Some? ==> id in IdsOf(assets)
    ensures DistinctIds(assets)
    ensures assets == [] <==> forall id :: id in ids ==> load(id).None?
  {
    if ids == [] then []
    else
      var earlier := ids[..|ids| - 1];
      var id := ids[|ids| - 1];
      var prefix := LoadMultiple(load, earlier);
      if load(id).Some? && id !in earlier then prefix + [LoadedAsset(id, load(id).value)]
      else prefix
  }

  /** The entities of `assets` appear in the order in which their ids were first requested in `ids`. */
  ghost predicate InRequestOrder(ids: seq<AssetId>, assets: seq<LoadedAsset>) {
    forall i, j :: 0 <= i < j < |assets| ==> FirstIndex(ids, assets[i].id) < FirstIndex(ids, assets[j].id)
  }

  /** The first-request order survives one more requested id, which at most appends its own entity. */
  lemma OrderStep(earlier: seq<AssetId>, id: AssetId, prefix: seq<LoadedAsset>, assets: seq<LoadedAsset>)
    requires forall e :: e in prefix ==> e.id in earlier
    requires InRequestOrder(earlier, prefix)
    requires assets == prefix || (id !in earlier && |assets| == |prefix| + 1 && assets[..|prefix|] == prefix && assets[|prefix|].id == id)
    ensures InRequestOrder(earlier + [id], assets)
  {
  }

  /** `LoadMultiple` keeps the entities in the order in which their ids were first requested. */
  lemma {:induction false} LoadMultipleOrder(load: Loader, ids: seq<AssetId>)
    ensures InRequestOrder(ids, LoadMultiple(load, ids))
  {
    if ids != [] {
      var earlier := ids[..|ids| - 1];
      var id := ids[|ids| - 1];
      var prefix := LoadMultiple(load, earlier);
      LoadMultipleOrder(load, earlier);
      if load(id).Some? && id !in earlier {
        var assets := prefix + [LoadedAsset(id, load(id).value)];
        assert assets[..|prefix|] == prefix;
        OrderStep(earlier, id, prefix, assets);
      } else {
        OrderStep(earlier, id, prefix, prefix);
      }
      assert ids == earlier + [id];
    }
  }

  /**
   * The metadata handed to every operation: `selected_method` is dropped when
   * `auto_select_method` is truthy, `auto_select_method` is always dropped, and
   * every other entry is kept as submitted.
   */
  function Normalised(m: Metadata): (r: Metadata)
    ensures AutoSelectMethod !in r
    ensures SelectedMethod in r <==> SelectedMethod in m && !Truthy(Lookup(m, AutoSelectMethod))
    ensures SelectedMethod in r ==> r[SelectedMethod] == m[SelectedMethod]
    ensures forall k :: k != AutoSelectMethod && k != SelectedMethod ==> (k in r <==> k in m)
    ensures forall k :: k in r && k != SelectedMethod ==> r[k] == m[k]
  {
    var kept := if Truthy(Lookup(m, AutoSelectMethod)) then m - {SelectedMethod} else m;
    kept - {AutoSelectMethod}
  }

  /** The arguments of one `createLooccEstimateBatch` operation. */
  datatype Operation = Operation(assetId: AssetId, projectTypes: seq<ProjectType>, metadata: Metadata)

  /** What submitting the form does: an error message, or a batch with these operations. */
  datatype Submitted = NoAssets(error: string) | BatchSet(operations: seq<Operation>)

  const NoAssetsError := "No assets selected."

  ghost predicate OneOperationPerAsset(
    ops: seq<Operation>, assets: seq<LoadedAsset>, projectTypes: seq<ProjectType>, metadata: Metadata)
  {
    && |ops| == |assets|
    && forall i :: 0 <= i < |ops| ==> ops[i] == Operation(assets[i].id, projectTypes, metadata)
  }

  /**
   * `submitForm`: stops with "No assets selected." when no submitted id loads;
   * otherwise one operation per loaded asset, in asset order, each with the
   * same project types and the normalised metadata.
   */
  method SubmitForm(s: Submission, load: Loader, projectTypes: seq<ProjectType>) returns (out: Submitted)
    ensures out.NoAssets? <==> LoadMultiple(load, SubmittedIds(s)) == []
    ensures out.NoAssets? ==> out.error == NoAssetsError
    ensures out.BatchSet? ==>
      OneOperationPerAsset(out.operations, LoadMultiple(load, SubmittedIds(s)), projectTypes, Normalised(s.metadata))
  {
    var bulk := Truthy(s.bulk);
    var assetIds := if bulk then CheckedIds(s.assetBulk) else TargetIds(s.asset);
    var assets := LoadMultiple(load, assetIds);
    if assets == [] {
      return NoAssets(NoAssetsError);
    }

    var metadata := s.metadata;
    if Truthy(Lookup(metadata, AutoSelectMethod)) {
      metadata := metadata - {SelectedMethod};
    }
    metadata := metadata - {AutoSelectMethod};

    var operations := [];
    var i := 0;
    while i < |assets|
      invariant 0 <= i <= |assets|
      invariant OneOperationPerAsset(operations, assets[..i], projectTypes, metadata)
    {
      operations := operations + [Operation(assets[i].id, projectTypes, metadata)];
      i := i + 1;
    }
    assert assets[..i] == assets;
    return BatchSet(operations);
  }

  /** One entry of `$context['results']`. */
  datatype BatchResult = BatchResult(asset: AssetId, estimate: EstimateId)

  /** `$context['message']`. */
  datatype StepMessage = NoMessage | Created(assetName: string) | Failed(assetName: string)

  /** What the estimator returns for one operation. */
  function StepEstimate(op: Operation, load: Loader, estimate: Estimator): Option<EstimateId> {
    estimate(load(op.assetId), op.projectTypes, op.metadata)
  }

  /** The results a run of `ops` collects: one entry per successful step, in step order. */
  function Successes(ops: seq<Operation>, load: Loader, estimate: Estimator): seq<BatchResult> {
    if ops == [] then []
    else
      var last := ops[|ops| - 1];
      var earlier := Successes(ops[..|ops| - 1], load, estimate);
      match StepEstimate(last, load, estimate)
      case Some(id) => earlier + [BatchResult(last.assetId, id)]
      case None => earlier
  }

  /** The batch API's `$context`, which `createLooccEstimateBatch` updates by reference. */
  class BatchContext {
    var results: seq<BatchResult>
    var message: StepMessage

    constructor ()
      ensures results == [] && message == NoMessage
    {
      results := [];
      message := NoMessage;
    }

    /**
     * `createLooccEstimateBatch`: a truthy estimate id appends exactly one
     * `{asset, estimate}` entry; a failure leaves the results alone. Both
     * overwrite the message. The asset must load, as its label is read.
     */
    method CreateEstimateStep(op: Operation, load: Loader, estimate: Estimator)
      requires load(op.assetId).Some?
      modifies this
      ensures match StepEstimate(op, load, estimate)
        case Some(id) =>
          results == old(results) + [BatchResult(op.assetId, id)] && message == Created(load(op.assetId).value.name)
        case None =>
          results == old(results) && message == Failed(load(op.assetId).value.name)
    {
      var asset := load(op.assetId);
      var estimateId := estimate(asset, op.projectTypes, op.metadata);
      if estimateId.Some? {
        results := results + [BatchResult(op.assetId, estimateId.value)];
        message := Created(asset.value.name);
      } else {
        message := Failed(asset.value.name);
      }
    }
  }

  /**
   * The batch API running the operations one at a time on one context: every
   * operation is run, and the results are exactly the successes in step order.
   */
  method RunBatch(ops: seq<Operation>, load: Loader, estimate: Estimator)
    returns (results: seq<BatchResult>, completed: nat)
    requires forall op :: op in ops ==> load(op.assetId).Some?
    ensures completed == |ops|
    ensures results == Successes(ops, load, estimate)
  {
    var context := new BatchContext();
    completed := 0;
    while completed < |ops|
      invariant completed <= |ops|
      invariant context.results == Successes(ops[..completed], load, estimate)
    {
      context.CreateEstimateStep(ops[completed], load, estimate);
      assert ops[..completed + 1][..completed] == ops[..completed];
      completed := completed + 1;
    }
    assert ops[..completed] == ops;
    results := context.results;
  }

  /** The status message: the number of estimates created, singular when it is one. */
  datatype StatusMessage = EstimatesCreated(count: nat, singular: bool)

  /** The finisher's effect: an optional status message and the redirect route. */
  datatype Finished = Finished(status: Option<StatusMessage>, redirect: string)

  const EstimatesRoute := "view.farm_loocc_estimates.page"

  /**
   * `createLooccEstimateBatchfinished`: a count of the results only when the
   * batch succeeded, and a redirect to the estimates page in every case.
   */
  function BatchFinished(success: bool, results: seq<BatchResult>): (f: Finished)
    ensures f.redirect == EstimatesRoute
    ensures f.status.Some? <==> success
    ensures f.status.Some? ==> f.status.value.count == |results|
    ensures f.status.Some? ==> (f.status.value.singular <==> |results| == 1)
  {
    if success then Finished(Some(EstimatesCreated(|results|, |results| == 1)), EstimatesRoute)
    else Finished(None, EstimatesRoute)
  }

  ghost function SucceededSteps(ops: seq<Operation>, load: Loader, estimate: Estimator): set<nat> {
    set i | 0 <= i < |ops| && StepEstimate(ops[i], load, estimate).Some?
  }

  ghost function FailedSteps(ops: seq<Operation>, load: Loader, estimate: Estimator): set<nat> {
    set i | 0 <= i < |ops| && StepEstimate(ops[i], load, estimate).None?
  }

  /** Running `a` and then `b` collects the results of `a` followed by those of `b`. */
  lemma {:induction false} SuccessesConcat(a: seq<Operation>, b: seq<Operation>, load: Loader, estimate: Estimator)
    ensures Successes(a + b, load, estimate) == Successes(a, load, estimate) + Successes(b, load, estimate)
    decreases |b|
  {
    if b == [] {
      assert a + b == a;
    } else {
      var b' := b[..|b| - 1];
      assert (a + b)[..|a + b| - 1] == a + b';
      SuccessesConcat(a, b', load, estimate);
    }
  }

  /** Every result comes from a successful step, and every successful step left its result. */
  lemma {:induction false} SuccessesAreTheSuccessfulSteps(ops: seq<Operation>, load: Loader, estimate: Estimator)
    ensures forall r :: r in Successes(ops, load, estimate) ==>
      exists i :: 0 <= i < |ops| && ops[i].assetId == r.asset && StepEstimate(ops[i], load, estimate) == Some(r.estimate)
    ensures forall i :: 0 <= i < |ops| && StepEstimate(ops[i], load, estimate).Some? ==>
      BatchResult(ops[i].assetId, StepEstimate(ops[i], load, estimate).value) in Successes(ops, load, estimate)
  {
    if ops != [] {
      var earlier := ops[..|ops| - 1];
      SuccessesAreTheSuccessfulSteps(earlier, load, estimate);
      forall i | 0 <= i < |earlier| ensures ops[i] == earlier[i] { }
    }
  }

  /** The number of results is the number of successful steps. */
  lemma {:induction false} SuccessCount(ops: seq<Operation>, load: Loader, estimate: Estimator)
    ensures |Successes(ops, load, estimate)| == |SucceededSteps(ops, load, estimate)|
    ensures |SucceededSteps(ops, load, estimate)| + |FailedSteps(ops, load, estimate)| == |ops|
  {
    if ops == [] {
      assert SucceededSteps(ops, load, estimate) == {};
      assert FailedSteps(ops, load, estimate) == {};
    } else {
      var n := |ops| - 1;
      var earlier := ops[..n];
      SuccessCount(earlier, load, estimate);
      StepsExtend(ops, load, estimate);
    }
  }

  /** The step sets of `ops` are those of all but its last step, plus the last index. */
  lemma StepsExtend(ops: seq<Operation>, load: Loader, estimate: Estimator)
    requires ops != []
    ensures var n := |ops| - 1;
      var s, f := SucceededSteps(ops[..n], load, estimate), FailedSteps(ops[..n], load, estimate);
      && n !in s && n !in f
      && (StepEstimate(ops[n], load, estimate).Some? ==>
            SucceededSteps(ops, load, estimate) == s + {n} && FailedSteps(ops, load, estimate) == f)
      && (StepEstimate(ops[n], load, estimate).None? ==>
            SucceededSteps(ops, load, estimate) == s && FailedSteps(ops, load, estimate) == f + {n})
  {
  }

  /**
   * A successful run of N operations of which K fail reports N - K created
   * estimates, and redirects to the estimates page.
   */
  lemma ReportCountsSuccesses(ops: seq<Operation>, load: Loader, estimate: Estimator)
    ensures var f := BatchFinished(true, Successes(ops, load, estimate));
      && f.status.Some?
      && f.status.value.count + |FailedSteps(ops, load, estimate)| == |ops|
      && f.redirect == EstimatesRoute
  {
    SuccessCount(ops, load, estimate);
  }

  /**
   * The operations of one submission name each loaded asset once, so the run
   * creates at most one estimate per asset: the results name distinct assets,
   * all of them among the loaded ones.
   */
  lemma {:induction false} AtMostOneEstimatePerAsset(
    ops: seq<Operation>, assets: seq<LoadedAsset>, projectTypes: seq<ProjectType>, metadata: Metadata,
    load: Loader, estimate: Estimator)
    requires DistinctIds(assets)
    requires OneOperationPerAsset(ops, assets, projectTypes, metadata)
    ensures forall r :: r in Successes(ops, load, estimate) ==> r.asset in IdsOf(assets)
    ensures forall i, j :: 0 <= i < j < |Successes(ops, load, estimate)| ==>
      Successes(ops, load, estimate)[i].asset != Successes(ops, load, estimate)[j].asset
  {
    if ops != [] {
      var n := |ops| - 1;
      AtMostOneEstimatePerAsset(ops[..n], assets[..n], projectTypes, metadata, load, estimate);
      ResultsFromEarlierAssets(ops[..n], assets[..n], projectTypes, metadata, load, estimate);
      assert forall e :: e in assets[..n] ==> e in assets;
      assert forall k :: 0 <= k < n ==> assets[k].id != assets[n].id;
    }
  }

  /** The results of a run name only assets of its operations. */
  lemma {:induction false} ResultsFromEarlierAssets(
    ops: seq<Operation>, assets: seq<LoadedAsset>, projectTypes: seq<ProjectType>, metadata: Metadata,
    load: Loader, estimate: Estimator)
    requires OneOperationPerAsset(ops, assets, projectTypes, metadata)
    ensures forall r :: r in Successes(ops, load, estimate) ==> exists k :: 0 <= k < |assets| && assets[k].id == r.asset
  {
    SuccessesAreTheSuccessfulSteps(ops, load, estimate);
  }
}
