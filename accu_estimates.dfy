/**
 * The views field that lists the ACCU estimates of each base estimate
 * (src/Plugin/views/field/ACCUEstimates.php): grouping the rows of
 * `farm_loocc_accu_estimate` by `estimate_id`, looking a group up, and
 * rendering one item. The database select is the input sequence `rows`,
 * ordered by `estimate_id` as the query asks.
 */
module AccuEstimates {
  import opened Wrappers

  /** One row of `farm_loocc_accu_estimate`, with exactly the five selected columns. */
  datatype AccuEstimate = AccuEstimate(
    estimateId: int,
    methodId: string,
    annual: string,
    project: string,
    warningMessage: Option<string>)

  /** The rows of one base estimate, in query order. */
  function Filter(rows: seq<AccuEstimate>, id: int): (group: seq<AccuEstimate>)
    ensures forall x :: x in group ==> x in rows && x.estimateId == id
    ensures |group| <= |rows|
  {
    if rows == [] then []
    else
      var last := rows[|rows| - 1];
      Filter(rows[..|rows| - 1], id) + (if last.estimateId == id then [last] else [])
  }

  function EstimateIds(rows: seq<AccuEstimate>): set<int> {
    set x | x in rows :: x.estimateId
  }

  /** The intended grouping: one entry per estimate id present, holding that id's rows in order. */
  function Grouped(rows: seq<AccuEstimate>): map<int, seq<AccuEstimate>> {
    map id | id in EstimateIds(rows) :: Filter(rows, id)
  }

  /** Appending one row extends its own group and leaves every other group alone. */
  lemma GroupedSnoc(rows: seq<AccuEstimate>, x: AccuEstimate)
    ensures Grouped(rows + [x]) ==
      Grouped(rows)[x.estimateId := (if x.estimateId in Grouped(rows) then Grouped(rows)[x.estimateId] else []) + [x]]
  {
    var rows' := rows + [x];
    var id := x.estimateId;
    var g, g' := Grouped(rows), Grouped(rows');
    var expected := g[id := (if id in g then g[id] else []) + [x]];
    assert rows'[..|rows'| - 1] == rows;
    assert EstimateIds(rows') == EstimateIds(rows) + {id};
    assert g'.Keys == expected.Keys;
    forall k | k in g' ensures g'[k] == expected[k] {
      assert g'[k] == Filter(rows, k) + (if k == id then [x] else []);
      if k == id && id !in g {
        FilterAbsent(rows, id);
      }
    }
  }

  /** An id with no row has an empty group. */
  lemma {:induction false} FilterAbsent(rows: seq<AccuEstimate>, id: int)
    requires id !in EstimateIds(rows)
    ensures Filter(rows, id) == []
  {
    if rows != [] {
      var earlier := rows[..|rows| - 1];
      assert EstimateIds(earlier) <= EstimateIds(rows);
      FilterAbsent(earlier, id);
    }
  }

  /**
   * `getAccuEstimates`: appending each row, in query order, to the list of its
   * `estimate_id` yields the grouping.
   */
  method GetAccuEstimates(rows: seq<AccuEstimate>) returns (all: map<int, seq<AccuEstimate>>)
    ensures all == Grouped(rows)
  {
    all := map[];
    var i := 0;
    while i < |rows|
      invariant 0 <= i <= |rows|
      invariant all == Grouped(rows[..i])
    {
      var result := rows[i];
      var id := result.estimateId;
      GroupedSnoc(rows[..i], result);
      assert rows[..i + 1] == rows[..i] + [result];
      all := all[id := (if id in all then all[id] else []) + [result]];
      i := i + 1;
    }
    assert rows[..i] == rows;
  }

  /** The keys are exactly the estimate ids of the rows, and no group is empty. */
  lemma GroupKeys(rows: seq<AccuEstimate>)
    ensures Grouped(rows).Keys == EstimateIds(rows)
    ensures forall id :: id in Grouped(rows) ==> Grouped(rows)[id] != []
  {
    forall id | id in EstimateIds(rows) ensures Filter(rows, id) != [] {
      FilterPresent(rows, id);
    }
  }

  lemma {:induction false} FilterPresent(rows: seq<AccuEstimate>, id: int)
    requires id in EstimateIds(rows)
    ensures Filter(rows, id) != []
  {
    var last := rows[|rows| - 1];
    var earlier := rows[..|rows| - 1];
    if last.estimateId != id {
      var x :| x in rows && x.estimateId == id;
      assert x in earlier;
      FilterPresent(earlier, id);
    }
  }

  /** Every row appears in the group of its own estimate id, and only rows of that id appear there. */
  lemma {:induction false} EveryRowInItsGroup(rows: seq<AccuEstimate>)
    ensures forall i :: 0 <= i < |rows| ==>
      rows[i].estimateId in Grouped(rows) && rows[i] in Grouped(rows)[rows[i].estimateId]
    ensures forall id, x :: id in Grouped(rows) && x in Grouped(rows)[id] ==> x.estimateId == id
  {
    forall i | 0 <= i < |rows| ensures rows[i] in Filter(rows, rows[i].estimateId) {
      FilterHas(rows, i);
    }
  }

  lemma {:induction false} FilterHas(rows: seq<AccuEstimate>, i: nat)
    requires i < |rows|
    ensures rows[i] in Filter(rows, rows[i].estimateId)
  {
    if i < |rows| - 1 {
      var earlier := rows[..|rows| - 1];
      FilterHas(earlier, i);
    }
  }

  /** Splitting the query result splits every group the same way: rows keep their relative order. */
  lemma {:induction false} FilterConcat(a: seq<AccuEstimate>, b: seq<AccuEstimate>, id: int)
    ensures Filter(a + b, id) == Filter(a, id) + Filter(b, id)
    decreases |b|
  {
    if b == [] {
      assert a + b == a;
    } else {
      var b' := b[..|b| - 1];
      assert (a + b)[..|a + b| - 1] == a + b';
      FilterConcat(a, b', id);
    }
  }

  ghost predicate SortedById(rows: seq<AccuEstimate>) {
    forall i, j :: 0 <= i < j < |rows| ==> rows[i].estimateId <= rows[j].estimateId
  }

  /** The estimate ids in order of first appearance. */
  function KeyOrder(rows: seq<AccuEstimate>): (keys: seq<int>)
    ensures forall k :: k in keys <==> k in EstimateIds(rows)
    ensures forall i, j :: 0 <= i < j < |keys| ==> keys[i] != keys[j]
    ensures rows != [] ==> keys != []
  {
    if rows == [] then []
    else
      var earlier := rows[..|rows| - 1];
      var id := rows[|rows| - 1].estimateId;
      assert EstimateIds(rows) == EstimateIds(earlier) + {id};
      if id in EstimateIds(earlier) then KeyOrder(earlier) else KeyOrder(earlier) + [id]
  }

  /** With the rows ordered by estimate id, the last key is the last row's id. */
  lemma {:induction false} KeyOrderLast(rows: seq<AccuEstimate>)
    requires rows != [] && SortedById(rows)
    ensures KeyOrder(rows)[|KeyOrder(rows)| - 1] == rows[|rows| - 1].estimateId
  {
    var n := |rows| - 1;
    var earlier, x := rows[..n], rows[n];
    if x.estimateId in EstimateIds(earlier) {
      var y :| y in earlier && y.estimateId == x.estimateId;
      assert earlier[n - 1].estimateId == x.estimateId;
      KeyOrderLast(earlier);
    }
  }

  /** The groups listed one after another, in the given key order. */
  function Flatten(groups: map<int, seq<AccuEstimate>>, keys: seq<int>): seq<AccuEstimate>
    requires forall i :: 0 <= i < |keys| ==> keys[i] in groups
  {
    if keys == [] then []
    else Flatten(groups, keys[..|keys| - 1]) + groups[keys[|keys| - 1]]
  }

  lemma {:induction false} FlattenAgree(g1: map<int, seq<AccuEstimate>>, g2: map<int, seq<AccuEstimate>>, keys: seq<int>)
    requires forall i :: 0 <= i < |keys| ==> keys[i] in g1 && keys[i] in g2 && g1[keys[i]] == g2[keys[i]]
    ensures Flatten(g1, keys) == Flatten(g2, keys)
  {
    if keys != [] {
      FlattenAgree(g1, g2, keys[..|keys| - 1]);
    }
  }

  /**
   * With the rows ordered by estimate id, listing the groups in key order gives
   * back the rows: every row lands in exactly one group, so the items of all
   * groups together are as many as the rows.
   */
  lemma {:induction false} GroupsConcatenateToRows(rows: seq<AccuEstimate>)
    requires SortedById(rows)
    ensures forall i :: 0 <= i < |KeyOrder(rows)| ==> KeyOrder(rows)[i] in Grouped(rows)
    ensures Flatten(Grouped(rows), KeyOrder(rows)) == rows
    ensures |Flatten(Grouped(rows), KeyOrder(rows))| == |rows|
  {
    KeysAreGrouped(rows);
    if rows != [] {
      var n := |rows| - 1;
      var earlier, x := rows[..n], rows[n];
      assert rows == earlier + [x];
      GroupsConcatenateToRows(earlier);
      StepFlatten(earlier, x);
    }
  }

  lemma KeysAreGrouped(rows: seq<AccuEstimate>)
    ensures forall i :: 0 <= i < |KeyOrder(rows)| ==> KeyOrder(rows)[i] in Grouped(rows)
  {
  }

  /** One more row, in id order, appends it to the listing of the groups. */
  lemma StepFlatten(earlier: seq<AccuEstimate>, x: AccuEstimate)
    requires SortedById(earlier + [x])
    requires forall i :: 0 <= i < |KeyOrder(earlier)| ==> KeyOrder(earlier)[i] in Grouped(earlier)
    requires Flatten(Grouped(earlier), KeyOrder(earlier)) == earlier
    ensures Flatten(Grouped(earlier + [x]), KeyOrder(earlier + [x])) == earlier + [x]
  {
    var id := x.estimateId;
    if id in EstimateIds(earlier) {
      GroupedSnoc(earlier, x);
      assert id in Grouped(earlier);
      KeyOrderLast(earlier + [x]);
      StepKnownId(earlier, x);
    } else {
      GroupedSnoc(earlier, x);
      assert id !in Grouped(earlier);
      StepNewId(earlier, x);
    }
  }

  lemma StepKnownId(earlier: seq<AccuEstimate>, x: AccuEstimate)
    requires x.estimateId in EstimateIds(earlier)
    requires KeyOrder(earlier + [x])[|KeyOrder(earlier + [x])| - 1] == x.estimateId
    requires forall i :: 0 <= i < |KeyOrder(earlier)| ==> KeyOrder(earlier)[i] in Grouped(earlier)
    requires Grouped(earlier + [x]) ==
      Grouped(earlier)[x.estimateId := Grouped(earlier)[x.estimateId] + [x]]
    ensures Flatten(Grouped(earlier + [x]), KeyOrder(earlier + [x]))
      == Flatten(Grouped(earlier), KeyOrder(earlier)) + [x]
  {
    var rows := earlier + [x];
    assert rows[..|rows| - 1] == earlier;
    var g, keys := Grouped(earlier), KeyOrder(earlier);
    assert KeyOrder(rows) == keys;
    FlattenExtendLast(g, keys, x);
  }

  lemma StepNewId(earlier: seq<AccuEstimate>, x: AccuEstimate)
    requires x.estimateId !in EstimateIds(earlier)
    requires forall i :: 0 <= i < |KeyOrder(earlier)| ==> KeyOrder(earlier)[i] in Grouped(earlier)
    requires Grouped(earlier + [x]) == Grouped(earlier)[x.estimateId := [x]]
    ensures Flatten(Grouped(earlier + [x]), KeyOrder(earlier + [x]))
      == Flatten(Grouped(earlier), KeyOrder(earlier)) + [x]
  {
    var rows := earlier + [x];
    assert rows[..|rows| - 1] == earlier;
    var g, keys := Grouped(earlier), KeyOrder(earlier);
    assert KeyOrder(rows) == keys + [x.estimateId];
    FlattenAddKey(g, keys, x);
  }

  /** Appending a row to the group of the last key appends it to the listing. */
  lemma FlattenExtendLast(g: map<int, seq<AccuEstimate>>, keys: seq<int>, x: AccuEstimate)
    requires keys != [] && keys[|keys| - 1] == x.estimateId
    requires forall i, j :: 0 <= i < j < |keys| ==> keys[i] != keys[j]
    requires forall i :: 0 <= i < |keys| ==> keys[i] in g
    ensures var g' := g[x.estimateId := g[x.estimateId] + [x]];
      && (forall i :: 0 <= i < |keys| ==> keys[i] in g')
      && Flatten(g', keys) == Flatten(g, keys) + [x]
  {
    var g' := g[x.estimateId := g[x.estimateId] + [x]];
    var m := |keys| - 1;
    var front := keys[..m];
    assert forall i :: 0 <= i < m ==> front[i] == keys[i] && keys[i] != keys[m];
    FlattenAgree(g, g', front);
  }

  /** Appending a row with a new id as a one-row group under a new last key appends it to the listing. */
  lemma FlattenAddKey(g: map<int, seq<AccuEstimate>>, keys: seq<int>, x: AccuEstimate)
    requires x.estimateId !in keys
    requires forall i :: 0 <= i < |keys| ==> keys[i] in g
    ensures var g', keys' := g[x.estimateId := [x]], keys + [x.estimateId];
      && (forall i :: 0 <= i < |keys'| ==> keys'[i] in g')
      && Flatten(g', keys') == Flatten(g, keys) + [x]
  {
    var g', keys' := g[x.estimateId := [x]], keys + [x.estimateId];
    assert keys'[..|keys|] == keys;
    FlattenAgree(g, g', keys);
  }

  /** A view query, reduced to the columns and tables it selects. */
  datatype ViewQuery = ViewQuery(fields: seq<string>, tables: seq<string>)

  /** The field plugin, holding the grouping computed when it is initialised. */
  class AccuEstimatesField {
    var accuEstimates: map<int, seq<AccuEstimate>>
    ghost var queried: seq<AccuEstimate>

    ghost predicate Valid()
      reads this
    {
      accuEstimates == Grouped(queried)
    }

    /** `init`: stores the grouping of the rows the database select returned. */
    constructor Init(rows: seq<AccuEstimate>)
      ensures Valid() && queried == rows
    {
      var all := GetAccuEstimates(rows);
      queried := rows;
      accuEstimates := all;
    }

    /** `query`: this field adds nothing to the view's query. */
    method Query(query: ViewQuery) returns (result: ViewQuery)
      ensures result == query
    {
      result := query;
    }

    /** `getItems`: the ACCU estimates of this row's base estimate, in query order; none for an unknown id. */
    function GetItems(estimateId: int): (items: seq<AccuEstimate>)
      reads this
      requires Valid()
      ensures items == Filter(queried, estimateId)
      ensures estimateId !in EstimateIds(queried) ==> items == []
    {
      if estimateId in accuEstimates then accuEstimates[estimateId]
      else FilterAbsent(queried, estimateId); []
    }
  }

  /** `render_item`: "method: annual (project)". */
  function RenderItem(item: AccuEstimate): (text: string)
    ensures |text| == |item.methodId| + |item.annual| + |item.project| + 5
    ensures text[..|item.methodId| + 2] == item.methodId + ": "
    ensures text[|item.methodId| + 2..|text| - |item.project| - 3] == item.annual
    ensures text[|text| - |item.project| - 3..] == " (" + item.project + ")"
  {
    item.methodId + ": " + item.annual + " (" + item.project + ")"
  }
}
