/**
  The collapse of a keyword's category-weight records into the weights the
  category-aware bodies carry: every boosted category name maps to 1, and a
  keyword without records gets no weights.
 */
module Weights {
  import opened Wrappers
  import opened Json
  import CategoryScript

  /** One parsed category-weight record; only these two of its fields are read. */
  datatype CategoryWeight = CategoryWeight(hoianCategoryName: string, isBoost: bool)

  /** A Python dictionary: its entries in insertion order. */
  type Dict = seq<(string, int)>

  function KeysOf(d: Dict): (ks: seq<string>)
    ensures |ks| == |d| && forall i :: 0 <= i < |d| ==> ks[i] == d[i].0
  {
    seq(|d|, i requires 0 <= i < |d| => d[i].0)
  }

  predicate DistinctKeys(d: Dict)
  {
    forall i, j :: 0 <= i < j < |d| ==> d[i].0 != d[j].0
  }

  /** The position of the first entry with key `k`, or `|d|` when there is none. */
  function Find(d: Dict, k: string): (i: nat)
    ensures i <= |d| && (i < |d| ==> d[i].0 == k) && forall j :: 0 <= j < i ==> d[j].0 != k
    ensures i == |d| <==> k !in KeysOf(d)
    decreases |d|
  {
    if d == [] then 0
    else if d[0].0 == k then 0
    else 1 + Find(d[1..], k)
  }

  /** Dictionary assignment: an existing key keeps its place and takes the new value; a new key goes last. */
  function Assign(d: Dict, k: string, v: int): (r: Dict)
    ensures k !in KeysOf(d) ==> r == d + [(k, v)]
    ensures k in KeysOf(d) ==>
      && |r| == |d| && KeysOf(r) == KeysOf(d)
      && r[Find(d, k)] == (k, v)
      && forall j :: 0 <= j < |d| && j != Find(d, k) ==> r[j] == d[j]
  {
    var i := Find(d, k);
    if i < |d| then
      var r := d[i := (k, v)];
      assert KeysOf(r) == KeysOf(d);
      r
    else d + [(k, v)]
  }

  /** The names of the boosted records, in record order. */
  function BoostedNames(records: seq<CategoryWeight>): (names: seq<string>)
    ensures forall x :: x in names <==> exists i :: 0 <= i < |records| && records[i].isBoost && records[i].hoianCategoryName == x
    decreases |records|
  {
    if records == [] then []
    else
      var rest := BoostedNames(records[1..]);
      assert forall i :: 0 < i < |records| ==> records[i] == records[1..][i - 1];
      if records[0].isBoost then [records[0].hoianCategoryName] + rest else rest
  }

  /** The dictionary comprehension, one record at a time, into the entries built so far. */
  function Comprehend(d: Dict, records: seq<CategoryWeight>): Dict
    decreases |records|
  {
    if records == [] then d
    else
      var d' := if records[0].isBoost then Assign(d, records[0].hoianCategoryName, 1) else d;
      Comprehend(d', records[1..])
  }

  /** The weights of one keyword: None stands for a missing or empty weights column. */
  function Collapse(categoryWeights: Option<seq<CategoryWeight>>): Dict
  {
    match categoryWeights
    case None => []
    case Some(records) => Comprehend([], records)
  }

  /** The weights as the script sees them. */
  function AsMap(d: Dict): (m: map<string, int>)
    ensures forall k :: k in m <==> k in KeysOf(d)
    decreases |d|
  {
    if d == [] then map[]
    else AsMap(d[..|d| - 1])[d[|d| - 1].0 := d[|d| - 1].1]
  }

  /** The weights as the request body carries them. */
  function ToJson(d: Dict): (j: Json)
    ensures j.Obj? && Keys(j) == KeysOf(d)
  {
    Obj(seq(|d|, i requires 0 <= i < |d| => (d[i].0, Int(d[i].1))))
  }

  // Properties

  lemma AssignKeeps(d: Dict, k: string, v: int)
    requires DistinctKeys(d)
    ensures DistinctKeys(Assign(d, k, v))
    ensures forall x :: x in KeysOf(Assign(d, k, v)) <==> x in KeysOf(d) || x == k
  {
    var r := Assign(d, k, v);
    if k in KeysOf(d) {
      assert forall i :: 0 <= i < |r| ==> r[i].0 == d[i].0;
      assert KeysOf(r) == KeysOf(d);
    } else {
      assert forall i :: 0 <= i < |d| ==> r[i] == d[i];
      assert KeysOf(r) == KeysOf(d) + [k];
    }
  }

  /** Folding in records keeps the keys distinct and every value 1, and adds exactly the boosted names. */
  lemma {:induction false} ComprehendInvariant(d: Dict, records: seq<CategoryWeight>)
    requires DistinctKeys(d)
    requires forall i :: 0 <= i < |d| ==> d[i].1 == 1
    ensures DistinctKeys(Comprehend(d, records))
    ensures forall i :: 0 <= i < |Comprehend(d, records)| ==> Comprehend(d, records)[i].1 == 1
    ensures forall x :: x in KeysOf(Comprehend(d, records)) <==> x in KeysOf(d) || x in BoostedNames(records)
    decreases |records|
  {
    if records != [] {
      var d' := if records[0].isBoost then Assign(d, records[0].hoianCategoryName, 1) else d;
      if records[0].isBoost {
        AssignKeeps(d, records[0].hoianCategoryName, 1);
      }
      ComprehendInvariant(d', records[1..]);
      assert BoostedNames(records) == (if records[0].isBoost then [records[0].hoianCategoryName] else []) + BoostedNames(records[1..]);
    }
  }

  /** The collapsed weights: the keys are exactly the boosted names, each once, and every value is 1; no records give no weights. */
  lemma CollapseSpec(categoryWeights: Option<seq<CategoryWeight>>)
    ensures DistinctKeys(Collapse(categoryWeights))
    ensures forall i :: 0 <= i < |Collapse(categoryWeights)| ==> Collapse(categoryWeights)[i].1 == 1
    ensures categoryWeights.Some? ==>
      forall x :: x in KeysOf(Collapse(categoryWeights)) <==> x in BoostedNames(categoryWeights.value)
    ensures categoryWeights.None? || categoryWeights == Some([]) ==> Collapse(categoryWeights) == []
  {
    if categoryWeights.Some? {
      ComprehendInvariant([], categoryWeights.value);
    }
  }

  lemma {:induction false} AsMapOfUnits(d: Dict)
    requires forall i :: 0 <= i < |d| ==> d[i].1 == 1
    ensures forall k | k in AsMap(d) :: AsMap(d)[k] == 1
    decreases |d|
  {
    if d != [] {
      AsMapOfUnits(d[..|d| - 1]);
    }
  }

  /** Under the collapsed weights a document's category score is 1.0 when its category is a boosted name of the keyword and 0.0 otherwise. */
  lemma CollapsedScore(category: Option<seq<string>>, categoryWeights: Option<seq<CategoryWeight>>)
    ensures CategoryScript.Score(category, Some(AsMap(Collapse(categoryWeights))))
      == if category.Some? && |category.value| > 0 && categoryWeights.Some? && category.value[0] in BoostedNames(categoryWeights.value)
         then 1.0 else 0.0
  {
    CollapseSpec(categoryWeights);
    AsMapOfUnits(Collapse(categoryWeights));
    CategoryScript.ScoreWithUnitWeights(category, AsMap(Collapse(categoryWeights)));
  }
}
