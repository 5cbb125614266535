/**
  The decision logic of the Painless category script embedded in every
  category-aware body: a document scores the weight of its category when the
  weights name it, and 0.0 in every other case.
 */
module CategoryScript {
  import opened Wrappers

  /**
    The script's value for one document. `category` is the document's values of
    `fast_text_category_name` as Elasticsearch hands them to the script (None
    when the field is missing); `weights` is the `category_weights` parameter
    (None when it is absent or null). The document's category is its first
    value.
   */
  function Score(category: Option<seq<string>>, weights: Option<map<string, int>>): (r: real)
    ensures category.None? || category == Some([]) ==> r == 0.0
    ensures weights.None? || weights == Some(map[]) ==> r == 0.0
    ensures category.Some? && |category.value| > 0 && weights.Some? && category.value[0] in weights.value
      ==> r == weights.value[category.value[0]] as real
    ensures category.Some? && |category.value| > 0 && weights.Some? && category.value[0] !in weights.value ==> r == 0.0
  {
    if category.None? || |category.value| == 0 then 0.0
    else if weights.None? || |weights.value| == 0 then 0.0
    else
      var name := category.value[0];
      if name in weights.value then weights.value[name] as real
      else 0.0
  }

  /** The same decision without the guard on empty weights: looking a label up in no weights finds nothing. */
  function ScoreByLookup(category: Option<seq<string>>, weights: Option<map<string, int>>): real
  {
    match (category, weights)
    case (Some(values), Some(w)) => if |values| > 0 && values[0] in w then w[values[0]] as real else 0.0
    case _ => 0.0
  }

  /** The empty-weights guard of the script never changes its value. */
  lemma ScoreIsLookup(category: Option<seq<string>>, weights: Option<map<string, int>>)
    ensures Score(category, weights) == ScoreByLookup(category, weights)
  {
    if category.Some? && |category.value| > 0 && weights == Some(map[]) {
      assert category.value[0] !in weights.value;
    }
  }

  /** The script value is 0.0 or one of the given weights, and a nonzero value is the weight of the document's category. */
  lemma ScoreIsAWeight(category: Option<seq<string>>, weights: Option<map<string, int>>)
    ensures Score(category, weights) != 0.0 ==>
      && category.Some? && |category.value| > 0
      && weights.Some? && category.value[0] in weights.value
      && Score(category, weights) == weights.value[category.value[0]] as real
  {
  }

  /** With weights that give every listed name 1, a document scores 1.0 exactly when its category is listed, else 0.0. */
  lemma ScoreWithUnitWeights(category: Option<seq<string>>, weights: map<string, int>)
    requires forall k | k in weights :: weights[k] == 1
    ensures Score(category, Some(weights)) == 1.0 <==> category.Some? && |category.value| > 0 && category.value[0] in weights
    ensures Score(category, Some(weights)) == 0.0 <==> !(category.Some? && |category.value| > 0 && category.value[0] in weights)
  {
  }
}
