/**
  The five request bodies sent to the ad catalog-product search index: the
  deployed query, the catalog-id "terms" query, and three category-match
  variants that add the category script to the score.
 */
module Dsls {
  import opened Wrappers
  import opened Json

  /** The Painless source shared by every category-aware body, line by line; its decision logic is CategoryScript.Score. */
  const CategoryMatchScript: string :=
    "\n"
    + "if (!doc.containsKey('fast_text_category_name') || doc['fast_text_category_name'].empty) {\n"
    + "    return 0.0;\n"
    + "}\n"
    + "if (!params.containsKey('category_weights') || params.category_weights == null || params.category_weights.empty) {\n"
    + "    return 0.0;\n"
    + "}\n"
    + "def category = doc['fast_text_category_name'].value;\n"
    + "if (params.category_weights.containsKey(category)) {\n"
    + "    return params.category_weights[category];\n"
    + "}\n"
    + "return 0.0;\n"

  /** The fields every hit returns when a body asks for full hits. */
  const HitFields: seq<Json> := [
    Str("original_id"), Str("product_id"), Str("catalog_id"), Str("title"), Str("brand_name"),
    Str("image_url"), Str("landing_url"), Str("price"), Str("sale_price"),
    Str("catalog_product_set_ids"), Str("sale_price_effective_date_from"),
    Str("sale_price_effective_date_to"), Str("fast_text_category_name")
  ]

  // Clauses shared by the builders

  /** Full-text match of every term of the keyword against the serving title. */
  function MatchClause(query: string): Json {
    Obj([("match", Obj([("serving_title", Obj([("query", Str(query)), ("operator", Str("and"))]))]))])
  }

  const ExistsFilter: Json := Obj([("exists", Obj([("field", Str("catalog_product_set_ids"))]))])

  const InStockFilter: Json := Obj([("term", Obj([("availability", Obj([("value", Str("IN_STOCK"))]))]))])

  function CatalogIdsFilter(catalogIds: seq<Json>): Json {
    Obj([("terms", Obj([("catalog_id", Arr(catalogIds))]))])
  }

  /** One descending sort key. */
  function Descending(field: string): Json {
    Obj([(field, Obj([("order", Str("desc"))]))])
  }

  /** The category script with the weights handed to it as its only parameter. */
  function CategoryScriptWith(categoryWeights: Json): Json {
    Obj([("source", Str(CategoryMatchScript)), ("params", Obj([("category_weights", categoryWeights)]))])
  }

  /** The score function that adds 100 times the category script's value. */
  function CategoryScoreFunction(categoryWeights: Json): Json {
    Obj([("weight", Int(100)), ("script_score", Obj([("script", CategoryScriptWith(categoryWeights))]))])
  }

  const RandomScoreFunction: Json := Obj([("random_score", Obj([]))])

  /** The top ten hits of a catalog group, optionally with the category script as a computed field. */
  function TopHits(sort: seq<Json>, categoryWeights: Option<Json>): Json {
    var common := [("sort", Arr(sort)), ("_source", Arr(HitFields)), ("size", Int(10))];
    match categoryWeights
    case None => Obj(common)
    case Some(w) =>
      Obj(common + [("script_fields", Obj([("fast_text_category_match", Obj([("script", CategoryScriptWith(w))]))]))])
  }

  /** Grouping of the matches by catalog id, up to 1000 groups. */
  function ByCatalogId(topHits: Json): Json {
    Obj([("by_catalog_id", Obj([
      ("terms", Obj([("field", Str("catalog_id")), ("size", Int(1000))])),
      ("aggs", Obj([("top_catalog_hits", Obj([("top_hits", topHits)]))]))
    ]))])
  }

  function FunctionScore(boostMode: string, query: Json, functions: seq<Json>): Json {
    Obj([("function_score", Obj([
      ("boost_mode", Str(boostMode)),
      ("query", query),
      ("functions", Arr(functions)),
      ("score_mode", Str("sum"))
    ]))])
  }

  /** A grouped body: one top-level hit, the groups carrying the hits. */
  function GroupedBody(query: Json, topHits: Json): Json {
    Obj([("query", query), ("_source", Arr([Str("original_id")])), ("aggs", ByCatalogId(topHits)), ("size", Int(1))])
  }


  /** The match clause carries the keyword verbatim and requires every term. */
  lemma MatchClauseShape(query: string)
    ensures At(MatchClause(query), Key("match", 0, Key("serving_title", 0, Key("query", 0, Here)))) == Some(Str(query))
    ensures At(MatchClause(query), Key("match", 0, Key("serving_title", 0, Key("operator", 1, Here)))) == Some(Str("and"))
  {
  }

  // The builders

  /** The deployed query: match in `must`, two filters, grouped by catalog id, ten hits per group by score. */
  function CurrentDsl(query: string): (r: Json)
    ensures Keys(r) == ["query", "_source", "aggs", "size"]
    ensures At(r, Key("query", 0, Key("bool", 0, Here))) == Some(Obj([("must", Arr([MatchClause(query)])), ("filter", Arr([ExistsFilter, InStockFilter]))]))
  {
    GroupedBody(
      Obj([("bool", Obj([("must", Arr([MatchClause(query)])), ("filter", Arr([ExistsFilter, InStockFilter]))]))]),
      TopHits([Descending("_score")], None))
  }

  /** The terms query: the deployed match and filters plus a filter on the given catalog ids; up to 1000 plain hits, no grouping. */
  function TermsDsl(query: string, catalogIds: seq<Json>): (r: Json)
    ensures Keys(r) == ["query", "_source", "size"] && "aggs" !in Keys(r)
    ensures At(r, Key("size", 2, Here)) == Some(Int(1000))
  {
    Obj([
      ("query", Obj([("bool", Obj([
        ("must", Arr([MatchClause(query)])),
        ("filter", Arr([ExistsFilter, InStockFilter, CatalogIdsFilter(catalogIds)]))]))])),
      ("_source", Arr(HitFields)),
      ("size", Int(1000))
    ])
  }

  /** Relevance plus category boost: the match stays in `must`, one score function, sorted by score only. */
  function Bm25SortDsl(query: string, categoryWeights: Json): (r: Json)
    ensures Keys(r) == ["query", "_source", "aggs", "size"]
    ensures At(r, Key("query", 0, Key("function_score", 0, Key("boost_mode", 0, Here)))) == Some(Str("sum"))
  {
    GroupedBody(
      FunctionScore("sum",
        Obj([("bool", Obj([("must", Arr([MatchClause(query)])), ("filter", Arr([ExistsFilter, InStockFilter]))]))]),
        [CategoryScoreFunction(categoryWeights)]),
      TopHits([Descending("_score")], Some(categoryWeights)))
  }

  /** Relevance plus category boost plus a random score: the match moves into `filter`, ties broken by original id. */
  function RandomSortDsl(query: string, categoryWeights: Json): (r: Json)
    ensures Keys(r) == ["query", "_source", "aggs", "size"]
    ensures At(r, Key("query", 0, Key("function_score", 0, Key("boost_mode", 0, Here)))) == Some(Str("sum"))
  {
    GroupedBody(
      FunctionScore("sum",
        Obj([("bool", Obj([("filter", Arr([ExistsFilter, InStockFilter, MatchClause(query)]))]))]),
        [CategoryScoreFunction(categoryWeights), RandomScoreFunction]),
      TopHits([Descending("_score"), Descending("original_id")], Some(categoryWeights)))
  }

  /** Category weight alone: the function output replaces the score, the match is a filter, ties broken by original id. */
  function IdSortDsl(query: string, categoryWeights: Json): (r: Json)
    ensures Keys(r) == ["query", "_source", "aggs", "size"]
    ensures At(r, Key("query", 0, Key("function_score", 0, Key("boost_mode", 0, Here)))) == Some(Str("replace"))
  {
    GroupedBody(
      FunctionScore("replace",
        Obj([("bool", Obj([("filter", Arr([ExistsFilter, InStockFilter, MatchClause(query)]))]))]),
        [CategoryScoreFunction(categoryWeights)]),
      TopHits([Descending("_score"), Descending("original_id")], Some(categoryWeights)))
  }

  // Shared pieces

  /** The category score function: weight 100 on the category script, whose only parameter is the weights. */
  lemma CategoryScoreFunctionShape(categoryWeights: Json)
    ensures At(CategoryScoreFunction(categoryWeights), Key("weight", 0, Here)) == Some(Int(100))
    ensures At(CategoryScoreFunction(categoryWeights), Key("script_score", 1, Key("script", 0, Here))) == Some(CategoryScriptWith(categoryWeights))
  {
  }

  /** The category script carries the Painless source and passes the weights through unchanged. */
  lemma CategoryScriptShape(categoryWeights: Json)
    ensures At(CategoryScriptWith(categoryWeights), Key("source", 0, Here)) == Some(Str(CategoryMatchScript))
    ensures At(CategoryScriptWith(categoryWeights), Key("params", 1, Key("category_weights", 0, Here))) == Some(categoryWeights)
  {
  }

  /** Both sort keys are descending. */
  lemma DescendingShape(field: string)
    ensures At(Descending(field), Key(field, 0, Key("order", 0, Here))) == Some(Str("desc"))
  {
  }

  // The deployed body

  /** The deployed body groups by catalog id into at most 1000 groups and returns one top-level hit. */
  lemma CurrentGrouping(query: string)
    ensures At(CurrentDsl(query), Key("aggs", 2, Key("by_catalog_id", 0, Key("terms", 0, Here)))) == Some(Obj([("field", Str("catalog_id")), ("size", Int(1000))]))
    ensures At(CurrentDsl(query), Key("size", 3, Here)) == Some(Int(1))
  {
  }

  /** Each group of the deployed body holds ten hits sorted by score only. */
  lemma CurrentTopHits(query: string)
    ensures KeysAt(CurrentDsl(query), Key("aggs", 2, Key("by_catalog_id", 0, Key("aggs", 1, Key("top_catalog_hits", 0, Key("top_hits", 0, Here)))))) == ["sort", "_source", "size"]
    ensures At(CurrentDsl(query), Key("aggs", 2, Key("by_catalog_id", 0, Key("aggs", 1, Key("top_catalog_hits", 0, Key("top_hits", 0, Key("sort", 0, Here))))))) == Some(Arr([Descending("_score")]))
  {
  }

  lemma CurrentTopHitsSize(query: string)
    ensures At(CurrentDsl(query), Key("aggs", 2, Key("by_catalog_id", 0, Key("aggs", 1, Key("top_catalog_hits", 0, Key("top_hits", 0, Key("size", 2, Here))))))) == Some(Int(10))
  {
  }

  // The terms body

  /** The terms body filters on exactly the deployed filters plus the catalog ids, which pass through unchanged. */
  lemma TermsFilters(query: string, catalogIds: seq<Json>)
    ensures At(TermsDsl(query, catalogIds), Key("query", 0, Key("bool", 0, Here)))
      == Some(Obj([("must", Arr([MatchClause(query)])), ("filter", Arr([ExistsFilter, InStockFilter, CatalogIdsFilter(catalogIds)]))]))
  {
  }

  lemma TermsCatalogIds(query: string, catalogIds: seq<Json>)
    ensures At(TermsDsl(query, catalogIds), Key("query", 0, Key("bool", 0, Key("filter", 1, Index(2, Key("terms", 0, Key("catalog_id", 0, Here))))))) == Some(Arr(catalogIds))
  {
  }

  /** The terms body returns the full hit fields. */
  lemma TermsSource(query: string, catalogIds: seq<Json>)
    ensures At(TermsDsl(query, catalogIds), Key("_source", 1, Here)) == Some(Arr(HitFields))
  {
  }

  // The Bm25SortDsl body

  lemma Bm25Query(query: string, categoryWeights: Json)
    ensures At(Bm25SortDsl(query, categoryWeights), Key("query", 0, Key("function_score", 0, Key("query", 1, Key("bool", 0, Here))))) == Some(Obj([("must", Arr([MatchClause(query)])), ("filter", Arr([ExistsFilter, InStockFilter]))]))
  {
  }

  lemma Bm25Functions(query: string, categoryWeights: Json)
    ensures At(Bm25SortDsl(query, categoryWeights), Key("query", 0, Key("function_score", 0, Key("functions", 2, Here)))) == Some(Arr([CategoryScoreFunction(categoryWeights)]))
  {
  }

  lemma Bm25Grouping(query: string, categoryWeights: Json)
    ensures At(Bm25SortDsl(query, categoryWeights), Key("aggs", 2, Key("by_catalog_id", 0, Key("terms", 0, Here)))) == Some(Obj([("field", Str("catalog_id")), ("size", Int(1000))]))
    ensures At(Bm25SortDsl(query, categoryWeights), Key("size", 3, Here)) == Some(Int(1))
  {
  }

  lemma Bm25TopHits(query: string, categoryWeights: Json)
    ensures KeysAt(Bm25SortDsl(query, categoryWeights), Key("aggs", 2, Key("by_catalog_id", 0, Key("aggs", 1, Key("top_catalog_hits", 0, Key("top_hits", 0, Here)))))) == ["sort", "_source", "size", "script_fields"]
    ensures At(Bm25SortDsl(query, categoryWeights), Key("aggs", 2, Key("by_catalog_id", 0, Key("aggs", 1, Key("top_catalog_hits", 0, Key("top_hits", 0, Key("sort", 0, Here))))))) == Some(Arr([Descending("_score")]))
  {
  }

  lemma Bm25TopHitsSize(query: string, categoryWeights: Json)
    ensures At(Bm25SortDsl(query, categoryWeights), Key("aggs", 2, Key("by_catalog_id", 0, Key("aggs", 1, Key("top_catalog_hits", 0, Key("top_hits", 0, Key("size", 2, Here))))))) == Some(Int(10))
  {
  }

  lemma Bm25ScoreWeights(query: string, categoryWeights: Json)
    ensures At(Bm25SortDsl(query, categoryWeights), Key("query", 0, Key("function_score", 0, Key("functions", 2, Index(0, Key("script_score", 1, Key("script", 0, Key("params", 1, Key("category_weights", 0, Here))))))))) == Some(categoryWeights)
  {
  }

  lemma Bm25FieldWeights(query: string, categoryWeights: Json)
    ensures At(Bm25SortDsl(query, categoryWeights), Key("aggs", 2, Key("by_catalog_id", 0, Key("aggs", 1, Key("top_catalog_hits", 0, Key("top_hits", 0, Key("script_fields", 3, Key("fast_text_category_match", 0, Key("script", 0, Key("params", 1, Key("category_weights", 0, Here))))))))))) == Some(categoryWeights)
  {
  }

  // The RandomSortDsl body

  lemma RandomQuery(query: string, categoryWeights: Json)
    ensures At(RandomSortDsl(query, categoryWeights), Key("query", 0, Key("function_score", 0, Key("query", 1, Key("bool", 0, Here))))) == Some(Obj([("filter", Arr([ExistsFilter, InStockFilter, MatchClause(query)]))]))
  {
  }

  lemma RandomFunctions(query: string, categoryWeights: Json)
    ensures At(RandomSortDsl(query, categoryWeights), Key("query", 0, Key("function_score", 0, Key("functions", 2, Here)))) == Some(Arr([CategoryScoreFunction(categoryWeights), RandomScoreFunction]))
  {
  }

  lemma RandomGrouping(query: string, categoryWeights: Json)
    ensures At(RandomSortDsl(query, categoryWeights), Key("aggs", 2, Key("by_catalog_id", 0, Key("terms", 0, Here)))) == Some(Obj([("field", Str("catalog_id")), ("size", Int(1000))]))
    ensures At(RandomSortDsl(query, categoryWeights), Key("size", 3, Here)) == Some(Int(1))
  {
  }

  lemma RandomTopHits(query: string, categoryWeights: Json)
    ensures KeysAt(RandomSortDsl(query, categoryWeights), Key("aggs", 2, Key("by_catalog_id", 0, Key("aggs", 1, Key("top_catalog_hits", 0, Key("top_hits", 0, Here)))))) == ["sort", "_source", "size", "script_fields"]
    ensures At(RandomSortDsl(query, categoryWeights), Key("aggs", 2, Key("by_catalog_id", 0, Key("aggs", 1, Key("top_catalog_hits", 0, Key("top_hits", 0, Key("sort", 0, Here))))))) == Some(Arr([Descending("_score"), Descending("original_id")]))
  {
  }

  lemma RandomTopHitsSize(query: string, categoryWeights: Json)
    ensures At(RandomSortDsl(query, categoryWeights), Key("aggs", 2, Key("by_catalog_id", 0, Key("aggs", 1, Key("top_catalog_hits", 0, Key("top_hits", 0, Key("size", 2, Here))))))) == Some(Int(10))
  {
  }

  lemma RandomScoreWeights(query: string, categoryWeights: Json)
    ensures At(RandomSortDsl(query, categoryWeights), Key("query", 0, Key("function_score", 0, Key("functions", 2, Index(0, Key("script_score", 1, Key("script", 0, Key("params", 1, Key("category_weights", 0, Here))))))))) == Some(categoryWeights)
  {
  }

  lemma RandomFieldWeights(query: string, categoryWeights: Json)
    ensures At(RandomSortDsl(query, categoryWeights), Key("aggs", 2, Key("by_catalog_id", 0, Key("aggs", 1, Key("top_catalog_hits", 0, Key("top_hits", 0, Key("script_fields", 3, Key("fast_text_category_match", 0, Key("script", 0, Key("params", 1, Key("category_weights", 0, Here))))))))))) == Some(categoryWeights)
  {
  }

  // The IdSortDsl body

  lemma IdSortQuery(query: string, categoryWeights: Json)
    ensures At(IdSortDsl(query, categoryWeights), Key("query", 0, Key("function_score", 0, Key("query", 1, Key("bool", 0, Here))))) == Some(Obj([("filter", Arr([ExistsFilter, InStockFilter, MatchClause(query)]))]))
  {
  }

  lemma IdSortFunctions(query: string, categoryWeights: Json)
    ensures At(IdSortDsl(query, categoryWeights), Key("query", 0, Key("function_score", 0, Key("functions", 2, Here)))) == Some(Arr([CategoryScoreFunction(categoryWeights)]))
  {
  }

  lemma IdSortGrouping(query: string, categoryWeights: Json)
    ensures At(IdSortDsl(query, categoryWeights), Key("aggs", 2, Key("by_catalog_id", 0, Key("terms", 0, Here)))) == Some(Obj([("field", Str("catalog_id")), ("size", Int(1000))]))
    ensures At(IdSortDsl(query, categoryWeights), Key("size", 3, Here)) == Some(Int(1))
  {
  }

  lemma IdSortTopHits(query: string, categoryWeights: Json)
    ensures KeysAt(IdSortDsl(query, categoryWeights), Key("aggs", 2, Key("by_catalog_id", 0, Key("aggs", 1, Key("top_catalog_hits", 0, Key("top_hits", 0, Here)))))) == ["sort", "_source", "size", "script_fields"]
    ensures At(IdSortDsl(query, categoryWeights), Key("aggs", 2, Key("by_catalog_id", 0, Key("aggs", 1, Key("top_catalog_hits", 0, Key("top_hits", 0, Key("sort", 0, Here))))))) == Some(Arr([Descending("_score"), Descending("original_id")]))
  {
  }

  lemma IdSortTopHitsSize(query: string, categoryWeights: Json)
    ensures At(IdSortDsl(query, categoryWeights), Key("aggs", 2, Key("by_catalog_id", 0, Key("aggs", 1, Key("top_catalog_hits", 0, Key("top_hits", 0, Key("size", 2, Here))))))) == Some(Int(10))
  {
  }

  lemma IdSortScoreWeights(query: string, categoryWeights: Json)
    ensures At(IdSortDsl(query, categoryWeights), Key("query", 0, Key("function_score", 0, Key("functions", 2, Index(0, Key("script_score", 1, Key("script", 0, Key("params", 1, Key("category_weights", 0, Here))))))))) == Some(categoryWeights)
  {
  }

  lemma IdSortFieldWeights(query: string, categoryWeights: Json)
    ensures At(IdSortDsl(query, categoryWeights), Key("aggs", 2, Key("by_catalog_id", 0, Key("aggs", 1, Key("top_catalog_hits", 0, Key("top_hits", 0, Key("script_fields", 3, Key("fast_text_category_match", 0, Key("script", 0, Key("params", 1, Key("category_weights", 0, Here))))))))))) == Some(categoryWeights)
  {
  }

  // The keyword occurs only in the match clause

  /** Replacing the keyword in the match clause gives the match clause of the other keyword. */
  lemma MatchClauseKeyword(query: string, other: string)
    ensures Put(MatchClause(query), Key("match", 0, Key("serving_title", 0, Key("query", 0, Here))), Str(other)) == MatchClause(other)
  {
    var terms := [("query", Str(query)), ("operator", Str("and"))];
    assert terms[0 := ("query", Str(other))] == [("query", Str(other)), ("operator", Str("and"))];
    assert Put(Obj(terms), Key("query", 0, Here), Str(other)) == Obj([("query", Str(other)), ("operator", Str("and"))]);
    assert Put(Obj([("serving_title", Obj(terms))]), Key("serving_title", 0, Key("query", 0, Here)), Str(other))
      == Obj([("serving_title", Obj([("query", Str(other)), ("operator", Str("and"))]))]);
  }

  lemma PutGroupedQuery(query: Json, topHits: Json, p: Path, v: Json)
    ensures Put(GroupedBody(query, topHits), Key("query", 0, p), v) == GroupedBody(Put(query, p, v), topHits)
  {
    assert GroupedBody(query, topHits).members[0 := ("query", Put(query, p, v))] == GroupedBody(Put(query, p, v), topHits).members;
  }

  lemma PutFunctionScoreQuery(boostMode: string, query: Json, functions: seq<Json>, p: Path, v: Json)
    ensures Put(FunctionScore(boostMode, query, functions), Key("function_score", 0, Key("query", 1, p)), v)
      == FunctionScore(boostMode, Put(query, p, v), functions)
  {
    var inner := FunctionScore(boostMode, query, functions).members[0].1;
    assert inner.members[1 := ("query", Put(query, p, v))] == FunctionScore(boostMode, Put(query, p, v), functions).members[0].1.members;
  }

  /** The match clause in `must` of a bool query with the two stock filters. */
  lemma PutMustMatch(query: string, other: string)
    ensures Put(Obj([("bool", Obj([("must", Arr([MatchClause(query)])), ("filter", Arr([ExistsFilter, InStockFilter]))]))]), Key("bool", 0, Key("must", 0, Index(0, Here))), MatchClause(other))
      == Obj([("bool", Obj([("must", Arr([MatchClause(other)])), ("filter", Arr([ExistsFilter, InStockFilter]))]))])
  {
    assert Put(Arr([MatchClause(query)]), Index(0, Here), MatchClause(other)) == Arr([MatchClause(other)]);
    var inner := [("must", Arr([MatchClause(query)])), ("filter", Arr([ExistsFilter, InStockFilter]))];
    assert inner[0 := ("must", Arr([MatchClause(other)]))] == [("must", Arr([MatchClause(other)])), ("filter", Arr([ExistsFilter, InStockFilter]))];
    assert Put(Obj(inner), Key("must", 0, Index(0, Here)), MatchClause(other)) == Obj([("must", Arr([MatchClause(other)])), ("filter", Arr([ExistsFilter, InStockFilter]))]);
  }

  /** The match clause as the third filter of a bool query. */
  lemma PutFilterMatch(query: string, other: string)
    ensures Put(Obj([("bool", Obj([("filter", Arr([ExistsFilter, InStockFilter, MatchClause(query)]))]))]), Key("bool", 0, Key("filter", 0, Index(2, Here))), MatchClause(other))
      == Obj([("bool", Obj([("filter", Arr([ExistsFilter, InStockFilter, MatchClause(other)]))]))])
  {
    assert [ExistsFilter, InStockFilter, MatchClause(query)][2 := MatchClause(other)] == [ExistsFilter, InStockFilter, MatchClause(other)];
    assert Put(Arr([ExistsFilter, InStockFilter, MatchClause(query)]), Index(2, Here), MatchClause(other)) == Arr([ExistsFilter, InStockFilter, MatchClause(other)]);
    assert Put(Obj([("filter", Arr([ExistsFilter, InStockFilter, MatchClause(query)]))]), Key("filter", 0, Index(2, Here)), MatchClause(other)) == Obj([("filter", Arr([ExistsFilter, InStockFilter, MatchClause(other)]))]);
  }

  /** Nothing in the deployed body but its match clause depends on the keyword. */
  lemma CurrentKeyword(query: string, other: string)
    ensures Put(CurrentDsl(query), Key("query", 0, Key("bool", 0, Key("must", 0, Index(0, Here)))), MatchClause(other)) == CurrentDsl(other)
  {
    PutMustMatch(query, other);
    PutGroupedQuery(Obj([("bool", Obj([("must", Arr([MatchClause(query)])), ("filter", Arr([ExistsFilter, InStockFilter]))]))]), TopHits([Descending("_score")], None),
      Key("bool", 0, Key("must", 0, Index(0, Here))), MatchClause(other));
  }

  /** Nothing in the terms body but its match clause depends on the keyword. */
  lemma TermsKeyword(query: string, other: string, catalogIds: seq<Json>)
    ensures Put(TermsDsl(query, catalogIds), Key("query", 0, Key("bool", 0, Key("must", 0, Index(0, Here)))), MatchClause(other)) == TermsDsl(other, catalogIds)
  {
    var inner := [("must", Arr([MatchClause(query)])), ("filter", Arr([ExistsFilter, InStockFilter, CatalogIdsFilter(catalogIds)]))];
    var inner' := [("must", Arr([MatchClause(other)])), ("filter", Arr([ExistsFilter, InStockFilter, CatalogIdsFilter(catalogIds)]))];
    assert Put(Arr([MatchClause(query)]), Index(0, Here), MatchClause(other)) == Arr([MatchClause(other)]);
    assert inner[0 := ("must", Arr([MatchClause(other)]))] == inner';
    assert Put(Obj(inner), Key("must", 0, Index(0, Here)), MatchClause(other)) == Obj(inner');
    assert Put(Obj([("bool", Obj(inner))]), Key("bool", 0, Key("must", 0, Index(0, Here))), MatchClause(other)) == Obj([("bool", Obj(inner'))]);
    var body := TermsDsl(query, catalogIds).members;
    assert body[0 := ("query", Obj([("bool", Obj(inner'))]))] == TermsDsl(other, catalogIds).members;
  }

  /** Nothing in the Bm25SortDsl body but its match clause depends on the keyword. */
  lemma Bm25Keyword(query: string, other: string, categoryWeights: Json)
    ensures Put(Bm25SortDsl(query, categoryWeights), Key("query", 0, Key("function_score", 0, Key("query", 1, Key("bool", 0, Key("must", 0, Index(0, Here)))))), MatchClause(other))
      == Bm25SortDsl(other, categoryWeights)
  {
    var b := Obj([("bool", Obj([("must", Arr([MatchClause(query)])), ("filter", Arr([ExistsFilter, InStockFilter]))]))]);
    PutMustMatch(query, other);
    PutFunctionScoreQuery("sum", b, [CategoryScoreFunction(categoryWeights)], Key("bool", 0, Key("must", 0, Index(0, Here))), MatchClause(other));
    PutGroupedQuery(FunctionScore("sum", b, [CategoryScoreFunction(categoryWeights)]), TopHits([Descending("_score")], Some(categoryWeights)),
      Key("function_score", 0, Key("query", 1, Key("bool", 0, Key("must", 0, Index(0, Here))))), MatchClause(other));
  }

  /** Nothing in the RandomSortDsl body but its match clause depends on the keyword. */
  lemma RandomKeyword(query: string, other: string, categoryWeights: Json)
    ensures Put(RandomSortDsl(query, categoryWeights), Key("query", 0, Key("function_score", 0, Key("query", 1, Key("bool", 0, Key("filter", 0, Index(2, Here)))))), MatchClause(other))
      == RandomSortDsl(other, categoryWeights)
  {
    var b := Obj([("bool", Obj([("filter", Arr([ExistsFilter, InStockFilter, MatchClause(query)]))]))]);
    PutFilterMatch(query, other);
    PutFunctionScoreQuery("sum", b, [CategoryScoreFunction(categoryWeights), RandomScoreFunction], Key("bool", 0, Key("filter", 0, Index(2, Here))), MatchClause(other));
    PutGroupedQuery(FunctionScore("sum", b, [CategoryScoreFunction(categoryWeights), RandomScoreFunction]), TopHits([Descending("_score"), Descending("original_id")], Some(categoryWeights)),
      Key("function_score", 0, Key("query", 1, Key("bool", 0, Key("filter", 0, Index(2, Here))))), MatchClause(other));
  }

  /** Nothing in the IdSortDsl body but its match clause depends on the keyword. */
  lemma IdSortKeyword(query: string, other: string, categoryWeights: Json)
    ensures Put(IdSortDsl(query, categoryWeights), Key("query", 0, Key("function_score", 0, Key("query", 1, Key("bool", 0, Key("filter", 0, Index(2, Here)))))), MatchClause(other))
      == IdSortDsl(other, categoryWeights)
  {
    var b := Obj([("bool", Obj([("filter", Arr([ExistsFilter, InStockFilter, MatchClause(query)]))]))]);
    PutFilterMatch(query, other);
    PutFunctionScoreQuery("replace", b, [CategoryScoreFunction(categoryWeights)], Key("bool", 0, Key("filter", 0, Index(2, Here))), MatchClause(other));
    PutGroupedQuery(FunctionScore("replace", b, [CategoryScoreFunction(categoryWeights)]), TopHits([Descending("_score"), Descending("original_id")], Some(categoryWeights)),
      Key("function_score", 0, Key("query", 1, Key("bool", 0, Key("filter", 0, Index(2, Here))))), MatchClause(other));
  }
}
