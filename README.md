# Ad-query latency benchmark: a verified model

This project models the logic of a small benchmarking harness for the
Elasticsearch queries that serve catalog-product advertisements. The harness
has three parts, and the model follows them:

- **Query bodies** (`dsls.py`). Five pure builders turn a search keyword into a
  request body. They also take a category-weight map or a list of catalog ids.
  The bodies are the deployed query, a catalog-id "terms" query, and three
  category-match variants: bm25sort, randomsort and idsort. Bodies are modelled
  as JSON values (`Json.Json`): null, bool, int, string, array, and object as an
  ordered key–value list. The `Json.At` / `Json.Put` paths state which member
  sits where.
- **The category script**. Every category-aware body embeds a Painless script.
  Its decision logic is `CategoryScript.Score`. The document's
  `fast_text_category_name` values are an `Option<seq<string>>` and the
  `category_weights` parameter is an `Option<map<string, int>>`.
- **Latency sampling and the two drivers.** `get_query_time` is
  `Sampler.GetQueryTime`, a method with the source's `for` / `while retry`
  loops. The HTTP calls become an injected stream of attempt outcomes,
  `Raised | Reply(status, took)`. The trim, sort and mean are in `Stats`. The
  category-match driver (`compare_ad_category_match_queries.py`) is
  `CategoryMatchBench.RunBench`, and its weight-collapse comprehension is
  `Weights.Collapse`. The terms-filter driver (`compare_ad_terms_query.py`) is
  `TermsBench.RunBench`. Both drivers share `Driver.Collect`: rows are appended
  in keyword order, and the table is written only if no keyword crashes the
  loop.

Two behaviours of the sampler are modelled exactly as the code has them:

- The retry counter is reset to 3 at every iteration.
- The trim is positional and happens before sorting: it keeps
  `times[cut : n - cut + 1]` in arrival order, so it drops `cut` readings from
  the front but only `cut - 1` from the back (`Stats.KeptPositions`).

The model also keeps three more behaviours of the code:

- If every attempt of a later iteration raises, the previous iteration's
  response is read again, so its `took` is recorded twice
  (`Sampler.StaleResponseRepeats`).
- If every attempt of the first iteration raises, `response` is unbound and the
  call crashes (`Sampler.CrashedIff`).
- The terms driver's "2000" variant is built from the 1000-id sample
  (`TermsBench.Terms2000IsTerms1000`).

## Model

| member | source | states |
|---|---|---|
| CategoryScript.Score | dsls.py:1-13 | 0.0 when the document has no category or an empty one, when the weights are absent, null or empty, or when the label is not a key; otherwise exactly the weight of the document's (first) category |
| CategoryScript.ScoreIsLookup | dsls.py:5-12 | the empty-weights guard never changes the result: the script equals a plain lookup of the label in the weights |
| CategoryScript.ScoreIsAWeight | dsls.py:8-12 | a nonzero score is the weight the parameter map gives to the document's category |
| CategoryScript.ScoreWithUnitWeights | dsls.py:9-12 | with all weights 1, the score is 1.0 exactly when the category is a key and 0.0 exactly when it is not |
| Dsls.CurrentDsl | dsls.py:16-59 | the deployed body has keys query, _source, aggs, size in that order; its bool query is the match in `must` plus the in-stock and exists filters |
| Dsls.MatchClauseShape | dsls.py:21 | the match clause puts the keyword verbatim on `serving_title` with operator "and" |
| Dsls.CurrentGrouping | dsls.py:30-58 | the deployed body aggregates by `catalog_id` with size 1000 and sets top-level size 1 |
| Dsls.CurrentTopHits | dsls.py:35-53 | each group's top_hits has exactly sort, _source, size and sorts by `_score` desc only |
| Dsls.CurrentTopHitsSize | dsls.py:52 | each group returns 10 hits |
| Dsls.DescendingShape | dsls.py:36 | every sort key orders "desc" |
| Dsls.TermsDsl | dsls.py:62-92 | the terms body has exactly the keys query, _source, size, with no `aggs`, and size is 1000 |
| Dsls.TermsFilters | dsls.py:64-74 | the match is in `must`, and the filter list is exactly [exists catalog_product_set_ids, term availability=IN_STOCK, terms catalog_id] |
| Dsls.TermsCatalogIds | dsls.py:72 | the catalog-id list is passed through unchanged as the terms value |
| Dsls.TermsSource | dsls.py:76-90 | the terms body projects the thirteen hit fields |
| Dsls.Bm25SortDsl | dsls.py:95-164 | the bm25sort body is grouped (query, _source, aggs, size) with boost_mode "sum" |
| Dsls.Bm25Query | dsls.py:101-111 | bm25sort keeps the match in `must` beside the two stock filters |
| Dsls.Bm25Functions | dsls.py:112-122 | bm25sort has exactly one function, the weight-100 category script_score |
| Dsls.Bm25Grouping | dsls.py:127-163 | bm25sort groups by catalog_id (size 1000) and sets size 1 |
| Dsls.Bm25TopHits | dsls.py:132-157 | bm25sort top_hits has sort, _source, size, script_fields and sorts by `_score` desc only |
| Dsls.Bm25TopHitsSize | dsls.py:149 | bm25sort returns 10 hits per group |
| Dsls.Bm25ScoreWeights | dsls.py:118 | the score function's script gets the given weights |
| Dsls.Bm25FieldWeights | dsls.py:154 | the computed field's script gets the given weights |
| Dsls.RandomSortDsl | dsls.py:167-240 | the randomsort body is grouped with boost_mode "sum" |
| Dsls.RandomQuery | dsls.py:173-181 | randomsort's bool query has only `filter`: exists, in-stock, then the match as the third entry |
| Dsls.RandomFunctions | dsls.py:182-195 | randomsort has exactly two functions, the category script_score and then `random_score {}` |
| Dsls.RandomGrouping | dsls.py:200-239 | randomsort groups by catalog_id (size 1000) and sets size 1 |
| Dsls.RandomTopHits | dsls.py:205-233 | randomsort top_hits sorts by `_score` desc, then `original_id` desc |
| Dsls.RandomTopHitsSize | dsls.py:225 | randomsort returns 10 hits per group |
| Dsls.RandomScoreWeights | dsls.py:188 | the score function's script gets the given weights |
| Dsls.RandomFieldWeights | dsls.py:230 | the computed field's script gets the given weights |
| Dsls.IdSortDsl | dsls.py:243-313 | the idsort body is grouped with boost_mode "replace" |
| Dsls.IdSortQuery | dsls.py:249-257 | idsort's bool query has no `must`: the match is the third `filter` entry |
| Dsls.IdSortFunctions | dsls.py:258-268 | idsort has exactly one function, the weight-100 category script_score |
| Dsls.IdSortGrouping | dsls.py:273-312 | idsort groups by catalog_id (size 1000) and sets size 1 |
| Dsls.IdSortTopHits | dsls.py:278-306 | idsort top_hits sorts by `_score` desc, then `original_id` desc |
| Dsls.IdSortTopHitsSize | dsls.py:298 | idsort returns 10 hits per group |
| Dsls.IdSortScoreWeights | dsls.py:264 | the score function's script gets the given weights |
| Dsls.IdSortFieldWeights | dsls.py:303 | the computed field's script gets the given weights |
| Dsls.CategoryScoreFunctionShape | dsls.py:113-121 | the category function has weight 100 and wraps the category script |
| Dsls.CategoryScriptShape | dsls.py:116-119 | the script carries the category-match source and passes the weights through unchanged |
| Dsls.MatchClauseKeyword | dsls.py:21 | replacing the keyword inside a match clause gives the other keyword's match clause |
| Dsls.CurrentKeyword | dsls.py:16-59 | the keyword occurs only in the match clause: replacing that clause gives the other keyword's body |
| Dsls.TermsKeyword | dsls.py:62-92 | the same for the terms body, with the catalog ids unchanged |
| Dsls.Bm25Keyword | dsls.py:95-164 | the same for the bm25sort body |
| Dsls.RandomKeyword | dsls.py:167-240 | the same for the randomsort body |
| Dsls.IdSortKeyword | dsls.py:243-313 | the same for the idsort body |
| Stats.Cut | compare_ad_category_match_queries.py:107 | `cut` is floor(n/10): 10·cut ≤ n < 10·(cut+1) |
| Stats.Slice | compare_ad_category_match_queries.py:108 | Python slicing with clamped bounds: in range it is `s[lo..hi]`, and a reversed or out-of-range slice is empty |
| Stats.KeptPositions | compare_ad_category_match_queries.py:108 | the kept readings are arrival positions cut..n−cut inclusive; length n when cut = 0, else n − 2·cut + 1; empty iff n = 0 |
| Stats.SortSpec | compare_ad_category_match_queries.py:108 | `sorted` gives an ascending permutation with the same length and sum |
| Stats.MeanBounds | compare_ad_terms_query.py:64 | a mean of readings lies between their least and greatest value |
| Stats.ReduceSpec | compare_ad_category_match_queries.py:107-111 | the returned list is the kept readings sorted ascending and permuted; the mean is sum/len of the kept readings, or 0 when there are none; the list is empty iff nothing was read |
| Sampler.GetQueryTime | compare_ad_category_match_queries.py:84-111 | the loop's result and attempt count equal the specification `QueryTime` / `Run` over the same outcome stream |
| Sampler.RetrySpec | compare_ad_category_match_queries.py:89-101 | with the counter at 3: 1 to 3 attempts; every attempt but the last raised; a reply ends retrying and binds the response; if all raise, the old response stays |
| Sampler.BoundStaysBound | compare_ad_category_match_queries.py:88-105 | once a response is bound, no later iteration can crash on an unbound response |
| Sampler.IterateSpec | compare_ad_terms_query.py:41-59 | readings only grow, by at most one per iteration; at most 3 attempts per iteration; a completed run has one reading per iteration; a stop on bad status happens at the first non-200 reply, which is the last attempt |
| Sampler.CrashedIff | compare_ad_category_match_queries.py:90-102 | the call crashes exactly when there is an iteration and the first three attempts all raise |
| Sampler.AbortedSpec | compare_ad_category_match_queries.py:102-104 | None comes from a non-200 reply that is the last attempt made; every earlier reply was a 200 |
| Sampler.MeasuredSpec | compare_ad_terms_query.py:41-65 | a result holds one reading per iteration from between n and 3n attempts, reading m being the `took` iteration m records (`ReadingOf`); its list is the kept readings sorted, and its mean is theirs |
| Sampler.ReadingsAreLatestTook | compare_ad_category_match_queries.py:88-105 | reading m of any run is the `took` of the latest reply once iteration m's retry loop is over (`ReadingOf`), so a stale response is read again |
| Sampler.AllRepliesRead | compare_ad_terms_query.py:41-59 | when every attempt is a 200 reply, the loop completes after one attempt per iteration and records each attempt's `took` in order |
| Sampler.StaleResponseRepeats | compare_ad_category_match_queries.py:90-105 | when the second iteration's attempts all raise, the first response's `took` is recorded twice |
| Weights.Assign | compare_ad_category_match_queries.py:124 | dict assignment: a new key goes last; an existing key keeps its place and takes the new value |
| Weights.BoostedNames | compare_ad_category_match_queries.py:124 | a name is listed iff some record with `is_boost` true carries it |
| Weights.ComprehendInvariant | compare_ad_category_match_queries.py:124 | folding in the records keeps the keys distinct and every value 1, and adds exactly the boosted names |
| Weights.CollapseSpec | compare_ad_category_match_queries.py:122-129 | the keys are exactly the names of the records with `is_boost` true, each once, every value is 1; null or empty input gives an empty map |
| Weights.CollapsedScore | compare_ad_category_match_queries.py:122-129 | under the collapsed weights the script scores 1.0 when the document's category is a boosted name and 0.0 otherwise |
| Driver.CollectSpec | compare_ad_category_match_queries.py:131-158 | rows are written iff every keyword yields a row; then there is one row per keyword, in input order |
| Driver.CrashStops | compare_ad_terms_query.py:87-116 | a crash on any keyword means the table is never written, whatever later keywords would give |
| Driver.CollectStep | compare_ad_category_match_queries.py:147-157 | one more keyword appends its row at the end, or crashes |
| CategoryMatchBench.Tasks | compare_ad_category_match_queries.py:122-135 | the weights of every keyword are collapsed before the loop and zipped with the keywords in order |
| CategoryMatchBench.KeywordCalls | compare_ad_category_match_queries.py:136-145 | per keyword: production as-is, then staging as-is, idsort, randomsort, all with 50 iterations |
| CategoryMatchBench.Plan | compare_ad_category_match_queries.py:133-145 | a run plans four calls per keyword |
| CategoryMatchBench.PlanOrder | compare_ad_category_match_queries.py:133-145 | call 4·i + j of a run is call j of keyword i |
| CategoryMatchBench.KeywordBodies | compare_ad_category_match_queries.py:136-141 | the bodies sent are the current body twice, then idsort and randomsort with the keyword's collapsed weights |
| CategoryMatchBench.Predicted | compare_ad_category_match_queries.py:151-152 | the predicted production time r satisfies r · asis = prod · variant |
| CategoryMatchBench.RowOf | compare_ad_category_match_queries.py:142-157 | a row exists iff all four samples are measurements and the staging as-is mean is nonzero; it holds the four means and the two predictions |
| CategoryMatchBench.KeywordPass | compare_ad_category_match_queries.py:136-157 | one loop pass yields the specified row; the calls made are a prefix of the keyword's four calls, and all four when a row results |
| CategoryMatchBench.RunBench | compare_ad_category_match_queries.py:131-158 | the loop's result equals `Bench`; the calls made are a prefix of the plan, and the whole plan when rows are written |
| CategoryMatchBench.BenchRows | compare_ad_category_match_queries.py:131-158 | a written table has one row per keyword in input order, holding that keyword's means and predictions |
| CategoryMatchBench.FailedSampleWritesNothing | compare_ad_category_match_queries.py:142-145 | a sample that is a crash or None on any keyword means nothing is written |
| TermsBench.KeywordCalls | compare_ad_terms_query.py:89-102 | per keyword: two production calls (as-is, terms10) with 20 iterations, then five staging calls (as-is, terms10, 100, 1000, "2000") with 50 |
| TermsBench.Plan | compare_ad_terms_query.py:88-102 | a run plans seven calls per keyword |
| TermsBench.PlanOrder | compare_ad_terms_query.py:88-102 | call 7·i + j of a run is call j of keyword i |
| TermsBench.RowOf | compare_ad_terms_query.py:95-115 | a row exists iff all seven samples are measurements; it holds the keyword and the seven means in column order |
| TermsBench.KeywordPass | compare_ad_terms_query.py:89-115 | one loop pass yields the specified row; the calls made are a prefix of the keyword's seven calls, and all seven when a row results |
| TermsBench.RunBench | compare_ad_terms_query.py:87-116 | the loop's result equals `Bench`; the calls made are a prefix of the plan, and the whole plan when rows are written |
| TermsBench.BenchRows | compare_ad_terms_query.py:87-116 | a written table has one 8-column row per keyword, in input order |
| TermsBench.FailedSampleWritesNothing | compare_ad_terms_query.py:95-102 | a sample that is a crash or None on any keyword means nothing is written |
| TermsBench.Terms2000IsTerms1000 | compare_ad_terms_query.py:92-93 | the "2000" body equals the terms1000 body, and it filters on the 1000-id sample |
| TermsBench.Ids2000Unused | compare_ad_terms_query.py:76-93 | the 2000-id sample never reaches a request: the plan is the same whatever it holds |

## Left out

- Warehouse reads (the BigQuery SQL and `pandas_gbq.read_gbq`) are external data sources. Their results are inputs: the keyword log, the parsed category-weight records, and the four catalog-id lists.
- `requests.get`, `json.dumps` and `json.loads` are foreign library calls. Each request is an abstract attempt outcome. HTTP status semantics are reduced to "200 or not", and each response body is reduced to its `took` field.
- Elasticsearch and Painless execution are not modelled: no real scoring, aggregation or `random_score`. Only the body structure and the script's decision logic are modelled.
- `time.sleep(random.random())` in the terms sampler, the random sampling of catalog ids, `tqdm`, `print` and the CSV write are timing, randomness or output. They are left out.
- The endpoint URLs are not modelled: a call records only which cluster (`Sampler.Host`) it targets. Every call searches the one index `Sampler.IndexName`.
- Stats.Cut: computed as `n / 10` on integers, not as `int(n * 0.1)` in floating point. The two agree for every n below 2^52, which includes the 20 and 50 iterations the drivers use. The double nearest 0.1 is slightly above 1/10, so n·0.1 never rounds below floor(n/10). Below 2^52 the excess is under 0.025 and the spacing of doubles near n·0.1 is at most 1/16, so the product never reaches the next integer either.
- Stats.Mean: the model gives the exact quotient sum/len over reals, while Python's `/` gives it rounded to a double. Every mean in a row inherits this. Whether a mean is zero is unaffected: the float quotient is 0.0 exactly when the sum is 0.
- CategoryMatchBench.Predicted: computed over exact reals, not floating point. The case where the staging as-is mean is zero is modelled as a crash of the driver, since Python raises ZeroDivisionError there.
- CategoryScript.Score: Painless returns the stored weight as a number. The model converts the integer weight to a real. A category field with several values is read through its first value, as `doc[...].value` does.
- Weights.Collapse: a missing weights cell is modelled as None, which is falsy. If pandas stored it as NaN instead, `json.loads` would raise; that case is not modelled. A record whose `hoian_category_name` is null (a join miss) is not modelled either. The names are strings.
- Both drivers: a crash anywhere loses every row, because the table is written only after the loop. The model returns None for the run instead of raising.
