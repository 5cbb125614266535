/**
  The category-match benchmark driver: for each keyword, one deployed-body
  sample on production and the deployed, idsort and randomsort bodies on
  staging, then a row with the production times the two variants predict.
 */
module CategoryMatchBench {
  import opened Wrappers
  import opened Json
  import opened Dsls
  import opened Weights
  import opened Sampler
  import opened Driver

  /** The default iteration count of `get_query_time`, which every call of this driver uses. */
  const Iterations: nat := 50

  /** Which builder makes a request body, and from what. */
  datatype Body = AsIs(keyword: string) | IdSort(keyword: string, weights: Dict) | RandomSort(keyword: string, weights: Dict)

  /** The body a request sends; the weights travel as a JSON object. */
  function BodyJson(body: Body): Json
  {
    match body
    case AsIs(keyword) => CurrentDsl(keyword)
    case IdSort(keyword, weights) => IdSortDsl(keyword, ToJson(weights))
    case RandomSort(keyword, weights) => RandomSortDsl(keyword, ToJson(weights))
  }

  /** One `get_query_time` call on `IndexName`: where it sends which body, how many times. */
  datatype Call = Call(host: Host, body: Body, iterations: nat)

  /** One row of the query log: the keyword and its category-weight records, if it has any. */
  datatype Keyword = Keyword(queryText: string, categoryWeights: Option<seq<CategoryWeight>>)

  /** One step of the driver loop: a keyword zipped with its collapsed weights. */
  datatype Task = Task(keyword: string, weights: Dict)

  datatype Row = Row(
    query: string,
    timeProdAsis: real,
    timeProdIdsortPred: real,
    timeProdRandomsortPred: real,
    timeAlphaAsis: real,
    timeAlphaIdsort: real,
    timeAlphaRandomsort: real)

  /** The samples `get_query_time` delivers for the calls of this driver. */
  function Measurements(network: Network<Call>): Samples<Call>
  {
    (n: nat, call: Call) => QueryTime(network(n, call), call.iterations)
  }

  /** The weights column is collapsed for the whole log before any request is made, then zipped with the keywords. */
  function Tasks(log: seq<Keyword>): (tasks: seq<Task>)
    ensures |tasks| == |log|
    ensures forall i :: 0 <= i < |log| ==> tasks[i] == Task(log[i].queryText, Collapse(log[i].categoryWeights))
  {
    seq(|log|, i requires 0 <= i < |log| => Task(log[i].queryText, Collapse(log[i].categoryWeights)))
  }

  /** The four calls for one keyword, in the order they are made. */
  function KeywordCalls(task: Task): (calls: seq<Call>)
    ensures |calls| == 4
    ensures calls[0].host == Prod && calls[0].body == AsIs(task.keyword)
    ensures calls[1].host == Alpha && calls[1].body == AsIs(task.keyword)
    ensures calls[2].host == Alpha && calls[2].body == IdSort(task.keyword, task.weights)
    ensures calls[3].host == Alpha && calls[3].body == RandomSort(task.keyword, task.weights)
    ensures forall j :: 0 <= j < 4 ==> calls[j].iterations == Iterations
  {
    [ Call(Prod, AsIs(task.keyword), Iterations),
      Call(Alpha, AsIs(task.keyword), Iterations),
      Call(Alpha, IdSort(task.keyword, task.weights), Iterations),
      Call(Alpha, RandomSort(task.keyword, task.weights), Iterations) ]
  }

  /** Every call of a run in order, keyword by keyword. */
  function Plan(tasks: seq<Task>): (plan: seq<Call>)
    ensures |plan| == 4 * |tasks|
    decreases |tasks|
  {
    if tasks == [] then []
    else Plan(tasks[..|tasks| - 1]) + KeywordCalls(tasks[|tasks| - 1])
  }

  /** The production time a variant predicts: production scaled by the variant's staging ratio. */
  function Predicted(prod: real, variant: real, asis: real): (r: real)
    requires asis != 0.0
    ensures r * asis == prod * variant
  {
    prod * (variant / asis)
  }

  /** The samples of the four calls of keyword `i`, in call order. */
  function KeywordSamples(samples: Samples<Call>, tasks: seq<Task>, i: nat): (s: seq<Sample>)
    requires i < |tasks|
    ensures |s| == 4
  {
    var calls := KeywordCalls(tasks[i]);
    [samples(4 * i, calls[0]), samples(4 * i + 1, calls[1]), samples(4 * i + 2, calls[2]), samples(4 * i + 3, calls[3])]
  }

  /**
    The row built from the four samples of a keyword, or None when the driver
    dies on it: a sample that is not a measurement cannot be unpacked, and a
    zero staging time for the deployed body is a division by zero.
   */
  function RowOf(query: string, s: seq<Sample>): (r: Option<Row>)
    requires |s| == 4
    ensures r.Some? <==> s[0].Measured? && s[1].Measured? && s[2].Measured? && s[3].Measured? && s[1].mean != 0.0
    ensures r.Some? ==>
      && r.value.query == query
      && r.value.timeProdAsis == s[0].mean && r.value.timeAlphaAsis == s[1].mean
      && r.value.timeAlphaIdsort == s[2].mean && r.value.timeAlphaRandomsort == s[3].mean
      && r.value.timeProdIdsortPred == Predicted(s[0].mean, s[2].mean, s[1].mean)
      && r.value.timeProdRandomsortPred == Predicted(s[0].mean, s[3].mean, s[1].mean)
  {
    if s[0].Measured? && s[1].Measured? && s[2].Measured? && s[3].Measured? && s[1].mean != 0.0 then
      Some(Row(
        query,
        s[0].mean,
        Predicted(s[0].mean, s[2].mean, s[1].mean),
        Predicted(s[0].mean, s[3].mean, s[1].mean),
        s[1].mean,
        s[2].mean,
        s[3].mean))
    else None
  }

  /** The row of keyword `i`, or None when the driver dies on it. */
  function KeywordRow(samples: Samples<Call>, tasks: seq<Task>, i: nat): Option<Row>
    requires i < |tasks|
  {
    RowOf(tasks[i].keyword, KeywordSamples(samples, tasks, i))
  }

  /** The row of every keyword, None where the driver would crash. */
  function KeywordRows(samples: Samples<Call>, tasks: seq<Task>): (rows: seq<Option<Row>>)
    ensures |rows| == |tasks| && forall i :: 0 <= i < |tasks| ==> rows[i] == KeywordRow(samples, tasks, i)
  {
    seq(|tasks|, i requires 0 <= i < |tasks| => KeywordRow(samples, tasks, i))
  }

  /** The rows the driver writes, or None when it dies before writing. */
  function Bench(samples: Samples<Call>, log: seq<Keyword>): Option<seq<Row>>
  {
    Collect(KeywordRows(samples, Tasks(log)))
  }

  /**
    One pass of the driver loop: the four samples in order, stopping at the
    first one that crashes the driver, then the row. `made` are the calls
    made before stopping.
   */
  method KeywordPass(network: Network<Call>, ghost measured: Samples<Call>, tasks: seq<Task>, i: nat)
    returns (row: Option<Row>, made: seq<Call>)
    requires measured == Measurements(network)
    requires i < |tasks|
    ensures row == KeywordRow(measured, tasks, i)
    ensures made <= KeywordCalls(tasks[i])
    ensures row.Some? ==> made == KeywordCalls(tasks[i])
  {
    ghost var samples := KeywordSamples(measured, tasks, i);
    var keyword := tasks[i].keyword;
    var calls := [
      Call(Prod, AsIs(keyword), Iterations),
      Call(Alpha, AsIs(keyword), Iterations),
      Call(Alpha, IdSort(keyword, tasks[i].weights), Iterations),
      Call(Alpha, RandomSort(keyword, tasks[i].weights), Iterations)];
    assert calls == KeywordCalls(tasks[i]);

    var prod, _ := GetQueryTime(network(4 * i, calls[0]), Iterations);
    made := calls[..1];
    if !prod.Measured? {
      assert !samples[0].Measured?;
      return None, made;
    }
    var alpha, _ := GetQueryTime(network(4 * i + 1, calls[1]), Iterations);
    made := calls[..2];
    if !alpha.Measured? {
      assert !samples[1].Measured?;
      return None, made;
    }
    var id, _ := GetQueryTime(network(4 * i + 2, calls[2]), Iterations);
    made := calls[..3];
    if !id.Measured? {
      assert !samples[2].Measured?;
      return None, made;
    }
    var random, _ := GetQueryTime(network(4 * i + 3, calls[3]), Iterations);
    made := calls;
    assert samples == [prod, alpha, id, random];
    if !random.Measured? || alpha.mean == 0.0 {
      return None, made;
    }
    row := Some(Row(
      keyword,
      prod.mean,
      Predicted(prod.mean, id.mean, alpha.mean),
      Predicted(prod.mean, random.mean, alpha.mean),
      alpha.mean,
      id.mean,
      random.mean));
  }

  /** The driver loop; `calls` are the `get_query_time` calls it makes, in order. */
  method RunBench(network: Network<Call>, log: seq<Keyword>) returns (results: Option<seq<Row>>, calls: seq<Call>)
    ensures results == Bench(Measurements(network), log)
    ensures calls <= Plan(Tasks(log))
    ensures results.Some? ==> calls == Plan(Tasks(log))
  {
    var tasks := Tasks(log);
    ghost var measured := Measurements(network);
    ghost var steps := KeywordRows(measured, tasks);
    var rows: seq<Row> := [];
    calls := [];
    for i := 0 to |tasks|
      invariant Collect(steps[..i]) == Some(rows)
      invariant calls == Plan(tasks[..i])
    {
      var row, made := KeywordPass(network, measured, tasks, i);
      PlanStep(tasks, i);
      PlanPrefix(tasks, i + 1);
      PrefixAppend(calls, made, KeywordCalls(tasks[i]));
      CollectStep(steps, i);
      assert steps[i] == row;
      calls := calls + made;
      if row.None? {
        CrashStops(steps, i + 1);
        PrefixTrans(calls, Plan(tasks[..i + 1]), Plan(tasks));
        return None, calls;
      }
      rows := rows + [row.value];
    }
    assert steps[..|tasks|] == steps;
    assert tasks[..|tasks|] == tasks;
    results := Some(rows);
  }

  // Properties

  /** The plan for one more keyword is the plan so far followed by that keyword's calls. */
  lemma PlanStep(tasks: seq<Task>, i: nat)
    requires i < |tasks|
    ensures Plan(tasks[..i + 1]) == Plan(tasks[..i]) + KeywordCalls(tasks[i])
  {
    assert tasks[..i + 1][..i] == tasks[..i];
  }

  /** The calls planned for a prefix of the keywords are a prefix of the whole plan. */
  lemma {:induction false} PlanPrefix(tasks: seq<Task>, i: nat)
    requires i <= |tasks|
    ensures Plan(tasks[..i]) <= Plan(tasks)
    decreases |tasks| - i
  {
    if i < |tasks| {
      PlanPrefix(tasks, i + 1);
      assert tasks[..i + 1][..i] == tasks[..i];
    } else {
      assert tasks[..i] == tasks;
    }
  }

  /**
    A run that writes gives one row per keyword, in log order; each row holds
    that keyword's four measured means and the two predicted production
    times, and the deployed body's staging mean is not zero.
   */
  lemma BenchRows(samples: Samples<Call>, log: seq<Keyword>)
    ensures Bench(samples, log).Some? ==>
      && |Bench(samples, log).value| == |log|
      && forall i :: 0 <= i < |log| ==>
        var row := Bench(samples, log).value[i];
        var s := KeywordSamples(samples, Tasks(log), i);
        && s[0].Measured? && s[1].Measured? && s[2].Measured? && s[3].Measured? && s[1].mean != 0.0
        && row.query == log[i].queryText
        && row.timeProdAsis == s[0].mean && row.timeAlphaAsis == s[1].mean
        && row.timeAlphaIdsort == s[2].mean && row.timeAlphaRandomsort == s[3].mean
        && row.timeProdIdsortPred == Predicted(s[0].mean, s[2].mean, s[1].mean)
        && row.timeProdRandomsortPred == Predicted(s[0].mean, s[3].mean, s[1].mean)
  {
    var tasks := Tasks(log);
    var steps := KeywordRows(samples, tasks);
    CollectSpec(steps);
    if Bench(samples, log).Some? {
      var rows := Bench(samples, log).value;
      forall i | 0 <= i < |log|
        ensures var s := KeywordSamples(samples, tasks, i);
          && s[0].Measured? && s[1].Measured? && s[2].Measured? && s[3].Measured? && s[1].mean != 0.0
          && rows[i].query == log[i].queryText
          && rows[i].timeProdAsis == s[0].mean && rows[i].timeAlphaAsis == s[1].mean
          && rows[i].timeAlphaIdsort == s[2].mean && rows[i].timeAlphaRandomsort == s[3].mean
          && rows[i].timeProdIdsortPred == Predicted(s[0].mean, s[2].mean, s[1].mean)
          && rows[i].timeProdRandomsortPred == Predicted(s[0].mean, s[3].mean, s[1].mean)
      {
        assert steps[i] == KeywordRow(samples, tasks, i);
        assert steps[i].Some? && rows[i] == steps[i].value;
      }
    }
  }

  /** A keyword on which a sample is not a measurement makes the whole run write nothing. */
  lemma FailedSampleWritesNothing(samples: Samples<Call>, log: seq<Keyword>, i: nat, j: nat)
    requires i < |log| && j < 4
    requires !KeywordSamples(samples, Tasks(log), i)[j].Measured?
    ensures Bench(samples, log) == None
  {
    CollectSpec(KeywordRows(samples, Tasks(log)));
    assert KeywordRows(samples, Tasks(log))[i].None?;
  }

  /** Call `4 * i + j` of a run is call `j` of keyword `i`, made with that keyword's collapsed weights. */
  lemma {:induction false} PlanOrder(tasks: seq<Task>, i: nat, j: nat)
    requires i < |tasks| && j < 4
    ensures Plan(tasks)[4 * i + j] == KeywordCalls(tasks[i])[j]
    decreases |tasks|
  {
    if i < |tasks| - 1 {
      PlanOrder(tasks[..|tasks| - 1], i, j);
    }
  }

  /** The bodies of one keyword: the deployed body twice, then idsort and randomsort with the collapsed weights as a JSON object. */
  lemma KeywordBodies(task: Task)
    ensures BodyJson(KeywordCalls(task)[0].body) == CurrentDsl(task.keyword)
    ensures BodyJson(KeywordCalls(task)[1].body) == CurrentDsl(task.keyword)
    ensures BodyJson(KeywordCalls(task)[2].body) == IdSortDsl(task.keyword, ToJson(task.weights))
    ensures BodyJson(KeywordCalls(task)[3].body) == RandomSortDsl(task.keyword, ToJson(task.weights))
  {
  }
}
