/**
  `get_query_time`: send one request body `iterations` times, retrying a
  request that raises up to three times, stop at the first non-200 status,
  and reduce the collected `took` readings. The HTTP calls are replaced by an
  injected stream of attempt outcomes, consumed one per request.
 */
module Sampler {
  import opened Wrappers
  import opened Stats

  /** The two clusters both drivers measure: production and the staging ("alpha") cluster. */
  datatype Host = Prod | Alpha

  /** Every request of both drivers searches this one index. */
  const IndexName: string := "ads-catalog-product-serving-v2"

  /** What one request does: it raises, or it returns a status and the `took` value of its body. */
  datatype Attempt = Raised | Reply(status: int, took: int)

  datatype Response = Response(status: int, took: int)

  /** Why the sampling loop stopped: `response` was never bound, a status other than 200, or all iterations done. */
  datatype Stop = Unbound | BadStatus(status: int) | Done

  /** The run of the sampling loop: how it stopped, the readings it collected and how many attempts it consumed. */
  datatype Trace = Trace(stop: Stop, readings: seq<int>, attempts: nat)

  /** What `get_query_time` delivers: a crash on an unbound response, None, or the mean and the sorted kept readings. */
  datatype Sample = Crashed | Aborted | Measured(mean: real, times: seq<int>)

  /**
    The search cluster as a driver run meets it: the attempt outcomes that
    `get_query_time` call number `n`, a call of type `C`, consumes in turn.
   */
  type Network<-C> = (nat, C) -> nat -> Attempt

  /** What each `get_query_time` call of a driver run delivers. */
  type Samples<-C> = (nat, C) -> Sample

  /** The `while retry` loop from attempt `next` on: the position after it and the response it leaves bound. */
  function Retry(outcomes: nat -> Attempt, next: nat, retry: nat, response: Option<Response>): (nat, Option<Response>)
    decreases retry
  {
    if retry == 0 then (next, response)
    else match outcomes(next)
      case Raised => Retry(outcomes, next + 1, retry - 1, response)
      case Reply(status, took) => (next + 1, Some(Response(status, took)))
  }

  /** The remaining `left` iterations of the `for` loop. */
  function Iterate(outcomes: nat -> Attempt, left: nat, next: nat, response: Option<Response>, readings: seq<int>): Trace
    decreases left
  {
    if left == 0 then Trace(Done, readings, next)
    else
      var (next', response') := Retry(outcomes, next, 3, response);
      match response'
      case None => Trace(Unbound, readings, next')
      case Some(r) =>
        if r.status != 200 then Trace(BadStatus(r.status), readings, next')
        else Iterate(outcomes, left - 1, next', response', readings + [r.took])
  }

  function Run(outcomes: nat -> Attempt, iterations: nat): Trace
  {
    Iterate(outcomes, iterations, 0, None, [])
  }

  function QueryTime(outcomes: nat -> Attempt, iterations: nat): Sample
  {
    var t := Run(outcomes, iterations);
    match t.stop
    case Unbound => Crashed
    case BadStatus(_) => Aborted
    case Done => var (mean, times) := Reduce(t.readings); Measured(mean, times)
  }

  /** The response `response` holds once attempts `0..end` are made: the latest of them that did not raise. */
  function LastReply(outcomes: nat -> Attempt, end: nat): Option<Response>
    decreases end
  {
    if end == 0 then None
    else match outcomes(end - 1)
      case Raised => LastReply(outcomes, end - 1)
      case Reply(status, took) => Some(Response(status, took))
  }

  /** The attempt position reached by the retry loops of the first `i` iterations. */
  function IterationEnd(outcomes: nat -> Attempt, i: nat): nat
  {
    if i == 0 then 0 else Retry(outcomes, IterationEnd(outcomes, i - 1), 3, None).0
  }

  /** The `took` iteration `i` records: that of the latest reply once its retry loop is over. */
  function ReadingOf(outcomes: nat -> Attempt, i: nat): Option<int>
  {
    match LastReply(outcomes, IterationEnd(outcomes, i + 1))
    case Some(r) => Some(r.took)
    case None => None
  }

  /** `get_query_time` over the attempt stream; `attempts` is how many requests it sent. */
  method GetQueryTime(outcomes: nat -> Attempt, iterations: nat) returns (result: Sample, attempts: nat)
    ensures result == QueryTime(outcomes, iterations)
    ensures attempts == Run(outcomes, iterations).attempts
  {
    var times: seq<int> := [];
    var response: Option<Response> := None;
    var next: nat := 0;
    for i := 0 to iterations
      invariant Iterate(outcomes, iterations - i, next, response, times) == Run(outcomes, iterations)
    {
      var retry: nat := 3;
      ghost var after := Retry(outcomes, next, retry, response);
      while retry > 0
        invariant Retry(outcomes, next, retry, response) == after
        decreases retry
      {
        match outcomes(next) {
          case Raised =>
            retry := retry - 1;
          case Reply(status, took) =>
            response := Some(Response(status, took));
            retry := 0;
        }
        next := next + 1;
      }
      if response.None? {
        return Crashed, next;
      }
      if response.value.status != 200 {
        return Aborted, next;
      }
      times := times + [response.value.took];
    }
    var (mean, sorted) := Reduce(times);
    result := Measured(mean, sorted);
    attempts := next;
  }

  // Properties

  /** One retry loop: it makes 1 to `retry` attempts, every attempt but the last raised, a reply ends it and binds the response, and if all raised the old response stays bound. */
  lemma {:induction false} RetrySpec(outcomes: nat -> Attempt, next: nat, retry: nat, response: Option<Response>)
    ensures retry == 0 ==> Retry(outcomes, next, retry, response) == (next, response)
    ensures retry > 0 ==> next < Retry(outcomes, next, retry, response).0 <= next + retry
    ensures forall k :: next <= k < Retry(outcomes, next, retry, response).0 - 1 ==> outcomes(k).Raised?
    ensures retry > 0 && outcomes(Retry(outcomes, next, retry, response).0 - 1).Reply? ==>
      var last := outcomes(Retry(outcomes, next, retry, response).0 - 1);
      Retry(outcomes, next, retry, response).1 == Some(Response(last.status, last.took))
    ensures retry > 0 && outcomes(Retry(outcomes, next, retry, response).0 - 1).Raised? ==>
      Retry(outcomes, next, retry, response) == (next + retry, response)
    decreases retry
  {
    if retry > 0 && outcomes(next).Raised? {
      RetrySpec(outcomes, next + 1, retry - 1, response);
    }
  }

  /** Once a response is bound it stays bound, so a later iteration whose attempts all raise cannot crash. */
  lemma {:induction false} BoundStaysBound(outcomes: nat -> Attempt, left: nat, next: nat, r: Response, readings: seq<int>)
    ensures Iterate(outcomes, left, next, Some(r), readings).stop != Unbound
    decreases left
  {
    if left > 0 {
      RetrySpec(outcomes, next, 3, Some(r));
      var (next', response') := Retry(outcomes, next, 3, Some(r));
      if response'.value.status == 200 {
        BoundStaysBound(outcomes, left - 1, next', response'.value, readings + [response'.value.took]);
      }
    }
  }

  /** What the remaining iterations do with the readings and the attempts. */
  lemma {:induction false} IterateSpec(outcomes: nat -> Attempt, left: nat, next: nat, response: Option<Response>, readings: seq<int>)
    requires response.Some? ==> response.value.status == 200
    ensures var t := Iterate(outcomes, left, next, response, readings);
      && readings <= t.readings && |t.readings| <= |readings| + left
      && next <= t.attempts <= next + 3 * left
      && (t.stop == Done ==> |t.readings| == |readings| + left && next + left <= t.attempts)
      && (t.stop.BadStatus? ==> t.stop.status != 200 && next < t.attempts && outcomes(t.attempts - 1).Reply? && outcomes(t.attempts - 1).status == t.stop.status)
      && (forall k :: next <= k < t.attempts && outcomes(k).Reply? && outcomes(k).status != 200 ==> t.stop.BadStatus? && k == t.attempts - 1)
    decreases left
  {
    if left > 0 {
      RetrySpec(outcomes, next, 3, response);
      var (next', response') := Retry(outcomes, next, 3, response);
      if response'.Some? && response'.value.status == 200 {
        IterateSpec(outcomes, left - 1, next', response', readings + [response'.value.took]);
        var t := Iterate(outcomes, left, next, response, readings);
        assert outcomes(next' - 1).Reply? ==> outcomes(next' - 1).status == 200;
        assert forall k :: next <= k < next' ==> outcomes(k).Raised? || outcomes(k).status == 200;
      }
    }
  }

  /** A retry loop leaves bound the latest reply so far, and where it ends does not depend on what was bound before. */
  lemma {:induction false} RetryLatest(outcomes: nat -> Attempt, next: nat, retry: nat, response: Option<Response>)
    requires response == LastReply(outcomes, next)
    ensures Retry(outcomes, next, retry, response).1 == LastReply(outcomes, Retry(outcomes, next, retry, response).0)
    ensures Retry(outcomes, next, retry, response).0 == Retry(outcomes, next, retry, None).0
    decreases retry
  {
    if retry > 0 && outcomes(next).Raised? {
      RetryLatest(outcomes, next + 1, retry - 1, response);
      if response.Some? {
        RetryEndIgnoresResponse(outcomes, next + 1, retry - 1, response);
      }
    }
  }

  lemma {:induction false} RetryEndIgnoresResponse(outcomes: nat -> Attempt, next: nat, retry: nat, response: Option<Response>)
    ensures Retry(outcomes, next, retry, response).0 == Retry(outcomes, next, retry, None).0
    decreases retry
  {
    if retry > 0 && outcomes(next).Raised? {
      RetryEndIgnoresResponse(outcomes, next + 1, retry - 1, response);
    }
  }

  /** From iteration `i` on, every reading added is the `took` that iteration records. */
  lemma {:induction false} IterateReadings(outcomes: nat -> Attempt, left: nat, i: nat, readings: seq<int>)
    requires |readings| == i
    requires forall m :: 0 <= m < i ==> Some(readings[m]) == ReadingOf(outcomes, m)
    ensures var t := Iterate(outcomes, left, IterationEnd(outcomes, i), LastReply(outcomes, IterationEnd(outcomes, i)), readings);
      forall m :: 0 <= m < |t.readings| ==> Some(t.readings[m]) == ReadingOf(outcomes, m)
    decreases left
  {
    if left > 0 {
      var e := IterationEnd(outcomes, i);
      RetryLatest(outcomes, e, 3, LastReply(outcomes, e));
      var (next', response') := Retry(outcomes, e, 3, LastReply(outcomes, e));
      assert next' == IterationEnd(outcomes, i + 1);
      if response'.Some? && response'.value.status == 200 {
        var more := readings + [response'.value.took];
        assert Some(more[i]) == ReadingOf(outcomes, i);
        IterateReadings(outcomes, left - 1, i + 1, more);
      }
    }
  }

  /** Reading `m` of `get_query_time` is the `took` of the latest reply once iteration `m`'s retry loop is over. */
  lemma ReadingsAreLatestTook(outcomes: nat -> Attempt, iterations: nat)
    ensures forall m :: 0 <= m < |Run(outcomes, iterations).readings| ==>
      Some(Run(outcomes, iterations).readings[m]) == ReadingOf(outcomes, m)
  {
    IterateReadings(outcomes, iterations, 0, []);
  }

  /** When every attempt is a 200 reply, each iteration makes one request and records its `took`. */
  lemma {:induction false} AllRepliesRead(outcomes: nat -> Attempt, left: nat, next: nat, response: Option<Response>, readings: seq<int>)
    requires forall k :: next <= k < next + left ==> outcomes(k).Reply? && outcomes(k).status == 200
    ensures var t := Iterate(outcomes, left, next, response, readings);
      && t.stop == Done && t.attempts == next + left
      && |t.readings| == |readings| + left && t.readings[..|readings|] == readings
      && forall k :: |readings| <= k < |t.readings| ==> t.readings[k] == outcomes(next + (k - |readings|)).took
    decreases left
  {
    if left > 0 {
      assert Retry(outcomes, next, 3, response) == (next + 1, Some(Response(200, outcomes(next).took)));
      var more := readings + [outcomes(next).took];
      AllRepliesRead(outcomes, left - 1, next + 1, Some(Response(200, outcomes(next).took)), more);
      var t := Iterate(outcomes, left, next, response, readings);
      assert t.readings[..|readings|] == more[..|readings|] == readings;
      assert t.readings[|readings|] == outcomes(next).took;
    }
  }

  /** `get_query_time` crashes exactly when all three attempts of its first iteration raise. */
  lemma CrashedIff(outcomes: nat -> Attempt, iterations: nat)
    ensures QueryTime(outcomes, iterations) == Crashed <==>
      iterations > 0 && outcomes(0).Raised? && outcomes(1).Raised? && outcomes(2).Raised?
  {
    if iterations > 0 {
      RetrySpec(outcomes, 0, 3, None);
      var (next', response') := Retry(outcomes, 0, 3, None);
      if response'.Some? && response'.value.status == 200 {
        BoundStaysBound(outcomes, iterations - 1, next', response'.value, [] + [response'.value.took]);
      }
      if outcomes(0).Raised? && outcomes(1).Raised? && outcomes(2).Raised? {
        assert 1 <= next' <= 3;
        assert outcomes(next' - 1).Raised?;
      } else {
        assert outcomes(next' - 1).Reply?;
      }
    }
  }

  /** None comes from the first reply whose status is not 200, the last attempt made; every earlier reply was a 200. */
  lemma AbortedSpec(outcomes: nat -> Attempt, iterations: nat)
    ensures QueryTime(outcomes, iterations) == Aborted ==>
      var n := Run(outcomes, iterations).attempts;
      && n > 0 && outcomes(n - 1).Reply? && outcomes(n - 1).status != 200
      && forall k :: 0 <= k < n - 1 && outcomes(k).Reply? ==> outcomes(k).status == 200
  {
    IterateSpec(outcomes, iterations, 0, None, []);
  }

  /** A completed sample holds one reading per iteration, the `took` that iteration records; the result is those readings trimmed, sorted and averaged. */
  lemma MeasuredSpec(outcomes: nat -> Attempt, iterations: nat)
    ensures QueryTime(outcomes, iterations).Measured? ==>
      var t := Run(outcomes, iterations);
      var s := QueryTime(outcomes, iterations);
      && |t.readings| == iterations
      && iterations <= t.attempts <= 3 * iterations
      && Sorted(s.times) && multiset(s.times) == multiset(Kept(t.readings))
      && s.mean == Mean(Kept(t.readings))
      && forall m :: 0 <= m < iterations ==> Some(t.readings[m]) == ReadingOf(outcomes, m)
  {
    IterateSpec(outcomes, iterations, 0, None, []);
    ReadingsAreLatestTook(outcomes, iterations);
    ReduceSpec(Run(outcomes, iterations).readings);
  }

  /** When all attempts of a later iteration raise, the previous response is read again: its `took` is recorded twice. */
  lemma StaleResponseRepeats()
    ensures Run((k: nat) => if k == 0 then Reply(200, 7) else Raised, 2) == Trace(Done, [7, 7], 4)
  {
    var outcomes := (k: nat) => if k == 0 then Reply(200, 7) else Raised;
    assert Retry(outcomes, 0, 3, None) == (1, Some(Response(200, 7)));
    assert Retry(outcomes, 1, 3, Some(Response(200, 7))) == (4, Some(Response(200, 7)));
  }
}
