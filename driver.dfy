/**
  The shape both benchmark drivers share: a loop over the keywords that
  appends one row per keyword and crashes, writing nothing, at the first
  keyword whose row cannot be built. The table is written once, after the
  loop.
 */
module Driver {
  import opened Wrappers

  /** The rows appended for the given steps, in step order, or None once a step crashed. */
  function Collect<R>(steps: seq<Option<R>>): Option<seq<R>>
    decreases |steps|
  {
    if steps == [] then Some([])
    else
      match Collect(steps[..|steps| - 1])
      case None => None
      case Some(rows) =>
        match steps[|steps| - 1]
        case None => None
        case Some(row) => Some(rows + [row])
  }

  /** Rows are written exactly when every step gives one, and then row `k` is the row of step `k`. */
  lemma {:induction false} CollectSpec<R>(steps: seq<Option<R>>)
    ensures Collect(steps).Some? <==> forall k :: 0 <= k < |steps| ==> steps[k].Some?
    ensures Collect(steps).Some? ==>
      && |Collect(steps).value| == |steps|
      && forall k :: 0 <= k < |steps| ==> Collect(steps).value[k] == steps[k].value
    decreases |steps|
  {
    if steps != [] {
      var init := steps[..|steps| - 1];
      CollectSpec(init);
      assert forall k :: 0 <= k < |init| ==> init[k] == steps[k];
    }
  }

  /** A crash in the first `i` steps means nothing is written, whatever the later steps do. */
  lemma {:induction false} CrashStops<R>(steps: seq<Option<R>>, i: nat)
    requires i <= |steps|
    requires Collect(steps[..i]).None?
    ensures Collect(steps).None?
  {
    CollectSpec(steps[..i]);
    CollectSpec(steps);
    var k :| 0 <= k < i && steps[..i][k].None?;
    assert steps[k].None?;
  }

  /** One more step appends its row, or crashes. */
  lemma CollectStep<R>(steps: seq<Option<R>>, i: nat)
    requires i < |steps|
    ensures Collect(steps[..i + 1]) ==
      match Collect(steps[..i])
      case None => None
      case Some(rows) => if steps[i].Some? then Some(rows + [steps[i].value]) else None
  {
    assert steps[..i + 1][..i] == steps[..i];
  }

  /** A prefix of what follows a common start extends that start to a prefix. */
  lemma PrefixAppend<T>(done: seq<T>, made: seq<T>, planned: seq<T>)
    requires made <= planned
    ensures done + made <= done + planned
  {
  }

  lemma PrefixTrans<T>(a: seq<T>, b: seq<T>, c: seq<T>)
    requires a <= b && b <= c
    ensures a <= c
  {
    assert a == b[..|a|];
    assert b == c[..|b|];
    assert a == c[..|a|];
  }
}
