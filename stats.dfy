/**
  The reduction of one sample of latency readings: a positional trim in
  arrival order, an ascending sort of what is kept, and the mean.
 */
module Stats {

  /** The number of readings the trim drops from the front: a tenth of the readings, rounded down. */
  function Cut(n: nat): (c: nat)
    ensures 10 * c <= n < 10 * (c + 1)
  {
    n / 10
  }

  /** Python's `s[lo:hi]` for non-negative bounds: each bound is clamped to the length, and a reversed range is empty. */
  function Slice<T>(s: seq<T>, lo: nat, hi: nat): (r: seq<T>)
    ensures lo <= hi <= |s| ==> r == s[lo..hi]
    ensures lo <= |s| <= hi ==> r == s[lo..]
    ensures hi <= lo || |s| <= lo ==> r == []
  {
    var l := if lo < |s| then lo else |s|;
    var h := if hi < |s| then hi else |s|;
    if l <= h then s[l..h] else []
  }

  /** The readings the trim keeps: `times[cut : n - cut + 1]`. */
  function Kept(times: seq<int>): seq<int>
  {
    var n := |times|;
    Slice(times, Cut(n), n - Cut(n) + 1)
  }

  /** The kept readings are those at arrival positions `cut` to `n - cut` inclusive: all of them when the cut is zero, otherwise `cut` fewer at the front but only `cut - 1` fewer at the back. */
  lemma KeptPositions(times: seq<int>)
    ensures Cut(|times|) == 0 ==> Kept(times) == times
    ensures Cut(|times|) > 0 ==> Kept(times) == times[Cut(|times|)..|times| - Cut(|times|) + 1]
    ensures |Kept(times)| == if Cut(|times|) == 0 then |times| else |times| - 2 * Cut(|times|) + 1
    ensures Kept(times) == [] <==> times == []
  {
  }

  predicate Sorted(s: seq<int>)
  {
    forall i, j :: 0 <= i < j < |s| ==> s[i] <= s[j]
  }

  function Sum(s: seq<int>): int
    decreases |s|
  {
    if s == [] then 0 else s[0] + Sum(s[1..])
  }

  /** `x` placed before the first larger element of `s`. */
  function Insert(x: int, s: seq<int>): seq<int>
    decreases |s|
  {
    if s == [] || x <= s[0] then [x] + s else [s[0]] + Insert(x, s[1..])
  }

  /** Python's `sorted` on integers, as an insertion sort. */
  function Sort(s: seq<int>): seq<int>
    decreases |s|
  {
    if s == [] then [] else Insert(s[0], Sort(s[1..]))
  }

  lemma {:induction false} InsertSpec(x: int, s: seq<int>)
    ensures multiset(Insert(x, s)) == multiset(s) + multiset{x}
    ensures Sum(Insert(x, s)) == x + Sum(s)
    decreases |s|
  {
    if s != [] && x > s[0] {
      InsertSpec(x, s[1..]);
      assert s == [s[0]] + s[1..];
    }
  }

  lemma {:induction false} InsertSorted(x: int, s: seq<int>)
    requires Sorted(s)
    ensures Sorted(Insert(x, s))
    decreases |s|
  {
    if s != [] && x > s[0] {
      InsertSorted(x, s[1..]);
      InsertSpec(x, s[1..]);
      var rest := Insert(x, s[1..]);
      forall i | 0 <= i < |rest|
        ensures s[0] <= rest[i]
      {
        assert rest[i] in multiset(rest);
        assert rest[i] in multiset(s[1..]) + multiset{x};
      }
    }
  }

  /** The sorted readings are ascending, the same readings, and add up to the same total. */
  lemma {:induction false} SortSpec(s: seq<int>)
    ensures Sorted(Sort(s))
    ensures multiset(Sort(s)) == multiset(s)
    ensures |Sort(s)| == |s|
    ensures Sum(Sort(s)) == Sum(s)
    decreases |s|
  {
    if s != [] {
      SortSpec(s[1..]);
      InsertSpec(s[0], Sort(s[1..]));
      InsertSorted(s[0], Sort(s[1..]));
      assert s == [s[0]] + s[1..];
      assert |Sort(s)| == |multiset(Sort(s))|;
    }
  }

  /** `sum(s) / len(s)`, or 0 for no readings. */
  function Mean(s: seq<int>): real
  {
    if |s| == 0 then 0.0 else Sum(s) as real / |s| as real
  }

  lemma {:induction false} SumBounds(s: seq<int>, lo: int, hi: int)
    requires forall i :: 0 <= i < |s| ==> lo <= s[i] <= hi
    ensures |s| * lo <= Sum(s) <= |s| * hi
    decreases |s|
  {
    if s != [] {
      SumBounds(s[1..], lo, hi);
    }
  }

  /** The mean of readings lies between their least and greatest value. */
  lemma MeanBounds(s: seq<int>, lo: int, hi: int)
    requires |s| > 0
    requires forall i :: 0 <= i < |s| ==> lo <= s[i] <= hi
    ensures lo as real <= Mean(s) <= hi as real
  {
    SumBounds(s, lo, hi);
    var n := |s| as real;
    assert n * (lo as real) <= Sum(s) as real <= n * (hi as real);
    assert (n * (lo as real)) / n == lo as real;
    assert (n * (hi as real)) / n == hi as real;
  }

  /** The reduction `get_query_time` returns for the readings it collected: the mean and the sorted kept readings. */
  function Reduce(times: seq<int>): (real, seq<int>)
  {
    var kept := Sort(Kept(times));
    (Mean(kept), kept)
  }

  /** The returned readings are the kept ones, ascending; the mean is theirs, and no readings give 0 and an empty list. */
  lemma ReduceSpec(times: seq<int>)
    ensures Sorted(Reduce(times).1) && multiset(Reduce(times).1) == multiset(Kept(times))
    ensures Reduce(times).0 == Mean(Kept(times))
    ensures Reduce(times).1 == [] <==> times == []
  {
    KeptPositions(times);
    SortSpec(Kept(times));
  }
}
