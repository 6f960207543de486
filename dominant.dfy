/**
 * The dominant type of a group: `max(types_in_group, key=types_in_group.count)`
 * (other/greedy_grouping.py, lines 88-92). Python's `max` keeps the first
 * element whose key is maximal, so ties go to the earliest occurrence.
 */
module Dominant {
  import opened Wrappers

  /** How often `x` occurs in `h` (`len([i for i in h if i == x])`). */
  function Count(h: seq<string>, x: string): nat
  {
    multiset(h)[x]
  }

  /** Python's `max` with a key: scan left to right, replace only on a strictly larger key. */
  function MaxByCount(h: seq<string>, i: nat, best: string): (r: string)
    requires i <= |h| && best in h
    ensures r in h
    decreases |h| - i
  {
    if i == |h| then best
    else if Count(h, h[i]) > Count(h, best) then MaxByCount(h, i + 1, h[i])
    else MaxByCount(h, i + 1, best)
  }

  /** The dominant type, or `None` when the history is empty. */
  function DominantType(h: seq<string>): (r: Option<string>)
    ensures r.None? <==> |h| == 0
    ensures r.Some? ==> r.value in h
  {
    if |h| == 0 then None else Some(MaxByCount(h, 1, h[0]))
  }

  /**
   * Independent reference definition: `d` occurs in `h` at index `i`, nothing
   * in `h` occurs more often than `d`, and every element before `i` occurs
   * strictly less often (so `i` is `d`'s first occurrence and `d` wins ties).
   */
  ghost predicate IsFirstMostFrequent(h: seq<string>, d: string)
  {
    exists i :: 0 <= i < |h| && h[i] == d && FirstMostFrequentAt(h, i)
  }

  ghost predicate FirstMostFrequentAt(h: seq<string>, i: int)
    requires 0 <= i < |h|
  {
    && (forall x :: Count(h, x) <= Count(h, h[i]))
    && (forall j :: 0 <= j < i ==> Count(h, h[j]) < Count(h, h[i]))
  }

  lemma {:induction false} MaxByCountSpec(h: seq<string>, i: nat, k: nat)
    requires 1 <= i <= |h| && k < i
    requires forall j :: 0 <= j < i ==> Count(h, h[j]) <= Count(h, h[k])
    requires forall j :: 0 <= j < k ==> Count(h, h[j]) < Count(h, h[k])
    ensures exists m :: 0 <= m < |h| && h[m] == MaxByCount(h, i, h[k]) &&
              (forall j :: 0 <= j < |h| ==> Count(h, h[j]) <= Count(h, h[m])) &&
              (forall j :: 0 <= j < m ==> Count(h, h[j]) < Count(h, h[m]))
    decreases |h| - i
  {
    if i == |h| {
    } else if Count(h, h[i]) > Count(h, h[k]) {
      MaxByCountSpec(h, i + 1, i);
    } else {
      MaxByCountSpec(h, i + 1, k);
    }
  }

  /** Elements that do not occur have count zero, so "most frequent among the elements" is "most frequent". */
  lemma MostFrequentAmongAll(h: seq<string>, m: nat)
    requires m < |h|
    requires forall j :: 0 <= j < |h| ==> Count(h, h[j]) <= Count(h, h[m])
    ensures forall x :: Count(h, x) <= Count(h, h[m])
  {
  }

  /** The dominant type of a non-empty history is its first most frequent element. */
  lemma DominantIsFirstMostFrequent(h: seq<string>)
    requires |h| > 0
    ensures DominantType(h).Some? && IsFirstMostFrequent(h, DominantType(h).value)
  {
    MaxByCountSpec(h, 1, 0);
    var m :| 0 <= m < |h| && h[m] == MaxByCount(h, 1, h[0]) &&
              (forall j :: 0 <= j < |h| ==> Count(h, h[j]) <= Count(h, h[m])) &&
              (forall j :: 0 <= j < m ==> Count(h, h[j]) < Count(h, h[m]));
    MostFrequentAmongAll(h, m);
    assert FirstMostFrequentAt(h, m);
  }

  /** At most one element is the first most frequent one. */
  lemma FirstMostFrequentUnique(h: seq<string>, d: string, e: string)
    requires IsFirstMostFrequent(h, d) && IsFirstMostFrequent(h, e)
    ensures d == e
  {
  }

  /** Both directions: `DominantType(h)` is `Some(d)` exactly when `d` is the first most frequent element. */
  lemma DominantTypeCharacterized(h: seq<string>, d: string)
    ensures DominantType(h) == Some(d) <==> IsFirstMostFrequent(h, d)
  {
    if |h| == 0 {
    } else {
      DominantIsFirstMostFrequent(h);
      if IsFirstMostFrequent(h, d) {
        FirstMostFrequentUnique(h, d, DominantType(h).value);
      }
    }
  }

  /** Ties among the most frequent elements go to the one that occurs first. */
  lemma DominantTieBreak(h: seq<string>, j: nat, x: string)
    requires j < |h| && h[j] == x && |h| > 0
    requires Count(h, x) == Count(h, DominantType(h).value)
    ensures DominantType(h).value in h[..j + 1]
  {
    DominantIsFirstMostFrequent(h);
    var d := DominantType(h).value;
    var i :| 0 <= i < |h| && h[i] == d && FirstMostFrequentAt(h, i);
    assert i <= j;
    assert h[..j + 1][i] == d;
  }
}
