/**
 * Concrete and parametric scenarios of the run-segmentation engine
 * (other/greedy_grouping.py, lines 23-118).
 */
module Scenarios {
  import opened Wrappers
  import opened Dominant
  import opened Segmentation

  /** A confident single-row prediction. */
  function Sure(t: string): Slot
  {
    Single(Some(t), 0.9)
  }

  /** The synthesized placeholder of a missing position. */
  const Gap: Slot := Single(None, NO_CONF)

  /** Confident labels A,A,A,B,B,A,A. */
  const Example: seq<Slot> := [Sure("A"), Sure("A"), Sure("A"), Sure("B"), Sure("B"), Sure("A"), Sure("A")]

  lemma ExampleFirstGroup()
    ensures StateAt(Example, 3) == State(0, ["A", "A", "A"])
    ensures !IsSplit(Example, 0) && !IsSplit(Example, 1) && !IsSplit(Example, 2)
  {
  }

  lemma ExampleSplit()
    ensures IsSplit(Example, 3)
    ensures StateAt(Example, 4) == State(1, [])
  {
  }

  lemma ExampleSecondGroup()
    ensures !IsSplit(Example, 4) && !IsSplit(Example, 5) && !IsSplit(Example, 6)
    ensures StateAt(Example, 5) == State(1, ["B"]) && StateAt(Example, 6).group == 1
  {
    ExampleSplit();
    assert StateAt(Example, 5) == Step(Example, 4, State(1, []));
    assert DominantType(["B"]) == Some("B");
    assert Count(["B"], "B") == 1;
    assert StateAt(Example, 6) == Step(Example, 5, State(1, ["B"]));
  }

  /**
   * Confident labels A,A,A,B,B,A,A give groups 0,0,0,1,1,1,1: the established
   * A is broken by two B's in a row, the first B is moved into the new group,
   * and the return to A does not split again because B was seen only once.
   */
  lemma WorkedExample()
    ensures Groups(Example) == [0, 0, 0, 1, 1, 1, 1]
  {
    ExampleFirstGroup();
    ExampleSplit();
    ExampleSecondGroup();
    GroupsStartAtZero(Example);
    GroupsStep(Example, 0);
    GroupsStep(Example, 1);
    GroupsStep(Example, 2);
    GroupsStep(Example, 3);
    GroupsStep(Example, 4);
    GroupsStep(Example, 5);
  }

  /**
   * The split guard rules out "undefined" but not `None`: after a confidently
   * established type, two missing positions in a row read `None == None` and
   * open a new group.
   */
  lemma TwoGapsSplit()
    ensures Groups([Sure("asphalt"), Sure("asphalt"), Gap, Gap]) == [0, 0, 1, 1]
  {
    var s := [Sure("asphalt"), Sure("asphalt"), Gap, Gap];
    assert StateAt(s, 1) == State(0, ["asphalt"]);
    assert DominantType(["asphalt"]) == Some("asphalt");
    assert StateAt(s, 2) == State(0, ["asphalt", "asphalt"]);
    assert DominantType(["asphalt", "asphalt"]) == Some("asphalt");
    assert Count(["asphalt", "asphalt"], "asphalt") == 2 by {
      assert multiset(["asphalt", "asphalt"]) == multiset{"asphalt", "asphalt"};
    }
    assert IsSplit(s, 2);
    assert StateAt(s, 3) == State(1, []);
    assert Groups(s)[0] == 0 && Groups(s)[1] == 0 && Groups(s)[2] == 1 && Groups(s)[3] == 1;
  }

  /**
   * A position with several rows reads as "undefined" when it is current, so it
   * never opens a group itself, even where a gap would.
   */
  lemma AmbiguousDoesNotSplit()
    ensures Groups([Sure("asphalt"), Sure("asphalt"), Ambiguous, Gap]) == [0, 0, 0, 0]
  {
    var s := [Sure("asphalt"), Sure("asphalt"), Ambiguous, Gap];
    assert StateAt(s, 1) == State(0, ["asphalt"]);
    assert DominantType(["asphalt"]) == Some("asphalt");
    assert StateAt(s, 2) == State(0, ["asphalt", "asphalt"]);
    assert !IsSplit(s, 2);
    assert StateAt(s, 3) == State(0, ["asphalt", "asphalt"]);
    assert Groups(s)[0] == 0 && Groups(s)[1] == 0 && Groups(s)[2] == 0 && Groups(s)[3] == 0;
  }

  // ---------------------------------------------------------------------------
  // A single outlier never splits

  /** The label at position `q` when every position reads `a` except position `k`, which reads `b`. */
  function OutlierLabel(a: string, b: string, k: nat, q: nat): string
  {
    if q == k then b else a
  }

  /** The labels of positions `0..p-1` in that order. */
  function OutlierLabels(a: string, b: string, k: nat, p: nat): (h: seq<string>)
    ensures |h| == p
  {
    if p == 0 then [] else OutlierLabels(a, b, k, p - 1) + [OutlierLabel(a, b, k, p - 1)]
  }

  lemma {:induction false} OutlierLabelsCount(a: string, b: string, k: nat, p: nat)
    requires a != b
    ensures 0 < k && p > 0 ==> OutlierLabels(a, b, k, p)[0] == a
    ensures Count(OutlierLabels(a, b, k, p), b) == (if k < p then 1 else 0)
    ensures forall x :: x != a && x != b ==> Count(OutlierLabels(a, b, k, p), x) == 0
  {
    if p > 0 {
      var prev := OutlierLabels(a, b, k, p - 1);
      OutlierLabelsCount(a, b, k, p - 1);
      assert multiset(OutlierLabels(a, b, k, p)) == multiset(prev) + multiset{OutlierLabel(a, b, k, p - 1)};
      assert p - 1 > 0 ==> OutlierLabels(a, b, k, p)[0] == prev[0];
      assert p == 1 ==> OutlierLabels(a, b, k, p)[0] == OutlierLabel(a, b, k, 0);
      forall x | x != a && x != b ensures Count(OutlierLabels(a, b, k, p), x) == 0 {
        assert Count(prev, x) == 0;
      }
    }
  }

  /**
   * While only one position has diverged, the dominant type is `a`, or `b` seen
   * only once; when the outlier is not the first label, `a` wins the tie.
   */
  lemma OutlierDominant(a: string, b: string, k: nat, p: nat)
    requires a != b && 0 < p
    ensures var h := OutlierLabels(a, b, k, p);
      DominantType(h) == Some(a) || (DominantType(h) == Some(b) && Count(h, b) <= 1)
    ensures 0 < k ==> DominantType(OutlierLabels(a, b, k, p)) == Some(a)
  {
    var h := OutlierLabels(a, b, k, p);
    OutlierLabelsCount(a, b, k, p);
    var d := DominantType(h).value;
    assert Count(h, d) > 0;
    if 0 < k {
      assert h[0] == a;
      assert Count(h, a) >= 1;
      assert FirstMostFrequentAt(h, 0);
      DominantTypeCharacterized(h, a);
    }
  }

  lemma OutlierNoSplit(slots: seq<Slot>, a: string, b: string, k: nat, p: nat)
    requires a != b && a != UNDEFINED && b != UNDEFINED && k < |slots|
    requires forall q :: 0 <= q < |slots| ==>
               slots[q].Single? && slots[q].typePred == Some(OutlierLabel(a, b, k, q)) && slots[q].conf > TRUST_THRESHOLD
    requires p < |slots| && StateAt(slots, p) == State(0, OutlierLabels(a, b, k, p))
    ensures !IsSplit(slots, p)
  {
    if p > 0 && p + 1 < |slots| && OutlierLabel(a, b, k, p) == OutlierLabel(a, b, k, p + 1) {
      assert OutlierLabel(a, b, k, p) == a;
      OutlierDominant(a, b, k, p);
    }
  }

  /** A position before the last does not split and appends its confident label to the history. */
  lemma OutlierStep(slots: seq<Slot>, a: string, b: string, k: nat, p: nat)
    requires a != b && a != UNDEFINED && b != UNDEFINED && k < |slots|
    requires forall q :: 0 <= q < |slots| ==>
               slots[q].Single? && slots[q].typePred == Some(OutlierLabel(a, b, k, q)) && slots[q].conf > TRUST_THRESHOLD
    requires p + 1 < |slots| && StateAt(slots, p) == State(0, OutlierLabels(a, b, k, p))
    ensures StateAt(slots, p + 1) == State(0, OutlierLabels(a, b, k, p + 1))
  {
    OutlierNoSplit(slots, a, b, k, p);
    assert StateAt(slots, p + 1) == Step(slots, p, StateAt(slots, p));
  }

  lemma {:induction false} OutlierStates(slots: seq<Slot>, a: string, b: string, k: nat, p: nat)
    requires a != b && a != UNDEFINED && b != UNDEFINED && k < |slots|
    requires forall q :: 0 <= q < |slots| ==>
               slots[q].Single? && slots[q].typePred == Some(OutlierLabel(a, b, k, q)) && slots[q].conf > TRUST_THRESHOLD
    requires p < |slots|
    ensures StateAt(slots, p) == State(0, OutlierLabels(a, b, k, p))
  {
    if p > 0 {
      OutlierStates(slots, a, b, k, p - 1);
      OutlierStep(slots, a, b, k, p - 1);
    }
  }

  /**
   * Confident identical labels with one differing label, wherever it is, produce
   * a single group: a lone divergence is never corroborated.
   */
  lemma SingleOutlierOneGroup(slots: seq<Slot>, a: string, b: string, k: nat)
    requires a != b && a != UNDEFINED && b != UNDEFINED && k < |slots|
    requires forall q :: 0 <= q < |slots| ==>
               slots[q].Single? && slots[q].typePred == Some(OutlierLabel(a, b, k, q)) && slots[q].conf > TRUST_THRESHOLD
    ensures forall q :: 0 <= q < |slots| ==> Groups(slots)[q] == 0
  {
    forall q | 0 <= q < |slots| ensures Groups(slots)[q] == 0 {
      OutlierStates(slots, a, b, k, q);
      OutlierNoSplit(slots, a, b, k, q);
    }
  }
}
