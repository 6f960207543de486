/**
 * The run-segmentation state machine of other/greedy_grouping.py (lines 23-118)
 * for one (way, road type) partition, given as its dense sequence of slots.
 */
module Segmentation {
  import opened Wrappers
  import opened Dominant

  /** The label the source substitutes when a position has several rows. */
  const UNDEFINED: string := "undefined"

  /** Confidence of the synthesized placeholder row and of an ambiguous slot. */
  const NO_CONF: real := -1.0

  /** A prediction must be strictly more confident than this to enter the history. */
  const TRUST_THRESHOLD: real := 0.5

  /**
   * One position of a dense partition: exactly one row (a real prediction or the
   * synthesized placeholder `Single(None, -1.0)`), or several rows.
   */
  datatype Slot = Single(typePred: Option<string>, conf: real) | Ambiguous

  /** `current_type`: the row's prediction, or "undefined" when the slot is not exactly one row. */
  function CurrentType(s: Slot): (r: Option<string>)
    ensures s.Single? ==> r == NextType(s)
    ensures s.Ambiguous? ==> r == Some(UNDEFINED) && NextType(s) == None
  {
    if s.Single? then s.typePred else Some(UNDEFINED)
  }

  /** `current_conf`: the row's confidence, or -1 when the slot is not exactly one row. */
  function CurrentConf(s: Slot): (r: real)
    ensures s.Single? ==> r == s.conf
    ensures s.Ambiguous? ==> r <= TRUST_THRESHOLD
  {
    if s.Single? then s.conf else NO_CONF
  }

  /** `next_type`: the row's prediction, or `None` when the slot is not exactly one row. */
  function NextType(s: Slot): (r: Option<string>)
    ensures r.Some? ==> s.Single? && r == s.typePred
  {
    if s.Single? then s.typePred else None
  }

  /** Engine state before a position: `current_group` and `types_in_group`. */
  datatype State = State(group: nat, history: seq<string>)

  const Initial: State := State(0, [])

  /** The split guard (lines 93-103); note it rules out "undefined" but not `None`. */
  predicate SplitsOn(history: seq<string>, current: Option<string>, next: Option<string>)
    // a split needs a dominant label seen at least twice, and the same other reading twice in a row
    ensures SplitsOn(history, current, next) ==>
      |history| >= 2 && current == next && current != Some(UNDEFINED) &&
      DominantType(history).Some? && current != DominantType(history)
  {
    && |history| > 0
    && current == next
    && current != Some(UNDEFINED)
    && current != DominantType(history)
    && Count(history, DominantType(history).value) > 1
  }

  /** The append guard (lines 113-117). */
  predicate IsConfident(current: Option<string>, conf: real)
    ensures IsConfident(current, conf) ==> current.Some? && current.value != UNDEFINED
    ensures conf <= TRUST_THRESHOLD ==> !IsConfident(current, conf)
  {
    current.Some? && current != Some(UNDEFINED) && conf > TRUST_THRESHOLD
  }

  /** Whether the state machine splits at position `p`, reading `slots[p]` and `slots[p + 1]`. */
  predicate SplitAt(slots: seq<Slot>, p: nat, st: State)
    requires p < |slots|
  {
    p + 1 < |slots| && SplitsOn(st.history, CurrentType(slots[p]), NextType(slots[p + 1]))
  }

  /** One iteration of the position loop. The last position changes nothing. */
  function Step(slots: seq<Slot>, p: nat, st: State): (r: State)
    requires p < |slots|
    // the group stays, or steps up by one exactly on a split, which empties the history
    ensures r.group == st.group + (if SplitAt(slots, p, st) then 1 else 0)
    ensures SplitAt(slots, p, st) ==> r.history == []
    // otherwise the history keeps its entries and gains at most one label, read from `slots[p]`
    ensures !SplitAt(slots, p, st) ==>
      r.history == st.history ||
      (IsConfident(CurrentType(slots[p]), CurrentConf(slots[p])) && r.history == st.history + [CurrentType(slots[p]).value])
    // the last position changes nothing
    ensures p + 1 == |slots| ==> r == st
  {
    if SplitAt(slots, p, st) then State(st.group + 1, [])
    else if p + 1 < |slots| && IsConfident(CurrentType(slots[p]), CurrentConf(slots[p])) then
      State(st.group, st.history + [CurrentType(slots[p]).value])
    else st
  }

  /** The state before position `p` is processed. */
  function StateAt(slots: seq<Slot>, p: nat): (st: State)
    requires p <= |slots|
    // at most one split and one history entry per processed position
    ensures st.group + |st.history| <= p
    ensures p == 0 ==> st == Initial
  {
    if p == 0 then Initial else Step(slots, p - 1, StateAt(slots, p - 1))
  }

  /** Whether a new group starts at position `p`. */
  predicate IsSplit(slots: seq<Slot>, p: nat)
    requires p < |slots|
  {
    SplitAt(slots, p, StateAt(slots, p))
  }

  /**
   * The group recorded for position `p`: first the group current before `p`,
   * overwritten with the new group when a split happens at `p`.
   */
  function GroupAt(slots: seq<Slot>, p: nat): nat
    requires p < |slots|
  {
    if IsSplit(slots, p) then StateAt(slots, p).group + 1 else StateAt(slots, p).group
  }

  /** The reference grouping of a whole partition, one group number per position. */
  function Groups(slots: seq<Slot>): (g: seq<nat>)
    ensures |g| == |slots|
  {
    seq(|slots|, p requires 0 <= p < |slots| => GroupAt(slots, p))
  }

  /**
   * The position loop as the source runs it: `group_num[p]` is written with the
   * current group, and overwritten after a split; `current_group` and the
   * history are updated in place.
   */
  method SegmentPartition(slots: seq<Slot>) returns (groups: seq<nat>)
    ensures groups == Groups(slots)
  {
    var n := |slots|;
    var groupNum := new nat[n];
    var currentGroup: nat := 0;
    var typesInGroup: seq<string> := [];
    var p := 0;
    while p < n
      invariant 0 <= p <= n
      invariant State(currentGroup, typesInGroup) == StateAt(slots, p)
      invariant forall q :: 0 <= q < p ==> groupNum[q] == GroupAt(slots, q)
    {
      groupNum[p] := currentGroup;
      var currentType := CurrentType(slots[p]);
      var currentConf := CurrentConf(slots[p]);
      if p < n - 1 {
        var nextType := NextType(slots[p + 1]);
        var dominantType := DominantType(typesInGroup);
        if |typesInGroup| > 0 && currentType == nextType && currentType != Some(UNDEFINED)
          && currentType != dominantType && Count(typesInGroup, dominantType.value) > 1
        {
          currentGroup := currentGroup + 1;
          typesInGroup := [];
          groupNum[p] := currentGroup;
        } else if currentType.Some? && currentType != Some(UNDEFINED) && currentConf > TRUST_THRESHOLD {
          typesInGroup := typesInGroup + [currentType.value];
        }
      }
      assert StateAt(slots, p + 1) == Step(slots, p, StateAt(slots, p));
      p := p + 1;
    }
    groups := groupNum[..];
  }

  // ---------------------------------------------------------------------------
  // Properties of the reference grouping

  /** The value written at `p` is the group after processing `p`. */
  lemma GroupIsStateAfter(slots: seq<Slot>, p: nat)
    requires p < |slots|
    ensures Groups(slots)[p] == StateAt(slots, p + 1).group
  {
  }

  /** The first position is in group 0. */
  lemma GroupsStartAtZero(slots: seq<Slot>)
    requires |slots| > 0
    ensures Groups(slots)[0] == 0
  {
  }

  /** Consecutive positions: the group stays, or steps up by one exactly when a split happens. */
  lemma GroupsStep(slots: seq<Slot>, p: nat)
    requires p + 1 < |slots|
    ensures Groups(slots)[p + 1] == Groups(slots)[p] + (if IsSplit(slots, p + 1) then 1 else 0)
  {
  }

  /** Contiguity and monotonicity: along positions groups never decrease and never skip a number. */
  lemma {:induction false} GroupsContiguous(slots: seq<Slot>, i: nat, j: nat)
    requires i <= j < |slots|
    ensures Groups(slots)[i] <= Groups(slots)[j] <= Groups(slots)[i] + (j - i)
    decreases j - i
  {
    if i < j {
      GroupsContiguous(slots, i, j - 1);
      GroupsStep(slots, j - 1);
    }
  }

  /** No split at the first position (empty history) nor at the last (no next position). */
  lemma NoSplitAtEnds(slots: seq<Slot>)
    requires |slots| > 0
    ensures !IsSplit(slots, 0) && !IsSplit(slots, |slots| - 1)
  {
  }

  /** After a split the history is empty, so the next two positions cannot split. */
  lemma SplitCooldown(slots: seq<Slot>, p: nat)
    requires p < |slots| && IsSplit(slots, p)
    ensures p + 1 < |slots| ==> !IsSplit(slots, p + 1)
    ensures p + 2 < |slots| ==> !IsSplit(slots, p + 2)
  {
  }

  /**
   * Only confident labels enter the history: every entry is a label other than
   * "undefined" read from an earlier single-row slot with confidence above 0.5.
   */
  lemma {:induction false} HistoryIsConfident(slots: seq<Slot>, p: nat)
    requires p <= |slots|
    ensures forall x :: x in StateAt(slots, p).history ==>
              x != UNDEFINED &&
              exists q :: 0 <= q < p && slots[q].Single? && slots[q].typePred == Some(x) && slots[q].conf > TRUST_THRESHOLD
  {
    if p > 0 {
      HistoryIsConfident(slots, p - 1);
    }
  }

  /** A partition in which no position carries a confident label stays in group 0 throughout. */
  lemma {:induction false} NoConfidentLabelsOneGroup(slots: seq<Slot>, p: nat)
    requires p <= |slots|
    requires forall q :: 0 <= q < |slots| ==> !IsConfident(CurrentType(slots[q]), CurrentConf(slots[q]))
    ensures StateAt(slots, p) == Initial
    ensures forall q :: 0 <= q < p ==> Groups(slots)[q] == 0
  {
    if p > 0 {
      NoConfidentLabelsOneGroup(slots, p - 1);
    }
  }

  /** The position at which the group current before `p` opened: 0, or one past the last split. */
  function GroupStart(slots: seq<Slot>, p: nat): (start: nat)
    requires p <= |slots|
    ensures start <= p
  {
    if p == 0 then 0 else if IsSplit(slots, p - 1) then p else GroupStart(slots, p - 1)
  }

  /** The confident labels read at positions `lo..hi-1`, in order, skipping the last position. */
  function ConfidentLabels(slots: seq<Slot>, lo: nat, hi: nat): seq<string>
    requires lo <= hi <= |slots|
    decreases hi - lo
  {
    if hi == lo then []
    else
      var q := hi - 1;
      ConfidentLabels(slots, lo, q) +
        (if q + 1 < |slots| && IsConfident(CurrentType(slots[q]), CurrentConf(slots[q]))
         then [CurrentType(slots[q]).value] else [])
  }

  /**
   * `types_in_group` is exactly the list of confident labels read since the
   * current group opened; the label that triggered the split is not in it.
   */
  lemma {:induction false} HistorySinceGroupStart(slots: seq<Slot>, p: nat)
    requires p <= |slots|
    ensures StateAt(slots, p).history == ConfidentLabels(slots, GroupStart(slots, p), p)
  {
    if p > 0 {
      HistorySinceGroupStart(slots, p - 1);
    }
  }

  /** A position with several rows neither splits nor changes the state. */
  lemma AmbiguousIsInert(slots: seq<Slot>, p: nat)
    requires p < |slots| && slots[p] == Ambiguous
    ensures !IsSplit(slots, p)
    ensures StateAt(slots, p + 1) == StateAt(slots, p)
    ensures Groups(slots)[p] == StateAt(slots, p).group
  {
  }
}
