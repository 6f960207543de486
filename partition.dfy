/**
 * The partition builder of other/greedy_grouping.py (lines 16-73): the rows of
 * one way, the way-wide maximum segment number, the road types seen on the
 * way, and the dense, gap-filled slot sequence of one (way, road type) pair.
 */
module Partition {
  import opened Wrappers
  import opened Segmentation

  /** One prediction row: `ID`, `segment_number`, `ROAD_TYPE`, `TYPE_PRED`, `CONF_SCORE`. */
  datatype Row = Row(way: int, segmentNumber: nat, roadType: string, typePred: Option<string>, confScore: real)

  predicate HasWay(rows: seq<Row>, way: int)
  {
    exists i :: 0 <= i < |rows| && rows[i].way == way
  }

  predicate IsAt(r: Row, way: int, roadType: string, pos: nat)
  {
    r.way == way && r.roadType == roadType && r.segmentNumber == pos
  }

  /** Two distinct rows of the table lie at the same position of a partition. */
  predicate TwoRowsAt(rows: seq<Row>, way: int, roadType: string, pos: nat)
  {
    exists i, j :: 0 <= i < j < |rows| && IsAt(rows[i], way, roadType, pos) && IsAt(rows[j], way, roadType, pos)
  }

  /** The rows selected by the mask `(ID == way) & (segment_number == pos) & (ROAD_TYPE == roadType)`. */
  function Matching(rows: seq<Row>, way: int, roadType: string, pos: nat): (m: seq<Row>)
    ensures forall r :: multiset(m)[r] == if IsAt(r, way, roadType, pos) then multiset(rows)[r] else 0
  {
    if rows == [] then []
    else
      assert rows == [rows[0]] + rows[1..];
      (if IsAt(rows[0], way, roadType, pos) then [rows[0]] else []) + Matching(rows[1..], way, roadType, pos)
  }

  /**
   * The slot of one position: the synthesized row (`TYPE_PRED` None, `CONF_SCORE` -1)
   * when nothing matches, the row itself when exactly one matches, and
   * `Ambiguous` when several do.
   */
  function SlotFor(rows: seq<Row>, way: int, roadType: string, pos: nat): (s: Slot)
    // a single-row slot is the placeholder or the reading of a row at that position
    ensures s.Single? ==>
      s == Single(None, NO_CONF) ||
      exists i :: 0 <= i < |rows| && IsAt(rows[i], way, roadType, pos) && s == Single(rows[i].typePred, rows[i].confScore)
    // an ambiguous slot has two distinct rows at that position
    ensures s.Ambiguous? ==> TwoRowsAt(rows, way, roadType, pos)
  {
    var m := Matching(rows, way, roadType, pos);
    if |m| == 0 then Single(None, NO_CONF)
    else if |m| == 1 then
      MatchIsRow(rows, way, roadType, pos);
      Single(m[0].typePred, m[0].confScore)
    else
      SeveralMatchesAreRows(rows, way, roadType, pos);
      Ambiguous
  }

  /** The first matching row is a row of the table at that position. */
  lemma MatchIsRow(rows: seq<Row>, way: int, roadType: string, pos: nat)
    requires |Matching(rows, way, roadType, pos)| >= 1
    ensures exists i :: 0 <= i < |rows| && IsAt(rows[i], way, roadType, pos) && rows[i] == Matching(rows, way, roadType, pos)[0]
  {
    var m := Matching(rows, way, roadType, pos);
    assert m[0] in multiset(m);
    assert m[0] in rows;
  }

  lemma MatchingLength(rows: seq<Row>, way: int, roadType: string, pos: nat)
    requires rows != []
    ensures |Matching(rows, way, roadType, pos)| ==
      (if IsAt(rows[0], way, roadType, pos) then 1 else 0) + |Matching(rows[1..], way, roadType, pos)|
  {
  }

  /** Two or more matches come from two distinct rows of the table. */
  lemma {:induction false} SeveralMatchesAreRows(rows: seq<Row>, way: int, roadType: string, pos: nat)
    requires |Matching(rows, way, roadType, pos)| >= 2
    ensures TwoRowsAt(rows, way, roadType, pos)
  {
    var tail := rows[1..];
    MatchingLength(rows, way, roadType, pos);
    if IsAt(rows[0], way, roadType, pos) {
      MatchIsRow(tail, way, roadType, pos);
      var k :| 0 <= k < |tail| && IsAt(tail[k], way, roadType, pos);
      assert IsAt(rows[k + 1], way, roadType, pos);
    } else {
      SeveralMatchesAreRows(tail, way, roadType, pos);
      TwoRowsInTail(rows, way, roadType, pos);
    }
  }

  lemma TwoRowsInTail(rows: seq<Row>, way: int, roadType: string, pos: nat)
    requires rows != [] && TwoRowsAt(rows[1..], way, roadType, pos)
    ensures TwoRowsAt(rows, way, roadType, pos)
  {
    var tail := rows[1..];
    var k, l :| 0 <= k < l < |tail| && IsAt(tail[k], way, roadType, pos) && IsAt(tail[l], way, roadType, pos);
    assert IsAt(rows[k + 1], way, roadType, pos) && IsAt(rows[l + 1], way, roadType, pos);
  }

  /** `seg_max`: the largest segment number over all rows of the way, whatever their road type. */
  function MaxSegment(rows: seq<Row>, way: int): (m: nat)
    requires HasWay(rows, way)
    ensures exists i :: 0 <= i < |rows| && rows[i].way == way && rows[i].segmentNumber == m
    ensures forall i :: 0 <= i < |rows| && rows[i].way == way ==> rows[i].segmentNumber <= m
  {
    var last := rows[|rows| - 1];
    var init := rows[..|rows| - 1];
    if !HasWay(init, way) then
      last.segmentNumber
    else
      var m := MaxSegment(init, way);
      if last.way == way && last.segmentNumber > m then last.segmentNumber else m
  }

  /** The dense slot sequence of a (way, road type) partition over positions `0..seg_max`. */
  function Grid(rows: seq<Row>, way: int, roadType: string): (slots: seq<Slot>)
    requires HasWay(rows, way)
    // positions 0..seg_max, so every row of the way, of any road type, has its position in the grid
    ensures |slots| == MaxSegment(rows, way) + 1
    ensures forall k :: 0 <= k < |rows| && rows[k].way == way ==> rows[k].segmentNumber < |slots|
    // a position with no row of this road type is the placeholder
    ensures forall p :: 0 <= p < |slots| && (forall r :: r in rows ==> !IsAt(r, way, roadType, p)) ==>
      slots[p] == Single(None, NO_CONF)
  {
    seq(MaxSegment(rows, way) + 1, p requires 0 <= p <= MaxSegment(rows, way) => SlotFor(rows, way, roadType, p))
  }

  /** `x.unique()`: the distinct elements in order of first occurrence. */
  function Unique<T(==, !new)>(xs: seq<T>): (u: seq<T>)
    ensures forall x :: x in u <==> x in xs
    ensures forall i, j :: 0 <= i < j < |u| ==> u[i] != u[j]
  {
    if xs == [] then []
    else
      var u := Unique(xs[..|xs| - 1]);
      if xs[|xs| - 1] in u then u else u + [xs[|xs| - 1]]
  }

  /** The `ID` column. */
  function WayIds(rows: seq<Row>): (ids: seq<int>)
    ensures forall w :: w in ids <==> HasWay(rows, w)
  {
    var ids := seq(|rows|, i requires 0 <= i < |rows| => rows[i].way);
    assert forall i :: 0 <= i < |rows| ==> ids[i] == rows[i].way;
    ids
  }

  /** The `ROAD_TYPE` column restricted to the rows of one way. */
  function RoadTypesOn(rows: seq<Row>, way: int): (ts: seq<string>)
    ensures forall t :: t in ts <==> exists i :: 0 <= i < |rows| && rows[i].way == way && rows[i].roadType == t
  {
    if rows == [] then []
    else
      var ts := RoadTypesOn(rows[..|rows| - 1], way);
      var last := rows[|rows| - 1];
      if last.way == way then ts + [last.roadType] else ts
  }

  // ---------------------------------------------------------------------------
  // Properties of the grid

  /** The grid of a way has `seg_max + 1` positions for every road type, shared across road types. */
  lemma GridLength(rows: seq<Row>, way: int, roadType: string)
    requires HasWay(rows, way)
    ensures |Grid(rows, way, roadType)| == MaxSegment(rows, way) + 1
  {
  }

  /** A position with no row of that road type becomes the placeholder. */
  lemma MissingIsPlaceholder(rows: seq<Row>, way: int, roadType: string, pos: nat)
    requires forall r :: r in rows ==> !IsAt(r, way, roadType, pos)
    ensures SlotFor(rows, way, roadType, pos) == Single(None, NO_CONF)
  {
  }

  /** A position with exactly one row reads that row's prediction and confidence. */
  lemma SingleRowIsRead(rows: seq<Row>, k: nat)
    requires k < |rows|
    requires forall i :: 0 <= i < |rows| && i != k ==> !IsAt(rows[i], rows[k].way, rows[k].roadType, rows[k].segmentNumber)
    ensures SlotFor(rows, rows[k].way, rows[k].roadType, rows[k].segmentNumber) == Single(rows[k].typePred, rows[k].confScore)
  {
    var r := rows[k];
    var m := Matching(rows, r.way, r.roadType, r.segmentNumber);
    assert multiset(rows)[r] == 1 by {
      assert rows == rows[..k] + [r] + rows[k + 1..];
      assert r !in rows[..k] && r !in rows[k + 1..];
    }
    assert forall x :: x != r ==> multiset(m)[x] == 0 by {
      forall x | x != r ensures multiset(m)[x] == 0 {
      }
    }
    assert multiset(m) == multiset{r};
    assert |m| == |multiset(m)|;
    assert m[0] in multiset(m);
  }

  lemma OneMatch(rows: seq<Row>, j: nat, way: int, roadType: string, pos: nat)
    requires j < |rows| && IsAt(rows[j], way, roadType, pos)
    ensures |Matching(rows, way, roadType, pos)| >= 1
  {
  }

  lemma {:induction false} TwoMatches(rows: seq<Row>, i: nat, j: nat, way: int, roadType: string, pos: nat)
    requires i < j < |rows| && IsAt(rows[i], way, roadType, pos) && IsAt(rows[j], way, roadType, pos)
    ensures |Matching(rows, way, roadType, pos)| >= 2
  {
    var tail := rows[1..];
    assert tail[j - 1] == rows[j];
    if i == 0 {
      OneMatch(tail, j - 1, way, roadType, pos);
    } else {
      assert tail[i - 1] == rows[i];
      TwoMatches(tail, i - 1, j - 1, way, roadType, pos);
    }
  }

  /** A position with two or more rows (duplicates included) is ambiguous. */
  lemma SeveralRowsAreAmbiguous(rows: seq<Row>, i: nat, j: nat)
    requires i < j < |rows|
    requires IsAt(rows[j], rows[i].way, rows[i].roadType, rows[i].segmentNumber)
    ensures SlotFor(rows, rows[i].way, rows[i].roadType, rows[i].segmentNumber) == Ambiguous
  {
    TwoMatches(rows, i, j, rows[i].way, rows[i].roadType, rows[i].segmentNumber);
  }

  /** Every row of the table lies inside its partition's grid. */
  lemma GridCoversRow(rows: seq<Row>, k: nat)
    requires k < |rows|
    ensures HasWay(rows, rows[k].way)
    ensures rows[k].segmentNumber < |Grid(rows, rows[k].way, rows[k].roadType)|
  {
  }

  /**
   * `next_type` as the source reads it, from the rows as they are before the
   * placeholder of the next position has been added: `None` unless exactly one row matches.
   */
  function NextTypeBeforeFilling(rows: seq<Row>, way: int, roadType: string, pos: nat): Option<string>
  {
    var m := Matching(rows, way, roadType, pos);
    if |m| == 1 then m[0].typePred else None
  }

  /**
   * Reading the next position before it is filled gives what reading the filled
   * grid gives, so the grid can be built before the engine runs.
   */
  lemma NextReadBeforeFilling(rows: seq<Row>, way: int, roadType: string, pos: nat)
    requires HasWay(rows, way) && pos <= MaxSegment(rows, way)
    ensures NextTypeBeforeFilling(rows, way, roadType, pos) == NextType(Grid(rows, way, roadType)[pos])
  {
  }
}
