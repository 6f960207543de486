/**
 * The assembler of other/greedy_grouping.py (lines 14-27): for every way, and
 * for every road type seen on that way, build the partition's dense grid and
 * run the segmentation engine on it with fresh state.
 */
module Grouping {
  import opened Segmentation
  import opened Partition

  /** The `group_num` column of one (way, road type) partition, by position `0..seg_max`. */
  datatype PartitionGroups = PartitionGroups(way: int, roadType: string, groups: seq<nat>)

  function Key(pg: PartitionGroups): (int, string)
  {
    (pg.way, pg.roadType)
  }

  /** The (way, road type) pairs present in the table. */
  ghost function Keys(rows: seq<Row>): set<(int, string)>
  {
    set i | 0 <= i < |rows| :: (rows[i].way, rows[i].roadType)
  }

  ghost function KeysOf(result: seq<PartitionGroups>): set<(int, string)>
  {
    set k | 0 <= k < |result| :: Key(result[k])
  }

  lemma KeysOfAppend(result: seq<PartitionGroups>, pg: PartitionGroups)
    ensures KeysOf(result + [pg]) == KeysOf(result) + {Key(pg)}
  {
    var r := result + [pg];
    assert Key(r[|result|]) == Key(pg);
    forall x | x in KeysOf(r) ensures x in KeysOf(result) + {Key(pg)} {
      var k :| 0 <= k < |r| && Key(r[k]) == x;
      if k < |result| {
        assert r[k] == result[k];
      }
    }
    forall x | x in KeysOf(result) ensures x in KeysOf(r) {
      var k :| 0 <= k < |result| && Key(result[k]) == x;
      assert r[k] == result[k];
    }
  }

  /** A partition's groups are the engine's output on that partition's own grid, and nothing else. */
  ghost predicate IsPartitionOf(rows: seq<Row>, pg: PartitionGroups)
  {
    HasWay(rows, pg.way) && pg.groups == Groups(Grid(rows, pg.way, pg.roadType))
  }

  /** Keys of the rows whose way is one of `ways`. */
  ghost function KeysOfWays(rows: seq<Row>, ways: seq<int>): set<(int, string)>
  {
    set i | 0 <= i < |rows| && rows[i].way in ways :: (rows[i].way, rows[i].roadType)
  }

  lemma KeysOfConcat(a: seq<PartitionGroups>, b: seq<PartitionGroups>)
    ensures KeysOf(a + b) == KeysOf(a) + KeysOf(b)
  {
    var r := a + b;
    forall x | x in KeysOf(r) ensures x in KeysOf(a) + KeysOf(b) {
      var k :| 0 <= k < |r| && Key(r[k]) == x;
      if k < |a| {
        assert r[k] == a[k];
      } else {
        assert r[k] == b[k - |a|];
      }
    }
    forall x | x in KeysOf(a) ensures x in KeysOf(r) {
      var k :| 0 <= k < |a| && Key(a[k]) == x;
      assert r[k] == a[k];
    }
    forall x | x in KeysOf(b) ensures x in KeysOf(r) {
      var k :| 0 <= k < |b| && Key(b[k]) == x;
      assert r[|a| + k] == b[k];
    }
  }

  lemma KeysOfWaysAppend(rows: seq<Row>, ways: seq<int>, way: int)
    ensures KeysOfWays(rows, ways + [way]) == KeysOfWays(rows, ways) + KeysOfWays(rows, [way])
  {
  }

  /** The keys of one way are that way paired with each road type seen on it. */
  lemma KeysOfOneWay(rows: seq<Row>, way: int, roadTypes: seq<string>)
    requires forall t :: t in roadTypes <==> exists i :: 0 <= i < |rows| && rows[i].way == way && rows[i].roadType == t
    ensures KeysOfWays(rows, [way]) == set t | t in roadTypes :: (way, t)
  {
  }

  /** The road-type loop of one way: one partition per road type seen on the way. */
  method GroupWay(rows: seq<Row>, way: int) returns (parts: seq<PartitionGroups>)
    requires HasWay(rows, way)
    ensures forall k :: 0 <= k < |parts| ==> IsPartitionOf(rows, parts[k]) && parts[k].way == way
    ensures KeysOf(parts) == KeysOfWays(rows, [way])
    ensures forall k, l :: 0 <= k < l < |parts| ==> Key(parts[k]) != Key(parts[l])
  {
    var roadTypes := Unique(RoadTypesOn(rows, way));
    parts := [];
    var j := 0;
    while j < |roadTypes|
      invariant 0 <= j <= |roadTypes| && |parts| == j
      invariant forall k :: 0 <= k < j ==> IsPartitionOf(rows, parts[k]) && Key(parts[k]) == (way, roadTypes[k])
      invariant KeysOf(parts) == set t | t in roadTypes[..j] :: (way, t)
    {
      var slots := Grid(rows, way, roadTypes[j]);
      var groups := SegmentPartition(slots);
      var pg := PartitionGroups(way, roadTypes[j], groups);
      KeysOfAppend(parts, pg);
      parts := parts + [pg];
      assert roadTypes[..j + 1] == roadTypes[..j] + [roadTypes[j]];
      j := j + 1;
    }
    assert roadTypes[..j] == roadTypes;
    KeysOfOneWay(rows, way, roadTypes);
  }

  /**
   * The way loop. Every (way, road type) pair in the table gets exactly one
   * entry, computed from its own grid with fresh engine state, so no state
   * carries over between partitions and the order of processing does not
   * matter to any entry.
   */
  method GroupAll(rows: seq<Row>) returns (result: seq<PartitionGroups>)
    ensures forall k :: 0 <= k < |result| ==> IsPartitionOf(rows, result[k])
    ensures KeysOf(result) == Keys(rows)
    ensures forall k, l :: 0 <= k < l < |result| ==> Key(result[k]) != Key(result[l])
  {
    var ways := Unique(WayIds(rows));
    result := [];
    var i := 0;
    while i < |ways|
      invariant 0 <= i <= |ways|
      invariant forall k :: 0 <= k < |result| ==> IsPartitionOf(rows, result[k]) && result[k].way in ways[..i]
      invariant KeysOf(result) == KeysOfWays(rows, ways[..i])
      invariant forall k, l :: 0 <= k < l < |result| ==> Key(result[k]) != Key(result[l])
    {
      var way := ways[i];
      var parts := GroupWay(rows, way);
      assert way !in ways[..i];
      KeysOfConcat(result, parts);
      KeysOfWaysAppend(rows, ways[..i], way);
      assert ways[..i + 1] == ways[..i] + [way];
      result := result + parts;
      i := i + 1;
    }
    assert ways[..i] == ways;
    assert KeysOfWays(rows, ways) == Keys(rows);
  }

  /** Every input row receives a `group_num`: its partition's entry covers its segment number. */
  lemma EveryRowGrouped(rows: seq<Row>, result: seq<PartitionGroups>, k: nat)
    requires forall m :: 0 <= m < |result| ==> IsPartitionOf(rows, result[m])
    requires KeysOf(result) == Keys(rows)
    requires k < |rows|
    ensures exists m :: 0 <= m < |result| && Key(result[m]) == (rows[k].way, rows[k].roadType) &&
              rows[k].segmentNumber < |result[m].groups|
  {
    assert (rows[k].way, rows[k].roadType) in Keys(rows);
    var m :| 0 <= m < |result| && Key(result[m]) == (rows[k].way, rows[k].roadType);
    GridCoversRow(rows, k);
  }
}
