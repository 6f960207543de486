# Greedy run-segmentation of road subsegments, in Dafny

This project models the core of the SurfaceAI road network classification
repository. The repository predicts a road type and a surface for every
subsegment of a road. The core then groups consecutive subsegments of each
(way, road type) pair into stretches that share a dominant prediction. It is
robust to a single misclassified subsegment, and it still reacts to a real,
sustained change.

The model has three parts.

- **Greedy grouping** (`other/greedy_grouping.py`). The model has four pieces:
  - the partition builder (`partition.dfy`): the way-wide `seg_max`, the road
    types of a way, and the dense slot sequence with placeholder rows for
    missing positions;
  - the dominant-type helper (`dominant.dfy`): `max` by count, ties going to
    the first occurrence;
  - the hysteresis state machine (`segmentation.dfy`): a pure reference
    definition, and the imperative position loop `SegmentPartition` over an
    array of `group_num` values, proved equal to it;
  - the nested loops over ways and road types (`grouping.dfy`).

  `scenarios.dfy` holds the worked example and other concrete and parametric
  cases.
- **Surface tag normalisation** (`surface.dfy`): `clean_surface` from
  `src/utils.py`, and its copy in `other/utils.py`, proved equal.
- **Area-of-interest configuration** (`area_of_interest.dfy`): the fields the
  `AreaOfInterest` constructor reads, with their defaults, and the SQL
  parameters built by `_get_query_params`.

## Behaviour worth noting

The model follows the code in each of these cases, including where the code
does something other than its own comments suggest.

- **Two missing slots in a row can split.** The comment at
  `other/greedy_grouping.py:85` says that a next slot with no prediction, or
  with several, reads as `None`. The comment at line 97 says that when there
  is no clear prediction the slot joins the current group. Yet the split guard
  at lines 93-103 excludes only the label `"undefined"`, not `None`. So two
  consecutive positions that both read `None` satisfy `current == next`: the
  two positions may be missing, placeholders, or a `None` followed by several
  rows. Once a type is established, they open a new group.
  `Scenarios.TwoGapsSplit` shows this.
- **Reading a slot with several rows.**
  - As the current slot, it reads `"undefined"` with confidence -1. So it can
    never split and never enters the history (`Segmentation.AmbiguousIsInert`).
  - As the next slot, it reads `None`, like a missing slot.
- **No validation.** The code does not reject malformed rows, such as a
  negative position. It has no error path, so the model has none either.
- **Whole-road evaluation group.** The comment at
  `src/modules/AreaOfInterest.py:83-84` speaks of group number 1 when
  `segments_per_group` is None, but the code writes "0"; the model writes "0".

## Model

| member | source | states |
|---|---|---|
| `Dominant.DominantType` | other/greedy_grouping.py:88-92 | the dominant type is `None` exactly for an empty history, and otherwise an element of the history |
| `Dominant.DominantIsFirstMostFrequent` | other/greedy_grouping.py:88-92 | for a non-empty history, the dominant type occurs in it, no element occurs more often, and every element before its first occurrence occurs strictly less often |
| `Dominant.DominantTypeCharacterized` | other/greedy_grouping.py:88-92 | both directions: `DominantType(h) == Some(d)` iff `d` is the first most frequent element of `h` |
| `Dominant.FirstMostFrequentUnique` | other/greedy_grouping.py:89 | at most one element is the first most frequent one, so `max` with `key=count` is deterministic |
| `Dominant.DominantTieBreak` | other/greedy_grouping.py:89 | if any element ties with the dominant type, the dominant type occurs at or before that element's position |
| `Segmentation.CurrentType` | other/greedy_grouping.py:70-72 | a single-row slot reads its own prediction, as it does when it is the next slot; a slot with several rows reads "undefined" as the current slot and `None` as the next one |
| `Segmentation.CurrentConf` | other/greedy_grouping.py:73 | a single-row slot reads its own confidence; a slot with several rows reads a confidence at or below the 0.5 threshold |
| `Segmentation.NextType` | other/greedy_grouping.py:82-85 | a present next reading comes from a single-row slot and is that row's prediction |
| `Segmentation.SplitsOn` | other/greedy_grouping.py:93-103 | a split needs a history of at least two entries with a dominant type, the same reading at the current and next positions, other than "undefined" and other than the dominant type |
| `Segmentation.IsConfident` | other/greedy_grouping.py:113-117 | only a present label other than "undefined" can enter the history, and never with confidence at or below 0.5 |
| `Segmentation.Step` | other/greedy_grouping.py:58-118 | one iteration: the group grows by one exactly on a split, which empties the history; otherwise the history is kept or gains the confident current label; the last position changes nothing |
| `Segmentation.StateAt` | other/greedy_grouping.py:23-118 | the state before position p starts from group 0 and an empty history, and its group plus its history length is at most p |
| `Segmentation.SegmentPartition` | other/greedy_grouping.py:23-118 | the imperative position loop writes `group_num[p]`, overwrites it after a split, and updates `current_group` and `types_in_group` in place; its result equals the reference grouping `Groups` |
| `Segmentation.Groups` | other/greedy_grouping.py:27-63 | one group number per position `0..seg_max` |
| `Segmentation.GroupIsStateAfter` | other/greedy_grouping.py:58-112 | the value finally left at position p is the group after processing p: the tentative write, or the overwrite when p splits |
| `Segmentation.GroupsStartAtZero` | other/greedy_grouping.py:23-25 | each partition starts in group 0 |
| `Segmentation.GroupsStep` | other/greedy_grouping.py:104-112 | from p to p+1 the group number stays the same, or grows by exactly 1 exactly when p+1 splits |
| `Segmentation.GroupsContiguous` | other/greedy_grouping.py:58-112 | group numbers never decrease along positions and never skip a number: `g[i] <= g[j] <= g[i] + (j - i)` |
| `Segmentation.NoSplitAtEnds` | other/greedy_grouping.py:75-94 | no split at position 0 (empty history) or at the last position (no next slot) |
| `Segmentation.SplitCooldown` | other/greedy_grouping.py:93-105 | after a split the next two positions cannot split: the history then holds at most one entry, so the dominant count is at most 1 |
| `Segmentation.HistoryIsConfident` | other/greedy_grouping.py:113-118 | every history entry is a label other than "undefined" from an earlier single-row slot with confidence above 0.5 |
| `Segmentation.HistorySinceGroupStart` | other/greedy_grouping.py:104-118 | `types_in_group` is exactly the confident labels read since the current group opened, in order; it excludes the label that triggered the split and the last position |
| `Segmentation.NoConfidentLabelsOneGroup` | other/greedy_grouping.py:93-118 | a partition in which no slot is confident keeps the initial state and puts every position in group 0 |
| `Segmentation.AmbiguousIsInert` | other/greedy_grouping.py:70-96 | a slot with several rows reads "undefined": it never splits, leaves the state unchanged and keeps the current group |
| `Scenarios.WorkedExample` | other/greedy_grouping.py:87-118 | confident labels A,A,A,B,B,A,A give groups 0,0,0,1,1,1,1 |
| `Scenarios.TwoGapsSplit` | other/greedy_grouping.py:93-103 | after two confident "asphalt" labels, two missing slots open group 1: the guard excludes "undefined" but not `None` |
| `Scenarios.AmbiguousDoesNotSplit` | other/greedy_grouping.py:70-96 | a slot with several rows followed by a missing slot does not split, where two missing slots would |
| `Scenarios.OutlierDominant` | other/greedy_grouping.py:88-92 | while a single position diverges, the dominant type is the majority label, or the outlier seen only once; when the outlier is not the first label, the majority label wins the tie |
| `Scenarios.SingleOutlierOneGroup` | other/greedy_grouping.py:93-103 | confident identical labels with one differing label, at any position including the first, stay in a single group |
| `Partition.Matching` | other/greedy_grouping.py:64-68 | the rows selected by the (way, position, road type) mask, with their multiplicities |
| `Partition.SlotFor` | other/greedy_grouping.py:30-73 | a slot is the placeholder or the reading of a row at that position, and an ambiguous slot has two distinct rows at that position |
| `Partition.Grid` | other/greedy_grouping.py:19-56 | positions `0..seg_max`, so every row of the way has its position in the grid; a position with no row of the road type holds the placeholder |
| `Partition.MaxSegment` | other/greedy_grouping.py:19 | `seg_max` is attained by a row of the way and bounds every row of the way, whatever its road type |
| `Partition.Unique` | other/greedy_grouping.py:22 | `unique()` keeps exactly the elements of its input, each once |
| `Partition.WayIds` | other/greedy_grouping.py:16 | the way ids are exactly the ways that have a row |
| `Partition.RoadTypesOn` | other/greedy_grouping.py:22 | the road types listed for a way are exactly those of its rows |
| `Partition.GridLength` | other/greedy_grouping.py:19-27 | every road type of a way is walked over the same positions `0..seg_max` |
| `Partition.MissingIsPlaceholder` | other/greedy_grouping.py:30-56 | a position with no row of that road type reads as the synthesized row (`TYPE_PRED` None, `CONF_SCORE` -1) |
| `Partition.SingleRowIsRead` | other/greedy_grouping.py:64-73 | a position with exactly one row reads that row's prediction and confidence |
| `Partition.SeveralRowsAreAmbiguous` | other/greedy_grouping.py:70-73 | a position with two or more rows, duplicates included, is ambiguous |
| `Partition.GridCoversRow` | other/greedy_grouping.py:19-27 | every row lies inside its own partition's grid |
| `Partition.NextReadBeforeFilling` | other/greedy_grouping.py:76-84 | reading the next position before its placeholder is added gives the same `next_type` as reading the filled grid |
| `Grouping.GroupWay` | other/greedy_grouping.py:22-25 | one partition per road type seen on the way, each computed from its own grid with fresh state |
| `Grouping.GroupAll` | other/greedy_grouping.py:16-25 | every (way, road type) pair in the table gets exactly one entry, and that entry depends only on its own grid (partition independence) |
| `Grouping.EveryRowGrouped` | other/greedy_grouping.py:16-63 | every input row receives a `group_num` from its partition's entry |
| `SrcUtils.CleanSurface` | src/utils.py:11-30 | the eight unpaved tags map to "unpaved"; the two cobblestone tags map to "sett"; the two concrete tags map to "concrete"; "grass_paver" maps to "paving_stones"; anything else is returned unchanged |
| `SrcUtils.TagListsDisjoint` | src/utils.py:12-28 | the four tag lists are disjoint, so the order of the tests is immaterial |
| `SrcUtils.CleanSurfaceNotRemapped` | src/utils.py:11-30 | no output of `clean_surface` is a tag that would be rewritten |
| `SrcUtils.CleanSurfaceIdempotent` | src/utils.py:11-30 | `clean_surface(clean_surface(s)) == clean_surface(s)` |
| `SrcUtils.CleanSurfaceClasses` | src/utils.py:11-28 | a remapped tag always lands in one of the four class names |
| `OtherUtils.CleanSurface` | other/utils.py:1-20 | equal to `src/utils.py`'s `clean_surface` on every string |
| `OtherUtils.CleanSurfaceIdempotent` | other/utils.py:1-20 | the copy is idempotent too, and its output is never a remapped tag |
| `AreaOfInterest.NatToString` | src/modules/AreaOfInterest.py:88 | the decimal digits of a natural number: at least one digit, no leading zero, and they read back as the number |
| `AreaOfInterest.IntToString` | src/modules/AreaOfInterest.py:88 | `str` of an int: a leading minus sign exactly for negative numbers, followed by digits that read back as the magnitude |
| `AreaOfInterest.Text` | src/modules/AreaOfInterest.py:74-88 | an f-string renders a string as itself, an int as its decimal digits (signed), and None or a bool by its Python name |
| `AreaOfInterest.GetQueryParams` | src/modules/AreaOfInterest.py:73-106 | see the notes below the table |
| `AreaOfInterest.FromConfig` | src/modules/AreaOfInterest.py:43-71 | every field is its key's value when present, even None, and the constructor's default otherwise; the stored query parameters are those built from the fields (see the notes below the table) |
| `AreaOfInterest.TestInitialization` | tests/test_area_of_interest.py:11-47 | the test fixture's config yields the fields the test asserts, and the query parameters `group_num` "0" and `grouping_ids` "id,part_id,group_num" |

Notes on the two longer contracts:

- `AreaOfInterest.GetQueryParams`:
  - name, crs, dist_from_road, segment_length, segments_per_group and
    min_road_length pass through unchanged;
  - minLon, minLat, maxLon and maxLat become bbox0, bbox1, bbox2 and bbox3;
  - with no extra id column, the prefix is empty and `grouping_ids` is
    "id,part_id,group_num";
  - otherwise the prefix is the column followed by a comma, `grouping_ids` is
    that prefix followed by "id,part_id,group_num", and the ways column is
    "ways." followed by the prefix;
  - `group_num` is "0" without `segments_per_group`, and otherwise
    "segment_number / " followed by that number.
- `AreaOfInterest.FromConfig`:
  - a key that is present, even with the value None, is taken as it is;
  - absent keys take the defaults: run None, img_size "thumb_1024_url",
    pano_img_size "thumb_2048_url", userid False, use_pano False,
    segments_per_group None, additional_id_column None;
  - the stored query parameters are the ones built from these fields.

## Left out

- The shapefile read and the column renaming in `other/greedy_grouping.py` (lines 6-14) are file I/O and are not modelled. Neither is the final sort and CSV write (lines 121-126). The table is an in-memory sequence of rows.
- The table as a pandas DataFrame that grows with placeholder rows is not modelled as such. Each placeholder is a slot value in the partition's dense sequence, and the output is one group number per position of each (way, road type) pair. All rows at one position share that position's group. `Partition.NextReadBeforeFilling` shows that building the grid before the loop reads the same values as filling it during the loop.
- The order of the output is not modelled. Ways and road types are visited in order of first occurrence, as `unique()` gives them, but nothing about that order is stated, because the source sorts the result afterwards.
- Segment numbers are natural numbers. The source would leave a row with a negative `segment_number` without a group; that case is not modelled.
- Confidences are mathematical reals. NaN values of `CONF_SCORE` or `TYPE_PRED` are not modelled.
- A null `ROAD_TYPE` (None or NaN) is not modelled: `Row.roadType` is always a string. In the source, `unique()` lists such a value, but the `ROAD_TYPE == road_type` mask never matches it. Every position of that partition then reads as missing and appends a placeholder, and the rows with the null road type never receive a `group_num`.
- Within `AreaOfInterest`, `get_and_write_img_metadata`, `_get_imgs_to_classify`, `_compute_yaws`, `classify_images`, `imgs_to_shapefile` and `road_network_with_osm_groundtruth` are not modelled. They are database calls, tiling, numpy filtering, model inference and shapefile export.
- AreaOfInterest.GetQueryParams: does not model f-string formatting of a float `additional_id_column` or `segments_per_group`. It requires these two values to be None, a string, an int or a bool, the types the constructor's documentation gives them.
- AreaOfInterest.FromConfig: requires the same of the config's `additional_id_column` and `segments_per_group` entries, for the same reason.
- `format_predictions`, `format_scenery_predictions` and `img_ids_from_csv` in `src/utils.py` are pandas and file I/O, and are not modelled.
- src/modules/MapillaryInterface.py, src/modules/SurfaceDatabase.py, src/modules/Models.py, src/pano_utils.py, other/pano_functions.py, src/pipeline.py, src/main.py, src/weser_aue.py, src/other/pano_to_persp.py and the constants files are not part of this model. They are network, database, inference, image geometry, orchestration and plain data.
- An incremental frequency count in place of recomputing `max` on every iteration is not modelled; the model recomputes, as the source does.
