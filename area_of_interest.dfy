/**
 * The configuration part of `AreaOfInterest` in src/modules/AreaOfInterest.py:
 * the fields the constructor reads from the config dictionary (lines 43-71)
 * and the SQL query parameters derived from them (lines 73-106).
 */
module AreaOfInterest {

  /** A config value: Python `None`, a string, an int, a bool or a float. */
  datatype Value = VNone | VStr(s: string) | VInt(i: int) | VBool(b: bool) | VNum(r: real)

  type Config = map<string, Value>

  /** `config.get(key, default)`. */
  function Get(config: Config, key: string, default: Value): (v: Value)
  {
    if key in config then config[key] else default
  }

  predicate IsDigits(s: string)
  {
    forall i :: 0 <= i < |s| ==> '0' <= s[i] <= '9'
  }

  /** The number a string of decimal digits denotes. */
  function DecimalValue(s: string): nat
    requires IsDigits(s)
  {
    if s == [] then 0 else 10 * DecimalValue(s[..|s| - 1]) + (s[|s| - 1] - '0') as nat
  }

  /** Decimal digits of a natural number, as Python's `str` writes them: no leading zero, and they read back as `n`. */
  function NatToString(n: nat): (s: string)
    ensures |s| >= 1 && IsDigits(s)
    ensures |s| > 1 ==> s[0] != '0'
    ensures DecimalValue(s) == n
  {
    var d := ['0' + (n % 10) as char];
    if n < 10 then d
    else
      var s := NatToString(n / 10) + d;
      assert s[..|s| - 1] == NatToString(n / 10);
      s
  }

  /** `str(i)` for an int: a minus sign exactly for negative numbers, then the digits of the magnitude. */
  function IntToString(i: int): (s: string)
    ensures |s| >= 1
    ensures s[0] == '-' <==> i < 0
    ensures i < 0 ==> IsDigits(s[1..]) && |s| >= 2 && DecimalValue(s[1..]) == -i
    ensures i >= 0 ==> IsDigits(s) && DecimalValue(s) == i
  {
    if i < 0 then
      var s := "-" + NatToString(-i);
      assert s[1..] == NatToString(-i);
      s
    else NatToString(i)
  }

  /** Values an f-string can render here: everything but floats (see README). */
  predicate Formattable(v: Value)
  {
    !v.VNum?
  }

  /** `f"{v}"`: a string as itself, an int in decimal, a bool or None by its Python name. */
  function Text(v: Value): (t: string)
    requires Formattable(v)
    ensures v.VStr? ==> t == v.s
    ensures v.VInt? ==> |t| >= 1 && (t[0] == '-' <==> v.i < 0)
    ensures v.VInt? && v.i >= 0 ==> IsDigits(t) && DecimalValue(t) == v.i
    ensures !v.VStr? && !v.VInt? ==> t in {"None", "True", "False"}
  {
    match v
    case VNone => "None"
    case VStr(s) => s
    case VInt(i) => IntToString(i)
    case VBool(b) => if b then "True" else "False"
  }

  /** The fields set by `__init__`. */
  datatype Aoi = Aoi(
    config: Config,
    name: Value, run: Value,
    minLon: Value, minLat: Value, maxLon: Value, maxLat: Value,
    projCrs: Value,
    imgSize: Value, panoImgSize: Value, userid: Value, usePano: Value,
    distFromRoad: Value,
    minRoadLength: Value, segmentLength: Value, segmentsPerGroup: Value,
    additionalIdColumn: Value,
    queryParams: QueryParams)

  /** The dictionary returned by `_get_query_params`, one field per key. */
  datatype QueryParams = QueryParams(
    name: Value,
    bbox0: Value, bbox1: Value, bbox2: Value, bbox3: Value,
    crs: Value, distFromRoad: Value,
    additionalIdColumn: string, additionalWaysIdColumn: string, groupingIds: string,
    segmentLength: Value, groupNum: string, segmentsPerGroup: Value, minRoadLength: Value)

  /** The two config entries that `_get_query_params` formats into strings are not floats. */
  predicate FormattableConfig(config: Config)
  {
    Formattable(Get(config, "additional_id_column", VNone)) && Formattable(Get(config, "segments_per_group", VNone))
  }

  /** `_get_query_params`. */
  function GetQueryParams(a: Aoi): (q: QueryParams)
    requires Formattable(a.additionalIdColumn) && Formattable(a.segmentsPerGroup)
    // passed through unchanged; the bounding box becomes bbox0..bbox3
    ensures q.name == a.name && q.crs == a.projCrs && q.distFromRoad == a.distFromRoad
    ensures q.segmentLength == a.segmentLength && q.segmentsPerGroup == a.segmentsPerGroup
    ensures q.minRoadLength == a.minRoadLength
    ensures q.bbox0 == a.minLon && q.bbox1 == a.minLat && q.bbox2 == a.maxLon && q.bbox3 == a.maxLat
    // no extra id column: no prefix anywhere
    ensures a.additionalIdColumn == VNone ==>
      q.additionalIdColumn == "" && q.additionalWaysIdColumn == "" && q.groupingIds == "id,part_id,group_num"
    // an extra id column: the column and a comma, qualified by "ways." for the ways table
    ensures a.additionalIdColumn != VNone ==>
      q.additionalIdColumn == Text(a.additionalIdColumn) + "," &&
      q.additionalWaysIdColumn == "ways." + Text(a.additionalIdColumn) + "," &&
      q.groupingIds == Text(a.additionalIdColumn) + ",id,part_id,group_num"
    // the evaluation group of a subsegment: the whole road, or segment_number / segments_per_group
    ensures q.groupNum == if a.segmentsPerGroup == VNone then "0" else "segment_number / " + Text(a.segmentsPerGroup)
  {
    var additionalIdColumn := if a.additionalIdColumn != VNone then Text(a.additionalIdColumn) + "," else "";
    var groupingIds := additionalIdColumn + "id,part_id,group_num";
    var additionalWaysIdColumn := if additionalIdColumn != "" then "ways." + additionalIdColumn else "";
    var groupNum := if a.segmentsPerGroup == VNone then "0" else "segment_number / " + Text(a.segmentsPerGroup);
    QueryParams(
      a.name, a.minLon, a.minLat, a.maxLon, a.maxLat, a.projCrs, a.distFromRoad,
      additionalIdColumn, additionalWaysIdColumn, groupingIds,
      a.segmentLength, groupNum, a.segmentsPerGroup, a.minRoadLength)
  }

  /** `AreaOfInterest(config)`: each field from its key, with the constructor's defaults for absent keys. */
  function FromConfig(config: Config): (a: Aoi)
    requires FormattableConfig(config)
    ensures a.config == config
    // every field is `config.get(key, default)`: a present key is taken as it is, even when its value is None
    ensures a.name == Get(config, "name", VNone) && a.run == Get(config, "run", VNone)
    ensures a.minLon == Get(config, "minLon", VNone)
    ensures a.minLat == Get(config, "minLat", VNone)
    ensures a.maxLon == Get(config, "maxLon", VNone)
    ensures a.maxLat == Get(config, "maxLat", VNone)
    ensures a.projCrs == Get(config, "proj_crs", VNone)
    ensures a.imgSize == Get(config, "img_size", VStr("thumb_1024_url"))
    ensures a.panoImgSize == Get(config, "pano_img_size", VStr("thumb_2048_url"))
    ensures a.userid == Get(config, "userid", VBool(false))
    ensures a.usePano == Get(config, "use_pano", VBool(false))
    ensures a.distFromRoad == Get(config, "dist_from_road", VNone)
    ensures a.minRoadLength == Get(config, "min_road_length", VNone)
    ensures a.segmentLength == Get(config, "segment_length", VNone)
    ensures a.segmentsPerGroup == Get(config, "segments_per_group", VNone)
    ensures a.additionalIdColumn == Get(config, "additional_id_column", VNone)
    // the query parameters are built from these fields
    ensures a.queryParams == GetQueryParams(a)
    // defaults of the keys the constructor treats as optional
    ensures "run" !in config ==> a.run == VNone
    ensures "img_size" !in config ==> a.imgSize == VStr("thumb_1024_url")
    ensures "pano_img_size" !in config ==> a.panoImgSize == VStr("thumb_2048_url")
    ensures "use_pano" !in config ==> a.usePano == VBool(false)
    ensures "segments_per_group" !in config ==> a.segmentsPerGroup == VNone && a.queryParams.groupNum == "0"
    ensures "additional_id_column" !in config ==>
      a.additionalIdColumn == VNone && a.queryParams.groupingIds == "id,part_id,group_num"
  {
    var a := Aoi(
      config,
      Get(config, "name", VNone),
      Get(config, "run", VNone),
      Get(config, "minLon", VNone),
      Get(config, "minLat", VNone),
      Get(config, "maxLon", VNone),
      Get(config, "maxLat", VNone),
      Get(config, "proj_crs", VNone),
      Get(config, "img_size", VStr("thumb_1024_url")),
      Get(config, "pano_img_size", VStr("thumb_2048_url")),
      Get(config, "userid", VBool(false)),
      Get(config, "use_pano", VBool(false)),
      Get(config, "dist_from_road", VNone),
      Get(config, "min_road_length", VNone),
      Get(config, "segment_length", VNone),
      Get(config, "segments_per_group", VNone),
      Get(config, "additional_id_column", VNone),
      QueryParams(VNone, VNone, VNone, VNone, VNone, VNone, VNone, "", "", "", VNone, "", VNone, VNone));
    a.(queryParams := GetQueryParams(a))
  }

  /** The configuration of the initialization test in tests/test_area_of_interest.py. */
  const TestConfig: Config := map[
    "name" := VStr("test_aoi"), "run" := VStr("run1"),
    "minLon" := VInt(10), "minLat" := VInt(15), "maxLon" := VInt(20), "maxLat" := VInt(25),
    "proj_crs" := VInt(3035), "img_size" := VStr("thumb_2048_url"),
    "dist_from_road" := VInt(10), "min_road_length" := VInt(10), "segment_length" := VInt(20),
    "segments_per_group" := VNone,
    "pred_path" := VStr("pred_path"), "road_type_pred_path" := VStr("road_type_pred_path")]

  lemma TestConfigEntries()
    ensures Get(TestConfig, "name", VNone) == VStr("test_aoi") && Get(TestConfig, "run", VNone) == VStr("run1")
    ensures Get(TestConfig, "minLon", VNone) == VInt(10) && Get(TestConfig, "minLat", VNone) == VInt(15)
    ensures Get(TestConfig, "maxLon", VNone) == VInt(20) && Get(TestConfig, "maxLat", VNone) == VInt(25)
    ensures Get(TestConfig, "proj_crs", VNone) == VInt(3035)
    ensures Get(TestConfig, "img_size", VStr("thumb_1024_url")) == VStr("thumb_2048_url")
    ensures Get(TestConfig, "dist_from_road", VNone) == VInt(10)
    ensures Get(TestConfig, "min_road_length", VNone) == VInt(10)
    ensures Get(TestConfig, "segment_length", VNone) == VInt(20)
    ensures Get(TestConfig, "segments_per_group", VNone) == VNone
    ensures Get(TestConfig, "additional_id_column", VNone) == VNone
  {
  }

  /** The fields the initialization test asserts, plus the query parameters they imply. */
  lemma TestInitialization()
    ensures FormattableConfig(TestConfig)
    ensures var a := FromConfig(TestConfig);
      && a.name == VStr("test_aoi") && a.run == VStr("run1")
      && a.minLon == VInt(10) && a.minLat == VInt(15) && a.maxLon == VInt(20) && a.maxLat == VInt(25)
      && a.projCrs == VInt(3035) && a.imgSize == VStr("thumb_2048_url")
      && a.distFromRoad == VInt(10) && a.minRoadLength == VInt(10) && a.segmentLength == VInt(20)
      && a.segmentsPerGroup == VNone
      && a.queryParams.groupNum == "0"
      && a.queryParams.groupingIds == "id,part_id,group_num"
      && a.queryParams.bbox2 == VInt(20)
  {
    TestConfigEntries();
  }
}
