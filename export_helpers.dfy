/** The export helpers of io_mesh_bnd/export_bnd.py: material-name
    normalisation, the case-insensitive object search, the bounding-box
    summary, the inclusive point-in-box test, and the two material
    encodings (one text block, one 104-byte binary record). */
module ExportHelpers {
  import opened Text
  import opened MeshModel
  import opened Bytes

  // ------------------------------------------------------------------
  // get_undupe_name

  /** The name with Blender's duplicate suffix removed: everything from
      the first '.' on is dropped. */
  function GetUndupeName(name: string): (r: string)
    ensures r <= name && '.' !in r
    ensures '.' in name ==> name[|r|] == '.'
    ensures '.' !in name ==> r == name
  {
    var i := Find(name, '.');
    if i != -1 then name[..i] else name
  }

  /** Normalising twice is normalising once. */
  lemma GetUndupeNameIdempotent(name: string)
    ensures GetUndupeName(GetUndupeName(name)) == GetUndupeName(name)
  {
  }

  /** The names both writers give the materials: each slot's name without its
      duplicate suffix, or the single name "default" for no slots. */
  function MaterialNames(slots: seq<string>): (names: seq<string>)
    ensures |names| == if slots == [] then 1 else |slots|
    ensures slots == [] ==> names == ["default"]
    ensures slots != [] ==> forall i :: 0 <= i < |slots| ==> names[i] == GetUndupeName(slots[i])
  {
    if slots == [] then ["default"]
    else seq(|slots|, i requires 0 <= i < |slots| => GetUndupeName(slots[i]))
  }

  // ------------------------------------------------------------------
  // find_object_ci

  /** The test find_object_ci applies to each object. */
  predicate MatchesCi(ob: SceneObject, name: string) {
    Lower(ob.name) == Lower(name) && ob.kind == "MESH"
  }

  /** The index of the first object, in order, whose name equals name
      ignoring case and which is a mesh; None when there is none. */
  method FindObjectCi(objects: seq<SceneObject>, name: string) returns (r: Option<nat>)
    ensures r.None? <==> forall i :: 0 <= i < |objects| ==> !MatchesCi(objects[i], name)
    ensures r.Some? ==> r.value < |objects| && MatchesCi(objects[r.value], name)
    ensures r.Some? ==> forall j :: 0 <= j < r.value ==> !MatchesCi(objects[j], name)
  {
    for i := 0 to |objects|
      invariant forall j :: 0 <= j < i ==> !MatchesCi(objects[j], name)
    {
      if Lower(objects[i].name) == Lower(name) && objects[i].kind == "MESH" {
        return Some(i);
      }
    }
    return None;
  }

  // ------------------------------------------------------------------
  // bounds

  /** max() of a non-empty list. */
  function Max(s: seq<int>): (m: int)
    requires |s| > 0
    ensures m in s && forall i :: 0 <= i < |s| ==> s[i] <= m
  {
    if |s| == 1 then s[0]
    else
      var t := Max(s[1..]);
      assert t in s;
      if s[0] >= t then s[0] else t
  }

  /** min() of a non-empty list. */
  function Min(s: seq<int>): (m: int)
    requires |s| > 0
    ensures m in s && forall i :: 0 <= i < |s| ==> m <= s[i]
  {
    if |s| == 1 then s[0]
    else
      var t := Min(s[1..]);
      assert t in s;
      if s[0] <= t then s[0] else t
  }

  function Reverse<T>(s: seq<T>): (r: seq<T>)
    ensures |r| == |s|
  {
    seq(|s|, i requires 0 <= i < |s| => s[|s| - 1 - i])
  }

  /** Coordinate number axis (0, 1, 2 for x, y, z) of a vector. */
  function AxisOf(v: Vec3, axis: nat): Coord
    requires axis < 3
  {
    if axis == 0 then v.x else if axis == 1 then v.y else v.z
  }

  /** The coordinates along one axis of a list of corners: one row of
      zip(*coords). */
  function Column(corners: seq<Vec3>, axis: nat): (col: seq<Coord>)
    requires axis < 3
    ensures |col| == |corners|
  {
    seq(|corners|, i requires 0 <= i < |corners| => AxisOf(corners[i], axis))
  }

  datatype AxisInfo = AxisInfo(max: Coord, min: Coord, distance: Coord)

  /** The named tuple bounds() returns, one AxisInfo per axis. */
  datatype ObjectDetails = ObjectDetails(x: AxisInfo, y: AxisInfo, z: AxisInfo)

  /** max, min and distance of one transposed list. */
  function AxisSummary(col: seq<Coord>): AxisInfo
    requires |col| > 0
  {
    AxisInfo(Max(col), Min(col), Max(col) - Min(col))
  }

  /** The summary of one axis of the corners taken in their own order. */
  function AxisSummaryOf(corners: seq<Vec3>, axis: nat): AxisInfo
    requires |corners| > 0 && axis < 3
  {
    AxisSummary(Column(corners, axis))
  }

  /** The three axis summaries, in the order x, y, z. */
  function AxisSummaries(corners: seq<Vec3>): (r: seq<AxisInfo>)
    requires |corners| > 0
    ensures |r| == 3
  {
    [AxisSummaryOf(corners, 0), AxisSummaryOf(corners, 1), AxisSummaryOf(corners, 2)]
  }

  /** The summary of the corners taken in their own order. */
  function BoundsOf(corners: seq<Vec3>): ObjectDetails
    requires |corners| > 0
  {
    ObjectDetails(AxisSummaryOf(corners, 0), AxisSummaryOf(corners, 1), AxisSummaryOf(corners, 2))
  }

  /** Reversing a list changes neither its maximum nor its minimum. */
  lemma MaxMinReverse(s: seq<int>)
    requires |s| > 0
    ensures Max(Reverse(s)) == Max(s) && Min(Reverse(s)) == Min(s)
  {
    var r := Reverse(s);
    forall i | 0 <= i < |s|
      ensures s[i] in r
    {
      assert r[|s| - 1 - i] == s[i];
    }
    assert Max(r) in s && Min(r) in s;
  }

  lemma ColumnReverse(corners: seq<Vec3>, axis: nat)
    requires axis < 3
    ensures Column(Reverse(corners), axis) == Reverse(Column(corners, axis))
  {
  }

  /** One axis summarised from the reversed corners is the same summary. */
  lemma SummaryReverse(corners: seq<Vec3>, axis: nat)
    requires |corners| > 0 && axis < 3
    ensures AxisSummary(Column(Reverse(corners), axis)) == AxisSummaryOf(corners, axis)
  {
    ColumnReverse(corners, axis);
    MaxMinReverse(Column(corners, axis));
  }

  /** bounds(obj) over the corners of obj.bound_box: the corners are read
      in reverse order, transposed into one list per axis, and each list
      gives its max, its min and their distance. */
  method Bounds(corners: seq<Vec3>) returns (r: ObjectDetails)
    requires |corners| > 0
    ensures r == BoundsOf(corners)
  {
    var coords := Reverse(corners);
    var pushAxis: seq<AxisInfo> := [];
    for axis := 0 to 3
      invariant pushAxis == AxisSummaries(corners)[..axis]
    {
      SummaryReverse(corners, axis);
      var info := AxisSummary(Column(coords, axis));
      pushAxis := pushAxis + [info];
    }
    r := ObjectDetails(pushAxis[0], pushAxis[1], pushAxis[2]);
  }

  /** Per axis: min <= max, distance = max - min, every corner lies in
      [min, max], and both ends are reached by some corner. */
  predicate Spans(info: AxisInfo, col: seq<Coord>) {
    && info.min <= info.max
    && info.distance == info.max - info.min
    && (forall i :: 0 <= i < |col| ==> info.min <= col[i] <= info.max)
    && info.min in col && info.max in col
  }

  lemma BoundsSpan(corners: seq<Vec3>)
    requires |corners| > 0
    ensures Spans(BoundsOf(corners).x, Column(corners, 0))
    ensures Spans(BoundsOf(corners).y, Column(corners, 1))
    ensures Spans(BoundsOf(corners).z, Column(corners, 2))
  {
    var c := Column(corners, 0);
    assert Min(c) <= c[0] <= Max(c);
    c := Column(corners, 1);
    assert Min(c) <= c[0] <= Max(c);
    c := Column(corners, 2);
    assert Min(c) <= c[0] <= Max(c);
  }

  // ------------------------------------------------------------------
  // point_in_box

  datatype Point2 = Point2(x: Coord, y: Coord)

  /** point_in_box(point, box): box[0] is the low corner and box[2] the
      high corner; both bounds are inclusive, on x and on y. */
  predicate PointInBox(p: Point2, box: seq<Point2>)
    requires |box| >= 3
    ensures PointInBox(p, box) ==> box[0].x <= box[2].x && box[0].y <= box[2].y
  {
    box[0].x <= p.x && p.x <= box[2].x && box[0].y <= p.y && p.y <= box[2].y
  }

  /** The footprint box of a bounds summary, corners counter-clockwise
      from the low corner. */
  function FootprintBox(d: ObjectDetails): (box: seq<Point2>)
    ensures |box| == 4
  {
    [Point2(d.x.min, d.y.min), Point2(d.x.max, d.y.min),
     Point2(d.x.max, d.y.max), Point2(d.x.min, d.y.max)]
  }

  /** Every corner lies in the footprint box computed from the corners,
      and so do the box's own four corners (the test is inclusive). */
  lemma FootprintContainsCorners(corners: seq<Vec3>)
    requires |corners| > 0
    ensures forall i :: 0 <= i < |corners| ==>
      PointInBox(Point2(corners[i].x, corners[i].y), FootprintBox(BoundsOf(corners)))
    ensures forall k :: 0 <= k < 4 ==>
      PointInBox(FootprintBox(BoundsOf(corners))[k], FootprintBox(BoundsOf(corners)))
  {
    BoundsSpan(corners);
    var cx, cy := Column(corners, 0), Column(corners, 1);
    forall i | 0 <= i < |corners|
      ensures PointInBox(Point2(corners[i].x, corners[i].y), FootprintBox(BoundsOf(corners)))
    {
      assert cx[i] == corners[i].x && cy[i] == corners[i].y;
    }
  }

  // ------------------------------------------------------------------
  // write_char_array, write_binary_material

  /** write_char_array(file, s, length): the UTF-8 bytes of s, then
      length - len(s) NULs; when s is longer than length nothing is
      added and nothing is cut. */
  function WriteCharArray(s: string, length: nat): (r: seq<byte>)
    ensures IsAscii(s) && |s| <= length ==>
      |r| == length &&
      (forall i :: 0 <= i < |s| ==> r[i] == s[i] as int as byte) &&
      (forall i :: |s| <= i < length ==> r[i] == 0)
    ensures |s| >= length ==> r == Utf8(s)
    ensures |s| <= length ==> |r| == |Utf8(s)| + (length - |s|) && r[|Utf8(s)|..] == Nuls(length - |s|)
    ensures |r| >= |Utf8(s)| && r[..|Utf8(s)|] == Utf8(s)
  {
    Utf8(s) + Nuls(if length > |s| then length - |s| else 0)
  }

  /** 0.1 and 0.5, the elasticity and friction every material is given. */
  const Elasticity: Coord := 100000
  const Friction: Coord := 500000

  /** write_binary_material(file, name): the name in 32 bytes, the two
      floats, and "none" twice in 32 bytes each. */
  function WriteBinaryMaterial(name: string, f32: F32Encoder): (r: seq<byte>)
    ensures IsAscii(name) && |name| <= 32 ==> |r| == 104
  {
    assert IsAscii("none");
    WriteCharArray(name, 32) + F32(f32, Elasticity) + F32(f32, Friction)
      + WriteCharArray("none", 32) + WriteCharArray("none", 32)
  }

  /** The layout of the 104-byte record of a name that fits. */
  lemma WriteBinaryMaterialLayout(name: string, f32: F32Encoder)
    requires IsAscii(name) && |name| <= 32
    ensures var r := WriteBinaryMaterial(name, f32);
      && r[..32] == WriteCharArray(name, 32)
      && r[32..36] == F32(f32, Elasticity) && r[36..40] == F32(f32, Friction)
      && r[40..72] == WriteCharArray("none", 32) && r[72..] == WriteCharArray("none", 32)
  {
    assert IsAscii("none");
  }

  // ------------------------------------------------------------------
  // make_ascii_material

  /** make_ascii_material(name); the one literal of the source is written
      here as its six lines, each followed by "\n". */
  function MakeAsciiMaterial(name: string): string {
    "mtl " + name + " {" + "\n" + "\telasticity: 0.100000" + "\n" + "\tfriction: 0.500000" + "\n"
      + "\teffect: none" + "\n" + "\tsound: none" + "\n" + "}" + "\n"
  }

  /** The lines of one material block. */
  function MaterialBlock(name: string): (ls: seq<string>)
    ensures |ls| == 6
  {
    ["mtl " + name + " {", "\telasticity: 0.100000", "\tfriction: 0.500000",
     "\teffect: none", "\tsound: none", "}"]
  }

  /** The block is exactly six lines, each ended by "\n". */
  lemma MakeAsciiMaterialLines(name: string)
    ensures MakeAsciiMaterial(name) == JoinLines(MaterialBlock(name))
  {
    JoinLines6("mtl " + name + " {", "\telasticity: 0.100000", "\tfriction: 0.500000",
      "\teffect: none", "\tsound: none", "}");
  }
}
