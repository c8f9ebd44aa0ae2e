/** The label half of `blender_scripts/run_range_scanner.py`: it splits the
    `cone_track` collection into the three cone categories by name prefix
    and, for every frame of the half-open range `[frame_start, frame_end)`,
    writes one CSV row per cone with the cone's location relative to the
    lidar camera (shifted by the lidar's location, then turned by minus the
    lidar's yaw). */
module RangeScanner {
  import opened SceneTypes
  import opened Text

  const BLUE_PREFIX: string := "blue_cone."
  const YELLOW_PREFIX: string := "yellow_cone."
  const BIG_PREFIX: string := "big_cone."

  const BLUE_LABEL: string := "blue_cone"
  const YELLOW_LABEL: string := "yellow_cone"
  const BIG_LABEL: string := "big_cone"

  const CSV_HEADER: string := "x,y,z,label"

  // ---------------------------------------------------------------------
  // Category filters
  // ---------------------------------------------------------------------

  /** The collection's objects whose names start with `prefix`, in
      collection order (the comprehensions building `blue_cones`,
      `yellow_cones` and `big_cones`). */
  function WithPrefix(objects: seq<SceneObject>, prefix: string): (r: seq<SceneObject>)
    ensures |r| <= |objects|
    ensures forall o :: o in r <==> o in objects && StartsWith(o.name, prefix)
  {
    if |objects| == 0 then []
    else
      var rest := WithPrefix(objects[1..], prefix);
      assert forall o :: o in objects <==> o == objects[0] || o in objects[1..];
      if StartsWith(objects[0].name, prefix) then [objects[0]] + rest else rest
  }

  lemma {:induction false} WithPrefixAppend(a: seq<SceneObject>, b: seq<SceneObject>, prefix: string)
    ensures WithPrefix(a + b, prefix) == WithPrefix(a, prefix) + WithPrefix(b, prefix)
  {
    if |a| == 0 {
      assert a + b == b;
    } else {
      assert (a + b)[0] == a[0];
      assert (a + b)[1..] == a[1..] + b;
      WithPrefixAppend(a[1..], b, prefix);
    }
  }

  // ---------------------------------------------------------------------
  // Sensor-relative locations
  // ---------------------------------------------------------------------

  /** `shifted_loc`: the cone's location minus the lidar's. */
  function Shifted(cone: Vec3, lidar: Vec3): Vec3 {
    Vec3(cone.x - lidar.x, cone.y - lidar.y, cone.z - lidar.z)
  }

  /** `relative_loc`: the horizontal part of `s` turned by `-yaw`; the
      vertical part is kept as it is. */
  function Relative(s: Vec3, yaw: real, trig: Trig): Vec3 {
    var c, sn := trig.cos(-yaw), trig.sin(-yaw);
    Vec3(s.x * c - s.y * sn, s.x * sn + s.y * c, s.z)
  }

  /** The inverse of the label transform: turn the horizontal part back by
      `yaw` and add the lidar's location. */
  function ToWorld(rel: Vec3, lidar: Pose, trig: Trig): Vec3 {
    var c, sn := trig.cos(-lidar.rotation.z), trig.sin(-lidar.rotation.z);
    Vec3(lidar.location.x + rel.x * c + rel.y * sn,
         lidar.location.y - rel.x * sn + rel.y * c,
         lidar.location.z + rel.z)
  }

  /** With no rotation (cos 1, sin 0) the relative location is the shifted one. */
  lemma RelativeWithoutTurn(s: Vec3, yaw: real, trig: Trig)
    requires trig.cos(-yaw) == 1.0 && trig.sin(-yaw) == 0.0
    ensures Relative(s, yaw, trig) == s
  {
  }

  /** The transform is a rotation when cos and sin lie on the unit circle:
      it keeps the horizontal squared distance to the lidar. */
  lemma RelativeKeepsHorizontalDistance(s: Vec3, yaw: real, trig: Trig)
    requires trig.cos(-yaw) * trig.cos(-yaw) + trig.sin(-yaw) * trig.sin(-yaw) == 1.0
    ensures var r := Relative(s, yaw, trig);
            r.x * r.x + r.y * r.y == s.x * s.x + s.y * s.y
  {
    var c, sn := trig.cos(-yaw), trig.sin(-yaw);
    var r := Relative(s, yaw, trig);
    calc {
      r.x * r.x + r.y * r.y;
      (s.x * c - s.y * sn) * (s.x * c - s.y * sn) + (s.x * sn + s.y * c) * (s.x * sn + s.y * c);
      s.x * s.x * (c * c + sn * sn) + s.y * s.y * (c * c + sn * sn);
      s.x * s.x + s.y * s.y;
    }
  }

  /** Round trip: turning a label back into the world gives the cone's
      location, whenever cos and sin lie on the unit circle. */
  lemma ToWorldRelative(cone: Vec3, lidar: Pose, trig: Trig)
    requires var yaw := lidar.rotation.z;
             trig.cos(-yaw) * trig.cos(-yaw) + trig.sin(-yaw) * trig.sin(-yaw) == 1.0
    ensures ToWorld(Relative(Shifted(cone, lidar.location), lidar.rotation.z, trig), lidar, trig) == cone
  {
    var c, sn := trig.cos(-lidar.rotation.z), trig.sin(-lidar.rotation.z);
    var s := Shifted(cone, lidar.location);
    var r := Relative(s, lidar.rotation.z, trig);
    calc {
      r.x * c + r.y * sn;
      (s.x * c - s.y * sn) * c + (s.x * sn + s.y * c) * sn;
      s.x * (c * c + sn * sn);
      s.x;
    }
    calc {
      -r.x * sn + r.y * c;
      -(s.x * c - s.y * sn) * sn + (s.x * sn + s.y * c) * c;
      s.y * (c * c + sn * sn);
      s.y;
    }
  }

  // ---------------------------------------------------------------------
  // Label records
  // ---------------------------------------------------------------------

  /** One row of a label file; `tag` is the `label` column. */
  datatype LabelRecord = LabelRecord(x: real, y: real, z: real, tag: string)

  /** `label_data`: the dictionary of four parallel lists. */
  datatype LabelData = LabelData(x: seq<real>, y: seq<real>, z: seq<real>, tags: seq<string>)

  /** One entry of the category list the frame loop walks. */
  datatype Group = Group(cones: seq<SceneObject>, tag: string)

  /** `[(blue_cones, "blue_cone"), (yellow_cones, "yellow_cone"), (big_cones, "big_cone")]`. */
  function CategoryGroups(blue: seq<SceneObject>, yellow: seq<SceneObject>, big: seq<SceneObject>): seq<Group> {
    [Group(blue, BLUE_LABEL), Group(yellow, YELLOW_LABEL), Group(big, BIG_LABEL)]
  }

  /** The record of one cone for the lidar pose of the current frame. */
  function ConeRecord(cone: SceneObject, tag: string, lidar: Pose, trig: Trig): LabelRecord {
    var rel := Relative(Shifted(cone.location, lidar.location), lidar.rotation.z, trig);
    LabelRecord(rel.x, rel.y, rel.z, tag)
  }

  /** A record's height is the cone's height over the lidar whatever the
      heading, and its label is its category's. */
  lemma ConeRecordHeight(cone: SceneObject, tag: string, lidar: Pose, trig: Trig)
    ensures ConeRecord(cone, tag, lidar, trig).z == cone.location.z - lidar.location.z
    ensures ConeRecord(cone, tag, lidar, trig).tag == tag
  {
  }

  function GroupRecords(cones: seq<SceneObject>, tag: string, lidar: Pose, trig: Trig): seq<LabelRecord> {
    seq(|cones|, k requires 0 <= k < |cones| => ConeRecord(cones[k], tag, lidar, trig))
  }

  /** The records of some groups, group after group. */
  function Records(groups: seq<Group>, lidar: Pose, trig: Trig): seq<LabelRecord> {
    if |groups| == 0 then []
    else
      var last := groups[|groups| - 1];
      Records(groups[..|groups| - 1], lidar, trig) + GroupRecords(last.cones, last.tag, lidar, trig)
  }

  /** The four lists are always the same length. */
  predicate WellFormed(data: LabelData) {
    |data.y| == |data.x| && |data.z| == |data.x| && |data.tags| == |data.x|
  }

  /** Records laid out as the four lists of `label_data`. */
  function Columns(recs: seq<LabelRecord>): (data: LabelData)
    ensures WellFormed(data) && |data.x| == |recs|
  {
    LabelData(seq(|recs|, k requires 0 <= k < |recs| => recs[k].x),
              seq(|recs|, k requires 0 <= k < |recs| => recs[k].y),
              seq(|recs|, k requires 0 <= k < |recs| => recs[k].z),
              seq(|recs|, k requires 0 <= k < |recs| => recs[k].tag))
  }

  lemma ColumnsSnoc(recs: seq<LabelRecord>, r: LabelRecord)
    ensures var d := Columns(recs);
            Columns(recs + [r]) == LabelData(d.x + [r.x], d.y + [r.y], d.z + [r.z], d.tags + [r.tag])
  {
  }

  lemma GroupRecordsStep(cones: seq<SceneObject>, tag: string, lidar: Pose, trig: Trig, j: nat)
    requires j < |cones|
    ensures GroupRecords(cones[..j + 1], tag, lidar, trig)
         == GroupRecords(cones[..j], tag, lidar, trig) + [ConeRecord(cones[j], tag, lidar, trig)]
  {
  }

  /** The records of the three categories are those of the blue cones,
      then those of the yellow cones, then those of the big cones. */
  lemma RecordsOfCategoryGroups(blue: seq<SceneObject>, yellow: seq<SceneObject>, big: seq<SceneObject>, lidar: Pose, trig: Trig)
    ensures Records(CategoryGroups(blue, yellow, big), lidar, trig)
         == GroupRecords(blue, BLUE_LABEL, lidar, trig) + GroupRecords(yellow, YELLOW_LABEL, lidar, trig)
            + GroupRecords(big, BIG_LABEL, lidar, trig)
  {
    var groups := CategoryGroups(blue, yellow, big);
    assert groups[..2][..1] == groups[..1];
    assert groups[..3][..2] == groups[..2];
    assert groups[..3] == groups;
    assert groups[..1][..0] == [];
    var b, y, g := GroupRecords(blue, BLUE_LABEL, lidar, trig), GroupRecords(yellow, YELLOW_LABEL, lidar, trig),
                   GroupRecords(big, BIG_LABEL, lidar, trig);
    assert Records(groups[..1], lidar, trig) == b;
    assert Records(groups[..2], lidar, trig) == b + y;
  }

  /** A frame has one record per cone: all blue cones in collection
      order, then all yellow, then all big, each labelled with its list's
      category string and located relative to the lidar. */
  lemma RecordsLayout(blue: seq<SceneObject>, yellow: seq<SceneObject>, big: seq<SceneObject>, lidar: Pose, trig: Trig)
    ensures var recs := Records(CategoryGroups(blue, yellow, big), lidar, trig);
      && |recs| == |blue| + |yellow| + |big|
      && (forall k :: 0 <= k < |blue| ==> recs[k] == ConeRecord(blue[k], BLUE_LABEL, lidar, trig))
      && (forall k :: 0 <= k < |yellow| ==> recs[|blue| + k] == ConeRecord(yellow[k], YELLOW_LABEL, lidar, trig))
      && (forall k :: 0 <= k < |big| ==> recs[|blue| + |yellow| + k] == ConeRecord(big[k], BIG_LABEL, lidar, trig))
  {
    RecordsOfCategoryGroups(blue, yellow, big, lidar, trig);
  }

  /** A category's label appears in a frame exactly when that category has a cone. */
  lemma LabelsPresent(blue: seq<SceneObject>, yellow: seq<SceneObject>, big: seq<SceneObject>, lidar: Pose, trig: Trig, l: string)
    ensures var recs := Records(CategoryGroups(blue, yellow, big), lidar, trig);
      (exists k :: 0 <= k < |recs| && recs[k].tag == l)
      <==> (l == BLUE_LABEL && |blue| > 0) || (l == YELLOW_LABEL && |yellow| > 0) || (l == BIG_LABEL && |big| > 0)
  {
    var recs := Records(CategoryGroups(blue, yellow, big), lidar, trig);
    RecordsLayout(blue, yellow, big, lidar, trig);
    if exists k :: 0 <= k < |recs| && recs[k].tag == l {
      var k :| 0 <= k < |recs| && recs[k].tag == l;
      if k < |blue| {
        assert recs[k].tag == BLUE_LABEL;
      } else if k < |blue| + |yellow| {
        assert recs[|blue| + (k - |blue|)].tag == YELLOW_LABEL;
      } else {
        assert recs[|blue| + |yellow| + (k - |blue| - |yellow|)].tag == BIG_LABEL;
      }
    }
    if l == BLUE_LABEL && |blue| > 0 {
      assert recs[0].tag == l;
    }
    if l == YELLOW_LABEL && |yellow| > 0 {
      assert recs[|blue| + 0].tag == l;
    }
    if l == BIG_LABEL && |big| > 0 {
      assert recs[|blue| + |yellow| + 0].tag == l;
    }
  }

  /** The body of the frame loop up to the file write: walk the three
      categories and append one record per cone to the four lists. */
  method LabelFrame(blue: seq<SceneObject>, yellow: seq<SceneObject>, big: seq<SceneObject>, lidar: Pose, trig: Trig)
    returns (data: LabelData)
    ensures data == Columns(Records(CategoryGroups(blue, yellow, big), lidar, trig))
  {
    var groups := CategoryGroups(blue, yellow, big);
    data := LabelData([], [], [], []);
    for g := 0 to |groups|
      invariant data == Columns(Records(groups[..g], lidar, trig))
    {
      var cones, tag := groups[g].cones, groups[g].tag;
      ghost var done := Records(groups[..g], lidar, trig);
      for j := 0 to |cones|
        invariant data == Columns(done + GroupRecords(cones[..j], tag, lidar, trig))
      {
        var coneLoc := cones[j].location;
        var shiftedLoc := Shifted(coneLoc, lidar.location);
        var relativeLoc := Relative(shiftedLoc, lidar.rotation.z, trig);
        ColumnsSnoc(done + GroupRecords(cones[..j], tag, lidar, trig), ConeRecord(cones[j], tag, lidar, trig));
        GroupRecordsStep(cones, tag, lidar, trig, j);
        assert done + GroupRecords(cones[..j + 1], tag, lidar, trig)
            == done + GroupRecords(cones[..j], tag, lidar, trig) + [ConeRecord(cones[j], tag, lidar, trig)];
        data := LabelData(data.x + [relativeLoc.x], data.y + [relativeLoc.y],
                          data.z + [relativeLoc.z], data.tags + [tag]);
      }
      assert cones[..|cones|] == cones;
      assert groups[..g + 1][..g] == groups[..g];
    }
    assert groups[..|groups|] == groups;
  }

  // ---------------------------------------------------------------------
  // The CSV file
  // ---------------------------------------------------------------------

  /** Row `i` of the file: the f-string `{x},{y},{z},{label}`, with `fmt`
      standing for Python's conversion of a float to text. */
  function CsvRow(data: LabelData, fmt: real -> string, i: nat): string
    requires WellFormed(data) && i < |data.x|
  {
    fmt(data.x[i]) + "," + fmt(data.y[i]) + "," + fmt(data.z[i]) + "," + data.tags[i]
  }

  function CsvRows(data: LabelData, fmt: real -> string, n: nat): seq<string>
    requires WellFormed(data) && n <= |data.x|
  {
    seq(n, i requires 0 <= i < n => CsvRow(data, fmt, i))
  }

  /** The whole label file: the header, then one newline-terminated row per index. */
  function CsvText(data: LabelData, fmt: real -> string): string
    requires WellFormed(data)
  {
    Terminated([CSV_HEADER] + CsvRows(data, fmt, |data.x|))
  }

  /** The write loop: header first, then row `i` for every index of the `x` list. */
  method WriteLabels(data: LabelData, fmt: real -> string) returns (text: string)
    requires WellFormed(data)
    ensures text == CsvText(data, fmt)
  {
    text := CSV_HEADER + "\n";
    assert [CSV_HEADER] + CsvRows(data, fmt, 0) == [CSV_HEADER];
    assert Terminated([CSV_HEADER]) == Terminated([]) + CSV_HEADER + "\n";
    for i := 0 to |data.x|
      invariant text == Terminated([CSV_HEADER] + CsvRows(data, fmt, i))
    {
      var lines := [CSV_HEADER] + CsvRows(data, fmt, i);
      assert [CSV_HEADER] + CsvRows(data, fmt, i + 1) == lines + [CsvRow(data, fmt, i)];
      assert (lines + [CsvRow(data, fmt, i)])[..|lines|] == lines;
      text := text + CsvRow(data, fmt, i) + "\n";
    }
  }

  /** Text that can stand as one CSV field. */
  predicate PlainField(s: string) {
    ',' !in s && '\n' !in s
  }

  lemma PlainFormat(fmt: real -> string, r: real)
    requires forall r :: PlainField(fmt(r))
    ensures PlainField(fmt(r))
  {
  }

  /** One row splits on commas into exactly its four fields. */
  lemma CsvRowFields(data: LabelData, fmt: real -> string, i: nat)
    requires WellFormed(data) && i < |data.x|
    requires forall r :: PlainField(fmt(r))
    requires PlainField(data.tags[i])
    ensures '\n' !in CsvRow(data, fmt, i)
    ensures SplitOn(CsvRow(data, fmt, i), ',') == [fmt(data.x[i]), fmt(data.y[i]), fmt(data.z[i]), data.tags[i]]
  {
    var fields := [fmt(data.x[i]), fmt(data.y[i]), fmt(data.z[i]), data.tags[i]];
    PlainFormat(fmt, data.x[i]);
    PlainFormat(fmt, data.y[i]);
    PlainFormat(fmt, data.z[i]);
    assert Join(fields, ',') == CsvRow(data, fmt, i) by {
      assert fields[1..][1..][1..] == [fields[3]];
      assert Join(fields[2..], ',') == fields[2] + "," + fields[3];
      assert Join(fields[1..], ',') == fields[1] + "," + (fields[2] + "," + fields[3]);
      assert Join(fields, ',') == fields[0] + "," + (fields[1] + "," + (fields[2] + "," + fields[3]));
    }
    SplitJoin(fields, ',');
  }

  /** The file splits on newlines into the header, the rows, and the empty
      text after the final newline. */
  lemma CsvLines(data: LabelData, fmt: real -> string)
    requires WellFormed(data)
    requires forall r :: PlainField(fmt(r))
    requires forall i :: 0 <= i < |data.tags| ==> PlainField(data.tags[i])
    ensures SplitOn(CsvText(data, fmt), '\n') == [CSV_HEADER] + CsvRows(data, fmt, |data.x|) + [""]
  {
    var lines := [CSV_HEADER] + CsvRows(data, fmt, |data.x|);
    forall i | 0 <= i < |lines|
      ensures '\n' !in lines[i]
    {
      if i > 0 {
        CsvRowFields(data, fmt, i - 1);
      }
    }
    SplitTerminated(lines);
  }

  /** Read back, the file is the header `x,y,z,label`, then exactly one line
      per record in record order, each with four comma-separated fields,
      then nothing after the last newline — provided no formatted number
      and no label contains a comma or a newline. */
  lemma CsvLayout(data: LabelData, fmt: real -> string)
    requires WellFormed(data)
    requires forall r :: PlainField(fmt(r))
    requires forall i :: 0 <= i < |data.tags| ==> PlainField(data.tags[i])
    ensures var lines := SplitOn(CsvText(data, fmt), '\n');
      && |lines| == |data.x| + 2
      && lines[0] == CSV_HEADER
      && lines[|data.x| + 1] == ""
      && forall i :: 0 <= i < |data.x| ==>
           SplitOn(lines[i + 1], ',') == [fmt(data.x[i]), fmt(data.y[i]), fmt(data.z[i]), data.tags[i]]
  {
    CsvLines(data, fmt);
    var lines := SplitOn(CsvText(data, fmt), '\n');
    forall i | 0 <= i < |data.x|
      ensures SplitOn(lines[i + 1], ',') == [fmt(data.x[i]), fmt(data.y[i]), fmt(data.z[i]), data.tags[i]]
    {
      assert lines[i + 1] == CsvRow(data, fmt, i);
      CsvRowFields(data, fmt, i);
    }
  }

  // ---------------------------------------------------------------------
  // The frame loop
  // ---------------------------------------------------------------------

  /** The records of one frame: the cones of the three category lists,
      relative to the lidar pose. */
  function FrameRecords(objects: seq<SceneObject>, lidar: Pose, trig: Trig): seq<LabelRecord> {
    var groups := CategoryGroups(WithPrefix(objects, BLUE_PREFIX), WithPrefix(objects, YELLOW_PREFIX),
                                 WithPrefix(objects, BIG_PREFIX));
    Records(groups, lidar, trig)
  }

  /** What `labels_{frame}.csv` holds for a lidar pose. */
  function LabelFile(objects: seq<SceneObject>, lidar: Pose, trig: Trig, fmt: real -> string): string {
    CsvText(Columns(FrameRecords(objects, lidar, trig)), fmt)
  }

  /** `files` holds the label file of every frame of `start .. stop-1`, and no other. */
  ghost predicate FilesBelow(files: map<int, string>, objects: seq<SceneObject>, start: int, stop: int,
                             poseAt: int -> Pose, trig: Trig, fmt: real -> string) {
    && (forall f :: f in files <==> start <= f < stop)
    && (forall f :: f in files ==> files[f] == LabelFile(objects, poseAt(f), trig, fmt))
  }

  lemma FilesBelowStep(files: map<int, string>, objects: seq<SceneObject>, start: int, frame: int,
                       poseAt: int -> Pose, trig: Trig, fmt: real -> string, text: string)
    requires start <= frame
    requires FilesBelow(files, objects, start, frame, poseAt, trig, fmt)
    requires text == LabelFile(objects, poseAt(frame), trig, fmt)
    ensures FilesBelow(files[frame := text], objects, start, frame + 1, poseAt, trig, fmt)
  {
  }

  /** The label loop over `range(start_frame, end_frame)`. `poseAt(f)` is
      the lidar's pose once the host has moved to frame `f`; the result
      maps each frame to the contents of its label file. */
  method GenerateLabels(objects: seq<SceneObject>, startFrame: int, endFrame: int,
                        poseAt: int -> Pose, trig: Trig, fmt: real -> string)
    returns (files: map<int, string>)
    ensures forall f :: f in files <==> startFrame <= f < endFrame
    ensures forall f :: f in files ==> files[f] == LabelFile(objects, poseAt(f), trig, fmt)
  {
    var blueCones := WithPrefix(objects, BLUE_PREFIX);
    var yellowCones := WithPrefix(objects, YELLOW_PREFIX);
    var bigCones := WithPrefix(objects, BIG_PREFIX);
    files := map[];
    var stop := if endFrame < startFrame then startFrame else endFrame;
    for frame := startFrame to stop
      invariant FilesBelow(files, objects, startFrame, frame, poseAt, trig, fmt)
    {
      var lidar := poseAt(frame);
      var labelData := LabelFrame(blueCones, yellowCones, bigCones, lidar, trig);
      var text := WriteLabels(labelData, fmt);
      FilesBelowStep(files, objects, startFrame, frame, poseAt, trig, fmt, text);
      files := files[frame := text];
    }
  }
}
