/** How the two scripts fit together: the label generator runs on the scene
    the track importer leaves behind. Its prefix filters find exactly the
    copies the importer placed, category by category; the frames it labels
    are exactly the keyframed ones; and each label is the marker's offset
    from the path point of that frame, turned into the camera's heading. */
module Pipeline {
  import opened SceneTypes
  import opened Text
  import opened ImportTrack
  import opened RangeScanner

  /** The prefix the label generator filters a category's cones by. */
  function CategoryPrefix(c: Category): string {
    match c
    case Blue => BLUE_PREFIX
    case Yellow => YELLOW_PREFIX
    case Big => BIG_PREFIX
  }

  /** The label the label generator writes for a category's cones. */
  function CategoryLabel(c: Category): string {
    match c
    case Blue => BLUE_LABEL
    case Yellow => YELLOW_LABEL
    case Big => BIG_LABEL
  }

  /** A category's markers in the track file. */
  function Markers(track: TrackData, c: Category): seq<Point2> {
    match c
    case Blue => track.blueCones
    case Yellow => track.yellowCones
    case Big => track.bigCones
  }

  /** How many copies population makes before the first one of `c`. */
  function MarkersBefore(track: TrackData, c: Category): nat {
    match c
    case Blue => 0
    case Yellow => |track.blueCones|
    case Big => |track.blueCones| + |track.yellowCones|
  }

  // ---------------------------------------------------------------------
  // Names
  // ---------------------------------------------------------------------

  /** The two scripts name a category alike: the filter prefix is the
      reference object's name and a dot, and the label is that name. */
  lemma NamesAgree(c: Category)
    ensures CategoryPrefix(c) == ReferenceName(c) + "."
    ensures CategoryLabel(c) == ReferenceName(c)
  {
  }

  /** No name starts with the prefixes of two different categories. */
  lemma PrefixesDisjoint(name: string, c: Category, d: Category)
    requires StartsWith(name, CategoryPrefix(c)) && StartsWith(name, CategoryPrefix(d))
    ensures c == d
  {
    var p, q := CategoryPrefix(c), CategoryPrefix(d);
    assert name[0] == p[0] && name[0] == q[0];
    assert name[1] == p[1] && name[1] == q[1];
  }

  /** Every name the deletion filter accepts starts with exactly one of the
      three category prefixes. */
  lemma TrackConeNameHasOneCategory(name: string)
    requires IsTrackConeName(name)
    ensures exists c :: StartsWith(name, CategoryPrefix(c))
    ensures forall c, d :: StartsWith(name, CategoryPrefix(c)) && StartsWith(name, CategoryPrefix(d)) ==> c == d
  {
    if PrefixThenDigit(name, "big_cone.") {
      assert StartsWith(name, CategoryPrefix(Big));
    } else if PrefixThenDigit(name, "blue_cone.") {
      assert StartsWith(name, CategoryPrefix(Blue));
    } else {
      assert StartsWith(name, CategoryPrefix(Yellow));
    }
    forall c, d | StartsWith(name, CategoryPrefix(c)) && StartsWith(name, CategoryPrefix(d))
      ensures c == d
    {
      PrefixesDisjoint(name, c, d);
    }
  }

  /** The converse does not hold: a name with a category prefix but no
      digit after it is counted by the label generator, yet the deletion
      filter keeps it. */
  lemma PrefixWithoutDigit()
    ensures StartsWith("blue_cone.x", CategoryPrefix(Blue))
    ensures !IsTrackConeName("blue_cone.x")
  {
    DiffersAt("blue_cone.x", "big_cone.", 1);
    DiffersAt("blue_cone.x", "yellow_cone.", 0);
    assert !IsDigit("blue_cone.x"[10]);
  }

  /** A copy of the reference cone of `c` passes the filter of `d` exactly
      when `d` is `c`. */
  lemma CopyNameInCategory(c: Category, serial: nat, d: Category)
    ensures StartsWith(CopyName(c, serial), CategoryPrefix(d)) <==> c == d
  {
    var name := CopyName(c, serial);
    var p := CategoryPrefix(c);
    assert name == p + CopySuffix(serial);
    assert name[..|p|] == p;
    if c != d {
      assert StartsWith(name, p);
      if StartsWith(name, CategoryPrefix(d)) {
        PrefixesDisjoint(name, c, d);
      }
    }
  }

  // ---------------------------------------------------------------------
  // Category filters after an import
  // ---------------------------------------------------------------------

  /** Filtering a collection that starts with `o`. */
  lemma WithPrefixCons(o: SceneObject, rest: seq<SceneObject>, prefix: string)
    ensures WithPrefix([o] + rest, prefix)
         == if StartsWith(o.name, prefix) then [o] + WithPrefix(rest, prefix) else WithPrefix(rest, prefix)
  {
    assert ([o] + rest)[0] == o;
    assert ([o] + rest)[1..] == rest;
  }

  /** The copies of a run of markers: the first one, then the copies of
      the remaining markers with the next serial numbers. */
  lemma PlacedCopiesCons(c: Category, points: seq<Point2>, cursor: Vec3, serial: nat)
    requires |points| > 0
    ensures PlacedObjects(Tag(c, points), cursor, serial)
         == [SceneObject(CopyName(c, serial), ConeLocation(points[0], cursor))]
            + PlacedObjects(Tag(c, points[1..]), cursor, serial + 1)
  {
    var tagged := Tag(c, points);
    PlacedObjectsCons(tagged, cursor, serial);
    assert tagged[0] == Placement(c, points[0]);
    assert tagged[1..] == Tag(c, points[1..]);
  }

  /** The filter of `d` keeps all copies of a run of `c` markers when `d`
      is `c`, and none of them otherwise. */
  lemma {:induction false} WithPrefixOfCopies(c: Category, points: seq<Point2>, cursor: Vec3, serial: nat, d: Category)
    ensures WithPrefix(PlacedObjects(Tag(c, points), cursor, serial), CategoryPrefix(d))
         == if c == d then PlacedObjects(Tag(c, points), cursor, serial) else []
  {
    if |points| > 0 {
      var first := SceneObject(CopyName(c, serial), ConeLocation(points[0], cursor));
      var rest := PlacedObjects(Tag(c, points[1..]), cursor, serial + 1);
      PlacedCopiesCons(c, points, cursor, serial);
      WithPrefixCons(first, rest, CategoryPrefix(d));
      CopyNameInCategory(c, serial, d);
      WithPrefixOfCopies(c, points[1..], cursor, serial + 1, d);
    }
  }

  /** The objects the deletion keeps are none of the label generator's
      cones: every object with a category prefix is one the deletion filter
      accepts. `PrefixWithoutDigit` shows a name this rules out. */
  predicate SurvivorsUncategorised(objects: seq<SceneObject>) {
    forall o :: o in objects && !IsTrackConeName(o.name) ==>
      !StartsWith(o.name, BLUE_PREFIX) && !StartsWith(o.name, YELLOW_PREFIX) && !StartsWith(o.name, BIG_PREFIX)
  }

  lemma WithPrefixOfSurvivors(objects: seq<SceneObject>, d: Category)
    requires SurvivorsUncategorised(objects)
    ensures WithPrefix(WithoutTrackCones(objects), CategoryPrefix(d)) == []
  {
    assert forall o :: o in WithoutTrackCones(objects) ==> !StartsWith(o.name, CategoryPrefix(d));
  }

  lemma WithPrefixOfThree(a: seq<SceneObject>, b: seq<SceneObject>, c: seq<SceneObject>, prefix: string)
    ensures WithPrefix(a + b + c, prefix) == WithPrefix(a, prefix) + WithPrefix(b, prefix) + WithPrefix(c, prefix)
  {
    WithPrefixAppend(a + b, c, prefix);
    WithPrefixAppend(a, b, prefix);
  }

  /** Of three filtered runs, only the one of category `d` is non-empty. */
  lemma PickCategory(whole: seq<SceneObject>, b: seq<SceneObject>, y: seq<SceneObject>,
                     g: seq<SceneObject>, pb: seq<SceneObject>, py: seq<SceneObject>, pg: seq<SceneObject>, d: Category)
    requires whole == b + y + g
    requires b == (if d == Blue then pb else []) && y == (if d == Yellow then py else [])
    requires g == (if d == Big then pg else [])
    ensures whole == match d case Blue => pb case Yellow => py case Big => pg
  {
    match d
    case Blue => assert whole == pb + [] + [];
    case Yellow => assert whole == [] + py + [];
    case Big => assert whole == [] + [] + pg;
  }

  /** The copies of the run of category `d`. */
  function RunCopies(track: TrackData, cursor: Vec3, serial: nat, d: Category): seq<SceneObject> {
    PlacedObjects(Tag(d, Markers(track, d)), cursor, serial + MarkersBefore(track, d))
  }

  lemma RunCopiesCases(track: TrackData, cursor: Vec3, serial: nat, sy: nat, sg: nat, d: Category)
    requires sy == serial + |track.blueCones| && sg == sy + |track.yellowCones|
    ensures RunCopies(track, cursor, serial, d)
         == match d
            case Blue => PlacedObjects(Tag(Blue, track.blueCones), cursor, serial)
            case Yellow => PlacedObjects(Tag(Yellow, track.yellowCones), cursor, sy)
            case Big => PlacedObjects(Tag(Big, track.bigCones), cursor, sg)
  {
  }

  /** The filter of `d` applied to all copies population makes keeps the
      run of `d`. */
  lemma WithPrefixOfPlaced(track: TrackData, cursor: Vec3, serial: nat, d: Category)
    ensures WithPrefix(PlacedObjects(Placements(track), cursor, serial), CategoryPrefix(d))
         == RunCopies(track, cursor, serial, d)
  {
    var sy: nat := serial + |track.blueCones|;
    var sg: nat := sy + |track.yellowCones|;
    var pb, py, pg := PlacedObjects(Tag(Blue, track.blueCones), cursor, serial),
                      PlacedObjects(Tag(Yellow, track.yellowCones), cursor, sy),
                      PlacedObjects(Tag(Big, track.bigCones), cursor, sg);
    var prefix := CategoryPrefix(d);
    PlacedInRuns(track, cursor, serial, sy, sg);
    WithPrefixOfThree(pb, py, pg, prefix);
    WithPrefixOfCopies(Blue, track.blueCones, cursor, serial, d);
    WithPrefixOfCopies(Yellow, track.yellowCones, cursor, sy, d);
    WithPrefixOfCopies(Big, track.bigCones, cursor, sg, d);
    PickCategory(WithPrefix(pb + py + pg, prefix), WithPrefix(pb, prefix), WithPrefix(py, prefix),
                 WithPrefix(pg, prefix), pb, py, pg, d);
    RunCopiesCases(track, cursor, serial, sy, sg, d);
  }

  /** After an import, the label generator's filter of each category holds
      exactly that category's copies, in marker order. */
  lemma CategoriesAfterImport(objects: seq<SceneObject>, track: TrackData, cursor: Vec3, serial: nat, d: Category)
    requires SurvivorsUncategorised(objects)
    ensures WithPrefix(WithoutTrackCones(objects) + PlacedObjects(Placements(track), cursor, serial), CategoryPrefix(d))
         == RunCopies(track, cursor, serial, d)
  {
    var kept, placed := WithoutTrackCones(objects), PlacedObjects(Placements(track), cursor, serial);
    WithPrefixAppend(kept, placed, CategoryPrefix(d));
    WithPrefixOfSurvivors(objects, d);
    WithPrefixOfPlaced(track, cursor, serial, d);
    assert [] + RunCopies(track, cursor, serial, d) == RunCopies(track, cursor, serial, d);
  }

  // ---------------------------------------------------------------------
  // Frames
  // ---------------------------------------------------------------------

  /** The frame range the importer sets, `0 .. len(path)-1` with the end
      exclusive in the label loop, is exactly the set of keyframed frames,
      so every labelled frame has a camera keyframe of its own. */
  lemma LabelledFramesAreKeyframed(track: TrackData, trig: Trig, cursor: Vec3, frameStart: int, frameEnd: int)
    requires frameStart == 0 && frameEnd == |track.path| - 1
    ensures forall f :: frameStart <= f < frameEnd <==> f in CameraKeys(track.path, trig, cursor)
    ensures |track.path| > 0 ==> frameEnd - frameStart == |CameraKeys(track.path, trig, cursor)|
  {
    CameraKeysLayout(track.path, trig, cursor);
  }

  // ---------------------------------------------------------------------
  // Labels
  // ---------------------------------------------------------------------

  /** The label of a marker at `p` for the camera at path point `q` heading
      `yaw`: its offset from `q`, turned by the camera's rotation, at the
      height of a cone dropped over the cursor seen from the lidar. */
  function ExpectedRecord(p: Point2, tag: string, q: Point2, yaw: real, trig: Trig): LabelRecord {
    var offset := Vec3(p.x - q.x, p.y - q.y, CONE_HEIGHT_OFFSET - LIDAR_HEIGHT_OVER_CURSOR);
    var rel := Relative(offset, yaw + PI / 2.0, trig);
    LabelRecord(rel.x, rel.y, rel.z, tag)
  }

  function ExpectedGroup(points: seq<Point2>, tag: string, q: Point2, yaw: real, trig: Trig): seq<LabelRecord> {
    seq(|points|, k requires 0 <= k < |points| => ExpectedRecord(points[k], tag, q, yaw, trig))
  }

  /** The records of a frame, computed from the track file alone, for the
      camera at path point `q` heading `yaw`: every blue, then yellow, then
      big marker. */
  function ExpectedRecords(track: TrackData, q: Point2, yaw: real, trig: Trig): seq<LabelRecord> {
    ExpectedGroup(track.blueCones, BLUE_LABEL, q, yaw, trig)
      + ExpectedGroup(track.yellowCones, YELLOW_LABEL, q, yaw, trig)
      + ExpectedGroup(track.bigCones, BIG_LABEL, q, yaw, trig)
  }

  /** The yaw the importer keys at frame `f`: that of `path[f] - path[f+1]`. */
  function KeyedYaw(path: seq<Point2>, trig: Trig, f: nat): real
    requires f + 1 < |path|
  {
    trig.atan2(path[f].y - path[f + 1].y, path[f].x - path[f + 1].x)
  }

  /** The cursor cancels out: a copy's label depends on its marker and the
      camera's path point only. */
  lemma CopiesRecords(c: Category, points: seq<Point2>, cursor: Vec3, serial: nat, tag: string,
                      q: Point2, yaw: real, trig: Trig)
    ensures GroupRecords(PlacedObjects(Tag(c, points), cursor, serial), tag, CameraPose(q, yaw, cursor), trig)
         == ExpectedGroup(points, tag, q, yaw, trig)
  {
    var placed := PlacedObjects(Tag(c, points), cursor, serial);
    forall k | 0 <= k < |points|
      ensures ConeRecord(placed[k], tag, CameraPose(q, yaw, cursor), trig) == ExpectedRecord(points[k], tag, q, yaw, trig)
    {
      assert Tag(c, points)[k] == Placement(c, points[k]);
      CopyRecord(c, points[k], cursor, serial + k, tag, q, yaw, trig);
    }
  }

  /** The record of one copy, seen from the camera at path point `q`. */
  lemma CopyRecord(c: Category, p: Point2, cursor: Vec3, serial: nat, tag: string, q: Point2, yaw: real, trig: Trig)
    ensures ConeRecord(PlacedObject(Placement(c, p), cursor, serial), tag, CameraPose(q, yaw, cursor), trig)
         == ExpectedRecord(p, tag, q, yaw, trig)
  {
    assert Shifted(ConeLocation(p, cursor), CameraPose(q, yaw, cursor).location)
        == Vec3(p.x - q.x, p.y - q.y, CONE_HEIGHT_OFFSET - LIDAR_HEIGHT_OVER_CURSOR);
  }

  lemma RunRecords(track: TrackData, cursor: Vec3, serial: nat, d: Category, q: Point2, yaw: real, trig: Trig)
    ensures GroupRecords(RunCopies(track, cursor, serial, d), CategoryLabel(d), CameraPose(q, yaw, cursor), trig)
         == ExpectedGroup(Markers(track, d), CategoryLabel(d), q, yaw, trig)
  {
    CopiesRecords(d, Markers(track, d), cursor, serial + MarkersBefore(track, d), CategoryLabel(d), q, yaw, trig);
  }

  /** The collection an import leaves: the objects the deletion keeps,
      then the new copies numbered from `serial` on. */
  function ImportedCones(objects: seq<SceneObject>, track: TrackData, cursor: Vec3, serial: nat): seq<SceneObject> {
    WithoutTrackCones(objects) + PlacedObjects(Placements(track), cursor, serial)
  }

  /** The records of the scene an import leaves, for the camera at path
      point `q` heading `yaw`. */
  lemma RecordsAfterImport(objects: seq<SceneObject>, track: TrackData, cursor: Vec3, serial: nat,
                           q: Point2, yaw: real, trig: Trig)
    requires SurvivorsUncategorised(objects)
    ensures FrameRecords(ImportedCones(objects, track, cursor, serial), CameraPose(q, yaw, cursor), trig)
         == ExpectedRecords(track, q, yaw, trig)
  {
    var scene := ImportedCones(objects, track, cursor, serial);
    var lidar := CameraPose(q, yaw, cursor);
    CategoriesAfterImport(objects, track, cursor, serial, Blue);
    CategoriesAfterImport(objects, track, cursor, serial, Yellow);
    CategoriesAfterImport(objects, track, cursor, serial, Big);
    RecordsOfCategoryGroups(WithPrefix(scene, BLUE_PREFIX), WithPrefix(scene, YELLOW_PREFIX),
                            WithPrefix(scene, BIG_PREFIX), lidar, trig);
    RunRecords(track, cursor, serial, Blue, q, yaw, trig);
    RunRecords(track, cursor, serial, Yellow, q, yaw, trig);
    RunRecords(track, cursor, serial, Big, q, yaw, trig);
  }

  /** `poseAt` evaluates the animation so that a keyed frame shows its key. */
  predicate AgreesWithKeys(poseAt: int -> Pose, keys: map<int, Pose>) {
    forall g :: g in keys ==> poseAt(g) == keys[g]
  }

  lemma KeyAt(path: seq<Point2>, trig: Trig, cursor: Vec3, f: nat)
    requires f + 1 < |path|
    ensures f in CameraKeys(path, trig, cursor)
    ensures CameraKeys(path, trig, cursor)[f] == CameraPose(path[f], KeyedYaw(path, trig, f), cursor)
  {
    CameraKeysLayout(path, trig, cursor);
  }

  /** At a keyframed frame, an evaluation of the animation that agrees with
      the keyframes gives the pose the importer keyed there. */
  lemma KeyedPose(track: TrackData, trig: Trig, cursor: Vec3, before: map<int, Pose>, poseAt: int -> Pose, f: nat)
    requires f + 1 < |track.path|
    requires AgreesWithKeys(poseAt, before + CameraKeys(track.path, trig, cursor))
    ensures poseAt(f) == CameraPose(track.path[f], KeyedYaw(track.path, trig, f), cursor)
  {
    var keys := CameraKeys(track.path, trig, cursor);
    KeyAt(track.path, trig, cursor, f);
    var m := before + keys;
    assert f in m && m[f] == keys[f];
  }

  /** End to end: once the importer has run, the label generator's records
      for a keyframed frame `f` are those computed from the track file:
      every blue, then yellow, then big marker, offset from `path[f]` and
      turned into the heading of `path[f] - path[f+1]`. `poseAt` is any
      evaluation of the animation that returns the keyed pose at a keyed
      frame; `before` holds the keyframes from earlier imports. */
  lemma LabelsMatchTrack(objects: seq<SceneObject>, track: TrackData, cursor: Vec3, serial: nat, trig: Trig,
                         before: map<int, Pose>, poseAt: int -> Pose, f: nat)
    requires SurvivorsUncategorised(objects)
    requires f + 1 < |track.path|
    requires AgreesWithKeys(poseAt, before + CameraKeys(track.path, trig, cursor))
    ensures FrameRecords(ImportedCones(objects, track, cursor, serial), poseAt(f), trig)
         == ExpectedRecords(track, track.path[f], KeyedYaw(track.path, trig, f), trig)
  {
    KeyedPose(track, trig, cursor, before, poseAt, f);
    RecordsAfterImport(objects, track, cursor, serial, track.path[f], KeyedYaw(track.path, trig, f), trig);
  }

  /** The label file of a keyframed frame, written from the track file alone. */
  lemma LabelFileMatchesTrack(objects: seq<SceneObject>, track: TrackData, cursor: Vec3, serial: nat, trig: Trig,
                              before: map<int, Pose>, poseAt: int -> Pose, f: nat, fmt: real -> string)
    requires SurvivorsUncategorised(objects)
    requires f + 1 < |track.path|
    requires AgreesWithKeys(poseAt, before + CameraKeys(track.path, trig, cursor))
    ensures LabelFile(ImportedCones(objects, track, cursor, serial), poseAt(f), trig, fmt)
         == CsvText(Columns(ExpectedRecords(track, track.path[f], KeyedYaw(track.path, trig, f), trig)), fmt)
  {
    LabelsMatchTrack(objects, track, cursor, serial, trig, before, poseAt, f);
  }

  /** Re-importing a track leaves the camera's animation as one import does:
      the second import writes the same keyframes over the first ones. */
  lemma ReimportKeepsKeyframes(before: map<int, Pose>, track: TrackData, trig: Trig, cursor: Vec3)
    ensures var keys := CameraKeys(track.path, trig, cursor);
            (before + keys) + keys == before + keys
  {
  }
}
