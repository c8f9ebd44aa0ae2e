/** The track importer (`blender_scripts/import_track.py`): it deletes the
    cones left from an earlier import, places one copy of a reference cone
    per marker of the track, keyframes the lidar camera once per
    consecutive pair of path points, and sets the animation's frame range.

    The Blender scene is a `Scene` object holding what the script reads and
    changes: the objects of the `cone_track` collection, the camera's
    current pose and its keyframes, and the scene's frame range. */
module ImportTrack {
  import opened SceneTypes
  import opened Text

  const DELETE_OLD_CONES: bool := true
  const LIDAR_HEIGHT_OVER_CURSOR: real := 0.7
  /** Cones are dropped from this height above the cursor so that they never
      start inside the ground. */
  const CONE_HEIGHT_OFFSET: real := 1.0

  /** The track file: the sensor path and the three marker lists. */
  datatype TrackData = TrackData(
    path: seq<Point2>,
    blueCones: seq<Point2>,
    yellowCones: seq<Point2>,
    bigCones: seq<Point2>)

  /** Which reference cone a marker is a copy of. */
  datatype Category = Blue | Yellow | Big

  /** What the script does after deleting the old cones. */
  datatype ImportOutcome = NothingToPlace | Populated

  /** Name of the reference object that cones of a category are copied from. */
  function ReferenceName(c: Category): string {
    match c
    case Blue => "blue_cone"
    case Yellow => "yellow_cone"
    case Big => "big_cone"
  }

  // ---------------------------------------------------------------------
  // Object names
  // ---------------------------------------------------------------------

  /** `name` starts with `prefix` immediately followed by a decimal digit. */
  predicate PrefixThenDigit(name: string, prefix: string) {
    StartsWith(name, prefix) && |prefix| < |name| && IsDigit(name[|prefix|])
  }

  /** `re.match(r"(?:big|blue|yellow)_cone\.\d+", name)` succeeds: the match
      is anchored at the start only, and `\d+` needs one digit at least. */
  predicate IsTrackConeName(name: string) {
    PrefixThenDigit(name, "big_cone.")
    || PrefixThenDigit(name, "blue_cone.")
    || PrefixThenDigit(name, "yellow_cone.")
  }

  /** A name that differs from a prefix at one of the prefix's positions
      does not start with it. */
  lemma DiffersAt(name: string, prefix: string, i: nat)
    requires i < |prefix| && i < |name| && name[i] != prefix[i]
    ensures !StartsWith(name, prefix)
  {
    assert |prefix| <= |name| ==> name[..|prefix|][i] == name[i];
  }

  /** The filter is anchored at the start only: text after the digits is
      allowed, but a prefix alone, a prefix followed by a non-digit, and a
      prefix further into the name are not accepted. */
  lemma TrackConeNameExamples()
    ensures IsTrackConeName("blue_cone.004")
    ensures IsTrackConeName("big_cone.1_old")
    ensures !IsTrackConeName("yellow_cone.")
    ensures !IsTrackConeName("blue_cone.x1")
    ensures !IsTrackConeName("my_blue_cone.001")
  {
    assert PrefixThenDigit("blue_cone.004", "blue_cone.");
    assert PrefixThenDigit("big_cone.1_old", "big_cone.");
    DiffersAt("yellow_cone.", "big_cone.", 0);
    DiffersAt("yellow_cone.", "blue_cone.", 0);
    DiffersAt("blue_cone.x1", "big_cone.", 1);
    DiffersAt("blue_cone.x1", "yellow_cone.", 0);
    assert !IsDigit("blue_cone.x1"[10]);
    DiffersAt("my_blue_cone.001", "big_cone.", 0);
    DiffersAt("my_blue_cone.001", "blue_cone.", 0);
    DiffersAt("my_blue_cone.001", "yellow_cone.", 0);
  }

  function DigitChar(d: nat): (c: char)
    requires d < 10
    ensures IsDigit(c)
  {
    (48 + d) as char
  }

  /** The decimal digits of `n`, most significant first. */
  function Decimal(n: nat): (s: string)
    ensures 1 <= |s| && AllDigits(s)
  {
    if n < 10 then [DigitChar(n)] else Decimal(n / 10) + [DigitChar(n % 10)]
  }

  /** The numeric suffix Blender gives a copy: at least three digits. */
  function CopySuffix(serial: nat): (s: string)
    ensures 3 <= |s| && AllDigits(s)
  {
    var d := Decimal(serial);
    if |d| >= 3 then d else seq(3 - |d|, _ => '0') + d
  }

  /** The name of the copy `reference.copy()` creates, e.g. `blue_cone.004`. */
  function CopyName(c: Category, serial: nat): string {
    ReferenceName(c) + "." + CopySuffix(serial)
  }

  /** Every copy of a reference cone is picked up by the deletion filter. */
  lemma CopyNameIsTrackCone(c: Category, serial: nat)
    ensures IsTrackConeName(CopyName(c, serial))
  {
    var name, suffix := CopyName(c, serial), CopySuffix(serial);
    var prefix := ReferenceName(c) + ".";
    assert name == prefix + suffix;
    assert name[..|prefix|] == prefix;
    assert name[|prefix|] == suffix[0];
    match c
    case Blue => assert PrefixThenDigit(name, "blue_cone.");
    case Yellow => assert PrefixThenDigit(name, "yellow_cone.");
    case Big => assert PrefixThenDigit(name, "big_cone.");
  }

  // ---------------------------------------------------------------------
  // The collection filters used by the deletion step
  // ---------------------------------------------------------------------

  /** `get_cones_in_scene()`: the collection's objects whose names the
      regular expression accepts, in collection order. */
  function ConesInScene(objects: seq<SceneObject>): (r: seq<SceneObject>)
    ensures |r| <= |objects|
    ensures forall o :: o in r <==> o in objects && IsTrackConeName(o.name)
  {
    if |objects| == 0 then []
    else
      var rest := ConesInScene(objects[1..]);
      assert forall o :: o in objects <==> o == objects[0] || o in objects[1..];
      if IsTrackConeName(objects[0].name) then [objects[0]] + rest else rest
  }

  /** What the collection holds once every accepted object is removed:
      the other objects, in their order. */
  function WithoutTrackCones(objects: seq<SceneObject>): (r: seq<SceneObject>)
    ensures |r| <= |objects|
    ensures forall o :: o in r <==> o in objects && !IsTrackConeName(o.name)
  {
    if |objects| == 0 then []
    else
      var rest := WithoutTrackCones(objects[1..]);
      assert forall o :: o in objects <==> o == objects[0] || o in objects[1..];
      if IsTrackConeName(objects[0].name) then rest else [objects[0]] + rest
  }

  /** `bpy.data.objects.remove(o)`: the collection without `o`. */
  function Remove(objects: seq<SceneObject>, o: SceneObject): seq<SceneObject> {
    if |objects| == 0 then []
    else if objects[0] == o then Remove(objects[1..], o)
    else [objects[0]] + Remove(objects[1..], o)
  }

  /** The collection without every object of `doomed`. */
  function RemoveAll(objects: seq<SceneObject>, doomed: seq<SceneObject>): seq<SceneObject> {
    if |objects| == 0 then []
    else if objects[0] in doomed then RemoveAll(objects[1..], doomed)
    else [objects[0]] + RemoveAll(objects[1..], doomed)
  }

  lemma {:induction false} RemoveNothing(objects: seq<SceneObject>)
    ensures RemoveAll(objects, []) == objects
  {
    if |objects| > 0 {
      RemoveNothing(objects[1..]);
    }
  }

  /** Removing one more object extends the list of removed objects. */
  lemma {:induction false} RemoveStep(objects: seq<SceneObject>, doomed: seq<SceneObject>, o: SceneObject)
    ensures Remove(RemoveAll(objects, doomed), o) == RemoveAll(objects, doomed + [o])
  {
    if |objects| > 0 {
      RemoveStep(objects[1..], doomed, o);
    }
  }

  /** Removing exactly the accepted objects leaves `WithoutTrackCones`. */
  lemma {:induction false} RemoveAllTrackCones(objects: seq<SceneObject>, doomed: seq<SceneObject>)
    requires forall o :: o in objects ==> (o in doomed <==> IsTrackConeName(o.name))
    ensures RemoveAll(objects, doomed) == WithoutTrackCones(objects)
  {
    if |objects| > 0 {
      assert objects[0] in objects;
      assert forall o :: o in objects[1..] ==> o in objects;
      RemoveAllTrackCones(objects[1..], doomed);
    }
  }

  lemma {:induction false} WithoutTrackConesAppend(a: seq<SceneObject>, b: seq<SceneObject>)
    ensures WithoutTrackCones(a + b) == WithoutTrackCones(a) + WithoutTrackCones(b)
  {
    if |a| == 0 {
      assert a + b == b;
    } else {
      assert (a + b)[0] == a[0];
      assert (a + b)[1..] == a[1..] + b;
      WithoutTrackConesAppend(a[1..], b);
    }
  }

  /** Filtering twice is filtering once. */
  lemma {:induction false} WithoutTrackConesIdempotent(objects: seq<SceneObject>)
    ensures WithoutTrackCones(WithoutTrackCones(objects)) == WithoutTrackCones(objects)
  {
    if |objects| > 0 {
      WithoutTrackConesIdempotent(objects[1..]);
    }
  }

  // ---------------------------------------------------------------------
  // What population places
  // ---------------------------------------------------------------------

  /** One marker to place: its category and its ground-plane point. */
  datatype Placement = Placement(category: Category, point: Point2)

  function Tag(c: Category, points: seq<Point2>): seq<Placement> {
    seq(|points|, i requires 0 <= i < |points| => Placement(c, points[i]))
  }

  /** The add-callback calls `populate_world` makes, in call order. */
  function Placements(track: TrackData): seq<Placement> {
    Tag(Blue, track.blueCones) + Tag(Yellow, track.yellowCones) + Tag(Big, track.bigCones)
  }

  /** `sum([len(big_cones), len(blue_cones), len(yellow_cones)])`. */
  function ConeCount(track: TrackData): nat {
    |track.bigCones| + |track.blueCones| + |track.yellowCones|
  }

  /** The location every add-callback gives its copy, whatever the category. */
  function ConeLocation(p: Point2, cursor: Vec3): Vec3 {
    Vec3(p.x + cursor.x, p.y + cursor.y, cursor.z + CONE_HEIGHT_OFFSET)
  }

  /** The object the add-callback for `pl` links into the collection. */
  function PlacedObject(pl: Placement, cursor: Vec3, serial: nat): SceneObject {
    SceneObject(CopyName(pl.category, serial), ConeLocation(pl.point, cursor))
  }

  /** The objects a run of add-callbacks links, numbered from `serial` on. */
  function PlacedObjects(pls: seq<Placement>, cursor: Vec3, serial: nat): seq<SceneObject> {
    seq(|pls|, k requires 0 <= k < |pls| => PlacedObject(pls[k], cursor, serial + k))
  }

  function Locations(objects: seq<SceneObject>): seq<Vec3> {
    seq(|objects|, k requires 0 <= k < |objects| => objects[k].location)
  }

  lemma LocationsAppend(a: seq<SceneObject>, b: seq<SceneObject>)
    ensures Locations(a + b) == Locations(a) + Locations(b)
  {
  }

  /** Where a copy is placed depends on its marker only, not on its serial. */
  lemma PlacedLocations(pls: seq<Placement>, cursor: Vec3, first: nat, second: nat)
    ensures Locations(PlacedObjects(pls, cursor, first)) == Locations(PlacedObjects(pls, cursor, second))
  {
  }

  /** Population places one cone per marker: all blue in list order, then
      all yellow, then all big. */
  lemma PlacementsLayout(track: TrackData)
    ensures |Placements(track)| == ConeCount(track)
    ensures forall k :: 0 <= k < |track.blueCones| ==>
      Placements(track)[k] == Placement(Blue, track.blueCones[k])
    ensures forall k :: 0 <= k < |track.yellowCones| ==>
      Placements(track)[|track.blueCones| + k] == Placement(Yellow, track.yellowCones[k])
    ensures forall k :: 0 <= k < |track.bigCones| ==>
      Placements(track)[|track.blueCones| + |track.yellowCones| + k] == Placement(Big, track.bigCones[k])
  {
  }

  /** An object placed from the second of two runs of placements. */
  lemma PlacedFromSecond(a: seq<Placement>, b: seq<Placement>, cursor: Vec3, serial: nat, k: nat)
    requires |a| <= k < |a| + |b|
    ensures PlacedObjects(a + b, cursor, serial)[k] == PlacedObjects(b, cursor, serial + |a|)[k - |a|]
  {
    var j := k - |a|;
    assert (a + b)[k] == b[j];
    assert serial + |a| + j == serial + k;
  }

  lemma PlacedObjectsAppend(a: seq<Placement>, b: seq<Placement>, cursor: Vec3, serial: nat)
    ensures PlacedObjects(a + b, cursor, serial)
         == PlacedObjects(a, cursor, serial) + PlacedObjects(b, cursor, serial + |a|)
  {
    var lhs, rhs := PlacedObjects(a + b, cursor, serial),
                    PlacedObjects(a, cursor, serial) + PlacedObjects(b, cursor, serial + |a|);
    forall k | 0 <= k < |lhs| ensures lhs[k] == rhs[k] {
      if k < |a| {
        assert (a + b)[k] == a[k];
      } else {
        PlacedFromSecond(a, b, cursor, serial, k);
      }
    }
  }

  lemma PlacedObjectsStep(pls: seq<Placement>, cursor: Vec3, serial: nat, n: nat)
    requires n < |pls|
    ensures PlacedObjects(pls[..n + 1], cursor, serial)
         == PlacedObjects(pls[..n], cursor, serial) + [PlacedObject(pls[n], cursor, serial + n)]
  {
    assert pls[..n + 1] == pls[..n] + [pls[n]];
    PlacedObjectsAppend(pls[..n], [pls[n]], cursor, serial);
  }

  /** The objects of a run of placements: the first one, then those of the
      remaining placements with the next serial numbers. */
  lemma PlacedObjectsCons(pls: seq<Placement>, cursor: Vec3, serial: nat)
    requires |pls| > 0
    ensures PlacedObjects(pls, cursor, serial)
         == [PlacedObject(pls[0], cursor, serial)] + PlacedObjects(pls[1..], cursor, serial + 1)
  {
    var placed := PlacedObjects(pls, cursor, serial);
    assert placed[1..] == PlacedObjects(pls[1..], cursor, serial + 1);
    assert [placed[0]] + placed[1..] == placed;
  }

  /** Filtering a collection that starts with `o`. */
  lemma WithoutTrackConesCons(o: SceneObject, rest: seq<SceneObject>)
    ensures WithoutTrackCones([o] + rest)
         == if IsTrackConeName(o.name) then WithoutTrackCones(rest) else [o] + WithoutTrackCones(rest)
  {
    assert ([o] + rest)[0] == o;
    assert ([o] + rest)[1..] == rest;
  }

  /** Every placed object is accepted by the deletion filter, so filtering
      removes all of them. */
  lemma {:induction false} WithoutPlacedObjects(pls: seq<Placement>, cursor: Vec3, serial: nat)
    ensures WithoutTrackCones(PlacedObjects(pls, cursor, serial)) == []
  {
    if |pls| > 0 {
      var first := PlacedObject(pls[0], cursor, serial);
      PlacedObjectsCons(pls, cursor, serial);
      WithoutTrackConesCons(first, PlacedObjects(pls[1..], cursor, serial + 1));
      CopyNameIsTrackCone(pls[0].category, serial);
      WithoutPlacedObjects(pls[1..], cursor, serial + 1);
    }
  }

  /** The objects population places: the blue ones, then the yellow ones,
      then the big ones, numbered on from one run to the next. */
  lemma PlacedInRuns(track: TrackData, cursor: Vec3, serial: nat, sy: nat, sg: nat)
    requires sy == serial + |track.blueCones| && sg == sy + |track.yellowCones|
    ensures PlacedObjects(Placements(track), cursor, serial)
         == PlacedObjects(Tag(Blue, track.blueCones), cursor, serial)
            + PlacedObjects(Tag(Yellow, track.yellowCones), cursor, sy)
            + PlacedObjects(Tag(Big, track.bigCones), cursor, sg)
  {
    var tb, ty, tg := Tag(Blue, track.blueCones), Tag(Yellow, track.yellowCones), Tag(Big, track.bigCones);
    PlacedObjectsAppend(tb + ty, tg, cursor, serial);
    PlacedObjectsAppend(tb, ty, cursor, serial);
  }

  /** After a non-empty population the physics block's `cones[0]` exists:
      the deletion filter finds at least one cone. */
  lemma SettlingFindsACone(objects: seq<SceneObject>, track: TrackData, cursor: Vec3, serial: nat)
    requires ConeCount(track) > 0
    ensures |ConesInScene(WithoutTrackCones(objects) + PlacedObjects(Placements(track), cursor, serial))| > 0
  {
    var placed := PlacedObjects(Placements(track), cursor, serial);
    PlacementsLayout(track);
    CopyNameIsTrackCone(Placements(track)[0].category, serial);
    assert placed[0] in WithoutTrackCones(objects) + placed;
  }

  /** Importing the same track twice leaves the same number of objects at
      the same locations as importing it once (only the copies' serial
      numbers differ). */
  lemma ReimportKeepsCones(objects: seq<SceneObject>, track: TrackData, cursor: Vec3, first: nat, second: nat)
    ensures var once := WithoutTrackCones(objects) + PlacedObjects(Placements(track), cursor, first);
            var twice := WithoutTrackCones(once) + PlacedObjects(Placements(track), cursor, second);
            |twice| == |once| && Locations(twice) == Locations(once)
  {
    var pls := Placements(track);
    var kept := WithoutTrackCones(objects);
    var placed1, placed2 := PlacedObjects(pls, cursor, first), PlacedObjects(pls, cursor, second);
    WithoutTrackConesAppend(kept, placed1);
    WithoutTrackConesIdempotent(objects);
    WithoutPlacedObjects(pls, cursor, first);
    assert WithoutTrackCones(kept + placed1) == kept;
    LocationsAppend(kept, placed1);
    LocationsAppend(kept, placed2);
    PlacedLocations(pls, cursor, first, second);
  }

  // ---------------------------------------------------------------------
  // The camera trajectory
  // ---------------------------------------------------------------------

  /** `zip(a, b)`: pairs up to the shorter length. */
  function Zip<A, B>(a: seq<A>, b: seq<B>): (r: seq<(A, B)>)
    ensures |r| == if |a| < |b| then |a| else |b|
    ensures forall i :: 0 <= i < |r| ==> r[i] == (a[i], b[i])
  {
    if |a| == 0 || |b| == 0 then [] else [(a[0], b[0])] + Zip(a[1..], b[1..])
  }

  /** The number of consecutive pairs in a list of `n` points. */
  function PairCount(n: nat): nat {
    if n == 0 then 0 else n - 1
  }

  /** `xy_direction`: for each consecutive pair, the vector from the later
      point back to the earlier one (it points against the direction of
      travel). */
  function XyDirection(path: seq<Point2>): (d: seq<Point2>)
    ensures |d| == PairCount(|path|)
    ensures forall i :: 0 <= i < |d| ==>
      d[i] == Point2(path[i].x - path[i + 1].x, path[i].y - path[i + 1].y)
  {
    var pairs := Zip(if |path| == 0 then [] else path[..|path| - 1],
                     if |path| == 0 then [] else path[1..]);
    seq(|pairs|, i requires 0 <= i < |pairs| =>
      Point2(pairs[i].0.x - pairs[i].1.x, pairs[i].0.y - pairs[i].1.y))
  }

  /** `yaw_direction`: `atan2(dy, dx)` of each direction. */
  function YawDirection(path: seq<Point2>, trig: Trig): (yaw: seq<real>)
    ensures |yaw| == PairCount(|path|)
  {
    var xy := XyDirection(path);
    seq(|xy|, i requires 0 <= i < |xy| => trig.atan2(xy[i].y, xy[i].x))
  }

  /** The yaw at index `i` is `atan2` of `path[i] - path[i+1]`, whose
      components are passed in `atan2`'s (y, x) order. */
  lemma YawDirectionAt(path: seq<Point2>, trig: Trig, i: nat)
    requires i + 1 < |path|
    ensures YawDirection(path, trig)[i] == trig.atan2(path[i].y - path[i + 1].y, path[i].x - path[i + 1].x)
  {
  }

  /** The pose `set_camera_animation_frame` gives the camera: the point
      lifted to lidar height above the cursor, pitched up by pi/2 and turned
      a quarter turn past the yaw. */
  function CameraPose(p: Point2, yaw: real, cursor: Vec3): Pose {
    Pose(Vec3(p.x + cursor.x, p.y + cursor.y, cursor.z + LIDAR_HEIGHT_OVER_CURSOR),
         Vec3(PI / 2.0, 0.0, yaw + PI / 2.0))
  }

  /** The keyframes of frames `0 .. n-1`. */
  function KeysBelow(path: seq<Point2>, yaw: seq<real>, cursor: Vec3, n: nat): map<int, Pose>
    requires n <= |yaw| && n <= |path|
  {
    map i | 0 <= i < n :: CameraPose(path[i], yaw[i], cursor)
  }

  lemma KeysBelowStep(m: map<int, Pose>, path: seq<Point2>, yaw: seq<real>, cursor: Vec3, n: nat)
    requires n < |yaw| && n < |path|
    ensures m + KeysBelow(path, yaw, cursor, n + 1)
         == (m + KeysBelow(path, yaw, cursor, n))[n := CameraPose(path[n], yaw[n], cursor)]
  {
  }

  /** The keyframes of frames `0 .. n-1` are keyed by exactly those frames. */
  lemma KeysBelowKeys(path: seq<Point2>, yaw: seq<real>, cursor: Vec3, n: nat)
    requires n <= |yaw| && n <= |path|
    ensures forall f :: f in KeysBelow(path, yaw, cursor, n) <==> 0 <= f < n
    ensures |KeysBelow(path, yaw, cursor, n)| == n
  {
    assert KeysBelow(path, yaw, cursor, n).Keys == Frames(n);
  }

  /** All keyframes `populate_world` sets for a path. */
  function CameraKeys(path: seq<Point2>, trig: Trig, cursor: Vec3): map<int, Pose> {
    var yaw := YawDirection(path, trig);
    KeysBelow(path, yaw, cursor, |yaw|)
  }

  /** The frame numbers `0 .. n-1`. */
  function Frames(n: nat): (r: set<int>)
    ensures |r| == n
    ensures forall f :: f in r <==> 0 <= f < n
  {
    if n == 0 then {} else Frames(n - 1) + {n - 1}
  }

  /** Frames `0 .. len(path)-2` are keyframed and no others: there are
      `max(len(path)-1, 0)` keyframes, and the last path point never gets
      one. Frame `i` holds `path[i]` with the yaw of `path[i] - path[i+1]`. */
  lemma CameraKeysLayout(path: seq<Point2>, trig: Trig, cursor: Vec3)
    ensures forall f :: f in CameraKeys(path, trig, cursor) <==> 0 <= f < |path| - 1
    ensures |CameraKeys(path, trig, cursor)| == PairCount(|path|)
    ensures |path| - 1 !in CameraKeys(path, trig, cursor)
    ensures forall f :: 0 <= f < |path| - 1 ==>
      CameraKeys(path, trig, cursor)[f]
        == CameraPose(path[f], trig.atan2(path[f].y - path[f + 1].y, path[f].x - path[f + 1].x), cursor)
  {
    var keys := CameraKeys(path, trig, cursor);
    var yaw := YawDirection(path, trig);
    assert keys == KeysBelow(path, yaw, cursor, |yaw|);
    KeysBelowKeys(path, yaw, cursor, |yaw|);
    forall f | 0 <= f < |path| - 1
      ensures keys[f] == CameraPose(path[f], trig.atan2(path[f].y - path[f + 1].y, path[f].x - path[f + 1].x), cursor)
    {
      CameraKeyAt(path, trig, cursor, f);
    }
  }

  /** The keyframe of one frame that has one. */
  lemma CameraKeyAt(path: seq<Point2>, trig: Trig, cursor: Vec3, f: nat)
    requires f + 1 < |path|
    ensures f in CameraKeys(path, trig, cursor)
    ensures CameraKeys(path, trig, cursor)[f]
         == CameraPose(path[f], trig.atan2(path[f].y - path[f + 1].y, path[f].x - path[f + 1].x), cursor)
  {
    var yaw := YawDirection(path, trig);
    YawDirectionAt(path, trig, f);
    assert CameraKeys(path, trig, cursor) == KeysBelow(path, yaw, cursor, |yaw|);
  }

  // ---------------------------------------------------------------------
  // The scene
  // ---------------------------------------------------------------------

  class Scene {
    /** `bpy.context.scene.cursor.location`, read once by the script. */
    const cursor: Vec3
    /** The objects of the `cone_track` collection, in collection order. */
    var coneTrack: seq<SceneObject>
    /** The number Blender gives the next copy of a reference cone. */
    var nextSerial: nat
    /** The lidar camera's current location and rotation_euler. */
    var camera: Pose
    /** The camera's location and rotation keyframes, by frame. */
    var keyframes: map<int, Pose>
    var frameStart: int
    var frameEnd: int
    var currentFrame: int

    constructor (cursor: Vec3, coneTrack: seq<SceneObject>, nextSerial: nat, camera: Pose,
                 keyframes: map<int, Pose>, frameStart: int, frameEnd: int, currentFrame: int)
      ensures this.cursor == cursor && this.coneTrack == coneTrack && this.nextSerial == nextSerial
      ensures this.camera == camera && this.keyframes == keyframes
      ensures this.frameStart == frameStart && this.frameEnd == frameEnd && this.currentFrame == currentFrame
    {
      this.cursor := cursor;
      this.coneTrack := coneTrack;
      this.nextSerial := nextSerial;
      this.camera := camera;
      this.keyframes := keyframes;
      this.frameStart := frameStart;
      this.frameEnd := frameEnd;
      this.currentFrame := currentFrame;
    }

    /** `add_blue_cone`, `add_yellow_cone` and `add_big_cone`: copy the
        reference cone of the category, move the copy above the point, and
        link it at the end of the collection. */
    method AddCone(c: Category, p: Point2)
      modifies this`coneTrack, this`nextSerial
      ensures coneTrack == old(coneTrack) + [PlacedObject(Placement(c, p), cursor, old(nextSerial))]
      ensures nextSerial == old(nextSerial) + 1
    {
      var copy := PlacedObject(Placement(c, p), cursor, nextSerial);
      nextSerial := nextSerial + 1;
      coneTrack := coneTrack + [copy];
    }

    /** `set_camera_animation_frame`: move the camera to the pose for the
        point and yaw, and keyframe location and rotation at `frame`. */
    method SetCameraAnimationFrame(p: Point2, yaw: real, frame: int)
      modifies this`camera, this`keyframes
      ensures camera == CameraPose(p, yaw, cursor)
      ensures keyframes == old(keyframes)[frame := CameraPose(p, yaw, cursor)]
    {
      camera := CameraPose(p, yaw, cursor);
      keyframes := keyframes[frame := camera];
    }

    /** One of `populate_world`'s marker loops: call the category's
        add-callback for each point, in list order. */
    method AddCones(c: Category, points: seq<Point2>)
      modifies this`coneTrack, this`nextSerial
      ensures coneTrack == old(coneTrack) + PlacedObjects(Tag(c, points), cursor, old(nextSerial))
      ensures nextSerial == old(nextSerial) + |points|
    {
      ghost var all, before, first := Tag(c, points), coneTrack, nextSerial;
      for i := 0 to |points|
        invariant coneTrack == before + PlacedObjects(all[..i], cursor, first)
        invariant nextSerial == first + i
      {
        PlacedObjectsStep(all, cursor, first, i);
        assert all[i] == Placement(c, points[i]);
        AddCone(c, points[i]);
      }
      assert all[..|points|] == all;
    }

    /** `populate_world`'s keyframe loop: keyframe frame `i` at `path[i]`
        with `yaw[i]`, for every yaw. */
    method AnimateCamera(path: seq<Point2>, yaw: seq<real>)
      requires |yaw| <= |path|
      modifies this`camera, this`keyframes
      ensures keyframes == old(keyframes) + KeysBelow(path, yaw, cursor, |yaw|)
      ensures |yaw| == 0 ==> camera == old(camera)
      ensures 0 < |yaw| ==> camera == CameraPose(path[|yaw| - 1], yaw[|yaw| - 1], cursor)
    {
      for i := 0 to |yaw|
        invariant keyframes == old(keyframes) + KeysBelow(path, yaw, cursor, i)
        invariant i == 0 ==> camera == old(camera)
        invariant 0 < i ==> camera == CameraPose(path[i - 1], yaw[i - 1], cursor)
      {
        KeysBelowStep(old(keyframes), path, yaw, cursor, i);
        SetCameraAnimationFrame(path[i], yaw[i], i);
      }
    }

    /** `populate_world`'s marker half: every blue cone, then every yellow
        cone, then every big cone. */
    method PlaceMarkers(track: TrackData)
      modifies this`coneTrack, this`nextSerial
      ensures coneTrack == old(coneTrack) + PlacedObjects(Placements(track), cursor, old(nextSerial))
      ensures nextSerial == old(nextSerial) + ConeCount(track)
    {
      ghost var serial := nextSerial;
      AddCones(Blue, track.blueCones);
      ghost var sy := nextSerial;
      AddCones(Yellow, track.yellowCones);
      ghost var sg := nextSerial;
      AddCones(Big, track.bigCones);
      PlacedInRuns(track, cursor, serial, sy, sg);
    }

    /** `populate_world`: place every marker, blue then yellow then big,
        then keyframe frame `i` at `path[i]` for every consecutive pair. */
    method PopulateWorld(track: TrackData, trig: Trig)
      modifies this`coneTrack, this`nextSerial, this`camera, this`keyframes
      ensures coneTrack == old(coneTrack) + PlacedObjects(Placements(track), cursor, old(nextSerial))
      ensures nextSerial == old(nextSerial) + ConeCount(track)
      ensures keyframes == old(keyframes) + CameraKeys(track.path, trig, cursor)
      ensures |track.path| < 2 ==> camera == old(camera)
      ensures 2 <= |track.path| ==>
        camera == CameraPose(track.path[|track.path| - 2], YawDirection(track.path, trig)[|track.path| - 2], cursor)
    {
      PlaceMarkers(track);
      var yaw := YawDirection(track.path, trig);
      AnimateCamera(track.path, yaw);
    }

    /** The deletion loop: remove every object `get_cones_in_scene` returns. */
    method DeleteOldCones()
      modifies this`coneTrack
      ensures coneTrack == WithoutTrackCones(old(coneTrack))
    {
      var doomed := ConesInScene(coneTrack);
      ghost var original := coneTrack;
      RemoveNothing(original);
      for i := 0 to |doomed|
        invariant coneTrack == RemoveAll(original, doomed[..i])
      {
        RemoveStep(original, doomed[..i], doomed[i]);
        assert doomed[..i + 1] == doomed[..i] + [doomed[i]];
        coneTrack := Remove(coneTrack, doomed[i]);
      }
      assert doomed[..|doomed|] == doomed;
      RemoveAllTrackCones(original, doomed);
    }

    /** The script's top level, without the physics block: delete the old
        cones, stop with "No cones to place on track." when the track has no
        marker at all, otherwise populate and set the frame range to
        `[0, len(path) - 1]`. */
    method Run(track: TrackData, trig: Trig) returns (outcome: ImportOutcome)
      modifies this`coneTrack, this`nextSerial, this`camera, this`keyframes
      modifies this`frameStart, this`frameEnd, this`currentFrame
      ensures outcome == NothingToPlace <==> ConeCount(track) == 0
      ensures outcome == NothingToPlace ==>
        && coneTrack == WithoutTrackCones(old(coneTrack))
        && nextSerial == old(nextSerial) && camera == old(camera) && keyframes == old(keyframes)
        && frameStart == old(frameStart) && frameEnd == old(frameEnd) && currentFrame == old(currentFrame)
      ensures outcome == Populated ==>
        && coneTrack == WithoutTrackCones(old(coneTrack)) + PlacedObjects(Placements(track), cursor, old(nextSerial))
        && nextSerial == old(nextSerial) + ConeCount(track)
        && keyframes == old(keyframes) + CameraKeys(track.path, trig, cursor)
        && (|track.path| < 2 ==> camera == old(camera))
        && (2 <= |track.path| ==>
              camera == CameraPose(track.path[|track.path| - 2], YawDirection(track.path, trig)[|track.path| - 2], cursor))
        && frameStart == 0 && frameEnd == |track.path| - 1 && currentFrame == 0
    {
      if DELETE_OLD_CONES {
        DeleteOldCones();
      }
      if ConeCount(track) == 0 {
        return NothingToPlace;
      }
      PopulateWorld(track, trig);
      currentFrame := 0;
      frameStart := 0;
      frameEnd := |track.path| - 1;
      outcome := Populated;
    }
  }
}
