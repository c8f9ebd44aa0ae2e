# fakeScenes track import and label generation, in Dafny

This project models the two Blender scripts at the heart of fakeScenes, a
generator of synthetic lidar datasets for cone-marked race tracks.

- `blender_scripts/import_track.py` is the track importer. It reads a
  track: a sensor path and three lists of cone markers (blue, yellow, big).
  First it deletes the cones of an earlier import. It stops early when the
  track has no marker. Otherwise it places one copy of the matching
  reference cone per marker, keyframes the lidar camera at one path point
  per frame, and sets the scene's frame range.
- `blender_scripts/run_range_scanner.py` is the label generator. It sorts
  the collection's cones into the three categories by name prefix. For
  every frame of the range it writes `labels_<frame>.csv`, which holds each
  cone's location relative to the lidar, turned into the lidar's heading.

The Blender scene is modelled as the class `ImportTrack.Scene`. Its fields
are the objects of the `cone_track` collection, the camera's pose and
keyframes, and the frame range. The importer's callbacks and loops are
methods on it. Each method is proved against specification functions on
sequences and maps (`PlacedObjects`, `CameraKeys`, `WithoutTrackCones`).
The label generator is a set of methods (`LabelFrame`, `WriteLabels`,
`GenerateLabels`) proved against the functions `Records`, `Columns`,
`CsvText` and `LabelFile`. The module `Pipeline` connects the two scripts:

- the frame range the importer sets covers exactly the keyframed frames;
- each prefix filter finds exactly its own category's copies;
- for a keyframed frame, every label equals a record computed from the
  track file alone.

Files:

- `scene_types.dfy`: points, vectors, poses, scene objects, and `math.pi`.
  `atan2`, `cos` and `sin` are carried in the record `Trig` and otherwise
  uninterpreted.
- `text.dfy`: `startswith`, digits, `join` and `split` (with their round
  trip), and newline-terminated text.
- `import_track.dfy`: the importer.
- `run_range_scanner.dfy`: the label generator.
- `pipeline.dfy`: properties of the two scripts run one after the other.

Parameters of the model:

- The scene cursor and the state of the scene before the run are the
  arguments of the `Scene` constructor.
- The host's evaluation of the animation at a frame is the function
  `poseAt`.
- Number formatting in the CSV is the function `fmt`.
- Trigonometry is the record `Trig`.

## Model

| member | source | states |
|---|---|---|
| ImportTrack.CopyNameIsTrackCone | blender_scripts/import_track.py:43 | every copy of a reference cone (`blue_cone.004` and so on) is accepted by the deletion filter |
| ImportTrack.TrackConeNameExamples | blender_scripts/import_track.py:43 | the filter is anchored at the start only: trailing text after the digits is accepted; a bare prefix, a non-digit after the prefix, or the prefix later in the name is rejected |
| ImportTrack.ConesInScene | blender_scripts/import_track.py:42-44 | an object is returned exactly when it is in the collection and its name is accepted by the filter |
| ImportTrack.WithoutTrackCones | blender_scripts/import_track.py:106-108 | after the deletion, an object remains exactly when it was in the collection and its name is not accepted |
| ImportTrack.WithoutTrackConesIdempotent | blender_scripts/import_track.py:106-108 | deleting a second time removes nothing more |
| ImportTrack.WithoutPlacedObjects | blender_scripts/import_track.py:106-108 | every cone an import places is deleted by the next import |
| ImportTrack.PlacementsLayout | blender_scripts/import_track.py:53-58 | one placement per marker, the blue ones in list order, then the yellow, then the big; their number is the sum of the three list lengths |
| ImportTrack.Scene.AddCone | blender_scripts/import_track.py:85-98 | appends one copy of the category's reference cone at `(p.x + cursor.x, p.y + cursor.y, cursor.z + CONE_HEIGHT_OFFSET)`, the same rule for every category |
| ImportTrack.Scene.SetCameraAnimationFrame | blender_scripts/import_track.py:100-104 | sets the camera to location `(p.x + cursor.x, p.y + cursor.y, cursor.z + 0.7)` and rotation `(pi/2, 0, yaw + pi/2)` and keys that pose at the frame; nothing else changes |
| ImportTrack.PlacedInRuns | blender_scripts/import_track.py:53-58 | the copies of all placements are the blue copies, then the yellow, then the big, numbered on from one run to the next |
| ImportTrack.Scene.AddCones | blender_scripts/import_track.py:53-58 | one marker loop appends the category's copies in list order with consecutive copy numbers |
| ImportTrack.Scene.AnimateCamera | blender_scripts/import_track.py:63-64 | the keyframe loop keys frame `i` at `path[i]` with `yaw[i]`, keeps earlier keys at other frames, and leaves the camera at the last keyed pose |
| ImportTrack.Scene.PlaceMarkers | blender_scripts/import_track.py:53-58 | all blue copies, then all yellow, then all big are appended, one per marker |
| ImportTrack.Scene.PopulateWorld | blender_scripts/import_track.py:46-64 | the collection gains exactly the placed copies, and the keyframes become the old ones overridden by the camera keys of the path |
| ImportTrack.XyDirection | blender_scripts/import_track.py:60-61 | one direction per consecutive pair; direction `i` is `path[i] - path[i+1]`, pointing back along the path |
| ImportTrack.YawDirectionAt | blender_scripts/import_track.py:62 | yaw `i` is `atan2(dy, dx)` of direction `i` |
| ImportTrack.Zip | blender_scripts/import_track.py:60 | `zip` pairs elements index by index up to the shorter length |
| ImportTrack.CameraKeysLayout | blender_scripts/import_track.py:60-64 | exactly the frames `0 .. len(path)-2` are keyed, `max(len(path)-1, 0)` of them; the last path point is never keyed; frame `f` holds `path[f]` with the yaw of `path[f] - path[f+1]` |
| ImportTrack.CameraKeyAt | blender_scripts/import_track.py:60-64 | a frame `f` with a next path point is keyed, with `path[f]` and the yaw of `path[f] - path[f+1]` |
| ImportTrack.Scene.DeleteOldCones | blender_scripts/import_track.py:106-108 | the deletion loop removes exactly the objects the filter accepts and keeps the others in order |
| ImportTrack.Scene.Run | blender_scripts/import_track.py:106-172 | old cones are deleted first. With no marker, the run stops and nothing else changes: no cone, no keyframe, no frame range. Otherwise it populates and sets `frame_start = 0`, `frame_end = len(path) - 1` and the current frame to 0 |
| ImportTrack.SettlingFindsACone | blender_scripts/import_track.py:123-126 | after a non-empty import, the filter finds at least one cone, so `cones[0]` exists |
| ImportTrack.ReimportKeepsCones | blender_scripts/import_track.py:106-120 | importing a track twice leaves as many objects, at the same locations, as importing it once |
| RangeScanner.WithPrefix | blender_scripts/run_range_scanner.py:26-40 | an object is in a category list exactly when it is in the collection and its name starts with the prefix; collection order is kept |
| RangeScanner.ConeRecordHeight | blender_scripts/run_range_scanner.py:59-75 | a record's z is `cone.z - lidar.z` whatever the rotation, and its label is that of its category |
| RangeScanner.RelativeWithoutTurn | blender_scripts/run_range_scanner.py:64-70 | when `cos(-yaw) = 1` and `sin(-yaw) = 0`, the relative location is the shifted location |
| RangeScanner.RelativeKeepsHorizontalDistance | blender_scripts/run_range_scanner.py:64-70 | when `cos^2 + sin^2 = 1`, the squared horizontal distance to the lidar is kept |
| RangeScanner.ToWorldRelative | blender_scripts/run_range_scanner.py:59-70 | when `cos^2 + sin^2 = 1`, turning a label back and adding the lidar's location gives the cone's location |
| RangeScanner.Columns | blender_scripts/run_range_scanner.py:72-75 | the `x`, `y`, `z` and `label` lists are always the same length, one entry per record |
| RangeScanner.RecordsLayout | blender_scripts/run_range_scanner.py:50-75 | a frame has exactly `len(blue_cones) + len(yellow_cones) + len(big_cones)` records; the blue come first, then the yellow, then the big, each in collection order and labelled with its category |
| RangeScanner.LabelsPresent | blender_scripts/run_range_scanner.py:50-75 | a category's label appears in a frame exactly when that category has a cone |
| RangeScanner.LabelFrame | blender_scripts/run_range_scanner.py:45-75 | the nested category and cone loops build the four columns of the frame's records |
| RangeScanner.WriteLabels | blender_scripts/run_range_scanner.py:77-82 | the text written is the header line followed by one line per record, each ended by a newline |
| RangeScanner.CsvRowFields | blender_scripts/run_range_scanner.py:80-82 | a data line splits at commas into exactly four fields: formatted x, y, z, then the label |
| RangeScanner.CsvLines | blender_scripts/run_range_scanner.py:77-82 | splitting the file at newlines gives the header, one line per record in record order, and an empty rest |
| RangeScanner.CsvLayout | blender_scripts/run_range_scanner.py:77-82 | the file has `1 + n` lines for `n` records: the header `x,y,z,label`, then line `i` has four fields made from record `i` |
| RangeScanner.GenerateLabels | blender_scripts/run_range_scanner.py:26-82 | a label file is written for frame `f` exactly when `start_frame <= f < end_frame`, so `end_frame` is never labelled; each file is the label file for the lidar pose at `f` |
| Pipeline.NamesAgree | blender_scripts/run_range_scanner.py:26-54 | each filter prefix is its reference cone's name and a dot, and each label is that name |
| Pipeline.PrefixesDisjoint | blender_scripts/run_range_scanner.py:26-40 | no name starts with the prefixes of two categories |
| Pipeline.TrackConeNameHasOneCategory | blender_scripts/run_range_scanner.py:26-40 | every name accepted by the deletion filter starts with exactly one category prefix |
| Pipeline.PrefixWithoutDigit | blender_scripts/run_range_scanner.py:29 | the converse fails: `blue_cone.x` is counted as a blue cone but never deleted |
| Pipeline.CopyNameInCategory | blender_scripts/run_range_scanner.py:26-40 | a copy of the reference cone of `c` passes the filter of `d` exactly when `d` is `c` |
| Pipeline.WithPrefixOfCopies | blender_scripts/run_range_scanner.py:26-40 | the filter of a category keeps every copy of a run of that category's markers and none of another category's |
| Pipeline.CategoriesAfterImport | blender_scripts/run_range_scanner.py:26-40 | after an import, each category list is exactly the copies that category's markers produced, in marker order |
| Pipeline.LabelledFramesAreKeyframed | blender_scripts/import_track.py:170-172 | with the range the importer sets, the frames `frame_start <= f < frame_end` are exactly the keyframed frames; their number is `frame_end` |
| Pipeline.KeyedPose | blender_scripts/import_track.py:100-104 | at a keyed frame, the lidar's pose is the one the importer keyed: `path[f]` lifted and turned by `yaw[f] + pi/2` |
| Pipeline.CopyRecord | blender_scripts/run_range_scanner.py:56-75 | the cursor cancels out: a copy's record, seen from the camera keyed at path point `q` with yaw `yaw`, is its marker minus `q` at height `1.0 - 0.7`, turned by `-(yaw + pi/2)` |
| Pipeline.RecordsAfterImport | blender_scripts/run_range_scanner.py:42-75 | after an import, for the camera at any path point and yaw, the frame's records are computed from the track file alone: the blue markers, then the yellow, then the big, each marker turned into its record |
| Pipeline.LabelsMatchTrack | blender_scripts/run_range_scanner.py:42-75 | at a keyed frame `f`, the frame's records after an import are those computed from the track file for `path[f]` and the yaw of `path[f] - path[f+1]` |
| Pipeline.LabelFileMatchesTrack | blender_scripts/run_range_scanner.py:42-82 | at a keyed frame `f`, the label file after an import is the CSV text of the records computed from the track file alone |
| Pipeline.ReimportKeepsKeyframes | blender_scripts/import_track.py:100-104 | importing the same track again leaves the keyframes as one import does |

## Left out

- Blender's own operations are modelled only by their effect on the scene. These are `copy()`, `objects.link`, `objects.remove`, `select_all`, `select_set`, and the reference-object lookups and their `KeyError`.
- The numbers Blender gives copies are modelled as a running counter. The model only needs each copy's name to be the reference's name, a dot and at least three digits. Blender instead picks the smallest unused number.
- The rigid-body settling block (`blender_scripts/import_track.py:127-168`) relies on the physics engine and bake caches. So the cone locations the model states are the locations before settling. Only settling's first step, that `cones[0]` exists, is proved.
- `bpy.context.scene.frame_set(0)` at the end of the import is modelled as setting the current frame. How Blender then re-evaluates the camera from its keyframes is not modelled.
- How the host evaluates the animation at a frame is the parameter `poseAt`. This includes interpolating or holding a pose between keys. The end-to-end lemma assumes `poseAt` returns the keyed pose at keyed frames.
- The point-cloud loop over `range_scanner.scan_rotating` (`blender_scripts/run_range_scanner.py:84-140`) is left out, because it is an external ray-casting library.
- Loading the track's JSON, checking `FAKESCENE_OUTDIR`, creating directories and opening files are I/O. The label files are returned as a map from frame to file contents.
- Python's float-to-string formatting in the CSV line is the parameter `fmt`. It is assumed to produce no comma or newline, as `repr` of a float does not.
- `atan2`, `cos` and `sin` are uninterpreted, so facts that need their values carry explicit hypotheses. Coordinates are `real`, not IEEE doubles, so rounding is not modelled.
- ImportTrack.IsTrackConeName: Python's `\d` also matches non-ASCII decimal digits; the model accepts only `0`-`9`.
- The plotting scripts and the script that launches Blender (`plot_track_layout.py`, `plot_point_cloud.py`, `generate_point_clouds.py`) are not part of this model.
- For a track with no marker the script calls `exit(0)` before it sets the frame range (`blender_scripts/import_track.py:110-112`). The model follows the code: `ImportTrack.Scene.Run` then leaves the frame range unchanged. An account in which an empty track still gets `frame_start = 0` and `frame_end = len(path) - 1` does not match the code.
- `Pipeline.LabelsMatchTrack` assumes that no object kept by the deletion has a category prefix (`SurvivorsUncategorised`). `PrefixWithoutDigit` shows a name this rules out.
