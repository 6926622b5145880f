# kitti2bag, modelled in Dafny

kitti2bag converts a KITTI dataset (a raw synced drive, or a gray or colour
odometry sequence) into a ROS 2 bag. `run_kitti2bag` checks the command line.
It names the bag after the dataset and opens a writer. Then, inside a try
block whose finally clause closes the writer, it calls one `save_*` routine per
stream: static transforms, vehicle poses, IMU, GPS fix, GPS velocity, cameras
and velodyne.

This project models that script (`kitti2bag/kitti2bag.py`) as Dafny modules:

- `Geometry`: 4x4 homogeneous transforms over the reals, and `inv`.
- `Messages`: the ROS messages written, the float-to-(sec, nanosec) stamp
  split, and `get_static_transform`.
- `BagFile`: the bag writer as a class with an append-only `log` of
  (topic, message) records and a `closed` flag.
- `Kitti`: what pykitti, the directory listings and the calibration files
  hand to the script, as plain values.
- `PyLib`: the Python built-ins the script relies on (`zip`, `str.find`,
  slicing, `str(n)`, `zfill`, `os.path.join`).
- `Variant`: the accepted dataset types and the substring tests the script
  dispatches on.
- `TimestampLog`: how `timestamps.txt` files are read.
- `StaticTf`, `Streams`, `Camera`: one method per `save_*` routine, each proved
  to append exactly a record list given by a specification function, with
  lemmas stating what those lists hold.
- `Cli`: sequence ids, option checks, bag names and camera selection.
- `Run`: the two conversion branches and their export order, plus
  `RunKitti2Bag`, proved equal to the functional `Convert`.

Every `save_*` routine except `save_static_transforms` zips two lists, so each
of those streams is as long as the shorter input. Some of what the script does is less obvious, and the model states it
as written:

- `save_static_transforms` writes inside its per-transform loop.
  - It writes len(timestamps) x len(transforms) messages.
  - In the j-th write of a timestamp, only transforms 0..j carry the new stamp.
- `save_camera_data` writes only for cameras 0 and 1. An `odom_color` bag
  therefore holds nothing but `/tf` records, and the `bgr8` encoding is never
  used.
- `save_velo_data` drops one-character timestamp lines. `save_camera_data`
  does not drop them, so the same line makes the camera reader raise.
- Ground truth poses are loaded only for sequences 00 to 10.
  - For 11 to 21, `save_dynamic_tf` raises on the missing poses, before any
    write.
  - The bag is then closed empty and the run ends with the exception.
- A missing dataset path or an empty dataset stops the program with
  `sys.exit(1)` after `create_bag_writer` has created the bag writer. These
  exits come before the try block, so `bag.close()` is never called on them
  and the bag stays empty (`Run.ExitPaths`).

## Model

| member | source | states |
|---|---|---|
| Geometry.Inv | kitti2bag/kitti2bag.py:211-219 | the result's rotation block is the transpose of the input's, its translation is -R^T t, its bottom row is (0, 0, 0, 1) |
| Geometry.InvReadsOnlyUpperBlock | kitti2bag/kitti2bag.py:211-219 | inv depends on nothing but the upper 3x4 block of its argument |
| Geometry.InvIsRightInverse | kitti2bag/kitti2bag.py:211-219 | for a rigid transform T (orthonormal rotation rows, bottom row 0 0 0 1), T . inv(T) = I |
| Geometry.InvIsLeftInverse | kitti2bag/kitti2bag.py:211-219 | inv(T) . T = I when the rotation's columns are orthonormal and the bottom row is 0 0 0 1 |
| Geometry.InvInvolutive | kitti2bag/kitti2bag.py:211-219 | inv(inv(T)) = T for a rigid transform |
| Messages.Trunc | kitti2bag/kitti2bag.py:47 | Python's int() on a float is the integer next to it on the side of zero: r <= t < r + 1 for t >= 0, r - 1 < t <= r for t < 0 |
| Messages.FracPart | kitti2bag/kitti2bag.py:47 | Python's t % 1 lies in [0, 1) and differs from t by its floor |
| Messages.Stamp | kitti2bag/kitti2bag.py:47 | the (sec, nanosec) stamp has nanosec in [0, 1e9) and, for non-negative t, brackets t within one nanosecond from below |
| Messages.StampMonotone | kitti2bag/kitti2bag.py:47 | later non-negative instants never get earlier stamps |
| Messages.GetStaticTransform | kitti2bag/kitti2bag.py:196-209 | frame id and child frame id are the given ones, the stamp is the default, the translation is column 3 of the matrix |
| BagFile.BagWriter.constructor | kitti2bag/kitti2bag.py:31-39 | a new writer on the file name, empty and open |
| BagFile.BagWriter.Write | kitti2bag/kitti2bag.py:58 | appends exactly the (topic, message) record, writer stays open |
| BagFile.BagWriter.Close | kitti2bag/kitti2bag.py:340 | closes the writer, its contents unchanged |
| PyLib.Zip | kitti2bag/kitti2bag.py:43 | zip pairs element i of both lists, as long as the shorter one |
| PyLib.FindSpec | kitti2bag/kitti2bag.py:62 | str.find returns -1 or the first index where the pattern occurs |
| PyLib.ContainsAt | kitti2bag/kitti2bag.py:62 | an occurrence at any position makes find(...) != -1 hold |
| PyLib.NotContainsChar | kitti2bag/kitti2bag.py:62 | a character of the pattern missing from the string rules out find(...) != -1 |
| PyLib.DropLast4 | kitti2bag/kitti2bag.py:169 | s[:-4] (also applied at line 114) is a prefix of s, four characters shorter, or empty for shorter strings |
| PyLib.DecimalString | kitti2bag/kitti2bag.py:264 | str(s) is a non-empty digit string whose decimal value is s; one digit below 10, two below 100 |
| PyLib.ZFill | kitti2bag/kitti2bag.py:264 | zfill pads with leading zeros to the width and keeps the string as suffix |
| PyLib.SliceFrom | kitti2bag/kitti2bag.py:293 | s[k:] is the suffix after k characters, empty when k exceeds the length |
| PyLib.JoinSpec | kitti2bag/kitti2bag.py:138 | os.path.join(a, b) is b for an absolute b; otherwise a, then at most one '/' (always one when a is non-empty), then b |
| PyLib.JoinExtends | kitti2bag/kitti2bag.py:110-111 | joining a relative b + c equals joining b and appending c |
| PyLib.JoinUnderDirectory | kitti2bag/kitti2bag.py:111 | joining a relative name to a directory without a trailing '/' inserts exactly one '/' |
| Variant.Dispatch | kitti2bag/kitti2bag.py:283 | on the accepted types (line 261), the tests of lines 283, 342 and 370-373 dispatch exactly: "raw" selects exactly raw_synced, "odom" exactly the others, and "gray"/"color" tell the odometry types apart |
| Variant.OdomColorIsOdomColor | kitti2bag/kitti2bag.py:370-373 | odom_color takes the odom and color branches and neither raw nor gray |
| TimestampLog.ParseAllSpec | kitti2bag/kitti2bag.py:169 | parsing (here and at line 114) fails exactly when some line fails; otherwise line i gives value i |
| TimestampLog.KeptLinesMembers | kitti2bag/kitti2bag.py:166-169 | a string is parsed exactly when it is some line of length other than 1 with its last four characters removed |
| TimestampLog.KeptLinesWithoutBlanks | kitti2bag/kitti2bag.py:166-169 | with no one-character lines, kept string i is line i cut by four |
| TimestampLog.KeptLinesCount | kitti2bag/kitti2bag.py:166-168 | the kept strings number the lines minus the one-character lines |
| TimestampLog.KeptLinesPrefix | kitti2bag/kitti2bag.py:166-170 | reading a prefix of the file keeps a prefix of the kept strings |
| TimestampLog.KeptLinesAppend | kitti2bag/kitti2bag.py:166-170 | the line filter distributes over concatenation |
| TimestampLog.BlankLineSkipped | kitti2bag/kitti2bag.py:167-168 | a one-character line changes nothing for the velodyne reader |
| TimestampLog.BlankLineStopsCameraReader | kitti2bag/kitti2bag.py:114 | the same line makes the camera reader fail when strptime rejects "" |
| TimestampLog.CameraTimestamps | kitti2bag/kitti2bag.py:113-114 | one time per line, line i cut by four and parsed; no list at all when any line fails to parse |
| TimestampLog.ReadVeloTimestamps | kitti2bag/kitti2bag.py:163-170 | the velo_datetimes loop yields the parse of the kept lines, or None when strptime raises |
| StaticTf.StaticTransformList | kitti2bag/kitti2bag.py:223-226 | one transform per tuple, in order, from its parent to its child frame, unstamped, translated by column 3 of its matrix |
| StaticTf.CollectStaticTransforms | kitti2bag/kitti2bag.py:223-226 | the first loop builds exactly StaticTransformList |
| StaticTf.WriteStaticBlock | kitti2bag/kitti2bag.py:228-231 | for one timestamp, restamps each transform in turn and writes the whole list after each restamp, leaving all transforms on the new stamp |
| StaticTf.SaveStaticTransforms | kitti2bag/kitti2bag.py:221-231 | the nested loop appends exactly StaticTfRecords of the transform list and the timestamps |
| StaticTf.StaticTfRecordsLength | kitti2bag/kitti2bag.py:227-231 | len(timestamps) x len(transforms) writes |
| StaticTf.StaticTfRecordsAt | kitti2bag/kitti2bag.py:227-231 | write j of timestamp k sits at position k * len(transforms) + j, with transforms 0..j restamped to timestamp k |
| StaticTf.StaticTfRecordContents | kitti2bag/kitti2bag.py:196-231 | every write is on /tf_static and holds all transforms in list order with the tuple's frame ids and column 3 of its matrix; in write j of timestamp k, transforms 0..j carry stamp k and the rest stamp k-1 |
| StaticTf.EndOfBlockStampsUniform | kitti2bag/kitti2bag.py:227-231 | after the last write of a timestamp every transform carries that timestamp's stamp |
| Streams.OffsetTimes | kitti2bag/kitti2bag.py:84 | each odometry time is initial_time plus its offset |
| Streams.RawPoseRecords | kitti2bag/kitti2bag.py:62-82 | one /tf record per zipped (timestamp, oxts) pair with the pose world -> base_link of T_w_imu |
| Streams.OdomPoseRecords | kitti2bag/kitti2bag.py:83-104 | one /tf record per zipped (time, T_w_cam0) pair with the pose world -> camera_left |
| Streams.DynamicTfShape | kitti2bag/kitti2bag.py:60-104 | min(len(timestamps), len(poses)) records on /tf in input order, each holding one transform from world to base_link (raw) or camera_left (odometry), stamped with the pose time, translated by the pose's column 3 |
| Streams.DynamicTfStampsOrdered | kitti2bag/kitti2bag.py:60-104 | ordered non-negative times give non-decreasing /tf stamps |
| Streams.SaveDynamicTf | kitti2bag/kitti2bag.py:60-104 | appends DynamicTfRecords, or nothing and reports the exception when the odometry poses were never loaded |
| Streams.ImuRecords | kitti2bag/kitti2bag.py:41-58 | one Imu per pair: orientation from (roll, pitch, yaw), acceleration (af, al, au), angular velocity (wf, wl, wu) |
| Streams.SaveImuData | kitti2bag/kitti2bag.py:41-58 | appends exactly ImuRecords |
| Streams.GpsFixRecords | kitti2bag/kitti2bag.py:233-242 | one NavSatFix per pair copying latitude, longitude, altitude, with service GPS |
| Streams.SaveGpsFixData | kitti2bag/kitti2bag.py:233-242 | appends exactly GpsFixRecords |
| Streams.GpsVelRecords | kitti2bag/kitti2bag.py:244-255 | one TwistStamped per pair, linear (vf, vl, vu) and angular (wf, wl, wu) |
| Streams.SaveGpsVelData | kitti2bag/kitti2bag.py:244-255 | appends exactly GpsVelRecords |
| Streams.VeloFields | kitti2bag/kitti2bag.py:188-191 | four FLOAT32 fields x, y, z, i at offsets 0, 4, 8, 12 |
| Streams.VeloRecords | kitti2bag/kitti2bag.py:172-194 | one PointCloud2 on topic + '/pointcloud' per zipped (time, file) pair |
| Streams.VeloDataShape | kitti2bag/kitti2bag.py:158-194 | with parseable kept lines, min(len(kept lines), len(files)) point clouds on topic + '/pointcloud', each stamped with its kept line |
| Streams.WriteVeloRecords | kitti2bag/kitti2bag.py:172-194 | the point-cloud loop appends exactly VeloRecords |
| Streams.SaveVeloData | kitti2bag/kitti2bag.py:158-194 | appends VeloDataRecords, or nothing when strptime raises |
| Camera.InitialCalib | kitti2bag/kitti2bag.py:116-133 | raw calibration carries plumb_bob and the camera's K, R_rect, D and P_rect; odometry calibration sets only P and keeps the message defaults: no distortion model, empty D, zero K and R |
| Camera.FrameRecords | kitti2bag/kitti2bag.py:137-156 | two records per frame |
| Camera.FrameRecordsAt | kitti2bag/kitti2bag.py:137-156 | frame k gives the mono8 image read from os.path.join(image_path, file k) stamped with time k, then the calibration with the same stamp and that image's size |
| Camera.CameraRecordsShape | kitti2bag/kitti2bag.py:106-156 | for camera 0 or 1, 2 * min(len(times), len(files)) records alternating image on /image_raw or /image_rect, read from the file under that camera's image_path, and camera_info with the image's stamp and size |
| Camera.CameraRecordsDefined | kitti2bag/kitti2bag.py:113-114 | the camera's records exist exactly when its timestamps can be read |
| Camera.CameraPadDigit | kitti2bag/kitti2bag.py:109-126 | the camera number formatted with {0:01d} is its single digit, and with {0:02d} that digit after a 0 |
| Camera.ImageDirDigit | kitti2bag/kitti2bag.py:109-127 | image_path is image_0x/data under data_path for raw data and image_x under sequence_path for odometry, x being the camera's digit |
| Camera.ImagePathsDiffer | kitti2bag/kitti2bag.py:138-139 | two different cameras read two different files even for the same relative file name |
| Camera.ColorCamerasWriteNothing | kitti2bag/kitti2bag.py:141 | cameras 2 and 3 add no record |
| Camera.WriteFrames | kitti2bag/kitti2bag.py:135-156 | the frame loop appends FrameRecords for cameras 0 and 1 and nothing otherwise |
| Camera.SaveCameraData | kitti2bag/kitti2bag.py:106-156 | appends CameraRecords, or nothing and reports the exception when a raw timestamp fails to parse |
| Cli.OdometrySequences | kitti2bag/kitti2bag.py:262-264 | the loop builds exactly SequenceIds |
| Cli.SequenceIdMembers | kitti2bag/kitti2bag.py:262-270 | -s accepts exactly the two-digit strings 00 to 21 |
| Cli.GroundTruthGate | kitti2bag/kitti2bag.py:361 | odometry_sequences[:11] holds exactly the two-digit strings 00 to 10 |
| Cli.RawBagName | kitti2bag/kitti2bag.py:293 | the raw bag name is kitti_, the date, _drive_, the drive, '_', kitti_type[4:] and .bag, each at its position, and no more characters |
| Cli.OdometryBagName | kitti2bag/kitti2bag.py:348 | the odometry bag name is kitti_data_odometry_, kitti_type[5:], then _sequence_, the sequence and .bag, and no more characters |
| Cli.RawBagNameSynced | kitti2bag/kitti2bag.py:293 | raw_synced gives kitti_{date}_drive_{drive}_synced.bag |
| Cli.OdometryBagNameColor | kitti2bag/kitti2bag.py:348 | odom_color gives kitti_data_odometry_color_sequence_{sequence}.bag |
| Cli.OdometryBagNameGray | kitti2bag/kitti2bag.py:348 | odom_gray gives kitti_data_odometry_gray_sequence_{sequence}.bag |
| Cli.ParseCommand | kitti2bag/kitti2bag.py:266-346 | exit code 2 exactly for a value outside the choices, otherwise 1 for a missing option; a raw conversion uses the -t and -r given and its bag name, an odometry one the -s given, one of the ids, and its bag name |
| Cli.MandatoryOptions | kitti2bag/kitti2bag.py:283-291 | with valid choices (and likewise -s at lines 343-346), exit code 1 exactly when the type's mandatory option is missing, -t reported before -r; raw conversions only for raw_synced |
| Cli.BadChoiceExitsWithTwo | kitti2bag/kitti2bag.py:266-270 | a type or sequence outside the choices exits with code 2 |
| Cli.OdometryCommand | kitti2bag/kitti2bag.py:370-373 | an odometry conversion has an odometry type that is gray or color |
| Cli.UsedCameras | kitti2bag/kitti2bag.py:370-373 | two cameras: gray selects cameras 0 and 1, color cameras 2 and 3, each with its own row of the table at lines 276-281 |
| Run.BaseLinkToImu | kitti2bag/kitti2bag.py:312-313 | identity rotation, translation (-1.405, 0.32, 0.93), rigid |
| Run.RawStaticTransforms | kitti2bag/kitti2bag.py:316-323 | six transforms: base_link -> imu_link, then imu_link -> velo_link and the four camera frames through inv of the calibration |
| Run.RawStaticTransformsUndoCalibration | kitti2bag/kitti2bag.py:318-322 | each sensor's calibration composed with its static transform is the identity |
| Run.CameraStagesAfterFailure | kitti2bag/kitti2bag.py:333-334 | once a camera export raised, the later ones write nothing |
| Run.RawRun | kitti2bag/kitti2bag.py:293-340 | once the bag exists, a raw run exits with code 1 exactly when the data path is missing or the dataset empty, leaving the bag empty and open; otherwise the finally clause closes it |
| Run.OdometryRun | kitti2bag/kitti2bag.py:348-382 | the same for an odometry run, on the sequence path and its timestamps |
| Run.Convert | kitti2bag/kitti2bag.py:258-382 | a usage error stops the program with its code and reason before any bag exists; otherwise the bag is the one named by the command line |
| Run.ExitPaths | kitti2bag/kitti2bag.py:283-382 | path and empty-dataset exits leave the bag empty and unclosed; every run reaching the try block closes its bag |
| Run.PosesGate | kitti2bag/kitti2bag.py:361-375 | an odometry run finishes exactly for sequences 00 to 10 and raises for 11 to 21, leaving an empty closed bag |
| Run.OdometryColorWritesOnlyTf | kitti2bag/kitti2bag.py:370-377 | an odom_color bag holds /tf records only, since line 141 writes nothing for cameras 2 and 3 |
| Run.RawExportOrder | kitti2bag/kitti2bag.py:327-335 | a raw run with readable timestamps finishes and writes static tf, poses, IMU, GPS fix, GPS velocity, cameras 0 and 1, velodyne, in that order |
| Run.OdometryGrayExportOrder | kitti2bag/kitti2bag.py:350-382 | an odom_gray run of sequence 00 to 10 on an existing, non-empty sequence finishes, closes the bag and writes the poses (stamped epoch + offset, from T_w_cam0), then cameras 0 and 1, in that order |
| Run.OdometryGrayExport | kitti2bag/kitti2bag.py:369-377 | the gray odometry try block with loaded poses is the pose records followed by the records of cameras 0 and 1, and does not raise |
| Run.OdometryGrayCameraStages | kitti2bag/kitti2bag.py:370-377 | the gray camera loop of an odometry run never raises and appends camera 0's records, then camera 1's |
| Run.CameraRecordsIgnorePoses | kitti2bag/kitti2bag.py:361-363 | load_poses changes nothing that save_camera_data reads |
| Run.SaveCameras | kitti2bag/kitti2bag.py:333-334 | the camera loop appends what the camera stages specify, stopping at the first exception |
| Run.ExportRaw | kitti2bag/kitti2bag.py:303-336 | the raw try block appends RawExport's records |
| Run.ExportOdometry | kitti2bag/kitti2bag.py:365-378 | the odometry try block appends OdometryExport's records |
| Run.RunRaw | kitti2bag/kitti2bag.py:293-340 | the raw branch from bag creation on yields RawRun's outcome and bag |
| Run.RunOdometry | kitti2bag/kitti2bag.py:348-382 | the odometry branch from bag creation on yields OdometryRun's outcome and bag |
| Run.RunRawCommand | kitti2bag/kitti2bag.py:283-340 | after the choices, a missing -t or -r stops with its usage error and no bag; otherwise the outcome and bag are RawRun's on the bag name |
| Run.RunOdometryCommand | kitti2bag/kitti2bag.py:342-382 | after the choices, a missing -s stops with its usage error and no bag; otherwise the outcome and bag are OdometryRun's on the bag name |
| Run.RunKitti2Bag | kitti2bag/kitti2bag.py:258-382 | run_kitti2bag's outcome, bag name, bag contents and closed flag are those of Convert |

## Left out

- Floating point: times, matrices and message fields are Dafny reals. Rounding in the stamp split, in `inv` and in `-2.71/2.0-0.05` is not modelled.
- Messages.Stamp: proved for non-negative times only; the (sec, nanosec) split of a time before the epoch is defined but nothing is stated about it.
- Foreign calls become fields of a `Library` value that every operation takes as given: `quaternion_from_matrix`, `quaternion_from_euler`, the image size from `cv2.imread`, and `datetime.strptime(...).timestamp()`. A `None` from the parse stands for strptime raising.
- Image conversion (`cvtColor`, `cv2_to_imgmsg`) and point-cloud packing (`np.fromfile`, `create_cloud`): an image payload is named by the path it is read from (image_path joined with the file name), a point cloud by its file name in velodyne_points/data.
- Camera.WriteFrames: an unreadable image file (`cv2.imread` returning None) is not modelled; the image size is taken as always available.
- Dataset loading through pykitti, `os.listdir` (file lists are given already sorted), `os.path.exists` (a flag), the calibration files (values in the dataset), `os.getcwd()` as default directory (already applied to the arguments) and `datetime.utcnow()` (the `currentEpoch` parameter).
- Odometry poses follow the pykitti API the script targets: `T_w_cam0` exists only after `load_poses()`, so without it `save_dynamic_tf` raises.
- The rosbag2 writer: storage, serialization and the writer's real `write(topic, data, timestamp)` signature; the model appends (topic, message) as the script's calls read. Topic creation is not modelled.
- Raw runs pass `initial_time=None`; the model passes 0.0, which raw data never reads.
- The initial `S_rect` width and height of the raw calibration (line 118) are not carried: every frame overwrites them before anything is written.
- Camera.InitialCalib: the type and range checks of ROS message fields are not modelled. Lines 118 and 122 are taken to succeed. With typed field setters they would raise: line 118 puts the floats of `S_rect` into the uint32 `width` and `height`, and line 122 puts the single float `D[0]` into the sequence `d`.
- Run.RawExportOrder: for the same reason it assumes the raw camera exports get past lines 118 and 122. If those lines raise, a raw run ends at camera 0 with the exception, and no camera or velodyne record is written. The int32 range of a stamp's `sec` is not checked either.
- The dead `dt is None` test of `save_velo_data` and the `bgr8` alternative of the camera encoding, which no execution reaches.
- The else case of a type that is neither raw nor odometry, and an odometry type that is neither gray nor color: argparse's choices rule both out.
- argparse's own parsing and help text, `print` output and the progress bar; the exit messages are modelled as the reasons carried by `Stopped`.
- Exceptions are modelled as a flag that ends the try block; the exception object and its propagation after `finally` are not modelled beyond the `Raised` outcome.
