/**
 * run_kitti2bag (kitti2bag.py, lines 258-382): check the command line, create
 * the bag, stop early on a missing or empty dataset, then export the streams
 * in a fixed order inside try/finally so that the bag is closed even when an
 * export raises.
 */
module Run {
  import opened Wrappers
  import opened PyLib
  import opened Geometry
  import opened Messages
  import opened BagFile
  import opened Kitti
  import opened Variant
  import opened StaticTf
  import opened Streams
  import opened Camera
  import opened Cli
  import opened TimestampLog

  const ImuFrameId := "imu_link"
  const ImuTopic := "/kitti/oxts/imu"
  const GpsFixTopic := "/kitti/oxts/gps/fix"
  const GpsVelTopic := "/kitti/oxts/gps/vel"
  const VeloFrameId := "velo_link"
  const VeloTopic := "/kitti/velo"

  /** Why the program stopped with an exit code. */
  datatype Stop = BadArguments(reason: Reason) | DataPathMissing | DatasetEmpty

  /** How run_kitti2bag ends: sys.exit(code), an exception escaping, or a normal return. */
  datatype Outcome = Stopped(code: nat, why: Stop) | Raised | Finished

  /** What a run leaves behind: its outcome, the bag it created (if any), what the bag holds and whether it was closed. */
  datatype Conversion = Conversion(outcome: Outcome, bagName: Option<string>, log: seq<Record>, closed: bool)

  /** The records written so far inside the try block, and whether no export has raised yet. */
  datatype Export = Export(log: seq<Record>, ok: bool)

  /** Runs one more export: skipped after an exception; otherwise it appends its records, or raises (None). */
  function Then(e: Export, next: Option<seq<Record>>): (r: Export)
  {
    if !e.ok then e
    else if next.None? then Export(e.log, false)
    else Export(e.log + next.value, true)
  }

  /** T_base_link_to_imu: the identity with translation (-2.71/2.0 - 0.05, 0.32, 0.93). */
  function BaseLinkToImu(): (m: Mat4)
    ensures Translation(m) == Vector3(-1.405, 0.32, 0.93)
    ensures IsRigid(m)
    ensures forall i, j :: 0 <= i < 3 && 0 <= j < 3 ==> m[i][j] == Identity()[i][j]
  {
    [[1.0, 0.0, 0.0, -2.71 / 2.0 - 0.05],
     [0.0, 1.0, 0.0, 0.32],
     [0.0, 0.0, 1.0, 0.93],
     [0.0, 0.0, 0.0, 1.0]]
  }

  /** The `transforms` list of a raw conversion. */
  function RawStaticTransforms(kitti: Dataset): (ts: seq<StaticTransform>)
    requires kitti.Raw?
    ensures |ts| == 6
    ensures ts[0] == StaticTransform("base_link", ImuFrameId, BaseLinkToImu())
    ensures ts[1] == StaticTransform(ImuFrameId, VeloFrameId, Inv(kitti.tVeloImu))
    ensures forall c :: 0 <= c < 4 ==>
      ts[c + 2] == StaticTransform(ImuFrameId, Cameras[c].frameId, Inv(kitti.tCamImu.At(c)))
  {
    [StaticTransform("base_link", ImuFrameId, BaseLinkToImu()),
     StaticTransform(ImuFrameId, VeloFrameId, Inv(kitti.tVeloImu)),
     StaticTransform(ImuFrameId, Cameras[0].frameId, Inv(kitti.tCamImu.cam0)),
     StaticTransform(ImuFrameId, Cameras[1].frameId, Inv(kitti.tCamImu.cam1)),
     StaticTransform(ImuFrameId, Cameras[2].frameId, Inv(kitti.tCamImu.cam2)),
     StaticTransform(ImuFrameId, Cameras[3].frameId, Inv(kitti.tCamImu.cam3))]
  }

  /**
   * The sensor frames hang below imu_link through the inverses of the
   * calibration's imu-to-sensor transforms: composing each calibration with
   * its static transform gives the identity.
   */
  lemma RawStaticTransformsUndoCalibration(kitti: Dataset, c: CameraId)
    requires kitti.Raw? && IsRigid(kitti.tVeloImu) && IsRigid(kitti.tCamImu.At(c))
    ensures Mul(kitti.tVeloImu, RawStaticTransforms(kitti)[1].matrix) == Identity()
    ensures Mul(kitti.tCamImu.At(c), RawStaticTransforms(kitti)[c + 2].matrix) == Identity()
  {
    InvIsRightInverse(kitti.tVeloImu);
    InvIsRightInverse(kitti.tCamImu.At(c));
  }

  /** The `for camera in ...` loop: one camera export after the other, stopping at the first that raises. */
  function CameraStages(e: Export, lib: Library, kittiType: string, kitti: Dataset, cams: seq<CameraEntry>,
                        initialTime: real): (r: Export)
  {
    if cams == [] then e
    else
      var c := cams[|cams| - 1];
      Then(CameraStages(e, lib, kittiType, kitti, cams[..|cams| - 1], initialTime),
           CameraRecords(lib, kitti, kittiType, c.id, c.frameId, c.topic, initialTime))
  }

  /** Once an export has raised, the remaining camera exports write nothing. */
  lemma {:induction false} CameraStagesAfterFailure(e: Export, lib: Library, kittiType: string, kitti: Dataset,
                                                    cams: seq<CameraEntry>, initialTime: real)
    requires !e.ok
    ensures CameraStages(e, lib, kittiType, kitti, cams, initialTime) == e
  {
    if cams != [] {
      CameraStagesAfterFailure(e, lib, kittiType, kitti, cams[..|cams| - 1], initialTime);
    }
  }

  /**
   * The try block of a raw conversion: static transforms, poses, IMU, GPS fix,
   * GPS velocity, the four cameras and the velodyne, in this order.
   * initial_time is None there, and no raw export reads it.
   */
  function RawExport(lib: Library, kittiType: string, kitti: Dataset): (r: Export)
    requires kitti.Raw?
  {
    var staticTf := StaticTfRecords(StaticTransformList(lib, RawStaticTransforms(kitti)), kitti.timestamps);
    var e := Then(Export(staticTf, true), DynamicTfRecords(lib, kitti, 0.0));
    var e := Then(e, Some(ImuRecords(lib, ImuFrameId, ImuTopic, kitti.timestamps, kitti.oxts)));
    var e := Then(e, Some(GpsFixRecords(ImuFrameId, GpsFixTopic, kitti.timestamps, kitti.oxts)));
    var e := Then(e, Some(GpsVelRecords(ImuFrameId, GpsVelTopic, kitti.timestamps, kitti.oxts)));
    var e := CameraStages(e, lib, kittiType, kitti, Cameras, 0.0);
    Then(e, VeloDataRecords(lib, kitti.veloTimestampLines, kitti.veloFiles, VeloFrameId, VeloTopic))
  }

  /** The try block of an odometry conversion: poses, then the two cameras of the sequence's kind. */
  function OdometryExport(lib: Library, kittiType: string, kitti: Dataset, currentEpoch: real): (r: Export)
    requires IsGray(kittiType) || IsColor(kittiType)
  {
    var e := Then(Export([], true), DynamicTfRecords(lib, kitti, currentEpoch));
    CameraStages(e, lib, kittiType, kitti, UsedCameras(kittiType), currentEpoch)
  }

  /** The bag after the finally clause: closed, holding what was written; the outcome says whether something raised. */
  function Finish(name: string, e: Export): (r: Conversion)
  {
    Conversion(if e.ok then Finished else Raised, Some(name), e.log, true)
  }

  /** A raw conversion once the bag `name` is created: the existence and emptiness checks, then the try block. */
  function RawRun(lib: Library, kittiType: string, name: string, raw: Dataset): (r: Conversion)
    requires raw.Raw?
    ensures r.bagName == Some(name)
    ensures r.outcome.Stopped? <==> !raw.dataPathExists || |raw.timestamps| == 0
    ensures r.outcome.Stopped? ==> r.outcome.code == 1 && r.log == [] && !r.closed
    ensures !r.outcome.Stopped? ==> r.closed
  {
    if !raw.dataPathExists then Conversion(Stopped(1, DataPathMissing), Some(name), [], false)
    else if |raw.timestamps| == 0 then Conversion(Stopped(1, DatasetEmpty), Some(name), [], false)
    else Finish(name, RawExport(lib, kittiType, raw))
  }

  /**
   * An odometry conversion once the bag `name` is created: the checks, then
   * the poses are loaded for sequences 00 to 10 only, then the try block.
   */
  function OdometryRun(lib: Library, kittiType: string, sequence: string, name: string, odometry: Dataset,
                       currentEpoch: real): (r: Conversion)
    requires odometry.Odometry? && (IsGray(kittiType) || IsColor(kittiType))
    ensures r.bagName == Some(name)
    ensures r.outcome.Stopped? <==> !odometry.sequencePathExists || |odometry.timestamps| == 0
    ensures r.outcome.Stopped? ==> r.outcome.code == 1 && r.log == [] && !r.closed
    ensures !r.outcome.Stopped? ==> r.closed
  {
    if !odometry.sequencePathExists then Conversion(Stopped(1, DataPathMissing), Some(name), [], false)
    else if |odometry.timestamps| == 0 then Conversion(Stopped(1, DatasetEmpty), Some(name), [], false)
    else
      var loaded := odometry.(posesLoaded := sequence in SequenceIds()[..11]);
      Finish(name, OdometryExport(lib, kittiType, loaded, currentEpoch))
  }

  /**
   * What run_kitti2bag does. `raw` is what pykitti.raw loads for the given
   * directory, date and drive; `odometry` what pykitti.odometry loads for the
   * directory and sequence (calibration and timestamps included, poses not yet);
   * `currentEpoch` is the clock reading of an odometry run. A usage error
   * stops it before a bag exists; otherwise the bag is the one the command line names.
   */
  function Convert(lib: Library, args: Args, raw: Dataset, odometry: Dataset, currentEpoch: real): (r: Conversion)
    requires raw.Raw? && odometry.Odometry?
    ensures ParseCommand(args).Usage? ==>
      r.outcome == Stopped(ParseCommand(args).code, BadArguments(ParseCommand(args).reason)) && r.bagName.None?
    ensures !ParseCommand(args).Usage? ==> r.bagName == Some(ParseCommand(args).bagName)
  {
    match ParseCommand(args)
    case Usage(code, reason) => Conversion(Stopped(code, BadArguments(reason)), None, [], false)
    case ConvertRaw(_, _, name) => RawRun(lib, args.kittiType, name, raw)
    case ConvertOdometry(sequence, name) =>
      OdometryCommand(args);
      OdometryRun(lib, args.kittiType, sequence, name, odometry, currentEpoch)
  }

  /**
   * A usage error exits before any bag exists; a missing or empty dataset
   * exits after creating the bag but before the try block, so that bag stays
   * empty and is never closed; every run that reaches the try block closes its bag.
   */
  lemma ExitPaths(lib: Library, args: Args, raw: Dataset, odometry: Dataset, currentEpoch: real)
    requires raw.Raw? && odometry.Odometry?
    ensures var c := Convert(lib, args, raw, odometry, currentEpoch);
      && (c.outcome.Stopped? ==> c.log == [] && !c.closed)
      && (!c.outcome.Stopped? <==> c.closed)
  {
    match ParseCommand(args)
    case Usage(_, _) =>
    case ConvertRaw(_, _, name) =>
    case ConvertOdometry(sequence, name) =>
      OdometryCommand(args);
  }

  /** For odometry datasets every camera export succeeds: their times come from the dataset, not from a file. */
  lemma {:induction false} OdometryCameraStagesSucceed(e: Export, lib: Library, kittiType: string, kitti: Dataset,
                                                       cams: seq<CameraEntry>, initialTime: real)
    requires e.ok && kitti.Odometry?
    ensures CameraStages(e, lib, kittiType, kitti, cams, initialTime).ok
  {
    if cams != [] {
      OdometryCameraStagesSucceed(e, lib, kittiType, kitti, cams[..|cams| - 1], initialTime);
    }
  }

  /**
   * Sequences 00 to 10 convert; for 11 to 21 the poses are never loaded, so
   * save_dynamic_tf raises before writing and the bag is closed empty.
   */
  lemma PosesGate(lib: Library, args: Args, raw: Dataset, odometry: Dataset, currentEpoch: real)
    requires raw.Raw? && odometry.Odometry?
    requires ParseCommand(args).ConvertOdometry?
    requires odometry.sequencePathExists && |odometry.timestamps| > 0
    ensures var c := Convert(lib, args, raw, odometry, currentEpoch);
      var sequence := ParseCommand(args).sequence;
      && IsTwoDigits(sequence)
      && (c.outcome == Finished <==> DecimalValue(sequence) <= 10)
      && (c.outcome == Raised <==> DecimalValue(sequence) > 10)
      && (c.outcome == Raised ==> c.log == [] && c.closed)
  {
    var sequence := ParseCommand(args).sequence;
    OdometryCommand(args);
    MandatoryOptions(args);
    SequenceIdMembers(sequence);
    GroundTruthGate(sequence);
    var loaded := odometry.(posesLoaded := sequence in SequenceIds()[..11]);
    var e := Then(Export([], true), DynamicTfRecords(lib, loaded, currentEpoch));
    if e.ok {
      OdometryCameraStagesSucceed(e, lib, args.kittiType, loaded, UsedCameras(args.kittiType), currentEpoch);
    } else {
      CameraStagesAfterFailure(e, lib, args.kittiType, loaded, UsedCameras(args.kittiType), currentEpoch);
    }
  }

  /** Camera exports of color cameras add nothing to the bag, whether they succeed or raise. */
  lemma {:induction false} ColorCameraStagesSilent(e: Export, lib: Library, kittiType: string, kitti: Dataset,
                                                   cams: seq<CameraEntry>, initialTime: real)
    requires forall k :: 0 <= k < |cams| ==> !IsGrayCamera(cams[k].id)
    ensures CameraStages(e, lib, kittiType, kitti, cams, initialTime).log == e.log
  {
    if cams != [] {
      var c := cams[|cams| - 1];
      ColorCameraStagesSilent(e, lib, kittiType, kitti, cams[..|cams| - 1], initialTime);
      ColorCamerasWriteNothing(lib, kitti, kittiType, c.id, c.frameId, c.topic, initialTime);
    }
  }

  /**
   * A color odometry bag (odom_color: neither "raw" nor "gray" in the type)
   * holds /tf records only: cameras 2 and 3 are selected and save_camera_data
   * writes nothing for them.
   */
  lemma OdometryColorWritesOnlyTf(lib: Library, args: Args, raw: Dataset, odometry: Dataset, currentEpoch: real)
    requires raw.Raw? && odometry.Odometry?
    requires !IsRaw(args.kittiType) && !IsGray(args.kittiType)
    ensures var c := Convert(lib, args, raw, odometry, currentEpoch);
      forall i :: 0 <= i < |c.log| ==> c.log[i].topic == TfTopic
  {
    match ParseCommand(args)
    case Usage(_, _) =>
    case ConvertRaw(_, _, _) =>
    case ConvertOdometry(sequence, name) =>
      OdometryCommand(args);
      ColorOdometryRunWritesOnlyTf(lib, args.kittiType, sequence, name, odometry, currentEpoch);
  }

  /** The odometry half of OdometryColorWritesOnlyTf. */
  lemma ColorOdometryRunWritesOnlyTf(lib: Library, kittiType: string, sequence: string, name: string,
                                     odometry: Dataset, currentEpoch: real)
    requires odometry.Odometry? && IsColor(kittiType) && !IsGray(kittiType)
    ensures var c := OdometryRun(lib, kittiType, sequence, name, odometry, currentEpoch);
      forall i :: 0 <= i < |c.log| ==> c.log[i].topic == TfTopic
  {
    var used := UsedCameras(kittiType);
    assert used == Cameras[2..];
    var loaded := odometry.(posesLoaded := sequence in SequenceIds()[..11]);
    var dynamic := DynamicTfRecords(lib, loaded, currentEpoch);
    var e := Then(Export([], true), dynamic);
    ColorCameraStagesSilent(e, lib, kittiType, loaded, used, currentEpoch);
    if dynamic.Some? {
      var times := OffsetTimes(currentEpoch, loaded.timestamps);
      assert dynamic.value == OdomPoseRecords(lib, times, loaded.groundTruth);
    }
  }

  /** One more camera in the loop adds its stage at the end. */
  lemma CameraStagesSnoc(e: Export, lib: Library, kittiType: string, kitti: Dataset, cams: seq<CameraEntry>,
                         c: CameraEntry, initialTime: real)
    ensures CameraStages(e, lib, kittiType, kitti, cams + [c], initialTime)
      == Then(CameraStages(e, lib, kittiType, kitti, cams, initialTime),
              CameraRecords(lib, kitti, kittiType, c.id, c.frameId, c.topic, initialTime))
  {
    assert (cams + [c])[..|cams|] == cams;
  }

  /** With readable timestamp files the raw camera loop succeeds, and only cameras 0 and 1 add records. */
  lemma RawCameraStages(e: Export, lib: Library, kittiType: string, kitti: Dataset)
    requires e.ok && kitti.Raw?
    requires forall c: CameraId :: CameraTimestamps(lib, kitti.cameras.At(c).timestampLines).Some?
    ensures CameraStages(e, lib, kittiType, kitti, Cameras, 0.0) == Export(e.log
      + CameraRecords(lib, kitti, kittiType, 0, Cameras[0].frameId, Cameras[0].topic, 0.0).value
      + CameraRecords(lib, kitti, kittiType, 1, Cameras[1].frameId, Cameras[1].topic, 0.0).value, true)
  {
    var r0 := CameraRecords(lib, kitti, kittiType, 0, Cameras[0].frameId, Cameras[0].topic, 0.0);
    var r1 := CameraRecords(lib, kitti, kittiType, 1, Cameras[1].frameId, Cameras[1].topic, 0.0);
    var r2 := CameraRecords(lib, kitti, kittiType, 2, Cameras[2].frameId, Cameras[2].topic, 0.0);
    var r3 := CameraRecords(lib, kitti, kittiType, 3, Cameras[3].frameId, Cameras[3].topic, 0.0);
    assert CameraTimestamps(lib, kitti.cameras.At(0).timestampLines).Some?;
    assert CameraTimestamps(lib, kitti.cameras.At(1).timestampLines).Some?;
    assert CameraTimestamps(lib, kitti.cameras.At(2).timestampLines).Some?;
    assert CameraTimestamps(lib, kitti.cameras.At(3).timestampLines).Some?;
    assert r0.Some? && r1.Some? && r2 == Some([]) && r3 == Some([]);
    ColorCamerasWriteNothing(lib, kitti, kittiType, 2, Cameras[2].frameId, Cameras[2].topic, 0.0);
    ColorCamerasWriteNothing(lib, kitti, kittiType, 3, Cameras[3].frameId, Cameras[3].topic, 0.0);
    var c0, c1, c2, c3 := Cameras[0], Cameras[1], Cameras[2], Cameras[3];
    CameraStagesSnoc(e, lib, kittiType, kitti, [], c0, 0.0);
    assert [] + [c0] == [c0] && CameraStages(e, lib, kittiType, kitti, [], 0.0) == e;
    var s1 := CameraStages(e, lib, kittiType, kitti, [c0], 0.0);
    assert s1 == Export(e.log + r0.value, true);
    CameraStagesSnoc(e, lib, kittiType, kitti, [c0], c1, 0.0);
    assert [c0] + [c1] == [c0, c1];
    var s2 := CameraStages(e, lib, kittiType, kitti, [c0, c1], 0.0);
    assert s2 == Export(e.log + r0.value + r1.value, true);
    CameraStagesSnoc(e, lib, kittiType, kitti, [c0, c1], c2, 0.0);
    assert [c0, c1] + [c2] == [c0, c1, c2];
    assert CameraStages(e, lib, kittiType, kitti, [c0, c1, c2], 0.0) == s2;
    CameraStagesSnoc(e, lib, kittiType, kitti, [c0, c1, c2], c3, 0.0);
    assert Cameras == [c0, c1, c2] + [c3];
  }

  /**
   * A raw conversion whose timestamp files all parse finishes and closes a bag
   * holding, in this order: the static transforms, the poses, the IMU, GPS fix
   * and GPS velocity streams, cameras 0 and 1, and the velodyne scans.
   */
  lemma RawExportOrder(lib: Library, kittiType: string, name: string, raw: Dataset)
    requires raw.Raw? && raw.dataPathExists && |raw.timestamps| > 0
    requires forall c: CameraId :: CameraTimestamps(lib, raw.cameras.At(c).timestampLines).Some?
    requires ParseAll(lib, KeptLines(raw.veloTimestampLines)).Some?
    ensures var c := RawRun(lib, kittiType, name, raw);
      && c.outcome == Finished && c.closed
      && c.log == StaticTfRecords(StaticTransformList(lib, RawStaticTransforms(raw)), raw.timestamps)
        + RawPoseRecords(lib, raw.timestamps, raw.oxts)
        + ImuRecords(lib, ImuFrameId, ImuTopic, raw.timestamps, raw.oxts)
        + GpsFixRecords(ImuFrameId, GpsFixTopic, raw.timestamps, raw.oxts)
        + GpsVelRecords(ImuFrameId, GpsVelTopic, raw.timestamps, raw.oxts)
        + CameraRecords(lib, raw, kittiType, 0, Cameras[0].frameId, Cameras[0].topic, 0.0).value
        + CameraRecords(lib, raw, kittiType, 1, Cameras[1].frameId, Cameras[1].topic, 0.0).value
        + VeloDataRecords(lib, raw.veloTimestampLines, raw.veloFiles, VeloFrameId, VeloTopic).value
  {
    var staticTf := StaticTfRecords(StaticTransformList(lib, RawStaticTransforms(raw)), raw.timestamps);
    var e1 := Then(Export(staticTf, true), DynamicTfRecords(lib, raw, 0.0));
    var e2 := Then(e1, Some(ImuRecords(lib, ImuFrameId, ImuTopic, raw.timestamps, raw.oxts)));
    var e3 := Then(e2, Some(GpsFixRecords(ImuFrameId, GpsFixTopic, raw.timestamps, raw.oxts)));
    var e4 := Then(e3, Some(GpsVelRecords(ImuFrameId, GpsVelTopic, raw.timestamps, raw.oxts)));
    assert e4.ok;
    RawCameraStages(e4, lib, kittiType, raw);
  }

  /** A gray odometry camera loop succeeds and adds the records of cameras 0 and 1, in this order. */
  lemma OdometryGrayCameraStages(e: Export, lib: Library, kittiType: string, kitti: Dataset, initialTime: real)
    requires e.ok && kitti.Odometry? && IsGray(kittiType)
    ensures CameraStages(e, lib, kittiType, kitti, UsedCameras(kittiType), initialTime) == Export(e.log
      + CameraRecords(lib, kitti, kittiType, 0, Cameras[0].frameId, Cameras[0].topic, initialTime).value
      + CameraRecords(lib, kitti, kittiType, 1, Cameras[1].frameId, Cameras[1].topic, initialTime).value, true)
  {
    var c0, c1 := Cameras[0], Cameras[1];
    var r0 := CameraRecords(lib, kitti, kittiType, 0, c0.frameId, c0.topic, initialTime);
    var r1 := CameraRecords(lib, kitti, kittiType, 1, c1.frameId, c1.topic, initialTime);
    assert r0.Some? && r1.Some?;
    assert UsedCameras(kittiType) == [c0] + [c1];
    CameraStagesSnoc(e, lib, kittiType, kitti, [], c0, initialTime);
    assert [] + [c0] == [c0];
    assert CameraStages(e, lib, kittiType, kitti, [c0], initialTime) == Export(e.log + r0.value, true);
    CameraStagesSnoc(e, lib, kittiType, kitti, [c0], c1, initialTime);
  }

  /** Loading the poses changes nothing that save_camera_data reads. */
  lemma CameraRecordsIgnorePoses(lib: Library, kitti: Dataset, kittiType: string, camera: CameraId, frameId: string,
                                 topic: string, initialTime: real, loaded: bool)
    requires kitti.Odometry?
    ensures CameraRecords(lib, kitti.(posesLoaded := loaded), kittiType, camera, frameId, topic, initialTime)
         == CameraRecords(lib, kitti, kittiType, camera, frameId, topic, initialTime)
  {
    var k := kitti.(posesLoaded := loaded);
    assert CameraTimes(lib, k, camera, initialTime) == CameraTimes(lib, kitti, camera, initialTime);
    assert InitialCalib(k, camera, frameId) == InitialCalib(kitti, camera, frameId);
    assert ImageDir(k, camera) == ImageDir(kitti, camera);
    assert CameraFiles(k, camera) == CameraFiles(kitti, camera);
  }

  /**
   * A gray odometry conversion of a sequence with ground truth finishes and
   * closes a bag holding, in this order: the poses on /tf, stamped with the
   * run's epoch plus each offset, then cameras 0 and 1.
   */
  lemma OdometryGrayExportOrder(lib: Library, kittiType: string, sequence: string, name: string,
                                odometry: Dataset, currentEpoch: real)
    requires odometry.Odometry? && odometry.sequencePathExists && |odometry.timestamps| > 0
    requires IsGray(kittiType) && sequence in SequenceIds()[..11]
    ensures var c := OdometryRun(lib, kittiType, sequence, name, odometry, currentEpoch);
      && c.outcome == Finished && c.closed
      && c.log == OdomPoseRecords(lib, OffsetTimes(currentEpoch, odometry.timestamps), odometry.groundTruth)
        + CameraRecords(lib, odometry, kittiType, 0, Cameras[0].frameId, Cameras[0].topic, currentEpoch).value
        + CameraRecords(lib, odometry, kittiType, 1, Cameras[1].frameId, Cameras[1].topic, currentEpoch).value
  {
    var loaded := odometry.(posesLoaded := true);
    assert loaded == odometry.(posesLoaded := sequence in SequenceIds()[..11]);
    OdometryGrayExport(lib, kittiType, loaded, currentEpoch);
    CameraRecordsIgnorePoses(lib, odometry, kittiType, 0, Cameras[0].frameId, Cameras[0].topic, currentEpoch, true);
    CameraRecordsIgnorePoses(lib, odometry, kittiType, 1, Cameras[1].frameId, Cameras[1].topic, currentEpoch, true);
  }

  /** The try block of a gray odometry conversion whose poses are loaded: the poses, then cameras 0 and 1. */
  lemma OdometryGrayExport(lib: Library, kittiType: string, kitti: Dataset, currentEpoch: real)
    requires kitti.Odometry? && kitti.posesLoaded && IsGray(kittiType)
    ensures OdometryExport(lib, kittiType, kitti, currentEpoch) == Export(
      OdomPoseRecords(lib, OffsetTimes(currentEpoch, kitti.timestamps), kitti.groundTruth)
        + CameraRecords(lib, kitti, kittiType, 0, Cameras[0].frameId, Cameras[0].topic, currentEpoch).value
        + CameraRecords(lib, kitti, kittiType, 1, Cameras[1].frameId, Cameras[1].topic, currentEpoch).value, true)
  {
    var poses := OdomPoseRecords(lib, OffsetTimes(currentEpoch, kitti.timestamps), kitti.groundTruth);
    var e := Then(Export([], true), DynamicTfRecords(lib, kitti, currentEpoch));
    assert e == Export(poses, true) by { assert [] + poses == poses; }
    OdometryGrayCameraStages(e, lib, kittiType, kitti, currentEpoch);
  }

  /** The `for camera in ...` loop of either branch; an exception ends it. */
  method SaveCameras(bag: BagWriter, lib: Library, kittiType: string, kitti: Dataset, cams: seq<CameraEntry>,
                     initialTime: real)
    returns (ok: bool)
    requires !bag.closed
    requires IsRaw(kittiType) <==> kitti.Raw?
    requires kitti.Odometry? ==> IsOdom(kittiType)
    modifies bag
    ensures !bag.closed
    ensures Export(bag.log, ok) == CameraStages(Export(old(bag.log), true), lib, kittiType, kitti, cams, initialTime)
  {
    ok := true;
    for i := 0 to |cams|
      invariant !bag.closed
      invariant Export(bag.log, ok) == CameraStages(Export(old(bag.log), true), lib, kittiType, kitti, cams[..i], initialTime)
    {
      assert cams[..i + 1][..i] == cams[..i];
      if ok {
        var camera := cams[i];
        ok := SaveCameraData(bag, lib, kittiType, kitti, camera.id, camera.frameId, camera.topic, initialTime);
      }
    }
    assert cams[..|cams|] == cams;
  }

  /** The try block of the raw branch. */
  method ExportRaw(bag: BagWriter, lib: Library, kittiType: string, kitti: Dataset) returns (ok: bool)
    requires !bag.closed && bag.log == [] && kitti.Raw? && IsRaw(kittiType)
    modifies bag
    ensures !bag.closed
    ensures Export(bag.log, ok) == RawExport(lib, kittiType, kitti)
  {
    var transforms := RawStaticTransforms(kitti);
    SaveStaticTransforms(bag, lib, transforms, kitti.timestamps);
    ghost var e := Export(StaticTfRecords(StaticTransformList(lib, transforms), kitti.timestamps), true);
    assert Export(bag.log, true) == e;
    ok := SaveDynamicTf(bag, lib, kitti, kittiType, 0.0);
    assert ok;
    e := Then(e, DynamicTfRecords(lib, kitti, 0.0));
    assert Export(bag.log, ok) == e;
    SaveImuData(bag, lib, kitti, ImuFrameId, ImuTopic);
    e := Then(e, Some(ImuRecords(lib, ImuFrameId, ImuTopic, kitti.timestamps, kitti.oxts)));
    assert Export(bag.log, ok) == e;
    SaveGpsFixData(bag, kitti, ImuFrameId, GpsFixTopic);
    e := Then(e, Some(GpsFixRecords(ImuFrameId, GpsFixTopic, kitti.timestamps, kitti.oxts)));
    assert Export(bag.log, ok) == e;
    SaveGpsVelData(bag, kitti, ImuFrameId, GpsVelTopic);
    e := Then(e, Some(GpsVelRecords(ImuFrameId, GpsVelTopic, kitti.timestamps, kitti.oxts)));
    assert Export(bag.log, ok) == e;
    ok := SaveCameras(bag, lib, kittiType, kitti, Cameras, 0.0);
    e := CameraStages(e, lib, kittiType, kitti, Cameras, 0.0);
    assert Export(bag.log, ok) == e;
    if ok {
      ok := SaveVeloData(bag, lib, kitti, VeloFrameId, VeloTopic);
    }
    e := Then(e, VeloDataRecords(lib, kitti.veloTimestampLines, kitti.veloFiles, VeloFrameId, VeloTopic));
    assert Export(bag.log, ok) == e;
    assert e == RawExport(lib, kittiType, kitti);
  }

  /** The try block of the odometry branch. */
  method ExportOdometry(bag: BagWriter, lib: Library, kittiType: string, kitti: Dataset, currentEpoch: real)
    returns (ok: bool)
    requires !bag.closed && bag.log == [] && kitti.Odometry?
    requires !IsRaw(kittiType) && IsOdom(kittiType) && (IsGray(kittiType) || IsColor(kittiType))
    modifies bag
    ensures !bag.closed
    ensures Export(bag.log, ok) == OdometryExport(lib, kittiType, kitti, currentEpoch)
  {
    var usedCameras := UsedCameras(kittiType);
    ok := SaveDynamicTf(bag, lib, kitti, kittiType, currentEpoch);
    ghost var e := Then(Export([], true), DynamicTfRecords(lib, kitti, currentEpoch));
    assert Export(bag.log, ok) == e;
    if ok {
      ok := SaveCameras(bag, lib, kittiType, kitti, usedCameras, currentEpoch);
    } else {
      CameraStagesAfterFailure(e, lib, kittiType, kitti, usedCameras, currentEpoch);
    }
  }

  /** The raw branch of run_kitti2bag from the creation of the bag on. */
  method RunRaw(lib: Library, kittiType: string, name: string, raw: Dataset) returns (outcome: Outcome, bag: BagWriter)
    requires raw.Raw? && IsRaw(kittiType)
    ensures var c := RawRun(lib, kittiType, name, raw);
      outcome == c.outcome && fresh(bag) && bag.uri == name && bag.log == c.log && bag.closed == c.closed
  {
    bag := new BagWriter(name);
    var kitti := raw;
    if !kitti.dataPathExists {
      return Stopped(1, DataPathMissing), bag;
    }
    if |kitti.timestamps| == 0 {
      return Stopped(1, DatasetEmpty), bag;
    }
    var ok := ExportRaw(bag, lib, kittiType, kitti);
    bag.Close();
    outcome := if ok then Finished else Raised;
  }

  /** The odometry branch of run_kitti2bag from the creation of the bag on. */
  method RunOdometry(lib: Library, kittiType: string, sequence: string, name: string, odometry: Dataset,
                     currentEpoch: real, odometrySequences: seq<string>)
    returns (outcome: Outcome, bag: BagWriter)
    requires odometry.Odometry? && !odometry.posesLoaded && odometrySequences == SequenceIds()
    requires !IsRaw(kittiType) && IsOdom(kittiType) && (IsGray(kittiType) || IsColor(kittiType))
    ensures var c := OdometryRun(lib, kittiType, sequence, name, odometry, currentEpoch);
      outcome == c.outcome && fresh(bag) && bag.uri == name && bag.log == c.log && bag.closed == c.closed
  {
    bag := new BagWriter(name);
    var kitti := odometry;
    if !kitti.sequencePathExists {
      return Stopped(1, DataPathMissing), bag;
    }
    if |kitti.timestamps| == 0 {
      return Stopped(1, DatasetEmpty), bag;
    }
    if sequence in odometrySequences[..11] {
      kitti := kitti.(posesLoaded := true);
    }
    var ok := ExportOdometry(bag, lib, kittiType, kitti, currentEpoch);
    bag.Close();
    outcome := if ok then Finished else Raised;
  }

  /** The raw branch of run_kitti2bag once the choices are accepted: -t, then -r, then the conversion. */
  method RunRawCommand(lib: Library, args: Args, raw: Dataset) returns (outcome: Outcome, bag: BagWriter?)
    requires raw.Raw? && ValidChoices(args) && IsRaw(args.kittiType)
    ensures var cmd := ParseCommand(args);
      if cmd.Usage? then outcome == Stopped(cmd.code, BadArguments(cmd.reason)) && bag == null
      else
        var c := RawRun(lib, args.kittiType, cmd.bagName, raw);
        && cmd.ConvertRaw? && outcome == c.outcome && bag != null && fresh(bag) && bag.uri == cmd.bagName
        && bag.log == c.log && bag.closed == c.closed
  {
    if args.date.None? {
      return Stopped(1, BadArguments(MissingDate)), null;
    } else if args.drive.None? {
      return Stopped(1, BadArguments(MissingDrive)), null;
    }
    outcome, bag := RunRaw(lib, args.kittiType, RawBagName(args.kittiType, args.date.value, args.drive.value), raw);
  }

  /** The odometry branch of run_kitti2bag once the choices are accepted: -s, then the conversion. */
  method RunOdometryCommand(lib: Library, args: Args, odometry: Dataset, currentEpoch: real,
                            odometrySequences: seq<string>)
    returns (outcome: Outcome, bag: BagWriter?)
    requires odometry.Odometry? && !odometry.posesLoaded && odometrySequences == SequenceIds()
    requires ValidChoices(args) && !IsRaw(args.kittiType)
    ensures var cmd := ParseCommand(args);
      if cmd.Usage? then outcome == Stopped(cmd.code, BadArguments(cmd.reason)) && bag == null
      else
        && cmd.ConvertOdometry? && (IsGray(args.kittiType) || IsColor(args.kittiType))
        && var c := OdometryRun(lib, args.kittiType, cmd.sequence, cmd.bagName, odometry, currentEpoch);
        && outcome == c.outcome && bag != null && fresh(bag) && bag.uri == cmd.bagName
        && bag.log == c.log && bag.closed == c.closed
  {
    if args.sequence.None? {
      return Stopped(1, BadArguments(MissingSequence)), null;
    }
    OdometryCommand(args);
    outcome, bag := RunOdometry(lib, args.kittiType, args.sequence.value,
                                OdometryBagName(args.kittiType, args.sequence.value), odometry, currentEpoch,
                                odometrySequences);
  }

  /** run_kitti2bag(); `bag` is the writer it created, null when it stopped before creating one. */
  method RunKitti2Bag(lib: Library, args: Args, raw: Dataset, odometry: Dataset, currentEpoch: real)
    returns (outcome: Outcome, bag: BagWriter?)
    requires raw.Raw? && odometry.Odometry? && !odometry.posesLoaded
    ensures var c := Convert(lib, args, raw, odometry, currentEpoch);
      && outcome == c.outcome
      && (bag == null <==> c.bagName.None?)
      && (bag != null ==> fresh(bag) && bag.uri == c.bagName.value && bag.log == c.log && bag.closed == c.closed)
  {
    var odometrySequences := OdometrySequences();
    if !ValidChoices(args) {
      return Stopped(2, BadArguments(BadChoice)), null;
    }
    if IsRaw(args.kittiType) {
      outcome, bag := RunRawCommand(lib, args, raw);
    } else {
      outcome, bag := RunOdometryCommand(lib, args, odometry, currentEpoch, odometrySequences);
    }
  }
}
