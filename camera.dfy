/**
 * save_camera_data (kitti2bag.py, lines 106-156): for one camera, pair its
 * timestamps with its sorted image files and, for the gray cameras 0 and 1
 * only, write an image and then the camera's calibration with the same stamp.
 */
module Camera {
  import opened Wrappers
  import opened PyLib
  import opened Messages
  import opened BagFile
  import opened Kitti
  import opened Variant
  import opened TimestampLog
  import opened Streams

  const Mono8 := "mono8"
  const PlumbBob := "plumb_bob"
  const CameraInfoSuffix := "/camera_info"

  /** A default CameraInfo's nine-entry k and r arrays. */
  const Zeros9: seq<real> := [0.0, 0.0, 0.0, 0.0, 0.0, 0.0, 0.0, 0.0, 0.0]

  /** Only cameras 0 and 1 (the gray pair) have images written. */
  predicate IsGrayCamera(camera: CameraId) { camera == 0 || camera == 1 }

  /** image_datetimes: parsed from image_0x/timestamps.txt (raw), or the epoch plus each offset (odometry). */
  function CameraTimes(lib: Library, kitti: Dataset, camera: CameraId, initialTime: real): (r: Option<seq<real>>)
  {
    if kitti.Raw? then CameraTimestamps(lib, kitti.cameras.At(camera).timestampLines)
    else Some(OffsetTimes(initialTime, kitti.timestamps))
  }

  /**
   * image_path: image_0x/data under the drive's data_path for a raw dataset,
   * image_x under the sequence_path for an odometry one, x being the camera's
   * digit ('{0:02d}' and '{0:01d}' of the camera number, by CameraPadDigit).
   */
  function ImageDir(kitti: Dataset, camera: CameraId): (r: string)
  {
    if kitti.Raw? then Join(Join(kitti.dataPath, "image_0" + [DigitChar(camera)]), "data")
    else Join(kitti.sequencePath, "image_" + [DigitChar(camera)])
  }

  /** The camera number padded to one or two places is its digit, after a '0' for two. */
  lemma CameraPadDigit(camera: CameraId)
    ensures DecimalString(camera) == [DigitChar(camera)]
    ensures ZFill(DecimalString(camera), 2) == ['0', DigitChar(camera)]
  {
    var d := DigitChar(camera);
    assert DecimalString(camera) == [d];
    assert ZFill([d], 2) == seq(1, _ => '0') + [d];
  }

  /** The image directory is a camera-independent head, the camera's digit, then a camera-independent tail. */
  lemma ImageDirDigit(kitti: Dataset, camera: CameraId)
    ensures ImageDir(kitti, camera)
      == (if kitti.Raw? then Join(kitti.dataPath, "image_0") else Join(kitti.sequencePath, "image_"))
         + [DigitChar(camera)]
         + (if kitti.Raw? then "/data" else "")
  {
    var d := DigitChar(camera);
    if kitti.Raw? {
      JoinExtends(kitti.dataPath, "image_0", [d]);
      var dir := Join(kitti.dataPath, "image_0") + [d];
      JoinUnderDirectory(dir, "data");
    } else {
      JoinExtends(kitti.sequencePath, "image_", [d]);
    }
  }

  /**
   * os.path.join(image_path, filename) names a different file for different
   * cameras, even when their directories list the same file name.
   */
  lemma {:induction false} ImagePathsDiffer(kitti: Dataset, c1: CameraId, c2: CameraId, filename: string)
    requires c1 != c2 && !IsAbsolute(filename)
    ensures Join(ImageDir(kitti, c1), filename) != Join(ImageDir(kitti, c2), filename)
  {
    var head := if kitti.Raw? then Join(kitti.dataPath, "image_0") else Join(kitti.sequencePath, "image_");
    var tail := if kitti.Raw? then "/data" else "";
    ImageDirDigit(kitti, c1);
    ImageDirDigit(kitti, c2);
    var dir1, dir2 := head + [DigitChar(c1)] + tail, head + [DigitChar(c2)] + tail;
    JoinUnderDirectory(dir1, filename);
    JoinUnderDirectory(dir2, filename);
    assert Join(dir1, filename)[|head|] == DigitChar(c1);
    assert Join(dir2, filename)[|head|] == DigitChar(c2);
  }

  /** image_filenames: the sorted listing of the camera's image directory. */
  function CameraFiles(kitti: Dataset, camera: CameraId): (r: seq<string>)
  {
    if kitti.Raw? then kitti.cameras.At(camera).files else kitti.cameraFiles.At(camera)
  }

  /**
   * The CameraInfo built before the loop. Raw datasets fill in the plumb_bob
   * model and K, R_rect, D and P_rect; odometry datasets set only P and keep
   * the message defaults elsewhere. Height and width are set per frame.
   */
  function InitialCalib(kitti: Dataset, camera: CameraId, frameId: string): (c: Msg)
    ensures c.CameraInfo? && c.header == Header(ZeroTime, frameId)
    ensures c.height == 0 && c.width == 0
    ensures kitti.Raw? ==> var calib := kitti.cameras.At(camera).calib;
      && c.distortionModel == PlumbBob
      && c.k == calib.k && c.r == calib.r && c.d == calib.d && c.p == calib.p
    ensures kitti.Odometry? ==>
      && c.distortionModel == "" && c.d == [] && c.k == Zeros9 && c.r == Zeros9
      && c.p == kitti.projections.At(camera)
  {
    if kitti.Raw? then
      var calib := kitti.cameras.At(camera).calib;
      CameraInfo(Header(ZeroTime, frameId), 0, 0, PlumbBob, calib.d, calib.k, calib.r, calib.p)
    else
      CameraInfo(Header(ZeroTime, frameId), 0, 0, "", [], Zeros9, Zeros9, kitti.projections.At(camera))
  }

  /** topic + topic_ext: rectified images of an odometry sequence go to /image_rect, raw ones to /image_raw. */
  function ImageTopic(kittiType: string, topic: string): (r: string)
  {
    topic + (if IsRaw(kittiType) then "/image_raw" else "/image_rect")
  }

  /** a and b carry the same calibration: they differ at most in stamp and image size. */
  predicate SameCalibration(a: Msg, b: Msg)
  {
    && a.CameraInfo? && b.CameraInfo?
    && a.header.frameId == b.header.frameId && a.distortionModel == b.distortionModel
    && a.d == b.d && a.k == b.k && a.r == b.r && a.p == b.p
  }

  /** The calibration message as written for one frame: stamp and image size updated, the rest kept. */
  function Calibrated(calib: Msg, stamp: TimeMsg, height: nat, width: nat): (c: Msg)
    requires calib.CameraInfo?
  {
    CameraInfo(Header(stamp, calib.header.frameId), height, width, calib.distortionModel,
               calib.d, calib.k, calib.r, calib.p)
  }

  /**
   * The two records of one frame: the mono8 image read from the file's path in
   * imagePath, then the calibration with the image's stamp.
   */
  function FramePair(lib: Library, calib: Msg, frameId: string, imageTopic: string, infoTopic: string,
                     imagePath: string, frame: (real, string)): (r: seq<Record>)
    requires calib.CameraInfo?
  {
    var path := Join(imagePath, frame.1);
    var (height, width) := lib.imageShape(path);
    var stamp := Stamp(frame.0);
    [Record(imageTopic, Image(Header(stamp, frameId), height, width, Mono8, path)),
     Record(infoTopic, Calibrated(calib, stamp, height, width))]
  }

  /** The records of a sequence of (datetime, file name) frames, two per frame in frame order. */
  function FrameRecords(lib: Library, calib: Msg, frameId: string, imageTopic: string, infoTopic: string,
                        imagePath: string, frames: seq<(real, string)>): (r: seq<Record>)
    requires calib.CameraInfo?
    ensures |r| == 2 * |frames|
  {
    if frames == [] then []
    else
      FrameRecords(lib, calib, frameId, imageTopic, infoTopic, imagePath, frames[..|frames| - 1])
        + FramePair(lib, calib, frameId, imageTopic, infoTopic, imagePath, frames[|frames| - 1])
  }

  /** What save_camera_data writes; None when strptime raises on a line of the raw timestamps file. */
  function CameraRecords(lib: Library, kitti: Dataset, kittiType: string, camera: CameraId, frameId: string,
                         topic: string, initialTime: real): (r: Option<seq<Record>>)
  {
    match CameraTimes(lib, kitti, camera, initialTime)
    case None => None
    case Some(times) =>
      if IsGrayCamera(camera) then
        Some(FrameRecords(lib, InitialCalib(kitti, camera, frameId), frameId, ImageTopic(kittiType, topic),
                          topic + CameraInfoSuffix, ImageDir(kitti, camera), Zip(times, CameraFiles(kitti, camera))))
      else Some([])
  }

  /**
   * Frame k yields records 2k and 2k+1: the mono8 image read from file k's path,
   * stamped with datetime k, then the calibration carrying the same stamp and
   * the image's size.
   */
  lemma {:induction false} FrameRecordsAt(lib: Library, calib: Msg, frameId: string, imageTopic: string,
                                          infoTopic: string, imagePath: string, frames: seq<(real, string)>, k: nat)
    requires calib.CameraInfo? && k < |frames|
    ensures var r := FrameRecords(lib, calib, frameId, imageTopic, infoTopic, imagePath, frames);
      var stamp := Stamp(frames[k].0);
      var path := Join(imagePath, frames[k].1);
      var (height, width) := lib.imageShape(path);
      && r[2 * k] == Record(imageTopic, Image(Header(stamp, frameId), height, width, Mono8, path))
      && r[2 * k + 1] == Record(infoTopic, Calibrated(calib, stamp, height, width))
  {
    var n := |frames| - 1;
    if k < n {
      FrameRecordsAt(lib, calib, frameId, imageTopic, infoTopic, imagePath, frames[..n], k);
    }
  }

  /**
   * For camera 0 or 1 with readable timestamps, save_camera_data writes
   * 2 * min(|times|, |files|) records; the even ones are mono8 images on
   * topic + '/image_raw' or '/image_rect', the odd ones CameraInfo on
   * topic + '/camera_info' with exactly the stamp of the image before them.
   */
  lemma CameraRecordsShape(lib: Library, kitti: Dataset, kittiType: string, camera: CameraId, frameId: string,
                           topic: string, initialTime: real, k: nat)
    requires IsGrayCamera(camera)
    requires CameraTimes(lib, kitti, camera, initialTime).Some?
    ensures var times := CameraTimes(lib, kitti, camera, initialTime).value;
      var files := CameraFiles(kitti, camera);
      var r := CameraRecords(lib, kitti, kittiType, camera, frameId, topic, initialTime);
      && r.Some? && |r.value| == 2 * Min(|times|, |files|)
      && (k < Min(|times|, |files|) ==>
        var path := Join(ImageDir(kitti, camera), files[k]);
        && r.value[2 * k].topic == ImageTopic(kittiType, topic)
        && r.value[2 * k].msg == Image(Header(Stamp(times[k]), frameId), lib.imageShape(path).0,
                                       lib.imageShape(path).1, Mono8, path)
        && r.value[2 * k + 1].topic == topic + CameraInfoSuffix
        && r.value[2 * k + 1].msg.CameraInfo?
        && r.value[2 * k + 1].msg.header == Header(Stamp(times[k]), frameId)
        && r.value[2 * k + 1].msg.height == lib.imageShape(path).0
        && r.value[2 * k + 1].msg.width == lib.imageShape(path).1)
  {
    var times := CameraTimes(lib, kitti, camera, initialTime).value;
    var files := CameraFiles(kitti, camera);
    var z := Zip(times, files);
    if k < |z| {
      FrameRecordsAt(lib, InitialCalib(kitti, camera, frameId), frameId, ImageTopic(kittiType, topic),
                     topic + CameraInfoSuffix, ImageDir(kitti, camera), z, k);
    }
  }

  /** save_camera_data fails exactly when its timestamps cannot be read. */
  lemma CameraRecordsDefined(lib: Library, kitti: Dataset, kittiType: string, camera: CameraId,
                             frameId: string, topic: string, initialTime: real)
    ensures CameraRecords(lib, kitti, kittiType, camera, frameId, topic, initialTime).Some?
        <==> CameraTimes(lib, kitti, camera, initialTime).Some?
  {
  }

  /** The color cameras 2 and 3 never reach the bag, whatever their data. */
  lemma ColorCamerasWriteNothing(lib: Library, kitti: Dataset, kittiType: string, camera: CameraId,
                                 frameId: string, topic: string, initialTime: real)
    requires !IsGrayCamera(camera)
    ensures var r := CameraRecords(lib, kitti, kittiType, camera, frameId, topic, initialTime);
      r.None? || r.value == []
  {
  }

  /**
   * The frame loop of save_camera_data: every frame updates the calibration's
   * image size; for cameras 0 and 1 it also writes the image and then the
   * calibration stamped like it.
   */
  method WriteFrames(bag: BagWriter, lib: Library, camera: CameraId, calib0: Msg, cameraFrameId: string,
                     imageTopic: string, infoTopic: string, imagePath: string, frames: seq<(real, string)>)
    requires !bag.closed && calib0.CameraInfo?
    modifies bag
    ensures !bag.closed
    ensures bag.log == old(bag.log)
      + (if IsGrayCamera(camera) then FrameRecords(lib, calib0, cameraFrameId, imageTopic, infoTopic, imagePath, frames) else [])
  {
    var calib := calib0;
    for i := 0 to |frames|
      invariant !bag.closed && SameCalibration(calib, calib0)
      invariant bag.log == old(bag.log)
        + (if IsGrayCamera(camera) then FrameRecords(lib, calib0, cameraFrameId, imageTopic, infoTopic, imagePath, frames[..i]) else [])
    {
      var (dt, filename) := frames[i];
      var imageFilename := Join(imagePath, filename);
      var (height, width) := lib.imageShape(imageFilename);
      calib := CameraInfo(calib.header, height, width, calib.distortionModel, calib.d, calib.k, calib.r, calib.p);
      if camera == 0 || camera == 1 {
        var stamp := Stamp(dt);
        var imageMessage := Image(Header(stamp, cameraFrameId), height, width, Mono8, imageFilename);
        calib := CameraInfo(Header(stamp, calib.header.frameId), calib.height, calib.width,
                            calib.distortionModel, calib.d, calib.k, calib.r, calib.p);
        assert calib == Calibrated(calib0, stamp, height, width);
        ghost var pair := FramePair(lib, calib0, cameraFrameId, imageTopic, infoTopic, imagePath, frames[i]);
        assert pair == [Record(imageTopic, imageMessage), Record(infoTopic, calib)];
        assert frames[..i + 1][..i] == frames[..i];
        assert FrameRecords(lib, calib0, cameraFrameId, imageTopic, infoTopic, imagePath, frames[..i + 1])
          == FrameRecords(lib, calib0, cameraFrameId, imageTopic, infoTopic, imagePath, frames[..i]) + pair;
        bag.Write(imageTopic, imageMessage);
        bag.Write(infoTopic, calib);
      }
    }
    assert frames[..|frames|] == frames;
  }

  /** save_camera_data(bag, kitti_type, kitti, util, bridge, camera, camera_frame_id, topic, initial_time) */
  method SaveCameraData(bag: BagWriter, lib: Library, kittiType: string, kitti: Dataset, camera: CameraId,
                        cameraFrameId: string, topic: string, initialTime: real)
    returns (ok: bool)
    requires !bag.closed
    requires IsRaw(kittiType) <==> kitti.Raw?
    requires kitti.Odometry? ==> IsOdom(kittiType)
    modifies bag
    ensures !bag.closed
    ensures ok == CameraRecords(lib, kitti, kittiType, camera, cameraFrameId, topic, initialTime).Some?
    ensures bag.log == old(bag.log)
      + (if ok then CameraRecords(lib, kitti, kittiType, camera, cameraFrameId, topic, initialTime).value else [])
  {
    var imageDatetimes: seq<real>;
    var imageFilenames: seq<string>;
    var calib: Msg;
    var topicExt: string;
    var imagePath: string;
    if IsRaw(kittiType) {
      var cameraPad := ZFill(DecimalString(camera), 2);
      var imageDir := Join(kitti.dataPath, "image_" + cameraPad);
      imagePath := Join(imageDir, "data");
      var listing := kitti.cameras.At(camera);
      imageFilenames := listing.files;
      var parsed := CameraTimestamps(lib, listing.timestampLines);
      if parsed.None? {
        return false;
      }
      imageDatetimes := parsed.value;
      var util := listing.calib;
      calib := CameraInfo(Header(ZeroTime, cameraFrameId), 0, 0, PlumbBob, util.d, util.k, util.r, util.p);
      topicExt := "/image_raw";
    } else {
      var cameraPad := DecimalString(camera);
      imagePath := Join(kitti.sequencePath, "image_" + cameraPad);
      imageFilenames := kitti.cameraFiles.At(camera);
      imageDatetimes := OffsetTimes(initialTime, kitti.timestamps);
      calib := CameraInfo(Header(ZeroTime, cameraFrameId), 0, 0, "", [], Zeros9, Zeros9, kitti.projections.At(camera));
      topicExt := "/image_rect";
    }
    assert calib == InitialCalib(kitti, camera, cameraFrameId);
    assert CameraTimes(lib, kitti, camera, initialTime) == Some(imageDatetimes);
    assert CameraFiles(kitti, camera) == imageFilenames;
    CameraPadDigit(camera);
    assert "image_" + ZFill(DecimalString(camera), 2) == "image_0" + [DigitChar(camera)];
    assert imagePath == ImageDir(kitti, camera);
    var imageTopic := topic + topicExt;
    assert imageTopic == ImageTopic(kittiType, topic);
    WriteFrames(bag, lib, camera, calib, cameraFrameId, imageTopic, topic + CameraInfoSuffix, imagePath,
                Zip(imageDatetimes, imageFilenames));
    ok := true;
  }
}
