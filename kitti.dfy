/**
 * What the pykitti dataset objects, the directory listings and the
 * calibration files hand to the converter, as plain values.
 */
module Kitti {
  import opened Geometry

  /** The four cameras of the rig, numbered as in the script's camera table. */
  type CameraId = c: nat | c < 4

  /** One value per camera. */
  datatype PerCamera<T> = PerCamera(cam0: T, cam1: T, cam2: T, cam3: T)
  {
    function At(c: CameraId): (r: T)
    {
      match c
      case 0 => cam0
      case 1 => cam1
      case 2 => cam2
      case 3 => cam3
    }
  }

  /** The OXTS packet fields the converter reads. */
  datatype OxtsPacket = OxtsPacket(
    lat: real, lon: real, alt: real,
    roll: real, pitch: real, yaw: real,
    vf: real, vl: real, vu: real,
    af: real, al: real, au: real,
    wf: real, wl: real, wu: real)

  /** One entry of kitti.oxts: the packet and the pose T_w_imu pykitti derives from it. */
  datatype Oxts = Oxts(packet: OxtsPacket, tWImu: Mat4)

  /** util['K_0x'], util['R_rect_0x'], util['D_0x'][0] and util['P_rect_0x'] of calib_cam_to_cam.txt, flattened. */
  datatype RawCalib = RawCalib(k: seq<real>, r: seq<real>, d: seq<real>, p: seq<real>)

  /** image_0x/: the sorted file names listed in its data/ directory, the lines of its timestamps.txt, the camera's calibration. */
  datatype RawCameraDir = RawCameraDir(files: seq<string>, timestampLines: seq<string>, calib: RawCalib)

  /**
   * pykitti.raw and pykitti.odometry. `dataPath` and `sequencePath` are
   * kitti.data_path and kitti.sequence_path, the directories the image
   * directories are joined to. Raw timestamps are seconds since the epoch;
   * odometry timestamps are offsets in seconds from the start of the sequence.
   * `groundTruth` is kitti.T_w_cam0, which exists only once load_poses() has run.
   */
  datatype Dataset =
    | Raw(dataPath: string, dataPathExists: bool, timestamps: seq<real>, oxts: seq<Oxts>,
          tVeloImu: Mat4, tCamImu: PerCamera<Mat4>,
          cameras: PerCamera<RawCameraDir>,
          veloFiles: seq<string>, veloTimestampLines: seq<string>)
    | Odometry(sequencePath: string, sequencePathExists: bool, timestamps: seq<real>,
               groundTruth: seq<Mat4>, posesLoaded: bool,
               cameraFiles: PerCamera<seq<string>>, projections: PerCamera<seq<real>>)
}
