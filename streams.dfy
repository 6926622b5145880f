/**
 * The per-stream writers of kitti2bag.py: save_dynamic_tf (lines 60-104),
 * save_imu_data (41-58), save_gps_fix_data (233-242), save_gps_vel_data
 * (244-255) and save_velo_data (158-194). Each zips a timestamp list with a
 * record list and writes one message per pair, so each stream is as long as
 * the shorter of its inputs.
 */
module Streams {
  import opened Wrappers
  import opened PyLib
  import opened Geometry
  import opened Messages
  import opened BagFile
  import opened Kitti
  import opened Variant
  import opened TimestampLog

  const TfTopic := "/tf"
  const WorldFrame := "world"

  /** [initial_time + x.total_seconds() for x in kitti.timestamps] */
  function OffsetTimes(initialTime: real, offsets: seq<real>): (times: seq<real>)
    ensures |times| == |offsets|
    ensures forall i :: 0 <= i < |offsets| ==> times[i] - offsets[i] == initialTime
  {
    seq(|offsets|, i requires 0 <= i < |offsets| => initialTime + offsets[i])
  }

  /** A TFMessage holding the single pose world -> child at time t. */
  function PoseMsg(lib: Library, child: string, t: real, pose: Mat4): (r: Msg)
  {
    TFMessage([TransformStamped(Header(Stamp(t), WorldFrame), child, FramedTransform(lib, pose))])
  }

  /** The /tf records of a raw dataset: one per (timestamp, oxts) pair, the pose being oxts.T_w_imu. */
  function RawPoseRecords(lib: Library, times: seq<real>, oxts: seq<Oxts>): (r: seq<Record>)
    ensures |r| == Min(|times|, |oxts|)
    ensures forall i :: 0 <= i < |r| ==> r[i] == Record(TfTopic, PoseMsg(lib, "base_link", times[i], oxts[i].tWImu))
  {
    var z := Zip(times, oxts);
    seq(|z|, i requires 0 <= i < |z| => Record(TfTopic, PoseMsg(lib, "base_link", z[i].0, z[i].1.tWImu)))
  }

  /** The /tf records of an odometry dataset: one per (time, T_w_cam0) pair. */
  function OdomPoseRecords(lib: Library, times: seq<real>, poses: seq<Mat4>): (r: seq<Record>)
    ensures |r| == Min(|times|, |poses|)
    ensures forall i :: 0 <= i < |r| ==> r[i] == Record(TfTopic, PoseMsg(lib, "camera_left", times[i], poses[i]))
  {
    var z := Zip(times, poses);
    seq(|z|, i requires 0 <= i < |z| => Record(TfTopic, PoseMsg(lib, "camera_left", z[i].0, z[i].1)))
  }

  /** What save_dynamic_tf writes; None when kitti.T_w_cam0 was never loaded (the attribute lookup raises). */
  function DynamicTfRecords(lib: Library, kitti: Dataset, initialTime: real): (r: Option<seq<Record>>)
  {
    match kitti
    case Raw(_, _, _, _, _, _, _, _, _) => Some(RawPoseRecords(lib, kitti.timestamps, kitti.oxts))
    case Odometry(_, _, _, _, _, _, _) =>
      if kitti.posesLoaded then Some(OdomPoseRecords(lib, OffsetTimes(initialTime, kitti.timestamps), kitti.groundTruth))
      else None
  }

  /** The time of the i-th pose: the absolute raw timestamp, or the epoch of the run plus the odometry offset. */
  function PoseTime(kitti: Dataset, initialTime: real, i: nat): (r: real)
    requires i < |kitti.timestamps|
  {
    if kitti.Raw? then kitti.timestamps[i] else initialTime + kitti.timestamps[i]
  }

  /**
   * save_dynamic_tf writes min(|timestamps|, |poses|) records on /tf, in input
   * order, each holding one transform from 'world' to 'base_link' (raw) or
   * 'camera_left' (odometry), translated by column 3 of the pose.
   */
  lemma DynamicTfShape(lib: Library, kitti: Dataset, initialTime: real)
    requires DynamicTfRecords(lib, kitti, initialTime).Some?
    ensures var r := DynamicTfRecords(lib, kitti, initialTime).value;
      var poses := if kitti.Raw? then |kitti.oxts| else |kitti.groundTruth|;
      && |r| == Min(|kitti.timestamps|, poses)
      && forall i :: 0 <= i < |r| ==>
        && r[i].topic == TfTopic
        && r[i].msg.TFMessage? && |r[i].msg.transforms| == 1
        && r[i].msg.transforms[0].header == Header(Stamp(PoseTime(kitti, initialTime, i)), WorldFrame)
        && r[i].msg.transforms[0].childFrameId == (if kitti.Raw? then "base_link" else "camera_left")
        && r[i].msg.transforms[0].transform.translation
           == Translation(if kitti.Raw? then kitti.oxts[i].tWImu else kitti.groundTruth[i])
  {
  }

  /** Ordered timestamps (after the epoch) give /tf records with non-decreasing stamps. */
  lemma DynamicTfStampsOrdered(lib: Library, kitti: Dataset, initialTime: real, i: nat, j: nat)
    requires DynamicTfRecords(lib, kitti, initialTime).Some?
    requires i <= j < |DynamicTfRecords(lib, kitti, initialTime).value|
    requires 0.0 <= PoseTime(kitti, initialTime, i) <= PoseTime(kitti, initialTime, j)
    ensures var r := DynamicTfRecords(lib, kitti, initialTime).value;
      r[i].msg.TFMessage? && r[j].msg.TFMessage? && |r[i].msg.transforms| == 1 && |r[j].msg.transforms| == 1
      && TimeLe(r[i].msg.transforms[0].header.stamp, r[j].msg.transforms[0].header.stamp)
  {
    DynamicTfShape(lib, kitti, initialTime);
    StampMonotone(PoseTime(kitti, initialTime, i), PoseTime(kitti, initialTime, j));
  }

  /** save_dynamic_tf(bag, kitti, kitti_type, initial_time); ok is false when it raises. */
  method SaveDynamicTf(bag: BagWriter, lib: Library, kitti: Dataset, kittiType: string, initialTime: real)
    returns (ok: bool)
    requires !bag.closed
    requires IsRaw(kittiType) <==> kitti.Raw?
    requires kitti.Odometry? ==> IsOdom(kittiType)
    modifies bag
    ensures !bag.closed
    ensures ok == DynamicTfRecords(lib, kitti, initialTime).Some?
    ensures bag.log == old(bag.log) + (if ok then DynamicTfRecords(lib, kitti, initialTime).value else [])
  {
    if IsRaw(kittiType) {
      assert kitti.Raw?;
      var z := Zip(kitti.timestamps, kitti.oxts);
      ghost var r := RawPoseRecords(lib, kitti.timestamps, kitti.oxts);
      for i := 0 to |z|
        invariant !bag.closed
        invariant bag.log == old(bag.log) + r[..i]
      {
        var (timestamp, oxts) := z[i];
        assert r[i] == Record(TfTopic, PoseMsg(lib, "base_link", timestamp, oxts.tWImu));
        bag.Write(TfTopic, PoseMsg(lib, "base_link", timestamp, oxts.tWImu));
        assert r[..i + 1] == r[..i] + [r[i]];
      }
      assert r[..|z|] == r;
      assert DynamicTfRecords(lib, kitti, initialTime) == Some(r);
      ok := true;
    } else if IsOdom(kittiType) {
      assert kitti.Odometry?;
      if !kitti.posesLoaded {
        return false;
      }
      var timestamps := OffsetTimes(initialTime, kitti.timestamps);
      var z := Zip(timestamps, kitti.groundTruth);
      ghost var r := OdomPoseRecords(lib, timestamps, kitti.groundTruth);
      for i := 0 to |z|
        invariant !bag.closed
        invariant bag.log == old(bag.log) + r[..i]
      {
        var (timestamp, tfMatrix) := z[i];
        assert r[i] == Record(TfTopic, PoseMsg(lib, "camera_left", timestamp, tfMatrix));
        bag.Write(TfTopic, PoseMsg(lib, "camera_left", timestamp, tfMatrix));
        assert r[..i + 1] == r[..i] + [r[i]];
      }
      assert r[..|z|] == r;
      assert DynamicTfRecords(lib, kitti, initialTime) == Some(r);
      ok := true;
    }
  }

  /** The Imu message of one (timestamp, oxts) pair. */
  function ImuMsg(lib: Library, frameId: string, t: real, p: OxtsPacket): (r: Msg)
  {
    Imu(Header(Stamp(t), frameId), lib.quaternionFromEuler(p.roll, p.pitch, p.yaw),
        Vector3(p.wf, p.wl, p.wu), Vector3(p.af, p.al, p.au))
  }

  /**
   * What save_imu_data writes: one Imu per pair on `topic`, its orientation the
   * quaternion of (roll, pitch, yaw), its acceleration (af, al, au) and its
   * angular velocity (wf, wl, wu), copied without relabelling.
   */
  function ImuRecords(lib: Library, frameId: string, topic: string, times: seq<real>, oxts: seq<Oxts>): (r: seq<Record>)
    ensures |r| == Min(|times|, |oxts|)
    ensures forall i :: 0 <= i < |r| ==>
      && r[i].topic == topic && r[i].msg.Imu?
      && r[i].msg.header == Header(Stamp(times[i]), frameId)
      && r[i].msg.orientation == lib.quaternionFromEuler(oxts[i].packet.roll, oxts[i].packet.pitch, oxts[i].packet.yaw)
      && r[i].msg.linearAcceleration == Vector3(oxts[i].packet.af, oxts[i].packet.al, oxts[i].packet.au)
      && r[i].msg.angularVelocity == Vector3(oxts[i].packet.wf, oxts[i].packet.wl, oxts[i].packet.wu)
  {
    var z := Zip(times, oxts);
    seq(|z|, i requires 0 <= i < |z| => Record(topic, ImuMsg(lib, frameId, z[i].0, z[i].1.packet)))
  }

  /** save_imu_data(bag, kitti, imu_frame_id, topic) */
  method SaveImuData(bag: BagWriter, lib: Library, kitti: Dataset, imuFrameId: string, topic: string)
    requires !bag.closed && kitti.Raw?
    modifies bag
    ensures !bag.closed
    ensures bag.log == old(bag.log) + ImuRecords(lib, imuFrameId, topic, kitti.timestamps, kitti.oxts)
  {
    var z := Zip(kitti.timestamps, kitti.oxts);
    ghost var r := seq(|z|, i requires 0 <= i < |z| => Record(topic, ImuMsg(lib, imuFrameId, z[i].0, z[i].1.packet)));
    for i := 0 to |z|
      invariant !bag.closed
      invariant bag.log == old(bag.log) + r[..i]
    {
      var (timestamp, oxts) := z[i];
      assert r[i] == Record(topic, ImuMsg(lib, imuFrameId, timestamp, oxts.packet));
      bag.Write(topic, ImuMsg(lib, imuFrameId, timestamp, oxts.packet));
      assert r[..i + 1] == r[..i] + [r[i]];
    }
    assert r[..|z|] == r;
    assert r == ImuRecords(lib, imuFrameId, topic, kitti.timestamps, kitti.oxts);
  }

  /**
   * What save_gps_fix_data writes: one NavSatFix per pair on `topic`, copying
   * latitude, longitude and altitude, always with service GPS.
   */
  function GpsFixRecords(frameId: string, topic: string, times: seq<real>, oxts: seq<Oxts>): (r: seq<Record>)
    ensures |r| == Min(|times|, |oxts|)
    ensures forall i :: 0 <= i < |r| ==>
      && r[i].topic == topic && r[i].msg.NavSatFix?
      && r[i].msg.header == Header(Stamp(times[i]), frameId)
      && r[i].msg.service == ServiceGps
      && r[i].msg.latitude == oxts[i].packet.lat
      && r[i].msg.longitude == oxts[i].packet.lon
      && r[i].msg.altitude == oxts[i].packet.alt
  {
    var z := Zip(times, oxts);
    seq(|z|, i requires 0 <= i < |z| =>
      Record(topic, NavSatFix(Header(Stamp(z[i].0), frameId), ServiceGps,
                              z[i].1.packet.lat, z[i].1.packet.lon, z[i].1.packet.alt)))
  }

  /** save_gps_fix_data(bag, kitti, gps_frame_id, topic) */
  method SaveGpsFixData(bag: BagWriter, kitti: Dataset, gpsFrameId: string, topic: string)
    requires !bag.closed && kitti.Raw?
    modifies bag
    ensures !bag.closed
    ensures bag.log == old(bag.log) + GpsFixRecords(gpsFrameId, topic, kitti.timestamps, kitti.oxts)
  {
    var z := Zip(kitti.timestamps, kitti.oxts);
    ghost var r := GpsFixRecords(gpsFrameId, topic, kitti.timestamps, kitti.oxts);
    for i := 0 to |z|
      invariant !bag.closed
      invariant bag.log == old(bag.log) + r[..i]
    {
      var (timestamp, oxts) := z[i];
      var navsatfix := NavSatFix(Header(Stamp(timestamp), gpsFrameId), ServiceGps,
                                 oxts.packet.lat, oxts.packet.lon, oxts.packet.alt);
      assert r[i] == Record(topic, navsatfix);
      bag.Write(topic, navsatfix);
      assert r[..i + 1] == r[..i] + [r[i]];
    }
    assert r[..|z|] == r;
  }

  /**
   * What save_gps_vel_data writes: one TwistStamped per pair on `topic`, its
   * linear part (vf, vl, vu) and its angular part (wf, wl, wu).
   */
  function GpsVelRecords(frameId: string, topic: string, times: seq<real>, oxts: seq<Oxts>): (r: seq<Record>)
    ensures |r| == Min(|times|, |oxts|)
    ensures forall i :: 0 <= i < |r| ==>
      && r[i].topic == topic && r[i].msg.TwistStamped?
      && r[i].msg.header == Header(Stamp(times[i]), frameId)
      && r[i].msg.linear == Vector3(oxts[i].packet.vf, oxts[i].packet.vl, oxts[i].packet.vu)
      && r[i].msg.angular == Vector3(oxts[i].packet.wf, oxts[i].packet.wl, oxts[i].packet.wu)
  {
    var z := Zip(times, oxts);
    seq(|z|, i requires 0 <= i < |z| =>
      Record(topic, TwistStamped(Header(Stamp(z[i].0), frameId),
                                 Vector3(z[i].1.packet.vf, z[i].1.packet.vl, z[i].1.packet.vu),
                                 Vector3(z[i].1.packet.wf, z[i].1.packet.wl, z[i].1.packet.wu))))
  }

  /** save_gps_vel_data(bag, kitti, gps_frame_id, topic) */
  method SaveGpsVelData(bag: BagWriter, kitti: Dataset, gpsFrameId: string, topic: string)
    requires !bag.closed && kitti.Raw?
    modifies bag
    ensures !bag.closed
    ensures bag.log == old(bag.log) + GpsVelRecords(gpsFrameId, topic, kitti.timestamps, kitti.oxts)
  {
    var z := Zip(kitti.timestamps, kitti.oxts);
    ghost var r := GpsVelRecords(gpsFrameId, topic, kitti.timestamps, kitti.oxts);
    for i := 0 to |z|
      invariant !bag.closed
      invariant bag.log == old(bag.log) + r[..i]
    {
      var (timestamp, oxts) := z[i];
      var twist := TwistStamped(Header(Stamp(timestamp), gpsFrameId),
                                Vector3(oxts.packet.vf, oxts.packet.vl, oxts.packet.vu),
                                Vector3(oxts.packet.wf, oxts.packet.wl, oxts.packet.wu));
      assert r[i] == Record(topic, twist);
      bag.Write(topic, twist);
      assert r[..i + 1] == r[..i] + [r[i]];
    }
    assert r[..|z|] == r;
  }

  /**
   * The fields list of save_velo_data: x, y, z and intensity 'i', each one
   * FLOAT32 at byte offsets 0, 4, 8 and 12, so a point takes 16 bytes.
   */
  function VeloFields(): (f: seq<PointField>)
    ensures |f| == 4
    ensures forall k :: 0 <= k < 4 ==> f[k].offset == 4 * k && f[k].datatype_ == Float32 && f[k].count == 1
    ensures [f[0].name, f[1].name, f[2].name, f[3].name] == ["x", "y", "z", "i"]
  {
    [PointField("x", 0, Float32, 1), PointField("y", 4, Float32, 1),
     PointField("z", 8, Float32, 1), PointField("i", 12, Float32, 1)]
  }

  /** One PointCloud2 on topic + '/pointcloud' per (datetime, file name) pair. */
  function VeloRecords(frameId: string, topic: string, times: seq<real>, files: seq<string>): (r: seq<Record>)
    ensures |r| == Min(|times|, |files|)
    ensures forall i :: 0 <= i < |r| ==>
      r[i] == Record(topic + "/pointcloud", PointCloud2(Header(Stamp(times[i]), frameId), VeloFields(), files[i]))
  {
    var z := Zip(times, files);
    seq(|z|, i requires 0 <= i < |z| =>
      Record(topic + "/pointcloud", PointCloud2(Header(Stamp(z[i].0), frameId), VeloFields(), z[i].1)))
  }

  /** What save_velo_data writes; None when strptime raises on a kept timestamp line. */
  function VeloDataRecords(lib: Library, lines: seq<string>, files: seq<string>, frameId: string, topic: string)
    : (r: Option<seq<Record>>)
  {
    match ParseAll(lib, KeptLines(lines))
    case None => None
    case Some(times) => Some(VeloRecords(frameId, topic, times, files))
  }

  /**
   * With well-formed timestamp lines, save_velo_data writes one point cloud per
   * pair of a kept line (one that is not a single character) and a file name:
   * min(|kept lines|, |files|) records, each stamped with its own line.
   */
  lemma VeloDataShape(lib: Library, lines: seq<string>, files: seq<string>, frameId: string, topic: string)
    requires forall s :: s in KeptLines(lines) ==> lib.parseTime(s).Some?
    ensures VeloDataRecords(lib, lines, files, frameId, topic).Some?
    ensures var r := VeloDataRecords(lib, lines, files, frameId, topic).value;
      var kept := KeptLines(lines);
      && |r| == Min(|kept|, |files|)
      && forall i :: 0 <= i < |r| ==>
        && r[i].topic == topic + "/pointcloud"
        && r[i].msg.PointCloud2?
        && r[i].msg.header == Header(Stamp(lib.parseTime(kept[i]).value), frameId)
        && r[i].msg.source == files[i]
  {
    var kept := KeptLines(lines);
    forall i | 0 <= i < |kept| ensures lib.parseTime(kept[i]).Some? {
      assert kept[i] in kept;
    }
    ParseAllSpec(lib, kept);
  }

  /** The loop of save_velo_data: one point cloud per (datetime, file name) pair, in order. */
  method WriteVeloRecords(bag: BagWriter, frameId: string, topic: string, times: seq<real>, files: seq<string>)
    requires !bag.closed
    modifies bag
    ensures !bag.closed
    ensures bag.log == old(bag.log) + VeloRecords(frameId, topic, times, files)
  {
    var pointcloudTopic := topic + "/pointcloud";
    var z := Zip(times, files);
    ghost var r := VeloRecords(frameId, topic, times, files);
    for i := 0 to |z|
      invariant !bag.closed
      invariant bag.log == old(bag.log) + r[..i]
    {
      var (dt, filename) := z[i];
      var header := Header(Stamp(dt), frameId);
      assert r[i] == Record(pointcloudTopic, PointCloud2(header, VeloFields(), filename));
      bag.Write(pointcloudTopic, PointCloud2(header, VeloFields(), filename));
      assert r[..i + 1] == r[..i] + [r[i]];
    }
    assert r[..|z|] == r;
  }

  /** save_velo_data(bag, kitti, velo_frame_id, topic); ok is false when strptime raises. */
  method SaveVeloData(bag: BagWriter, lib: Library, kitti: Dataset, veloFrameId: string, topic: string)
    returns (ok: bool)
    requires !bag.closed && kitti.Raw?
    modifies bag
    ensures !bag.closed
    ensures ok == VeloDataRecords(lib, kitti.veloTimestampLines, kitti.veloFiles, veloFrameId, topic).Some?
    ensures bag.log == old(bag.log)
      + (if ok then VeloDataRecords(lib, kitti.veloTimestampLines, kitti.veloFiles, veloFrameId, topic).value else [])
  {
    var veloDatetimes := ReadVeloTimestamps(lib, kitti.veloTimestampLines);
    if veloDatetimes.None? {
      return false;
    }
    WriteVeloRecords(bag, veloFrameId, topic, veloDatetimes.value, kitti.veloFiles);
    ok := true;
  }
}
