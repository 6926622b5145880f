/**
 * The ROS 2 messages the converter writes, the float-seconds to (sec, nanosec)
 * split it applies to every stamp, and the foreign library calls it makes,
 * gathered in a record of functions so that the model can take them as given.
 */
module Messages {
  import opened Wrappers
  import opened Geometry

  /** builtin_interfaces/Time */
  datatype TimeMsg = TimeMsg(sec: int, nanosec: int)

  /** The stamp a freshly constructed message carries. */
  const ZeroTime := TimeMsg(0, 0)

  /** Python's int() on a float: truncation toward zero, so the result never moves away from zero. */
  function Trunc(x: real): (r: int)
    ensures x >= 0.0 ==> 0 <= r && r as real <= x < r as real + 1.0
    ensures x < 0.0 ==> r <= 0 && r as real - 1.0 < x <= r as real
  {
    if x >= 0.0 then x.Floor else -((-x).Floor)
  }

  /** Python's x % 1 on a float: the remainder of floored division. */
  function FracPart(x: real): (r: real)
    ensures 0.0 <= r < 1.0
    ensures x - r == x.Floor as real
  {
    x - x.Floor as real
  }

  /**
   * TimeMsg(sec=int(t), nanosec=int((t % 1) * 1e9)), the stamp every save_* routine
   * computes from seconds since the epoch.
   */
  function Stamp(t: real): (s: TimeMsg)
    ensures 0 <= s.nanosec < 1000000000
    ensures t >= 0.0 ==> s.sec as real + s.nanosec as real / 1000000000.0 <= t
    ensures t >= 0.0 ==> t < s.sec as real + (s.nanosec + 1) as real / 1000000000.0
  {
    TimeMsg(Trunc(t), Trunc(FracPart(t) * 1000000000.0))
  }

  predicate TimeLe(a: TimeMsg, b: TimeMsg)
  {
    a.sec < b.sec || (a.sec == b.sec && a.nanosec <= b.nanosec)
  }

  /** Later instants never get earlier stamps (for instants after the epoch). */
  lemma StampMonotone(t: real, u: real)
    requires 0.0 <= t <= u
    ensures TimeLe(Stamp(t), Stamp(u))
  {
    var s, v := Stamp(t), Stamp(u);
    assert s.sec <= v.sec;
    if s.sec == v.sec {
      assert FracPart(t) <= FracPart(u);
      assert FracPart(t) * 1000000000.0 <= FracPart(u) * 1000000000.0;
    }
  }

  datatype Header = Header(stamp: TimeMsg, frameId: string)
  datatype Vector3 = Vector3(x: real, y: real, z: real)
  datatype Quaternion = Quaternion(x: real, y: real, z: real, w: real)

  /** geometry_msgs/Transform */
  datatype Transform = Transform(translation: Vector3, rotation: Quaternion)

  /** geometry_msgs/TransformStamped */
  datatype TransformStamped = TransformStamped(header: Header, childFrameId: string, transform: Transform)

  /** sensor_msgs/PointField */
  datatype PointField = PointField(name: string, offset: nat, datatype_: nat, count: nat)

  /** PointField.FLOAT32 */
  const Float32: nat := 7

  /** sensor_msgs/NavSatStatus.SERVICE_GPS */
  const ServiceGps: int := 1

  /**
   * The messages written to the bag. An image payload is named by the path it is
   * read from, a point cloud by its file name in velodyne_points/data.
   */
  datatype Msg =
    | TFMessage(transforms: seq<TransformStamped>)
    | Imu(header: Header, orientation: Quaternion, angularVelocity: Vector3, linearAcceleration: Vector3)
    | NavSatFix(header: Header, service: int, latitude: real, longitude: real, altitude: real)
    | TwistStamped(header: Header, linear: Vector3, angular: Vector3)
    | Image(header: Header, height: nat, width: nat, encoding: string, source: string)
    | CameraInfo(header: Header, height: nat, width: nat, distortionModel: string,
                 d: seq<real>, k: seq<real>, r: seq<real>, p: seq<real>)
    | PointCloud2(header: Header, fields: seq<PointField>, source: string)

  /** One bag.write(topic, msg) call. */
  datatype Record = Record(topic: string, msg: Msg)

  /**
   * The foreign calls whose results the converter copies into messages:
   * tf_transformations.quaternion_from_matrix and quaternion_from_euler,
   * the (height, width) of cv2.imread(path), and datetime.strptime(s,
   * '%Y-%m-%d %H:%M:%S.%f').timestamp(), which is None when strptime raises.
   */
  datatype Library = Library(
    quaternionFromMatrix: Mat4 -> Quaternion,
    quaternionFromEuler: (real, real, real) -> Quaternion,
    imageShape: string -> (nat, nat),
    parseTime: string -> Option<real>)

  /** transform[0:3, 3] */
  function Translation(m: Mat4): (v: Vector3)
  {
    Vector3(m[0][3], m[1][3], m[2][3])
  }

  /** Copies a quaternion q as msg.x, .y, .z, .w = q[0], q[1], q[2], q[3]. */
  function FramedTransform(lib: Library, m: Mat4): (r: Transform)
  {
    Transform(Translation(m), lib.quaternionFromMatrix(m))
  }

  /** get_static_transform(from_frame_id, to_frame_id, transform) */
  function GetStaticTransform(lib: Library, fromFrameId: string, toFrameId: string, m: Mat4): (t: TransformStamped)
    ensures t.header == Header(ZeroTime, fromFrameId) && t.childFrameId == toFrameId
    ensures t.transform.translation == Vector3(m[0][3], m[1][3], m[2][3])
  {
    TransformStamped(Header(ZeroTime, fromFrameId), toFrameId, FramedTransform(lib, m))
  }

  /** The same transform with header.stamp replaced. */
  function Restamp(t: TransformStamped, s: TimeMsg): (r: TransformStamped)
  {
    t.(header := t.header.(stamp := s))
  }
}
