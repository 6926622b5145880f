/**
 * The command line of run_kitti2bag (kitti2bag.py, lines 258-291, 293 and
 * 343-348): the accepted sequence ids, the option checks that end the
 * program before any conversion, the bag file names, and the camera table.
 */
module Cli {
  import opened Wrappers
  import opened PyLib
  import opened Kitti
  import opened Variant

  /** The parsed arguments: kitti_type, dir (its cwd default already applied), -t, -r and -s. */
  datatype Args = Args(kittiType: string, dir: string, date: Option<string>, drive: Option<string>,
                       sequence: Option<string>)

  /** Why the program stops before converting. */
  datatype Reason = BadChoice | MissingDate | MissingDrive | MissingSequence

  /** What the command line asks for: a raw or an odometry conversion into bagName, or an exit. */
  datatype Command =
    | ConvertRaw(date: string, drive: string, bagName: string)
    | ConvertOdometry(sequence: string, bagName: string)
    | Usage(code: nat, reason: Reason)

  /** The two-digit spelling str(s).zfill(2) of a sequence number. */
  function SequenceId(s: nat): (r: string)
  {
    ZFill(DecimalString(s), 2)
  }

  /** The choices of -s: str(s).zfill(2) for s in range(22). */
  function SequenceIds(): (ids: seq<string>)
    ensures |ids| == 22
    ensures forall s :: 0 <= s < 22 ==> ids[s] == SequenceId(s)
  {
    seq(22, s requires 0 <= s < 22 => SequenceId(s))
  }

  /** The odometry_sequences loop. */
  method OdometrySequences() returns (odometrySequences: seq<string>)
    ensures odometrySequences == SequenceIds()
  {
    odometrySequences := [];
    for s := 0 to 22
      invariant odometrySequences == SequenceIds()[..s]
    {
      odometrySequences := odometrySequences + [SequenceId(s)];
      assert SequenceIds()[..s + 1] == SequenceIds()[..s] + [SequenceIds()[s]];
    }
    assert SequenceIds()[..22] == SequenceIds();
  }

  predicate IsTwoDigits(x: string)
  {
    |x| == 2 && IsDigit(x[0]) && IsDigit(x[1])
  }

  lemma TwoDigitValue(x: string)
    requires IsTwoDigits(x)
    ensures DecimalValue(x) == 10 * DigitValue(x[0]) + DigitValue(x[1])
  {
    var head := x[..1];
    assert head[..0] == [] && head[0] == x[0];
    assert DecimalValue(head) == DigitValue(x[0]);
  }

  /** Entry s of the choices is the two-digit spelling of s. */
  lemma SequenceIdAt(s: nat)
    requires s < 22
    ensures IsTwoDigits(SequenceIds()[s]) && DecimalValue(SequenceIds()[s]) == s
  {
    var d := DecimalString(s);
    var x := SequenceIds()[s];
    assert x == SequenceId(s) == ZFill(d, 2);
    if s < 10 {
      assert x == ['0'] + d;
      assert d[..0] == [];
      assert DecimalValue(d) == DigitValue(d[0]);
    } else {
      assert x == d;
    }
    TwoDigitValue(x);
  }

  /** Two-digit strings are determined by the number they spell. */
  lemma TwoDigitsInjective(x: string, y: string)
    requires IsTwoDigits(x) && IsTwoDigits(y) && DecimalValue(x) == DecimalValue(y)
    ensures x == y
  {
    TwoDigitValue(x);
    TwoDigitValue(y);
  }

  /** -s accepts exactly the two-digit strings "00" to "21". */
  lemma SequenceIdMembers(x: string)
    ensures x in SequenceIds() <==> IsTwoDigits(x) && DecimalValue(x) <= 21
  {
    var ids := SequenceIds();
    if x in ids {
      var s :| 0 <= s < 22 && ids[s] == x;
      SequenceIdAt(s);
    }
    if IsTwoDigits(x) && DecimalValue(x) <= 21 {
      var s := DecimalValue(x);
      SequenceIdAt(s);
      TwoDigitsInjective(x, ids[s]);
    }
  }

  lemma GatedIdsAtMostTen(x: string)
    ensures x in SequenceIds()[..11] ==> IsTwoDigits(x) && DecimalValue(x) <= 10
  {
    var ids := SequenceIds();
    var gated := ids[..11];
    if x in gated {
      var s :| 0 <= s < 11 && gated[s] == x;
      assert ids[s] == x;
      SequenceIdAt(s);
    }
  }

  lemma AtMostTenGated(x: string)
    ensures IsTwoDigits(x) && DecimalValue(x) <= 10 ==> x in SequenceIds()[..11]
  {
    var ids := SequenceIds();
    if IsTwoDigits(x) && DecimalValue(x) <= 10 {
      var s := DecimalValue(x);
      SequenceIdAt(s);
      TwoDigitsInjective(x, ids[s]);
      assert ids[..11][s] == x;
    }
  }

  /** odometry_sequences[:11]: ground truth poses are loaded exactly for sequences 00 to 10. */
  lemma GroundTruthGate(x: string)
    ensures x in SequenceIds()[..11] <==> IsTwoDigits(x) && DecimalValue(x) <= 10
  {
    GatedIdsAtMostTen(x);
    AtMostTenGated(x);
  }

  /**
   * f"kitti_{date}_drive_{drive}_{kitti_type[4:]}.bag": a .bag file whose name
   * holds the date, the drive and the variant name, each at its place.
   */
  function RawBagName(kittiType: string, date: string, drive: string): (r: string)
    ensures |r| == |date| + |drive| + 18 + |SliceFrom(kittiType, 4)|
    ensures r[..|date| + |drive| + 13] == "kitti_" + date + "_drive_" + drive
    ensures r[|date| + |drive| + 13] == '_'
    ensures r[|date| + |drive| + 14..|r| - 4] == SliceFrom(kittiType, 4)
    ensures r[|r| - 4..] == ".bag"
  {
    "kitti_" + date + "_drive_" + drive + "_" + SliceFrom(kittiType, 4) + ".bag"
  }

  /**
   * f"kitti_data_odometry_{kitti_type[5:]}_sequence_{sequence}.bag": a .bag
   * file of the odometry data whose name holds the variant name and ends with the sequence.
   */
  function OdometryBagName(kittiType: string, sequence: string): (r: string)
    ensures |r| == |sequence| + 34 + |SliceFrom(kittiType, 5)|
    ensures r[..20] == "kitti_data_odometry_"
    ensures r[20..20 + |SliceFrom(kittiType, 5)|] == SliceFrom(kittiType, 5)
    ensures r[20 + |SliceFrom(kittiType, 5)|..] == "_sequence_" + sequence + ".bag"
  {
    "kitti_data_odometry_" + SliceFrom(kittiType, 5) + "_sequence_" + sequence + ".bag"
  }

  /** The slice kitti_type[4:] keeps the variant name: raw_synced gives "synced". */
  lemma RawBagNameSynced(date: string, drive: string)
    ensures RawBagName("raw_synced", date, drive) == "kitti_" + date + "_drive_" + drive + "_synced.bag"
  {
    assert SliceFrom("raw_synced", 4) == "synced";
  }

  /** The slice kitti_type[5:] keeps the variant name: odom_color gives "color". */
  lemma OdometryBagNameColor(sequence: string)
    ensures OdometryBagName("odom_color", sequence) == "kitti_data_odometry_color_sequence_" + sequence + ".bag"
  {
    assert SliceFrom("odom_color", 5) == "color";
  }

  /** The slice kitti_type[5:] keeps the variant name: odom_gray gives "gray". */
  lemma OdometryBagNameGray(sequence: string)
    ensures OdometryBagName("odom_gray", sequence) == "kitti_data_odometry_gray_sequence_" + sequence + ".bag"
  {
    assert SliceFrom("odom_gray", 5) == "gray";
  }

  /** argparse's choices: a known kitti_type and, when -s is given, one of the sequence ids. */
  predicate ValidChoices(args: Args)
  {
    args.kittiType in KittiTypes && (args.sequence.Some? ==> args.sequence.value in SequenceIds())
  }

  /**
   * argparse rejects a kitti_type or -s outside its choices (exit 2); then a
   * raw conversion needs -t, checked first, and -r, and an odometry one
   * needs -s (exit 1). A conversion converts exactly the date, drive or
   * sequence given, into the bag named after them.
   */
  function ParseCommand(args: Args): (r: Command)
    ensures r.Usage? ==> (r.code == 2 <==> r.reason == BadChoice) && (r.code == 1 || r.code == 2)
    ensures !ValidChoices(args) <==> r == Usage(2, BadChoice)
    ensures r.ConvertRaw? ==> && IsRaw(args.kittiType) && args.date == Some(r.date) && args.drive == Some(r.drive)
                              && r.bagName == RawBagName(args.kittiType, r.date, r.drive)
    ensures r.ConvertOdometry? ==> && !IsRaw(args.kittiType) && args.sequence == Some(r.sequence)
                                   && r.sequence in SequenceIds()
                                   && r.bagName == OdometryBagName(args.kittiType, r.sequence)
  {
    if !ValidChoices(args) then
      Usage(2, BadChoice)
    else if IsRaw(args.kittiType) then
      if args.date.None? then Usage(1, MissingDate)
      else if args.drive.None? then Usage(1, MissingDrive)
      else ConvertRaw(args.date.value, args.drive.value, RawBagName(args.kittiType, args.date.value, args.drive.value))
    else
      if args.sequence.None? then Usage(1, MissingSequence)
      else ConvertOdometry(args.sequence.value, OdometryBagName(args.kittiType, args.sequence.value))
  }

  /**
   * With valid choices the program stops with exit code 1 exactly when the
   * dataset type misses a mandatory option; -t is reported before -r; raw
   * conversions go to raw_synced and odometry ones to odom_color/odom_gray.
   */
  lemma MandatoryOptions(args: Args)
    requires args.kittiType in KittiTypes
    requires args.sequence.Some? ==> args.sequence.value in SequenceIds()
    ensures var c := ParseCommand(args);
      && (c.Usage? <==> if args.kittiType == "raw_synced" then args.date.None? || args.drive.None?
                        else args.sequence.None?)
      && (c.Usage? ==> c.code == 1)
      && (args.kittiType == "raw_synced" && args.date.None? ==> c == Usage(1, MissingDate))
      && (c.ConvertRaw? <==> args.kittiType == "raw_synced" && args.date.Some? && args.drive.Some?)
      && (c.ConvertOdometry? ==> IsOdom(args.kittiType) && c.sequence in SequenceIds())
  {
    Dispatch(args.kittiType);
  }

  /** An odometry conversion is only ever asked for with odom_color or odom_gray, so the gray/color test decides. */
  lemma OdometryCommand(args: Args)
    requires ParseCommand(args).ConvertOdometry?
    ensures !IsRaw(args.kittiType) && IsOdom(args.kittiType)
    ensures IsGray(args.kittiType) || IsColor(args.kittiType)
  {
    Dispatch(args.kittiType);
  }

  /** A value outside the choices ends the program with exit code 2, whatever else is given. */
  lemma BadChoiceExitsWithTwo(args: Args)
    requires args.kittiType !in KittiTypes || (args.sequence.Some? && args.sequence.value !in SequenceIds())
    ensures ParseCommand(args) == Usage(2, BadChoice)
  {
  }

  /** One row of the cameras table: number, frame id and topic prefix. */
  datatype CameraEntry = CameraEntry(id: CameraId, frameId: string, topic: string)

  const Cameras: seq<CameraEntry> := [
    CameraEntry(0, "camera_gray_left", "/kitti/camera_gray_left"),
    CameraEntry(1, "camera_gray_right", "/kitti/camera_gray_right"),
    CameraEntry(2, "camera_color_left", "/kitti/camera_color_left"),
    CameraEntry(3, "camera_color_right", "/kitti/camera_color_right")]

  /**
   * used_cameras: cameras[:2] for a gray sequence, cameras[-2:] for a color one.
   * A gray sequence exports cameras 0 and 1, a color one cameras 2 and 3, each
   * under its own row of the table.
   */
  function UsedCameras(kittiType: string): (r: seq<CameraEntry>)
    requires IsGray(kittiType) || IsColor(kittiType)
    ensures |r| == 2
    ensures IsGray(kittiType) ==> r[0].id == 0 && r[1].id == 1
    ensures !IsGray(kittiType) ==> r[0].id == 2 && r[1].id == 3
    ensures forall i :: 0 <= i < 2 ==> r[i] == Cameras[r[i].id]
  {
    if IsGray(kittiType) then Cameras[..2] else Cameras[|Cameras| - 2..]
  }
}
