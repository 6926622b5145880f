/**
 * save_static_transforms (kitti2bag.py, lines 221-231): builds one TFMessage
 * holding every static transform, then, for each timestamp, restamps the
 * transforms one at a time and writes the whole message after each restamp.
 */
module StaticTf {
  import opened Geometry
  import opened Messages
  import opened BagFile

  /** One entry of the `transforms` list: (from_frame_id, to_frame_id, matrix). */
  datatype StaticTransform = StaticTransform(parent: string, child: string, matrix: Mat4)

  const TfStaticTopic := "/tf_static"

  /**
   * tfm.transforms once the first loop has appended get_static_transform of every entry:
   * entry i becomes the unstamped transform from its parent to its child frame, translated
   * by the last column of its matrix.
   */
  function StaticTransformList(lib: Library, transforms: seq<StaticTransform>): (r: seq<TransformStamped>)
    ensures |r| == |transforms|
    ensures forall i :: 0 <= i < |r| ==>
      && r[i].header == Header(ZeroTime, transforms[i].parent)
      && r[i].childFrameId == transforms[i].child
      && r[i].transform.translation == Vector3(transforms[i].matrix[0][3], transforms[i].matrix[1][3], transforms[i].matrix[2][3])
  {
    seq(|transforms|, i requires 0 <= i < |transforms| =>
      GetStaticTransform(lib, transforms[i].parent, transforms[i].child, transforms[i].matrix))
  }

  /** The stamp the transforms carry when timestamp k starts: the previous timestamp's, or the default. */
  function PrevStamp(times: seq<real>, k: nat): (s: TimeMsg)
    requires k <= |times|
  {
    if k == 0 then ZeroTime else Stamp(times[k - 1])
  }

  /** The transforms with 0..j restamped to `now` and the rest to `before`. */
  function StampedUpTo(base: seq<TransformStamped>, now: TimeMsg, before: TimeMsg, j: int): (r: seq<TransformStamped>)
  {
    seq(|base|, i requires 0 <= i < |base| => Restamp(base[i], if i <= j then now else before))
  }

  /** The |base| writes made for one timestamp. */
  function StaticBlock(base: seq<TransformStamped>, now: TimeMsg, before: TimeMsg): (r: seq<Record>)
  {
    seq(|base|, j requires 0 <= j < |base| => Record(TfStaticTopic, TFMessage(StampedUpTo(base, now, before, j))))
  }

  /** Everything save_static_transforms writes for the given timestamps, block after block. */
  function StaticTfRecords(base: seq<TransformStamped>, times: seq<real>): (r: seq<Record>)
    decreases |times|
  {
    if times == [] then []
    else
      var n := |times| - 1;
      StaticTfRecords(base, times[..n]) + StaticBlock(base, Stamp(times[n]), PrevStamp(times, n))
  }

  lemma {:induction false} StaticTfRecordsLength(base: seq<TransformStamped>, times: seq<real>)
    ensures |StaticTfRecords(base, times)| == |times| * |base|
  {
    if times != [] {
      StaticTfRecordsLength(base, times[..|times| - 1]);
      assert (|times| - 1) * |base| + |base| == |times| * |base|;
    }
  }

  /** Multiplying by a block length keeps the order of block numbers. */
  lemma BlockStartMonotone(k: nat, n: nat, b: nat)
    requires k <= n
    ensures k * b <= n * b
    ensures n * b + b == (n + 1) * b
  {
  }

  /** Write j of timestamp k sits at position k * |base| + j. */
  lemma {:induction false} StaticTfRecordsAt(base: seq<TransformStamped>, times: seq<real>, k: nat, j: nat)
    requires k < |times| && j < |base|
    ensures |StaticTfRecords(base, times)| == |times| * |base|
    ensures k * |base| + j < |times| * |base|
    ensures StaticTfRecords(base, times)[k * |base| + j]
         == Record(TfStaticTopic, TFMessage(StampedUpTo(base, Stamp(times[k]), PrevStamp(times, k), j)))
  {
    var b, n := |base|, |times| - 1;
    var init := times[..n];
    StaticTfRecordsLength(base, times);
    StaticTfRecordsLength(base, init);
    BlockStartMonotone(k, n, b);
    var head, block := StaticTfRecords(base, init), StaticBlock(base, Stamp(times[n]), PrevStamp(times, n));
    assert StaticTfRecords(base, times) == head + block;
    if k < n {
      BlockStartMonotone(k + 1, n, b);
      StaticTfRecordsAt(base, init, k, j);
      assert init[k] == times[k];
      assert PrevStamp(init, k) == PrevStamp(times, k);
      assert StaticTfRecords(base, times)[k * b + j] == head[k * b + j];
    } else {
      assert StaticTfRecords(base, times)[k * b + j] == block[j];
    }
  }

  /**
   * What the converter promises about /tf_static: |timestamps| * |transforms| writes;
   * write j for timestamp k carries every transform in list order, with the
   * frame ids of its tuple, column 3 of its matrix as translation, and the new stamp
   * on transforms 0..j while the rest still carry the previous timestamp's stamp.
   */
  lemma StaticTfRecordContents(lib: Library, transforms: seq<StaticTransform>, times: seq<real>, k: nat, j: nat, i: nat)
    requires k < |times| && j < |transforms| && i < |transforms|
    ensures |StaticTfRecords(StaticTransformList(lib, transforms), times)| == |times| * |transforms|
    ensures k * |transforms| + j < |times| * |transforms|
    ensures var r := StaticTfRecords(StaticTransformList(lib, transforms), times)[k * |transforms| + j];
      && r.topic == TfStaticTopic
      && r.msg.TFMessage?
      && |r.msg.transforms| == |transforms|
      && r.msg.transforms[i].header.frameId == transforms[i].parent
      && r.msg.transforms[i].childFrameId == transforms[i].child
      && r.msg.transforms[i].transform == Transform(Translation(transforms[i].matrix), lib.quaternionFromMatrix(transforms[i].matrix))
      && r.msg.transforms[i].header.stamp == (if i <= j then Stamp(times[k]) else PrevStamp(times, k))
  {
    StaticTfRecordsAt(StaticTransformList(lib, transforms), times, k, j);
  }

  /** After the last write of a timestamp every transform carries that timestamp's stamp. */
  lemma EndOfBlockStampsUniform(lib: Library, transforms: seq<StaticTransform>, times: seq<real>, k: nat)
    requires k < |times| && |transforms| > 0
    ensures |StaticTfRecords(StaticTransformList(lib, transforms), times)| == |times| * |transforms|
    ensures 0 <= (k + 1) * |transforms| - 1 < |times| * |transforms|
    ensures var last := StaticTfRecords(StaticTransformList(lib, transforms), times)[(k + 1) * |transforms| - 1];
      && last.msg.TFMessage?
      && |last.msg.transforms| == |transforms|
      && forall i :: 0 <= i < |transforms| ==> last.msg.transforms[i].header.stamp == Stamp(times[k])
  {
    var m := |transforms|;
    StaticTfRecordsAt(StaticTransformList(lib, transforms), times, k, m - 1);
    assert (k + 1) * m - 1 == k * m + (m - 1);
  }

  /** The first loop of save_static_transforms: get_static_transform of every entry, appended in order. */
  method CollectStaticTransforms(lib: Library, transforms: seq<StaticTransform>) returns (tfm: seq<TransformStamped>)
    ensures tfm == StaticTransformList(lib, transforms)
  {
    tfm := [];
    for i := 0 to |transforms|
      invariant tfm == StaticTransformList(lib, transforms[..i])
    {
      var t := GetStaticTransform(lib, transforms[i].parent, transforms[i].child, transforms[i].matrix);
      tfm := tfm + [t];
    }
    assert transforms[..|transforms|] == transforms;
  }

  /**
   * The inner loop for one timestamp: restamp transform i to `time`, then
   * write the whole message, for every i in order.
   */
  method WriteStaticBlock(bag: BagWriter, ghost base: seq<TransformStamped>, tfm0: seq<TransformStamped>,
                          time: TimeMsg, ghost before: TimeMsg)
    returns (tfm: seq<TransformStamped>)
    requires !bag.closed && tfm0 == StampedUpTo(base, before, before, -1)
    modifies bag
    ensures !bag.closed
    ensures tfm == StampedUpTo(base, time, time, -1)
    ensures bag.log == old(bag.log) + StaticBlock(base, time, before)
  {
    tfm := tfm0;
    for i := 0 to |tfm|
      invariant !bag.closed
      invariant tfm == StampedUpTo(base, time, before, i - 1)
      invariant bag.log == old(bag.log) + StaticBlock(base, time, before)[..i]
    {
      tfm := tfm[i := Restamp(tfm[i], time)];
      assert tfm == StampedUpTo(base, time, before, i);
      bag.Write(TfStaticTopic, TFMessage(tfm));
      assert StaticBlock(base, time, before)[..i + 1] == StaticBlock(base, time, before)[..i] + [Record(TfStaticTopic, TFMessage(tfm))];
    }
    assert StaticBlock(base, time, before)[..|base|] == StaticBlock(base, time, before);
  }

  /** save_static_transforms(bag, transforms, timestamps) */
  method SaveStaticTransforms(bag: BagWriter, lib: Library, transforms: seq<StaticTransform>, timestamps: seq<real>)
    requires !bag.closed
    modifies bag
    ensures !bag.closed
    ensures bag.log == old(bag.log) + StaticTfRecords(StaticTransformList(lib, transforms), timestamps)
  {
    var tfm := CollectStaticTransforms(lib, transforms);
    ghost var base := tfm;
    assert StampedUpTo(base, ZeroTime, ZeroTime, -1) == base;

    for k := 0 to |timestamps|
      invariant !bag.closed
      invariant tfm == StampedUpTo(base, PrevStamp(timestamps, k), PrevStamp(timestamps, k), -1)
      invariant bag.log == old(bag.log) + StaticTfRecords(base, timestamps[..k])
    {
      var time := Stamp(timestamps[k]);
      ghost var before := PrevStamp(timestamps, k);
      tfm := WriteStaticBlock(bag, base, tfm, time, before);
      assert timestamps[..k + 1][..k] == timestamps[..k];
      assert PrevStamp(timestamps[..k + 1], k) == before;
    }
    assert timestamps[..|timestamps|] == timestamps;
  }
}
