/**
 * Reading timestamps.txt files: save_velo_data skips one-character lines and
 * parses the rest with their last four characters cut off (kitti2bag.py,
 * lines 163-170); save_camera_data parses every line the same way without
 * skipping any (line 114).
 */
module TimestampLog {
  import opened Wrappers
  import opened PyLib
  import opened Messages

  /** The strings save_velo_data hands to strptime, in file order. */
  function KeptLines(lines: seq<string>): (kept: seq<string>)
  {
    if lines == [] then []
    else
      var last := lines[|lines| - 1];
      KeptLines(lines[..|lines| - 1]) + (if |last| == 1 then [] else [DropLast4(last)])
  }

  /** Parses every string in order; None as soon as one of them does not parse (strptime raises). */
  function ParseAll(lib: Library, strs: seq<string>): (r: Option<seq<real>>)
  {
    if strs == [] then Some([])
    else
      match ParseAll(lib, strs[..|strs| - 1])
      case None => None
      case Some(ts) =>
        match lib.parseTime(strs[|strs| - 1])
        case None => None
        case Some(t) => Some(ts + [t])
  }

  /** ParseAll fails exactly when some string fails, and otherwise parses string i into value i. */
  lemma {:induction false} ParseAllSpec(lib: Library, strs: seq<string>)
    ensures ParseAll(lib, strs).None? <==> exists i :: 0 <= i < |strs| && lib.parseTime(strs[i]).None?
    ensures ParseAll(lib, strs).Some? ==> |ParseAll(lib, strs).value| == |strs|
    ensures ParseAll(lib, strs).Some? ==>
      forall i :: 0 <= i < |strs| ==> lib.parseTime(strs[i]) == Some(ParseAll(lib, strs).value[i])
  {
    if strs != [] {
      var init := strs[..|strs| - 1];
      ParseAllSpec(lib, init);
      assert forall i :: 0 <= i < |init| ==> init[i] == strs[i];
    }
  }

  /**
   * list(map(lambda x: strptime(x[:-4], ...), f.readlines())) in save_camera_data:
   * one time per line, every line cut and parsed, and no list at all when a line does not parse.
   */
  function CameraTimestamps(lib: Library, lines: seq<string>): (r: Option<seq<real>>)
    ensures r.None? <==> exists i :: 0 <= i < |lines| && lib.parseTime(DropLast4(lines[i])).None?
    ensures r.Some? ==> |r.value| == |lines|
    ensures r.Some? ==> forall i :: 0 <= i < |lines| ==> lib.parseTime(DropLast4(lines[i])) == Some(r.value[i])
  {
    var cut := seq(|lines|, i requires 0 <= i < |lines| => DropLast4(lines[i]));
    ParseAllSpec(lib, cut);
    assert forall i :: 0 <= i < |lines| ==> cut[i] == DropLast4(lines[i]);
    ParseAll(lib, cut)
  }

  /** Line `line` contributes `s` to what save_velo_data parses. */
  predicate Yields(line: string, s: string)
  {
    |line| != 1 && s == DropLast4(line)
  }

  /** A line is kept, with its last four characters removed, exactly when it is not one character long. */
  lemma {:induction false} KeptLinesMembers(lines: seq<string>, s: string)
    ensures s in KeptLines(lines) <==> exists i :: 0 <= i < |lines| && Yields(lines[i], s)
  {
    if lines != [] {
      var n := |lines| - 1;
      var init, last := lines[..n], lines[n];
      var tail := if |last| == 1 then [] else [DropLast4(last)];
      assert KeptLines(lines) == KeptLines(init) + tail;
      assert s in tail <==> Yields(last, s);
      KeptLinesMembers(init, s);
      if s in KeptLines(init) {
        var i :| 0 <= i < n && Yields(init[i], s);
        assert lines[i] == init[i];
      }
      if i :| 0 <= i < |lines| && Yields(lines[i], s) {
        if i < n {
          assert init[i] == lines[i];
        }
      }
    }
  }

  /** Without one-character lines nothing is dropped: line i yields kept string i. */
  lemma {:induction false} KeptLinesWithoutBlanks(lines: seq<string>)
    requires forall i :: 0 <= i < |lines| ==> |lines[i]| != 1
    ensures |KeptLines(lines)| == |lines|
    ensures forall i :: 0 <= i < |lines| ==> KeptLines(lines)[i] == DropLast4(lines[i])
  {
    if lines != [] {
      KeptLinesWithoutBlanks(lines[..|lines| - 1]);
    }
  }

  /** Never more kept strings than lines, and one fewer for every one-character line. */
  lemma {:induction false} KeptLinesCount(lines: seq<string>)
    ensures |KeptLines(lines)| == |lines| - |set i | 0 <= i < |lines| && |lines[i]| == 1|
  {
    if lines != [] {
      var n := |lines| - 1;
      var init := lines[..n];
      KeptLinesCount(init);
      var blanks := set i | 0 <= i < |lines| && |lines[i]| == 1;
      var initBlanks := set i | 0 <= i < n && |init[i]| == 1;
      assert initBlanks == set i | 0 <= i < n && |lines[i]| == 1;
      if |lines[n]| == 1 {
        assert blanks == initBlanks + {n};
      } else {
        assert blanks == initBlanks;
      }
    }
  }

  /** Reading a prefix of the file keeps a prefix of what the whole file keeps. */
  lemma {:induction false} KeptLinesPrefix(lines: seq<string>, j: nat)
    requires j <= |lines|
    ensures KeptLines(lines[..j]) <= KeptLines(lines)
    decreases |lines| - j
  {
    if j < |lines| {
      KeptLinesPrefix(lines[..|lines| - 1], j);
      assert lines[..|lines| - 1][..j] == lines[..j];
    } else {
      assert lines[..j] == lines;
    }
  }

  /** The velo_datetimes loop of save_velo_data; None when strptime raises on a kept line. */
  method ReadVeloTimestamps(lib: Library, lines: seq<string>) returns (datetimes: Option<seq<real>>)
    ensures datetimes == ParseAll(lib, KeptLines(lines))
  {
    var acc: seq<real> := [];
    for i := 0 to |lines|
      invariant ParseAll(lib, KeptLines(lines[..i])) == Some(acc)
    {
      var line := lines[i];
      assert lines[..i + 1][..i] == lines[..i];
      if |line| == 1 {
        assert KeptLines(lines[..i + 1]) == KeptLines(lines[..i]);
        continue;
      }
      var parsed := lib.parseTime(DropLast4(line));
      var kept := KeptLines(lines[..i]) + [DropLast4(line)];
      assert KeptLines(lines[..i + 1]) == kept;
      assert kept[..|kept| - 1] == KeptLines(lines[..i]);
      if parsed.None? {
        KeptLinesPrefix(lines, i + 1);
        ParseAllSpec(lib, KeptLines(lines));
        assert kept[|kept| - 1] == DropLast4(line);
        assert KeptLines(lines)[|kept| - 1] == DropLast4(line);
        return None;
      }
      acc := acc + [parsed.value];
    }
    assert lines[..|lines|] == lines;
    return Some(acc);
  }

  /** Reading concatenated files keeps what each part keeps. */
  lemma {:induction false} KeptLinesAppend(a: seq<string>, b: seq<string>)
    ensures KeptLines(a + b) == KeptLines(a) + KeptLines(b)
    decreases |b|
  {
    if b != [] {
      var b' := b[..|b| - 1];
      KeptLinesAppend(a, b');
      assert (a + b)[..|a + b| - 1] == a + b';
    } else {
      assert a + b == a;
    }
  }

  /** A one-character line is invisible to the velodyne reader. */
  lemma BlankLineSkipped(lines: seq<string>, i: nat)
    requires i < |lines| && |lines[i]| == 1
    ensures KeptLines(lines) == KeptLines(lines[..i] + lines[i + 1..])
  {
    var a, b := lines[..i], lines[i + 1..];
    assert lines == (a + [lines[i]]) + b;
    KeptLinesAppend(a + [lines[i]], b);
    KeptLinesAppend(a, [lines[i]]);
    KeptLinesAppend(a, b);
    assert [lines[i]][..0] == [];
    assert KeptLines([lines[i]]) == [];
  }

  /**
   * The same line makes the camera reader fail, since strptime rejects the
   * empty string that line is cut down to.
   */
  lemma BlankLineStopsCameraReader(lib: Library, lines: seq<string>, i: nat)
    requires i < |lines| && |lines[i]| == 1
    requires lib.parseTime("") == None
    ensures CameraTimestamps(lib, lines) == None
  {
    var strs := seq(|lines|, k requires 0 <= k < |lines| => DropLast4(lines[k]));
    assert strs[i] == "";
    ParseAllSpec(lib, strs);
  }
}
