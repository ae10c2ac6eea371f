/**
 * The poll-mode recorder (`NavRecorder` of DragonMoonNavRecorder): a
 * recording flag and a list of points, idempotent start and stop, a
 * background loop that appends one point per wake-up while recording, and
 * `SaveToFile`, which refuses an empty snapshot and otherwise writes a
 * three-line header, a blank line and one line per point.
 *
 * The loop runs sequentially here: each wake-up is a `Tick` whose player
 * read and clock reading are arguments. Each wake-up is treated as atomic,
 * although the source takes the lock twice per wake-up: once to test the
 * flag, and once, after reading the player, to append. `F6` and the timestamp
 * format are function arguments, and
 * saving returns the lines written instead of writing a file.
 */
module PollRecorder {
  import opened Optional
  import opened Strings

  /** A clock reading (`DateTime.Now`), in the clock's own units. */
  type Instant = int

  /** `NavPoint`: a position, its landcell and when it was taken. */
  datatype NavPoint = NavPoint(x: real, y: real, z: real, landcell: int, timestamp: Instant)

  /** One read of the player object: its coordinates and landcell. */
  datatype PlayerSample = PlayerSample(x: real, y: real, z: real, landcell: int)

  /** One wake-up of the recording loop: the player read (`None` when the core,
    * the character filter or the player object is null) and the clock. */
  datatype Wakeup = Wakeup(sample: Option<PlayerSample>, now: Instant)

  /** The formats `SaveToFile` applies: `F6` for coordinates and
    * `yyyy-MM-dd HH:mm:ss.fff` for timestamps. */
  datatype NavFormat = NavFormat(fixed6: real -> string, stamp: Instant -> string)

  function PointOf(s: PlayerSample, now: Instant): NavPoint
  {
    NavPoint(s.x, s.y, s.z, s.landcell, now)
  }

  /** The points a run of wake-ups records while recording: one per
    * available player read, stamped with that wake-up's clock, in order. */
  function Sampled(wakeups: seq<Wakeup>): seq<NavPoint>
  {
    if wakeups == [] then []
    else
      var w := wakeups[|wakeups| - 1];
      Sampled(wakeups[..|wakeups| - 1]) + (if w.sample.Some? then [PointOf(w.sample.value, w.now)] else [])
  }

  ghost predicate ClockNeverBefore(wakeups: seq<Wakeup>, bound: Instant)
  {
    forall i | 0 <= i < |wakeups| :: wakeups[i].now <= bound
  }

  ghost predicate ClockOrdered(wakeups: seq<Wakeup>)
  {
    forall i, j | 0 <= i < j < |wakeups| :: wakeups[i].now <= wakeups[j].now
  }

  ghost predicate TimesOrdered(points: seq<NavPoint>)
  {
    forall i, j | 0 <= i < j < |points| :: points[i].timestamp <= points[j].timestamp
  }

  lemma {:induction false} SampledBounded(wakeups: seq<Wakeup>, bound: Instant)
    requires ClockNeverBefore(wakeups, bound)
    ensures forall k | 0 <= k < |Sampled(wakeups)| :: Sampled(wakeups)[k].timestamp <= bound
    decreases |wakeups|
  {
    if wakeups != [] {
      SampledBounded(wakeups[..|wakeups| - 1], bound);
    }
  }

  /** With a clock that never runs backwards, the recorded timestamps never
    * decrease in insertion order. */
  lemma {:induction false} SampledInClockOrder(wakeups: seq<Wakeup>)
    requires ClockOrdered(wakeups)
    ensures TimesOrdered(Sampled(wakeups))
    decreases |wakeups|
  {
    if wakeups != [] {
      var init, w := wakeups[..|wakeups| - 1], wakeups[|wakeups| - 1];
      SampledInClockOrder(init);
      SampledBounded(init, w.now);
    }
  }

  // ----- The file `SaveToFile` writes -----

  const TitleLine: string := "# DragonMoonNavRecorder Navigation File"
  const FormatLine: string := "# Format: X, Y, Z, Landcell, Timestamp"
  const CountPrefix: string := "# Total Points: "

  function Header(count: nat): seq<string>
  {
    [TitleLine, FormatLine, CountPrefix + IntToString(count), ""]
  }

  /** `{0:F6},{1:F6},{2:F6},{3},{4:yyyy-MM-dd HH:mm:ss.fff}`. */
  function PointLine(p: NavPoint, fmt: NavFormat): string
  {
    fmt.fixed6(p.x) + "," + fmt.fixed6(p.y) + "," + fmt.fixed6(p.z) + ","
      + IntToString(p.landcell) + "," + fmt.stamp(p.timestamp)
  }

  function PointLines(points: seq<NavPoint>, fmt: NavFormat): seq<string>
  {
    seq(|points|, i requires 0 <= i < |points| => PointLine(points[i], fmt))
  }

  /** The lines of a saved route. */
  function NavFileLines(points: seq<NavPoint>, fmt: NavFormat): seq<string>
  {
    Header(|points|) + PointLines(points, fmt)
  }

  /** A saved route is three header lines, the third giving the number of
    * points (which reads back as that number), a blank line, and exactly one
    * line per point in snapshot order. */
  lemma NavFileShape(points: seq<NavPoint>, fmt: NavFormat)
    ensures var lines := NavFileLines(points, fmt);
      && |lines| == |points| + 4
      && lines[0] == TitleLine && lines[1] == FormatLine && lines[3] == ""
      && |CountPrefix| <= |lines[2]| && lines[2][..|CountPrefix|] == CountPrefix
      && IsIntText(lines[2][|CountPrefix|..]) && ParseInt(lines[2][|CountPrefix|..]) == |points|
      && forall i | 0 <= i < |points| :: lines[4 + i] == PointLine(points[i], fmt)
  {
    var line := NavFileLines(points, fmt)[2];
    assert line[|CountPrefix|..] == IntToString(|points|);
    IntToStringRoundTrip(|points|);
  }

  /** When the formatters write no comma (a culture whose decimal separator is
    * a period), a point line splits into its five fields and the landcell
    * reads back. */
  lemma PointLineFields(p: NavPoint, fmt: NavFormat)
    requires ',' !in fmt.fixed6(p.x) && ',' !in fmt.fixed6(p.y) && ',' !in fmt.fixed6(p.z)
    requires ',' !in fmt.stamp(p.timestamp)
    ensures var fields := Split(PointLine(p, fmt), ',');
      && fields == [fmt.fixed6(p.x), fmt.fixed6(p.y), fmt.fixed6(p.z), IntToString(p.landcell), fmt.stamp(p.timestamp)]
      && IsIntText(fields[3]) && ParseInt(fields[3]) == p.landcell
  {
    var x, y, z, c, t := fmt.fixed6(p.x), fmt.fixed6(p.y), fmt.fixed6(p.z), IntToString(p.landcell), fmt.stamp(p.timestamp);
    IntTextHasNoComma(p.landcell);
    assert PointLine(p, fmt) == x + [','] + (y + [','] + (z + [','] + (c + [','] + t)));
    SplitFiveFields(x, y, z, c, t);
    IntToStringRoundTrip(p.landcell);
  }

  /** A written integer holds no comma. */
  lemma IntTextHasNoComma(i: int)
    ensures ',' !in IntToString(i)
  {
    var c := IntToString(i);
    IntToStringRoundTrip(i);
    if i < 0 {
      assert forall k | 1 <= k < |c| :: c[k] == c[1..][k - 1];
    }
  }

  /** Five comma-free fields joined by commas split back into those fields. */
  lemma SplitFiveFields(x: string, y: string, z: string, c: string, t: string)
    requires ',' !in x && ',' !in y && ',' !in z && ',' !in c && ',' !in t
    ensures Split(x + [','] + (y + [','] + (z + [','] + (c + [','] + t))), ',') == [x, y, z, c, t]
  {
    SplitAfterField(x, ',', y + [','] + (z + [','] + (c + [','] + t)));
    SplitAfterField(y, ',', z + [','] + (c + [','] + t));
    SplitAfterField(z, ',', c + [','] + t);
    SplitAfterField(c, ',', t);
    SplitFree(t, ',');
  }

  /** One more point line appended to the lines written so far. */
  lemma PointLinesStep(header: seq<string>, lines: seq<string>, points: seq<NavPoint>, fmt: NavFormat, i: nat, line: string)
    requires i < |points| && line == PointLine(points[i], fmt)
    requires lines == header + PointLines(points, fmt)[..i]
    ensures lines + [line] == header + PointLines(points, fmt)[..i + 1]
  {
    assert PointLines(points, fmt)[..i + 1] == PointLines(points, fmt)[..i] + [line];
  }

  class Recorder {
    var recordedPoints: seq<NavPoint>
    var isRecording: bool

    /** A new recorder is stopped and holds no points. */
    constructor ()
      ensures recordedPoints == [] && !isRecording
    {
      recordedPoints := [];
      isRecording := false;
    }

    function PointCount(): nat
      reads this
    {
      |recordedPoints|
    }

    /** Idempotent; from stopped it sets the flag and keeps existing points
      * (starting the background loop is not modelled). */
    method StartRecording()
      modifies this
      ensures isRecording && recordedPoints == old(recordedPoints)
      ensures old(isRecording) ==> unchanged(this)
    {
      if isRecording {
        return;
      }
      isRecording := true;
    }

    /** Idempotent; clears the flag and keeps the points. */
    method StopRecording()
      modifies this
      ensures !isRecording && recordedPoints == old(recordedPoints)
      ensures !old(isRecording) ==> unchanged(this)
    {
      if !isRecording {
        return;
      }
      isRecording := false;
    }

    /** One wake-up of `RecordingLoop`. Stopped, it reports that the loop
      * exits and appends nothing. Recording, it appends exactly one point
      * when the player can be read, and nothing otherwise. */
    method Tick(w: Wakeup) returns (running: bool)
      modifies this
      ensures running == old(isRecording) && isRecording == old(isRecording)
      ensures recordedPoints == old(recordedPoints) +
        (if old(isRecording) && w.sample.Some? then [PointOf(w.sample.value, w.now)] else [])
    {
      if !isRecording {
        return false;
      }
      running := true;
      if w.sample.Some? {
        var s := w.sample.value;
        var point := NavPoint(s.x, s.y, s.z, s.landcell, w.now);
        recordedPoints := recordedPoints + [point];
      }
    }

    /** `RecordingLoop` over a finite run of wake-ups: while recording, each
      * wake-up appends its point if the player could be read; when stopped
      * the loop exits at once and appends nothing. */
    method RecordingLoop(wakeups: seq<Wakeup>)
      modifies this
      ensures isRecording == old(isRecording)
      ensures recordedPoints == old(recordedPoints) + (if old(isRecording) then Sampled(wakeups) else [])
    {
      var k := 0;
      while k < |wakeups|
        invariant 0 <= k <= |wakeups|
        invariant isRecording == old(isRecording)
        invariant recordedPoints == old(recordedPoints) + (if old(isRecording) then Sampled(wakeups[..k]) else [])
      {
        var running := Tick(wakeups[k]);
        if !running {
          break;
        }
        assert wakeups[..k + 1][..k] == wakeups[..k];
        k := k + 1;
      }
      assert isRecording ==> wakeups[..k] == wakeups;
    }

    /** Empties the points; the flag is untouched. */
    method ClearPoints()
      modifies this
      ensures recordedPoints == [] && isRecording == old(isRecording)
    {
      recordedPoints := [];
    }

    /** A copy of the points, as they are. */
    method GetPoints() returns (snapshot: seq<NavPoint>)
      ensures snapshot == recordedPoints
    {
      snapshot := recordedPoints;
    }

    /** Refuses an empty snapshot: returns false and writes nothing.
      * Otherwise writes the header and one line per point, and returns true. */
    method SaveToFile(fmt: NavFormat) returns (ok: bool, lines: seq<string>)
      ensures ok <==> |recordedPoints| > 0
      ensures ok ==> lines == NavFileLines(recordedPoints, fmt)
      ensures !ok ==> lines == []
    {
      var points := GetPoints();
      if |points| == 0 {
        return false, [];
      }
      lines := [];
      lines := lines + [TitleLine];
      lines := lines + [FormatLine];
      lines := lines + [CountPrefix + IntToString(|points|)];
      lines := lines + [""];
      assert lines == Header(|points|) + PointLines(points, fmt)[..0];
      for i := 0 to |points|
        invariant lines == Header(|points|) + PointLines(points, fmt)[..i]
      {
        var point := points[i];
        var line := fmt.fixed6(point.x) + "," + fmt.fixed6(point.y) + "," + fmt.fixed6(point.z) + ","
                    + IntToString(point.landcell) + "," + fmt.stamp(point.timestamp);
        PointLinesStep(Header(|points|), lines, points, fmt, i, line);
        lines := lines + [line];
      }
      assert PointLines(points, fmt)[..|points|] == PointLines(points, fmt);
      ok := true;
    }
  }
}
