/**
 * The host glue of DragonMoonNavRecorder (`PluginCore`): the F9 edge
 * detector run every frame, the chat-command dispatcher, the toggle, the
 * save and clear guards, the buttons, and the stops on logoff and shutdown.
 *
 * The key state (`GetAsyncKeyState`) is an argument of each frame; the
 * date stamp of the file name and the formats of the file are arguments of
 * saving, which returns the file name and lines instead of writing them.
 * Chat output, the status timer and the labels are not modelled.
 */
module PollPlugin {
  import opened Optional
  import opened Strings
  import opened PollRecorder

  // ----- The F9 hotkey -----

  /** One frame of the edge detector: from (flag, recording) and whether F9
    * is down, the new flag and recording state. The recording flips only on
    * a press whose previous frame had the key up; the flag follows the key. */
  function HotkeyStep(held: bool, recording: bool, keyDown: bool): (bool, bool)
  {
    if keyDown && !held then (true, !recording)
    else if !keyDown then (false, recording)
    else (held, recording)
  }

  /** A run of frames, one key state per frame. */
  function RunFrames(held: bool, recording: bool, keys: seq<bool>): (bool, bool)
    decreases |keys|
  {
    if keys == [] then (held, recording)
    else
      var next := HotkeyStep(held, recording, keys[0]);
      RunFrames(next.0, next.1, keys[1..])
  }

  /** The frames whose key is down while the frame before had it up
    * (`previous` is the key state before the first frame). */
  function RisingEdges(previous: bool, keys: seq<bool>): nat
    decreases |keys|
  {
    if keys == [] then 0
    else (if keys[0] && !previous then 1 else 0) + RisingEdges(keys[0], keys[1..])
  }

  /** The flag always records the previous frame's key, and the recording
    * state flips once per rising edge: it ends flipped exactly when the run
    * holds an odd number of rising edges. */
  lemma {:induction false} TogglesCountRisingEdges(held: bool, recording: bool, keys: seq<bool>)
    ensures RunFrames(held, recording, keys).0 == (if keys == [] then held else keys[|keys| - 1])
    ensures RunFrames(held, recording, keys).1 == (recording != (RisingEdges(held, keys) % 2 == 1))
    decreases |keys|
  {
    if keys != [] {
      var next := HotkeyStep(held, recording, keys[0]);
      assert next.0 == keys[0];
      TogglesCountRisingEdges(next.0, next.1, keys[1..]);
    }
  }

  /** Holding F9 down over k frames, from released, toggles exactly once. */
  lemma {:induction false} HeldKeyTogglesOnce(recording: bool, k: nat)
    requires k > 0
    ensures RunFrames(false, recording, seq(k, _ => true)) == (true, !recording)
  {
    var keys := seq(k, _ => true);
    assert keys[1..] == seq(k - 1, _ => true);
    HeldStaysPut(!recording, k - 1);
  }

  lemma {:induction false} HeldStaysPut(recording: bool, k: nat)
    ensures RunFrames(true, recording, seq(k, _ => true)) == (true, recording)
  {
    if k > 0 {
      var keys := seq(k, _ => true);
      assert keys[1..] == seq(k - 1, _ => true);
      HeldStaysPut(recording, k - 1);
    }
  }

  // ----- Chat commands -----

  datatype Command = Toggle | StartCommand | StopCommand | SaveCommand | ClearCommand | Unrecognised

  /** The command a chat line names once lower-cased and trimmed. */
  function ParseCommand(text: string): Command
  {
    CommandNamed(Trim(ToLower(text)))
  }

  /** The command an already lower-cased, trimmed text names. */
  function CommandNamed(t: string): Command
  {
    if t == "/navtoggle" || t == "/navrecord" then Toggle
    else if t == "/navstart" then StartCommand
    else if t == "/navstop" then StopCommand
    else if t == "/navsave" then SaveCommand
    else if t == "/navclear" then ClearCommand
    else Unrecognised
  }

  /** Commands are matched without regard to ASCII case or to whitespace
    * around them. */
  lemma CommandIgnoresCaseAndPadding(p: string, text: string, q: string)
    requires AllWhiteSpace(p) && AllWhiteSpace(q)
    ensures ParseCommand(p + text + q) == ParseCommand(text)
    ensures ParseCommand(ToLower(text)) == ParseCommand(text)
  {
    var t := Trim(ToLower(text));
    assert Trim(ToLower(p + text + q)) == t by {
      ToLowerConcat(p + text, q);
      ToLowerConcat(p, text);
      ToLowerKeepsWhiteSpace(p);
      ToLowerKeepsWhiteSpace(q);
      TrimPadded(p, ToLower(text), q);
    }
    assert Trim(ToLower(ToLower(text))) == t by {
      ToLowerIdempotent(text);
    }
  }

  // ----- The controller -----

  /** A saved route: the file name and the lines written to it. */
  datatype NavFile = NavFile(name: string, lines: seq<string>)

  class Controller {
    const recorder: Recorder
    var f9KeyPressed: bool

    /** `Startup`: a fresh, stopped recorder with no points; F9 released. */
    constructor ()
      ensures fresh(recorder) && !recorder.isRecording && recorder.recordedPoints == []
      ensures !f9KeyPressed
    {
      recorder := new Recorder();
      f9KeyPressed := false;
    }

    /** `Core_RenderFrame`: one step of the edge detector; points are untouched. */
    method RenderFrame(keyDown: bool)
      modifies this, recorder
      ensures (f9KeyPressed, recorder.isRecording)
           == HotkeyStep(old(f9KeyPressed), old(recorder.isRecording), keyDown)
      ensures recorder.recordedPoints == old(recorder.recordedPoints)
    {
      if keyDown && !f9KeyPressed {
        f9KeyPressed := true;
        ToggleRecording();
      } else if !keyDown {
        f9KeyPressed := false;
      }
    }

    /** Stops when recording, starts when stopped; points are untouched. */
    method ToggleRecording()
      modifies recorder
      ensures recorder.isRecording == !old(recorder.isRecording)
      ensures recorder.recordedPoints == old(recorder.recordedPoints)
    {
      if recorder.isRecording {
        recorder.StopRecording();
      } else {
        recorder.StartRecording();
      }
    }

    /** `Core_CommandLineText`: a recognised command is eaten and acted on;
      * other text leaves the eat flag and the recorder as they were. */
    method CommandLineText(text: string, eat: bool, stamp: string, fmt: NavFormat)
      returns (eaten: bool, saved: Option<NavFile>)
      modifies recorder
      ensures eaten == (if ParseCommand(text) == Unrecognised then eat else true)
      ensures ParseCommand(text) == Toggle ==>
        recorder.isRecording == !old(recorder.isRecording) && recorder.recordedPoints == old(recorder.recordedPoints)
      ensures ParseCommand(text) == StartCommand ==>
        recorder.isRecording && recorder.recordedPoints == old(recorder.recordedPoints)
      ensures ParseCommand(text) == StopCommand ==>
        !recorder.isRecording && recorder.recordedPoints == old(recorder.recordedPoints)
      ensures ParseCommand(text) == ClearCommand ==>
        recorder.isRecording == old(recorder.isRecording)
        && recorder.recordedPoints == (if old(recorder.isRecording) then old(recorder.recordedPoints) else [])
      ensures ParseCommand(text) in {SaveCommand, Unrecognised} ==> unchanged(recorder)
      ensures saved.Some? ==> ParseCommand(text) == SaveCommand
      ensures ParseCommand(text) == SaveCommand ==> saved == RouteFile(recorder.recordedPoints, stamp, fmt)
    {
      var t := Trim(ToLower(text));
      eaten, saved := eat, None;
      if t == "/navtoggle" || t == "/navrecord" {
        eaten := true;
        ToggleRecording();
      } else if t == "/navstart" {
        eaten := true;
        if !recorder.isRecording {
          recorder.StartRecording();
        }
      } else if t == "/navstop" {
        eaten := true;
        if recorder.isRecording {
          recorder.StopRecording();
        }
      } else if t == "/navsave" {
        eaten := true;
        saved := SaveRoute(stamp, fmt);
      } else if t == "/navclear" {
        eaten := true;
        if !recorder.isRecording {
          recorder.ClearPoints();
        }
      }
    }

    /** With no points, nothing is saved (`SaveToFile` is not called);
      * otherwise the route goes to `NavRoute_<stamp>.nav`. */
    method SaveRoute(stamp: string, fmt: NavFormat) returns (saved: Option<NavFile>)
      ensures saved.None? <==> |recorder.recordedPoints| == 0
      ensures saved.Some? ==> saved.value.name == "NavRoute_" + stamp + ".nav"
      ensures saved.Some? ==> saved.value.lines == NavFileLines(recorder.recordedPoints, fmt)
    {
      if recorder.PointCount() == 0 {
        return None;
      }
      var fileName := "NavRoute_" + stamp + ".nav";
      var ok, lines := recorder.SaveToFile(fmt);
      saved := if ok then Some(NavFile(fileName, lines)) else None;
    }

    /** The Clear button: refused while recording, else empties the points. */
    method ClearRouteClick()
      modifies recorder
      ensures recorder.isRecording == old(recorder.isRecording)
      ensures old(recorder.isRecording) ==> unchanged(recorder)
      ensures !old(recorder.isRecording) ==> recorder.recordedPoints == []
    {
      if recorder.isRecording {
        return;
      }
      recorder.ClearPoints();
    }

    /** The Start button: starts only when stopped; points are kept. */
    method StartRecordingClick()
      modifies recorder
      ensures recorder.isRecording && recorder.recordedPoints == old(recorder.recordedPoints)
    {
      if !recorder.isRecording {
        recorder.StartRecording();
      }
    }

    /** The Stop button: stops only when recording; points are kept. */
    method StopRecordingClick()
      modifies recorder
      ensures !recorder.isRecording && recorder.recordedPoints == old(recorder.recordedPoints)
    {
      if recorder.isRecording {
        recorder.StopRecording();
      }
    }

    /** `Shutdown`: leaves the recorder stopped with its points. */
    method Shutdown()
      modifies recorder
      ensures !recorder.isRecording && recorder.recordedPoints == old(recorder.recordedPoints)
    {
      if recorder.isRecording {
        recorder.StopRecording();
      }
    }

    /** `CharacterFilter_Logoff`: leaves the recorder stopped with its points. */
    method Logoff()
      modifies recorder
      ensures !recorder.isRecording && recorder.recordedPoints == old(recorder.recordedPoints)
    {
      if recorder.isRecording {
        recorder.StopRecording();
      }
    }
  }

  /** What `SaveRoute` produces for a list of points. */
  function RouteFile(points: seq<NavPoint>, stamp: string, fmt: NavFormat): Option<NavFile>
  {
    if |points| == 0 then None else Some(NavFile("NavRoute_" + stamp + ".nav", NavFileLines(points, fmt)))
  }
}
