/**
 * The event-mode recorder (`NavRecorder` of the NavRecorder plugin): a
 * Stopped/Recording state machine that appends "move" waypoints when the
 * player has moved more than 0.1 on some axis, appends click, portal and chat
 * events, and serialises both lists to JSON-shaped text when it stops.
 *
 * The host is abstracted: the player position (`CharacterFilter` X/Y/Z) is an
 * `Option<Position>` argument, `WorldFilter` is a map from object id to object,
 * the `F2` number formatter is a function argument, and the file-name stamp is
 * a given string. Saving returns the file name and text instead of writing.
 */
module EventRecorder {
  import opened Optional
  import opened Strings
  import JsonEscape

  /** The per-axis movement threshold of `OnMovement`. */
  const Threshold: real := 0.1

  datatype Position = Position(x: real, y: real, z: real)

  /** `WaypointData`: a position and its type tag. */
  datatype Waypoint = Waypoint(x: real, y: real, z: real, kind: string)

  /** `EventData`: a type tag and a label. */
  datatype Event = Event(kind: string, name: string)

  /** Decal's object classes; only portals matter here. */
  datatype ObjectClass = Portal | OtherClass

  datatype WorldObject = WorldObject(name: Option<string>, objectClass: ObjectClass)

  /** `WorldFilter`: the objects the client knows, by id. */
  type World = map<int, WorldObject>

  /** `WorldFilter[id]`, which is null for an unknown id. */
  function Lookup(world: World, id: int): Option<WorldObject>
  {
    if id in world then Some(world[id]) else None
  }

  /** A saved route: the file name and the text written to it. */
  datatype JsonFile = JsonFile(name: string, text: string)

  function Abs(r: real): real
  {
    if r < 0.0 then -r else r
  }

  /** `OnMovement`'s filter: some axis moved by more than the threshold.
    * It is per axis, not a Euclidean distance. */
  predicate MovedEnough(last: Position, current: Position)
  {
    || Abs(current.x - last.x) > Threshold
    || Abs(current.y - last.y) > Threshold
    || Abs(current.z - last.z) > Threshold
  }

  function MoveAt(p: Position): Waypoint
  {
    Waypoint(p.x, p.y, p.z, "move")
  }

  function PositionOf(w: Waypoint): Position
  {
    Position(w.x, w.y, w.z)
  }

  /** The label `OnClick` records: the given name unless null or empty, else
    * the resolved object's name, else "Unknown" when the object or its name
    * is null. An object whose name is empty gives an empty label. */
  function ClickLabel(objectName: Option<string>, found: Option<WorldObject>): string
  {
    if objectName.Some? && objectName.value != "" then objectName.value
    else if found.Some? && found.value.name.Some? then found.value.name.value
    else "Unknown"
  }

  /** The label `OnPortalUse` records: the portal's name, "Unknown" when null. */
  function PortalLabel(portalName: Option<string>): string
  {
    if portalName.Some? then portalName.value else "Unknown"
  }

  /** The label `OnChatMessage` records: the message, "" when null. */
  function ChatLabel(message: Option<string>): string
  {
    if message.Some? then message.value else ""
  }

  /** A path is a deduplicated route when every waypoint is a "move" and every
    * waypoint moved more than the threshold on some axis from the one before. */
  ghost predicate Deduplicated(waypoints: seq<Waypoint>)
  {
    && (forall i | 0 <= i < |waypoints| :: waypoints[i].kind == "move")
    && (forall i | 0 < i < |waypoints| :: MovedEnough(PositionOf(waypoints[i - 1]), PositionOf(waypoints[i])))
  }

  // ----- The JSON-shaped text `SaveToJson` builds -----

  function WaypointItem(w: Waypoint, f2: real -> string): string
  {
    "    { \"x\": " + f2(w.x) + ", \"y\": " + f2(w.y) + ", \"z\": " + f2(w.z) + ", \"type\": \"" + w.kind + "\" }"
  }

  /** The start of an event item, up to the opening quote of its name. */
  function EventItemHead(kind: string): string
  {
    "    { \"type\": \"" + kind + "\", \"name\": \""
  }

  function EventItem(e: Event): string
  {
    EventItemHead(e.kind) + JsonEscape.EscapeJsonString(Some(e.name)) + "\" }"
  }

  /** A list block: every item but the last followed by a comma. */
  function Separated(items: seq<string>): seq<string>
  {
    seq(|items|, i requires 0 <= i < |items| => items[i] + (if i < |items| - 1 then "," else ""))
  }

  function WaypointItems(waypoints: seq<Waypoint>, f2: real -> string): seq<string>
  {
    seq(|waypoints|, i requires 0 <= i < |waypoints| => WaypointItem(waypoints[i], f2))
  }

  function EventItems(events: seq<Event>): seq<string>
  {
    seq(|events|, i requires 0 <= i < |events| => EventItem(events[i]))
  }

  const JsonHead: seq<string> := ["{", "  \"waypoints\": ["]
  const JsonMiddle: seq<string> := ["  ],", "  \"events\": ["]
  const JsonTail: seq<string> := ["  ]", "}"]

  /** The lines of the saved text. */
  function JsonLines(waypoints: seq<Waypoint>, events: seq<Event>, f2: real -> string): seq<string>
  {
    JsonHead + Separated(WaypointItems(waypoints, f2)) + JsonMiddle + Separated(EventItems(events)) + JsonTail
  }

  /** The shape of the saved text: `{`, the waypoints block, the events block,
    * `}`, items in insertion order, every item but the last of a block
    * followed by a comma. */
  lemma JsonShape(waypoints: seq<Waypoint>, events: seq<Event>, f2: real -> string)
    ensures var lines, n, m := JsonLines(waypoints, events, f2), |waypoints|, |events|;
      && |lines| == n + m + 6
      && lines[0] == "{" && lines[1] == "  \"waypoints\": ["
      && (forall i | 0 <= i < n ::
            lines[2 + i] == WaypointItem(waypoints[i], f2) + (if i < n - 1 then "," else ""))
      && lines[n + 2] == "  ]," && lines[n + 3] == "  \"events\": ["
      && (forall j | 0 <= j < m ::
            lines[n + 4 + j] == EventItem(events[j]) + (if j < m - 1 then "," else ""))
      && lines[n + m + 4] == "  ]" && lines[n + m + 5] == "}"
  {
    JsonFixedLines(waypoints, events, f2);
    JsonWaypointLines(waypoints, events, f2);
    JsonEventLines(waypoints, events, f2);
  }

  /** The length of the document and its six fixed lines. */
  lemma JsonFixedLines(waypoints: seq<Waypoint>, events: seq<Event>, f2: real -> string)
    ensures var lines, n, m := JsonLines(waypoints, events, f2), |waypoints|, |events|;
      && |lines| == n + m + 6
      && lines[0] == "{" && lines[1] == "  \"waypoints\": ["
      && lines[n + 2] == "  ]," && lines[n + 3] == "  \"events\": ["
      && lines[n + m + 4] == "  ]" && lines[n + m + 5] == "}"
  {
    FivePartIndex(JsonHead, Separated(WaypointItems(waypoints, f2)), JsonMiddle, Separated(EventItems(events)), JsonTail);
  }

  /** The waypoint items, in order, each but the last followed by a comma. */
  lemma JsonWaypointLines(waypoints: seq<Waypoint>, events: seq<Event>, f2: real -> string)
    ensures var lines, n := JsonLines(waypoints, events, f2), |waypoints|;
      forall i | 0 <= i < n ::
        lines[2 + i] == WaypointItem(waypoints[i], f2) + (if i < n - 1 then "," else "")
  {
    var items := WaypointItems(waypoints, f2);
    var w, lines := Separated(items), JsonLines(waypoints, events, f2);
    FivePartIndex(JsonHead, w, JsonMiddle, Separated(EventItems(events)), JsonTail);
    forall i | 0 <= i < |waypoints|
      ensures lines[2 + i] == WaypointItem(waypoints[i], f2) + (if i < |waypoints| - 1 then "," else "")
    {
      SeparatedAt(items, i);
    }
  }

  /** The event items, in order, each but the last followed by a comma. */
  lemma JsonEventLines(waypoints: seq<Waypoint>, events: seq<Event>, f2: real -> string)
    ensures var lines, n, m := JsonLines(waypoints, events, f2), |waypoints|, |events|;
      forall j | 0 <= j < m ::
        lines[n + 4 + j] == EventItem(events[j]) + (if j < m - 1 then "," else "")
  {
    var items := EventItems(events);
    var before := JsonHead + Separated(WaypointItems(waypoints, f2)) + JsonMiddle;
    assert |before| == |waypoints| + 4;
    forall j | 0 <= j < |events|
      ensures JsonLines(waypoints, events, f2)[|waypoints| + 4 + j]
           == EventItem(events[j]) + (if j < |events| - 1 then "," else "")
    {
      PartAt(before, Separated(items), JsonTail, j);
      SeparatedAt(items, j);
    }
  }

  /** The `j`-th element of the middle part of `a + e + c`. */
  lemma PartAt(a: seq<string>, e: seq<string>, c: seq<string>, j: nat)
    requires j < |e|
    ensures (a + e + c)[|a| + j] == e[j]
  {
  }

  /** One item of a list block with its separating comma. */
  lemma SeparatedAt(items: seq<string>, i: nat)
    requires i < |items|
    ensures |Separated(items)| == |items|
    ensures Separated(items)[i] == items[i] + (if i < |items| - 1 then "," else "")
  {
  }

  /** Where each part of `head + w + middle + e + tail` lands, each fixed
    * part being two lines long. */
  lemma FivePartIndex(head: seq<string>, w: seq<string>, middle: seq<string>, e: seq<string>, tail: seq<string>)
    requires |head| == 2 && |middle| == 2 && |tail| == 2
    ensures var all, n, m := head + w + middle + e + tail, |w|, |e|;
      && |all| == n + m + 6
      && all[0] == head[0] && all[1] == head[1]
      && (forall i | 0 <= i < n :: all[2 + i] == w[i])
      && all[n + 2] == middle[0] && all[n + 3] == middle[1]
      && (forall j | 0 <= j < m :: all[n + 4 + j] == e[j])
      && all[n + m + 4] == tail[0] && all[n + m + 5] == tail[1]
  {
  }

  /** Both lists empty still give a complete document. */
  lemma EmptyJson(f2: real -> string)
    ensures JsonLines([], [], f2) == ["{", "  \"waypoints\": [", "  ],", "  \"events\": [", "  ]", "}"]
  {
    assert Separated([]) == [];
  }

  /** The name in an event item reads back exactly from its JSON string
    * literal, which closes just before ` }` and the optional comma. */
  lemma EventItemReadsBack(e: Event, comma: string)
    ensures var line := EventItem(e) + comma;
      && |EventItemHead(e.kind)| <= |line|
      && JsonEscape.ReadStringBody(line[|EventItemHead(e.kind)|..]) == Some((e.name, " }" + comma))
  {
    var head, esc := EventItemHead(e.kind), JsonEscape.EscapeJsonString(Some(e.name));
    var line := EventItem(e) + comma;
    assert line == head + (esc + "\"" + (" }" + comma));
    assert line[|head|..] == esc + "\"" + (" }" + comma);
    JsonEscape.EscapeJsonStringReadsBack(Some(e.name), " }" + comma);
  }

  /** One more line appended to a text that holds the first `k` lines. */
  lemma AppendLineStep(text: string, json: string, lines: seq<string>, k: nat, line: string)
    requires k < |lines| && line == lines[k]
    requires json == text + Unlines(lines[..k])
    ensures json + line + NewLine == text + Unlines(lines[..k + 1])
  {
    assert lines[..k + 1][..k] == lines[..k];
  }

  lemma UnlinesSnoc(lines: seq<string>, line: string)
    ensures Unlines(lines + [line]) == Unlines(lines) + line + NewLine
  {
    assert (lines + [line])[..|lines|] == lines;
  }

  class Recorder {
    var isRecording: bool
    var waypoints: seq<Waypoint>
    var events: seq<Event>
    var lastX: real
    var lastY: real
    var lastZ: real

    /** The last recorded position. */
    function Last(): Position
      reads this
    {
      Position(lastX, lastY, lastZ)
    }

    /** The waypoints form a deduplicated route ending at the last recorded
      * position, and every event is a click, a portal use or a chat message. */
    ghost predicate Valid()
      reads this
    {
      && Deduplicated(waypoints)
      && (|waypoints| > 0 ==> PositionOf(waypoints[|waypoints| - 1]) == Last())
      && (forall i | 0 <= i < |events| :: events[i].kind in {"click", "portal", "chat"})
    }

    constructor ()
      ensures Valid()
      ensures !isRecording && waypoints == [] && events == []
      ensures Last() == Position(0.0, 0.0, 0.0)
    {
      isRecording := false;
      waypoints := [];
      events := [];
      lastX, lastY, lastZ := 0.0, 0.0, 0.0;
    }

    function WaypointCount(): nat
      reads this
    {
      |waypoints|
    }

    function EventCount(): nat
      reads this
    {
      |events|
    }

    /** Starting while recording changes nothing. Starting from stopped
      * empties both lists and, when the position is available, seeds one
      * "move" waypoint there and remembers it as the last position. */
    method StartRecording(position: Option<Position>)
      requires Valid()
      modifies this
      ensures Valid()
      ensures old(isRecording) ==> unchanged(this)
      ensures !old(isRecording) ==> isRecording && events == []
      ensures !old(isRecording) && position.None? ==> waypoints == [] && Last() == old(Last())
      ensures !old(isRecording) && position.Some? ==>
        waypoints == [MoveAt(position.value)] && Last() == position.value
    {
      if isRecording {
        return;
      }
      isRecording := true;
      waypoints := [];
      events := [];
      if position.Some? {
        lastX, lastY, lastZ := position.value.x, position.value.y, position.value.z;
        waypoints := waypoints + [Waypoint(lastX, lastY, lastZ, "move")];
      }
    }

    /** Stopping while stopped changes nothing and saves nothing. Stopping
      * while recording clears the flag, keeps both lists, and saves them. */
    method StopRecording(f2: real -> string, stamp: string) returns (saved: Option<JsonFile>)
      requires Valid()
      modifies this
      ensures Valid() && !isRecording
      ensures waypoints == old(waypoints) && events == old(events) && Last() == old(Last())
      ensures old(isRecording) ==>
        saved == Some(JsonFile("route_" + stamp + ".json", Unlines(JsonLines(waypoints, events, f2))))
      ensures !old(isRecording) ==> unchanged(this) && saved == None
    {
      if !isRecording {
        return None;
      }
      isRecording := false;
      var json := SaveToJson(f2);
      saved := Some(JsonFile("route_" + stamp + ".json", json));
    }

    /** A movement while recording, with the position available, appends one
      * "move" waypoint and moves the last position there exactly when some
      * axis moved by more than the threshold; nothing else ever changes. */
    method OnMovement(position: Option<Position>)
      requires Valid()
      modifies this
      ensures Valid()
      ensures isRecording == old(isRecording) && events == old(events)
      ensures if old(isRecording) && position.Some? && MovedEnough(old(Last()), position.value)
              then waypoints == old(waypoints) + [MoveAt(position.value)] && Last() == position.value
              else waypoints == old(waypoints) && Last() == old(Last())
    {
      if !isRecording {
        return;
      }
      if position.Some? {
        var currentX, currentY, currentZ := position.value.x, position.value.y, position.value.z;
        var threshold := 0.1;
        if Abs(currentX - lastX) > threshold || Abs(currentY - lastY) > threshold || Abs(currentZ - lastZ) > threshold {
          lastX, lastY, lastZ := currentX, currentY, currentZ;
          waypoints := waypoints + [Waypoint(currentX, currentY, currentZ, "move")];
        }
      }
    }

    /** While recording, appends one "click" event labelled by `ClickLabel`
      * (the world is consulted only when the given name is null or empty). */
    method OnClick(objectId: int, objectName: Option<string>, world: World)
      requires Valid()
      modifies this
      ensures Valid()
      ensures isRecording == old(isRecording) && waypoints == old(waypoints) && Last() == old(Last())
      ensures events == old(events) +
        (if old(isRecording) then [Event("click", ClickLabel(objectName, Lookup(world, objectId)))] else [])
    {
      if !isRecording {
        return;
      }
      var name := if objectName.Some? then objectName.value else "";
      if name == "" {
        var obj := Lookup(world, objectId);
        if obj.Some? {
          name := if obj.value.name.Some? then obj.value.name.value else "Unknown";
        } else {
          name := "Unknown";
        }
      }
      events := events + [Event("click", name)];
    }

    /** While recording, appends one "portal" event labelled by the name. */
    method OnPortalUse(portalName: Option<string>)
      requires Valid()
      modifies this
      ensures Valid()
      ensures isRecording == old(isRecording) && waypoints == old(waypoints) && Last() == old(Last())
      ensures events == old(events) + (if old(isRecording) then [Event("portal", PortalLabel(portalName))] else [])
    {
      if !isRecording {
        return;
      }
      events := events + [Event("portal", if portalName.Some? then portalName.value else "Unknown")];
    }

    /** While recording, appends one "chat" event labelled by the message. */
    method OnChatMessage(message: Option<string>)
      requires Valid()
      modifies this
      ensures Valid()
      ensures isRecording == old(isRecording) && waypoints == old(waypoints) && Last() == old(Last())
      ensures events == old(events) + (if old(isRecording) then [Event("chat", ChatLabel(message))] else [])
    {
      if !isRecording {
        return;
      }
      events := events + [Event("chat", if message.Some? then message.value else "")];
    }

    /** Builds the saved text line by line, as the string builder does:
      * the opening lines, the waypoints loop, the lines between the blocks,
      * the events loop and the closing lines. */
    method SaveToJson(f2: real -> string) returns (json: string)
      ensures json == Unlines(JsonLines(waypoints, events, f2))
    {
      var wpItems, evItems := Separated(WaypointItems(waypoints, f2)), Separated(EventItems(events));
      json := "";
      json := json + "{" + NewLine;
      json := json + "  \"waypoints\": [" + NewLine;
      assert json == Unlines(JsonHead) by {
        UnlinesSnoc([], "{");
        UnlinesSnoc(["{"], "  \"waypoints\": [");
      }
      json := AppendWaypoints(json, f2);
      UnlinesConcat(JsonHead, wpItems);
      ghost var head := JsonHead + wpItems;
      json := json + "  ]," + NewLine;
      json := json + "  \"events\": [" + NewLine;
      assert json == Unlines(head + JsonMiddle) by {
        UnlinesSnoc(head, "  ],");
        assert head + JsonMiddle == (head + ["  ],"]) + ["  \"events\": ["];
        UnlinesSnoc(head + ["  ],"], "  \"events\": [");
      }
      json := AppendEvents(json);
      UnlinesConcat(head + JsonMiddle, evItems);
      ghost var body := head + JsonMiddle + evItems;
      json := json + "  ]" + NewLine;
      json := json + "}" + NewLine;
      assert json == Unlines(body + JsonTail) by {
        UnlinesSnoc(body, "  ]");
        assert body + JsonTail == (body + ["  ]"]) + ["}"];
        UnlinesSnoc(body + ["  ]"], "}");
      }
    }

    /** The waypoints loop of `SaveToJson`: one item line per waypoint, in order. */
    method AppendWaypoints(text: string, f2: real -> string) returns (json: string)
      ensures json == text + Unlines(Separated(WaypointItems(waypoints, f2)))
    {
      var items := Separated(WaypointItems(waypoints, f2));
      json := text;
      var i := 0;
      while i < |waypoints|
        invariant 0 <= i <= |waypoints|
        invariant json == text + Unlines(items[..i])
      {
        var wp := waypoints[i];
        var line := "    { \"x\": ";
        line := line + f2(wp.x);
        line := line + ", \"y\": ";
        line := line + f2(wp.y);
        line := line + ", \"z\": ";
        line := line + f2(wp.z);
        line := line + ", \"type\": \"";
        line := line + wp.kind;
        line := line + "\" }";
        if i < |waypoints| - 1 {
          line := line + ",";
        }
        AppendLineStep(text, json, items, i, line);
        json := json + line + NewLine;
        i := i + 1;
      }
      assert items[..i] == items;
    }

    /** The events loop of `SaveToJson`: one item line per event, in order,
      * with the label escaped. */
    method AppendEvents(text: string) returns (json: string)
      ensures json == text + Unlines(Separated(EventItems(events)))
    {
      var items := Separated(EventItems(events));
      json := text;
      var j := 0;
      while j < |events|
        invariant 0 <= j <= |events|
        invariant json == text + Unlines(items[..j])
      {
        var evt := events[j];
        var line := "    { \"type\": \"";
        line := line + evt.kind;
        line := line + "\", \"name\": \"";
        line := line + JsonEscape.EscapeJsonString(Some(evt.name));
        line := line + "\" }";
        if j < |events| - 1 {
          line := line + ",";
        }
        AppendLineStep(text, json, items, j, line);
        json := json + line + NewLine;
        j := j + 1;
      }
      assert items[..j] == items;
    }
  }
}
