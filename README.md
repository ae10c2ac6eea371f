# Navigation route recorders for Asheron's Call (Decal plugins)

This project models two route recorders for Asheron's Call, together with
the plugin code that connects each of them to the Decal host.

- **The event-mode recorder** is `NavRecorder` under `Plugins/NavRecorder`.
  - It appends one waypoint each time the player moves more than 0.1 along
    some axis.
  - It records clicks, portal uses and chat messages as named events.
  - Stopping a recording writes the route as a JSON document. Event names in
    that document have backslash, quotation mark, line feed, carriage
    return and tab escaped.
- **The poll-mode recorder** is `NavRecorder` under `DragonMoonNavRecorder`.
  - While it is recording, a loop wakes up periodically and appends one
    timestamped point per wake-up.
  - On request it saves the points as a `.nav` text file: three header lines,
    a blank line, then one comma-separated line per point.
- **The plugin glue** (`PluginCore` in each project) decides which host
  events reach the recorder. For the poll-mode recorder it also covers:
  - an F9 hotkey that toggles recording on each key press;
  - five chat commands (`/navtoggle` or `/navrecord`, `/navstart`,
    `/navstop`, `/navsave`, `/navclear`);
  - the UI buttons;
  - stopping on logoff and on shutdown.

Each recorder is a class whose fields are updated in place. Its lists are
`seq` fields, and its methods state their new state exactly. Everything the
host supplies is passed in as an argument:

- the player's position, or its absence;
- the world's object table;
- the key state;
- the clock reading;
- the number and date formatters.

A save returns the file name and text it would write, instead of writing a
file.

Modules:

| file | module | models |
|---|---|---|
| `optional.dfy` | `Optional` | a nullable reference, as `Option` |
| `strings.dfy` | `Strings` | the .NET string operations the core relies on: `Environment.NewLine` line joining, `int.ToString`, `char.IsWhiteSpace`, `Trim`, `ToLower` (ASCII letters only); `Split` is not a .NET call of the recorders but the reader with which the model states how a `.nav` point line reads back (`PollRecorder.PointLineFields`) |
| `json_escape.dfy` | `JsonEscape` | `EscapeJsonString` and its relation to the JSON string escapes of section 7 of RFC 8259 for the five characters it handles |
| `event_recorder.dfy` | `EventRecorder` | the event-mode recorder and its JSON route file |
| `event_plugin.dfy` | `EventPlugin` | the event-mode plugin's handlers, buttons and status label |
| `poll_recorder.dfy` | `PollRecorder` | the poll-mode recorder, its loop and its `.nav` file |
| `poll_plugin.dfy` | `PollPlugin` | the hotkey, the chat commands, the buttons and the save and clear guards |

## Model

| member | source | states |
|---|---|---|
| `Strings.IntToStringRoundTrip` | DragonMoonNavRecorder/NavRecorder.cs:226 | The decimal text written for a count or a landcell is well formed, and it parses back to the same integer. |
| `Strings.TrimPadded` | DragonMoonNavRecorder/PluginCore.cs:151 | `Trim` removes any whitespace padding on either side: padded text trims to the same result as the text without the padding, and when that text neither starts nor ends with whitespace, the result is that text exactly. |
| `Strings.ToLowerIdempotent` | DragonMoonNavRecorder/PluginCore.cs:151 | Lower-casing text that is already lower-case changes nothing. |
| `JsonEscape.EscapeJsonStringIsFaithful` | Plugins/NavRecorder/NavRecorder.cs:253-263 | The output is escaped for the five characters the chain handles: it holds no raw line feed, carriage return or tab, and no quote outside an escape. It unescapes back to the input. A null or empty input gives the empty string. |
| `JsonEscape.ReplaceChainIsEscapeChars` | Plugins/NavRecorder/NavRecorder.cs:258-262 | The five whole-string replacements, applied in order, give the same result as escaping each character on its own. The backslash being replaced first is what makes this hold. |
| `JsonEscape.EscapeUnescape` | Plugins/NavRecorder/NavRecorder.cs:258-262 | Per-character escaping and unescaping are inverse bijections between all strings and well-escaped strings. |
| `JsonEscape.WellEscapedIsSafe` | Plugins/NavRecorder/NavRecorder.cs:258-262 | Escaped text contains no raw newline, carriage return or tab. Every quote in it is preceded by a backslash. |
| `JsonEscape.UnescapedControlCharacter` | Plugins/NavRecorder/NavRecorder.cs:258-262 | A control character other than line feed, carriage return and tab is written unescaped, although section 7 of RFC 8259 requires it to be escaped. |
| `JsonEscape.EscapeJsonStringReadsBack` | Plugins/NavRecorder/NavRecorder.cs:232-234 | A JSON string reader that starts just after the opening quote reads the escaped name back to the original value. It stops at the closing quote and leaves the rest of the text untouched. |
| `EventRecorder.JsonShape` | Plugins/NavRecorder/NavRecorder.cs:203-241 | The document has the lines `{` and `  "waypoints": [`, one line per waypoint in order, then `  ],` and `  "events": [`, one line per event in order, then `  ]` and `}`. Every item line except the last of its array ends in a comma. |
| `EventRecorder.EmptyJson` | Plugins/NavRecorder/NavRecorder.cs:203-241 | With no waypoints and no events, the document is still written, with two empty arrays. |
| `EventRecorder.EventItemReadsBack` | Plugins/NavRecorder/NavRecorder.cs:227-238 | The name written in an event's line reads back as that event's name, whatever characters it contains. |
| `EventRecorder.Recorder.constructor` | Plugins/NavRecorder/NavRecorder.cs:12-17 | A new recorder is stopped, holds no waypoints and no events, and its last position is the origin. |
| `EventRecorder.Recorder.StartRecording` | Plugins/NavRecorder/NavRecorder.cs:34-67 | While already recording, nothing changes. Otherwise recording starts with no events. If the player position can be read, the waypoints are reset to that one position and it becomes the last position. If not, the waypoints are empty and the last position is kept. |
| `EventRecorder.Recorder.StopRecording` | Plugins/NavRecorder/NavRecorder.cs:69-77 | While stopped, nothing changes and nothing is saved. Otherwise recording stops, the lists are kept, and `route_<stamp>.json` is saved with the JSON document of those lists. |
| `EventRecorder.Recorder.OnMovement` | Plugins/NavRecorder/NavRecorder.cs:79-116 | A waypoint is appended, and the last position updated, exactly when the recorder is recording, the position can be read and some axis moved more than 0.1. Otherwise nothing changes. The list stays free of consecutive waypoints that are within 0.1 on every axis. |
| `EventRecorder.Recorder.OnClick` | Plugins/NavRecorder/NavRecorder.cs:118-149 | While recording, exactly one click event is appended. It is labelled with the given name unless it is null or empty. Otherwise the label is the world object's name, or `Unknown` when the object or its name is null. While stopped, nothing changes. |
| `EventRecorder.Recorder.OnPortalUse` | Plugins/NavRecorder/NavRecorder.cs:151-168 | While recording, exactly one portal event is appended, named after the portal, or `Unknown` when the name is null. While stopped, nothing changes. |
| `EventRecorder.Recorder.OnChatMessage` | Plugins/NavRecorder/NavRecorder.cs:170-187 | While recording, exactly one chat event is appended, carrying the message or the empty string. While stopped, nothing changes. |
| `EventRecorder.Recorder.SaveToJson` | Plugins/NavRecorder/NavRecorder.cs:189-251 | The text it builds line by line is exactly the route document of the current waypoints and events. |
| `EventRecorder.Recorder.AppendWaypoints` | Plugins/NavRecorder/NavRecorder.cs:207-222 | The waypoints loop appends exactly the waypoint item lines, with their commas, to the text built so far. |
| `EventRecorder.Recorder.AppendEvents` | Plugins/NavRecorder/NavRecorder.cs:227-238 | The events loop appends exactly the event item lines, with their commas and escaped names, to the text built so far. |
| `EventPlugin.StatusText` | Plugins/NavRecorder/PluginCore.cs:205-212 | The label reads `Status: Recording` exactly when the recorder is recording, and `Status: Stopped` exactly when it is not. |
| `EventPlugin.Plugin.constructor` | Plugins/NavRecorder/PluginCore.cs:20 | The plugin owns a fresh, stopped recorder with no waypoints and no events, whose last position is the origin. |
| `EventPlugin.Plugin.Movement` | Plugins/NavRecorder/PluginCore.cs:119-127 | Every movement is forwarded, with the same outcome as `OnMovement`. |
| `EventPlugin.Plugin.ChangeObject` | Plugins/NavRecorder/PluginCore.cs:129-145 | Only the removal of a non-null object of class Portal records a portal event, named after that object. All other changes leave the recorder unchanged. |
| `EventPlugin.Plugin.ChatMessageReceived` | Plugins/NavRecorder/PluginCore.cs:147-158 | A message with non-null text is recorded as a chat event while recording. A null text is ignored. |
| `EventPlugin.Plugin.ItemUsed` | Plugins/NavRecorder/PluginCore.cs:160-175 | A non-zero target that the world resolves is recorded as a click, labelled with its name or `Unknown`. Any other target is ignored. |
| `EventPlugin.Plugin.StartButtonClick` | Plugins/NavRecorder/PluginCore.cs:177-186 | Afterwards the recorder is recording. A click while already recording changes nothing. Otherwise the events are emptied. If the position can be read, the waypoints are reset to that one position and it becomes the last position. If not, the waypoints are empty and the last position is kept. |
| `EventPlugin.Plugin.StopButtonClick` | Plugins/NavRecorder/PluginCore.cs:188-197 | Afterwards the recorder is stopped, with its lists and its last position kept. A route is saved exactly when it was recording, as `route_<stamp>.json` holding the JSON document of those lists. A click while stopped changes nothing. |
| `EventPlugin.Plugin.Logoff` | Plugins/NavRecorder/PluginCore.cs:73-88 | Afterwards the recorder is stopped, with its lists and its last position kept. A route is saved exactly when it was recording, as `route_<stamp>.json` holding the JSON document of those lists. |
| `EventPlugin.Plugin.Shutdown` | Plugins/NavRecorder/PluginCore.cs:41-58 | Afterwards the recorder is stopped, with its lists and its last position kept. A route is saved exactly when it was recording, as `route_<stamp>.json` holding the JSON document of those lists. |
| `PollRecorder.SampledInClockOrder` | DragonMoonNavRecorder/NavRecorder.cs:133-152 | If the clock never runs backwards, the recorded timestamps never decrease in insertion order. The source does not guarantee this hypothesis: `DateTime.Now` is local wall-clock time, which can run backwards, for example on a daylight-saving change or a clock reset. |
| `PollRecorder.NavFileShape` | DragonMoonNavRecorder/NavRecorder.cs:224-233 | A saved route has exactly the number of points plus four lines: the title, the format line, a count line whose number parses back to the point count, and a blank line. After them comes one line per point, in snapshot order. |
| `PollRecorder.PointLineFields` | DragonMoonNavRecorder/NavRecorder.cs:231-232 | When the formatters write no comma, a point line splits at its commas into exactly the five fields X, Y, Z, landcell and timestamp, and the landcell parses back. |
| `PollRecorder.Recorder.constructor` | DragonMoonNavRecorder/NavRecorder.cs:42-46 | A new recorder is stopped and holds no points. |
| `PollRecorder.Recorder.StartRecording` | DragonMoonNavRecorder/NavRecorder.cs:79-94 | Afterwards the recorder is recording and its points are kept. Calling it while already recording changes nothing. |
| `PollRecorder.Recorder.StopRecording` | DragonMoonNavRecorder/NavRecorder.cs:99-117 | Afterwards the recorder is stopped and its points are kept. Calling it while stopped changes nothing. |
| `PollRecorder.Recorder.Tick` | DragonMoonNavRecorder/NavRecorder.cs:126-162 | While stopped, one wake-up ends the loop and appends nothing. While recording, it appends exactly one point, stamped with the clock, if the player can be read, and nothing if not. |
| `PollRecorder.Recorder.RecordingLoop` | DragonMoonNavRecorder/NavRecorder.cs:122-169 | Over a run of wake-ups, a recording recorder appends exactly the sampled points, in order. A stopped one appends nothing. |
| `PollRecorder.Recorder.ClearPoints` | DragonMoonNavRecorder/NavRecorder.cs:174-180 | Afterwards there are no points. The recording flag is untouched. |
| `PollRecorder.Recorder.GetPoints` | DragonMoonNavRecorder/NavRecorder.cs:185-191 | The snapshot equals the recorded points. |
| `PollRecorder.Recorder.SaveToFile` | DragonMoonNavRecorder/NavRecorder.cs:198-245 | Succeeds exactly when there is at least one point. On success the lines written are the route file of the snapshot. On refusal nothing is written. |
| `PollPlugin.TogglesCountRisingEdges` | DragonMoonNavRecorder/PluginCore.cs:122-141 | Over any run of frames, the key flag ends equal to the last frame's key state. Recording ends flipped exactly when the run holds an odd number of presses (key down after key up). |
| `PollPlugin.HeldKeyTogglesOnce` | DragonMoonNavRecorder/PluginCore.cs:122-141 | From a released key, holding F9 down for one or more frames toggles recording exactly once. |
| `PollPlugin.CommandIgnoresCaseAndPadding` | DragonMoonNavRecorder/PluginCore.cs:151-153 | A chat line is recognised as the same command regardless of whitespace padding and ASCII case. |
| `PollPlugin.Controller.constructor` | DragonMoonNavRecorder/PluginCore.cs:56-84 | Startup creates a fresh, stopped recorder with no points, and the F9 flag starts released. |
| `PollPlugin.Controller.RenderFrame` | DragonMoonNavRecorder/PluginCore.cs:122-141 | One frame follows the edge detector: recording toggles only on a key down after a key up, and the flag follows the key. Points are untouched. |
| `PollPlugin.Controller.ToggleRecording` | DragonMoonNavRecorder/PluginCore.cs:205-222 | The recording state flips and the points are kept. |
| `PollPlugin.Controller.CommandLineText` | DragonMoonNavRecorder/PluginCore.cs:147-200 | Each recognised command is eaten and acted on: toggle flips, start starts, stop stops, save saves the route, and clear empties the points only while stopped. Unrecognised text leaves the eat flag and the recorder as they were. |
| `PollPlugin.Controller.SaveRoute` | DragonMoonNavRecorder/PluginCore.cs:334-359 | Nothing is saved exactly when there are no points. Otherwise the file `NavRoute_<stamp>.nav` is saved with the route file's lines. |
| `PollPlugin.Controller.ClearRouteClick` | DragonMoonNavRecorder/PluginCore.cs:361-378 | While recording, the click is refused and nothing changes. While stopped, the points are emptied. |
| `PollPlugin.Controller.StartRecordingClick` | DragonMoonNavRecorder/PluginCore.cs:283-300 | Afterwards the recorder is recording and its points are kept. |
| `PollPlugin.Controller.StopRecordingClick` | DragonMoonNavRecorder/PluginCore.cs:302-319 | Afterwards the recorder is stopped and its points are kept. |
| `PollPlugin.Controller.Shutdown` | DragonMoonNavRecorder/PluginCore.cs:89-117 | Afterwards the recorder is stopped and its points are kept. |
| `PollPlugin.Controller.Logoff` | DragonMoonNavRecorder/PluginCore.cs:267-279 | Afterwards the recorder is stopped and its points are kept. |

## Left out

- **Threads, locks, Join and Sleep.** The poll loop is not a thread here. Each wake-up is one atomic `Tick`, and `RecordingLoop` runs over a finite sequence of wake-ups, since the source's `while (true)` runs until the flag clears. The 100 ms interval and the one-second join timeout are not modelled.
- `PollRecorder.Recorder.StopRecording` and `PollRecorder.Recorder.Tick`: the source takes the lock twice per wake-up. It tests the flag under one lock (DragonMoonNavRecorder/NavRecorder.cs:128-132), then reads the player outside the lock (137-147) and appends under a second lock (148-151) without testing the flag again. A `StopRecording` that lands between the two still gets one more point appended, and its `Join` (110-116) waits for that append. So in the source, `StopRecording` can return with one point more than it started with. The model treats each wake-up as atomic, and its `StopRecording` keeps the points exactly.
- **File system work.** Directories, path combining and the file writes themselves are left out. A save returns the name and the text or lines it would write.
- **Time.** The clock (`DateTime.Now`) and the `yyyyMMdd_HHmmss`, `yyyy-MM-dd_HH-mm-ss` (the `.nav` file-name stamp, DragonMoonNavRecorder/PluginCore.cs:345) and `yyyy-MM-dd HH:mm:ss.fff` formats are left out. The clock is an `Instant` argument and the formatted stamps are string arguments.
- **Number formatting.** `F2` and `F6` formatting of doubles is passed in as a function. Coordinates are real numbers rather than IEEE doubles.
- **Exceptions.** Chat output and error logging (`Util.WriteToChat`, `Util.LogError`) and every `try`/`catch` path are left out. The model assumes the host calls do not throw. In particular, `SaveToFile` returns `false` from its `catch` when writing fails (DragonMoonNavRecorder/NavRecorder.cs:239-244). The model does not cover that path: its `SaveToFile` fails only on an empty snapshot.
- **UI and timers.** The labels other than the status label are left out: the statistics text, the point-count and info labels, and the poll plugin's `UpdateUI` and status timer.
- **Event subscription.** Subscribing to and unsubscribing from host events, and the login-complete greeting, are left out. Each handler is a method called with the event's payload.
- **Hotkey input.** `GetAsyncKeyState` is a boolean argument of each frame.
- `EscapeJsonString` (Plugins/NavRecorder/NavRecorder.cs:253-263) escapes only backslash, quotation mark, line feed, carriage return and tab. The other control characters U+0000 to U+001F pass through raw (`JsonEscape.UnescapedControlCharacter`), so an event name holding one makes the saved document invalid JSON under section 7 of RFC 8259. The model keeps the source's behaviour.
- `WaypointCount`, `EventCount` and `PointCount` only return the length of a list. They are plain functions with no contract of their own, because the class contracts already state every change to the lists.
- `SaveRoute_Click` (DragonMoonNavRecorder/PluginCore.cs:321-329) only calls `SaveRoute`, which is modelled.
- `PollPlugin.ParseCommand`: `ToLower` lower-cases ASCII letters only, not the current culture's full case mapping.
- `PollPlugin.Controller.CommandLineText`: a null chat text, which throws in the source, is not modelled.
- `PollRecorder.PointLineFields`: assumes formatter output without commas. `string.Format` there uses the current culture, whose decimal separator may be a comma, in which case a line does not split into five fields.

Behaviour the code does not have, listed so that a reader does not expect it:

- A Euclidean distance filter. The movement filter compares the distance along each axis separately with 0.1, so a diagonal step of 0.08 on every axis is dropped.
- A distance filter in the poll loop. It records a point on every wake-up.
- Skipping the save of an empty route. `SaveToJson` writes a document even when both lists are empty.
- Atomic file writes and typed errors. Files are written in place. A failed JSON save is only logged, and a failed `.nav` save only turns into `false`.
