/**
 * The host glue of the NavRecorder plugin (`PluginCore`): the guards that
 * decide which host events reach the event-mode recorder, the Start and Stop
 * buttons, the logoff and shutdown stops, and the status label.
 *
 * Subscribing and unsubscribing to host events, view wiring and chat output
 * are not modelled; each handler is a method called with the event's payload.
 */
module EventPlugin {
  import opened Optional
  import opened Strings
  import opened EventRecorder

  /** The kinds of world change the host reports; only removals matter here. */
  datatype WorldChange = RemoveObject | OtherChange

  /** `WorldFilter_ChangeObject` reports a portal use for the removal of a
    * non-null object of class Portal, and for nothing else. */
  predicate ForwardsPortalUse(change: WorldChange, changed: Option<WorldObject>)
  {
    change == RemoveObject && changed.Some? && changed.value.objectClass == Portal
  }

  /** `Actions_ItemUsed` reports a click for a non-zero target the world resolves. */
  predicate ForwardsClick(target: int, world: World)
  {
    target != 0 && target in world
  }

  /** The status label `UpdateStatus` shows. */
  function StatusText(recording: bool): (s: string)
    ensures s == "Status: Recording" <==> recording
    ensures s == "Status: Stopped" <==> !recording
  {
    "Status: " + (if recording then "Recording" else "Stopped")
  }

  class Plugin {
    const recorder: Recorder

    ghost predicate Valid()
      reads this, recorder
    {
      recorder.Valid()
    }

    constructor ()
      ensures Valid() && fresh(recorder)
      ensures !recorder.isRecording && recorder.waypoints == [] && recorder.events == []
      ensures recorder.Last() == Position(0.0, 0.0, 0.0)
    {
      recorder := new Recorder();
    }

    /** `CharacterFilter_Movement`: every movement goes to `OnMovement`. */
    method Movement(position: Option<Position>)
      requires Valid()
      modifies recorder
      ensures Valid()
      ensures recorder.isRecording == old(recorder.isRecording) && recorder.events == old(recorder.events)
      ensures if old(recorder.isRecording) && position.Some? && MovedEnough(old(recorder.Last()), position.value)
              then recorder.waypoints == old(recorder.waypoints) + [MoveAt(position.value)]
                   && recorder.Last() == position.value
              else recorder.waypoints == old(recorder.waypoints) && recorder.Last() == old(recorder.Last())
    {
      recorder.OnMovement(position);
    }

    /** `WorldFilter_ChangeObject`: a removed portal is recorded as a portal
      * use under the portal's name; every other change is ignored. */
    method ChangeObject(change: WorldChange, changed: Option<WorldObject>)
      requires Valid()
      modifies recorder
      ensures Valid()
      ensures recorder.isRecording == old(recorder.isRecording)
      ensures recorder.waypoints == old(recorder.waypoints) && recorder.Last() == old(recorder.Last())
      ensures recorder.events == old(recorder.events) +
        (if old(recorder.isRecording) && ForwardsPortalUse(change, changed)
         then [Event("portal", PortalLabel(changed.value.name))] else [])
    {
      if change == RemoveObject {
        var obj := changed;
        if obj.Some? && obj.value.objectClass == Portal {
          recorder.OnPortalUse(obj.value.name);
        }
      }
    }

    /** `Actions_ChatMessageReceived`: a message with non-null text is
      * recorded as a chat event carrying that text; a null text is ignored. */
    method ChatMessageReceived(text: Option<string>)
      requires Valid()
      modifies recorder
      ensures Valid()
      ensures recorder.isRecording == old(recorder.isRecording)
      ensures recorder.waypoints == old(recorder.waypoints) && recorder.Last() == old(recorder.Last())
      ensures recorder.events == old(recorder.events) +
        (if old(recorder.isRecording) && text.Some? then [Event("chat", text.value)] else [])
    {
      if text.Some? {
        recorder.OnChatMessage(text);
      }
    }

    /** `Actions_ItemUsed`: a use of a non-zero target that the world
      * resolves is recorded as a click labelled with the object's name, or
      * "Unknown" when that name is null; anything else is ignored. */
    method ItemUsed(target: int, world: World)
      requires Valid()
      modifies recorder
      ensures Valid()
      ensures recorder.isRecording == old(recorder.isRecording)
      ensures recorder.waypoints == old(recorder.waypoints) && recorder.Last() == old(recorder.Last())
      ensures recorder.events == old(recorder.events) +
        (if old(recorder.isRecording) && ForwardsClick(target, world)
         then [Event("click", if world[target].name.Some? then world[target].name.value else "Unknown")]
         else [])
    {
      if target != 0 {
        var obj := Lookup(world, target);
        if obj.Some? {
          recorder.OnClick(target, obj.value.name, world);
        }
      }
    }

    /** The Start button delegates to `StartRecording`, so a click while
      * recording changes nothing. */
    method StartButtonClick(position: Option<Position>)
      requires Valid()
      modifies recorder
      ensures Valid() && recorder.isRecording
      ensures old(recorder.isRecording) ==> unchanged(recorder)
      ensures !old(recorder.isRecording) ==> recorder.events == []
      ensures !old(recorder.isRecording) ==>
        recorder.waypoints == (if position.Some? then [MoveAt(position.value)] else [])
      ensures !old(recorder.isRecording) ==>
        recorder.Last() == (if position.Some? then position.value else old(recorder.Last()))
    {
      recorder.StartRecording(position);
    }

    /** The Stop button delegates to `StopRecording`, so a click while
      * stopped changes nothing and saves nothing. */
    method StopButtonClick(f2: real -> string, stamp: string) returns (saved: Option<JsonFile>)
      requires Valid()
      modifies recorder
      ensures Valid() && !recorder.isRecording
      ensures !old(recorder.isRecording) ==> unchanged(recorder) && saved == None
      ensures recorder.waypoints == old(recorder.waypoints) && recorder.events == old(recorder.events)
      ensures recorder.Last() == old(recorder.Last())
      ensures old(recorder.isRecording) ==>
        saved == Some(JsonFile("route_" + stamp + ".json", Unlines(JsonLines(recorder.waypoints, recorder.events, f2))))
    {
      saved := recorder.StopRecording(f2, stamp);
    }

    /** `CharacterFilter_Logoff`: stops (and so saves) a running recording. */
    method Logoff(f2: real -> string, stamp: string) returns (saved: Option<JsonFile>)
      requires Valid()
      modifies recorder
      ensures Valid() && !recorder.isRecording
      ensures recorder.waypoints == old(recorder.waypoints) && recorder.events == old(recorder.events)
      ensures recorder.Last() == old(recorder.Last())
      ensures saved.Some? <==> old(recorder.isRecording)
      ensures old(recorder.isRecording) ==>
        saved == Some(JsonFile("route_" + stamp + ".json", Unlines(JsonLines(recorder.waypoints, recorder.events, f2))))
    {
      saved := None;
      if recorder.isRecording {
        saved := recorder.StopRecording(f2, stamp);
      }
    }

    /** `Shutdown`: stops (and so saves) a running recording. */
    method Shutdown(f2: real -> string, stamp: string) returns (saved: Option<JsonFile>)
      requires Valid()
      modifies recorder
      ensures Valid() && !recorder.isRecording
      ensures recorder.waypoints == old(recorder.waypoints) && recorder.events == old(recorder.events)
      ensures recorder.Last() == old(recorder.Last())
      ensures saved.Some? <==> old(recorder.isRecording)
      ensures old(recorder.isRecording) ==>
        saved == Some(JsonFile("route_" + stamp + ".json", Unlines(JsonLines(recorder.waypoints, recorder.events, f2))))
    {
      saved := None;
      if recorder.isRecording {
        saved := recorder.StopRecording(f2, stamp);
      }
    }
  }

  /** The three-position stream of a short walk: the middle position is
    * within the threshold of the first and is dropped; a diagonal step of
    * 0.08 on every axis is dropped too, although it is longer than 0.1. */
  method MovementScenario()
  {
    var plugin := new Plugin();
    plugin.StartButtonClick(Some(Position(0.0, 0.0, 0.0)));
    plugin.Movement(Some(Position(0.05, 0.0, 0.0)));
    plugin.Movement(Some(Position(0.2, 0.0, 0.0)));
    assert plugin.recorder.waypoints == [MoveAt(Position(0.0, 0.0, 0.0)), MoveAt(Position(0.2, 0.0, 0.0))];
    plugin.Movement(Some(Position(0.28, 0.08, 0.08)));
    assert |plugin.recorder.waypoints| == 2;
  }

  /** A used item whose name the world cannot give is recorded as "Unknown";
    * a portal removal while stopped records nothing. */
  method EventScenario(f2: real -> string)
  {
    var plugin := new Plugin();
    plugin.ChangeObject(RemoveObject, Some(WorldObject(Some("Town Portal"), Portal)));
    assert plugin.recorder.events == [];
    plugin.StartButtonClick(None);
    plugin.ItemUsed(7, map[7 := WorldObject(None, OtherClass)]);
    plugin.ChatMessageReceived(None);
    plugin.ChangeObject(RemoveObject, Some(WorldObject(Some("Town Portal"), Portal)));
    assert plugin.recorder.events == [Event("click", "Unknown"), Event("portal", "Town Portal")];
    var saved := plugin.StopButtonClick(f2, "20240101_120000");
    assert saved.Some?;
  }
}
