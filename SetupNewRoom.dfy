/** Onboarding step 2 (AddRoomScreen): pick a room and remember it for the device step. */
module SetupNewRoom {
  import opened Common
  import opened Catalog
  import opened Runtime

  const NoRoomMessage := "Please select a room before continuing."
  const InvalidRoomMessage := "Invalid room selected."

  /**
   * The effects of `handleNext`. The selection is None for a JavaScript
   * `null`/`undefined`, the only values the `== null` check catches.
   */
  function NextEffects(selectedRoom: Option<string>): (r: seq<Effect>)
    ensures r != [] && (r[|r| - 1].Alert? || r[|r| - 1].Navigate?)
    ensures forall i :: 0 <= i < |r| ==> !r[i].Send?
  {
    match selectedRoom
    case None => [Alert(NoRoomMessage)]
    case Some(room) =>
      if RoomId(room).None? then [Alert(InvalidRoomMessage)]
      else [SetItem("selectedRoom", room), Navigate(Replace, "/setup-new-device")]
  }

  class AddRoomScreen {
    var homeName: string
    var selectedRoom: Option<string>

    /** Both pieces of state start as the empty string; the picker shows its placeholder. */
    constructor ()
      ensures homeName == "" && selectedRoom == Some("")
    {
      homeName := "";
      selectedRoom := Some("");
    }

    /** The mount-time load: a stored, non-empty `homeName` replaces the displayed one. */
    method LoadHomeName(env: Env)
      modifies this
      ensures homeName == Restored(old(homeName), Lookup(env.storage, "homeName"))
      ensures selectedRoom == old(selectedRoom)
    {
      var stored := env.GetItem("homeName");
      if stored.Some? && stored.value != "" {
        homeName := stored.value;
      }
    }

    /** The picker's `onValueChange`. */
    method SelectRoom(room: string)
      modifies this
      ensures selectedRoom == Some(room) && homeName == old(homeName)
    {
      selectedRoom := Some(room);
    }

    method HandleNext(env: Env)
      requires env.Valid()
      modifies env
      ensures env.Valid()
      ensures env.log == old(env.log) + NextEffects(selectedRoom)
      ensures env.storage == Replay(old(env.storage), NextEffects(selectedRoom))
    {
      ghost var before := env.log;
      if selectedRoom.None? {
        env.Perform(Alert(NoRoomMessage));
      } else {
        var room := selectedRoom.value;
        var roomId := RoomId(room);
        if roomId.None? {
          env.Perform(Alert(InvalidRoomMessage));
        } else {
          env.SetItem("selectedRoom", room);
          env.Perform(Navigate(Replace, "/setup-new-device"));
          assert env.log == before + [SetItem("selectedRoom", room), Navigate(Replace, "/setup-new-device")];
        }
      }
      env.ReplayLog(before, NextEffects(selectedRoom));
    }
  }

  /**
   * A selection outside the three rooms, the initial "" included, is caught by
   * the mapping check, not the null check: it alerts and writes nothing.
   */
  lemma UnknownRoomRejected(room: string, storage: map<string, string>)
    requires !IsRoomName(room)
    ensures NextEffects(Some(room)) == [Alert(InvalidRoomMessage)]
    ensures Replay(storage, NextEffects(Some(room))) == storage
    ensures Navigations(NextEffects(Some(room))) == []
  {
    RoomIdMatchesTable(room, 0);
    TraceSingle(None, Alert(InvalidRoomMessage), storage);
  }

  /** The initial selection is rejected as an invalid room. */
  lemma InitialSelectionRejected()
    ensures NextEffects(Some("")) == [Alert(InvalidRoomMessage)]
  {
    UnknownRoomRejected("", map[]);
  }

  /**
   * A listed room stores its name (not its id) under `selectedRoom`, and that
   * write precedes the single replace to the device screen.
   */
  lemma KnownRoomStored(room: string, storage: map<string, string>)
    requires IsRoomName(room)
    ensures var effects := NextEffects(Some(room));
      && Replay(storage, effects) == storage["selectedRoom" := room]
      && Navigations(effects) == [(Replace, "/setup-new-device")]
      && WritesBeforeNavigation(effects)
      && Requests(effects) == []
  {
    RoomIdMatchesTable(room, 0);
    var effects := NextEffects(Some(room));
    NavigatesLast(effects);
    NoRequest(effects);
    TracePair(None, effects[0], effects[1], storage);
  }
}
