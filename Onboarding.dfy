/**
 * The hand-off between the three setup screens: each step leaves its choice
 * in storage and the next screen's mount-time load picks it up.
 */
module Onboarding {
  import opened Common
  import opened JsText
  import opened Catalog
  import opened Runtime
  import SetupNewHome
  import SetupNewRoom
  import SetupNewDevice

  /** A home created under a non-blank name is the name the room screen then displays. */
  lemma HomeNameHandOff(homeName: string, id: int, storage: map<string, string>, shown: string)
    requires !Blank(homeName)
    ensures var after := Replay(storage, SetupNewHome.NextEffects(homeName, Success(Some(id))));
      Restored(shown, Lookup(after, "homeName")) == homeName
  {
    SetupNewHome.HomeSuccessStores(homeName, id, storage);
  }

  /**
   * A room accepted by the room screen is what the device screen restores,
   * and choosing any device there sends one create-device request for that
   * room's id with the device's type id.
   */
  lemma RoomHandOff(room: string, device: string, storage: map<string, string>, initial: string, response: Response<()>)
    requires IsRoomName(room) && device != ""
    ensures var after := Replay(storage, SetupNewRoom.NextEffects(Some(room)));
      var restored := Restored(initial, Lookup(after, "selectedRoom"));
      && restored == room
      && Requests(SetupNewDevice.NextEffects(device, restored, response))
         == [CreateDevice(device, DeviceTypeId(device), RoomId(room).value)]
  {
    SetupNewRoom.KnownRoomStored(room, storage);
    var after := Replay(storage, SetupNewRoom.NextEffects(Some(room)));
    assert Lookup(after, "selectedRoom") == Some(room);
    RoomIdMatchesTable(room, 0);
    var effects := SetupNewDevice.NextEffects(device, room, response);
    assert effects[0] == Send(CreateDevice(device, DeviceTypeId(device), RoomId(room).value));
    OnlyRequest(effects, 0);
  }
}
