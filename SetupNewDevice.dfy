/** Onboarding step 3 (AddDeviceScreen): pick a device and create it in the remembered room. */
module SetupNewDevice {
  import opened Common
  import opened Catalog
  import opened Runtime

  const NoDeviceMessage := "Please select a device before continuing."
  const InvalidRoomMessage := "Invalid room selected."
  const AddedMessage := "Device added successfully!"
  const RejectedMessage := "Failed to add device."
  const TransportMessage := "An error occurred while adding the device."

  /**
   * The effects of `handleNext` for the selected device and room and the
   * server's answer; the body of a 2xx answer is only logged, so it is `()`.
   */
  function NextEffects(selectedDevice: string, selectedRoom: string, response: Response<()>): (r: seq<Effect>)
    ensures r != [] && (r[|r| - 1].Alert? || r[|r| - 1].Navigate?)
    ensures r[0].Send? <==> selectedDevice != "" && RoomId(selectedRoom).Some?
    ensures forall i :: 0 <= i < |r| ==> !r[i].SetItem?
  {
    if selectedDevice == "" then [Alert(NoDeviceMessage)]
    else match RoomId(selectedRoom)
      case None => [Alert(InvalidRoomMessage)]
      case Some(roomId) =>
        [Send(CreateDevice(selectedDevice, DeviceTypeId(selectedDevice), roomId))] +
        match response
        case Success(_) => [Alert(AddedMessage), Navigate(Replace, "/(tabs)")]
        case Failure(_) => [Alert(RejectedMessage)]
        case NoResponse(_) => [Alert(TransportMessage)]
  }

  class AddDeviceScreen {
    var selectedDevice: string
    var homeName: string
    var selectedRoom: string

    constructor ()
      ensures selectedDevice == "" && homeName == "" && selectedRoom == ""
    {
      selectedDevice, homeName, selectedRoom := "", "", "";
    }

    /** The first mount-time load: a stored, non-empty `selectedRoom` replaces the selection. */
    method LoadSelectedRoom(env: Env)
      modifies this
      ensures selectedRoom == Restored(old(selectedRoom), Lookup(env.storage, "selectedRoom"))
      ensures selectedDevice == old(selectedDevice) && homeName == old(homeName)
    {
      var stored := env.GetItem("selectedRoom");
      if stored.Some? && stored.value != "" {
        selectedRoom := stored.value;
      }
    }

    /** The second mount-time load: a stored, non-empty `homeName` replaces the home name. */
    method LoadHomeName(env: Env)
      modifies this
      ensures homeName == Restored(old(homeName), Lookup(env.storage, "homeName"))
      ensures selectedDevice == old(selectedDevice) && selectedRoom == old(selectedRoom)
    {
      var stored := env.GetItem("homeName");
      if stored.Some? && stored.value != "" {
        homeName := stored.value;
      }
    }

    /** The picker's `onValueChange`. */
    method SelectDevice(device: string)
      modifies this
      ensures selectedDevice == device
      ensures homeName == old(homeName) && selectedRoom == old(selectedRoom)
    {
      selectedDevice := device;
    }

    method HandleNext(env: Env, response: Response<()>)
      requires env.Valid()
      modifies env
      ensures env.Valid()
      ensures env.log == old(env.log) + NextEffects(selectedDevice, selectedRoom, response)
      ensures env.storage == old(env.storage)
    {
      ghost var before := env.log;
      if selectedDevice == "" {
        env.Perform(Alert(NoDeviceMessage));
        return;
      }
      var roomId := RoomId(selectedRoom);
      if roomId.None? {
        env.Perform(Alert(InvalidRoomMessage));
        return;
      }
      var deviceTypeId := DeviceTypeId(selectedDevice);
      var request := CreateDevice(selectedDevice, deviceTypeId, roomId.value);
      env.Perform(Send(request));
      match response {
        case Success(_) =>
          env.Perform(Alert(AddedMessage));
          env.Perform(Navigate(Replace, "/(tabs)"));
          assert env.log == before + [Send(request), Alert(AddedMessage), Navigate(Replace, "/(tabs)")];
        case Failure(_) =>
          env.Perform(Alert(RejectedMessage));
          assert env.log == before + [Send(request), Alert(RejectedMessage)];
        case NoResponse(_) =>
          env.Perform(Alert(TransportMessage));
          assert env.log == before + [Send(request), Alert(TransportMessage)];
      }
    }
  }

  /** With no device selected only the device alert appears, whatever the room: the device check comes first. */
  lemma NoDeviceRejected(selectedRoom: string, response: Response<()>)
    ensures NextEffects("", selectedRoom, response) == [Alert(NoDeviceMessage)]
    ensures Requests(NextEffects("", selectedRoom, response)) == []
  {
  }

  /** A selected device in an unlisted room, "" included, only alerts "Invalid room selected.". */
  lemma UnknownRoomRejected(selectedDevice: string, selectedRoom: string, response: Response<()>)
    requires selectedDevice != "" && !IsRoomName(selectedRoom)
    ensures NextEffects(selectedDevice, selectedRoom, response) == [Alert(InvalidRoomMessage)]
    ensures Requests(NextEffects(selectedDevice, selectedRoom, response)) == []
  {
    RoomIdMatchesTable(selectedRoom, 0);
  }

  /**
   * Whenever a request goes out it is the only one, named after the device,
   * with the room's listed id (2, 3 or 4) and the device's type id (1, 2, 3 or 7).
   */
  lemma RequestPayload(selectedDevice: string, selectedRoom: string, response: Response<()>)
    requires Requests(NextEffects(selectedDevice, selectedRoom, response)) != []
    ensures selectedDevice != "" && IsRoomName(selectedRoom)
    ensures exists roomId ::
      && (selectedRoom, roomId) in Rooms && roomId in {2, 3, 4}
      && Requests(NextEffects(selectedDevice, selectedRoom, response))
         == [CreateDevice(selectedDevice, DeviceTypeId(selectedDevice), roomId)]
    ensures DeviceTypeId(selectedDevice) in {1, 2, 3, 7}
  {
    var effects := NextEffects(selectedDevice, selectedRoom, response);
    if selectedDevice == "" || RoomId(selectedRoom).None? {
      NoRequest(effects);
      assert false;
    }
    DeviceTypeIdMatchesTable(selectedDevice);
    RoomIdMatchesTable(selectedRoom, 0);
    var roomId := RoomId(selectedRoom).value;
    RoomIdMatchesTable(selectedRoom, roomId);
    RoomIdRangeAndInjective(selectedRoom, selectedRoom);
    OnlyRequest(effects, 0);
  }

  /**
   * Once the request is sent, the screen navigates (to the tabs, after the
   * success alert) exactly when the answer is 2xx; otherwise its last effect
   * is the failure alert. The screen never writes storage.
   */
  lemma ResponseHandled(selectedDevice: string, selectedRoom: string, response: Response<()>, storage: map<string, string>)
    requires selectedDevice != "" && IsRoomName(selectedRoom)
    ensures var effects := NextEffects(selectedDevice, selectedRoom, response);
      && Replay(storage, effects) == storage
      && (response.Success? ==> Navigations(effects) == [(Replace, "/(tabs)")] && Alert(AddedMessage) in effects)
      && (response.Failure? ==> Navigations(effects) == [] && effects[|effects| - 1] == Alert(RejectedMessage))
      && (response.NoResponse? ==> Navigations(effects) == [] && effects[|effects| - 1] == Alert(TransportMessage))
  {
    RoomIdMatchesTable(selectedRoom, 0);
    var effects := NextEffects(selectedDevice, selectedRoom, response);
    ReplayWithoutWrites(storage, effects);
    if response.Success? {
      NavigatesLast(effects);
    } else {
      NoNavigation(effects);
    }
  }
}
