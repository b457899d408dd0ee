/**
 * The fixed name-to-id tables the onboarding screens hard-code: room names to
 * backend room ids, and device names to device type ids.
 */
module Catalog {
  import opened Common

  /** The rooms the setup screens offer, with their backend ids. */
  const Rooms: seq<(string, int)> := [("Living Room", 2), ("Bedroom", 3), ("Dining Room", 4)]

  /** The device kinds the device setup screen offers, with their type ids. */
  const DeviceTypes: seq<(string, int)> := [("Smart bulb", 2), ("Vacuum cleaner", 1), ("Humidifier", 3)]

  /** The type id given to any device name outside DeviceTypes. */
  const UnknownDeviceType := 7

  predicate IsRoomName(name: string) {
    exists i :: 0 <= i < |Rooms| && Rooms[i].0 == name
  }

  predicate IsDeviceName(name: string) {
    exists i :: 0 <= i < |DeviceTypes| && DeviceTypes[i].0 == name
  }

  /**
   * The chained ternary on the selected room. The room screen falls back to
   * `null` and the device screen to `""`; both are falsy, so both are None here.
   */
  function RoomId(name: string): (r: Option<int>)
    ensures r.Some? ==> 2 <= r.value <= 4
  {
    if name == "Living Room" then Some(2)
    else if name == "Bedroom" then Some(3)
    else if name == "Dining Room" then Some(4)
    else None
  }

  /** The `switch` on the selected device, with its `default` case. */
  function DeviceTypeId(name: string): (r: int)
    ensures r == 1 || r == 2 || r == 3 || r == UnknownDeviceType
  {
    match name
    case "Smart bulb" => 2
    case "Vacuum cleaner" => 1
    case "Humidifier" => 3
    case _ => UnknownDeviceType
  }

  /** RoomId is exactly the Rooms table: it maps a name to an id iff that pair is listed, and rejects all else. */
  lemma RoomIdMatchesTable(name: string, id: int)
    ensures RoomId(name) == Some(id) <==> (name, id) in Rooms
    ensures RoomId(name).None? <==> !IsRoomName(name)
  {
    if !IsRoomName(name) {
      assert Rooms[0].0 != name && Rooms[1].0 != name && Rooms[2].0 != name;
    } else {
      var i :| 0 <= i < |Rooms| && Rooms[i].0 == name;
    }
  }

  /** Every accepted room id is one of 2, 3, 4, and no two room names share an id. */
  lemma RoomIdRangeAndInjective(a: string, b: string)
    ensures RoomId(a).Some? ==> RoomId(a).value in {2, 3, 4}
    ensures RoomId(a).Some? && RoomId(a) == RoomId(b) ==> a == b
  {
  }

  /** DeviceTypeId agrees with DeviceTypes on listed names, gives 7 to every other name, and never leaves {1, 2, 3, 7}. */
  lemma DeviceTypeIdMatchesTable(name: string)
    ensures IsDeviceName(name) ==> (name, DeviceTypeId(name)) in DeviceTypes
    ensures !IsDeviceName(name) <==> DeviceTypeId(name) == UnknownDeviceType
    ensures DeviceTypeId(name) in {1, 2, 3, 7}
  {
    if !IsDeviceName(name) {
      assert DeviceTypes[0].0 != name && DeviceTypes[1].0 != name && DeviceTypes[2].0 != name;
    } else {
      var i :| 0 <= i < |DeviceTypes| && DeviceTypes[i].0 == name;
    }
  }
}
