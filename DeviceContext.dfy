/**
 * The device toggle store (DeviceProvider): a map from device id to a local
 * on/off flag and a list of automation rules. It is a UI-only affordance,
 * never sent to or read from the server.
 */
module DeviceContext {

  datatype RuleKind = On | Off

  datatype AutomationRule = AutomationRule(kind: RuleKind, time: string)

  datatype DeviceEntry = DeviceEntry(isOn: bool, automationRules: seq<AutomationRule>)

  type DeviceState = map<int, DeviceEntry>

  /** How the screens read a device's switch: `deviceState[id]?.isOn || false`. */
  predicate IsOn(state: DeviceState, id: int) {
    id in state && state[id].isOn
  }

  /**
   * The updater `toggleDevice(id)` passes to `setDeviceState`: every other
   * entry is spread unchanged, `isOn` becomes `!prev[id]?.isOn` and the
   * rules become `prev[id]?.automationRules || []`. Any id is accepted.
   */
  function Toggled(prev: DeviceState, id: int): (r: DeviceState)
    ensures r.Keys == prev.Keys + {id}
    ensures IsOn(r, id) == !IsOn(prev, id)
  {
    prev[id := DeviceEntry(!IsOn(prev, id), if id in prev then prev[id].automationRules else [])]
  }

  /** The state after toggling each id of `ids` in turn. */
  function ToggleAll(state: DeviceState, ids: seq<int>): DeviceState
    decreases |ids|
  {
    if ids == [] then state else ToggleAll(Toggled(state, ids[0]), ids[1..])
  }

  /** The store that DeviceProvider keeps in a `useState` cell. */
  class DeviceProvider {
    var deviceState: DeviceState

    /** The store starts with no entries. */
    constructor ()
      ensures deviceState == map[]
    {
      deviceState := map[];
    }

    method ToggleDevice(id: int)
      modifies this
      ensures deviceState == Toggled(old(deviceState), id)
      ensures IsOn(deviceState, id) == !IsOn(old(deviceState), id)
    {
      deviceState := Toggled(deviceState, id);
    }
  }

  /** The first toggle of an id without an entry creates it switched on, with no rules. */
  lemma ToggleUnseen(prev: DeviceState, id: int)
    requires id !in prev
    ensures id in Toggled(prev, id) && Toggled(prev, id)[id] == DeviceEntry(true, [])
  {
  }

  /** Toggling an existing entry negates its flag and keeps its rules exactly. */
  lemma ToggleExisting(prev: DeviceState, id: int)
    requires id in prev
    ensures id in Toggled(prev, id)
    ensures Toggled(prev, id)[id].isOn == !prev[id].isOn
    ensures Toggled(prev, id)[id].automationRules == prev[id].automationRules
  {
  }

  /** Toggling one id adds at most that id and leaves every other entry as it was. */
  lemma ToggleFrame(prev: DeviceState, id: int, other: int)
    requires other != id
    ensures Toggled(prev, id).Keys == prev.Keys + {id}
    ensures other in Toggled(prev, id) <==> other in prev
    ensures other in prev ==> Toggled(prev, id)[other] == prev[other]
  {
  }

  /**
   * Toggling twice restores the entry: exactly, when it existed; otherwise it
   * leaves the default entry, off and without rules.
   */
  lemma ToggleTwice(prev: DeviceState, id: int)
    ensures Toggled(Toggled(prev, id), id) == if id in prev then prev else prev[id := DeviceEntry(false, [])]
  {
    if id in prev {
      assert Toggled(Toggled(prev, id), id)[id] == prev[id];
    }
  }

  /** Toggles of two different ids commute. */
  lemma ToggleCommutes(state: DeviceState, a: int, b: int)
    requires a != b
    ensures Toggled(Toggled(state, a), b) == Toggled(Toggled(state, b), a)
  {
  }

  /** How often `id` occurs in a non-empty run of ids: once more than in its tail when it heads the run. */
  lemma CountAfterHead(ids: seq<int>, id: int)
    requires ids != []
    ensures multiset(ids)[id] == multiset(ids[1..])[id] + (if ids[0] == id then 1 else 0)
  {
    assert ids == [ids[0]] + ids[1..];
  }

  /** After any run of toggles an id is on iff it was on XOR it was toggled an odd number of times. */
  lemma {:induction false} ToggleAllParity(state: DeviceState, ids: seq<int>, id: int)
    ensures IsOn(ToggleAll(state, ids), id) == (IsOn(state, id) != (multiset(ids)[id] % 2 == 1))
    decreases |ids|
  {
    if ids != [] {
      var head, rest := ids[0], ids[1..];
      var next := Toggled(state, head);
      ToggleAllParity(next, rest, id);
      assert ToggleAll(state, ids) == ToggleAll(next, rest);
      if head != id {
        ToggleFrame(state, head, id);
      }
      assert IsOn(next, id) == (IsOn(state, id) != (head == id));
      CountAfterHead(ids, id);
      var m := multiset(rest)[id];
      assert ((m + 1) % 2 == 1) == (m % 2 != 1);
    }
  }

  /** No run of toggles adds, removes or reorders an existing entry's automation rules. */
  lemma {:induction false} ToggleAllKeepsRules(state: DeviceState, ids: seq<int>, id: int)
    requires id in state
    ensures id in ToggleAll(state, ids)
    ensures ToggleAll(state, ids)[id].automationRules == state[id].automationRules
    decreases |ids|
  {
    if ids != [] {
      ToggleAllKeepsRules(Toggled(state, ids[0]), ids[1..], id);
    }
  }
}
