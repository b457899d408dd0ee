/**
 * What a screen handler does to the outside world, in the order it does it:
 * alerts, HTTP requests, AsyncStorage writes, `setUser` calls and navigation.
 * The device's key/value storage and the log of those effects live in `Env`.
 * A server's answer is a `Response` handed to the handler as a parameter.
 */
module Runtime {
  import opened Common
  import opened Auth

  /** `router.push` or `router.replace`. */
  datatype NavKind = Push | Replace

  /** The JSON bodies the screens POST. */
  datatype Request =
    | CreateHome(userId: int, homeName: string)
    | CreateDevice(name: string, typeId: int, roomId: int)
    | Login(email: string, password: string)
    | Register(fullname: string, email: string, password: string)

  datatype Effect =
    | Alert(message: string)                    // window `alert(message)`
    | AlertDialog(title: string, message: string)   // `Alert.alert(title, message)`
    | Send(request: Request)                    // a POST to the backend
    | SetItem(key: string, value: string)       // `AsyncStorage.setItem(key, value)`
    | SetUser(user: Option<User>)               // the auth context's `setUser`
    | Navigate(kind: NavKind, route: string)

  /**
   * The server's answer to a request: a 2xx status with the body fields the
   * screen reads, a non-2xx status with the `detail` field of its body (None
   * when absent), or a transport failure with the message of the raised error.
   */
  datatype Response<+T> = Success(body: T) | Failure(detail: Option<string>) | NoResponse(message: string)

  /** JavaScript's `detail || fallback` on an optional string: an absent or empty detail gives the fallback. */
  function OrElse(detail: Option<string>, fallback: string): (r: string)
    ensures (detail.Some? && detail.value != "") ==> r == detail.value
    ensures (detail.None? || detail == Some("")) ==> r == fallback
  {
    if detail.Some? && detail.value != "" then detail.value else fallback
  }

  /** The storage after one effect: only SetItem changes it. */
  function Write(storage: map<string, string>, e: Effect): map<string, string> {
    if e.SetItem? then storage[e.key := e.value] else storage
  }

  /** The storage after a sequence of effects, applied in order. */
  function Replay(storage: map<string, string>, effects: seq<Effect>): map<string, string> {
    if effects == [] then storage
    else Write(Replay(storage, effects[..|effects| - 1]), effects[|effects| - 1])
  }

  /** `AsyncStorage.getItem(key)`: null when the key was never written. */
  function Lookup(storage: map<string, string>, key: string): Option<string> {
    if key in storage then Some(storage[key]) else None
  }

  /** The pattern of the mount-time loads: `if (stored) setX(stored)`, so null and "" keep the current value. */
  function Restored(current: string, stored: Option<string>): (r: string)
    ensures stored.Some? && stored.value != "" ==> r == stored.value
    ensures stored.None? || stored == Some("") ==> r == current
  {
    if stored.Some? && stored.value != "" then stored.value else current
  }

  /** The user value after a sequence of effects: the argument of the last SetUser, if any. */
  function UserAfter(user: Option<User>, effects: seq<Effect>): Option<User> {
    if effects == [] then user
    else
      var last := effects[|effects| - 1];
      if last.SetUser? then last.user else UserAfter(user, effects[..|effects| - 1])
  }

  /** The requests sent, in order. */
  function Requests(effects: seq<Effect>): seq<Request> {
    if effects == [] then []
    else
      var last := effects[|effects| - 1];
      Requests(effects[..|effects| - 1]) + if last.Send? then [last.request] else []
  }

  /** The navigations performed, in order. */
  function Navigations(effects: seq<Effect>): seq<(NavKind, string)> {
    if effects == [] then []
    else
      var last := effects[|effects| - 1];
      Navigations(effects[..|effects| - 1]) + if last.Navigate? then [(last.kind, last.route)] else []
  }

  /** No storage write comes after a navigation. */
  predicate WritesBeforeNavigation(effects: seq<Effect>) {
    forall i, j :: 0 <= i < j < |effects| && effects[i].Navigate? ==> !effects[j].SetItem?
  }

  lemma {:induction false} ReplayAppend(storage: map<string, string>, a: seq<Effect>, b: seq<Effect>)
    ensures Replay(storage, a + b) == Replay(Replay(storage, a), b)
    decreases |b|
  {
    if b != [] {
      assert (a + b)[..|a + b| - 1] == a + b[..|b| - 1];
      ReplayAppend(storage, a, b[..|b| - 1]);
    } else {
      assert a + b == a;
    }
  }

  /** Each observation of a trace splits over concatenation. */
  lemma {:induction false} TraceAppend(user: Option<User>, a: seq<Effect>, b: seq<Effect>)
    ensures Requests(a + b) == Requests(a) + Requests(b)
    ensures Navigations(a + b) == Navigations(a) + Navigations(b)
    ensures UserAfter(user, a + b) == UserAfter(UserAfter(user, a), b)
    decreases |b|
  {
    if b == [] {
      assert a + b == a;
    } else {
      assert (a + b)[..|a + b| - 1] == a + b[..|b| - 1];
      TraceAppend(user, a, b[..|b| - 1]);
    }
  }

  /** The observations of a one-effect trace. */
  lemma TraceSingle(user: Option<User>, e: Effect, storage: map<string, string>)
    ensures Requests([e]) == if e.Send? then [e.request] else []
    ensures Navigations([e]) == if e.Navigate? then [(e.kind, e.route)] else []
    ensures UserAfter(user, [e]) == if e.SetUser? then e.user else user
    ensures Replay(storage, [e]) == Write(storage, e)
  {
    assert [e][..0] == [];
  }

  /** The observations of a two-effect trace. */
  lemma TracePair(user: Option<User>, e1: Effect, e2: Effect, storage: map<string, string>)
    ensures Requests([e1, e2]) == Requests([e1]) + Requests([e2])
    ensures Navigations([e1, e2]) == Navigations([e1]) + Navigations([e2])
    ensures UserAfter(user, [e1, e2]) == UserAfter(UserAfter(user, [e1]), [e2])
    ensures Replay(storage, [e1, e2]) == Write(Write(storage, e1), e2)
  {
    assert [e1, e2] == [e1] + [e2];
    TraceAppend(user, [e1], [e2]);
    ReplayAppend(storage, [e1], [e2]);
    TraceSingle(user, e1, storage);
    TraceSingle(user, e2, Write(storage, e1));
  }

  /** A trace with no Send sends nothing. */
  lemma {:induction false} NoRequest(effects: seq<Effect>)
    requires forall i :: 0 <= i < |effects| ==> !effects[i].Send?
    ensures Requests(effects) == []
    decreases |effects|
  {
    if effects != [] {
      NoRequest(effects[..|effects| - 1]);
    }
  }

  /** A trace whose only Send is at index k sends exactly that request. */
  lemma {:induction false} OnlyRequest(effects: seq<Effect>, k: nat)
    requires k < |effects| && effects[k].Send?
    requires forall i :: 0 <= i < |effects| && i != k ==> !effects[i].Send?
    ensures Requests(effects) == [effects[k].request]
    decreases |effects|
  {
    var init := effects[..|effects| - 1];
    if k == |effects| - 1 {
      NoRequest(init);
    } else {
      OnlyRequest(init, k);
    }
  }

  /** A trace with no Navigate navigates nowhere. */
  lemma {:induction false} NoNavigation(effects: seq<Effect>)
    requires forall i :: 0 <= i < |effects| ==> !effects[i].Navigate?
    ensures Navigations(effects) == []
    decreases |effects|
  {
    if effects != [] {
      NoNavigation(effects[..|effects| - 1]);
    }
  }

  /** A trace whose only Navigate is its last effect navigates exactly there, after every write. */
  lemma NavigatesLast(effects: seq<Effect>)
    requires effects != [] && effects[|effects| - 1].Navigate?
    requires forall i :: 0 <= i < |effects| - 1 ==> !effects[i].Navigate?
    ensures Navigations(effects) == [(effects[|effects| - 1].kind, effects[|effects| - 1].route)]
    ensures WritesBeforeNavigation(effects)
  {
    NoNavigation(effects[..|effects| - 1]);
  }

  /** The user after a trace whose last SetUser is at index k is that SetUser's argument. */
  lemma {:induction false} LastSetUser(user: Option<User>, effects: seq<Effect>, k: nat)
    requires k < |effects| && effects[k].SetUser?
    requires forall i :: k < i < |effects| ==> !effects[i].SetUser?
    ensures UserAfter(user, effects) == effects[k].user
    decreases |effects|
  {
    if k < |effects| - 1 {
      LastSetUser(user, effects[..|effects| - 1], k);
    }
  }

  /** A sequence without SetItem leaves storage as it was. */
  lemma {:induction false} ReplayWithoutWrites(storage: map<string, string>, effects: seq<Effect>)
    requires forall i :: 0 <= i < |effects| ==> !effects[i].SetItem?
    ensures Replay(storage, effects) == storage
    decreases |effects|
  {
    if effects != [] {
      ReplayWithoutWrites(storage, effects[..|effects| - 1]);
    }
  }

  /** A sequence without SetUser leaves the user as it was. */
  lemma {:induction false} UserAfterWithoutSetUser(user: Option<User>, effects: seq<Effect>)
    requires forall i :: 0 <= i < |effects| ==> !effects[i].SetUser?
    ensures UserAfter(user, effects) == user
    decreases |effects|
  {
    if effects != [] {
      UserAfterWithoutSetUser(user, effects[..|effects| - 1]);
    }
  }

  /**
   * The device's side of a screen: AsyncStorage as a key/value map, and the
   * log of every effect performed so far. Storage is always the replay of the
   * log over the storage the app started with.
   */
  class Env {
    ghost const initial: map<string, string>
    var storage: map<string, string>
    var log: seq<Effect>

    ghost predicate Valid()
      reads this
    {
      storage == Replay(initial, log)
    }

    constructor (stored: map<string, string>)
      ensures Valid() && storage == stored && log == []
    {
      initial := stored;
      storage := stored;
      log := [];
    }

    /** `AsyncStorage.getItem(key)`. */
    function GetItem(key: string): (r: Option<string>)
      reads this
      ensures r == Lookup(storage, key)
    {
      if key in storage then Some(storage[key]) else None
    }

    /** `AsyncStorage.setItem(key, value)`. */
    method SetItem(key: string, value: string)
      requires Valid()
      modifies this
      ensures Valid()
      ensures storage == old(storage)[key := value]
      ensures log == old(log) + [Effect.SetItem(key, value)]
    {
      storage := storage[key := value];
      log := log + [Effect.SetItem(key, value)];
      assert log[..|log| - 1] == old(log);
    }

    /** Performs an effect that does not touch storage. */
    method Perform(e: Effect)
      requires Valid() && !e.SetItem?
      modifies this
      ensures Valid()
      ensures storage == old(storage)
      ensures log == old(log) + [e]
    {
      log := log + [e];
      assert log[..|log| - 1] == old(log);
    }

    /** Storage after a run of effects is their replay over the storage before them. */
    lemma ReplayLog(before: seq<Effect>, effects: seq<Effect>)
      requires Valid() && log == before + effects
      ensures storage == Replay(Replay(initial, before), effects)
    {
      ReplayAppend(initial, before, effects);
    }
  }
}
