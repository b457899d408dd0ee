/** Onboarding step 1 (NameHomeScreen): name the home and create it on the server. */
module SetupNewHome {
  import opened Common
  import opened JsText
  import opened Runtime

  /** The user id every create-home request carries: a constant, not the signed-in user. */
  const HomeOwnerId := 3

  const BlankNameMessage := "Please enter a name for your home."
  const FailureMessage := "Something went wrong. Please try again."

  /**
   * The effects of `handleNext` for the typed name and the server's answer.
   * The answer's body is the `id` field of the JSON reply, None when absent
   * (`data.id.toString()` then throws, which lands in the catch).
   */
  function NextEffects(homeName: string, response: Response<Option<int>>): (r: seq<Effect>)
    ensures r != [] && (r[|r| - 1].Alert? || r[|r| - 1].Navigate?)
    ensures r[0].Send? <==> Trim(homeName) != []
  {
    if Trim(homeName) == [] then [Alert(BlankNameMessage)]
    else
      [Send(CreateHome(HomeOwnerId, homeName))] +
      match response
      case Success(Some(id)) => SavedEffects(homeName, id)
      case _ => [Alert(FailureMessage)]
  }

  /** What a created home leads to: store its id and name, then push the room screen. */
  function SavedEffects(homeName: string, id: int): seq<Effect> {
    [SetItem("homeId", IntToString(id)), SetItem("homeName", homeName), Navigate(Push, "/setup-new-room")]
  }

  class NameHomeScreen {
    var homeName: string

    constructor ()
      ensures homeName == ""
    {
      homeName := "";
    }

    /** The success path of `handleNext`: the two AsyncStorage writes and `router.push`. */
    method SaveHome(env: Env, id: int)
      requires env.Valid()
      modifies env
      ensures env.Valid()
      ensures env.log == old(env.log) + SavedEffects(homeName, id)
    {
      env.SetItem("homeId", IntToString(id));
      env.SetItem("homeName", homeName);
      env.Perform(Navigate(Push, "/setup-new-room"));
    }

    method HandleNext(env: Env, response: Response<Option<int>>)
      requires env.Valid()
      modifies env
      ensures env.Valid()
      ensures env.log == old(env.log) + NextEffects(homeName, response)
      ensures env.storage == Replay(old(env.storage), NextEffects(homeName, response))
    {
      ghost var before := env.log;
      ghost var effects := NextEffects(homeName, response);
      if Trim(homeName) != [] {
        var request := CreateHome(HomeOwnerId, homeName);
        env.Perform(Send(request));
        if response.Success? && response.body.Some? {
          var id := response.body.value;
          assert effects == [Send(request)] + SavedEffects(homeName, id);
          SaveHome(env, id);
        } else {
          assert effects == [Send(request), Alert(FailureMessage)];
          env.Perform(Alert(FailureMessage));
        }
      } else {
        env.Perform(Alert(BlankNameMessage));
      }
      env.ReplayLog(before, NextEffects(homeName, response));
    }
  }

  /** An empty or whitespace-only name only alerts: no request, no write, no navigation. */
  lemma BlankNameRejected(homeName: string, response: Response<Option<int>>)
    requires Blank(homeName)
    ensures NextEffects(homeName, response) == [Alert(BlankNameMessage)]
    ensures Requests(NextEffects(homeName, response)) == []
  {
    TrimEmptyIffBlank(homeName);
  }

  /** Any other name sends exactly one create-home request, owner 3, with the name as typed (untrimmed). */
  lemma NamedHomeRequested(homeName: string, response: Response<Option<int>>)
    requires !Blank(homeName)
    ensures Requests(NextEffects(homeName, response)) == [CreateHome(3, homeName)]
  {
    TrimEmptyIffBlank(homeName);
    OnlyRequest(NextEffects(homeName, response), 0);
  }

  /** Without an id in a 2xx answer the error alert is the last effect, nothing is stored and nothing navigates. */
  lemma HomeFailureWritesNothing(homeName: string, response: Response<Option<int>>, storage: map<string, string>)
    requires !Blank(homeName)
    requires !(response.Success? && response.body.Some?)
    ensures var effects := NextEffects(homeName, response);
      && effects[|effects| - 1] == Alert(FailureMessage)
      && Replay(storage, effects) == storage
      && Navigations(effects) == []
  {
    TrimEmptyIffBlank(homeName);
    var effects := NextEffects(homeName, response);
    assert effects == [Send(CreateHome(3, homeName)), Alert(FailureMessage)];
    ReplayWithoutWrites(storage, effects);
    NoNavigation(effects);
  }

  /**
   * On success `homeId` holds the decimal form of the returned id (which reads
   * back as that id) and `homeName` the name as typed; both writes come before
   * the single push to the room screen.
   */
  lemma HomeSuccessStores(homeName: string, id: int, storage: map<string, string>)
    requires !Blank(homeName)
    ensures var effects := NextEffects(homeName, Success(Some(id)));
      && Replay(storage, effects) == storage["homeId" := IntToString(id)]["homeName" := homeName]
      && ParseInt(Replay(storage, effects)["homeId"]) == Some(id)
      && Navigations(effects) == [(Push, "/setup-new-room")]
      && WritesBeforeNavigation(effects)
  {
    SuccessShape(homeName, id);
    SavedTrace(homeName, id, storage);
    IntToStringRoundTrip(id);
  }

  /** A named home's successful answer leads to the request followed by the saving effects. */
  lemma SuccessShape(homeName: string, id: int)
    requires !Blank(homeName)
    ensures NextEffects(homeName, Success(Some(id))) == [Send(CreateHome(3, homeName))] + SavedEffects(homeName, id)
  {
    TrimEmptyIffBlank(homeName);
  }

  /** The request followed by the saving effects writes both keys and pushes the room screen once, last. */
  lemma SavedTrace(homeName: string, id: int, storage: map<string, string>)
    ensures var effects := [Send(CreateHome(3, homeName))] + SavedEffects(homeName, id);
      && Replay(storage, effects) == storage["homeId" := IntToString(id)]["homeName" := homeName]
      && Navigations(effects) == [(Push, "/setup-new-room")]
      && WritesBeforeNavigation(effects)
  {
    var effects := [Send(CreateHome(3, homeName))] + SavedEffects(homeName, id);
    var q := [Send(CreateHome(3, homeName)), SetItem("homeId", IntToString(id))];
    var t := [SetItem("homeName", homeName), Navigate(Push, "/setup-new-room")];
    assert effects == q + t;
    NavigatesLast(effects);
    ReplayAppend(storage, q, t);
    var stored := storage["homeId" := IntToString(id)];
    TracePair(None, q[0], q[1], storage);
    assert Replay(storage, q) == stored;
    TracePair(None, t[0], t[1], stored);
  }
}
