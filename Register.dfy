/** The register screen (RegisterScreen): full name, email, password, and `handleRegister`. */
module Register {
  import opened Common
  import opened JsText
  import opened Auth
  import opened Runtime

  const MissingTitle := "Missing Fields"
  const MissingMessage := "Please fill out all fields."
  const ErrorTitle := "Registration Error"
  const DefaultError := "Registration failed"

  /**
   * The message of the error the catch block shows: for a non-2xx answer the
   * `Error` thrown with `errorData.detail || "Registration failed"`; for a
   * transport failure the message of the error `fetch` raised.
   */
  function FailureText(response: Response<User>): string
    requires !response.Success?
  {
    if response.Failure? then OrElse(response.detail, DefaultError) else response.message
  }

  /**
   * The effects of `handleRegister`. The body of a 2xx answer is the
   * `{full_name, email}` it carries.
   */
  function RegisterEffects(fullName: string, email: string, password: string, response: Response<User>): (r: seq<Effect>)
    ensures r != [] && (r[|r| - 1].AlertDialog? || r[|r| - 1].Navigate?)
    ensures r[0].Send? <==> fullName != "" && email != "" && password != ""
  {
    if fullName == "" || email == "" || password == "" then [AlertDialog(MissingTitle, MissingMessage)]
    else
      [Send(Register(fullName, email, password))] +
      match response
      case Success(user) => [SetUser(Some(user)), SetItem("isLoggedIn", "true"), Navigate(Replace, "/setup-new-home")]
      case _ => [AlertDialog(ErrorTitle, FailureText(response))]
  }

  class RegisterScreen {
    var fullName: string
    var email: string
    var password: string

    constructor ()
      ensures fullName == "" && email == "" && password == ""
    {
      fullName, email, password := "", "", "";
    }

    method HandleRegister(auth: AuthContext, env: Env, response: Response<User>)
      requires env.Valid()
      modifies auth, env
      ensures env.Valid()
      ensures env.log == old(env.log) + RegisterEffects(fullName, email, password, response)
      ensures env.storage == Replay(old(env.storage), RegisterEffects(fullName, email, password, response))
      ensures auth.user == if auth.provided
        then UserAfter(old(auth.user), RegisterEffects(fullName, email, password, response))
        else old(auth.user)
    {
      ghost var before := env.log;
      ghost var user0 := auth.user;
      var effects := RegisterEffects(fullName, email, password, response);
      if fullName == "" || email == "" || password == "" {
        env.Perform(AlertDialog(MissingTitle, MissingMessage));
        UserAfterWithoutSetUser(user0, effects);
      } else {
        var request := Register(fullName, email, password);
        env.Perform(Send(request));
        if response.Success? {
          var user := response.body;
          auth.SetUser(Some(user));
          env.Perform(SetUser(Some(user)));
          env.SetItem("isLoggedIn", "true");
          env.Perform(Navigate(Replace, "/setup-new-home"));
          assert env.log == before + effects;
          LastSetUser(user0, effects, 1);
        } else {
          env.Perform(AlertDialog(ErrorTitle, FailureText(response)));
          assert env.log == before + effects;
          UserAfterWithoutSetUser(user0, effects);
        }
      }
      env.ReplayLog(before, effects);
    }
  }

  /** An empty field only alerts "Missing Fields": no request is sent. */
  lemma EmptyFieldRejected(fullName: string, email: string, password: string, response: Response<User>)
    requires fullName == "" || email == "" || password == ""
    ensures RegisterEffects(fullName, email, password, response) == [AlertDialog(MissingTitle, MissingMessage)]
    ensures Requests(RegisterEffects(fullName, email, password, response)) == []
  {
  }

  /**
   * Non-empty fields, whitespace-only ones included, send one request with the
   * keys fullname, email and password, as typed. (Login would reject blanks.)
   */
  lemma FieldsSentAsTyped(fullName: string, email: string, password: string, response: Response<User>)
    requires fullName != "" && email != "" && password != ""
    ensures Requests(RegisterEffects(fullName, email, password, response)) == [Register(fullName, email, password)]
  {
    OnlyRequest(RegisterEffects(fullName, email, password, response), 0);
  }

  /**
   * A successful registration sets the user to the returned `{full_name, email}`,
   * stores `isLoggedIn = "true"`, and only then replaces the screen with the home setup.
   */
  lemma RegisterSuccess(fullName: string, email: string, password: string, user: User,
                        user0: Option<User>, storage: map<string, string>)
    requires fullName != "" && email != "" && password != ""
    ensures var effects := RegisterEffects(fullName, email, password, Success(user));
      && UserAfter(user0, effects) == Some(user)
      && Replay(storage, effects) == storage["isLoggedIn" := "true"]
      && Navigations(effects) == [(Replace, "/setup-new-home")]
      && WritesBeforeNavigation(effects)
  {
    var effects := RegisterEffects(fullName, email, password, Success(user));
    var q := [Send(Register(fullName, email, password)), SetUser(Some(user))];
    var t := [SetItem("isLoggedIn", "true"), Navigate(Replace, "/setup-new-home")];
    assert effects == q + t;
    LastSetUser(user0, effects, 1);
    NavigatesLast(effects);
    ReplayAppend(storage, q, t);
    ReplayWithoutWrites(storage, q);
    TracePair(None, t[0], t[1], storage);
  }

  /**
   * Any other answer leaves the user and storage untouched, performs no
   * navigation, and ends with the "Registration Error" alert carrying the
   * server's non-empty `detail`, "Registration failed", or the transport error's message.
   */
  lemma RegisterFailureChangesNothing(fullName: string, email: string, password: string,
                                      response: Response<User>, user0: Option<User>, storage: map<string, string>)
    requires fullName != "" && email != "" && password != ""
    requires !response.Success?
    ensures var effects := RegisterEffects(fullName, email, password, response);
      && UserAfter(user0, effects) == user0
      && Replay(storage, effects) == storage
      && Navigations(effects) == []
      && effects[|effects| - 1] == AlertDialog(ErrorTitle, FailureText(response))
    ensures response.Failure? ==>
      FailureText(response) == (if response.detail.Some? && response.detail.value != "" then response.detail.value else DefaultError)
    ensures response.NoResponse? ==> FailureText(response) == response.message
  {
    var effects := RegisterEffects(fullName, email, password, response);
    UserAfterWithoutSetUser(user0, effects);
    ReplayWithoutWrites(storage, effects);
    NoNavigation(effects);
  }
}
