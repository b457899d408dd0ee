/** The login screen (LoginScreen): credentials, "Remember me", and `handleLogin`. */
module Login {
  import opened Common
  import opened JsText
  import opened Auth
  import opened Runtime

  const MissingTitle := "Missing fields"
  const MissingMessage := "Please enter your email and password."
  const FailedTitle := "Login Failed"
  const DefaultError := "An error occurred."

  /**
   * The alert text of the catch block, `error.response?.data?.detail || "An error occurred."`:
   * only a non-2xx answer carries a `detail`; a transport failure, or a 2xx
   * answer without `user` (whose read throws a TypeError), has none.
   */
  function FailureText(response: Response<Option<User>>): string
    requires !(response.Success? && response.body.Some?)
  {
    match response
    case Failure(detail) => OrElse(detail, DefaultError)
    case _ => DefaultError
  }

  /**
   * The effects of `handleLogin`. The body of a 2xx answer is `data.user`,
   * None when the field is absent.
   */
  function LoginEffects(email: string, password: string, rememberMe: bool, response: Response<Option<User>>): (r: seq<Effect>)
    ensures r != [] && (r[|r| - 1].AlertDialog? || r[|r| - 1].Navigate?)
    ensures r[0].Send? <==> Trim(email) != [] && Trim(password) != []
  {
    if Trim(email) == [] || Trim(password) == [] then [AlertDialog(MissingTitle, MissingMessage)]
    else
      [Send(Login(email, password))] +
      match response
      case Success(Some(user)) => SuccessEffects(email, rememberMe, user)
      case _ => [AlertDialog(FailedTitle, FailureText(response))]
  }

  /** What a successful login does after its request: set the user, store, then go to the tabs. */
  function SuccessEffects(email: string, rememberMe: bool, user: User): seq<Effect> {
    [SetUser(Some(user))]
    + (if rememberMe then [SetItem("userEmail", email)] else [])
    + [SetItem("isLoggedIn", "true"), Navigate(Replace, "/(tabs)")]
  }

  class LoginScreen {
    var email: string
    var password: string
    var rememberMe: bool

    constructor ()
      ensures email == "" && password == "" && !rememberMe
    {
      email, password, rememberMe := "", "", false;
    }

    /** The "Remember me" checkbox: `setRememberMe(!rememberMe)`. */
    method PressRememberMe()
      modifies this
      ensures rememberMe == !old(rememberMe)
      ensures email == old(email) && password == old(password)
    {
      rememberMe := !rememberMe;
    }

    /** The success path of `handleLogin`: `setUser`, the AsyncStorage writes, `router.replace`. */
    method CompleteLogin(auth: AuthContext, env: Env, user: User)
      requires env.Valid()
      modifies auth, env
      ensures env.Valid()
      ensures env.log == old(env.log) + SuccessEffects(email, rememberMe, user)
      ensures auth.user == if auth.provided then Some(user) else old(auth.user)
    {
      auth.SetUser(Some(user));
      env.Perform(SetUser(Some(user)));
      if rememberMe {
        env.SetItem("userEmail", email);
      }
      env.SetItem("isLoggedIn", "true");
      env.Perform(Navigate(Replace, "/(tabs)"));
    }

    method HandleLogin(auth: AuthContext, env: Env, response: Response<Option<User>>)
      requires env.Valid()
      modifies auth, env
      ensures env.Valid()
      ensures env.log == old(env.log) + LoginEffects(email, password, rememberMe, response)
      ensures env.storage == Replay(old(env.storage), LoginEffects(email, password, rememberMe, response))
      ensures auth.user == if auth.provided
        then UserAfter(old(auth.user), LoginEffects(email, password, rememberMe, response))
        else old(auth.user)
    {
      ghost var before := env.log;
      ghost var user0 := auth.user;
      var effects := LoginEffects(email, password, rememberMe, response);
      if Trim(email) == [] || Trim(password) == [] {
        env.Perform(AlertDialog(MissingTitle, MissingMessage));
        UserAfterWithoutSetUser(user0, effects);
      } else {
        env.Perform(Send(Login(email, password)));
        if response.Success? && response.body.Some? {
          var user := response.body.value;
          CompleteLogin(auth, env, user);
          assert env.log == before + effects;
          TrimEmptyIffBlank(email);
          TrimEmptyIffBlank(password);
          LoginSuccessUser(email, password, rememberMe, user, user0);
        } else {
          env.Perform(AlertDialog(FailedTitle, FailureText(response)));
          assert env.log == before + effects;
          UserAfterWithoutSetUser(user0, effects);
        }
      }
      env.ReplayLog(before, effects);
    }
  }

  /** An empty or whitespace-only email or password only alerts "Missing fields": no request is sent. */
  lemma MissingFieldsRejected(email: string, password: string, rememberMe: bool, response: Response<Option<User>>)
    requires Blank(email) || Blank(password)
    ensures LoginEffects(email, password, rememberMe, response) == [AlertDialog(MissingTitle, MissingMessage)]
    ensures Requests(LoginEffects(email, password, rememberMe, response)) == []
  {
    TrimEmptyIffBlank(email);
    TrimEmptyIffBlank(password);
  }

  /** Otherwise the login request carries the email and password as typed, untrimmed. */
  lemma CredentialsSentUntrimmed(email: string, password: string, rememberMe: bool, response: Response<Option<User>>)
    requires !Blank(email) && !Blank(password)
    ensures var effects := LoginEffects(email, password, rememberMe, response);
      effects != [] && effects[0] == Send(Login(email, password))
  {
    TrimEmptyIffBlank(email);
    TrimEmptyIffBlank(password);
  }

  /** The effects of a successful login: request and user update, the optional email write, then the flag and the navigation. */
  lemma LoginSuccessSplit(email: string, password: string, rememberMe: bool, user: User)
    requires !Blank(email) && !Blank(password)
    ensures LoginEffects(email, password, rememberMe, Success(Some(user)))
      == (if rememberMe then [Send(Login(email, password)), SetUser(Some(user)), SetItem("userEmail", email)]
          else [Send(Login(email, password)), SetUser(Some(user))])
         + [SetItem("isLoggedIn", "true"), Navigate(Replace, "/(tabs)")]
  {
    TrimEmptyIffBlank(email);
    TrimEmptyIffBlank(password);
  }

  /** After a successful login the user is the one the server returned. */
  lemma LoginSuccessUser(email: string, password: string, rememberMe: bool, user: User, user0: Option<User>)
    requires !Blank(email) && !Blank(password)
    ensures UserAfter(user0, LoginEffects(email, password, rememberMe, Success(Some(user)))) == Some(user)
  {
    LoginSuccessSplit(email, password, rememberMe, user);
    LastSetUser(user0, LoginEffects(email, password, rememberMe, Success(Some(user))), 1);
  }

  /**
   * A successful login stores `userEmail` only when "Remember me" is ticked
   * and always stores `isLoggedIn = "true"`.
   */
  lemma LoginSuccessStores(email: string, password: string, rememberMe: bool, user: User, storage: map<string, string>)
    requires !Blank(email) && !Blank(password)
    ensures Replay(storage, LoginEffects(email, password, rememberMe, Success(Some(user))))
         == (if rememberMe then storage["userEmail" := email] else storage)["isLoggedIn" := "true"]
  {
    LoginSuccessSplit(email, password, rememberMe, user);
    var q := [Send(Login(email, password)), SetUser(Some(user))];
    var t := [SetItem("isLoggedIn", "true"), Navigate(Replace, "/(tabs)")];
    ReplayWithoutWrites(storage, q);
    var stored := storage;
    if rememberMe {
      var w := SetItem("userEmail", email);
      assert [Send(Login(email, password)), SetUser(Some(user)), w] == q + [w];
      ReplayAppend(storage, q + [w], t);
      ReplayAppend(storage, q, [w]);
      TraceSingle(None, w, storage);
      stored := storage["userEmail" := email];
    } else {
      ReplayAppend(storage, q, t);
    }
    TracePair(None, t[0], t[1], stored);
  }

  /** Both writes of a successful login come before its single navigation, a replace to the tabs. */
  lemma LoginSuccessNavigates(email: string, password: string, rememberMe: bool, user: User)
    requires !Blank(email) && !Blank(password)
    ensures var effects := LoginEffects(email, password, rememberMe, Success(Some(user)));
      && Navigations(effects) == [(Replace, "/(tabs)")]
      && WritesBeforeNavigation(effects)
  {
    LoginSuccessSplit(email, password, rememberMe, user);
    NavigatesLast(LoginEffects(email, password, rememberMe, Success(Some(user))));
  }

  /**
   * Every other answer leaves the user and the storage as they were, performs
   * no navigation and ends with the "Login Failed" alert, whose text is the
   * server's non-empty `detail` when there is one and "An error occurred." otherwise.
   */
  lemma LoginFailureChangesNothing(email: string, password: string, rememberMe: bool,
                                   response: Response<Option<User>>, user0: Option<User>, storage: map<string, string>)
    requires !Blank(email) && !Blank(password)
    requires !(response.Success? && response.body.Some?)
    ensures var effects := LoginEffects(email, password, rememberMe, response);
      && UserAfter(user0, effects) == user0
      && Replay(storage, effects) == storage
      && Navigations(effects) == []
      && effects[|effects| - 1] == AlertDialog(FailedTitle, FailureText(response))
    ensures response.Failure? && response.detail.Some? && response.detail.value != ""
      ==> FailureText(response) == response.detail.value
    ensures !(response.Failure? && response.detail.Some? && response.detail.value != "")
      ==> FailureText(response) == DefaultError
  {
    TrimEmptyIffBlank(email);
    TrimEmptyIffBlank(password);
    var effects := LoginEffects(email, password, rememberMe, response);
    assert effects == [Send(Login(email, password)), AlertDialog(FailedTitle, FailureText(response))];
    UserAfterWithoutSetUser(user0, effects);
    ReplayWithoutWrites(storage, effects);
    NoNavigation(effects);
  }
}
