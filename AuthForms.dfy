/**
 * The two credential forms side by side: the register screen only checks that
 * its fields are non-empty, while the login screen trims them first.
 */
module AuthForms {
  import opened Common
  import opened JsText
  import opened Auth
  import opened Runtime
  import Login
  import Register

  /**
   * Whitespace-only credentials are sent by the register screen, as typed,
   * and refused by the login screen before any request.
   */
  lemma BlankCredentialsRegisterOnly(fullName: string, email: string, password: string,
                                     rememberMe: bool, registerAnswer: Response<User>,
                                     loginAnswer: Response<Option<User>>)
    requires fullName != "" && email != "" && password != ""
    requires Blank(email) && Blank(password)
    ensures Requests(Register.RegisterEffects(fullName, email, password, registerAnswer))
      == [Request.Register(fullName, email, password)]
    ensures Requests(Login.LoginEffects(email, password, rememberMe, loginAnswer)) == []
  {
    Register.FieldsSentAsTyped(fullName, email, password, registerAnswer);
    Login.MissingFieldsRejected(email, password, rememberMe, loginAnswer);
  }
}
