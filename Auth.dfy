/** The signed-in user cell shared by the screens (AuthContext). */
module Auth {
  import opened Common

  /** The profile the login and register screens store; `null` (None) means logged out. */
  datatype User = User(fullName: string, email: string)

  /**
   * The value `useAuth()` hands a screen: the provider's state cell, or, for a
   * screen rendered outside any provider, the context's default value.
   */
  class AuthContext {
    /** True for the cell of an AuthProvider, false for the default context value. */
    const provided: bool
    var user: Option<User>

    /** The default context value: no user, and a setter that does nothing. */
    constructor Default()
      ensures !provided && user == None
    {
      provided := false;
      user := None;
    }

    /** An AuthProvider's state cell, which starts logged out. */
    constructor Provider()
      ensures provided && user == None
    {
      provided := true;
      user := None;
    }

    /**
     * `setUser`: inside a provider it replaces the whole user value, None
     * included, with no validation; the default setter changes nothing.
     */
    method SetUser(u: Option<User>)
      modifies this
      ensures user == (if provided then u else old(user))
    {
      if provided {
        user := u;
      }
    }
  }
}
