/** The backend's `POST /users/` route: create a user unless the email is taken. */
module UserRoutes {
  import opened Common

  /** The request body (UserCreate). */
  datatype UserCreate = UserCreate(name: string, email: string, password: string)

  /** A row of the users table. */
  datatype UserRow = UserRow(name: string, email: string, hashedPassword: string)

  /** The `HTTPException` the route raises. */
  datatype HttpException = HttpException(statusCode: int, detail: string)

  const DuplicateEmail := HttpException(400, "Email already registered")

  /** No two rows share an email. */
  ghost predicate UniqueEmails(rows: seq<UserRow>) {
    forall i, j :: 0 <= i < j < |rows| ==> rows[i].email != rows[j].email
  }

  /** `db.query(User).filter(User.email == email).first()`: the position of the first row with that email, if any. */
  function FirstWithEmail(rows: seq<UserRow>, email: string): (r: Option<nat>)
    ensures r.Some? ==> r.value < |rows| && rows[r.value].email == email
    ensures r.Some? ==> forall j :: 0 <= j < r.value ==> rows[j].email != email
    ensures r.None? ==> forall j :: 0 <= j < |rows| ==> rows[j].email != email
  {
    if rows == [] then None
    else if rows[0].email == email then Some(0)
    else match FirstWithEmail(rows[1..], email)
      case None => None
      case Some(k) => Some(k + 1)
  }

  /** Appending a row whose email no row has keeps emails unique. */
  lemma InsertKeepsEmailsUnique(rows: seq<UserRow>, row: UserRow)
    requires UniqueEmails(rows)
    requires FirstWithEmail(rows, row.email).None?
    ensures UniqueEmails(rows + [row])
  {
    var after := rows + [row];
    forall i, j | 0 <= i < j < |after| ensures after[i].email != after[j].email {
      if j == |rows| {
        assert after[i] == rows[i];
      } else {
        assert after[i] == rows[i] && after[j] == rows[j];
      }
    }
  }

  /** The users table behind the session. */
  class UserTable {
    var rows: seq<UserRow>

    constructor (initial: seq<UserRow>)
      ensures rows == initial
    {
      rows := initial;
    }

    /**
     * `create_user`: a taken email raises 400 "Email already registered" and
     * leaves the table as it was; otherwise exactly one new row, with the
     * request's name and email and its password unhashed, is added at the end
     * and returned. Unique emails stay unique.
     */
    method CreateUser(user: UserCreate) returns (result: Result<UserRow, HttpException>)
      modifies this
      ensures result.Err? <==> exists j :: 0 <= j < |old(rows)| && old(rows)[j].email == user.email
      ensures result.Err? ==> result.error == DuplicateEmail && rows == old(rows)
      ensures result.Ok? ==> result.value == UserRow(user.name, user.email, user.password) && rows == old(rows) + [result.value]
      ensures UniqueEmails(old(rows)) ==> UniqueEmails(rows)
    {
      var existing := FirstWithEmail(rows, user.email);
      if existing.Some? {
        return Err(DuplicateEmail);
      }
      // The password is stored as given: nothing hashes it.
      var row := UserRow(user.name, user.email, user.password);
      if UniqueEmails(rows) {
        InsertKeepsEmailsUnique(rows, row);
      }
      rows := rows + [row];
      result := Ok(row);
    }
  }
}
