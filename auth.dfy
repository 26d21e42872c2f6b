/** The session layer of `src/lib/auth.ts`: login, registration, logout and
    the current-user lookup over the browser's two storage partitions.
    The session partition's `"user"` key holds the active session, the local
    partition's `"user"` key the one remembered local account. */
module Auth {
  import opened Storage

  /** A user record. The source's optional `isAdmin` field is `false` here
      when absent: the only test of it is `=== true` or truthiness. */
  datatype User = User(id: string, name: string, email: string, isAdmin: bool)

  /** The errors login and registration throw to their callers. */
  datatype AuthError =
    | MissingCredentials   // "Email and password are required"
    | InvalidAccount       // "Invalid account. Please register first."
    | LoginFailed          // "Login failed. Please try again."
    | MissingFields        // "Name, email and password are required"
    | PasswordMismatch     // "Passwords do not match"
    | EmailTaken           // "Email already registered"
    | RegistrationFailed   // "Registration failed. Please try again."

  /** The key both partitions use for the user record. */
  const UserKey := "user"

  /** The hardcoded administrator credentials and the record they log in as. */
  const AdminEmail := "admin@email.com"
  const AdminPassword := "admin123"
  const AdminUser := User("admin-id", "Admin", AdminEmail, true)

  /** `getCurrentUser` over the contents of the two slots: the session slot
      decides when it is present, the local slot only when the session slot
      is absent; text that does not parse yields no user, and a session slot
      that does not parse hides the local slot. */
  function CurrentUserOf(session: Option<Stored<User>>, local: Option<Stored<User>>): (r: Option<User>)
    ensures r.Some? <==> (session.Some? && session.value.Parses?)
                         || (session.None? && local.Some? && local.value.Parses?)
    ensures r.Some? && session.Some? ==> session == Some(Parses(r.value))
    ensures r.Some? && session.None? ==> local == Some(Parses(r.value))
  {
    match session
    case Some(stored) => Parsed(session)
    case None => Parsed(local)
  }

  /** Whether the local-storage path of `login` is reached: the flag was
      already set, or the database query failed or matched no row. */
  predicate LoginFallsBack(fallback: bool, db: Reply<User>)
  {
    fallback || db.Unavailable? || db.rows == []
  }

  /** Whether the local-storage path of `register` is reached: the flag was
      already set, or the e-mail lookup failed, or it found no row and the
      insert failed. */
  predicate RegisterFallsBack(fallback: bool, lookup: Reply<string>, insert: Reply<()>)
  {
    fallback || lookup.Unavailable? || (lookup.rows == [] && insert.Unavailable?)
  }

  /** The session manager. Its state is the two `"user"` slots and the
      module-level `useLocalStorageFallback` flag of `auth.ts`. */
  class SessionManager {
    var sessionSlot: Option<Stored<User>>
    var localSlot: Option<Stored<User>>
    var fallback: bool

    /** Module load: the flag starts `true` in a browser, `false` elsewhere;
        the partitions hold whatever an earlier page left in them. */
    constructor (browser: bool, session: Option<Stored<User>>, local: Option<Stored<User>>)
      ensures sessionSlot == session && localSlot == local
      ensures fallback == browser
    {
      sessionSlot := session;
      localSlot := local;
      fallback := false;
      if browser {
        fallback := true;
      }
    }

    function CurrentUser(): Option<User>
      reads this
    {
      CurrentUserOf(sessionSlot, localSlot)
    }

    function IsAuthenticated(): (b: bool)
      reads this
      ensures b <==> CurrentUser().Some?
    {
      CurrentUser() != None
    }

    function IsAdmin(): (b: bool)
      reads this
      ensures b <==> CurrentUser().Some? && CurrentUser().value.isAdmin
    {
      match CurrentUser()
      case Some(u) => u.isAdmin
      case None => false
    }

    /** `enableLocalStorageFallback`: one-way, idempotent. */
    method EnableFallback()
      modifies this`fallback
      ensures fallback
    {
      fallback := true;
    }

    /** `login(email, password)`; `db` is what the credentials query answers
        when it is asked (only while the flag is unset). */
    method Login(email: string, password: string, db: Reply<User>) returns (r: Result<User, AuthError>)
      modifies this`sessionSlot, this`fallback
      ensures old(fallback) ==> fallback
      // empty input: rejected before any store or the flag is touched
      ensures email == "" || password == "" ==>
        r == Failure(MissingCredentials) && sessionSlot == old(sessionSlot) && fallback == old(fallback)
      // the admin pair: accepted in every mode, nothing but the session slot consulted
      ensures email != "" && password != "" && email == AdminEmail && password == AdminPassword ==>
        r == Success(AdminUser) && sessionSlot == Some(Parses(AdminUser)) && fallback == old(fallback)
        && CurrentUser() == Some(AdminUser) && IsAdmin()
      // database path with a matching row
      ensures email != "" && password != "" && !(email == AdminEmail && password == AdminPassword)
              && !LoginFallsBack(old(fallback), db) ==>
        r == Success(db.rows[0]) && sessionSlot == Some(Parses(db.rows[0])) && fallback == old(fallback)
        && CurrentUser() == Some(db.rows[0])
      // local path: the flag is now set and only the e-mail is compared
      ensures email != "" && password != "" && !(email == AdminEmail && password == AdminPassword)
              && LoginFallsBack(old(fallback), db) ==>
        fallback &&
        match localSlot
        case None => r == Failure(InvalidAccount) && sessionSlot == old(sessionSlot)
        case Some(Corrupt) => r == Failure(LoginFailed) && sessionSlot == old(sessionSlot)
        case Some(Parses(u)) =>
          if u.email == email then r == Success(u) && sessionSlot == localSlot && CurrentUser() == Some(u)
          else r == Failure(InvalidAccount) && sessionSlot == old(sessionSlot)
    {
      if email == "" || password == "" {
        return Failure(MissingCredentials);
      }
      if email == AdminEmail && password == AdminPassword {
        sessionSlot := Some(Parses(AdminUser));
        return Success(AdminUser);
      }
      if !fallback {
        if db.Answered? && db.rows != [] {
          var user := db.rows[0];
          sessionSlot := Some(Parses(user));
          return Success(user);
        }
        // a failed query and "Invalid credentials" both land in the catch
        fallback := true;
      }
      match localSlot
      case None =>
        r := Failure(InvalidAccount);
      case Some(Corrupt) =>
        r := Failure(LoginFailed);
      case Some(Parses(stored)) =>
        if stored.email != email {
          r := Failure(InvalidAccount);
        } else {
          sessionSlot := localSlot;
          r := Success(stored);
        }
    }

    /** `register(email, password, confirmPassword, name)`; `freshId` is what
        `generateId` returns, `lookup` and `insert` what the two queries
        answer when they are asked. */
    method Register(email: string, password: string, confirmPassword: string, name: string,
                    freshId: string, lookup: Reply<string>, insert: Reply<()>)
      returns (r: Result<User, AuthError>)
      modifies this`sessionSlot, this`localSlot, this`fallback
      ensures old(fallback) ==> fallback
      // validation: rejected before any store or the flag is touched
      ensures email == "" || password == "" || name == "" ==>
        r == Failure(MissingFields)
        && sessionSlot == old(sessionSlot) && localSlot == old(localSlot) && fallback == old(fallback)
      ensures email != "" && password != "" && name != "" && password != confirmPassword ==>
        r == Failure(PasswordMismatch)
        && sessionSlot == old(sessionSlot) && localSlot == old(localSlot) && fallback == old(fallback)
      // database path
      ensures email != "" && password != "" && name != "" && password == confirmPassword
              && !RegisterFallsBack(old(fallback), lookup, insert) ==>
        localSlot == old(localSlot) && fallback == old(fallback) &&
        if lookup.rows != [] then
          r == Failure(EmailTaken) && sessionSlot == old(sessionSlot)
        else
          r == Success(User(freshId, name, email, false))
          && sessionSlot == Some(Parses(User(freshId, name, email, false)))
          && CurrentUser() == Some(User(freshId, name, email, false))
      // local path: one remembered account, replaced by the new one
      ensures email != "" && password != "" && name != "" && password == confirmPassword
              && RegisterFallsBack(old(fallback), lookup, insert) ==>
        fallback &&
        if old(localSlot) == Some(Corrupt) then
          r == Failure(RegistrationFailed) && sessionSlot == old(sessionSlot) && localSlot == old(localSlot)
        else if old(localSlot).Some? && old(localSlot).value.value.email == email then
          r == Failure(EmailTaken) && sessionSlot == old(sessionSlot) && localSlot == old(localSlot)
        else
          r == Success(User(freshId, name, email, false))
          && localSlot == Some(Parses(User(freshId, name, email, false)))
          && sessionSlot == localSlot
          && CurrentUser() == Some(User(freshId, name, email, false))
    {
      if email == "" || password == "" || name == "" {
        return Failure(MissingFields);
      }
      if password != confirmPassword {
        return Failure(PasswordMismatch);
      }
      if !fallback {
        if lookup.Answered? {
          if lookup.rows != [] {
            // rethrown from the catch, the flag untouched
            return Failure(EmailTaken);
          }
          if insert.Answered? {
            var user := User(freshId, name, email, false);
            sessionSlot := Some(Parses(user));
            return Success(user);
          }
        }
        fallback := true;
      }
      if localSlot == Some(Corrupt) {
        r := Failure(RegistrationFailed);
      } else if localSlot.Some? && localSlot.value.value.email == email {
        r := Failure(EmailTaken);
      } else {
        var user := User(freshId, name, email, false);
        localSlot := Some(Parses(user));
        sessionSlot := Some(Parses(user));
        r := Success(user);
      }
    }

    /** `logout`: both `"user"` keys removed. */
    method Logout()
      modifies this`sessionSlot, this`localSlot
      ensures sessionSlot == None && localSlot == None
      ensures CurrentUser() == None && !IsAuthenticated() && !IsAdmin()
    {
      sessionSlot := None;
      localSlot := None;
    }
  }
}
