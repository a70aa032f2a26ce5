/**
 * The user handlers of the server: register, login, get profile and
 * update profile, over the `users` table (a map from id to row). Password
 * hashing, password comparison and token signing are library calls and
 * are passed in as functions; ids, salts and timestamps are passed in as
 * fresh values.
 */
module UserController {
  import opened Wrappers
  import opened Errors
  import opened Tokens
  import opened Schema

  const EmailTaken := ApiError(400, "User with this email already exists")
  const InvalidCredentials := ApiError(401, "Invalid credentials")
  const UserNotFound := ApiError(404, "User not found")

  /** A row of the `users` table. */
  datatype UserRow = UserRow(
    id: Id, email: string, passwordHash: string, fullName: string,
    artistName: Option<string>, profileImageUrl: Option<string>, bio: Option<string>,
    createdAt: Timestamp, updatedAt: Timestamp, lastLoginAt: Option<Timestamp>)

  /** The user as login and the profile handlers return it: every column but the password hash. */
  datatype PublicUser = PublicUser(
    id: Id, email: string, fullName: string,
    artistName: Option<string>, profileImageUrl: Option<string>, bio: Option<string>,
    createdAt: Timestamp, updatedAt: Timestamp, lastLoginAt: Option<Timestamp>)

  /** The columns register returns. */
  datatype NewUser = NewUser(id: Id, email: string, fullName: string, artistName: Option<string>, createdAt: Timestamp)

  datatype Session<U> = Session(user: U, token: string)

  /**
   * A password as it arrives in a request body, which is not validated:
   * `None` when the field is missing or is not a string, which the
   * password library refuses with an error.
   */
  type BodyPassword = Option<string>

  /** The body of a register request. */
  datatype Registration = Registration(email: string, password: BodyPassword, fullName: string, artistName: Option<string>)

  /** The body of a profile update. */
  datatype ProfileChanges = ProfileChanges(fullName: string, artistName: Option<string>, bio: Option<string>)

  function PublicView(u: UserRow): PublicUser {
    PublicUser(u.id, u.email, u.fullName, u.artistName, u.profileImageUrl, u.bio, u.createdAt, u.updatedAt, u.lastLoginAt)
  }

  function NewUserView(u: UserRow): NewUser {
    NewUser(u.id, u.email, u.fullName, u.artistName, u.createdAt)
  }

  /** What a handler returns about a user does not depend on the stored hash. */
  lemma ViewsHideHash(u: UserRow, otherHash: string)
    ensures PublicView(u.(passwordHash := otherHash)) == PublicView(u)
    ensures NewUserView(u.(passwordHash := otherHash)) == NewUserView(u)
  {
  }

  /** The public view keeps every other column of the row. */
  lemma PublicViewKeepsColumns(u: UserRow, v: UserRow)
    requires PublicView(u) == PublicView(v)
    ensures u == v.(passwordHash := u.passwordHash)
  {
  }

  predicate HasEmail(users: map<Id, UserRow>, email: string) {
    exists id :: id in users && users[id].email == email
  }

  predicate UniqueEmails(users: map<Id, UserRow>) {
    forall a, b :: a in users && b in users && users[a].email == users[b].email ==> a == b
  }

  predicate KeyedById(users: map<Id, UserRow>) {
    forall id :: id in users ==> users[id].id == id
  }

  /** The one user a `WHERE email = $1` lookup finds, if any. */
  ghost function LookupEmail(users: map<Id, UserRow>, email: string): Option<Id>
    requires UniqueEmails(users)
  {
    if HasEmail(users, email) then Some(var id :| id in users && users[id].email == email; id) else None
  }

  /**
   * The two checks of login after the lookup, as written: no such user is
   * a 401, and so is a password that does not match the stored hash; but a
   * missing password makes the comparison itself throw, which the catch
   * block turns into a 500.
   */
  function CheckPasswordAsWritten(found: Option<UserRow>, password: BodyPassword, compare: (string, string) -> bool)
    : (r: Result<UserRow, Error>)
    ensures found.Some? && password.None? ==> r.Failure? && !r.error.ApiError?
    ensures !(found.Some? && password.None?) ==> r == CheckPassword(found, password, compare)
  {
    if found.None? then Failure(InvalidCredentials)
    else if password.None? then Failure(InternalError("data and hash arguments required"))
    else if !compare(password.value, found.value.passwordHash) then Failure(InvalidCredentials)
    else Success(found.value)
  }

  /** As written, a body without a password tells a registered email (500) from an unknown one (401). */
  lemma MissingPasswordRevealsAccountAsWritten(row: UserRow, compare: (string, string) -> bool)
    ensures Rethrow(CheckPasswordAsWritten(Some(row), None, compare).error, "Error logging in user")
              == ApiError(500, "Error logging in user")
    ensures Rethrow(CheckPasswordAsWritten(None, None, compare).error, "Error logging in user")
              == InvalidCredentials
  {
  }

  /**
   * The two checks of login with a missing password refused like a wrong
   * one: login succeeds only for a found user and a matching password, and
   * every failure is the same 401.
   */
  function CheckPassword(found: Option<UserRow>, password: BodyPassword, compare: (string, string) -> bool)
    : (r: Result<UserRow, Error>)
    ensures r.Success? <==> found.Some? && password.Some? && compare(password.value, found.value.passwordHash)
    ensures r.Success? ==> r.value == found.value
    ensures r.Failure? ==> r.error == InvalidCredentials
  {
    if found.None? || password.None? then Failure(InvalidCredentials)
    else if !compare(password.value, found.value.passwordHash) then Failure(InvalidCredentials)
    else Success(found.value)
  }

  /** A failed login, whatever the body, looks exactly like a login with an unknown email. */
  lemma LoginFailuresIndistinguishable(found: Option<UserRow>, password: BodyPassword, other: BodyPassword,
                                       compare: (string, string) -> bool)
    requires CheckPassword(found, password, compare).Failure?
    ensures CheckPassword(found, password, compare) == CheckPassword(None, other, compare)
  {
  }

  /** The two checks differ only for a registered email sent without a password. */
  lemma CheckPasswordDiffersOnlyOnMissingPassword(found: Option<UserRow>, password: BodyPassword,
                                                  compare: (string, string) -> bool)
    ensures (CheckPassword(found, password, compare) == CheckPasswordAsWritten(found, password, compare))
            <==> !(found.Some? && password.None?)
  {
  }

  class UserService {
    /** The `users` table. */
    var users: map<Id, UserRow>

    ghost predicate Valid()
      reads this
    {
      KeyedById(users) && UniqueEmails(users)
    }

    constructor (users: map<Id, UserRow>)
      requires KeyedById(users) && UniqueEmails(users)
      ensures Valid() && this.users == users
    {
      this.users := users;
    }

    /** `SELECT * FROM users WHERE email = $1` */
    method FindByEmail(email: string) returns (found: Option<Id>)
      requires Valid()
      ensures found == LookupEmail(users, email)
      ensures found.Some? ==> found.value in users && users[found.value].email == email
      ensures found.None? <==> !HasEmail(users, email)
    {
      if id :| id in users && users[id].email == email {
        found := Some(id);
      } else {
        found := None;
      }
    }

    /**
     * register: an email already present is a 400 and nothing is
     * inserted. A body without a (string) password makes hashing throw,
     * which becomes a 500. Otherwise the row stores hash(password, salt),
     * never the password; the response carries the new user without its
     * hash and a token for its id. A key collision fails the INSERT, which
     * also becomes a 500.
     */
    method Register(reg: Registration, newId: Id, salt: string, now: Timestamp,
                    hash: (string, string) -> string, sign: Signer, env: Env)
      returns (r: Result<Session<NewUser>, Error>)
      requires Valid()
      modifies this
      ensures Valid()
      ensures HasEmail(old(users), reg.email) ==> r == Failure(EmailTaken) && users == old(users)
      ensures !HasEmail(old(users), reg.email) && (reg.password.None? || newId in old(users)) ==>
                r == Failure(ApiError(500, "Error registering user")) && users == old(users)
      ensures !HasEmail(old(users), reg.email) && reg.password.Some? && newId !in old(users) ==>
                var row := UserRow(newId, reg.email, hash(reg.password.value, salt), reg.fullName,
                                   reg.artistName, None, None, now, now, None);
                && users == old(users)[newId := row]
                && r == Success(Session(NewUserView(row), IssueToken(sign, env, newId)))
    {
      var existing := FindByEmail(reg.email);
      if existing.Some? {
        return Failure(Rethrow(EmailTaken, "Error registering user"));
      }
      if reg.password.None? {
        return Failure(Rethrow(InternalError("data and salt arguments required"), "Error registering user"));
      }
      if newId in users {
        return Failure(Rethrow(InternalError("duplicate key value violates unique constraint"), "Error registering user"));
      }
      var row := UserRow(newId, reg.email, hash(reg.password.value, salt), reg.fullName,
                         reg.artistName, None, None, now, now, None);
      users := users[newId := row];
      r := Success(Session(NewUserView(row), IssueToken(sign, env, newId)));
    }

    /**
     * login: on success last_login_at of that user (and no other column or
     * user) is set to now; the user returned is the row as read before
     * that update, without its hash, with a token for its id. Any failure,
     * a missing password included, is the same 401 and changes nothing.
     */
    method Login(email: string, password: BodyPassword, now: Timestamp,
                 compare: (string, string) -> bool, sign: Signer, env: Env)
      returns (r: Result<Session<PublicUser>, Error>)
      requires Valid()
      modifies this
      ensures Valid()
      ensures var found := LookupEmail(old(users), email);
              if found.None? || password.None? || !compare(password.value, old(users)[found.value].passwordHash) then
                r == Failure(InvalidCredentials) && users == old(users)
              else
                var row := old(users)[found.value];
                && users == old(users)[found.value := row.(lastLoginAt := Some(now))]
                && r == Success(Session(PublicView(row), IssueToken(sign, env, row.id)))
    {
      var id := FindByEmail(email);
      var found := if id.Some? then Some(users[id.value]) else None;
      var checked := CheckPassword(found, password, compare);
      if checked.Failure? {
        return Failure(Rethrow(checked.error, "Error logging in user"));
      }
      var row := checked.value;
      users := users[row.id := row.(lastLoginAt := Some(now))];
      r := Success(Session(PublicView(row), IssueToken(sign, env, row.id)));
    }

    /** getProfile: the user without its hash, or a 404. */
    method GetProfile(userId: Id) returns (r: Result<PublicUser, Error>)
      requires Valid()
      ensures userId in users ==> r == Success(PublicView(users[userId]))
      ensures userId !in users ==> r == Failure(UserNotFound)
    {
      if userId !in users {
        return Failure(Rethrow(UserNotFound, "Error fetching user profile"));
      }
      r := Success(PublicView(users[userId]));
    }

    /**
     * updateProfile: overwrites full_name, artist_name and bio (an absent
     * optional field becomes NULL) and refreshes updated_at; email, hash
     * and every other column and user are unchanged. A missing user is a 404.
     */
    method UpdateProfile(userId: Id, changes: ProfileChanges, now: Timestamp)
      returns (r: Result<PublicUser, Error>)
      requires Valid()
      modifies this
      ensures Valid()
      ensures userId !in old(users) ==> r == Failure(UserNotFound) && users == old(users)
      ensures userId in old(users) ==>
                var row := old(users)[userId].(fullName := changes.fullName, artistName := changes.artistName,
                                               bio := changes.bio, updatedAt := now);
                && users == old(users)[userId := row]
                && r == Success(PublicView(row))
    {
      if userId !in users {
        return Failure(Rethrow(UserNotFound, "Error updating user profile"));
      }
      var row := users[userId].(fullName := changes.fullName, artistName := changes.artistName,
                                bio := changes.bio, updatedAt := now);
      users := users[userId := row];
      r := Success(PublicView(row));
    }
  }
}
