/**
 * The server's authentication controller over a users table: registration,
 * login, token refresh and the current-user lookup.
 *
 * Password hashing and token signing are symbolic: a hash remembers the password
 * it was made from, and a token is the signed payload together with its secret,
 * its lifetime name and its issue time. How a lifetime name such as "1h" turns
 * into seconds is a parameter.
 */
module Auth {
  import opened Wrappers
  import opened Js
  import opened Schemas
  import opened Api
  import opened Supabase

  // ---------------------------------------------------------------------------
  // Symbolic cryptography

  /** The work factor `register` hashes with. */
  const HashRounds := 12

  /** A bcrypt hash of `plain` (the salt is immaterial to comparison). */
  datatype PasswordHash = BcryptHash(plain: string, rounds: nat)

  /** `bcrypt.compare(password, hash)`. */
  predicate BcryptCompare(password: string, hash: PasswordHash) {
    hash.plain == password
  }

  /** The claims the controller signs. */
  datatype TokenPayload = TokenPayload(userId: string, username: string)

  /** `jwt.sign(payload, secret, { expiresIn })` issued at `issuedAt` (seconds). */
  datatype Token = Signed(payload: TokenPayload, secret: string, expiresIn: string, issuedAt: int)

  /** What a client may send as `refreshToken`: nothing, some JSON value, or a token. */
  datatype RefreshField = Absent | Value(v: Json) | Jwt(token: Token)

  /** JavaScript truthiness of the `refreshToken` field (a token is a non-empty string). */
  predicate RefreshFieldTruthy(field: RefreshField) {
    match field
    case Absent => false
    case Value(v) => Truthy(v)
    case Jwt(_) => true
  }

  /**
   * `jwt.verify(token, secret)`: only a token signed with `secret` and not yet
   * expired (`now` before issue time plus lifetime) verifies, and it yields its payload.
   */
  function Verify(field: RefreshField, secret: string, now: int, lifetime: string -> int): (r: Option<TokenPayload>)
    ensures r.Some? <==>
      field.Jwt? && field.token.secret == secret && now < field.token.issuedAt + lifetime(field.token.expiresIn)
    ensures r.Some? ==> r.value == field.token.payload
  {
    match field
    case Jwt(t) =>
      if t.secret == secret && now < t.issuedAt + lifetime(t.expiresIn) then Some(t.payload) else None
    case _ => None
  }

  // ---------------------------------------------------------------------------
  // The users table and its queries

  datatype UserRow = UserRow(id: string, username: string, email: string, passwordHash: PasswordHash,
                             createdAt: int, updatedAt: int)

  /** `.select(...).eq(column, value)`: the matching rows, in table order. */
  function Select(users: seq<UserRow>, keep: UserRow -> bool): (r: seq<UserRow>)
    ensures |r| <= |users|
    ensures forall u :: u in r <==> u in users && keep(u)
  {
    if users == [] then []
    else Select(users[..|users| - 1], keep) + (if keep(users[|users| - 1]) then [users[|users| - 1]] else [])
  }

  /** The outcome of a `.single()` query. */
  datatype QueryResult = QueryResult(data: Option<UserRow>, error: Option<PgError>)

  /** `.single()`: the row when exactly one matched, the no-rows error otherwise. */
  function Single(rows: seq<UserRow>): (q: QueryResult)
    ensures q.data.Some? <==> |rows| == 1
    ensures q.error.None? <==> |rows| == 1
    ensures |rows| == 1 ==> q.data == Some(rows[0])
    ensures |rows| != 1 ==> q.error == Some(NoRowsError)
  {
    if |rows| == 1 then QueryResult(Some(rows[0]), None) else QueryResult(None, Some(NoRowsError))
  }

  /** A single-row lookup unwrapped by `handleSupabaseResponse` (a row is always truthy). */
  function Fetch(users: seq<UserRow>, keep: UserRow -> bool): (r: Result<UserRow, DatabaseError>)
    ensures r.Ok? <==> |Select(users, keep)| == 1
    ensures r.Ok? ==> r.value in users && keep(r.value)
    ensures r.Err? ==> r.error == NoRowsFailure
  {
    var q := Single(Select(users, keep));
    HandleSupabaseResponse(q.data, q.error, (u: UserRow) => true)
  }

  /** No two rows share an id, a username or an email. */
  predicate UniqueKeys(users: seq<UserRow>) {
    forall i, j | 0 <= i < j < |users| ::
      users[i].id != users[j].id && users[i].username != users[j].username && users[i].email != users[j].email
  }

  /** When no two rows satisfy `keep`, the selection has at most one row. */
  lemma {:induction false} SelectAtMostOne(users: seq<UserRow>, keep: UserRow -> bool)
    requires forall i, j | 0 <= i < j < |users| :: !(keep(users[i]) && keep(users[j]))
    ensures |Select(users, keep)| <= 1
  {
    if users != [] {
      var init := users[..|users| - 1];
      SelectAtMostOne(init, keep);
      if keep(users[|users| - 1]) {
        assert forall k | 0 <= k < |init| :: !keep(init[k]) by {
          forall k | 0 <= k < |init| ensures !keep(init[k]) {
            assert init[k] == users[k];
          }
        }
        SelectNone(init, keep);
      }
    }
  }

  /** When no row satisfies `keep`, the selection is empty. */
  lemma {:induction false} SelectNone(users: seq<UserRow>, keep: UserRow -> bool)
    requires forall k | 0 <= k < |users| :: !keep(users[k])
    ensures Select(users, keep) == []
  {
    if users != [] {
      SelectNone(users[..|users| - 1], keep);
    }
  }

  /** With at most one candidate, the lookup succeeds exactly when a matching row exists, and returns it. */
  lemma FetchFindsUnique(users: seq<UserRow>, keep: UserRow -> bool)
    requires forall i, j | 0 <= i < j < |users| :: !(keep(users[i]) && keep(users[j]))
    ensures Fetch(users, keep).Ok? <==> exists u :: u in users && keep(u)
    ensures Fetch(users, keep).Ok? ==> Fetch(users, keep).value in users && keep(Fetch(users, keep).value)
    ensures Fetch(users, keep).Err? ==> Fetch(users, keep).error == NoRowsFailure
  {
    SelectAtMostOne(users, keep);
    var rows := Select(users, keep);
    if exists u :: u in users && keep(u) {
      var u :| u in users && keep(u);
      assert u in rows;
    }
  }

  /** The error a `.single()` lookup that found nothing throws. */
  const NoRowsFailure := NewDatabaseError("Database operation failed: " + NoRowsError.message, Some(NoRowsError))

  predicate HasUsername(users: seq<UserRow>, name: string) {
    exists u :: u in users && u.username == name
  }

  predicate HasEmail(users: seq<UserRow>, email: string) {
    exists u :: u in users && u.email == email
  }

  predicate HasId(users: seq<UserRow>, id: string) {
    exists u :: u in users && u.id == id
  }

  /** The primary-key violation the database reports for an id already in the table. */
  const DuplicateIdError := PgError("duplicate key value violates unique constraint \"users_pkey\"")

  /** A row whose id, username and email are all new keeps the keys unique. */
  lemma AppendKeepsKeysUnique(users: seq<UserRow>, row: UserRow)
    requires UniqueKeys(users)
    requires !HasId(users, row.id) && !HasUsername(users, row.username) && !HasEmail(users, row.email)
    ensures UniqueKeys(users + [row])
  {
    var all := users + [row];
    forall i, j | 0 <= i < j < |all|
      ensures all[i].id != all[j].id && all[i].username != all[j].username && all[i].email != all[j].email
    {
      assert all[i] == users[i] && all[i] in users;
    }
  }

  /**
   * `const { data } = await ….single()` with the error discarded: the row when
   * exactly one matched and the query did not fail, `null` otherwise.
   */
  function Lookup(users: seq<UserRow>, keep: UserRow -> bool, fault: Option<PgError>): (r: Option<UserRow>)
    ensures r.Some? <==> fault.None? && |Select(users, keep)| == 1
    ensures r.Some? ==> r.value in users && keep(r.value)
  {
    if fault.Some? then None else Single(Select(users, keep)).data
  }

  /** The violations the table's unique keys (id, username, email) report for a new row. */
  const DuplicateUsernameError := PgError("duplicate key value violates unique constraint \"users_username_key\"")
  const DuplicateEmailError := PgError("duplicate key value violates unique constraint \"users_email_key\"")

  /** The key constraint an insert of this row would violate, if any. */
  function ViolatedConstraint(users: seq<UserRow>, id: string, username: string, email: string): (r: Option<PgError>)
    ensures r.None? <==> !HasId(users, id) && !HasUsername(users, username) && !HasEmail(users, email)
  {
    if HasId(users, id) then Some(DuplicateIdError)
    else if HasUsername(users, username) then Some(DuplicateUsernameError)
    else if HasEmail(users, email) then Some(DuplicateEmailError)
    else None
  }

  /** The username check of `register` finds the name taken. */
  ghost predicate UsernameSeen(users: seq<UserRow>, raw: CreateUserInput, fault: Option<PgError>)
    requires raw.username.Some?
  {
    fault.None? && HasUsername(users, raw.username.value)
  }

  /** The email check of `register` finds the address taken. */
  ghost predicate EmailSeen(users: seq<UserRow>, raw: CreateUserInput, fault: Option<PgError>)
    requires raw.email.Some?
  {
    fault.None? && HasEmail(users, raw.email.value)
  }

  // ---------------------------------------------------------------------------
  // Responses

  datatype UserView = UserView(id: string, username: string, email: string, createdAt: int)
  datatype UserProfile = UserProfile(id: string, username: string, email: string, createdAt: int, updatedAt: int)

  /** `{ accessToken, refreshToken, expiresIn }`. */
  datatype TokenPair = TokenPair(accessToken: Token, refreshToken: Token, expiresIn: string)

  /** The `data` of a successful response: a session (user and tokens), a renewed pair, or a profile. */
  datatype AuthData = Session(user: UserView, tokens: TokenPair) | Renewed(pair: TokenPair) | Profile(profile: UserProfile)

  /** What the controller thrown to `next(error)`. */
  datatype Thrown = ValidationFailed(issues: seq<Issue>) | DbFailed(error: DatabaseError)

  /** A response sent with a status, or an error handed to the error-handling middleware. */
  datatype Outcome = Respond(status: nat, body: ApiResponse<AuthData>) | Next(thrown: Thrown)

  function ViewOf(u: UserRow): UserView {
    UserView(u.id, u.username, u.email, u.createdAt)
  }

  /** The JWT settings of the environment (`JWT_SECRET`, `JWT_EXPIRES_IN`, `JWT_REFRESH_EXPIRES_IN`). */
  datatype AuthConfig = AuthConfig(secret: string, expiresIn: string, refreshExpiresIn: string)

  const DefaultExpiresIn := "1h"
  const DefaultRefreshExpiresIn := "7d"

  // ---------------------------------------------------------------------------
  // The controller

  class AuthController {
    /** The `users` table. */
    var users: seq<UserRow>
    const config: AuthConfig

    /** The table's key constraints. */
    ghost predicate Valid()
      reads this
    {
      UniqueKeys(users)
    }

    constructor(config: AuthConfig)
      ensures Valid() && users == [] && this.config == config
    {
      this.config := config;
      users := [];
    }

    /**
     * `generateTokens`: the same payload signed twice with the same secret, with the
     * access and refresh lifetimes, and the access lifetime reported as `expiresIn`.
     */
    function GenerateTokens(payload: TokenPayload, now: int): (pair: TokenPair)
      ensures pair.accessToken.payload == payload && pair.refreshToken.payload == payload
      ensures pair.accessToken.secret == config.secret && pair.refreshToken.secret == config.secret
      ensures pair.accessToken.expiresIn == config.expiresIn && pair.refreshToken.expiresIn == config.refreshExpiresIn
      ensures pair.accessToken.issuedAt == now && pair.refreshToken.issuedAt == now
      ensures pair.expiresIn == config.expiresIn
    {
      TokenPair(Signed(payload, config.secret, config.expiresIn, now),
                Signed(payload, config.secret, config.refreshExpiresIn, now),
                config.expiresIn)
    }

    /** The session a row opens: its public fields and a fresh token pair for its id and username. */
    function SessionOf(u: UserRow, now: int): AuthData {
      Session(ViewOf(u), GenerateTokens(TokenPayload(u.id, u.username), now))
    }

    /**
     * `register`: validation, then the username check, then the email check, then
     * the insert of one row with the hashed password; `newId` and `now` are the id
     * and timestamp the database assigns. Each lookup discards its query error, so a
     * lookup that fails (`usernameLookupFault`, `emailLookupFault`) reads as "free";
     * the insert then meets the table's own key constraints, and `insertFault` is a
     * failure the database may report for it.
     */
    method Register(f: Formats, raw: CreateUserInput, newId: string, now: int,
                    usernameLookupFault: Option<PgError>, emailLookupFault: Option<PgError>, insertFault: Option<PgError>)
      returns (o: Outcome)
      requires Valid()
      modifies this
      ensures Valid()
      ensures ParseCreateUser(f, raw).Err? ==>
        o == Next(ValidationFailed(ParseCreateUser(f, raw).error)) && users == old(users)
      ensures ParseCreateUser(f, raw).Ok? && usernameLookupFault.None? && HasUsername(old(users), raw.username.value) ==>
        o == Respond(400, Error("Username already exists", None)) && users == old(users)
      ensures (ParseCreateUser(f, raw).Ok? && !UsernameSeen(old(users), raw, usernameLookupFault)
               && emailLookupFault.None? && HasEmail(old(users), raw.email.value)) ==>
        o == Respond(400, Error("Email already exists", None)) && users == old(users)
      ensures (ParseCreateUser(f, raw).Ok? && !UsernameSeen(old(users), raw, usernameLookupFault)
               && !EmailSeen(old(users), raw, emailLookupFault)
               && (insertFault.Some? || HasId(old(users), newId)
                   || HasUsername(old(users), raw.username.value) || HasEmail(old(users), raw.email.value))) ==>
        o.Next? && o.thrown.DbFailed? && users == old(users)
      ensures (ParseCreateUser(f, raw).Ok? && insertFault.None? && !HasId(old(users), newId)
               && !HasUsername(old(users), raw.username.value) && !HasEmail(old(users), raw.email.value)) ==>
        var row := UserRow(newId, raw.username.value, raw.email.value, BcryptHash(raw.password.value, HashRounds), now, now);
        && users == old(users) + [row]
        && o == Respond(201, Success(SessionOf(row, now), None))
      ensures o.Respond? && o.status == 201 ==> LoginSucceeds(LoginInput(raw.username, raw.password), now)
    {
      var parsed := ParseCreateUser(f, raw);
      if parsed.Err? {
        return Next(ValidationFailed(parsed.error));
      }
      var v := parsed.value;
      FetchFindsUnique(users, (u: UserRow) => u.username == v.username);
      var existingUser := Lookup(users, (u: UserRow) => u.username == v.username, usernameLookupFault);
      if existingUser.Some? {
        return Respond(400, Error("Username already exists", None));
      }
      FetchFindsUnique(users, (u: UserRow) => u.email == v.email);
      var existingEmail := Lookup(users, (u: UserRow) => u.email == v.email, emailLookupFault);
      if existingEmail.Some? {
        return Respond(400, Error("Email already exists", None));
      }
      var passwordHash := BcryptHash(v.password, HashRounds);
      if insertFault.Some? {
        return Next(DbFailed(NewDatabaseError("Database operation failed: " + insertFault.value.message, insertFault)));
      }
      var violated := ViolatedConstraint(users, newId, v.username, v.email);
      if violated.Some? {
        return Next(DbFailed(NewDatabaseError("Database operation failed: " + violated.value.message, violated)));
      }
      var row := UserRow(newId, v.username, v.email, passwordHash, now, now);
      AppendKeepsKeysUnique(users, row);
      users := users + [row];
      o := Respond(201, Success(SessionOf(row, now), None));
      LoginAcceptsRegisteredCredentials(f, raw);
      LoginWithStoredPassword(LoginInput(raw.username, raw.password), row, now);
    }

    /** Login answers 200 with a session for these credentials. */
    ghost predicate LoginSucceeds(raw: LoginInput, now: int)
      reads this
    {
      var o := Login(raw, now);
      o.Respond? && o.status == 200
    }

    /**
     * `login`: validation, then the lookup by username (a missing user is a thrown
     * database error, not a 401), then the password comparison.
     */
    function Login(raw: LoginInput, now: int): (o: Outcome)
      reads this
      ensures ParseLogin(raw).Err? ==> o == Next(ValidationFailed(ParseLogin(raw).error))
      ensures ParseLogin(raw).Ok? && !HasUsername(users, raw.username.value) ==> o == Next(DbFailed(NoRowsFailure))
      ensures o.Next? && ParseLogin(raw).Ok? ==> o == Next(DbFailed(NoRowsFailure))
      ensures o.Respond? ==> o.status == 200 || o.status == 401
      ensures o.Respond? && o.status == 401 ==> o.body == Error("Invalid credentials", None)
      ensures o.Respond? && o.status == 401 ==>
        exists u :: u in users && u.username == raw.username.value && !BcryptCompare(raw.password.value, u.passwordHash)
      ensures o.Respond? && o.status == 200 ==>
        exists u :: u in users && u.username == raw.username.value && BcryptCompare(raw.password.value, u.passwordHash)
          && o.body == Success(SessionOf(u, now), None)
    {
      match ParseLogin(raw)
      case Err(issues) => Next(ValidationFailed(issues))
      case Ok(c) =>
        var found := Fetch(users, (u: UserRow) => u.username == c.username);
        if found.Err? then Next(DbFailed(found.error))
        else
          var user := found.value;
          if !BcryptCompare(c.password, user.passwordHash) then Respond(401, Error("Invalid credentials", None))
          else Respond(200, Success(SessionOf(user, now), None))
    }

    /**
     * `refresh`: a falsy field is a 400; any verification failure is a 401 (this
     * handler never passes an error on); otherwise a new pair for the decoded claims.
     */
    function Refresh(field: RefreshField, now: int, lifetime: string -> int): (o: Outcome)
      ensures o.Respond?
      ensures !RefreshFieldTruthy(field) ==> o == Respond(400, Error("Refresh token is required", None))
      ensures RefreshFieldTruthy(field) && Verify(field, config.secret, now, lifetime).None? ==>
        o == Respond(401, Error("Invalid refresh token", None))
      ensures o.status == 200 <==> field.Jwt? && field.token.secret == config.secret
                                   && now < field.token.issuedAt + lifetime(field.token.expiresIn)
      ensures o.status == 200 ==> o.body == Success(Renewed(GenerateTokens(field.token.payload, now)), None)
    {
      if !RefreshFieldTruthy(field) then Respond(400, Error("Refresh token is required", None))
      else match Verify(field, config.secret, now, lifetime)
        case None => Respond(401, Error("Invalid refresh token", None))
        case Some(decoded) =>
          Respond(200, Success(Renewed(GenerateTokens(TokenPayload(decoded.userId, decoded.username), now)), None))
    }

    /**
     * `me`: the authenticated user's id comes from the request (set by the token
     * middleware); a missing or empty id is a 401, otherwise the row is looked up.
     */
    function Me(userId: Option<string>): (o: Outcome)
      reads this
      ensures (userId.None? || userId.value == "") ==> o == Respond(401, Error("Not authenticated", None))
      ensures userId.Some? && userId.value != "" && !HasId(users, userId.value) ==> o == Next(DbFailed(NoRowsFailure))
      ensures o.Next? ==> o == Next(DbFailed(NoRowsFailure))
      ensures o.Respond? && o.status != 401 ==>
        o.status == 200 && exists u :: (u in users && u.id == userId.value
          && o.body == Success(Profile(UserProfile(u.id, u.username, u.email, u.createdAt, u.updatedAt)), None))
    {
      if userId.None? || userId.value == "" then Respond(401, Error("Not authenticated", None))
      else
        var found := Fetch(users, (u: UserRow) => u.id == userId.value);
        if found.Err? then Next(DbFailed(found.error))
        else
          var u := found.value;
          Respond(200, Success(Profile(UserProfile(u.id, u.username, u.email, u.createdAt, u.updatedAt)), None))
    }

    /** In a valid table, login with a registered username never throws: it answers 200 or 401. */
    lemma LoginFindsRegisteredUser(raw: LoginInput, now: int)
      requires Valid() && ParseLogin(raw).Ok? && HasUsername(users, raw.username.value)
      ensures Login(raw, now).Respond?
    {
      FetchFindsUnique(users, (u: UserRow) => u.username == raw.username.value);
    }

    /** The stored row's own password logs in, and the session is that row's. */
    lemma LoginWithStoredPassword(raw: LoginInput, row: UserRow, now: int)
      requires Valid() && ParseLogin(raw).Ok? && row in users
      requires row.username == raw.username.value && BcryptCompare(raw.password.value, row.passwordHash)
      ensures LoginSucceeds(raw, now)
      ensures Login(raw, now).body == Success(SessionOf(row, now), None)
    {
      FetchFindsUnique(users, (u: UserRow) => u.username == raw.username.value);
    }

    /** In a valid table, `me` with a non-empty id answers exactly when that id is in the table. */
    lemma MeFindsExistingUser(userId: string)
      requires Valid() && userId != ""
      ensures Me(Some(userId)).Respond? <==> HasId(users, userId)
    {
      FetchFindsUnique(users, (u: UserRow) => u.id == userId);
    }

    /** A refresh token from `generateTokens`, presented before it expires, renews the same claims. */
    lemma RefreshRoundTrip(payload: TokenPayload, issuedAt: int, now: int, lifetime: string -> int)
      requires now < issuedAt + lifetime(config.refreshExpiresIn)
      ensures Refresh(Jwt(GenerateTokens(payload, issuedAt).refreshToken), now, lifetime)
           == Respond(200, Success(Renewed(GenerateTokens(payload, now)), None))
    {
    }

    /**
     * Both tokens carry the same claims and secret, so an unexpired access token is
     * accepted as a refresh token too.
     */
    lemma AccessTokenAlsoRefreshes(payload: TokenPayload, issuedAt: int, now: int, lifetime: string -> int)
      requires now < issuedAt + lifetime(config.expiresIn)
      ensures Refresh(Jwt(GenerateTokens(payload, issuedAt).accessToken), now, lifetime).status == 200
    {
    }
  }
}
