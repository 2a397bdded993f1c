/**
 * The admin session handlers: registration, login with token issuance,
 * logout, and the token helper that overwrites an account's single
 * refresh-token slot. The accounts live in a store keyed by id.
 */
module UserController {
  import opened Outcomes
  import opened Js
  import opened Strings
  import opened ApiErrors
  import opened Http
  import opened AdminModel

  /** The fields of `req.body` the handlers destructure. */
  datatype AdminBody = AdminBody(username: JsValue, password: JsValue, email: JsValue)

  /** The two tokens `generateAccessToken` and `generateRefreshToken` return. */
  datatype TokenPair = TokenPair(access: string, refresh: string)

  /** The data of a successful login. */
  datatype LoginData = LoginData(user: Identity, accessToken: string, refreshToken: string)

  const CookieFlags := CookieOptions(true, true)

  const TokenFailure := "something went wrong while genrating access token and refresh token"

  /**
   * `fields.some((field) => field?.trim() === "")`: an absent field never
   * counts, a string counts when it trims to "", and anything else present
   * has no `trim` and throws. The scan stops at the first field that counts.
   */
  function AnyTrimmedEmpty(fields: seq<JsValue>): (r: Result<bool, Thrown>)
    ensures r == Success(true) ==> exists i :: 0 <= i < |fields| && fields[i].Str? && Trim(fields[i].s) == ""
    ensures r == Success(false) <==> forall i :: 0 <= i < |fields| ==> Nullish(fields[i]) || (fields[i].Str? && Trim(fields[i].s) != "")
    decreases |fields|
  {
    if |fields| == 0 then
      Success(false)
    else
      match fields[0]
      case Undefined => AnyTrimmedEmpty(fields[1..])
      case Null => AnyTrimmedEmpty(fields[1..])
      case Str(s) => if Trim(s) == "" then Success(true) else AnyTrimmedEmpty(fields[1..])
      case _ => Failure(Runtime("TypeError", "field?.trim is not a function"))
  }

  /** Some present field of `fields` is nothing but whitespace. */
  ghost predicate SomeBlank(fields: seq<JsValue>)
  {
    exists i :: 0 <= i < |fields| && fields[i].Str? && AllWhitespace(fields[i].s)
  }

  lemma SomeBlankCons(fields: seq<JsValue>)
    requires |fields| > 0
    ensures SomeBlank(fields) <==> (fields[0].Str? && AllWhitespace(fields[0].s)) || SomeBlank(fields[1..])
  {
    var rest := fields[1..];
    if SomeBlank(fields) {
      var i :| 0 <= i < |fields| && fields[i].Str? && AllWhitespace(fields[i].s);
      if i > 0 {
        assert rest[i - 1] == fields[i];
      }
    }
    if SomeBlank(rest) {
      var j :| 0 <= j < |rest| && rest[j].Str? && AllWhitespace(rest[j].s);
      assert fields[j + 1] == rest[j];
    }
  }

  /**
   * When every field is absent or a string, the check fails exactly when some
   * present field is nothing but whitespace.
   */
  lemma {:induction false} TrimmedEmptyIffBlank(fields: seq<JsValue>)
    requires forall i :: 0 <= i < |fields| ==> Nullish(fields[i]) || fields[i].Str?
    ensures AnyTrimmedEmpty(fields) == Success(SomeBlank(fields))
    decreases |fields|
  {
    if |fields| > 0 {
      var rest := fields[1..];
      assert forall i :: 0 <= i < |rest| ==> rest[i] == fields[i + 1];
      TrimmedEmptyIffBlank(rest);
      SomeBlankCons(fields);
      if fields[0].Str? {
        TrimEmptyIff(fields[0].s);
      }
    }
  }

  /**
   * One clause of a `findOne` filter, `{ field: value }` on a String path: an
   * undefined or null value matches a record whose field is absent; a string
   * matches that string; a number or a boolean is cast to its string form
   * first, so `5` matches "5" and `true` matches "true".
   */
  predicate QueryMatches(value: JsValue, stored: Option<string>)
  {
    match value
    case Undefined => stored.None?
    case Null => stored.None?
    case Str(s) => stored == Some(s)
    case Num(n) => stored == Some(NumberToString(n))
    case Bool(b) => stored == Some(BoolToString(b))
  }

  /** A numeric filter value matches exactly the stored string that prints it: the digits read back to the number. */
  lemma NumericQueryMatchesItsDigits(n: nat, stored: string)
    ensures QueryMatches(Num(n), Some(stored)) <==> stored == NatToDecimal(n)
    ensures QueryMatches(Num(n), Some(stored)) ==> DecimalValue(stored) == n
  {
    if QueryMatches(Num(n), Some(stored)) {
      DecimalRoundTrip(n);
    }
  }

  /** `{ $or: [{ username }, { email }] }`. */
  predicate MatchesEither(a: Account, username: JsValue, email: JsValue)
  {
    QueryMatches(username, Some(a.username)) || QueryMatches(email, a.email)
  }

  /** The email a created account stores. */
  function StoredEmail(email: JsValue): Option<string>
  {
    if email.Str? then Some(email.s) else None
  }

  /** The account `Admin.create({ username, password, email })` stores once the pre-save hook hashed the password. */
  function NewAccount(id: Id, username: string, password: string, email: JsValue, salt: nat): Account
  {
    Account(id, username, StoredEmail(email), Hash(Clear(password), salt), DefaultRole, None)
  }

  /** The Admin collection. */
  class AdminStore {
    var accounts: map<Id, Account>

    /** Records sit under their own id, passwords are stored hashed, and usernames are unique (the schema's unique index). */
    ghost predicate Valid()
      reads this
    {
      && (forall id :: id in accounts ==> accounts[id].id == id && accounts[id].password.Hashed?)
      && (forall i, j :: i in accounts && j in accounts && accounts[i].username == accounts[j].username ==> i == j)
    }

    constructor ()
      ensures Valid() && accounts == map[]
    {
      accounts := map[];
    }

    /** `Admin.findOne({ $or: [{ username }, { email }] })`: some matching account, or none when nothing matches. */
    method FindOne(username: JsValue, email: JsValue) returns (found: Option<Id>)
      ensures found.Some? ==> found.value in accounts && MatchesEither(accounts[found.value], username, email)
      ensures found.None? <==> forall id :: id in accounts ==> !MatchesEither(accounts[id], username, email)
    {
      if exists id :: id in accounts && MatchesEither(accounts[id], username, email) {
        var id :| id in accounts && MatchesEither(accounts[id], username, email);
        found := Some(id);
      } else {
        found := None;
      }
    }

    /**
     * registerAdmin: 400 when a present field trims to "", 409 when an account
     * has the username or the email, the schema's ValidationError when username
     * or password is missing; otherwise one account is added under the fresh
     * id and returned without its password, with HTTP 201 inside an envelope
     * saying 200.
     */
    method RegisterAdmin(body: AdminBody, newId: Id, salt: nat) returns (r: Handled<Profile>)
      requires Valid() && newId !in accounts
      modifies this
      ensures Valid()
      ensures r.Failure? ==> accounts == old(accounts)
      ensures AnyTrimmedEmpty([body.username, body.password, body.email]).Failure? ==>
        r == Failure(AnyTrimmedEmpty([body.username, body.password, body.email]).error)
      ensures AnyTrimmedEmpty([body.username, body.password, body.email]) == Success(true) ==>
        r == Throw(400, "All fields are required!")
      ensures (&& AnyTrimmedEmpty([body.username, body.password, body.email]) == Success(false)
               && (exists id :: id in old(accounts) && MatchesEither(old(accounts)[id], body.username, body.email))) ==>
        r == Throw(409, "Admin already exists!")
      ensures (&& AnyTrimmedEmpty([body.username, body.password, body.email]) == Success(false)
               && (forall id :: id in old(accounts) ==> !MatchesEither(old(accounts)[id], body.username, body.email))
               && !(body.username.Str? && body.password.Str?)) ==>
        r == Failure(Runtime("ValidationError", "Admin validation failed"))
      ensures r.Success? <==>
        && AnyTrimmedEmpty([body.username, body.password, body.email]) == Success(false)
        && (forall id :: id in old(accounts) ==> !MatchesEither(old(accounts)[id], body.username, body.email))
        && body.username.Str? && body.password.Str?
      ensures r.Success? ==>
        var a := NewAccount(newId, body.username.s, body.password.s, body.email, salt);
        && accounts == old(accounts)[newId := a]
        && r.value == Reply(201, ApiResponse(200, WithoutPassword(a), "User admin registered Successfully"), [])
    {
      var blank := AnyTrimmedEmpty([body.username, body.password, body.email]);
      if blank.Failure? {
        return Failure(blank.error);
      }
      if blank.value {
        return Throw(400, "All fields are required!");
      }
      var existing := FindOne(body.username, body.email);
      if existing.Some? {
        return Throw(409, "Admin already exists!");
      }
      if !body.username.Str? || !body.password.Str? {
        return Failure(Runtime("ValidationError", "Admin validation failed"));
      }
      var created := CreateAndSave(newId, body.username.s, body.password.s, StoredEmail(body.email), salt);
      assert created == NewAccount(newId, body.username.s, body.password.s, body.email, salt);
      accounts := accounts[newId := created];
      r := Success(Reply(201, ApiResponse(200, WithoutPassword(created), "User admin registered Successfully"), []));
    }

    /**
     * generateAccessTokenAndRefresToken: the account's refresh-token slot is
     * overwritten with the new refresh token and the pair is returned; a
     * missing account or a failed signing ends as a 500 and changes nothing.
     */
    method IssueTokens(userId: Id, issued: Option<TokenPair>, salt: nat) returns (r: Result<TokenPair, Thrown>)
      requires Valid()
      modifies this
      ensures Valid()
      ensures r.Success? <==> userId in old(accounts) && issued.Some?
      ensures r.Success? ==>
        && r.value == issued.value
        && accounts == old(accounts)[userId := old(accounts)[userId].(refreshToken := Some(issued.value.refresh))]
      ensures r.Failure? ==> r == Failure(Api(Err(500, TokenFailure))) && accounts == old(accounts)
    {
      if userId !in accounts || issued.None? {
        return Failure(Api(Err(500, TokenFailure)));
      }
      var saved := SaveRefreshToken(accounts[userId], issued.value.refresh, salt);
      accounts := accounts[userId := saved];
      r := Success(issued.value);
    }

    /**
     * loginAdmin: 400 without a truthy username or email; 401 "User does not
     * exist!" when no account matches; 401 "Incorrect user password!" when the
     * password does not compare; a 500 when token issuance fails. On success
     * the matched account's refresh slot holds the new refresh token, the same
     * one sent in the body and in the `refreshToken` cookie, and both cookies
     * are httpOnly and secure. `found` is the matched account, if any.
     */
    method LoginAdmin(body: AdminBody, issued: Option<TokenPair>, salt: nat) returns (r: Handled<LoginData>, found: Option<Id>)
      requires Valid()
      modifies this
      ensures Valid()
      ensures r.Failure? ==> accounts == old(accounts)
      ensures !(Truthy(body.username) || Truthy(body.email)) ==> r == Throw(400, "Username or password is required!")
      ensures (Truthy(body.username) || Truthy(body.email)) ==>
        (r == Throw(401, "User does not exist!") <==> forall id :: id in old(accounts) ==> !MatchesEither(old(accounts)[id], body.username, body.email))
      ensures found.Some? ==> found.value in old(accounts) && MatchesEither(old(accounts)[found.value], body.username, body.email)
      ensures (Truthy(body.username) || Truthy(body.email)) ==>
        (found.None? <==> forall id :: id in old(accounts) ==> !MatchesEither(old(accounts)[id], body.username, body.email))
      ensures found.Some? && body.password.Str? && !Compare(body.password.s, old(accounts)[found.value].password) ==>
        r == Throw(401, "Incorrect user password!")
      ensures found.Some? && !body.password.Str? ==> r == Failure(Runtime("Error", "Illegal arguments"))
      ensures found.Some? && body.password.Str? && Compare(body.password.s, old(accounts)[found.value].password) && issued.None? ==>
        r == Failure(Api(Err(500, TokenFailure)))
      ensures r.Success? <==>
        found.Some? && body.password.Str? && Compare(body.password.s, old(accounts)[found.value].password) && issued.Some?
      ensures r.Success? ==>
        var a := old(accounts)[found.value];
        var t := issued.value;
        && accounts == old(accounts)[found.value := a.(refreshToken := Some(t.refresh))]
        && r.value == Reply(200, ApiResponse(200, LoginData(Sanitize(a), t.access, t.refresh), "User logged in successfully"),
                            [SetCookie("accessToken", t.access, CookieFlags), SetCookie("refreshToken", t.refresh, CookieFlags)])
    {
      found := None;
      if !(Truthy(body.username) || Truthy(body.email)) {
        return Throw(400, "Username or password is required!"), found;
      }
      found := FindOne(body.username, body.email);
      if found.None? {
        return Throw(401, "User does not exist!"), found;
      }
      var user := accounts[found.value];
      if !body.password.Str? {
        return Failure(Runtime("Error", "Illegal arguments")), found;
      }
      if !Compare(body.password.s, user.password) {
        return Throw(401, "Incorrect user password!"), found;
      }
      var tokens := IssueTokens(user.id, issued, salt);
      if tokens.Failure? {
        return Failure(tokens.error), found;
      }
      var t := tokens.value;
      var loggedIn := Sanitize(accounts[user.id]);
      r := Success(Reply(200, ApiResponse(200, LoginData(loggedIn, t.access, t.refresh), "User logged in successfully"),
                         [SetCookie("accessToken", t.access, CookieFlags), SetCookie("refreshToken", t.refresh, CookieFlags)]));
    }

    /**
     * logoutAdmin: reading `req.user._id` without a user raises a TypeError;
     * otherwise 200 with empty data and both cookies cleared. The
     * `findByIdAndUpdate` it builds is never awaited, so it never runs: the
     * store is untouched (this method has no `modifies`). ClearRefreshToken
     * is the evidently intended update, which clears the slot.
     */
    method LogoutAdmin(user: Option<Identity>) returns (r: Handled<Empty>)
      ensures user.None? ==> r == Failure(ReadOfUndefined("_id"))
      ensures user.Some? ==> r == Success(Reply(200, ApiResponse(200, Empty, "User logged out successfully"),
                                               [ClearCookie("accessToken", CookieFlags), ClearCookie("refreshToken", CookieFlags)]))
    {
      if user.None? {
        return Failure(ReadOfUndefined("_id"));
      }
      r := Success(Reply(200, ApiResponse(200, Empty, "User logged out successfully"),
                         [ClearCookie("accessToken", CookieFlags), ClearCookie("refreshToken", CookieFlags)]));
    }

    /**
     * logoutAdmin as evidently intended: the refresh-token update runs and
     * clears the caller's refresh slot (ClearRefreshToken); the reply is the same.
     */
    method LogoutAdminIntended(user: Option<Identity>) returns (r: Handled<Empty>)
      requires Valid()
      modifies this
      ensures Valid()
      ensures user.None? ==> r == Failure(ReadOfUndefined("_id")) && accounts == old(accounts)
      ensures user.Some? && user.value.id in old(accounts) ==>
        accounts == old(accounts)[user.value.id := old(accounts)[user.value.id].(refreshToken := None)]
      ensures user.Some? && user.value.id !in old(accounts) ==> accounts == old(accounts)
      ensures user.Some? ==> r == Success(Reply(200, ApiResponse(200, Empty, "User logged out successfully"),
                                               [ClearCookie("accessToken", CookieFlags), ClearCookie("refreshToken", CookieFlags)]))
    {
      if user.None? {
        return Failure(ReadOfUndefined("_id"));
      }
      ClearRefreshToken(user.value.id);
      r := Success(Reply(200, ApiResponse(200, Empty, "User logged out successfully"),
                         [ClearCookie("accessToken", CookieFlags), ClearCookie("refreshToken", CookieFlags)]));
    }

    /**
     * The update logout evidently intends: the account's refresh slot is
     * cleared, as `$unset: { refreshToken: 1 }` would do. Whether an executed
     * `$set: { refreshToken: undefined }` clears it depends on the Mongoose
     * version (see "## Left out").
     */
    method ClearRefreshToken(id: Id)
      requires Valid()
      modifies this
      ensures Valid()
      ensures id in old(accounts) ==> accounts == old(accounts)[id := old(accounts)[id].(refreshToken := None)]
      ensures id !in old(accounts) ==> accounts == old(accounts)
    {
      if id in accounts {
        accounts := accounts[id := accounts[id].(refreshToken := None)];
      }
    }
  }

  /** A username, a password and an email that are not blank pass the trimmed-empty check. */
  lemma NonBlankFieldsPass(username: string, password: string, email: string)
    requires Trim(username) != "" && Trim(password) != "" && Trim(email) != ""
    ensures AnyTrimmedEmpty([Str(username), Str(password), Str(email)]) == Success(false)
  {
    var fields := [Str(username), Str(password), Str(email)];
    forall i | 0 <= i < |fields|
      ensures Nullish(fields[i]) || (fields[i].Str? && Trim(fields[i].s) != "")
    {
      assert fields[i] in {Str(username), Str(password), Str(email)};
    }
  }

  /**
   * The account registration stores accepts its own password at login by
   * username, provided every other account has an email (an account without
   * one would also match a login that gives none).
   */
  method LoginAfterRegistration(store: AdminStore, newId: Id, username: string, password: string,
                                email: string, salt: nat, tokens: TokenPair)
    returns (login: Handled<LoginData>)
    requires store.Valid() && newId in store.accounts && username != ""
    requires store.accounts[newId] == NewAccount(newId, username, password, Str(email), salt)
    requires forall id :: id in store.accounts && id != newId ==> store.accounts[id].email.Some?
    modifies store
    ensures login.Success?
    ensures newId in store.accounts && store.accounts[newId].refreshToken == Some(tokens.refresh)
  {
    ghost var before := store.accounts;
    assert MatchesEither(before[newId], Str(username), Undefined);
    assert forall id :: id in before && id != newId ==> !MatchesEither(before[id], Str(username), Undefined);
    var found;
    login, found := store.LoginAdmin(AdminBody(Str(username), Str(password), Undefined), Some(tokens), salt);
    assert found.Some?;
    assert found.value == newId;
  }

  /**
   * Registering an admin with a fresh username and email, then logging in
   * with that username and password, succeeds both times and leaves the new
   * refresh token in the account's slot.
   */
  method RegisterThenLogin(store: AdminStore, username: string, password: string, email: string,
                           newId: Id, salt: nat, tokens: TokenPair)
    returns (registered: Handled<Profile>, login: Handled<LoginData>)
    requires store.Valid() && newId !in store.accounts
    requires Trim(username) != "" && Trim(password) != "" && Trim(email) != ""
    requires forall id :: id in store.accounts ==> store.accounts[id].username != username
    requires forall id :: id in store.accounts ==> store.accounts[id].email.Some? && store.accounts[id].email != Some(email)
    modifies store
    ensures registered.Success? && login.Success?
    ensures newId in store.accounts && store.accounts[newId].refreshToken == Some(tokens.refresh)
  {
    NonBlankFieldsPass(username, password, email);
    ghost var before := store.accounts;
    registered := store.RegisterAdmin(AdminBody(Str(username), Str(password), Str(email)), newId, salt);
    assert store.accounts == before[newId := NewAccount(newId, username, password, Str(email), salt)];
    login := LoginAfterRegistration(store, newId, username, password, email, salt, tokens);
  }

  /** An account logged in with refresh token "t1", as the concrete witness below uses it. */
  function LoggedInAccount(): Account
  {
    Account("a1", "root", Some("root@example.org"), Hash(Clear("secret"), 1), DefaultRole, Some("t1"))
  }

  /**
   * As written, logging out leaves the refresh token in the account's slot:
   * the token can still be presented after logout.
   */
  method TokenSurvivesLogoutAsWritten() returns (r: Handled<Empty>, slot: Option<string>)
    ensures r.Success?
    ensures slot == Some("t1")
  {
    var store := new AdminStore();
    store.accounts := map["a1" := LoggedInAccount()];
    r := store.LogoutAdmin(Some(Sanitize(LoggedInAccount())));
    slot := store.accounts["a1"].refreshToken;
  }

  /** The same logout against the intended handler empties the slot. */
  method TokenClearedIntended() returns (r: Handled<Empty>, slot: Option<string>)
    ensures r.Success?
    ensures slot == None
  {
    var store := new AdminStore();
    store.accounts := map["a1" := LoggedInAccount()];
    r := store.LogoutAdminIntended(Some(Sanitize(LoggedInAccount())));
    slot := store.accounts["a1"].refreshToken;
  }
}
