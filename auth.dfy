/**
 * The request gate: where the access token is read from, how it resolves to a
 * sanitized identity or a 401, and the two role checks that keep "nobody is
 * logged in" (401) apart from "the wrong role is logged in" (403).
 * `jwt.verify` and `ObjectId.isValid` are foreign: they are parameters.
 */
module Auth {
  import opened Outcomes
  import opened Js
  import opened Strings
  import opened ApiErrors
  import opened AdminModel

  const BearerPrefix := "Bearer "

  /**
   * `req.cookies?.accessToken || req.header("Authorization")?.replace("Bearer ", "")`,
   * with None for undefined: a truthy cookie wins, otherwise the header with
   * its first "Bearer " taken out.
   */
  function ExtractToken(cookie: Option<string>, authorization: Option<string>): (t: Option<string>)
    ensures cookie.Some? && cookie.value != "" ==> t == cookie
    ensures (cookie.None? || cookie.value == "") ==> (t.Some? <==> authorization.Some?)
  {
    if cookie.Some? && cookie.value != "" then
      cookie
    else
      match authorization
      case None => None
      case Some(h) => Some(ReplaceFirst(h, BearerPrefix, ""))
  }

  /** A "Bearer <token>" header without a cookie yields exactly the token. */
  lemma BearerHeaderYieldsToken(token: string)
    ensures ExtractToken(None, Some(BearerPrefix + token)) == Some(token)
    ensures ExtractToken(Some(""), Some(BearerPrefix + token)) == Some(token)
  {
    var h := BearerPrefix + token;
    assert h[..|BearerPrefix|] == BearerPrefix;
    assert IndexOf(h, BearerPrefix) == Some(0);
    assert h[..0] + "" + h[|BearerPrefix|..] == token;
  }

  /** A header that never mentions "Bearer " is used as it stands. */
  lemma PlainHeaderUnchanged(header: string)
    requires forall i :: !OccursAt(header, BearerPrefix, i)
    ensures ExtractToken(None, Some(header)) == Some(header)
  {
  }

  /** An illustration beside BearerHeaderYieldsToken: only the first "Bearer " goes, so a doubled prefix leaves one behind. */
  lemma OnlyFirstBearerRemoved()
    ensures ExtractToken(None, Some("Bearer Bearer abc")) == Some("Bearer abc")
  {
    var h := "Bearer Bearer abc";
    assert h[..|BearerPrefix|] == BearerPrefix;
    assert IndexOf(h, BearerPrefix) == Some(0);
    assert h[..0] + "" + h[|BearerPrefix|..] == "Bearer abc";
  }

  /** What `jwt.verify(token, secret)` makes of a token: the payload's `_id`, or the message of the error it throws. */
  datatype Verification = Verified(subject: JsValue) | Rejected(message: string)

  /**
   * `Admin.findById(id)` on the account map: undefined and null find nothing,
   * a value that is not an ObjectId raises a CastError, and a valid id finds
   * the account stored under it, if any.
   */
  function FindAccount(subject: JsValue, accounts: map<Id, Account>, isValidId: string -> bool): (r: Result<Option<Account>, Thrown>)
    ensures r.Success? && r.value.Some? <==> subject.Str? && isValidId(subject.s) && subject.s in accounts
    ensures r.Success? && r.value.Some? ==> r.value.value == accounts[subject.s]
    ensures r.Failure? <==> !Nullish(subject) && !(subject.Str? && isValidId(subject.s))
  {
    match subject
    case Undefined => Success(None)
    case Null => Success(None)
    case Str(s) =>
      if !isValidId(s) then Failure(CastError(s, "Admin"))
      else if s in accounts then Success(Some(accounts[s]))
      else Success(None)
    case _ => Failure(CastError("[non-string]", "Admin"))
  }

  /** The body of verifyJWT's try block: the identity to attach, or what it throws. */
  function ResolveToken(token: Option<string>, verify: string -> Verification, isValidId: string -> bool, accounts: map<Id, Account>): Result<Identity, Thrown>
  {
    if token.None? || token.value == "" then
      Failure(Api(Err(401, "Unauthorized request")))
    else
      match verify(token.value)
      case Rejected(m) => Failure(Runtime("JsonWebTokenError", m))
      case Verified(subject) =>
        match FindAccount(subject, accounts, isValidId)
        case Failure(t) => Failure(t)
        case Success(None) => Failure(Api(Err(401, "Invalid Access Token!")))
        case Success(Some(a)) => Success(Sanitize(a))
  }

  /**
   * verifyJWT's decision: its catch turns every failure of the try block into
   * a 401 carrying the inner message, or "Invalid access token" when that is empty.
   */
  function Authenticate(token: Option<string>, verify: string -> Verification, isValidId: string -> bool, accounts: map<Id, Account>): (r: Result<Identity, ApiError>)
    ensures r.Failure? ==> r.error.statusCode == 401 && r.error.message != ""
    ensures token.None? || token == Some("") ==> r == Failure(Err(401, "Unauthorized request"))
    ensures token.Some? && token.value != "" && verify(token.value).Rejected? ==>
      var m := verify(token.value).message;
      r == Failure(Err(401, if m != "" then m else "Invalid access token"))
    ensures token.Some? && token.value != "" && verify(token.value).Verified? && Nullish(verify(token.value).subject) ==>
      r == Failure(Err(401, "Invalid Access Token!"))
    ensures r.Success? <==>
      && token.Some? && token.value != ""
      && verify(token.value).Verified? && verify(token.value).subject.Str?
      && isValidId(verify(token.value).subject.s) && verify(token.value).subject.s in accounts
    ensures r.Success? ==> r.value == Sanitize(accounts[verify(token.value).subject.s])
  {
    match ResolveToken(token, verify, isValidId, accounts)
    case Success(u) => Success(u)
    case Failure(t) =>
      var m := MessageOf(t);
      Failure(Err(401, if m != "" then m else "Invalid access token"))
  }

  /** A valid token for an account whose id is later missing from the store is refused, not trusted. */
  lemma DeletedAccountRefused(token: string, verify: string -> Verification, isValidId: string -> bool, accounts: map<Id, Account>, id: Id)
    requires token != "" && verify(token) == Verified(Str(id)) && isValidId(id) && id !in accounts
    ensures Authenticate(Some(token), verify, isValidId, accounts) == Failure(Err(401, "Invalid Access Token!"))
  {
  }

  /** The mutable part of a request the middleware touches: `req.user` and the calls to `next`. */
  class Request {
    var user: Option<Identity>
    var nextCalls: nat

    constructor ()
      ensures user == None && nextCalls == 0
    {
      user := None;
      nextCalls := 0;
    }

    /**
     * verifyJWT: on success `req.user` becomes the sanitized account and
     * `next` is called once; on failure neither happens and the 401 is thrown.
     */
    method VerifyJwt(cookie: Option<string>, authorization: Option<string>, verify: string -> Verification,
                     isValidId: string -> bool, accounts: map<Id, Account>)
      returns (r: Outcome<ApiError>)
      modifies this
      ensures var a := Authenticate(ExtractToken(cookie, authorization), verify, isValidId, accounts);
        && (r.Pass? <==> a.Success?)
        && (a.Success? ==> user == Some(a.value) && nextCalls == old(nextCalls) + 1)
        && (a.Failure? ==> r == Fail(a.error) && user == old(user) && nextCalls == old(nextCalls))
    {
      var token := ExtractToken(cookie, authorization);
      match Authenticate(token, verify, isValidId, accounts)
      case Failure(e) =>
        r := Fail(e);
      case Success(u) =>
        user := Some(u);
        nextCalls := nextCalls + 1;
        r := Pass;
    }
  }

  /** Roles the content routes accept. */
  predicate IsStaff(role: string)
  {
    role == "admin" || role == "contentManager"
  }

  /** checkUserRole: 401 without a user or with a falsy role, 403 for any other role than the two staff roles. */
  function CheckUserRole(user: Option<Identity>): (r: Outcome<Thrown>)
    ensures r.Pass? <==> user.Some? && IsStaff(user.value.role)
    ensures user.None? || user.value.role == "" ==> r == Fail(Api(Err(401, "Unauthorized! User information is missing.")))
    ensures user.Some? && user.value.role != "" && !IsStaff(user.value.role) ==>
      r == Fail(Api(Err(403, "Access denied! Admins and Content Managers only.")))
  {
    if user.None? || user.value.role == "" then
      Fail(Api(Err(401, "Unauthorized! User information is missing.")))
    else if user.value.role != "admin" && user.value.role != "contentManager" then
      Fail(Api(Err(403, "Access denied! Admins and Content Managers only.")))
    else
      Pass
  }

  /**
   * checkAdmin (the exported one, and the local copies in the faculty and
   * event controllers, which are the same code): only role 'admin' passes;
   * without a user, reading `req.user.role` raises a TypeError.
   */
  function CheckAdmin(user: Option<Identity>): (r: Outcome<Thrown>)
    ensures r.Pass? <==> user.Some? && user.value.role == "admin"
    ensures user.None? ==> r == Fail(ReadOfUndefined("role"))
    ensures user.Some? && user.value.role != "admin" ==> r == Fail(Api(Err(403, "Access denied! Admins only.")))
  {
    if user.None? then Fail(ReadOfUndefined("role"))
    else if user.value.role != "admin" then Fail(Api(Err(403, "Access denied! Admins only.")))
    else Pass
  }

  /** The status a thrown gate error ends as. */
  function GateStatus(r: Outcome<Thrown>): int
  {
    match r
    case Pass => 200
    case Fail(t) => StatusOr500(t)
  }

  /** checkUserRole keeps "nobody" apart from "wrong role": 401 exactly for no usable identity, 403 exactly for a foreign role. */
  lemma RoleGateSeparatesStatuses(user: Option<Identity>)
    ensures GateStatus(CheckUserRole(user)) == 401 <==> user.None? || user.value.role == ""
    ensures GateStatus(CheckUserRole(user)) == 403 <==> user.Some? && user.value.role != "" && !IsStaff(user.value.role)
  {
  }

  /** Whoever passes checkAdmin passes checkUserRole. */
  lemma AdminGateImpliesRoleGate(user: Option<Identity>)
    ensures CheckAdmin(user).Pass? ==> CheckUserRole(user).Pass?
  {
  }

  /** The converse fails: a content manager passes checkUserRole and is refused by checkAdmin with 403. */
  lemma ContentManagerOnlyPassesRoleGate(u: Identity)
    requires u.role == "contentManager"
    ensures CheckUserRole(Some(u)).Pass?
    ensures CheckAdmin(Some(u)) == Fail(Api(Err(403, "Access denied! Admins only.")))
  {
  }

  /** An account that kept the schema's default role passes both gates once it is the request's user. */
  lemma DefaultRolePassesBothGates(a: Account)
    requires a.role == DefaultRole
    ensures CheckAdmin(Some(Sanitize(a))).Pass? && CheckUserRole(Some(Sanitize(a))).Pass?
  {
  }
}
