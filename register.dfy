/**
 * The event-registration handlers. A registration takes its contact fields
 * from the body when they are truthy and otherwise from the logged-in
 * account and the event; its status is always "confirmed". The handler meant
 * to delete every registration never gets that far (see the Findings of the
 * README): `checkUserRole` returns nothing, so its result is always falsy.
 */
module RegisterController {
  import opened Outcomes
  import opened Js
  import opened ApiErrors
  import opened Http
  import opened AdminModel
  import opened Auth
  import opened Collections
  import EventController

  const Confirmed := "confirmed"

  /** A registration; `event` and `user` are the ids it refers to. */
  datatype Registration = Registration(
    id: Id, name: JsValue, email: JsValue, phone: JsValue, eventName: JsValue,
    event: Id, user: Id, status: string)

  /** The fields of `req.body` createRegister reads. */
  datatype RegisterBody = RegisterBody(fullName: JsValue, eventName: JsValue, email: JsValue, phone: JsValue)

  /** An optional string as the JavaScript value read out of a document. */
  function FieldValue(v: Option<string>): (r: JsValue)
    ensures v.Some? ==> r == Str(v.value)
    ensures v.None? ==> r == Undefined
  {
    match v
    case Some(s) => Str(s)
    case None => Undefined
  }

  /**
   * The registration createRegister writes: body field if truthy, else the
   * account's (which has an email but no `fullName` or `phone`), else the
   * event's title for the event name.
   */
  function NewRegistration(id: Id, body: RegisterBody, account: Account, event: EventController.Event, userId: Id): (g: Registration)
    ensures g.status == Confirmed && g.event == event.id && g.user == userId && g.id == id
    ensures g.name == (if Truthy(body.fullName) then body.fullName else Undefined)
    ensures g.email == (if Truthy(body.email) then body.email else FieldValue(account.email))
    ensures g.phone == (if Truthy(body.phone) then body.phone else Undefined)
    ensures g.eventName == (if Truthy(body.eventName) then body.eventName else event.title)
  {
    Registration(id, Or(body.fullName, Undefined), Or(body.email, FieldValue(account.email)),
                 Or(body.phone, Undefined), Or(body.eventName, event.title), event.id, userId, Confirmed)
  }

  /** A body that names nothing leaves the registration with no name and no phone: the account has neither. */
  lemma EmptyBodyHasNoNameOrPhone(id: Id, account: Account, event: EventController.Event, userId: Id)
    ensures var g := NewRegistration(id, RegisterBody(Undefined, Undefined, Undefined, Undefined), account, event, userId);
      && !Truthy(g.name) && !Truthy(g.phone)
      && g.eventName == event.title
      && g.email == FieldValue(account.email)
  {
  }

  /** What `checkUserRole(req)` hands back to its caller: the error it throws, or undefined. */
  function RoleCheckValue(user: Option<Identity>): (r: Result<JsValue, Thrown>)
    ensures r.Failure? <==> CheckUserRole(user).Fail?
    ensures r.Failure? ==> r.error == CheckUserRole(user).error
  {
    match CheckUserRole(user)
    case Fail(t) => Failure(t)
    case Pass => Success(Undefined)
  }

  function ForEvent(eventId: Id): Registration -> bool
  {
    (g: Registration) => g.event == eventId
  }

  function ForUser(userId: Id): Registration -> bool
  {
    (g: Registration) => g.user == userId
  }

  function HasId(id: Id): Registration -> bool
  {
    (g: Registration) => g.id == id
  }

  /** `req.user?._id`, with None when it is falsy. */
  function UserId(user: Option<Identity>): (r: Option<Id>)
    ensures r.Some? <==> user.Some? && user.value.id != ""
    ensures r.Some? ==> r.value == user.value.id
  {
    if user.Some? && user.value.id != "" then Some(user.value.id) else None
  }

  /** The registration collection in insertion order. */
  class RegisterStore {
    var registrations: seq<Registration>

    constructor ()
      ensures registrations == []
    {
      registrations := [];
    }

    /**
     * createRegister: 400 without a user id, 400 for an invalid event id,
     * then the account lookup (404, or a CastError for an id that is not an
     * ObjectId) and the event lookup (404); the registration is appended.
     */
    method CreateRegister(user: Option<Identity>, body: RegisterBody, eventId: Id, accounts: map<Id, Account>,
                          events: seq<EventController.Event>, isValidId: string -> bool, newId: Id)
      returns (r: Handled<Registration>)
      modifies this
      ensures r.Failure? ==> registrations == old(registrations)
      ensures UserId(user).None? ==> r == Throw(400, "User not found!")
      ensures UserId(user).Some? && !isValidId(eventId) ==> r == Throw(400, "Invalid event ID!")
      ensures UserId(user).Some? && isValidId(eventId) ==>
        var account := FindAccount(Str(user.value.id), accounts, isValidId);
        var e := FindIndex(events, EventController.HasId(eventId));
        && (account.Failure? ==> r == Failure(account.error))
        && (account == Success(None) ==> r == Throw(404, "User not found!"))
        && (account.Success? && account.value.Some? && e.None? ==> r == Throw(404, "Event not found!"))
        && (account.Success? && account.value.Some? && e.Some? ==>
              var g := NewRegistration(newId, body, account.value.value, events[e.value], user.value.id);
              && registrations == old(registrations) + [g]
              && r == Success(Json(201, g, "Register created successfully!")))
    {
      var userId := UserId(user);
      if userId.None? {
        return Throw(400, "User not found!");
      }
      if !isValidId(eventId) {
        return Throw(400, "Invalid event ID!");
      }
      var account := FindAccount(Str(userId.value), accounts, isValidId);
      if account.Failure? {
        return Failure(account.error);
      }
      if account.value.None? {
        return Throw(404, "User not found!");
      }
      var e := FindIndex(events, EventController.HasId(eventId));
      if e.None? {
        return Throw(404, "Event not found!");
      }
      var g := NewRegistration(newId, body, account.value.value, events[e.value], userId.value);
      registrations := registrations + [g];
      r := Success(Json(201, g, "Register created successfully!"));
    }

    /** getAllRegisterOfEvent: 400 for an invalid event id, else every registration for that event (possibly none). */
    method GetAllRegisterOfEvent(eventId: Id, isValidId: string -> bool) returns (r: Handled<seq<Registration>>)
      ensures !isValidId(eventId) <==> r == Throw(400, "Invalid event ID!")
      ensures isValidId(eventId) ==> r == Success(Json(200, Filter(registrations, ForEvent(eventId)), "All registers fetched successfully!"))
      ensures r.Success? ==>
        && r.value == Json(200, r.value.body.data, "All registers fetched successfully!")
        && (forall j :: 0 <= j < |r.value.body.data| ==> r.value.body.data[j] in registrations && r.value.body.data[j].event == eventId)
        && (forall j :: 0 <= j < |registrations| && registrations[j].event == eventId ==> registrations[j] in r.value.body.data)
    {
      if !isValidId(eventId) {
        return Throw(400, "Invalid event ID!");
      }
      var found := Filter(registrations, ForEvent(eventId));
      r := Success(Json(200, found, "All registers fetched successfully!"));
    }

    /**
     * removeRegisterOfEvent: despite its parameter's name, deletes the
     * registration whose own id is the parameter; 400 for an invalid id,
     * 404 when no registration has it.
     */
    method RemoveRegisterOfEvent(eventId: Id, isValidId: string -> bool) returns (r: Handled<Empty>)
      modifies this
      ensures !isValidId(eventId) ==> r == Throw(400, "Invalid event ID!") && registrations == old(registrations)
      ensures isValidId(eventId) && FindIndex(old(registrations), HasId(eventId)).None? ==>
        r == Throw(404, "Register not found!") && registrations == old(registrations)
      ensures isValidId(eventId) && FindIndex(old(registrations), HasId(eventId)).Some? ==>
        && registrations == RemoveAt(old(registrations), FindIndex(old(registrations), HasId(eventId)).value)
        && r == Success(Json(200, Empty, "Register deleted for event successfully!"))
    {
      if !isValidId(eventId) {
        return Throw(400, "Invalid event ID!");
      }
      var found := FindIndex(registrations, HasId(eventId));
      if found.None? {
        return Throw(404, "Register not found!");
      }
      registrations := RemoveAt(registrations, found.value);
      r := Success(Json(200, Empty, "Register deleted for event successfully!"));
    }

    /**
     * removeAllRegister as written: the role check throws or returns
     * undefined, and undefined is falsy, so the handler always ends in an
     * error and `deleteMany` is never reached.
     */
    method RemoveAllRegister(user: Option<Identity>) returns (r: Handled<Empty>)
      modifies this
      ensures r.Failure? && registrations == old(registrations)
      ensures CheckUserRole(user).Fail? ==> r == Failure(CheckUserRole(user).error)
      ensures CheckUserRole(user).Pass? ==> r == Throw(403, "You do not have permission to perform this action!")
    {
      var hasRole := RoleCheckValue(user);
      if hasRole.Failure? {
        return Failure(hasRole.error);
      }
      // The guard `!hasRole` holds for the undefined the check returns, so the
      // branch that would call `deleteMany` does not exist in any execution.
      assert !Truthy(hasRole.value);
      r := Throw(403, "You do not have permission to perform this action!");
    }

    /** removeAllRegister as intended: staff pass the role check and every registration goes. */
    method RemoveAllRegisterIntended(user: Option<Identity>) returns (r: Handled<Empty>)
      modifies this
      ensures CheckUserRole(user).Fail? ==> r == Failure(CheckUserRole(user).error) && registrations == old(registrations)
      ensures CheckUserRole(user).Pass? ==> r == Success(Json(200, Empty, "All registers deleted successfully!")) && registrations == []
    {
      var gate := CheckUserRole(user);
      if gate.Fail? {
        return Failure(gate.error);
      }
      registrations := [];
      r := Success(Json(200, Empty, "All registers deleted successfully!"));
    }

    /** getRegisterByUser: 401 without a user id, else that user's registrations, with a different message when there are none. */
    method GetRegisterByUser(user: Option<Identity>) returns (r: Handled<seq<Registration>>)
      ensures UserId(user).None? <==> r == Throw(401, "User is not authenticated!")
      ensures UserId(user).Some? ==>
        var mine := Filter(registrations, ForUser(user.value.id));
        && (|mine| == 0 ==> r == Success(Json(200, [], "No registers found!")))
        && (|mine| > 0 ==> r == Success(Json(200, mine, "Registers retrieved successfully!")))
    {
      var userId := UserId(user);
      if userId.None? {
        return Throw(401, "User is not authenticated!");
      }
      var mine := Filter(registrations, ForUser(userId.value));
      if |mine| == 0 {
        return Success(Json(200, [], "No registers found!"));
      }
      r := Success(Json(200, mine, "Registers retrieved successfully!"));
    }
  }

  /** The role check never hands back a truthy value, so the "no permission" guard fires for everyone it lets through. */
  lemma RoleCheckNeverTruthy(user: Option<Identity>)
    ensures RoleCheckValue(user).Success? ==> !Truthy(RoleCheckValue(user).value)
  {
  }

  /** The discrepancy on a concrete request: an admin with registrations on file is refused and nothing is deleted. */
  method AdminRefusedAsWritten() returns (r: Handled<Empty>, left: nat)
    ensures r == Throw(403, "You do not have permission to perform this action!")
    ensures left == 1
  {
    var store := new RegisterStore();
    store.registrations := [Registration("r1", Str("Ada"), Str("ada@example.org"), Str("555"), Str("Expo"), "e1", "u1", Confirmed)];
    var admin := Identity("u1", "root", None, DefaultRole);
    r := store.RemoveAllRegister(Some(admin));
    left := |store.registrations|;
  }

  /** The same request against the intended handler: it succeeds and the collection is empty. */
  method AdminClearsIntended() returns (r: Handled<Empty>, left: nat)
    ensures r == Success(Json(200, Empty, "All registers deleted successfully!"))
    ensures left == 0
  {
    var store := new RegisterStore();
    store.registrations := [Registration("r1", Str("Ada"), Str("ada@example.org"), Str("555"), Str("Expo"), "e1", "u1", Confirmed)];
    var admin := Identity("u1", "root", None, DefaultRole);
    r := store.RemoveAllRegisterIntended(Some(admin));
    left := |store.registrations|;
  }

  /** A registration just written is listed among its user's and its event's registrations. */
  lemma {:induction false} CreatedIsListed(regs: seq<Registration>, g: Registration)
    ensures g in Filter(regs + [g], ForUser(g.user))
    ensures g in Filter(regs + [g], ForEvent(g.event))
  {
    var s := regs + [g];
    assert s[|s| - 1] == g;
  }
}
