/**
 * The feedback handlers. Adding feedback checks the body before the user,
 * stores the author's id whatever the anonymity flag says, and answers with
 * the author's name and email only when the feedback is not anonymous. The
 * staff listings populate the stored author id from the account collection,
 * so they show the author of anonymous feedback too. Nothing ever sets the
 * feedback's event, so the per-event listing finds nothing.
 */
module FeedbackController {
  import opened Outcomes
  import opened Js
  import opened ApiErrors
  import opened Http
  import opened AdminModel
  import opened Auth
  import opened Collections

  /** A stored feedback; `event` is None when no event was recorded. */
  datatype Feedback = Feedback(
    id: Id, message: JsValue, anonymous: JsValue, rating: JsValue,
    user: Id, event: Option<Id>, createdAt: int)

  /** The fields of `req.body` addFeedback reads. */
  datatype FeedbackBody = FeedbackBody(message: JsValue, anonymous: JsValue, rating: JsValue)

  /** The author as shown to others: username and email. */
  datatype Author = Author(username: string, email: Option<string>)

  /** addFeedback's answer: the submitted fields and the author, or null for anonymous feedback. */
  datatype FeedbackData = FeedbackData(message: JsValue, anonymous: JsValue, rating: JsValue, user: Option<Author>)

  /** A listed feedback: the projected fields with `user` populated (null when the account is gone). */
  datatype Listed = Listed(id: Id, message: JsValue, rating: JsValue, anonymous: JsValue, user: Option<Author>, createdAt: int)

  /** The listings' envelope data, `{ feedback }`. */
  datatype FeedbackList = FeedbackList(feedback: seq<Listed>)

  /** The response projection of addFeedback. */
  function Projection(body: FeedbackBody, requester: Identity): (d: FeedbackData)
    ensures d.message == body.message && d.rating == body.rating && d.anonymous == body.anonymous
    ensures d.user.None? <==> Truthy(body.anonymous)
    ensures d.user.Some? ==> d.user.value == Author(requester.username, requester.email)
  {
    FeedbackData(body.message, body.anonymous, body.rating,
                 if Truthy(body.anonymous) then None else Some(Author(requester.username, requester.email)))
  }

  /** `populate("user", "username email")` on one projected feedback. */
  function Populate(f: Feedback, accounts: map<Id, Account>): (l: Listed)
    ensures l.id == f.id && l.message == f.message && l.rating == f.rating && l.anonymous == f.anonymous && l.createdAt == f.createdAt
    ensures l.user.Some? <==> f.user in accounts
    ensures l.user.Some? ==> l.user.value == Author(accounts[f.user].username, accounts[f.user].email)
  {
    Listed(f.id, f.message, f.rating, f.anonymous,
           if f.user in accounts then Some(Author(accounts[f.user].username, accounts[f.user].email)) else None,
           f.createdAt)
  }

  function PopulateAll(s: seq<Feedback>, accounts: map<Id, Account>): (r: seq<Listed>)
    ensures |r| == |s|
    ensures forall i :: 0 <= i < |s| ==> r[i] == Populate(s[i], accounts)
  {
    seq(|s|, i requires 0 <= i < |s| => Populate(s[i], accounts))
  }

  function CreatedAt(f: Feedback): int
  {
    f.createdAt
  }

  function HasId(id: Id): Feedback -> bool
  {
    (f: Feedback) => f.id == id
  }

  function ForEvent(eventId: Id): Feedback -> bool
  {
    (f: Feedback) => f.event == Some(eventId)
  }

  /** Anonymity hides the author from the submitter's answer, but the populated listing still names them while the account exists. */
  lemma AnonymityOnlyInTheAnswer(body: FeedbackBody, requester: Identity, f: Feedback, accounts: map<Id, Account>)
    requires Truthy(body.anonymous) && Truthy(f.anonymous)
    requires f.user == requester.id && requester.id in accounts
    ensures Projection(body, requester).user.None?
    ensures Populate(f, accounts).user == Some(Author(accounts[requester.id].username, accounts[requester.id].email))
  {
  }

  /** Feedback that records no event is never found by an event id. */
  lemma {:induction false} NoEventNeverListed(s: seq<Feedback>, eventId: Id)
    requires forall j :: 0 <= j < |s| ==> s[j].event.None?
    ensures Filter(s, ForEvent(eventId)) == []
  {
    if |s| > 0 {
      assert !ForEvent(eventId)(s[0]);
      NoEventNeverListed(s[1..], eventId);
    }
  }

  /** The per-event listing holds only feedback recording that event, newest first, and all of it. */
  lemma ByEventListsOnlyThatEvent(s: seq<Feedback>, eventId: Id)
    ensures var sorted := SortNewestFirst(Filter(s, ForEvent(eventId)), CreatedAt);
      && NewestFirst(sorted, CreatedAt)
      && (forall j :: 0 <= j < |sorted| ==> sorted[j].event == Some(eventId))
      && (forall j :: 0 <= j < |s| && s[j].event == Some(eventId) ==> s[j] in sorted)
  {
    var matching := Filter(s, ForEvent(eventId));
    var sorted := SortNewestFirst(matching, CreatedAt);
    forall j | 0 <= j < |sorted|
      ensures sorted[j].event == Some(eventId)
    {
      assert sorted[j] in multiset(matching);
    }
    forall j | 0 <= j < |s| && s[j].event == Some(eventId)
      ensures s[j] in sorted
    {
      assert ForEvent(eventId)(s[j]);
      assert s[j] in multiset(matching);
    }
  }

  /** The feedback collection in insertion order. */
  class FeedbackStore {
    var feedbacks: seq<Feedback>

    /** The stores addFeedback can produce: no feedback records an event. */
    ghost predicate Valid()
      reads this
    {
      forall j :: 0 <= j < |feedbacks| ==> feedbacks[j].event.None?
    }

    constructor ()
      ensures feedbacks == [] && Valid()
    {
      feedbacks := [];
    }

    /**
     * addFeedback: 400 unless message and rating are truthy, then 401
     * without a user; the stored feedback always carries the user id and
     * no event.
     */
    method AddFeedback(user: Option<Identity>, body: FeedbackBody, newId: Id, now: int) returns (r: Handled<FeedbackData>)
      requires Valid()
      modifies this
      ensures Valid()
      ensures !Truthy(body.message) || !Truthy(body.rating) ==>
        r == Throw(400, "Message and rating are required!") && feedbacks == old(feedbacks)
      ensures Truthy(body.message) && Truthy(body.rating) && user.None? ==>
        r == Throw(401, "Unauthorized! User information is missing.") && feedbacks == old(feedbacks)
      ensures Truthy(body.message) && Truthy(body.rating) && user.Some? ==>
        && feedbacks == old(feedbacks) + [Feedback(newId, body.message, body.anonymous, body.rating, user.value.id, None, now)]
        && r == Success(Json(201, Projection(body, user.value), "Feedback added successfully!"))
    {
      if !Truthy(body.message) || !Truthy(body.rating) {
        return Throw(400, "Message and rating are required!");
      }
      if user.None? {
        return Throw(401, "Unauthorized! User information is missing.");
      }
      feedbacks := feedbacks + [Feedback(newId, body.message, body.anonymous, body.rating, user.value.id, None, now)];
      r := Success(Json(201, Projection(body, user.value), "Feedback added successfully!"));
    }

    /** getAllFeedback: the role gate, then every feedback newest first with its author populated; 404 when there is none. */
    method GetAllFeedback(user: Option<Identity>, accounts: map<Id, Account>) returns (r: Handled<FeedbackList>)
      ensures CheckUserRole(user).Fail? ==> r == Failure(CheckUserRole(user).error)
      ensures CheckUserRole(user).Pass? && |feedbacks| == 0 ==> r == Throw(404, "No feedback found!")
      ensures r.Success? <==> CheckUserRole(user).Pass? && |feedbacks| > 0
      ensures r.Success? ==>
        r.value == Json(200, FeedbackList(PopulateAll(SortNewestFirst(feedbacks, CreatedAt), accounts)), "Feedback retrieved successfully!")
    {
      var gate := CheckUserRole(user);
      if gate.Fail? {
        return Failure(gate.error);
      }
      var sorted := SortNewestFirst(feedbacks, CreatedAt);
      SortedEmptyIff(feedbacks, CreatedAt);
      if |sorted| == 0 {
        return Throw(404, "No feedback found!");
      }
      r := Success(Json(200, FeedbackList(PopulateAll(sorted, accounts)), "Feedback retrieved successfully!"));
    }

    /** deleteFeedback: the role gate, 400 for a missing or malformed id, 404 when nothing has it. */
    method DeleteFeedback(user: Option<Identity>, id: Id, isValidId: string -> bool) returns (r: Handled<JsValue>)
      requires Valid()
      modifies this
      ensures Valid()
      ensures CheckUserRole(user).Fail? ==> r == Failure(CheckUserRole(user).error) && feedbacks == old(feedbacks)
      ensures CheckUserRole(user).Pass? && id == "" ==> r == Throw(400, "Feedback ID is required!") && feedbacks == old(feedbacks)
      ensures CheckUserRole(user).Pass? && id != "" && !isValidId(id) ==>
        r == Throw(400, "Invalid feedback ID format!") && feedbacks == old(feedbacks)
      ensures CheckUserRole(user).Pass? && id != "" && isValidId(id) && FindIndex(old(feedbacks), HasId(id)).None? ==>
        r == Throw(404, "Feedback not found!") && feedbacks == old(feedbacks)
      ensures CheckUserRole(user).Pass? && id != "" && isValidId(id) && FindIndex(old(feedbacks), HasId(id)).Some? ==>
        && feedbacks == RemoveAt(old(feedbacks), FindIndex(old(feedbacks), HasId(id)).value)
        && r == Success(Json(200, Null, "Feedback deleted successfully!"))
    {
      var gate := CheckUserRole(user);
      if gate.Fail? {
        return Failure(gate.error);
      }
      if id == "" {
        return Throw(400, "Feedback ID is required!");
      }
      if !isValidId(id) {
        return Throw(400, "Invalid feedback ID format!");
      }
      var found := FindIndex(feedbacks, HasId(id));
      if found.None? {
        return Throw(404, "Feedback not found!");
      }
      feedbacks := RemoveAt(feedbacks, found.value);
      r := Success(Json(200, Null, "Feedback deleted successfully!"));
    }

    /** deleteAllFeedback: the role gate, then the collection is emptied. */
    method DeleteAllFeedback(user: Option<Identity>) returns (r: Handled<JsValue>)
      requires Valid()
      modifies this
      ensures Valid()
      ensures CheckUserRole(user).Fail? ==> r == Failure(CheckUserRole(user).error) && feedbacks == old(feedbacks)
      ensures CheckUserRole(user).Pass? ==> r == Success(Json(200, Null, "All feedback deleted successfully!")) && feedbacks == []
    {
      var gate := CheckUserRole(user);
      if gate.Fail? {
        return Failure(gate.error);
      }
      feedbacks := [];
      r := Success(Json(200, Null, "All feedback deleted successfully!"));
    }

    /**
     * getFeedbackByEvent: the role gate, 400 for an invalid event id, then
     * the feedback recording that event, newest first; 404 when there is
     * none, which is every time in a store only addFeedback has written.
     */
    method GetFeedbackByEvent(user: Option<Identity>, eventId: Id, accounts: map<Id, Account>, isValidId: string -> bool)
      returns (r: Handled<FeedbackList>)
      ensures CheckUserRole(user).Fail? ==> r == Failure(CheckUserRole(user).error)
      ensures CheckUserRole(user).Pass? && !isValidId(eventId) ==> r == Throw(400, "Invalid event ID!")
      ensures CheckUserRole(user).Pass? && isValidId(eventId) && |Filter(feedbacks, ForEvent(eventId))| == 0 ==>
        r == Throw(404, "No feedback found for this event!")
      ensures Valid() && CheckUserRole(user).Pass? && isValidId(eventId) ==> r == Throw(404, "No feedback found for this event!")
      ensures r.Success? ==>
        var sorted := SortNewestFirst(Filter(feedbacks, ForEvent(eventId)), CreatedAt);
        r.value == Json(200, FeedbackList(PopulateAll(sorted, accounts)), "Feedback retrieved successfully!")
    {
      var gate := CheckUserRole(user);
      if gate.Fail? {
        return Failure(gate.error);
      }
      if !isValidId(eventId) {
        return Throw(400, "Invalid event ID!");
      }
      var matching := Filter(feedbacks, ForEvent(eventId));
      if Valid() {
        NoEventNeverListed(feedbacks, eventId);
      }
      var sorted := SortNewestFirst(matching, CreatedAt);
      SortedEmptyIff(matching, CreatedAt);
      if |sorted| == 0 {
        return Throw(404, "No feedback found for this event!");
      }
      r := Success(Json(200, FeedbackList(PopulateAll(sorted, accounts)), "Feedback retrieved successfully!"));
    }
  }
}
