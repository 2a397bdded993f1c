/**
 * The event handlers: admin-only create, update and delete; lookup by id
 * with a title-search fallback; and the local deletion helper, which refuses
 * an empty URL and turns a media-host failure into a 500.
 * `ObjectId.isValid` and the case-insensitive title pattern are parameters.
 */
module EventController {
  import opened Outcomes
  import opened Js
  import opened Strings
  import opened ApiErrors
  import opened Http
  import opened AdminModel
  import opened Auth
  import opened Media
  import opened Collections

  /** An event as the handlers write it; `media` is the url the media host returned. */
  datatype Event = Event(
    id: Id, title: JsValue, description: JsValue, category: JsValue,
    date: JsValue, location: JsValue, media: string, createdAt: int)

  /** The fields of `req.body` the handlers read. */
  datatype EventBody = EventBody(title: JsValue, description: JsValue, category: JsValue, date: JsValue, location: JsValue)

  /** createEvent's presence check: title, description, category, date and location truthy, and a file. */
  predicate CreateInputsPresent(b: EventBody, filePath: string)
  {
    Truthy(b.title) && Truthy(b.description) && Truthy(b.category) && Truthy(b.date) && Truthy(b.location) && filePath != ""
  }

  /** The update's merge: title, description, date and location are "new if truthy, else old"; category is never touched. */
  function Merged(e: Event, b: EventBody, media: string): (u: Event)
    ensures u.id == e.id && u.category == e.category && u.createdAt == e.createdAt && u.media == media
  {
    e.(title := Or(b.title, e.title),
       description := Or(b.description, e.description),
       date := Or(b.date, e.date),
       location := Or(b.location, e.location),
       media := media)
  }

  /** Whatever the body says about category, the update leaves it alone; empty fields keep their values. */
  lemma UpdateNeverChangesCategory(e: Event, b: EventBody, media: string)
    ensures Merged(e, b, media).category == e.category
    ensures !Truthy(b.description) ==> Merged(e, b, media).description == e.description
    ensures Truthy(b.location) ==> Merged(e, b, media).location == b.location
  {
  }

  /** `uploadedMedia.url || event.media`, with nothing to read `url` from when the upload failed. */
  function NewMedia(current: string, upload: UploadResult): (r: Result<string, Thrown>)
    ensures r.Success? <==> upload.Uploaded?
    ensures upload.UploadFailed? ==> r == Failure(ReadOfUndefined("url"))
    ensures upload.Uploaded? && upload.url != "" ==> r == Success(upload.url)
    ensures upload.Uploaded? && upload.url == "" ==> r == Success(current)
  {
    match upload
    case UploadFailed => Failure(ReadOfUndefined("url"))
    case Uploaded(url) => Success(OrText(url, current))
  }

  function HasId(id: Id): Event -> bool
  {
    (e: Event) => e.id == id
  }

  function CreatedAt(e: Event): int
  {
    e.createdAt
  }

  /** The first search of getEventById succeeds: the identifier is a valid id and names an event. */
  predicate FoundById(events: seq<Event>, identifier: string, isValidId: string -> bool)
  {
    isValidId(identifier) && FindIndex(events, HasId(identifier)).Some?
  }

  /** `{ title: { $regex: new RegExp(identifier, "i") } }` as a test on one event. */
  function TitleMatching(identifier: string, titleMatches: (string, JsValue) -> bool): Event -> bool
  {
    (e: Event) => titleMatches(identifier, e.title)
  }

  /** What `new RegExp(identifier, "i")` throws when the identifier is not a valid pattern. */
  const InvalidPattern := Runtime("SyntaxError", "Invalid regular expression")

  /**
   * getEventById's lookup: by id only when the identifier is a valid id; when
   * that finds nothing, the identifier is compiled as a case-insensitive
   * pattern (`isPattern` says whether it compiles; a SyntaxError when not)
   * and the first event whose title matches is the answer; otherwise nothing.
   */
  function LookupEvent(events: seq<Event>, identifier: string, isValidId: string -> bool,
                       isPattern: string -> bool, titleMatches: (string, JsValue) -> bool)
    : (r: Result<Option<Event>, Thrown>)
    ensures FoundById(events, identifier, isValidId) ==>
      r == Success(Some(events[FindIndex(events, HasId(identifier)).value]))
    ensures r.Failure? <==> !FoundById(events, identifier, isValidId) && !isPattern(identifier)
    ensures r.Failure? ==> r.error == InvalidPattern
    ensures r.Success? && r.value.Some? ==> r.value.value in events
    ensures r.Success? && r.value.Some? ==>
      (isValidId(identifier) && r.value.value.id == identifier) || titleMatches(identifier, r.value.value.title)
    ensures !FoundById(events, identifier, isValidId) && r.Success? && r.value.Some? ==>
      var first := FindIndex(events, TitleMatching(identifier, titleMatches));
      first.Some? && r.value == Some(events[first.value])
    ensures r == Success(None) <==>
      && !FoundById(events, identifier, isValidId)
      && isPattern(identifier)
      && (forall j :: 0 <= j < |events| ==> !titleMatches(identifier, events[j].title))
  {
    var byId := if isValidId(identifier) then FindIndex(events, HasId(identifier)) else None;
    if byId.Some? then
      Success(Some(events[byId.value]))
    else if !isPattern(identifier) then
      Failure(InvalidPattern)
    else
      match FindIndex(events, TitleMatching(identifier, titleMatches))
      case Some(i) => Success(Some(events[i]))
      case None => Success(None)
  }

  /** An identifier that is not a valid id is never looked up by id: only the title search can find it. */
  lemma InvalidIdOnlyBySearch(events: seq<Event>, identifier: string, isValidId: string -> bool,
                              isPattern: string -> bool, titleMatches: (string, JsValue) -> bool)
    requires !isValidId(identifier)
    ensures var r := LookupEvent(events, identifier, isValidId, isPattern, titleMatches);
      && (r.Success? && r.value.Some? ==> titleMatches(identifier, r.value.value.title))
      && (r.Failure? <==> !isPattern(identifier))
  {
  }

  /** The Event collection in insertion order, and the public ids sent to the media host. */
  class EventStore {
    var events: seq<Event>
    var destroyed: seq<string>

    constructor ()
      ensures events == [] && destroyed == []
    {
      events := [];
      destroyed := [];
    }

    /**
     * createEvent: checkAdmin, then 400 unless all five fields and a file are
     * there, then the upload (400 for an empty url); the event is appended.
     */
    method CreateEvent(user: Option<Identity>, body: EventBody, filePath: string, upload: UploadResult, newId: Id, now: int)
      returns (r: Handled<Event>)
      modifies this
      ensures destroyed == old(destroyed)
      ensures r.Failure? ==> events == old(events)
      ensures CheckAdmin(user).Fail? ==> r == Failure(CheckAdmin(user).error)
      ensures CheckAdmin(user).Pass? && !CreateInputsPresent(body, filePath) ==>
        r == Throw(400, "All fields and media file are required!")
      ensures CheckAdmin(user).Pass? && CreateInputsPresent(body, filePath) && upload.UploadFailed? ==>
        r == Failure(ReadOfUndefined("url"))
      ensures CheckAdmin(user).Pass? && CreateInputsPresent(body, filePath) && upload.Uploaded? && upload.url == "" ==>
        r == Throw(400, "Error while uploading media file!")
      ensures r.Success? <==> CheckAdmin(user).Pass? && CreateInputsPresent(body, filePath) && upload.Uploaded? && upload.url != ""
      ensures r.Success? ==>
        var e := Event(newId, body.title, body.description, body.category, body.date, body.location, upload.url, now);
        && events == old(events) + [e]
        && r.value == Json(201, e, "Event created successfully!")
    {
      var gate := CheckAdmin(user);
      if gate.Fail? {
        return Failure(gate.error);
      }
      if !CreateInputsPresent(body, filePath) {
        return Throw(400, "All fields and media file are required!");
      }
      if upload.UploadFailed? {
        return Failure(ReadOfUndefined("url"));
      }
      if upload.url == "" {
        return Throw(400, "Error while uploading media file!");
      }
      var e := Event(newId, body.title, body.description, body.category, body.date, body.location, upload.url, now);
      events := events + [e];
      r := Success(Json(201, e, "Event created successfully!"));
    }

    /** getAllEvents: every event, newest first; 404 when there are none. */
    method GetAllEvents() returns (r: Handled<seq<Event>>)
      ensures |events| == 0 <==> r == Throw(404, "No events found!")
      ensures r.Success? <==> |events| > 0
      ensures r.Success? ==>
        && NewestFirst(r.value.body.data, CreatedAt)
        && multiset(r.value.body.data) == multiset(events)
        && r.value == Json(200, r.value.body.data, "All events fetched successfully")
    {
      var sorted := SortNewestFirst(events, CreatedAt);
      SortedEmptyIff(events, CreatedAt);
      if |sorted| == 0 {
        return Throw(404, "No events found!");
      }
      r := Success(Json(200, sorted, "All events fetched successfully"));
    }

    /**
     * getEventById: the lookup; its SyntaxError for an identifier that is
     * not a valid pattern propagates, and nothing found is a 404.
     */
    method GetEventById(identifier: string, isValidId: string -> bool, isPattern: string -> bool,
                        titleMatches: (string, JsValue) -> bool)
      returns (r: Handled<Event>)
      ensures FoundById(events, identifier, isValidId) ==>
        r == Success(Json(200, events[FindIndex(events, HasId(identifier)).value], "Event details fetched successfully"))
      ensures !FoundById(events, identifier, isValidId) && !isPattern(identifier) ==> r == Failure(InvalidPattern)
      ensures r == Throw(404, "Event not found!") <==>
        && !FoundById(events, identifier, isValidId)
        && isPattern(identifier)
        && (forall j :: 0 <= j < |events| ==> !titleMatches(identifier, events[j].title))
      ensures !FoundById(events, identifier, isValidId) && r.Success? ==>
        var first := FindIndex(events, TitleMatching(identifier, titleMatches));
        first.Some? && r == Success(Json(200, events[first.value], "Event details fetched successfully"))
    {
      var found := LookupEvent(events, identifier, isValidId, isPattern, titleMatches);
      if found.Failure? {
        return Failure(found.error);
      }
      if found.value.None? {
        return Throw(404, "Event not found!");
      }
      r := Success(Json(200, found.value.value, "Event details fetched successfully"));
    }

    /**
     * The found branch of updateEvent for the event at `i`: with a file, the
     * old media is deleted first (a failure aborts) and the upload's url
     * replaces it; the body's truthy fields replace the rest.
     */
    method ReviseAt(i: nat, body: EventBody, filePath: string, upload: UploadResult, destroyOk: bool)
      returns (r: Handled<Event>)
      requires i < |events|
      modifies this
      ensures
        var e := old(events)[i];
        if filePath == "" then
          && events == old(events)[i := Merged(e, body, e.media)]
          && destroyed == old(destroyed)
          && r == Success(Json(200, events[i], "Event updated successfully"))
        else
          var deletion := if e.media != "" then DeleteMediaOrThrow(e.media, destroyOk) else Deletion([], Pass);
          var media := NewMedia(e.media, upload);
          && destroyed == old(destroyed) + deletion.requested
          && (deletion.outcome.Fail? ==> r == Failure(deletion.outcome.error) && events == old(events))
          && (deletion.outcome.Pass? && media.Failure? ==> r == Failure(media.error) && events == old(events))
          && (deletion.outcome.Pass? && media.Success? ==>
                && events == old(events)[i := Merged(e, body, media.value)]
                && r == Success(Json(200, events[i], "Event updated successfully")))
    {
      var e := events[i];
      var media := e.media;
      if filePath != "" {
        if e.media != "" {
          var deletion := DeleteMediaOrThrow(e.media, destroyOk);
          destroyed := destroyed + deletion.requested;
          if deletion.outcome.Fail? {
            return Failure(deletion.outcome.error);
          }
        }
        var uploaded := NewMedia(e.media, upload);
        if uploaded.Failure? {
          return Failure(uploaded.error);
        }
        media := uploaded.value;
      }
      events := events[i := Merged(e, body, media)];
      r := Success(Json(200, events[i], "Event updated successfully"));
    }

    /**
     * updateEvent: checkAdmin; the trimmed id must be a valid id (400) and
     * name an event (404); with a file the current media is destroyed first
     * (a failure is a 500 and nothing is saved) and the upload's url, or the
     * old media, becomes the media; then the merge.
     */
    method UpdateEvent(user: Option<Identity>, id: string, body: EventBody, filePath: string, upload: UploadResult,
                       destroyOk: bool, isValidId: string -> bool)
      returns (r: Handled<Event>)
      modifies this
      ensures CheckAdmin(user).Fail? ==> r == Failure(CheckAdmin(user).error) && events == old(events) && destroyed == old(destroyed)
      ensures CheckAdmin(user).Pass? && !isValidId(Trim(id)) ==>
        r == Throw(400, "Invalid event ID format!") && events == old(events) && destroyed == old(destroyed)
      ensures CheckAdmin(user).Pass? && isValidId(Trim(id)) && FindIndex(old(events), HasId(Trim(id))).None? ==>
        r == Throw(404, "Event not found!") && events == old(events) && destroyed == old(destroyed)
      ensures CheckAdmin(user).Pass? && isValidId(Trim(id)) && FindIndex(old(events), HasId(Trim(id))).Some? ==>
        var i := FindIndex(old(events), HasId(Trim(id))).value;
        var e := old(events)[i];
        if filePath == "" then
          && events == old(events)[i := Merged(e, body, e.media)]
          && destroyed == old(destroyed)
          && r == Success(Json(200, events[i], "Event updated successfully"))
        else
          var deletion := if e.media != "" then DeleteMediaOrThrow(e.media, destroyOk) else Deletion([], Pass);
          var media := NewMedia(e.media, upload);
          && destroyed == old(destroyed) + deletion.requested
          && (deletion.outcome.Fail? ==> r == Failure(deletion.outcome.error) && events == old(events))
          && (deletion.outcome.Pass? && media.Failure? ==> r == Failure(media.error) && events == old(events))
          && (deletion.outcome.Pass? && media.Success? ==>
                && events == old(events)[i := Merged(e, body, media.value)]
                && r == Success(Json(200, events[i], "Event updated successfully")))
    {
      var gate := CheckAdmin(user);
      if gate.Fail? {
        return Failure(gate.error);
      }
      var cleaned := Trim(id);
      if !isValidId(cleaned) {
        return Throw(400, "Invalid event ID format!");
      }
      var found := FindIndex(events, HasId(cleaned));
      if found.None? {
        return Throw(404, "Event not found!");
      }
      r := ReviseAt(found.value, body, filePath, upload, destroyOk);
    }

    /**
     * The found branch of deleteEvent for the event at `i`: its media, when
     * it has any, is sent for deletion whatever the outcome, and the event is
     * removed.
     */
    method TakeOut(i: nat, destroyOk: bool)
      requires i < |events|
      modifies this
      ensures events == RemoveAt(old(events), i)
      ensures destroyed == old(destroyed) + (if old(events)[i].media != "" then [PublicId(old(events)[i].media)] else [])
    {
      var media := events[i].media;
      if media != "" {
        var deletion := DeleteMediaOrThrow(media, destroyOk);
        destroyed := destroyed + deletion.requested;
      }
      events := RemoveAt(events, i);
    }

    /**
     * deleteEvent: checkAdmin and the lookup (a CastError for an id that is
     * not an ObjectId); the media is sent for deletion when there is one, any
     * failure of that is swallowed, and the event is removed.
     */
    method DeleteEvent(user: Option<Identity>, id: Id, destroyOk: bool, isValidId: string -> bool)
      returns (r: Handled<Empty>)
      modifies this
      ensures CheckAdmin(user).Fail? ==> r == Failure(CheckAdmin(user).error) && events == old(events) && destroyed == old(destroyed)
      ensures CheckAdmin(user).Pass? && !isValidId(id) ==>
        r == Failure(CastError(id, "Event")) && events == old(events) && destroyed == old(destroyed)
      ensures CheckAdmin(user).Pass? && isValidId(id) && FindIndex(old(events), HasId(id)).None? ==>
        r == Throw(404, "Event not found!") && events == old(events) && destroyed == old(destroyed)
      ensures CheckAdmin(user).Pass? && isValidId(id) && FindIndex(old(events), HasId(id)).Some? ==>
        var i := FindIndex(old(events), HasId(id)).value;
        var media := old(events)[i].media;
        && events == RemoveAt(old(events), i)
        && destroyed == old(destroyed) + (if media != "" then [PublicId(media)] else [])
        && r == Success(Json(200, Empty, "Event deleted successfully"))
    {
      var gate := CheckAdmin(user);
      if gate.Fail? {
        return Failure(gate.error);
      }
      if !isValidId(id) {
        return Failure(CastError(id, "Event"));
      }
      var found := FindIndex(events, HasId(id));
      if found.None? {
        return Throw(404, "Event not found!");
      }
      TakeOut(found.value, destroyOk);
      r := Success(Json(200, Empty, "Event deleted successfully"));
    }
  }
}
