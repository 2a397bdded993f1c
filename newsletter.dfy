/**
 * The newsletter handlers, gated by checkUserRole (admins and content
 * managers). Creation checks presence, then lengths and the date format,
 * then the upload. An update with a file always takes the upload's url as
 * the new media, even an empty one. The `deleteFromCloudinary` imported here
 * is not exported by the media helper module, so calling it throws a
 * TypeError: deleteNewsletter catches it, updateNewsletter does not. The
 * model records the media URLs the handlers try to hand to it, and
 * UpdateNewsletterIntended is the update with a helper that exists.
 * `isISO8601` and `ObjectId.isValid` are parameters.
 */
module NewsletterController {
  import opened Outcomes
  import opened Js
  import opened Strings
  import opened ApiErrors
  import opened Http
  import opened AdminModel
  import opened Auth
  import opened Media
  import opened Collections

  const TitleMax := 100
  const DescriptionMax := 500

  /** A newsletter as the handlers write it. */
  datatype Newsletter = Newsletter(id: Id, title: JsValue, description: JsValue, date: JsValue, media: string, createdAt: int)

  /** The fields of `req.body` the handlers read. */
  datatype NewsletterBody = NewsletterBody(title: JsValue, description: JsValue, date: JsValue)

  /** The `typeof` word the string validator puts in its error for a value that is not a string. */
  function TypeName(v: JsValue): string
  {
    match v
    case Undefined => "undefined"
    case Null => "null"
    case Bool(_) => "boolean"
    case Num(_) => "number"
    case Str(_) => "string"
  }

  /** What the string validator throws when handed something other than a string. */
  function NotAString(v: JsValue): Thrown
  {
    Runtime("TypeError", "Expected a string but received a " + TypeName(v))
  }

  /** `isLength(v, {min, max})`: a TypeError for a non-string, else whether its length lies in the range. */
  function LengthWithin(v: JsValue, min: nat, max: nat): (r: Result<bool, Thrown>)
    ensures r.Failure? <==> !v.Str?
    ensures r == Success(true) <==> v.Str? && min <= |v.s| <= max
  {
    if v.Str? then Success(min <= |v.s| <= max) else Failure(NotAString(v))
  }

  /**
   * createNewsletter's second check, left to right with short-circuit: the
   * title within 1..100 characters, the description within 1..500, the date
   * an ISO 8601 string. A non-string reached by the chain raises a TypeError.
   */
  function InputValid(b: NewsletterBody, isISO8601: string -> bool): (r: Result<bool, Thrown>)
    ensures r == Success(true) <==>
      && b.title.Str? && 1 <= |b.title.s| <= TitleMax
      && b.description.Str? && 1 <= |b.description.s| <= DescriptionMax
      && b.date.Str? && isISO8601(b.date.s)
    ensures !b.title.Str? ==> r == Failure(NotAString(b.title))
  {
    match LengthWithin(b.title, 1, TitleMax)
    case Failure(t) => Failure(t)
    case Success(false) => Success(false)
    case Success(true) =>
      match LengthWithin(b.description, 1, DescriptionMax)
      case Failure(t) => Failure(t)
      case Success(false) => Success(false)
      case Success(true) =>
        if b.date.Str? then Success(isISO8601(b.date.s)) else Failure(NotAString(b.date))
  }

  /** An illustration of LengthWithin and InputValid: a title one character too long is refused, whatever else the body holds. */
  lemma LongTitleRefused(b: NewsletterBody, isISO8601: string -> bool)
    requires b.title.Str? && |b.title.s| == TitleMax + 1
    ensures InputValid(b, isISO8601) == Success(false)
  {
  }

  /** The update's merge: title, description and date are "new if truthy, else old"; the media is whatever the update decided. */
  function Merged(n: Newsletter, b: NewsletterBody, media: string): (u: Newsletter)
    ensures u.id == n.id && u.createdAt == n.createdAt && u.media == media
  {
    n.(title := Or(b.title, n.title), description := Or(b.description, n.description), date := Or(b.date, n.date), media := media)
  }

  /** Applying the same update twice is applying it once. */
  lemma MergeIdempotent(n: Newsletter, b: NewsletterBody, media: string)
    ensures Merged(Merged(n, b, media), b, media) == Merged(n, b, media)
  {
    OrTruthy(b.title, n.title);
    OrTruthy(b.description, n.description);
    OrTruthy(b.date, n.date);
  }

  /** `uploadedMedia.url` with no fallback: an empty url empties the media; a failed upload leaves nothing to read. */
  function UploadedMedia(upload: UploadResult): (r: Result<string, Thrown>)
    ensures r.Success? <==> upload.Uploaded?
    ensures r.Success? ==> r.value == upload.url
  {
    match upload
    case UploadFailed => Failure(ReadOfUndefined("url"))
    case Uploaded(url) => Success(url)
  }

  function HasId(id: Id): Newsletter -> bool
  {
    (n: Newsletter) => n.id == id
  }

  function CreatedAt(n: Newsletter): int
  {
    n.createdAt
  }

  /**
   * What calling the imported `deleteFromCloudinary` throws: the media helper
   * module does not export it, so the binding is undefined.
   */
  const MissingDeleteHelper := Runtime("TypeError", "deleteFromCloudinary is not a function")

  /** The newsletter collection in insertion order, and the media URLs the handlers try to hand to the deletion helper. */
  class NewsletterStore {
    var newsletters: seq<Newsletter>
    var destroyCalls: seq<string>

    constructor ()
      ensures newsletters == [] && destroyCalls == []
    {
      newsletters := [];
      destroyCalls := [];
    }

    /**
     * createNewsletter: the role gate, the presence check (400), the input
     * check (400 "Invalid input data!"), the upload (400 for an empty url);
     * then the newsletter is appended.
     */
    method CreateNewsletter(user: Option<Identity>, body: NewsletterBody, filePath: string, upload: UploadResult,
                            isISO8601: string -> bool, newId: Id, now: int)
      returns (r: Handled<Newsletter>)
      modifies this
      ensures destroyCalls == old(destroyCalls)
      ensures r.Failure? ==> newsletters == old(newsletters)
      ensures CheckUserRole(user).Fail? ==> r == Failure(CheckUserRole(user).error)
      ensures CheckUserRole(user).Pass? && !(Truthy(body.title) && Truthy(body.description) && Truthy(body.date) && filePath != "") ==>
        r == Throw(400, "All fields and media file are required!")
      ensures CheckUserRole(user).Pass? && Truthy(body.title) && Truthy(body.description) && Truthy(body.date) && filePath != "" ==>
        && (InputValid(body, isISO8601) == Success(false) ==> r == Throw(400, "Invalid input data!"))
        && (InputValid(body, isISO8601).Failure? ==> r == Failure(InputValid(body, isISO8601).error))
        && (InputValid(body, isISO8601) == Success(true) && upload.UploadFailed? ==> r == Failure(ReadOfUndefined("url")))
        && (InputValid(body, isISO8601) == Success(true) && upload.Uploaded? && upload.url == "" ==>
              r == Throw(400, "Error while uploading media file!"))
      ensures r.Success? <==>
        && CheckUserRole(user).Pass? && Truthy(body.title) && Truthy(body.description) && Truthy(body.date) && filePath != ""
        && InputValid(body, isISO8601) == Success(true) && upload.Uploaded? && upload.url != ""
      ensures r.Success? ==>
        var n := Newsletter(newId, body.title, body.description, body.date, upload.url, now);
        && newsletters == old(newsletters) + [n]
        && r.value == Json(201, n, "Newsletter created successfully!")
    {
      var gate := CheckUserRole(user);
      if gate.Fail? {
        return Failure(gate.error);
      }
      if !Truthy(body.title) || !Truthy(body.description) || !Truthy(body.date) || filePath == "" {
        return Throw(400, "All fields and media file are required!");
      }
      var valid := InputValid(body, isISO8601);
      if valid.Failure? {
        return Failure(valid.error);
      }
      if !valid.value {
        return Throw(400, "Invalid input data!");
      }
      if upload.UploadFailed? {
        return Failure(ReadOfUndefined("url"));
      }
      if upload.url == "" {
        return Throw(400, "Error while uploading media file!");
      }
      var n := Newsletter(newId, body.title, body.description, body.date, upload.url, now);
      newsletters := newsletters + [n];
      r := Success(Json(201, n, "Newsletter created successfully!"));
    }

    /** getAllNewsletters: every newsletter, newest first; 404 when there are none. */
    method GetAllNewsletters() returns (r: Handled<seq<Newsletter>>)
      ensures |newsletters| == 0 <==> r == Throw(404, "No newsletters found!")
      ensures r.Success? <==> |newsletters| > 0
      ensures r.Success? ==>
        && NewestFirst(r.value.body.data, CreatedAt)
        && multiset(r.value.body.data) == multiset(newsletters)
        && r.value == Json(200, r.value.body.data, "All newsletters fetched successfully")
    {
      var sorted := SortNewestFirst(newsletters, CreatedAt);
      SortedEmptyIff(newsletters, CreatedAt);
      if |sorted| == 0 {
        return Throw(404, "No newsletters found!");
      }
      r := Success(Json(200, sorted, "All newsletters fetched successfully"));
    }

    /**
     * The found branch of updateNewsletter for the newsletter at `i`. With a
     * file, the current media (when there is one) is handed to the deletion
     * helper, whose outcome is `deletion`; a failure aborts the update, and
     * otherwise the upload's url replaces the media.
     */
    method ReviseAt(i: nat, body: NewsletterBody, filePath: string, upload: UploadResult, deletion: Outcome<Thrown>)
      returns (r: Handled<Newsletter>)
      requires i < |newsletters|
      modifies this
      ensures
        var n := old(newsletters)[i];
        if filePath == "" then
          && newsletters == old(newsletters)[i := Merged(n, body, n.media)]
          && destroyCalls == old(destroyCalls)
          && r == Success(Json(200, newsletters[i], "Newsletter updated successfully!"))
        else
          && destroyCalls == old(destroyCalls) + (if n.media != "" then [n.media] else [])
          && (n.media != "" && deletion.Fail? ==> r == Failure(deletion.error) && newsletters == old(newsletters))
          && ((n.media == "" || deletion.Pass?) && upload.UploadFailed? ==>
                r == Failure(ReadOfUndefined("url")) && newsletters == old(newsletters))
          && ((n.media == "" || deletion.Pass?) && upload.Uploaded? ==>
                && newsletters == old(newsletters)[i := Merged(n, body, upload.url)]
                && r == Success(Json(200, newsletters[i], "Newsletter updated successfully!")))
    {
      var n := newsletters[i];
      var media := n.media;
      if filePath != "" {
        if n.media != "" {
          destroyCalls := destroyCalls + [n.media];
          if deletion.Fail? {
            return Failure(deletion.error);
          }
        }
        var uploaded := UploadedMedia(upload);
        if uploaded.Failure? {
          return Failure(uploaded.error);
        }
        media := uploaded.value;
      }
      newsletters := newsletters[i := Merged(n, body, media)];
      r := Success(Json(200, newsletters[i], "Newsletter updated successfully!"));
    }

    /**
     * updateNewsletter as written: the role gate; the trimmed id must be
     * valid (400) and name a newsletter (404). With a file and a current
     * media, the call of the missing `deleteFromCloudinary` throws a
     * TypeError outside any try, so the update never happens; with a file
     * and no media the upload's url replaces the media.
     */
    method UpdateNewsletter(user: Option<Identity>, id: string, body: NewsletterBody, filePath: string,
                            upload: UploadResult, isValidId: string -> bool)
      returns (r: Handled<Newsletter>)
      modifies this
      ensures CheckUserRole(user).Fail? ==>
        r == Failure(CheckUserRole(user).error) && newsletters == old(newsletters) && destroyCalls == old(destroyCalls)
      ensures CheckUserRole(user).Pass? && !isValidId(Trim(id)) ==>
        r == Throw(400, "Invalid newsletter ID format!") && newsletters == old(newsletters) && destroyCalls == old(destroyCalls)
      ensures CheckUserRole(user).Pass? && isValidId(Trim(id)) && FindIndex(old(newsletters), HasId(Trim(id))).None? ==>
        r == Throw(404, "Newsletter not found!") && newsletters == old(newsletters) && destroyCalls == old(destroyCalls)
      ensures CheckUserRole(user).Pass? && isValidId(Trim(id)) && FindIndex(old(newsletters), HasId(Trim(id))).Some? ==>
        var i := FindIndex(old(newsletters), HasId(Trim(id))).value;
        var n := old(newsletters)[i];
        if filePath == "" then
          && newsletters == old(newsletters)[i := Merged(n, body, n.media)]
          && destroyCalls == old(destroyCalls)
          && r == Success(Json(200, newsletters[i], "Newsletter updated successfully!"))
        else if n.media != "" then
          && destroyCalls == old(destroyCalls) + [n.media]
          && r == Failure(MissingDeleteHelper) && newsletters == old(newsletters)
        else
          && destroyCalls == old(destroyCalls)
          && (upload.UploadFailed? ==> r == Failure(ReadOfUndefined("url")) && newsletters == old(newsletters))
          && (upload.Uploaded? ==>
                && newsletters == old(newsletters)[i := Merged(n, body, upload.url)]
                && r == Success(Json(200, newsletters[i], "Newsletter updated successfully!")))
    {
      var gate := CheckUserRole(user);
      if gate.Fail? {
        return Failure(gate.error);
      }
      var cleaned := Trim(id);
      if !isValidId(cleaned) {
        return Throw(400, "Invalid newsletter ID format!");
      }
      var found := FindIndex(newsletters, HasId(cleaned));
      if found.None? {
        return Throw(404, "Newsletter not found!");
      }
      r := ReviseAt(found.value, body, filePath, upload, Fail(MissingDeleteHelper));
    }

    /**
     * updateNewsletter as evidently intended: the same, with a deletion
     * helper that exists; whether the media host destroys the old media is
     * `destroyOk`, and its failure aborts the update.
     */
    method UpdateNewsletterIntended(user: Option<Identity>, id: string, body: NewsletterBody, filePath: string,
                                    upload: UploadResult, destroyOk: bool, isValidId: string -> bool)
      returns (r: Handled<Newsletter>)
      modifies this
      ensures CheckUserRole(user).Fail? ==>
        r == Failure(CheckUserRole(user).error) && newsletters == old(newsletters) && destroyCalls == old(destroyCalls)
      ensures CheckUserRole(user).Pass? && !isValidId(Trim(id)) ==>
        r == Throw(400, "Invalid newsletter ID format!") && newsletters == old(newsletters) && destroyCalls == old(destroyCalls)
      ensures CheckUserRole(user).Pass? && isValidId(Trim(id)) && FindIndex(old(newsletters), HasId(Trim(id))).None? ==>
        r == Throw(404, "Newsletter not found!") && newsletters == old(newsletters) && destroyCalls == old(destroyCalls)
      ensures CheckUserRole(user).Pass? && isValidId(Trim(id)) && FindIndex(old(newsletters), HasId(Trim(id))).Some? ==>
        var i := FindIndex(old(newsletters), HasId(Trim(id))).value;
        var n := old(newsletters)[i];
        if filePath == "" then
          && newsletters == old(newsletters)[i := Merged(n, body, n.media)]
          && destroyCalls == old(destroyCalls)
          && r == Success(Json(200, newsletters[i], "Newsletter updated successfully!"))
        else
          && destroyCalls == old(destroyCalls) + (if n.media != "" then [n.media] else [])
          && (n.media != "" && !destroyOk ==> r == Failure(RemoteFailure) && newsletters == old(newsletters))
          && ((n.media == "" || destroyOk) && upload.UploadFailed? ==>
                r == Failure(ReadOfUndefined("url")) && newsletters == old(newsletters))
          && ((n.media == "" || destroyOk) && upload.Uploaded? ==>
                && newsletters == old(newsletters)[i := Merged(n, body, upload.url)]
                && r == Success(Json(200, newsletters[i], "Newsletter updated successfully!")))
    {
      var gate := CheckUserRole(user);
      if gate.Fail? {
        return Failure(gate.error);
      }
      var cleaned := Trim(id);
      if !isValidId(cleaned) {
        return Throw(400, "Invalid newsletter ID format!");
      }
      var found := FindIndex(newsletters, HasId(cleaned));
      if found.None? {
        return Throw(404, "Newsletter not found!");
      }
      r := ReviseAt(found.value, body, filePath, upload, if destroyOk then Pass else Fail(RemoteFailure));
    }

    /** Hands the media of the newsletter at `i` to the deletion helper, when it has one, and removes that newsletter. */
    method TakeOut(i: nat)
      requires i < |newsletters|
      modifies this
      ensures newsletters == RemoveAt(old(newsletters), i)
      ensures destroyCalls == old(destroyCalls) + (if old(newsletters)[i].media != "" then [old(newsletters)[i].media] else [])
    {
      var media := newsletters[i].media;
      if media != "" {
        destroyCalls := destroyCalls + [media];
      }
      newsletters := RemoveAt(newsletters, i);
    }

    /**
     * deleteNewsletter: the role gate, the trimmed id (400, 404); the media
     * is handed to the deletion helper with any failure swallowed, and the
     * newsletter is removed.
     */
    method DeleteNewsletter(user: Option<Identity>, id: string, isValidId: string -> bool)
      returns (r: Handled<Empty>)
      modifies this
      ensures CheckUserRole(user).Fail? ==>
        r == Failure(CheckUserRole(user).error) && newsletters == old(newsletters) && destroyCalls == old(destroyCalls)
      ensures CheckUserRole(user).Pass? && !isValidId(Trim(id)) ==>
        r == Throw(400, "Invalid newsletter ID format!") && newsletters == old(newsletters) && destroyCalls == old(destroyCalls)
      ensures CheckUserRole(user).Pass? && isValidId(Trim(id)) && FindIndex(old(newsletters), HasId(Trim(id))).None? ==>
        r == Throw(404, "Newsletter not found!") && newsletters == old(newsletters) && destroyCalls == old(destroyCalls)
      ensures CheckUserRole(user).Pass? && isValidId(Trim(id)) && FindIndex(old(newsletters), HasId(Trim(id))).Some? ==>
        var i := FindIndex(old(newsletters), HasId(Trim(id))).value;
        var media := old(newsletters)[i].media;
        && newsletters == RemoveAt(old(newsletters), i)
        && destroyCalls == old(destroyCalls) + (if media != "" then [media] else [])
        && r == Success(Json(200, Empty, "Newsletter deleted successfully!"))
    {
      var gate := CheckUserRole(user);
      if gate.Fail? {
        return Failure(gate.error);
      }
      var cleaned := Trim(id);
      if !isValidId(cleaned) {
        return Throw(400, "Invalid newsletter ID format!");
      }
      var found := FindIndex(newsletters, HasId(cleaned));
      if found.None? {
        return Throw(404, "Newsletter not found!");
      }
      TakeOut(found.value);
      r := Success(Json(200, Empty, "Newsletter deleted successfully!"));
    }
  }

  /**
   * As written, an admin's update of a newsletter that has media, sent with a
   * new file, fails with the TypeError and leaves the newsletter as it was.
   */
  method MediaUpdateFailsAsWritten() returns (r: Handled<Newsletter>, kept: seq<Newsletter>)
    ensures r == Failure(MissingDeleteHelper)
    ensures kept == [Newsletter("n1", Str("Spring"), Str("News"), Str("2024-03-01"), "https://host/a/b.png", 1)]
  {
    var store := new NewsletterStore();
    store.newsletters := [Newsletter("n1", Str("Spring"), Str("News"), Str("2024-03-01"), "https://host/a/b.png", 1)];
    var admin := Identity("u1", "root", None, DefaultRole);
    assert Trim("n1") == "n1";
    assert FindIndex(store.newsletters, HasId("n1")) == Some(0);
    r := store.UpdateNewsletter(Some(admin), "n1", NewsletterBody(Str("Summer"), Undefined, Undefined), "tmp/c.png",
                                Uploaded("https://host/a/c.png"), (id: string) => true);
    kept := store.newsletters;
  }

  /** The same request against the intended handler, with the old media destroyed: the title and the media are replaced. */
  method MediaUpdateSucceedsIntended() returns (r: Handled<Newsletter>, kept: seq<Newsletter>)
    ensures r.Success?
    ensures kept == [Newsletter("n1", Str("Summer"), Str("News"), Str("2024-03-01"), "https://host/a/c.png", 1)]
  {
    var store := new NewsletterStore();
    store.newsletters := [Newsletter("n1", Str("Spring"), Str("News"), Str("2024-03-01"), "https://host/a/b.png", 1)];
    var admin := Identity("u1", "root", None, DefaultRole);
    assert Trim("n1") == "n1";
    assert FindIndex(store.newsletters, HasId("n1")) == Some(0);
    r := store.UpdateNewsletterIntended(Some(admin), "n1", NewsletterBody(Str("Summer"), Undefined, Undefined), "tmp/c.png",
                                        Uploaded("https://host/a/c.png"), true, (id: string) => true);
    kept := store.newsletters;
  }
}
