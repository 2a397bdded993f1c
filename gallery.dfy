/**
 * The gallery handlers. Their role gate is caught and answered rather than
 * thrown; creation prefers a body `imageUrl` to an uploaded file; updates
 * follow a three-state rule for `featured` and replace `caption` whenever it
 * is given. The `deleteFromCloudinary` these handlers import is not exported
 * by the media helper module, so calling it throws a TypeError; every handler
 * here catches that, and the model records the URLs they try to pass to it.
 */
module GalleryController {
  import opened Outcomes
  import opened Js
  import opened ApiErrors
  import opened Http
  import opened AdminModel
  import opened Auth
  import opened Collections

  /** A gallery item as the handlers write it. */
  datatype GalleryItem = GalleryItem(
    id: Id, title: JsValue, category: JsValue, featured: bool,
    imageUrl: JsValue, caption: JsValue, createdAt: int)

  /** The fields of `req.body` the handlers read. */
  datatype GalleryBody = GalleryBody(title: JsValue, category: JsValue, featured: JsValue, caption: JsValue, imageUrl: JsValue)

  /**
   * The gate's catch: the error's status (500 when it has none) and message,
   * with null data, sent as the response instead of being thrown.
   */
  function GateReply<D>(t: Thrown): (r: Reply<Option<D>>)
    ensures r.status == StatusOr500(t) && r.body == ApiResponse(StatusOr500(t), None, MessageOf(t))
  {
    Reply(StatusOr500(t), ApiResponse(StatusOr500(t), None, MessageOf(t)), [])
  }

  /** A refused role is answered with 401 or 403 and the gate's message, never thrown. */
  lemma GateAnswersWithItsStatus(user: Option<Identity>)
    requires CheckUserRole(user).Fail?
    ensures var reply := GateReply<GalleryItem>(CheckUserRole(user).error);
      && (reply.status == 401 <==> user.None? || user.value.role == "")
      && (reply.status == 403 <==> user.Some? && user.value.role != "" && !IsStaff(user.value.role))
      && (reply.status == 401 || reply.status == 403)
  {
    RoleGateSeparatesStatuses(user);
  }

  /** `featured === 'true' || featured === true`, the create rule. */
  predicate CreateFeatured(f: JsValue)
  {
    f == Str("true") || f == Bool(true)
  }

  /** The update rule: true and 'true' set it, false and 'false' clear it, anything else keeps it. */
  predicate UpdateFeatured(f: JsValue, previous: bool)
  {
    f == Str("true") || f == Bool(true) || (f != Str("false") && f != Bool(false) && previous)
  }

  /** The three states of the update rule, and its agreement with the create rule on a new item. */
  lemma FeaturedRules(f: JsValue, previous: bool)
    ensures CreateFeatured(f) <==> f == Str("true") || f == Bool(true)
    ensures f == Str("true") || f == Bool(true) ==> UpdateFeatured(f, previous)
    ensures f == Str("false") || f == Bool(false) ==> !UpdateFeatured(f, previous)
    ensures f !in {Str("true"), Bool(true), Str("false"), Bool(false)} ==> UpdateFeatured(f, previous) == previous
    ensures UpdateFeatured(f, false) == CreateFeatured(f)
  {
  }

  /** An illustration of FeaturedRules: a truthy string other than 'true' does not feature a new item, and leaves an existing one as it was. */
  lemma OtherStringsKeepFeatured(previous: bool)
    ensures !CreateFeatured(Str("yes")) && !CreateFeatured(Str("1"))
    ensures UpdateFeatured(Str("yes"), previous) == previous
  {
  }

  /**
   * Create's image choice: a truthy body `imageUrl` wins; otherwise a file is
   * uploaded (nothing to read `url` from when the upload failed, 400 for an
   * empty url); with neither, 400.
   */
  function CreateImage(bodyUrl: JsValue, filePath: string, upload: UploadResult): (r: Result<JsValue, Thrown>)
    ensures Truthy(bodyUrl) ==> r == Success(bodyUrl)
    ensures !Truthy(bodyUrl) && filePath == "" ==> r == Failure(Api(Err(400, "Image file or URL is required!")))
    ensures !Truthy(bodyUrl) && filePath != "" ==>
      (r.Success? <==> upload.Uploaded? && upload.url != "") && (r.Success? ==> r.value == Str(upload.url))
    ensures !Truthy(bodyUrl) && filePath != "" && upload.UploadFailed? ==> r == Failure(ReadOfUndefined("url"))
    ensures !Truthy(bodyUrl) && filePath != "" && upload.Uploaded? && upload.url == "" ==>
      r == Failure(Api(Err(400, "Error while uploading image!")))
    ensures r.Success? ==> Truthy(r.value)
  {
    if Truthy(bodyUrl) then Success(bodyUrl)
    else if filePath != "" then
      match upload
      case UploadFailed => Failure(ReadOfUndefined("url"))
      case Uploaded(url) => if url == "" then Failure(Api(Err(400, "Error while uploading image!"))) else Success(Str(url))
    else Failure(Api(Err(400, "Image file or URL is required!")))
  }

  /** The new item `Gallery.create` stores. */
  function NewItem(id: Id, b: GalleryBody, imageUrl: JsValue, now: int): GalleryItem
  {
    GalleryItem(id, b.title, b.category, CreateFeatured(b.featured), imageUrl, b.caption, now)
  }

  /** What the update writes, once the final image is known. */
  function Updated(g: GalleryItem, b: GalleryBody, imageUrl: JsValue): GalleryItem
  {
    g.(title := Or(b.title, g.title),
       category := Or(b.category, g.category),
       featured := UpdateFeatured(b.featured, g.featured),
       caption := if b.caption != Undefined then b.caption else g.caption,
       imageUrl := imageUrl)
  }

  /** Caption is replaced whenever it is given, even by "", while an empty title or category keeps the old one. */
  lemma CaptionReplacedTitleKept(g: GalleryItem, b: GalleryBody, imageUrl: JsValue)
    requires b.caption == Str("") && b.title == Str("") && b.category == Undefined
    ensures var u := Updated(g, b, imageUrl);
      u.caption == Str("") && u.title == g.title && u.category == g.category
  {
  }

  /** An update giving nothing keeps every field but the image. */
  lemma EmptyUpdateKeepsFields(g: GalleryItem)
    ensures Updated(g, GalleryBody(Undefined, Undefined, Undefined, Undefined, Undefined), g.imageUrl) == g
  {
  }

  /**
   * Update's image decision, before the upload: with a file, the current
   * image is sent for deletion (when truthy) and the upload decides; without
   * one, a truthy body url different from the current one replaces it after
   * the current one is sent for deletion; otherwise nothing changes.
   */
  function UpdateImage(current: JsValue, bodyUrl: JsValue, filePath: string, upload: UploadResult): (r: (seq<JsValue>, Result<JsValue, Thrown>))
    ensures filePath == "" && (!Truthy(bodyUrl) || bodyUrl == current) ==> r == ([], Success(current))
    ensures filePath != "" ==> (r.1.Success? <==> upload.Uploaded? && upload.url != "")
    ensures filePath != "" && r.1.Success? ==> r.1.value == Str(upload.url)
    ensures filePath != "" && upload.UploadFailed? ==> r.1 == Failure(ReadOfUndefined("url"))
    ensures filePath != "" && upload.Uploaded? && upload.url == "" ==> r.1 == Failure(Api(Err(400, "Error while uploading image!")))
    ensures Truthy(current) && (filePath != "" || (Truthy(bodyUrl) && bodyUrl != current)) ==> r.0 == [current]
    ensures !Truthy(current) ==> r.0 == []
  {
    var destroy := if Truthy(current) then [current] else [];
    if filePath != "" then
      match upload
      case UploadFailed => (destroy, Failure(ReadOfUndefined("url")))
      case Uploaded(url) => (destroy, if url == "" then Failure(Api(Err(400, "Error while uploading image!"))) else Success(Str(url)))
    else if Truthy(bodyUrl) && bodyUrl != current then
      (destroy, Success(bodyUrl))
    else
      ([], Success(current))
  }

  /** A file wins over a body url: the body url is ignored whenever a file is uploaded. */
  lemma FileBeatsBodyUrl(current: JsValue, bodyUrl: JsValue, other: JsValue, filePath: string, upload: UploadResult)
    requires filePath != ""
    ensures UpdateImage(current, bodyUrl, filePath, upload) == UpdateImage(current, other, filePath, upload)
  {
  }

  /** `g._id` equals the path parameter. */
  function HasId(id: Id): GalleryItem -> bool
  {
    (g: GalleryItem) => g.id == id
  }

  function CreatedAt(g: GalleryItem): int
  {
    g.createdAt
  }

  /** The Gallery collection, in insertion order, and the URLs handed to the media deletion helper. */
  class GalleryStore {
    var items: seq<GalleryItem>
    var destroyCalls: seq<JsValue>

    constructor ()
      ensures items == [] && destroyCalls == []
    {
      items := [];
      destroyCalls := [];
    }

    /**
     * createGallery: the caught role gate, then 400 without a title, then the
     * image choice; the new item is appended with the create rule for featured.
     */
    method CreateGallery(user: Option<Identity>, body: GalleryBody, filePath: string, upload: UploadResult, newId: Id, now: int)
      returns (r: Handled<Option<GalleryItem>>)
      modifies this
      ensures destroyCalls == old(destroyCalls)
      ensures CheckUserRole(user).Fail? ==> r == Success(GateReply(CheckUserRole(user).error)) && items == old(items)
      ensures CheckUserRole(user).Pass? && !Truthy(body.title) ==> r == Throw(400, "Title is required!") && items == old(items)
      ensures CheckUserRole(user).Pass? && Truthy(body.title) ==>
        var image := CreateImage(body.imageUrl, filePath, upload);
        && (image.Failure? ==> r == Failure(image.error) && items == old(items))
        && (image.Success? ==>
              var g := NewItem(newId, body, image.value, now);
              && items == old(items) + [g]
              && r == Success(Json(201, Some(g), "Gallery item created successfully!")))
    {
      var gate := CheckUserRole(user);
      if gate.Fail? {
        return Success(GateReply(gate.error));
      }
      if !Truthy(body.title) {
        return Throw(400, "Title is required!");
      }
      var image := CreateImage(body.imageUrl, filePath, upload);
      if image.Failure? {
        return Failure(image.error);
      }
      var g := NewItem(newId, body, image.value, now);
      items := items + [g];
      r := Success(Json(201, Some(g), "Gallery item created successfully!"));
    }

    /** getAllGalleries: every item, newest first; 404 when there are none. */
    method GetAllGalleries() returns (r: Handled<seq<GalleryItem>>)
      ensures |items| == 0 <==> r == Throw(404, "No gallery items found!")
      ensures r.Success? <==> |items| > 0
      ensures r.Success? ==>
        && NewestFirst(r.value.body.data, CreatedAt)
        && multiset(r.value.body.data) == multiset(items)
        && r.value == Json(200, r.value.body.data, "All gallery items fetched successfully")
    {
      var sorted := SortNewestFirst(items, CreatedAt);
      SortedEmptyIff(items, CreatedAt);
      if |sorted| == 0 {
        return Throw(404, "No gallery items found!");
      }
      r := Success(Json(200, sorted, "All gallery items fetched successfully"));
    }

    /** getGalleryById: a CastError for an id that is not an ObjectId, 404 for an unknown one. */
    method GetGalleryById(id: Id, isValidId: string -> bool) returns (r: Handled<GalleryItem>)
      ensures !isValidId(id) ==> r == Failure(CastError(id, "Gallery"))
      ensures isValidId(id) && FindIndex(items, HasId(id)).None? ==> r == Throw(404, "Gallery item not found!")
      ensures isValidId(id) && FindIndex(items, HasId(id)).Some? ==>
        r == Success(Json(200, items[FindIndex(items, HasId(id)).value], "Gallery item fetched successfully"))
      ensures r.Success? ==>
        && r.value.body.data in items && r.value.body.data.id == id
        && r.value == Json(200, r.value.body.data, "Gallery item fetched successfully")
    {
      if !isValidId(id) {
        return Failure(CastError(id, "Gallery"));
      }
      var i := FindIndex(items, HasId(id));
      if i.None? {
        return Throw(404, "Gallery item not found!");
      }
      r := Success(Json(200, items[i.value], "Gallery item fetched successfully"));
    }

    /**
     * updateGallery: the caught role gate, the lookup, the image decision
     * (deletion requests are sent before the upload and their failures
     * ignored), then the field rules.
     */
    method UpdateGallery(user: Option<Identity>, id: Id, body: GalleryBody, filePath: string, upload: UploadResult,
                         isValidId: string -> bool)
      returns (r: Handled<Option<GalleryItem>>)
      modifies this
      ensures CheckUserRole(user).Fail? ==>
        r == Success(GateReply(CheckUserRole(user).error)) && items == old(items) && destroyCalls == old(destroyCalls)
      ensures CheckUserRole(user).Pass? && !isValidId(id) ==>
        r == Failure(CastError(id, "Gallery")) && items == old(items) && destroyCalls == old(destroyCalls)
      ensures CheckUserRole(user).Pass? && isValidId(id) && FindIndex(old(items), HasId(id)).None? ==>
        r == Throw(404, "Gallery item not found!") && items == old(items) && destroyCalls == old(destroyCalls)
      ensures CheckUserRole(user).Pass? && isValidId(id) && FindIndex(old(items), HasId(id)).Some? ==>
        var i := FindIndex(old(items), HasId(id)).value;
        var g := old(items)[i];
        var decision := UpdateImage(g.imageUrl, body.imageUrl, filePath, upload);
        && destroyCalls == old(destroyCalls) + decision.0
        && (decision.1.Failure? ==> r == Failure(decision.1.error) && items == old(items))
        && (decision.1.Success? ==>
              var u := Updated(g, body, decision.1.value);
              && items == old(items)[i := u]
              && r == Success(Json(200, Some(u), "Gallery item updated successfully")))
    {
      var gate := CheckUserRole(user);
      if gate.Fail? {
        return Success(GateReply(gate.error));
      }
      if !isValidId(id) {
        return Failure(CastError(id, "Gallery"));
      }
      var found := FindIndex(items, HasId(id));
      if found.None? {
        return Throw(404, "Gallery item not found!");
      }
      var g := items[found.value];
      var decision := UpdateImage(g.imageUrl, body.imageUrl, filePath, upload);
      destroyCalls := destroyCalls + decision.0;
      if decision.1.Failure? {
        return Failure(decision.1.error);
      }
      var u := Updated(g, body, decision.1.value);
      items := items[found.value := u];
      r := Success(Json(200, Some(u), "Gallery item updated successfully"));
    }

    /**
     * deleteGallery: the caught role gate and the lookup; the image is sent
     * for deletion when truthy, any failure of that is ignored, and the item
     * is removed.
     */
    method DeleteGallery(user: Option<Identity>, id: Id, isValidId: string -> bool)
      returns (r: Handled<Option<Empty>>)
      modifies this
      ensures CheckUserRole(user).Fail? ==>
        r == Success(GateReply(CheckUserRole(user).error)) && items == old(items) && destroyCalls == old(destroyCalls)
      ensures CheckUserRole(user).Pass? && !isValidId(id) ==>
        r == Failure(CastError(id, "Gallery")) && items == old(items) && destroyCalls == old(destroyCalls)
      ensures CheckUserRole(user).Pass? && isValidId(id) && FindIndex(old(items), HasId(id)).None? ==>
        r == Throw(404, "Gallery item not found!") && items == old(items) && destroyCalls == old(destroyCalls)
      ensures CheckUserRole(user).Pass? && isValidId(id) && FindIndex(old(items), HasId(id)).Some? ==>
        var i := FindIndex(old(items), HasId(id)).value;
        var image := old(items)[i].imageUrl;
        && items == RemoveAt(old(items), i)
        && destroyCalls == old(destroyCalls) + (if Truthy(image) then [image] else [])
        && r == Success(Json(200, Some(Empty), "Gallery item deleted successfully"))
    {
      var gate := CheckUserRole(user);
      if gate.Fail? {
        return Success(GateReply(gate.error));
      }
      if !isValidId(id) {
        return Failure(CastError(id, "Gallery"));
      }
      var found := FindIndex(items, HasId(id));
      if found.None? {
        return Throw(404, "Gallery item not found!");
      }
      var image := items[found.value].imageUrl;
      if Truthy(image) {
        destroyCalls := destroyCalls + [image];
      }
      items := RemoveAt(items, found.value);
      r := Success(Json(200, Some(Empty), "Gallery item deleted successfully"));
    }
  }
}
