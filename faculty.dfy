/**
 * The faculty handlers. All faculty members live in one document holding
 * two lists, `head` and `member`; the handlers append to a list, merge new
 * values into one entry found by id, or splice one entry out, then save the
 * document, and ask the media host to destroy images they replaced.
 */
module FacultyController {
  import opened Outcomes
  import opened Js
  import opened ApiErrors
  import opened Http
  import opened AdminModel
  import opened Auth
  import opened Media
  import opened Collections

  /** Which of the two lists a request addresses. */
  datatype Kind = Head | Member

  /** `type === "head"` or `type === "member"`; anything else is refused. */
  function ParseKind(t: JsValue): (k: Option<Kind>)
    ensures k == Some(Head) <==> t == Str("head")
    ensures k == Some(Member) <==> t == Str("member")
  {
    if t == Str("head") then Some(Head)
    else if t == Str("member") then Some(Member)
    else None
  }

  /** One entry of a list; `image` is the url the media host returned. */
  datatype FacultyMember = FacultyMember(
    id: Id, name: JsValue, designation: JsValue, department: JsValue,
    email: JsValue, testimonial: JsValue, image: string)

  /** The single Faculty document. */
  datatype FacultyDoc = FacultyDoc(head: seq<FacultyMember>, member: seq<FacultyMember>)

  /** The `{ faculty }` object every faculty handler answers with as data. */
  datatype FacultyData = FacultyData(faculty: FacultyDoc)

  /** `faculty[type]`. */
  function Section(doc: FacultyDoc, k: Kind): seq<FacultyMember>
  {
    match k
    case Head => doc.head
    case Member => doc.member
  }

  /** The document with `faculty[type]` replaced. */
  function WithSection(doc: FacultyDoc, k: Kind, s: seq<FacultyMember>): (d: FacultyDoc)
    ensures Section(d, k) == s
    ensures forall other :: other != k ==> Section(d, other) == Section(doc, other)
  {
    match k
    case Head => doc.(head := s)
    case Member => doc.(member := s)
  }

  /** The fields of a create or update request body. */
  datatype MemberBody = MemberBody(name: JsValue, designation: JsValue, department: JsValue, email: JsValue, testimonial: JsValue)

  /**
   * `(await Faculty.findOne() || new Faculty({ head: [], member: [] }))[type].push(entry)`:
   * exactly one entry at the end of the addressed list, the other list as it
   * was (empty when there was no document yet).
   */
  function AppendMember(doc: Option<FacultyDoc>, k: Kind, m: FacultyMember): (d: FacultyDoc)
    ensures doc.Some? ==> Section(d, k) == Section(doc.value, k) + [m]
    ensures doc.None? ==> Section(d, k) == [m]
    ensures forall other :: other != k ==> Section(d, other) == (if doc.Some? then Section(doc.value, other) else [])
  {
    var base := if doc.Some? then doc.value else FacultyDoc([], []);
    WithSection(base, k, Section(base, k) + [m])
  }

  /** The update's merge: each field becomes the new value when truthy and keeps the old one otherwise; the image is the new url when there is one. */
  function Merge(m: FacultyMember, b: MemberBody, newImage: string): FacultyMember
  {
    m.(name := Or(b.name, m.name),
       designation := Or(b.designation, m.designation),
       department := Or(b.department, m.department),
       email := Or(b.email, m.email),
       testimonial := Or(b.testimonial, m.testimonial),
       image := OrText(newImage, m.image))
  }

  /** A body of falsy values and no new image changes nothing. */
  lemma MergeFalsyIsIdentity(m: FacultyMember, b: MemberBody)
    requires !Truthy(b.name) && !Truthy(b.designation) && !Truthy(b.department)
    requires !Truthy(b.email) && !Truthy(b.testimonial)
    ensures Merge(m, b, "") == m
  {
  }

  /** The merge keeps the id, takes every truthy value and the new image, and keeps the rest. */
  lemma MergeTakesTruthy(m: FacultyMember, b: MemberBody, newImage: string)
    ensures var r := Merge(m, b, newImage);
      && r.id == m.id
      && (Truthy(b.name) ==> r.name == b.name) && (!Truthy(b.name) ==> r.name == m.name)
      && (Truthy(b.email) ==> r.email == b.email) && (!Truthy(b.email) ==> r.email == m.email)
      && (newImage != "" ==> r.image == newImage) && (newImage == "" ==> r.image == m.image)
  {
  }

  /** Merging the same request twice is the same as merging it once. */
  lemma MergeIdempotent(m: FacultyMember, b: MemberBody, newImage: string)
    ensures Merge(Merge(m, b, newImage), b, newImage) == Merge(m, b, newImage)
  {
  }

  /** `member._id.toString() === id`. */
  function HasId(id: Id): FacultyMember -> bool
  {
    (m: FacultyMember) => m.id == id
  }

  /** A freshly appended entry whose id no other entry has is the one a later lookup finds, at the end. */
  lemma {:induction false} FindAppended(s: seq<FacultyMember>, m: FacultyMember)
    requires forall j :: 0 <= j < |s| ==> s[j].id != m.id
    ensures FindIndex(s + [m], HasId(m.id)) == Some(|s|)
  {
    var r := FindIndex(s + [m], HasId(m.id));
    assert HasId(m.id)((s + [m])[|s|]);
    assert forall j :: 0 <= j < |s| ==> !HasId(m.id)((s + [m])[j]);
  }

  /** Deleting the entry just added gives the list back as it was before. */
  lemma AddThenDeleteRestores(s: seq<FacultyMember>, m: FacultyMember)
    requires forall j :: 0 <= j < |s| ==> s[j].id != m.id
    ensures FindIndex(s + [m], HasId(m.id)) == Some(|s|)
    ensures RemoveAt(s + [m], |s|) == s
  {
    FindAppended(s, m);
    assert (s + [m])[..|s|] == s;
  }

  const InvalidType := "Invalid type. Must be 'head' or 'member'."

  /** The one Faculty document, if any, and the public ids sent to the media host for destruction. */
  class FacultyStore {
    var doc: Option<FacultyDoc>
    var destroyed: seq<string>

    constructor ()
      ensures doc == None && destroyed == []
    {
      doc := None;
      destroyed := [];
    }

    /**
     * addFacultyMember: checkAdmin first, then a 400 for a bad type, a 400
     * unless name, designation, department, email and a file are all there,
     * then the upload (a failed one leaves nothing to read `url` from, an
     * empty url is a 500), then one entry appended under the fresh id.
     */
    method AddFacultyMember(user: Option<Identity>, kind: JsValue, body: MemberBody, filePath: string,
                            upload: UploadResult, newId: Id)
      returns (r: Handled<FacultyData>)
      modifies this
      ensures destroyed == old(destroyed)
      ensures r.Failure? ==> doc == old(doc)
      ensures CheckAdmin(user).Fail? ==> r == Failure(CheckAdmin(user).error)
      ensures CheckAdmin(user).Pass? && ParseKind(kind).None? ==> r == Throw(400, InvalidType)
      ensures (CheckAdmin(user).Pass? && ParseKind(kind).Some?
               && !(Truthy(body.name) && Truthy(body.designation) && Truthy(body.department) && Truthy(body.email) && filePath != "")) ==>
        r == Throw(400, "All fields and media file are required!")
      ensures (CheckAdmin(user).Pass? && ParseKind(kind).Some?
               && Truthy(body.name) && Truthy(body.designation) && Truthy(body.department) && Truthy(body.email) && filePath != "") ==>
        && (upload.UploadFailed? ==> r == Failure(ReadOfUndefined("url")))
        && (upload.Uploaded? && upload.url == "" ==> r == Throw(500, "Error uploading image to Cloudinary"))
      ensures r.Success? <==>
        && CheckAdmin(user).Pass? && ParseKind(kind).Some?
        && Truthy(body.name) && Truthy(body.designation) && Truthy(body.department) && Truthy(body.email) && filePath != ""
        && upload.Uploaded? && upload.url != ""
      ensures r.Success? ==>
        var m := FacultyMember(newId, body.name, body.designation, body.department, body.email, body.testimonial, upload.url);
        && doc == Some(AppendMember(old(doc), ParseKind(kind).value, m))
        && r.value == Json(201, FacultyData(doc.value), "Faculty member added successfully!")
    {
      var gate := CheckAdmin(user);
      if gate.Fail? {
        return Failure(gate.error);
      }
      var k := ParseKind(kind);
      if k.None? {
        return Throw(400, InvalidType);
      }
      if !Truthy(body.name) || !Truthy(body.designation) || !Truthy(body.department) || !Truthy(body.email) || filePath == "" {
        return Throw(400, "All fields and media file are required!");
      }
      if upload.UploadFailed? {
        return Failure(ReadOfUndefined("url"));
      }
      if upload.url == "" {
        return Throw(500, "Error uploading image to Cloudinary");
      }
      var m := FacultyMember(newId, body.name, body.designation, body.department, body.email, body.testimonial, upload.url);
      doc := Some(AppendMember(doc, k.value, m));
      r := Success(Json(201, FacultyData(doc.value), "Faculty member added successfully!"));
    }

    /** getAllFaculties: the document, or 404 when there is none. */
    method GetAllFaculties() returns (r: Handled<FacultyData>)
      ensures doc.None? <==> r == Throw(404, "No faculty data found")
      ensures doc.Some? ==> r == Success(Json(200, FacultyData(doc.value), "Faculty data retrieved successfully!"))
    {
      if doc.None? {
        return Throw(404, "No faculty data found");
      }
      r := Success(Json(200, FacultyData(doc.value), "Faculty data retrieved successfully!"));
    }

    /**
     * updateFacultyMember: checkAdmin, the type, 404 without a document and
     * 404 when no entry of that list has the id. With a file the upload comes
     * first; the first entry with the id is merged and the document saved;
     * only then, and only with a file, the old image is destroyed, whose
     * failure is thrown after the save.
     */
    method UpdateFacultyMember(user: Option<Identity>, kind: JsValue, id: Id, body: MemberBody, filePath: string,
                               upload: UploadResult, destroyOk: bool)
      returns (r: Handled<FacultyData>)
      modifies this
      ensures CheckAdmin(user).Fail? ==> r == Failure(CheckAdmin(user).error) && doc == old(doc) && destroyed == old(destroyed)
      ensures CheckAdmin(user).Pass? && ParseKind(kind).None? ==> r == Throw(400, InvalidType) && doc == old(doc)
      ensures CheckAdmin(user).Pass? && ParseKind(kind).Some? && old(doc).None? ==>
        r == Throw(404, "Faculty data not found") && doc == old(doc)
      ensures (CheckAdmin(user).Pass? && ParseKind(kind).Some? && old(doc).Some?
               && FindIndex(Section(old(doc).value, ParseKind(kind).value), HasId(id)).None?) ==>
        r == Throw(404, "Faculty member not found") && doc == old(doc) && destroyed == old(destroyed)
      ensures
        if CheckAdmin(user).Pass? && ParseKind(kind).Some? && old(doc).Some?
           && FindIndex(Section(old(doc).value, ParseKind(kind).value), HasId(id)).Some? then
          var k := ParseKind(kind).value;
          var s := Section(old(doc).value, k);
          var i := FindIndex(s, HasId(id)).value;
          if filePath != "" && upload.UploadFailed? then
            r == Failure(ReadOfUndefined("url")) && doc == old(doc) && destroyed == old(destroyed)
          else if filePath != "" && upload.url == "" then
            r == Throw(500, "Error uploading image to Cloudinary") && doc == old(doc) && destroyed == old(destroyed)
          else
            var newImage := if filePath != "" then upload.url else "";
            var deletion := DeleteMediaOrSkip(s[i].image, destroyOk);
            && doc == Some(WithSection(old(doc).value, k, s[i := Merge(s[i], body, newImage)]))
            && destroyed == old(destroyed) + (if filePath != "" then deletion.requested else [])
            && (r.Success? <==> filePath == "" || deletion.outcome.Pass?)
            && (filePath != "" && deletion.outcome.Fail? ==> r == Failure(deletion.outcome.error))
            && (r.Success? ==> r.value == Json(200, FacultyData(doc.value), "Faculty member updated successfully!"))
        else
          r.Failure? && doc == old(doc) && destroyed == old(destroyed)
    {
      var gate := CheckAdmin(user);
      if gate.Fail? {
        return Failure(gate.error);
      }
      var k := ParseKind(kind);
      if k.None? {
        return Throw(400, InvalidType);
      }
      if doc.None? {
        return Throw(404, "Faculty data not found");
      }
      var s := Section(doc.value, k.value);
      var found := FindIndex(s, HasId(id));
      if found.None? {
        return Throw(404, "Faculty member not found");
      }
      var i := found.value;
      var oldImage := s[i].image;
      var newImage := "";
      if filePath != "" {
        if upload.UploadFailed? {
          return Failure(ReadOfUndefined("url"));
        }
        if upload.url == "" {
          return Throw(500, "Error uploading image to Cloudinary");
        }
        newImage := upload.url;
      }
      doc := Some(WithSection(doc.value, k.value, s[i := Merge(s[i], body, newImage)]));
      if filePath != "" {
        var deletion := DeleteMediaOrSkip(oldImage, destroyOk);
        destroyed := destroyed + deletion.requested;
        if deletion.outcome.Fail? {
          return Failure(deletion.outcome.error);
        }
      }
      r := Success(Json(200, FacultyData(doc.value), "Faculty member updated successfully!"));
    }

    /**
     * deleteFacultyMember: checkAdmin, the type, the two 404s; then exactly the
     * first entry with the id is spliced out, the rest keeping their order,
     * the document is saved and the removed entry's image destroyed.
     */
    method DeleteFacultyMember(user: Option<Identity>, kind: JsValue, id: Id, destroyOk: bool)
      returns (r: Handled<FacultyData>)
      modifies this
      ensures CheckAdmin(user).Fail? ==> r == Failure(CheckAdmin(user).error)
      ensures CheckAdmin(user).Pass? && ParseKind(kind).None? ==> r == Throw(400, InvalidType)
      ensures CheckAdmin(user).Pass? && ParseKind(kind).Some? && old(doc).None? ==> r == Throw(404, "Faculty data not found")
      ensures (CheckAdmin(user).Pass? && ParseKind(kind).Some? && old(doc).Some?
               && FindIndex(Section(old(doc).value, ParseKind(kind).value), HasId(id)).None?) ==>
        r == Throw(404, "Faculty member not found")
      ensures
        if CheckAdmin(user).Pass? && ParseKind(kind).Some? && old(doc).Some?
           && FindIndex(Section(old(doc).value, ParseKind(kind).value), HasId(id)).Some? then
          var k := ParseKind(kind).value;
          var s := Section(old(doc).value, k);
          var i := FindIndex(s, HasId(id)).value;
          var deletion := DeleteMediaOrSkip(s[i].image, destroyOk);
          && doc == Some(WithSection(old(doc).value, k, RemoveAt(s, i)))
          && destroyed == old(destroyed) + deletion.requested
          && (r.Success? <==> deletion.outcome.Pass?)
          && (deletion.outcome.Fail? ==> r == Failure(deletion.outcome.error))
          && (r.Success? ==> r.value == Json(200, FacultyData(doc.value), "Faculty member deleted successfully!"))
        else
          r.Failure? && doc == old(doc) && destroyed == old(destroyed)
    {
      var gate := CheckAdmin(user);
      if gate.Fail? {
        return Failure(gate.error);
      }
      var k := ParseKind(kind);
      if k.None? {
        return Throw(400, InvalidType);
      }
      if doc.None? {
        return Throw(404, "Faculty data not found");
      }
      var s := Section(doc.value, k.value);
      var found := FindIndex(s, HasId(id));
      if found.None? {
        return Throw(404, "Faculty member not found");
      }
      var removed := s[found.value];
      doc := Some(WithSection(doc.value, k.value, RemoveAt(s, found.value)));
      var deletion := DeleteMediaOrSkip(removed.image, destroyOk);
      destroyed := destroyed + deletion.requested;
      if deletion.outcome.Fail? {
        return Failure(deletion.outcome.error);
      }
      r := Success(Json(200, FacultyData(doc.value), "Faculty member deleted successfully!"));
    }
  }
}
