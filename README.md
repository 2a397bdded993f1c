# CASS Web Portal back end — a Dafny model

This project models the request handlers of the CASS Web Portal, an Express
and Mongoose back end. It covers:

- the admin accounts: registration, login with access and refresh tokens,
  logout, and the account document whose pre-save hook hashes the password
  only when the password changed;
- the request gate: reading the token from a cookie or a `Bearer` header,
  resolving it to an account without its secrets, and the two role checks;
- the `ApiError` value and its JSON form;
- the content handlers for faculty, gallery, events, newsletters, event
  registrations and feedback.

Each handler is a method over a store class whose field is the collection
(a `map` of accounts by id, or a `seq` of documents in insertion order). The
method returns what the handler sends, or what it throws:

- `Reply(status, body, cookies)` is the HTTP status, the `ApiResponse`
  envelope and the cookie operations;
- `Thrown` is either an `ApiError` or a runtime error such as a TypeError,
  a Mongoose CastError or a ValidationError.

Foreign code is passed in as parameters:

- `jwt.verify` is `verify: string -> Verification`;
- `mongoose.Types.ObjectId.isValid` is `isValidId`;
- `validator.isISO8601` is `isISO8601`;
- the case-insensitive title regex of the event lookup is `titleMatches`,
  and whether `new RegExp(identifier, "i")` compiles is `isPattern`;
- the media host's upload answer is an `UploadResult`;
- whether a remote destroy succeeds is `destroyOk`;
- new ids, timestamps, bcrypt salts and the signed token pair are also
  parameters.

bcrypt is symbolic. A hash remembers what it hashed, so comparing a
candidate succeeds exactly against a hash of that candidate.

The JavaScript semantics the handlers rely on are written out:

- truthiness and `a || b`;
- `String.prototype.trim`, using ECMAScript's whitespace set;
- `replace` of the first occurrence only;
- `split(c).pop()` and `split(c)[0]`;
- Mongo's rule that a `{ field: undefined }` filter matches a document
  that lacks the field;
- a lookup in a collection kept as a sequence returns the first match in
  insertion order, and `sort({ createdAt: -1 })` returns newest first;
- Mongoose casts a number or boolean filter value on a String path to its
  string form, so `{ username: 5 }` matches the username "5".

Behaviour of the code worth noting:

- A new account's role defaults to `'admin'` (src/models/admin.model.js:14).
- registerAdmin reads only `username`, `password` and `email` from the
  body; any other field, a role among them, is ignored.
- Login tells an unknown account ("User does not exist!") apart from a
  wrong password ("Incorrect user password!")
  (src/controllers/user.controllers.js:81-89).
- The refresh-rotation, change-password and token-validation handlers that
  the admin routes import are not defined in src/controllers/user.controllers.js.
- logoutAdmin builds a `findByIdAndUpdate` query but never awaits or
  executes it. `LogoutAdmin` therefore leaves the store untouched; this is
  a row under "## Findings", and `LogoutAdminIntended` clears the slot as
  the handler evidently intends.
- The gallery and newsletter controllers import `deleteFromCloudinary` from
  src/utils/cloudinary.js, which exports only `uploadOnCloudinary`. The model
  takes the binding to be undefined, so every call of it throws a TypeError.
  The gallery handlers and deleteNewsletter catch that error, and their
  models record the URLs they try to hand over. updateNewsletter does not
  catch it: with a file and a current media it can never succeed. This is a
  row under "## Findings".

## Model

| member | source | states |
|---|---|---|
| ApiErrors.NewApiError | src/utils/apiError.js:13-25 | each missing argument takes its default (500, "Something went wrong", no errors); `success` is false and `data` is null |
| ApiErrors.Defaults | src/utils/apiError.js:13-19 | with no arguments the error is a 500 "Something went wrong" with an empty errors list |
| ApiErrors.ToJson | src/utils/apiError.js:39-47 | toJSON copies success, statusCode, message and data, and leaves `errors` out exactly when the list is empty |
| ApiErrors.ToJsonRoundTrip | src/utils/apiError.js:39-47 | reading the JSON form back gives the same error, so toJSON loses nothing |
| ApiErrors.ConstructedJsonIsFailure | src/utils/apiError.js:13-47 | every constructed error serialises with success false and data null |
| AdminModel.CompareHash | src/models/admin.model.js:18-23 | a password compares equal to its own hash, whatever the salt |
| AdminModel.CompareOnlyHashed | src/models/admin.model.js:18-23 | a successful comparison means the stored value is a hash of exactly that candidate; a clear-text stored value never compares |
| AdminModel.Sanitize | src/middleware/auth.middleware.js:17 | the identity keeps id, username, email and role and drops password and refresh token |
| AdminModel.WithoutPassword | src/controllers/user.controllers.js:54-56 | the profile keeps every field except the password |
| AdminModel.AdminDocument.Record | src/models/admin.model.js:4-15 | the record holds exactly the document's fields |
| AdminModel.AdminDocument.Create | src/models/admin.model.js:14 | a new document has the default role 'admin', no refresh token, and a modified password path |
| AdminModel.AdminDocument.Load | src/controllers/user.controllers.js:11 | a loaded document holds the stored record, with nothing modified |
| AdminModel.AdminDocument.SetRefreshToken | src/controllers/user.controllers.js:15 | only the refresh token changes; the password path stays unmodified |
| AdminModel.AdminDocument.PreSave | src/models/admin.model.js:18-23 | the password is replaced by its hash exactly when its path was modified; otherwise nothing changes |
| AdminModel.CreateAndSave | src/models/admin.model.js:14-23 | a created and saved account stores the hash of the submitted password with the default role, and that password compares equal |
| AdminModel.SaveRefreshToken | src/controllers/user.controllers.js:11-16 | saving after a refresh-token change keeps the stored hash as it was, not hashed again |
| Auth.ExtractToken | src/middleware/auth.middleware.js:8 | a non-empty cookie wins; otherwise a token exists exactly when an Authorization header exists |
| Auth.BearerHeaderYieldsToken | src/middleware/auth.middleware.js:8 | a "Bearer " header with no cookie, or with an empty cookie, yields exactly the token |
| Auth.PlainHeaderUnchanged | src/middleware/auth.middleware.js:8 | a header that never contains "Bearer " is used unchanged |
| Auth.OnlyFirstBearerRemoved | src/middleware/auth.middleware.js:8 | only the first "Bearer " is removed: "Bearer Bearer abc" yields "Bearer abc" |
| Auth.FindAccount | src/middleware/auth.middleware.js:17 | undefined and null find nothing; a value that is not an ObjectId raises a CastError; a valid id finds exactly the account stored under it |
| Auth.Authenticate | src/middleware/auth.middleware.js:7-27 | every failure is a 401 with a non-empty message; the verifier's own message is passed on; success holds exactly for a valid token whose subject is a stored account, and yields that account sanitized |
| Auth.DeletedAccountRefused | src/middleware/auth.middleware.js:17-22 | a correctly signed token for an account that no longer exists gets 401 "Invalid Access Token!" |
| Auth.Request.VerifyJwt | src/middleware/auth.middleware.js:6-29 | on success `req.user` is the sanitized account and `next` runs once; on failure neither happens and the 401 is returned |
| Auth.CheckUserRole | src/middleware/auth.middleware.js:31-38 | passes exactly for roles admin and contentManager; 401 with no user or an empty role; 403 for any other role |
| Auth.CheckAdmin | src/middleware/auth.middleware.js:40-44 | passes exactly for role admin; 403 for any other role; with no user, reading `role` raises a TypeError |
| Auth.RoleGateSeparatesStatuses | src/middleware/auth.middleware.js:31-38 | the role check answers 401 exactly when there is no usable identity and 403 exactly when the role is foreign |
| Auth.AdminGateImpliesRoleGate | src/middleware/auth.middleware.js:31-44 | whoever passes checkAdmin passes checkUserRole |
| Auth.ContentManagerOnlyPassesRoleGate | src/middleware/auth.middleware.js:31-44 | a content manager passes checkUserRole but gets 403 from checkAdmin |
| Auth.DefaultRolePassesBothGates | src/models/admin.model.js:14 | an account with the default role passes both gates once it is the request's user |
| Strings.TrimEmptyIff | src/controllers/user.controllers.js:30 | a string trims to "" exactly when every character is ECMAScript whitespace |
| Strings.TrimStartShape | src/controllers/user.controllers.js:30 | trimming the start leaves a suffix of the string, drops only whitespace, and the rest does not start with whitespace |
| Strings.TrimEndShape | src/controllers/user.controllers.js:30 | trimming the end leaves a prefix of the string, drops only whitespace, and the rest does not end with whitespace |
| Strings.JoinSplit | src/controllers/faculty.controller.js:17 | splitting on a character and joining with it again gives back the string |
| Media.PublicId | src/controllers/faculty.controller.js:17 | the public id has no '/' or '.' and starts right after the URL's last '/' |
| Media.PublicIdDetermined | src/controllers/event.controller.js:23 | any slash-free, dot-free segment that starts after the last '/' and ends where a '.' follows or the URL ends is the public id |
| Media.DeleteMediaOrSkip | src/controllers/faculty.controller.js:15-19 | an empty URL sends nothing; otherwise the public id is sent and a host failure propagates |
| Media.DeleteMediaOrThrow | src/controllers/event.controller.js:17-29 | an empty URL throws 400 and sends nothing; a host failure becomes a 500 after the public id was sent |
| Collections.FindIndex | src/controllers/faculty.controller.js:122 | the result is the first index whose element satisfies the predicate, and None exactly when no element does |
| Collections.RemoveAt | src/controllers/faculty.controller.js:127 | removes exactly the element at the index, keeps the others in order, and keeps the multiset minus that element |
| Collections.Filter | src/controllers/register.controller.js:59 | every element kept satisfies the predicate and comes from the input, every input element that satisfies it is kept, and the result is empty exactly when none does |
| Collections.FilterCounts | src/controllers/register.controller.js:59 | each element that satisfies the predicate is kept as often as the input holds it, and no other element is kept |
| Collections.FilterAppend | src/controllers/register.controller.js:59 | filtering keeps the input's order: filtering a concatenation concatenates the filtered parts |
| Collections.SortNewestFirst | src/controllers/event.controller.js:75 | the result is newest first and a permutation of the input |
| Collections.SortedEmptyIff | src/controllers/gallery.controller.js:55-56 | the sorted list is empty exactly when the input is empty |
| UserController.AnyTrimmedEmpty | src/controllers/user.controllers.js:30 | true means some present string trims to ""; false exactly when every field is absent or trims to something non-empty |
| UserController.TrimmedEmptyIffBlank | src/controllers/user.controllers.js:30-32 | for absent or string fields, the 400 check fires exactly when some present field is all whitespace |
| UserController.NonBlankFieldsPass | src/controllers/user.controllers.js:30-32 | three non-blank strings pass the blank check |
| UserController.AdminStore.constructor | src/models/admin.model.js:25 | the collection starts empty and valid |
| UserController.NumericQueryMatchesItsDigits | src/controllers/user.controllers.js:76-78 | a numeric filter value matches exactly the username that prints it in decimal, whose digits read back to the number |
| Js.DecimalRoundTrip | src/controllers/user.controllers.js:76-78 | the decimal form of a number reads back to that number, so no two numbers cast to the same string |
| UserController.AdminStore.FindOne | src/controllers/user.controllers.js:34-41 | the match found satisfies the username-or-email filter, with numbers and booleans cast to strings, and nothing is found exactly when no account does |
| UserController.AdminStore.RegisterAdmin | src/controllers/user.controllers.js:27-66 | the TypeError of `trim` on a non-string field; 400 for a present blank field; 409 with no record created when the username or email is taken; the schema's ValidationError when username or password is not a string (absent or null); success exactly when none of these applies, adding one hashed account returned without its password (HTTP 201, envelope 200) |
| UserController.AdminStore.IssueTokens | src/controllers/user.controllers.js:8-24 | overwrites the account's single refresh slot with the new refresh token and returns the pair; otherwise 500 with nothing changed |
| UserController.AdminStore.LoginAdmin | src/controllers/user.controllers.js:68-116 | 400 without username or email; 401 "User does not exist!" exactly when nothing matches; bcrypt's "Illegal arguments" Error for a non-string password; 401 "Incorrect user password!" on a mismatch; the 500 token failure when issuance fails; on success the slot holds the refresh token also sent in the body and in an httpOnly, secure cookie |
| UserController.AdminStore.LogoutAdmin | src/controllers/user.controllers.js:118-144 | a TypeError when there is no user; otherwise 200 with empty data and both cookies cleared httpOnly and secure |
| UserController.AdminStore.ClearRefreshToken | src/controllers/user.controllers.js:120-128 | the update logout evidently intends (`$unset` of the token): only that account's refresh token is cleared, and the store stays valid |
| UserController.AdminStore.LogoutAdminIntended | src/controllers/user.controllers.js:118-144 | logout with the update awaited: the same reply, and the caller's refresh slot is cleared with nothing else changed |
| UserController.TokenSurvivesLogoutAsWritten | src/controllers/user.controllers.js:120-128 | after logout as written, the account's refresh slot still holds its token |
| UserController.TokenClearedIntended | src/controllers/user.controllers.js:120-128 | after the intended logout, the refresh slot is empty |
| UserController.LoginAfterRegistration | src/controllers/user.controllers.js:68-116 | an account stored by registration logs in with its own username and password, and its refresh slot takes the new token |
| UserController.RegisterThenLogin | src/controllers/user.controllers.js:27-116 | registering a fresh admin and then logging in with those credentials succeeds both times and leaves the new refresh token in the slot |
| FacultyController.ParseKind | src/controllers/faculty.controller.js:28-30 | only "head" and "member" are accepted |
| FacultyController.WithSection | src/controllers/faculty.controller.js:42 | replaces the addressed list and leaves the other list alone |
| FacultyController.AppendMember | src/controllers/faculty.controller.js:41-42 | appends to the addressed list of the document, or of a fresh empty document; the other list is unchanged |
| FacultyController.MergeFalsyIsIdentity | src/controllers/faculty.controller.js:91-96 | a body of falsy values and no new image leaves the member unchanged |
| FacultyController.MergeTakesTruthy | src/controllers/faculty.controller.js:91-96 | each truthy field replaces the old one, a new image replaces the old image, and the id is kept |
| FacultyController.MergeIdempotent | src/controllers/faculty.controller.js:91-96 | applying the same update twice equals applying it once |
| FacultyController.FindAppended | src/controllers/faculty.controller.js:42-75 | an appended member with a fresh id is what a later lookup finds, at the end |
| FacultyController.AddThenDeleteRestores | src/controllers/faculty.controller.js:42-127 | deleting a just-added member gives the list back unchanged |
| FacultyController.FacultyStore.constructor | src/models/faculty.model.js:28 | no faculty document and no destroyed media at the start |
| FacultyController.FacultyStore.AddFacultyMember | src/controllers/faculty.controller.js:22-46 | the admin check, then 400 for an invalid type or missing fields, then the TypeError of a failed upload and 500 for an empty upload URL, with nothing stored; otherwise the member is appended with the uploaded image and 201 answers `{ faculty }` |
| FacultyController.FacultyStore.GetAllFaculties | src/controllers/faculty.controller.js:49-56 | 404 exactly when there is no faculty document; otherwise 200 with `{ faculty }` holding that document |
| FacultyController.FacultyStore.UpdateFacultyMember | src/controllers/faculty.controller.js:59-105 | 404s for a missing document or member; with a file, the TypeError of a failed upload and 500 for an empty upload URL, with nothing saved; otherwise the merged member replaces the old one in place; the old image is destroyed only after the save and only when a file was uploaded, and its failure is thrown after the save; success answers `{ faculty }` |
| FacultyController.FacultyStore.DeleteFacultyMember | src/controllers/faculty.controller.js:108-135 | the found member is spliced out, the rest keep their order, and its image is sent for destruction, whose failure is thrown after the save; success answers `{ faculty }` |
| GalleryController.GateReply | src/controllers/gallery.controller.js:10-16 | a refused role becomes a reply with the error's status, or 500, and its message |
| GalleryController.GateAnswersWithItsStatus | src/controllers/gallery.controller.js:10-16 | the gate's refusal is answered with 401 or 403 and the gate's message, not thrown |
| GalleryController.FeaturedRules | src/controllers/gallery.controller.js:43-124 | true and 'true' feature an item; false and 'false' clear it; anything else keeps the old flag; on a new item the two rules agree |
| GalleryController.OtherStringsKeepFeatured | src/controllers/gallery.controller.js:43-124 | a truthy string other than 'true' does not feature a new item and does not change an existing one |
| GalleryController.CreateImage | src/controllers/gallery.controller.js:28-38 | a body URL wins over a file; with neither, 400; a failed upload raises the TypeError of reading `url`; an upload without a URL, 400 "Error while uploading image!" |
| GalleryController.CaptionReplacedTitleKept | src/controllers/gallery.controller.js:122-125 | any defined caption, even "", replaces the old one, while an empty title or category keeps the old value |
| GalleryController.EmptyUpdateKeepsFields | src/controllers/gallery.controller.js:122-126 | an update that gives nothing and keeps the image leaves the item as it was |
| GalleryController.UpdateImage | src/controllers/gallery.controller.js:92-120 | a file replaces the image and sends the old one for deletion; with a file, a failed upload raises the TypeError of reading `url` and an upload without a URL gives 400 "Error while uploading image!"; a different body URL does the same; otherwise the image is kept |
| GalleryController.FileBeatsBodyUrl | src/controllers/gallery.controller.js:94-120 | when a file is uploaded, the body URL is ignored |
| GalleryController.GalleryStore.constructor | src/models/gallery.model.js:14 | the collection starts empty |
| GalleryController.GalleryStore.CreateGallery | src/controllers/gallery.controller.js:9-51 | the role gate is answered, not thrown; 400 without a title; otherwise one item is appended with status 201 |
| GalleryController.GalleryStore.GetAllGalleries | src/controllers/gallery.controller.js:54-61 | 404 exactly when the collection is empty and success exactly when it is not; the success lists every item, newest first |
| GalleryController.GalleryStore.GetGalleryById | src/controllers/gallery.controller.js:64-72 | a CastError for an id that is not an ObjectId; 404 for an unknown id; a known id answers 200 with the first item of that id |
| GalleryController.GalleryStore.UpdateGallery | src/controllers/gallery.controller.js:75-133 | the gate reply, a CastError or a 404 change nothing; otherwise the item is updated in place by the merge and image rules |
| GalleryController.GalleryStore.DeleteGallery | src/controllers/gallery.controller.js:136-161 | the item is removed and its image handed to the deletion helper, whose failure is ignored |
| EventController.Merged | src/controllers/event.controller.js:139-143 | the merge keeps id, category and creation time, and sets the media |
| EventController.UpdateNeverChangesCategory | src/controllers/event.controller.js:127-143 | the category never changes; a falsy description keeps the old one; a truthy location replaces it |
| EventController.NewMedia | src/controllers/event.controller.js:134-135 | the upload's URL when it is non-empty, the old media when it is empty, a TypeError when the upload failed |
| EventController.LookupEvent | src/controllers/event.controller.js:93-100 | a valid id that names an event finds it; otherwise an identifier that is not a valid pattern throws a SyntaxError, and a valid one finds the first event whose title matches; nothing exactly when both searches fail |
| EventController.InvalidIdOnlyBySearch | src/controllers/event.controller.js:93-100 | an identifier that is not an ObjectId can only be found by the title search, and throws exactly when it is not a valid pattern |
| EventController.EventStore.constructor | src/models/event.model.js:31 | no events and no destroyed media at the start |
| EventController.EventStore.CreateEvent | src/controllers/event.controller.js:36-67 | the admin check; 400 unless all five fields and a file are present; the TypeError of reading `url` for a failed upload; 400 for an upload without a URL; success exactly otherwise, appending the event with status 201 |
| EventController.EventStore.GetAllEvents | src/controllers/event.controller.js:74-82 | 404 exactly when there are no events and success exactly when there are some; the success lists all of them, newest first |
| EventController.EventStore.GetEventById | src/controllers/event.controller.js:89-107 | 200 with the event of a valid id that names one; else the SyntaxError of an invalid pattern, 404 exactly when no title matches, or 200 with the first event whose title matches |
| EventController.EventStore.UpdateEvent | src/controllers/event.controller.js:114-149 | 400 for a trimmed id of the wrong format and 404 for an unknown one; with a file, the old media is deleted first and a deletion failure aborts the update; the merge is written in place |
| EventController.EventStore.DeleteEvent | src/controllers/event.controller.js:156-173 | a CastError for an id that is not an ObjectId, 404 for an unknown one; the media deletion's failure is swallowed and the event is removed |
| NewsletterController.LengthWithin | src/controllers/newsletter.controller.js:22-23 | a TypeError exactly for a non-string; true exactly when the length is in range |
| NewsletterController.InputValid | src/controllers/newsletter.controller.js:22-27 | valid exactly when the title is 1..100 characters, the description 1..500, and the date an ISO 8601 string |
| NewsletterController.LongTitleRefused | src/controllers/newsletter.controller.js:22-27 | a 101-character title is refused whatever else the body holds |
| NewsletterController.Merged | src/controllers/newsletter.controller.js:87-90 | the merge keeps id and creation time and sets the media given |
| NewsletterController.MergeIdempotent | src/controllers/newsletter.controller.js:87-90 | applying the same update twice equals applying it once |
| NewsletterController.UploadedMedia | src/controllers/newsletter.controller.js:82-83 | the media becomes the upload's URL, even an empty one, with no fallback |
| NewsletterController.NewsletterStore.constructor | src/models/newsletter.model.js:24 | the collection starts empty |
| NewsletterController.NewsletterStore.CreateNewsletter | src/controllers/newsletter.controller.js:11-45 | role gate first; 400 for missing fields; 400 "Invalid input data!" for bad input; the TypeError of a failed upload and 400 "Error while uploading media file!" for an empty upload URL; success exactly when everything holds and the upload has a URL |
| NewsletterController.NewsletterStore.GetAllNewsletters | src/controllers/newsletter.controller.js:47-56 | 404 exactly when there are none and success exactly when there are some; the success lists all, newest first |
| NewsletterController.NewsletterStore.UpdateNewsletter | src/controllers/newsletter.controller.js:58-97 | as written: role gate; 400 and 404 on the trimmed id; with a file and a current media, the TypeError of the missing deletion helper with nothing saved; with a file and no media, the upload's URL replaces the media unconditionally |
| NewsletterController.NewsletterStore.UpdateNewsletterIntended | src/controllers/newsletter.controller.js:58-97 | as intended: the same, but with a current media the deletion is attempted; its failure aborts, and otherwise the upload's URL replaces the media |
| NewsletterController.MediaUpdateFailsAsWritten | src/controllers/newsletter.controller.js:78-82 | an admin's update with a file of a newsletter that has media fails with the TypeError and keeps the newsletter unchanged |
| NewsletterController.MediaUpdateSucceedsIntended | src/controllers/newsletter.controller.js:78-82 | the same request against the intended handler succeeds and replaces the title and the media |
| NewsletterController.NewsletterStore.DeleteNewsletter | src/controllers/newsletter.controller.js:99-129 | role gate; 400 and 404 on the trimmed id; a deletion failure is ignored and the newsletter is removed |
| RegisterController.FieldValue | src/controllers/register.controller.js:39 | a stored string is read as that string; an absent one as undefined |
| RegisterController.NewRegistration | src/controllers/register.controller.js:37-45 | each body field if truthy, else the account's value (the account has only an email) or the event's title; status "confirmed"; user and event as given |
| RegisterController.EmptyBodyHasNoNameOrPhone | src/controllers/register.controller.js:37-45 | with an empty body the name and phone are left undefined, the event name is the event title, and the email is the account's |
| RegisterController.RoleCheckValue | src/middleware/auth.middleware.js:31-38 | the role check either throws its error or returns undefined |
| RegisterController.UserId | src/controllers/register.controller.js:13 | the user id exists exactly when there is a user with a non-empty id |
| RegisterController.RegisterStore.constructor | src/models/register.model.js:44 | the collection starts empty |
| RegisterController.RegisterStore.CreateRegister | src/controllers/register.controller.js:10-50 | 400 without a user, then 400 for an invalid event id, then 404 for an unknown user or event; otherwise one registration is appended |
| RegisterController.RegisterStore.GetAllRegisterOfEvent | src/controllers/register.controller.js:52-65 | 400 exactly for an invalid event id; a valid one always succeeds with the registrations for that event in stored order (see Collections.Filter, FilterCounts, FilterAppend) |
| RegisterController.RegisterStore.RemoveRegisterOfEvent | src/controllers/register.controller.js:67-81 | removes the registration whose own id is the parameter; 400 for an invalid id; 404 when none has it |
| RegisterController.RegisterStore.RemoveAllRegister | src/controllers/register.controller.js:83-92 | always fails, with 401 or 403 from the role check or 403 "no permission", and never deletes anything |
| RegisterController.RegisterStore.RemoveAllRegisterIntended | src/controllers/register.controller.js:83-92 | staff pass the role check and every registration is deleted |
| RegisterController.RegisterStore.GetRegisterByUser | src/controllers/register.controller.js:94-110 | 401 exactly without a user id; otherwise that user's registrations, with an empty list and "No registers found!" when there are none |
| RegisterController.RoleCheckNeverTruthy | src/controllers/register.controller.js:85-88 | the role check never returns a truthy value |
| RegisterController.AdminRefusedAsWritten | src/controllers/register.controller.js:83-92 | an admin with one registration on file gets 403, and the registration stays |
| RegisterController.AdminClearsIntended | src/controllers/register.controller.js:83-92 | the same request against the corrected handler succeeds and leaves no registrations |
| RegisterController.CreatedIsListed | src/controllers/register.controller.js:59-101 | a registration just written is listed for its user and for its event |
| FeedbackController.Projection | src/controllers/feedback.controller.js:28-36 | echoes message, anonymous and rating; the user is null exactly when anonymous is truthy, and otherwise the requester's username and email |
| FeedbackController.Populate | src/controllers/feedback.controller.js:46-47 | the listed entry keeps the projected fields; its user is the stored author's username and email, or null when the account is gone |
| FeedbackController.PopulateAll | src/controllers/feedback.controller.js:46-48 | every entry of the list is populated, in the same order |
| FeedbackController.AnonymityOnlyInTheAnswer | src/controllers/feedback.controller.js:21-47 | anonymous feedback hides its author in the answer, but the staff listing still shows the author |
| FeedbackController.NoEventNeverListed | src/controllers/feedback.controller.js:95 | feedback that records no event is never found by an event id |
| FeedbackController.ByEventListsOnlyThatEvent | src/controllers/feedback.controller.js:95-97 | the per-event list is newest first, holds only that event's feedback, and holds all of it |
| FeedbackController.FeedbackStore.constructor | src/models/feedback.model.js:38 | the collection starts empty and valid |
| FeedbackController.FeedbackStore.AddFeedback | src/controllers/feedback.controller.js:10-41 | 400 for a falsy message or rating, checked before the 401 for a missing user; the stored feedback always has the author's id and no event |
| FeedbackController.FeedbackStore.GetAllFeedback | src/controllers/feedback.controller.js:43-55 | role gate first; 404 exactly when there is none; otherwise all of it, newest first and populated |
| FeedbackController.FeedbackStore.DeleteFeedback | src/controllers/feedback.controller.js:57-75 | role gate; 400 for a missing id, then for a malformed one; 404 when none has it; otherwise exactly that entry is removed |
| FeedbackController.FeedbackStore.DeleteAllFeedback | src/controllers/feedback.controller.js:77-83 | role gate; then the collection is emptied |
| FeedbackController.FeedbackStore.GetFeedbackByEvent | src/controllers/feedback.controller.js:85-104 | role gate; 400 for an invalid event id; 404 when nothing matches, which is always the case in a store that only addFeedback wrote |

## Left out

- UserController.AdminStore.ClearRefreshToken: models the intended clearing of the refresh slot, not the literal `{ $set: { refreshToken: undefined } }`. Mongoose 6 and later strip `undefined` keys from an update, which leaves an empty update and the slot as it was; only Mongoose 5 sends the key as null and clears it. The Mongoose version is not part of this model, so awaiting the query alone may not fix logout, and LogoutAdminIntended stands for the update with `$unset` (or `null`).
- Schema validation of the content models is not modelled: required fields, enums, regexes, casting and the `trim`/`lowercase` setters.
  - The event schema requires `time` and `content`, which createEvent never supplies. Every `Event.create` would therefore be refused by Mongoose.
  - The feedback schema requires `event`, which addFeedback never sets.
  - The gallery schema declares neither `category`, `featured`, `imageUrl` nor `caption`.
  - The admin schema's required username and password are modelled, as one ValidationError with the message "Admin validation failed"; Mongoose's message also names the failing paths, which the model drops.
- Undeclared admin fields are treated as declared: `email`, `refreshToken`, `generateAccessToken`, `generateRefreshToken` and `isPasswordCorrect`. Without this, nothing in the session handlers could be stated.
- JWT signing and verification, bcrypt's algorithm and salts are abstract functions and parameters.
- Network and file-system work is left out: the Cloudinary upload and destroy calls, and `fs.unlinkSync`. Upload answers and destroy success are parameters.
- Awaiting, concurrency and the un-awaited `user.save` in the token helper are not modelled. Each handler runs to completion, atomically.
- Express routing, `asyncHandler`, the error-forwarding middleware and the HTTP serialisation of a thrown error are not modelled. The model ends at the value a handler sends or throws.
- src/controllers/upload.controller.js and src/controllers/admin.controller.js are not part of this model, nor is logging (`logSuspiciousActivity`, `console.error`).
- `populate` in getAllRegisterOfEvent and getRegisterByUser, and `.lean()`, are not modelled. Those lists are returned as stored.
- ObjectId normalisation is not modelled: ids are compared as exact strings.
- Collections.SortNewestFirst: among equal timestamps, later-inserted records come first. The database leaves that order unspecified, so the contract states only newest-first order and permutation.
- UserController.AdminStore.FindOne: when the username matches one account and the email another, either may be found. The accounts are a map, and a `findOne` without a sort promises no order; a server usually returns the earlier-inserted one. UserController.AdminStore.LoginAdmin inherits this.
- Request values are JavaScript primitives only: nested objects and arrays that `express.json` can produce are not modelled. This includes operator objects such as `{ "$ne": null }`, which as a login username would match every account. Numbers are integers: fractions, NaN and the exponent form of large numbers are not modelled.
- EventController.LookupEvent: the SyntaxError of an invalid pattern carries a fixed message. The engine's message names the pattern and the fault.
- Under native ES modules, the missing `deleteFromCloudinary` export stops the gallery and newsletter controllers from loading at all. The model takes the build in which the missing import is undefined.
- validator's `isLength` counts UTF-16 code units without surrogate pairs. NewsletterController.LengthWithin counts the characters of the Dafny string.
- Auth.FindAccount: a non-string token subject gets a fixed placeholder in its CastError message instead of the value's printed form.
- UserController.AdminStore.RegisterAdmin: unique-index violations at the database level are not modelled. The store's `Valid()` keeps usernames unique, and the requires asks for a fresh id.
- UserController.AdminStore.LoginAdmin: a non-string password raises bcrypt's `Error("Illegal arguments: " + typeof s + ", " + typeof hash)`. The model keeps the exact class `Error` but only the message's prefix "Illegal arguments"; the two type names are dropped.

## Findings

| source | as written | input that shows it | evidently intended | confidence | as-written member | corrected member |
|---|---|---|---|---|---|---|
| src/controllers/newsletter.controller.js:80 | `deleteFromCloudinary` is not exported by src/utils/cloudinary.js, so the call throws a TypeError outside any try: an update with a file of a newsletter that has media always fails and saves nothing | an admin's update, with a new file, of a newsletter whose media is a URL | the old media is destroyed and the upload's URL replaces it | not executed | NewsletterController.NewsletterStore.UpdateNewsletter, NewsletterController.MediaUpdateFailsAsWritten | NewsletterController.NewsletterStore.UpdateNewsletterIntended, NewsletterController.MediaUpdateSucceedsIntended |
| src/controllers/user.controllers.js:120-128 | the `findByIdAndUpdate` that clears the refresh token is built but never awaited or executed, so logout leaves the refresh token in the account | an account holding refresh token "t1" logs out | logout clears the account's refresh slot | not executed | UserController.AdminStore.LogoutAdmin, UserController.TokenSurvivesLogoutAsWritten | UserController.AdminStore.LogoutAdminIntended, UserController.TokenClearedIntended |
| src/controllers/register.controller.js:85-90 | `checkUserRole(req)` returns undefined when the role is allowed, so `!hasRole` is always true and the handler answers 403 "You do not have permission to perform this action!" to every admin and content manager; `deleteMany` is never reached | a request whose user has role `admin` while one registration is stored | staff pass the check and every registration is deleted with 200 "All registers deleted successfully!" | not executed | RegisterController.RegisterStore.RemoveAllRegister, RegisterController.AdminRefusedAsWritten | RegisterController.RegisterStore.RemoveAllRegisterIntended, RegisterController.AdminClearsIntended |
