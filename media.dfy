/**
 * The media-host side of the controllers: the public id derived from a stored
 * URL and the two local `deleteFromCloudinary` helpers. The host's `destroy`
 * call itself is remote: the model records which public ids were sent to it
 * and takes whether the call failed as an input.
 */
module Media {
  import opened Outcomes
  import opened Strings
  import opened ApiErrors

  /** `id` starts at index `j` of `url`, right after the last '/', and ends at the first '.' after it. */
  predicate IsPublicIdAt(url: string, id: string, j: int)
  {
    && 0 <= j && j + |id| <= |url| && url[j..j + |id|] == id
    && (j == 0 || url[j - 1] == '/')
    && '/' !in url[j..]
    && (j + |id| == |url| || url[j + |id|] == '.')
  }

  /** `mediaUrl.split('/').pop().split('.')[0]`. */
  function PublicId(url: string): (id: string)
    ensures '/' !in id && '.' !in id
    ensures IsPublicIdAt(url, id, |url| - |LastPart(url, '/')|)
  {
    var last := LastPart(url, '/');
    var id := FirstPart(last, '.');
    PublicIdAtLastPart(url, last, id);
    id
  }

  lemma PublicIdAtLastPart(url: string, last: string, id: string)
    requires |last| <= |url| && last == url[|url| - |last|..] && '/' !in last
    requires |last| < |url| ==> url[|url| - |last| - 1] == '/'
    requires |id| <= |last| && id == last[..|id|]
    requires |id| < |last| ==> last[|id|] == '.'
    ensures IsPublicIdAt(url, id, |url| - |last|)
  {
    var j := |url| - |last|;
    assert url[j..j + |id|] == last[..|id|];
    assert j + |id| < |url| ==> url[j + |id|] == last[|id|];
  }

  /** A character absent from a slice is absent from each of its positions. */
  lemma Absent(s: string, j: int, n: int, c: char)
    requires 0 <= j && 0 <= n && j + n <= |s| && c !in s[j..j + n]
    ensures forall k :: j <= k < j + n ==> s[k] != c
  {
    forall k | j <= k < j + n
      ensures s[k] != c
    {
      assert s[j..j + n][k - j] == s[k];
    }
  }

  /** At most one slash-free, dot-free segment of a URL sits at the end in that position. */
  lemma PublicIdUnique(url: string, id1: string, j1: int, id2: string, j2: int)
    requires '.' !in id1 && IsPublicIdAt(url, id1, j1)
    requires '.' !in id2 && IsPublicIdAt(url, id2, j2)
    ensures j1 == j2 && id1 == id2
  {
    Absent(url, j1, |url| - j1, '/');
    Absent(url, j2, |url| - j2, '/');
    assert j1 == j2;
    Absent(url, j1, |id1|, '.');
    Absent(url, j1, |id2|, '.');
    assert |id1| == |id2|;
  }

  /** PublicId is the only string that is cut out of the URL that way. */
  lemma PublicIdDetermined(url: string, id: string, j: int)
    requires '.' !in id && IsPublicIdAt(url, id, j)
    ensures id == PublicId(url)
  {
    var id0 := PublicId(url);
    PublicIdUnique(url, id, j, id0, |url| - |LastPart(url, '/')|);
  }

  /** The outcome of one call to a local deletion helper: the public ids sent to the host, and whether it threw. */
  datatype Deletion = Deletion(requested: seq<string>, outcome: Outcome<Thrown>)

  const RemoteFailure := Runtime("CloudinaryError", "destroy failed")

  /**
   * deleteFromCloudinary of faculty.controller.js: a falsy URL is a no-op;
   * otherwise the public id is sent to the host and a host failure propagates.
   */
  function DeleteMediaOrSkip(mediaUrl: string, destroyOk: bool): (d: Deletion)
    ensures mediaUrl == "" ==> d == Deletion([], Pass)
    ensures mediaUrl != "" ==> d.requested == [PublicId(mediaUrl)]
    ensures d.outcome.Fail? <==> mediaUrl != "" && !destroyOk
  {
    if mediaUrl == "" then Deletion([], Pass)
    else Deletion([PublicId(mediaUrl)], if destroyOk then Pass else Fail(RemoteFailure))
  }

  /**
   * deleteFromCloudinary of event.controller.js: a falsy URL throws 400; a host
   * failure is turned into a 500.
   */
  function DeleteMediaOrThrow(mediaUrl: string, destroyOk: bool): (d: Deletion)
    ensures mediaUrl == "" ==> d == Deletion([], Fail(Api(Err(400, "No media URL provided for deletion"))))
    ensures mediaUrl != "" ==> d.requested == [PublicId(mediaUrl)]
    ensures mediaUrl != "" && !destroyOk ==> d.outcome == Fail(Api(Err(500, "Error deleting old media from Cloudinary")))
    ensures d.outcome.Pass? <==> mediaUrl != "" && destroyOk
  {
    if mediaUrl == "" then
      Deletion([], Fail(Api(Err(400, "No media URL provided for deletion"))))
    else
      Deletion([PublicId(mediaUrl)], if destroyOk then Pass else Fail(Api(Err(500, "Error deleting old media from Cloudinary"))))
  }
}
