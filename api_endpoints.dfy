/**
 * The REST path builders of `API_ENDPOINTS`: constant paths and one-line string
 * constructors. The deployment's base URL is configuration and is not modelled.
 */
module ApiEndpoints {
  import opened Wrappers

  // ---------------------------------------------------------------- cases

  const CasesGetAll: string := "/search/cases"
  const CasesCreate: string := "/search/cases"
  const CasesPrefix: string := "/search/cases/"

  function CasesGetById(id: string): (r: string)
    ensures |r| == |CasesPrefix| + |id|
    ensures r[..|CasesPrefix|] == CasesPrefix && r[|CasesPrefix|..] == id
  {
    "/search/cases/" + id
  }

  function CasesUpdate(id: string): (r: string)
    ensures |r| == |CasesPrefix| + |id|
    ensures r[..|CasesPrefix|] == CasesPrefix && r[|CasesPrefix|..] == id
  {
    "/search/cases/" + id
  }

  function CasesDelete(id: string): (r: string)
    ensures |r| == |CasesPrefix| + |id|
    ensures r[..|CasesPrefix|] == CasesPrefix && r[|CasesPrefix|..] == id
  {
    "/search/cases/" + id
  }

  /** Reading, updating and deleting a case address the same resource path. */
  lemma CaseItemPathsAgree(id: string)
    ensures CasesGetById(id) == CasesUpdate(id) == CasesDelete(id)
    ensures CasesGetById(id) == CasesGetAll + "/" + id
  {
  }

  /** Listing and creating cases share one collection path. */
  lemma CaseCollectionPathsAgree()
    ensures CasesGetAll == CasesCreate
    ensures CasesGetById("") == CasesGetAll + "/"
  {
  }

  /** Distinct case ids give distinct case paths. */
  lemma CaseItemPathInjective(a: string, b: string)
    requires CasesGetById(a) == CasesGetById(b)
    ensures a == b
  {
    assert a == CasesGetById(a)[|CasesPrefix|..];
  }

  // ----------------------------------------------------------------- chat

  function ChatGetMessages(caseId: string): (r: string)
    ensures |r| == 12 + |caseId|
    ensures r[..11] == "/chat/case/" && r[11..|r| - 1] == caseId && r[|r| - 1] == '/'
  {
    "/chat/case/" + caseId + "/"
  }

  function ChatSendMessage(caseId: string): (r: string)
    ensures |r| == 20 + |caseId|
    ensures r[..11] == "/chat/case/" && r[11..|r| - 9] == caseId && r[|r| - 9..] == "/message/"
  {
    "/chat/case/" + caseId + "/message/"
  }

  /** The send path is the history path followed by `message/`. */
  lemma SendExtendsHistory(caseId: string)
    ensures ChatSendMessage(caseId) == ChatGetMessages(caseId) + "message/"
  {
  }

  // ------------------------------------------------------------- evidence

  const EvidenceUpload: string := "/evidence/cases/upload/"
  const EvidenceGDriveUpload: string := "/evidence/gdrive/upload"
  const EvidenceVideos: string := "/evidence/videos/"

  /** `GET_ALL(mediaType?)`: the query string is added only for a truthy (non-empty) type. */
  function EvidenceGetAll(mediaType: Option<string>): (r: string)
    ensures |r| >= |EvidenceVideos|
    ensures r[..|EvidenceVideos|] == EvidenceVideos
    ensures (mediaType == None || mediaType == Some("")) ==> r == EvidenceVideos
    ensures mediaType.Some? && mediaType.value != "" ==>
      r[|EvidenceVideos|..] == "?media_type=" + mediaType.value
  {
    match mediaType
    case Some(t) => if t != "" then "/evidence/videos/" + "?media_type=" + t else "/evidence/videos/"
    case None => "/evidence/videos/"
  }

  function EvidenceDelete(videoId: string): (r: string)
    ensures |r| == |EvidenceVideos| + |videoId| + 1
    ensures r[..|EvidenceVideos|] == EvidenceVideos
    ensures r[|EvidenceVideos|..|r| - 1] == videoId
    ensures r[|r| - 1] == '/'
  {
    "/evidence/videos/" + videoId + "/"
  }

  /** Distinct evidence ids give distinct delete paths. */
  lemma EvidenceDeleteInjective(a: string, b: string)
    requires EvidenceDelete(a) == EvidenceDelete(b)
    ensures a == b
  {
    var ra := EvidenceDelete(a);
    assert a == ra[|EvidenceVideos|..|ra| - 1];
  }
}
