/**
 * The cases service: how a backend reply, or the error thrown instead of it,
 * becomes the `ApiResponse` envelope the pages receive. The HTTP request
 * itself is outside the model; its outcome is the input.
 */
module CasesService {
  import opened Wrappers

  /** The case record the pages work with. */
  datatype Case = Case(
    id: Option<string>,
    title: string,
    description: string,
    mediaCount: int,
    uploadProgress: int,
    status: string,
    createdAt: string)

  /**
   * The fields of a backend case record that the model reads (`_id` is
   * `objectId`): what the case lookup and the creation reply carry, and what
   * each element of the listing is.
   */
  datatype CaseDocument = CaseDocument(
    id: Option<string>,
    objectId: Option<string>,
    title: string,
    description: string,
    evidenceCount: Option<int>,
    status: string,
    createdAt: string)

  /** The body of an error reply: its status code and optional `message` and `error` strings. */
  datatype ErrorReply = ErrorReply(status: int, message: Option<string>, error: Option<string>)

  /** What a request throws: an HTTP-client error, with or without a reply, or anything else. */
  datatype Failure = HttpClientError(reply: Option<ErrorReply>) | OtherError

  /** How a request ended. */
  datatype Outcome<T> = Replied(body: T) | Threw(failure: Failure)

  /** The envelope every service function returns. */
  datatype ApiResponse<T> = ApiResponse(data: T, success: bool, message: Option<string>)

  const CasesFetchFailed: string := "An unexpected error occurred while fetching cases"
  const CaseNotFound: string := "Case not found"
  const CaseFetchFailed: string := "An unexpected error occurred while fetching case"
  const CaseCreateFailed: string := "An unexpected error occurred while creating case"

  /** JavaScript truthiness of an optional string: present and non-empty. */
  predicate Truthy(s: Option<string>) { s.Some? && s.value != [] }

  /** `String(x)` of an optional string: the string, or `"undefined"`. */
  function JsString(s: Option<string>): (r: string)
    ensures s.Some? ==> r == s.value
    ensures s.None? ==> r == "undefined"
  {
    s.GetOr("undefined")
  }

  /** The backend calls an open case "active"; the pages call it "completed". */
  function MapStatus(status: string): (r: string)
    ensures r == "completed" <==> status == "active" || status == "completed"
    ensures status != "active" ==> r == status
  {
    if status == "active" then "completed" else status
  }

  /** `evidence_count || 0`. */
  function MediaCount(evidenceCount: Option<int>): (r: int)
    ensures evidenceCount.Some? ==> r == evidenceCount.value
    ensures evidenceCount.None? ==> r == 0
  {
    evidenceCount.GetOr(0)
  }

  /** The mapping shared by `getCaseById` and `createCase`, given the id each one picks. */
  function ToCase(doc: CaseDocument, id: Option<string>): (c: Case)
    ensures c.id == id && c.title == doc.title && c.description == doc.description
    ensures c.mediaCount == MediaCount(doc.evidenceCount) && c.uploadProgress == 100
    ensures c.status == MapStatus(doc.status) && c.createdAt == doc.createdAt
  {
    Case(id, doc.title, doc.description, MediaCount(doc.evidenceCount), 100, MapStatus(doc.status), doc.createdAt)
  }

  /**
   * `getCases`: the reply's backend records as they come, without the mapping
   * the two other reads apply, or an empty list with a fixed message on any
   * failure.
   */
  function GetCases(outcome: Outcome<seq<CaseDocument>>): (r: ApiResponse<seq<CaseDocument>>)
    ensures r.success <==> outcome.Replied?
    ensures outcome.Replied? ==> r.data == outcome.body && r.message.None?
    ensures outcome.Threw? ==> r.data == [] && r.message == Some(CasesFetchFailed)
  {
    match outcome
    case Replied(docs) => ApiResponse(docs, true, None)
    case Threw(_) => ApiResponse([], false, Some(CasesFetchFailed))
  }

  /** Each record mapped as `getCaseById` maps it, keeping its own id. */
  function MapCases(docs: seq<CaseDocument>): (r: seq<Case>)
    ensures |r| == |docs|
    ensures forall i :: 0 <= i < |docs| ==> r[i] == ToCase(docs[i], docs[i].id)
  {
    seq(|docs|, i requires 0 <= i < |docs| => ToCase(docs[i], docs[i].id))
  }

  /**
   * The listing as the pages need it: `getCases` with every record mapped
   * through `ToCase`, so that no listed case is "active".
   */
  function GetCasesMapped(outcome: Outcome<seq<CaseDocument>>): (r: ApiResponse<seq<Case>>)
    ensures r.success == GetCases(outcome).success && r.message == GetCases(outcome).message
    ensures r.data == MapCases(GetCases(outcome).data)
    ensures forall i :: 0 <= i < |r.data| ==> r.data[i].status != "active"
  {
    var listed := GetCases(outcome);
    ApiResponse(MapCases(listed.data), listed.success, listed.message)
  }

  /** The reply carried by an HTTP-client error, if any. */
  function ReplyOf(f: Failure): Option<ErrorReply> {
    if f.HttpClientError? then f.reply else None
  }

  /** The message `getCaseById` reports for a failure. */
  function FetchErrorMessage(f: Failure): (m: string)
    ensures m != []
    ensures ReplyOf(f).Some? && ReplyOf(f).value.status == 404 ==> m == CaseNotFound
    ensures (ReplyOf(f).None? || ReplyOf(f).value.status != 404) ==>
      m == if ReplyOf(f).Some? && Truthy(ReplyOf(f).value.message) then ReplyOf(f).value.message.value else CaseFetchFailed
  {
    if f.HttpClientError? && f.reply.Some? && f.reply.value.status == 404 then CaseNotFound
    else if f.HttpClientError? && f.reply.Some? && Truthy(f.reply.value.message) then f.reply.value.message.value
    else CaseFetchFailed
  }

  /** `getCaseById`: the mapped case, or no case with the error's message. */
  function GetCaseById(outcome: Outcome<CaseDocument>): (r: ApiResponse<Option<Case>>)
    ensures r.success <==> outcome.Replied?
    ensures r.success <==> r.data.Some?
    ensures outcome.Replied? ==> r.data == Some(ToCase(outcome.body, outcome.body.id)) && r.message.None?
    ensures outcome.Threw? ==> r.message == Some(FetchErrorMessage(outcome.failure))
  {
    match outcome
    case Replied(doc) => ApiResponse(Some(ToCase(doc, doc.id)), true, None)
    case Threw(f) => ApiResponse(None, false, Some(FetchErrorMessage(f)))
  }

  /** `id || String(_id)`. */
  function CreatedId(doc: CaseDocument): (r: string)
    ensures Truthy(doc.id) ==> r == doc.id.value
    ensures !Truthy(doc.id) ==> r == JsString(doc.objectId)
  {
    if Truthy(doc.id) then doc.id.value else JsString(doc.objectId)
  }

  /** The message `createCase` reports for a failure: the reply's `error` field, else a fixed text. */
  function CreateErrorMessage(f: Failure): (m: string)
    ensures m != []
    ensures m == if ReplyOf(f).Some? && Truthy(ReplyOf(f).value.error) then ReplyOf(f).value.error.value else CaseCreateFailed
  {
    if f.HttpClientError? && f.reply.Some? && Truthy(f.reply.value.error) then f.reply.value.error.value
    else CaseCreateFailed
  }

  /** `createCase`: the mapped case, always with an id, or an empty record (`None`) with the error's message. */
  function CreateCase(outcome: Outcome<CaseDocument>): (r: ApiResponse<Option<Case>>)
    ensures r.success <==> outcome.Replied?
    ensures r.success <==> r.data.Some?
    ensures r.success ==> r.data.value.id.Some?
    ensures outcome.Replied? ==> r.data == Some(ToCase(outcome.body, Some(CreatedId(outcome.body))))
    ensures outcome.Threw? ==> r.message == Some(CreateErrorMessage(outcome.failure))
  {
    match outcome
    case Replied(doc) => ApiResponse(Some(ToCase(doc, Some(CreatedId(doc)))), true, None)
    case Threw(f) => ApiResponse(None, false, Some(CreateErrorMessage(f)))
  }

  // ---------------------------------------------------------------- lemmas

  /** Mapping the status twice is mapping it once. */
  lemma MapStatusIdempotent(status: string)
    ensures MapStatus(MapStatus(status)) == MapStatus(status)
  {
  }

  /** A mapped case is never "active": the backend word does not reach the pages. */
  lemma MappedCaseNeverActive(doc: CaseDocument, id: Option<string>)
    ensures ToCase(doc, id).status != "active"
  {
  }

  /** Both mappings agree on everything but the id. */
  lemma MappingsAgree(doc: CaseDocument)
    ensures GetCaseById(Replied(doc)).data.value.(id := None) == CreateCase(Replied(doc)).data.value.(id := None)
  {
  }

  /** A 404 is reported as "Case not found" whatever the reply says. */
  lemma NotFoundWins(message: Option<string>, error: Option<string>)
    ensures GetCaseById(Threw(HttpClientError(Some(ErrorReply(404, message, error))))) ==
      ApiResponse(None, false, Some(CaseNotFound))
  {
  }

  /** Errors that are not HTTP-client errors, or carry no reply, get the generic texts. */
  lemma OpaqueErrorsAreGeneric(f: Failure)
    requires ReplyOf(f).None?
    ensures GetCaseById(Threw(f)).message == Some(CaseFetchFailed)
    ensures CreateCase(Threw(f)).message == Some(CaseCreateFailed)
    ensures GetCases(Threw(f)).message == Some(CasesFetchFailed)
  {
  }

  /** The two lookups read different fields: a reply with only `message` helps `getCaseById`, not `createCase`. */
  lemma ErrorFieldsDiffer(status: int, text: string)
    requires status != 404 && text != []
    ensures GetCaseById(Threw(HttpClientError(Some(ErrorReply(status, Some(text), None))))).message == Some(text)
    ensures CreateCase(Threw(HttpClientError(Some(ErrorReply(status, Some(text), None))))).message == Some(CaseCreateFailed)
  {
  }

  /** Without `id` (or with an empty one), the created case is named by `String(_id)`. */
  lemma CreatedIdFallback(doc: CaseDocument)
    requires doc.id.None? || doc.id == Some("")
    ensures CreateCase(Replied(doc)).data.value.id == Some(JsString(doc.objectId))
    ensures doc.objectId.None? ==> CreateCase(Replied(doc)).data.value.id == Some("undefined")
  {
  }
}
