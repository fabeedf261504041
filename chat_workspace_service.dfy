/**
 * The chat-workspace service: conversation history, message sending,
 * the evidence list and case metadata, all answered from demo data except the
 * metadata, which first asks the cases service.
 *
 * The demo message arrays are static data; the model names them by the
 * `DemoHistory` token instead of transcribing them. The clock readings a
 * sent message carries are parameters.
 */
module ChatWorkspaceService {
  import opened Wrappers
  import opened CasesService
  import Strings
  import opened EvidenceList

  // --------------------------------------------------------------- history

  /** The three pre-seeded conversations. */
  datatype DemoHistory = TrafficMessages | IntersectionMessages | DefaultMessages

  const TrafficCaseId: string := "demo-traffic-case"
  const IntersectionCaseId: string := "demo-intersection-case"

  /** The two case ids with a conversation of their own. */
  const MessageMap: map<string, DemoHistory> :=
    map[TrafficCaseId := TrafficMessages, IntersectionCaseId := IntersectionMessages]

  /** `getMessages`: the conversation seeded for the case, else the default one; never a failure. */
  function GetMessages(caseId: string): (r: ApiResponse<DemoHistory>)
    ensures r.success && r.message.None?
    ensures r.data == TrafficMessages <==> caseId == TrafficCaseId
    ensures r.data == IntersectionMessages <==> caseId == IntersectionCaseId
    ensures r.data == DefaultMessages <==> caseId != TrafficCaseId && caseId != IntersectionCaseId
  {
    ApiResponse(if caseId in MessageMap then MessageMap[caseId] else DefaultMessages, true, None)
  }

  // -------------------------------------------------------------- sending

  datatype Role = User | Ai

  /** A chat message, with the fields this model reads (tables and citations are left out). */
  datatype Message = Message(
    id: string,
    role: Role,
    content: string,
    timestamp: Option<string>,
    media: Option<seq<MediaItem>>)

  /** An attachment of a message: an uploaded file as the chat shows it. */
  datatype MediaItem = MediaItem(
    kind: MediaType,
    url: string,
    description: string,
    filename: string,
    fileSize: int,
    evidenceId: string)

  /**
   * `sendMessage`: a user message holding exactly the payload's content. Its
   * id is `Date.now()` in decimal and its timestamp the local clock time;
   * both are inputs here.
   */
  function SendMessage(content: string, now: nat, clockTime: string): (r: ApiResponse<Message>)
    ensures r.success && r.message.None?
    ensures r.data.role == User && r.data.content == content && r.data.media.None?
    ensures r.data.id == Strings.NatToString(now) && r.data.timestamp == Some(clockTime)
  {
    ApiResponse(Message(Strings.NatToString(now), User, content, Some(clockTime), None), true, None)
  }

  // ------------------------------------------------------------- evidence

  /**
   * `getEvidenceFiles`: the mock evidence list, whatever the case. The list is
   * static data and is passed in as `mock`.
   */
  function GetEvidenceFiles<F>(caseId: string, mock: seq<F>): (r: ApiResponse<seq<F>>)
    ensures r.success && r.message.None?
    ensures r.data == mock
  {
    ApiResponse(mock, true, None)
  }

  /** `deleteEvidenceFile`: `{data: null, success: true}`; `()` stands for `null`. */
  function DeleteEvidenceFile(caseId: string, evidenceId: string): (r: ApiResponse<()>)
    ensures r.success && r.message.None?
  {
    ApiResponse((), true, None)
  }

  // -------------------------------------------------------- case metadata

  /** The title and evidence-count label the workspace header shows. */
  datatype CaseMeta = CaseMeta(title: string, evidenceCount: string)

  const CaseMetaTable: map<string, CaseMeta> := map[
    TrafficCaseId := CaseMeta("Highway Traffic Analysis - Route 66", "1 video file"),
    IntersectionCaseId := CaseMeta("Intersection Surveillance - Main St & 5th Ave", "1 video file")]

  const DefaultCaseMeta: CaseMeta := CaseMeta("State v. Anderson - Robbery Investigation", "47 evidence files")

  /** The label for a case the backend knows: its media count followed by " analyzed". */
  function AnalyzedLabel(mediaCount: int): (r: string)
    ensures |r| > 9 && r[..|r| - 9] == Strings.IntToString(mediaCount) && r[|r| - 9..] == " analyzed"
  {
    Strings.IntToString(mediaCount) + " analyzed"
  }

  /**
   * `getCaseMeta`: ask `getCaseById` (whose request ends with `lookup`); on a
   * found case, its title and count; otherwise the demo table's entry, else
   * the default. It always reports success.
   */
  function GetCaseMeta(caseId: string, lookup: Outcome<CaseDocument>): (r: ApiResponse<CaseMeta>)
    ensures r.success && r.message.None?
    ensures lookup.Replied? ==>
      r.data == CaseMeta(lookup.body.title, AnalyzedLabel(MediaCount(lookup.body.evidenceCount)))
    ensures lookup.Threw? ==>
      r.data == if caseId in CaseMetaTable then CaseMetaTable[caseId] else DefaultCaseMeta
  {
    var found := GetCaseById(lookup);
    if found.success && found.data.Some? then
      ApiResponse(CaseMeta(found.data.value.title, AnalyzedLabel(found.data.value.mediaCount)), true, None)
    else
      ApiResponse(if caseId in CaseMetaTable then CaseMetaTable[caseId] else DefaultCaseMeta, true, None)
  }

  // ---------------------------------------------------------------- lemmas

  /** Exactly the cases with a conversation of their own have metadata of their own. */
  lemma SeededCasesAgree(caseId: string)
    ensures GetMessages(caseId).data != DefaultMessages <==> caseId in CaseMetaTable
  {
  }

  /** A failed lookup of a seeded case falls back to that case's own entry, never to the default. */
  lemma SeededFallback(caseId: string, f: Failure)
    requires GetMessages(caseId).data != DefaultMessages
    ensures GetCaseMeta(caseId, Threw(f)).data != DefaultCaseMeta
    ensures GetCaseMeta(caseId, Threw(f)).data.evidenceCount == "1 video file"
  {
  }

  /** The count label of a found case reads back as its media count. */
  lemma AnalyzedLabelInjective(a: int, b: int)
    requires AnalyzedLabel(a) == AnalyzedLabel(b)
    ensures a == b
  {
    var la, lb := AnalyzedLabel(a), AnalyzedLabel(b);
    assert Strings.IntToString(a) == la[..|la| - 9];
    assert Strings.IntToString(b) == lb[..|lb| - 9];
    if a < 0 {
      assert Strings.IntToString(a)[1..] == Strings.NatToString(-a);
      assert Strings.IntToString(b)[1..] == Strings.NatToString(-b);
      Strings.NatToStringInjective(-a, -b);
    } else {
      Strings.NatToStringInjective(a, b);
    }
  }

  /** A found case's metadata ignores the demo table, even for a seeded case id. */
  lemma FoundCaseWins(doc: CaseDocument)
    ensures GetCaseMeta(TrafficCaseId, Replied(doc)).data.title == doc.title
    ensures doc.evidenceCount.None? ==> GetCaseMeta(TrafficCaseId, Replied(doc)).data.evidenceCount == "0 analyzed"
  {
  }

  /** Sending keeps the content as given and makes no other use of it. */
  lemma SendMessageClockOnly(content: string, now1: nat, now2: nat, t1: string, t2: string)
    ensures SendMessage(content, now1, t1).data.(id := "", timestamp := None) ==
            SendMessage(content, now2, t2).data.(id := "", timestamp := None)
    ensures now1 != now2 ==> SendMessage(content, now1, t1).data.id != SendMessage(content, now2, t2).data.id
  {
    if now1 != now2 && Strings.NatToString(now1) == Strings.NatToString(now2) {
      Strings.NatToStringInjective(now1, now2);
    }
  }

  /** The evidence list does not depend on the case. */
  lemma EvidenceIgnoresCase<F>(a: string, b: string, mock: seq<F>)
    ensures GetEvidenceFiles(a, mock) == GetEvidenceFiles(b, mock)
  {
  }
}
