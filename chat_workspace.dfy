/**
 * The chat workspace page: the conversation with its optimistic sends, the
 * expanded citation lists, the attachments waiting for the next message and
 * the single-slot source viewer.
 *
 * Each handler is one atomic step. The two asynchronous handlers are split at
 * their `await`: `BeginSend`/`CompleteSend` and `BeginUpload`/`CompleteUpload`.
 * The optimistic message the send's closure keeps is the `pending` field.
 * Backend replies and clock readings are parameters.
 */
module ChatWorkspace {
  import opened Wrappers
  import opened Strings
  import Seqs
  import opened EvidenceList
  import opened CasesService
  import opened ChatWorkspaceService

  // ------------------------------------------------------------ file types

  /** `filename.split(".").pop()`: the text after the last dot, or the whole name. */
  function LastSegment(s: string): (r: string)
    ensures |r| <= |s| && r == s[|s| - |r|..]
    ensures forall i :: 0 <= i < |r| ==> r[i] != '.'
    ensures |r| < |s| ==> s[|s| - |r| - 1] == '.'
  {
    if s == [] then []
    else if s[|s| - 1] == '.' then []
    else
      var init := s[..|s| - 1];
      var r := LastSegment(init) + [s[|s| - 1]];
      assert init[|init| - (|r| - 1)..] + [s[|s| - 1]] == s[|s| - |r|..];
      r
  }

  const VideoExtensions: seq<string> := ["mp4", "avi", "mov", "mkv", "webm"]
  const ImageExtensions: seq<string> := ["jpg", "jpeg", "png", "gif", "webp", "bmp"]
  const AudioExtensions: seq<string> := ["mp3", "wav", "ogg", "m4a", "aac"]

  /** The media type of an extension: video, image or audio by the three lists, video by default. */
  function ExtensionType(ext: string): MediaType {
    if ext in VideoExtensions then Video
    else if ext in ImageExtensions then Image
    else if ext in AudioExtensions then Audio
    else Video
  }

  /** `getFileTypeFromName`: classify the lowercased last extension. */
  function FileTypeFromName(filename: string): MediaType {
    ExtensionType(Lower(LastSegment(filename)))
  }

  /** The name text of a media type (`"video"`, `"image"`, `"audio"`). */
  function KindName(t: MediaType): string {
    match t
    case Video => "video"
    case Image => "image"
    case Audio => "audio"
  }

  // ------------------------------------------------------------- the state

  /** A citation an assistant message lists. */
  datatype Citation = Citation(filename: string, cameraId: string, timestamp: string, date: string)

  /** What the source viewer shows. */
  datatype Source = Source(
    filename: string,
    kind: MediaType,
    url: string,
    cameraId: string,
    timestamp: Option<string>,
    date: string)

  /** A matching frame the retrieval query returns; its timestamp is already rendered as text. */
  datatype RagResult = RagResult(camId: string, timestamp: string, gdriveUrl: string)

  datatype RagData = RagData(
    userMessageId: Option<string>,
    assistantMessageId: Option<string>,
    summary: string,
    results: seq<RagResult>)

  /** The reply of the retrieval query. */
  datatype RagResponse = RagResponse(success: bool, data: Option<RagData>)

  datatype UploadedFile = UploadedFile(
    mediaType: MediaType,
    gdriveUrl: string,
    filename: string,
    fileSize: int,
    evidenceId: string)

  /** How the upload request ended: a response, or an exception. */
  datatype UploadOutcome = UploadResponse(success: bool, uploadedFiles: seq<UploadedFile>) | UploadThrew

  /** The page's state; `caseId` is the route parameter. */
  datatype State = State(
    caseId: Option<string>,
    messages: seq<Message>,
    input: string,
    expandedSources: set<string>,
    uploadedMedia: seq<MediaItem>,
    isUploading: bool,
    isSending: bool,
    ragResults: map<string, seq<RagResult>>,
    selectedSource: Option<Source>,
    showSourceModal: bool,
    showUploadDropdown: bool,
    pending: Option<Message>)

  function Initial(caseId: Option<string>): (s: State)
    ensures Consistent(s)
  {
    State(caseId, [], "", {}, [], false, false, map[], None, false, false, None)
  }

  /** A send is in flight exactly when an optimistic message waits, and that message is the last one. */
  predicate Consistent(s: State) {
    && (s.isSending <==> s.pending.Some?)
    && (s.pending.Some? ==> |s.messages| > 0 && s.messages[|s.messages| - 1] == s.pending.value)
    && (s.pending.Some? ==> IsTempId(s.pending.value.id))
  }

  /** An id of the form `temp-...`. */
  predicate IsTempId(id: string) {
    |id| >= 5 && id[..5] == "temp-"
  }

  // ------------------------------------------------------------------ send

  /** `handleSend`'s guard: nothing to send, no case, or a send in flight. */
  predicate SendIgnored(s: State) {
    Trim(s.input) == [] || !Truthy(s.caseId) || s.isSending
  }

  /** The temporary id `temp-<Date.now()>`. */
  function TempId(now: nat): (id: string)
    ensures IsTempId(id)
  {
    "temp-" + NatToString(now)
  }

  /** The optimistic user message: trimmed input, the pending attachments if any. */
  function Optimistic(s: State, now: nat, clockTime: string): Message {
    Message(TempId(now), User, Trim(s.input), Some(clockTime),
            if |s.uploadedMedia| > 0 then Some(s.uploadedMedia) else None)
  }

  /** The synchronous part of `handleSend`, up to the query. */
  function BeginSend(s: State, now: nat, clockTime: string): (r: State)
    ensures Consistent(s) ==> Consistent(r)
  {
    if SendIgnored(s) then s
    else
      var m := Optimistic(s, now, clockTime);
      s.(input := "", isSending := true, messages := s.messages + [m], uploadedMedia := [], pending := Some(m))
  }

  /** `assistant_message_id || "ai-" + Date.now()`. */
  function AssistantId(d: RagData, now: nat): string {
    if Truthy(d.assistantMessageId) then d.assistantMessageId.value else "ai-" + NatToString(now)
  }

  /** `user_message_id || Date.now().toString()`. */
  function ConfirmedId(d: RagData, now: nat): string {
    if Truthy(d.userMessageId) then d.userMessageId.value else NatToString(now)
  }

  function HasOtherId(id: string): Message -> bool {
    (m: Message) => m.id != id
  }

  /** `prev.map(msg => msg.id === id ? {...msg, id: newId} : msg)`. */
  function Renamed(ms: seq<Message>, id: string, newId: string): (r: seq<Message>)
    ensures |r| == |ms|
    ensures forall i :: 0 <= i < |ms| ==> r[i] == if ms[i].id == id then ms[i].(id := newId) else ms[i]
  {
    seq(|ms|, i requires 0 <= i < |ms| => if ms[i].id == id then ms[i].(id := newId) else ms[i])
  }

  /**
   * The rest of `handleSend`, once the query has answered: on success, store
   * the results, drop the temporary message and append the confirmed user
   * message and the assistant's; on failure, give the temporary message a
   * decimal id. `now` is the clock reading the fallback ids use.
   */
  function CompleteSend(s: State, reply: RagResponse, now: nat, clockTime: string): (r: State)
    requires s.pending.Some?
    ensures Consistent(s) ==> Consistent(r)
  {
    var temp := s.pending.value;
    if reply.success && reply.data.Some? then
      var d := reply.data.value;
      var aid := AssistantId(d, now);
      var assistant := Message(aid, Ai, d.summary, Some(clockTime), None);
      s.(ragResults := s.ragResults[aid := d.results],
         messages := Seqs.Filter(s.messages, HasOtherId(temp.id)) + [temp.(id := ConfirmedId(d, now)), assistant],
         isSending := false,
         pending := None)
    else
      s.(messages := Renamed(s.messages, temp.id, NatToString(now)), isSending := false, pending := None)
  }

  // --------------------------------------------------------------- history

  /** The history effect only asks for the conversation when there is a case id. */
  predicate LoadsHistory(s: State) {
    Truthy(s.caseId)
  }

  /**
   * The history request's answer, which the page awaits on mount and on every
   * case-id change: a successful reply replaces the whole message list, with
   * no regard for a send in flight.
   */
  function LoadHistory(s: State, res: ApiResponse<seq<Message>>): (r: State)
    ensures r.messages == if res.success then res.data else s.messages
    ensures r.(messages := s.messages) == s
  {
    if res.success then s.(messages := res.data) else s
  }

  // -------------------------------------------------------------- sources

  /** A set with `id`'s membership flipped. */
  function Toggle(ids: set<string>, id: string): (r: set<string>)
    ensures forall x :: x in r <==> (x in ids <==> x != id)
  {
    if id in ids then ids - {id} else ids + {id}
  }

  /** `toggleSources`. */
  function ToggleSources(s: State, id: string): (r: State)
    ensures r.expandedSources == Toggle(s.expandedSources, id)
    ensures r.(expandedSources := s.expandedSources) == s
  {
    s.(expandedSources := Toggle(s.expandedSources, id))
  }

  // ---------------------------------------------------------------- upload

  /** `handleFileUpload`'s guard: no files chosen, or no case. */
  predicate UploadIgnored(s: State, fileCount: nat) {
    fileCount == 0 || !Truthy(s.caseId)
  }

  /** The synchronous part of `handleFileUpload`: close the menu, show the spinner. */
  function BeginUpload(s: State, fileCount: nat): (r: State)
    ensures UploadIgnored(s, fileCount) ==> r == s
    ensures !UploadIgnored(s, fileCount) ==>
      r.isUploading && !r.showUploadDropdown && r.(isUploading := s.isUploading, showUploadDropdown := s.showUploadDropdown) == s
  {
    if UploadIgnored(s, fileCount) then s else s.(showUploadDropdown := false, isUploading := true)
  }

  /** The attachment an uploaded file becomes: its name is both description and file name. */
  function ToMediaItem(f: UploadedFile): MediaItem {
    MediaItem(f.mediaType, f.gdriveUrl, f.filename, f.filename, f.fileSize, f.evidenceId)
  }

  function ToMediaItems(fs: seq<UploadedFile>): (r: seq<MediaItem>)
    ensures |r| == |fs|
    ensures forall i :: 0 <= i < |fs| ==> r[i] == ToMediaItem(fs[i])
  {
    seq(|fs|, i requires 0 <= i < |fs| => ToMediaItem(fs[i]))
  }

  /** Whether the upload produced files to attach. */
  predicate UploadDelivered(o: UploadOutcome) {
    o.UploadResponse? && o.success && |o.uploadedFiles| > 0
  }

  /** The rest of `handleFileUpload`: attach the uploaded files if any, and in every case stop the spinner. */
  function CompleteUpload(s: State, o: UploadOutcome): (r: State)
    ensures Consistent(s) ==> Consistent(r)
  {
    s.(uploadedMedia := if UploadDelivered(o) then ToMediaItems(o.uploadedFiles) else s.uploadedMedia,
       isUploading := false)
  }

  /** `prev.filter((_, i) => i !== idx)`. */
  function RemoveAt<T>(xs: seq<T>, idx: int): (r: seq<T>) {
    if 0 <= idx < |xs| then xs[..idx] + xs[idx + 1..] else xs
  }

  /** The remove button of a pending attachment. */
  function RemovePendingMedia(s: State, idx: int): (r: State)
    ensures Consistent(s) ==> Consistent(r)
  {
    s.(uploadedMedia := RemoveAt(s.uploadedMedia, idx))
  }

  // ------------------------------------------------------------ the viewer

  const SampleVideoUrl: string := "https://commondatastorage.googleapis.com/gtv-videos-bucket/sample/BigBuckBunny.mp4"
  const SampleImageUrl: string := "https://images.unsplash.com/photo-1506905925346-21bda4d32df4?w=1200"

  function Show(s: State, src: Source): State {
    s.(selectedSource := Some(src), showSourceModal := true)
  }

  /** A citation as the viewer shows it: its type from its file name, a sample URL for that type. */
  function CitationSource(c: Citation): Source {
    var kind := FileTypeFromName(c.filename);
    Source(c.filename, kind, if kind == Video then SampleVideoUrl else SampleImageUrl,
           c.cameraId, Some(c.timestamp), c.date)
  }

  /** `handleSourceClick`. */
  function SourceClick(s: State, c: Citation): (r: State)
    ensures Consistent(s) ==> Consistent(r)
  {
    Show(s, CitationSource(c))
  }

  /**
   * `handleEvidenceFileClick`: show an evidence file, unless it has no URL.
   * The file type declares no `url`, so it is a separate parameter.
   */
  function EvidenceFileClick(s: State, f: EvidenceFile, url: Option<string>): (r: State)
    ensures Consistent(s) ==> Consistent(r)
  {
    if !Truthy(url) then s
    else Show(s, Source(f.name, f.kind, url.value, "Evidence File", Some(f.uploadTime), f.uploadDate))
  }

  /** The "View" link of a message attachment; `date` is the message timestamp's local date. */
  function MediaClick(s: State, m: MediaItem, messageTimestamp: Option<string>, date: string): (r: State)
    ensures Consistent(s) ==> Consistent(r)
  {
    Show(s, Source(if m.description != "" then m.description else KindName(m.kind) + " file",
                   m.kind, m.url, "Evidence", messageTimestamp, date))
  }

  /** A click on a matching frame; `today` is the current local date. */
  function ResultClick(s: State, res: RagResult, today: string): (r: State)
    ensures Consistent(s) ==> Consistent(r)
  {
    Show(s, Source(res.camId + " - Frame at " + res.timestamp + "s", Video, res.gdriveUrl,
                   res.camId, Some(res.timestamp + "s"), today))
  }

  /** The modal's `onClose`: hide it and empty the slot. */
  function CloseSourceModal(s: State): (r: State)
    ensures Consistent(s) ==> Consistent(r)
  {
    s.(showSourceModal := false, selectedSource := None)
  }

  // ---------------------------------------------------------------- lemmas

  /** A send changes nothing exactly when its guard rejects it. */
  lemma SendGuard(s: State, now: nat, clockTime: string)
    ensures BeginSend(s, now, clockTime) == s <==> SendIgnored(s)
  {
  }

  /**
   * An accepted send appends one user message holding the trimmed input and
   * the pending attachments (none when there are none), then clears the input
   * and the attachments and marks the send in flight; nothing else changes.
   */
  lemma SendAppendsOne(s: State, now: nat, clockTime: string)
    requires Consistent(s) && !SendIgnored(s)
    ensures var r := BeginSend(s, now, clockTime);
      && |r.messages| == |s.messages| + 1
      && r.messages[..|s.messages|] == s.messages
      && r.messages[|s.messages|].role == User
      && r.messages[|s.messages|].content == Trim(s.input)
      && r.messages[|s.messages|].content != []
      && r.messages[|s.messages|].media == (if s.uploadedMedia == [] then None else Some(s.uploadedMedia))
      && r.input == [] && r.uploadedMedia == [] && r.isSending
      && r.pending == Some(r.messages[|s.messages|])
      && r.(messages := s.messages, input := s.input, uploadedMedia := s.uploadedMedia,
            isSending := false, pending := None) == s
  {
    var r := BeginSend(s, now, clockTime);
    assert r.messages[..|s.messages|] == s.messages;
  }

  /** Filtering out the temporary id removes the last message, which carries it, and filters the rest. */
  lemma DropTemp(prefix: seq<Message>, temp: Message)
    ensures Seqs.Filter(prefix + [temp], HasOtherId(temp.id)) == Seqs.Filter(prefix, HasOtherId(temp.id))
  {
    Seqs.FilterAppend(prefix, [temp], HasOtherId(temp.id));
    assert Seqs.Filter([temp], HasOtherId(temp.id)) == [];
  }

  /** The messages before the confirmed pair after a successful query. */
  lemma SuccessShape(s: State, reply: RagResponse, now: nat, clockTime: string)
    requires Consistent(s) && s.pending.Some?
    requires reply.success && reply.data.Some?
    ensures var r := CompleteSend(s, reply, now, clockTime);
      var temp, d := s.pending.value, reply.data.value;
      r.messages == Seqs.Filter(s.messages[..|s.messages| - 1], HasOtherId(temp.id)) +
        [temp.(id := ConfirmedId(d, now)), Message(AssistantId(d, now), Ai, d.summary, Some(clockTime), None)]
  {
    var temp := s.pending.value;
    assert s.messages == s.messages[..|s.messages| - 1] + [temp];
    DropTemp(s.messages[..|s.messages| - 1], temp);
  }

  /**
   * On a successful query the temporary message is gone and the list ends
   * with the confirmed user message, which keeps the content and attachments,
   * and the assistant's summary.
   */
  lemma SuccessReplacesTemp(s: State, reply: RagResponse, now: nat, clockTime: string)
    requires Consistent(s) && s.pending.Some?
    requires reply.success && reply.data.Some?
    ensures var r := CompleteSend(s, reply, now, clockTime);
      var temp, d, k := s.pending.value, reply.data.value, |r.messages|;
      && k >= 2
      && r.messages[k - 2] == temp.(id := ConfirmedId(d, now))
      && r.messages[k - 1] == Message(AssistantId(d, now), Ai, d.summary, Some(clockTime), None)
      && (forall i :: 0 <= i < k - 2 ==> r.messages[i].id != temp.id)
      && !r.isSending && r.pending.None?
  {
    SuccessShape(s, reply, now, clockTime);
  }

  /**
   * On a successful query the earlier messages keep their order, and all of
   * them stay when none of them shared the temporary id.
   */
  lemma SuccessKeepsEarlier(s: State, reply: RagResponse, now: nat, clockTime: string)
    requires Consistent(s) && s.pending.Some?
    requires reply.success && reply.data.Some?
    ensures var r := CompleteSend(s, reply, now, clockTime);
      var temp, n, k := s.pending.value, |s.messages|, |r.messages|;
      && k >= 2
      && Seqs.IsSubseq(r.messages[..k - 2], s.messages[..n - 1])
      && ((forall i :: 0 <= i < n - 1 ==> s.messages[i].id != temp.id) ==> r.messages[..k - 2] == s.messages[..n - 1])
  {
    SuccessShape(s, reply, now, clockTime);
    var r := CompleteSend(s, reply, now, clockTime);
    var temp, n := s.pending.value, |s.messages|;
    var prefix := s.messages[..n - 1];
    var kept := Seqs.Filter(prefix, HasOtherId(temp.id));
    assert r.messages[..|r.messages| - 2] == kept;
    Seqs.FilterIsSubseq(prefix, HasOtherId(temp.id));
    if forall i :: 0 <= i < n - 1 ==> s.messages[i].id != temp.id {
      assert forall i :: 0 <= i < |prefix| ==> HasOtherId(temp.id)(prefix[i]);
      Seqs.FilterAll(prefix, HasOtherId(temp.id));
    }
  }

  /** On a successful query the results are filed under the assistant message's id, and no other entry changes. */
  lemma SuccessStoresResults(s: State, reply: RagResponse, now: nat, clockTime: string)
    requires s.pending.Some?
    requires reply.success && reply.data.Some?
    ensures var r := CompleteSend(s, reply, now, clockTime);
      var aid := AssistantId(reply.data.value, now);
      && aid in r.ragResults && r.ragResults[aid] == reply.data.value.results
      && r.messages[|r.messages| - 1].id == aid
      && (forall k :: k != aid ==> (k in r.ragResults <==> k in s.ragResults))
      && (forall k :: k != aid && k in s.ragResults ==> r.ragResults[k] == s.ragResults[k])
  {
  }

  /**
   * On a failed query only the temporary message changes, and only its id,
   * which becomes the decimal clock reading; the length and every other
   * message stay, and the send is over.
   */
  lemma FailureRenamesTemp(s: State, reply: RagResponse, now: nat, clockTime: string)
    requires Consistent(s) && s.pending.Some?
    requires !(reply.success && reply.data.Some?)
    ensures var r := CompleteSend(s, reply, now, clockTime);
      var temp, n := s.pending.value, |s.messages|;
      && |r.messages| == n
      && r.messages[n - 1] == temp.(id := NatToString(now))
      && r.messages[n - 1].id != temp.id
      && (forall i :: 0 <= i < n - 1 && s.messages[i].id != temp.id ==> r.messages[i] == s.messages[i])
      && !r.isSending && r.pending.None?
      && r.(messages := s.messages, isSending := true, pending := s.pending) == s
  {
    TempIdNotDecimal(s.pending.value.id, now);
  }

  /** A rewritten id never looks like a temporary one: `t` is not a digit. */
  lemma TempIdNotDecimal(id: string, now: nat)
    requires IsTempId(id)
    ensures NatToString(now) != id
  {
    assert id[0] == id[..5][0] == 't';
    assert IsDigit(NatToString(now)[0]);
  }

  /** With no send in flight, a history load keeps the page consistent, whatever it loads. */
  lemma HistoryLoadWhileIdle(s: State, res: ApiResponse<seq<Message>>)
    requires Consistent(s) && !s.isSending
    ensures Consistent(LoadHistory(s, res))
  {
  }

  /**
   * A history load that lands while a send is in flight and carries no
   * temporary message drops the optimistic message: the page is no longer
   * consistent. The send's completion makes it consistent again, yet on a
   * failed query the user's message stays lost, because there is no
   * temporary message left to rename.
   */
  lemma HistoryLoadDuringSend(s: State, res: ApiResponse<seq<Message>>, reply: RagResponse, now: nat, clockTime: string)
    requires Consistent(s) && s.isSending && res.success
    requires forall i :: 0 <= i < |res.data| ==> !IsTempId(res.data[i].id)
    ensures var mid := LoadHistory(s, res);
            && s.pending.value !in mid.messages
            && !Consistent(mid)
            && Consistent(CompleteSend(mid, reply, now, clockTime))
    ensures !(reply.success && reply.data.Some?) ==>
            CompleteSend(LoadHistory(s, res), reply, now, clockTime).messages == res.data
  {
  }

  /** Toggling the same citation list twice restores the set. */
  lemma ToggleTwice(ids: set<string>, id: string)
    ensures Toggle(Toggle(ids, id), id) == ids
  {
  }

  /** Attachments delivered by an upload replace the pending ones, one per uploaded file, in order. */
  lemma UploadReplacesMedia(s: State, o: UploadOutcome)
    ensures var r := CompleteUpload(s, o);
      && !r.isUploading
      && (UploadDelivered(o) ==> |r.uploadedMedia| == |o.uploadedFiles|)
      && (UploadDelivered(o) ==> forall i :: 0 <= i < |o.uploadedFiles| ==>
            && r.uploadedMedia[i].url == o.uploadedFiles[i].gdriveUrl
            && r.uploadedMedia[i].kind == o.uploadedFiles[i].mediaType
            && r.uploadedMedia[i].description == o.uploadedFiles[i].filename
            && r.uploadedMedia[i].evidenceId == o.uploadedFiles[i].evidenceId)
      && (!UploadDelivered(o) ==> r.uploadedMedia == s.uploadedMedia)
      && r.(uploadedMedia := s.uploadedMedia, isUploading := s.isUploading) == s
  {
  }

  /** The files of a delivered upload ride on the next accepted send. */
  lemma UploadedMediaAttached(s: State, o: UploadOutcome, now: nat, clockTime: string)
    requires Consistent(s) && UploadDelivered(o) && !SendIgnored(s)
    ensures var r := BeginSend(CompleteUpload(s, o), now, clockTime);
      r.messages[|r.messages| - 1].media == Some(ToMediaItems(o.uploadedFiles))
  {
  }

  /** Removing attachment `idx` drops exactly that one and keeps the rest in order. */
  lemma RemoveAtSpec<T>(xs: seq<T>, idx: int)
    ensures 0 <= idx < |xs| ==>
      && |RemoveAt(xs, idx)| == |xs| - 1
      && (forall j :: 0 <= j < |xs| - 1 ==> RemoveAt(xs, idx)[j] == if j < idx then xs[j] else xs[j + 1])
      && multiset(RemoveAt(xs, idx)) + multiset{xs[idx]} == multiset(xs)
    ensures !(0 <= idx < |xs|) ==> RemoveAt(xs, idx) == xs
  {
    if 0 <= idx < |xs| {
      assert xs == xs[..idx] + [xs[idx]] + xs[idx + 1..];
    }
  }

  /** The last extension decides, whatever precedes its dot. */
  lemma {:induction false} LastSegmentOfName(base: string, ext: string)
    requires forall i :: 0 <= i < |ext| ==> ext[i] != '.'
    ensures LastSegment(base + "." + ext) == ext
  {
    var s := base + "." + ext;
    if ext == [] {
      assert s[|s| - 1] == '.';
    } else {
      var init := ext[..|ext| - 1];
      LastSegmentOfName(base, init);
      assert s[..|s| - 1] == base + "." + init;
      assert ext == init + [ext[|ext| - 1]];
    }
  }

  /** A name without a dot is its own extension, so an unknown one is a video. */
  lemma NoDotName(name: string)
    requires forall i :: 0 <= i < |name| ==> name[i] != '.'
    ensures LastSegment(name) == name
  {
  }

  /** The three lists are disjoint, so each list's extensions get that list's type, and all others video. */
  lemma ExtensionLists(ext: string)
    ensures ExtensionType(ext) == Image <==> ext in ImageExtensions
    ensures ExtensionType(ext) == Audio <==> ext in AudioExtensions
    ensures ExtensionType(ext) == Video <==> ext !in ImageExtensions && ext !in AudioExtensions
  {
    if ext in ImageExtensions || ext in AudioExtensions {
      assert ext !in VideoExtensions;
    }
  }

  /** A name is classified by the lower-case form of the text after its last dot. */
  lemma FileTypeOfName(base: string, ext: string, lowered: string)
    requires forall i :: 0 <= i < |ext| ==> ext[i] != '.'
    requires Lower(ext) == lowered
    ensures FileTypeFromName(base + "." + ext) == ExtensionType(lowered)
  {
    LastSegmentOfName(base, ext);
  }

  // The examples below go one step at a time (the extension, its lower-case
  // form, the list it is on), which keeps each proof small.

  /** Extensions are matched case-insensitively, after the last dot only. */
  lemma FileTypeOfMov()
    ensures FileTypeFromName("clip.final.MOV") == Video
  {
    assert "clip.final" + "." + "MOV" == "clip.final.MOV";
    LastSegmentOfName("clip.final", "MOV");
    var r := Lower("MOV");
    assert r[0] == 'm' && r[1] == 'o' && r[2] == 'v';
    assert r == "mov";
    assert VideoExtensions[2] == "mov";
  }

  /** An extension on no list falls back to video. */
  lemma FileTypeOfPdf()
    ensures FileTypeFromName("statement.pdf") == Video
  {
    assert "statement" + "." + "pdf" == "statement.pdf";
    LastSegmentOfName("statement", "pdf");
    var r := Lower("pdf");
    assert r[0] == 'p' && r[1] == 'd' && r[2] == 'f';
    assert r == "pdf";
    assert "pdf" !in ImageExtensions && "pdf" !in AudioExtensions;
    ExtensionLists("pdf");
  }

  /** The viewer holds one source: the latest click wins, and closing empties the slot whatever was shown. */
  lemma ViewerSingleSlot(s: State, a: Citation, b: Citation)
    ensures SourceClick(SourceClick(s, a), b) == SourceClick(s, b)
    ensures CloseSourceModal(SourceClick(s, a)) == CloseSourceModal(s)
    ensures SourceClick(s, a).showSourceModal && SourceClick(s, a).selectedSource.Some?
  {
  }

  /** A citation is shown with the sample video exactly when its name classifies as a video. */
  lemma SourceClickUrl(s: State, c: Citation)
    ensures var src := SourceClick(s, c).selectedSource.value;
      && src.kind == FileTypeFromName(c.filename)
      && (src.url == SampleVideoUrl <==> FileTypeFromName(c.filename) == Video)
      && src.filename == c.filename && src.cameraId == c.cameraId && src.date == c.date
  {
  }

  /** An evidence file without a URL is ignored; one with a URL is shown with its own type, URL, date and time. */
  lemma EvidenceFileShown(s: State, f: EvidenceFile, url: Option<string>)
    ensures !Truthy(url) ==> EvidenceFileClick(s, f, url) == s
    ensures Truthy(url) ==>
      var r := EvidenceFileClick(s, f, url);
      && r.showSourceModal
      && r.selectedSource == Some(Source(f.name, f.kind, url.value, "Evidence File", Some(f.uploadTime), f.uploadDate))
      && CloseSourceModal(r) == CloseSourceModal(s)
  {
  }

  // ----------------------------------------------------------- the component

  /** The mounted page: each handler updates the fields step by step. */
  class Workspace {
    const caseId: Option<string>
    var messages: seq<Message>
    var input: string
    var expandedSources: set<string>
    var uploadedMedia: seq<MediaItem>
    var isUploading: bool
    var isSending: bool
    var ragResults: map<string, seq<RagResult>>
    var selectedSource: Option<Source>
    var showSourceModal: bool
    var showUploadDropdown: bool
    var pending: Option<Message>

    function Current(): State reads this {
      State(caseId, messages, input, expandedSources, uploadedMedia, isUploading, isSending,
            ragResults, selectedSource, showSourceModal, showUploadDropdown, pending)
    }

    predicate Valid() reads this { Consistent(Current()) }

    constructor (id: Option<string>)
      ensures Valid() && Current() == Initial(id)
    {
      caseId := id;
      messages := [];
      input := "";
      expandedSources := {};
      uploadedMedia := [];
      isUploading := false;
      isSending := false;
      ragResults := map[];
      selectedSource := None;
      showSourceModal := false;
      showUploadDropdown := false;
      pending := None;
    }

    /** The input field's `onChange`. */
    method SetInput(text: string)
      requires Valid()
      modifies this
      ensures Valid() && Current() == old(Current()).(input := text)
    {
      input := text;
    }

    method HandleSend(now: nat, clockTime: string)
      requires Valid()
      modifies this
      ensures Valid() && Current() == BeginSend(old(Current()), now, clockTime)
    {
      if Trim(input) == [] || !Truthy(caseId) || isSending {
        return;
      }
      StartSend(Optimistic(Current(), now, clockTime));
    }

    /** The state changes of a send that goes ahead: clear the input and the attachments, append `m` and await it. */
    method StartSend(m: Message)
      requires Valid() && !isSending && IsTempId(m.id)
      modifies this
      ensures Valid()
      ensures Current() == old(Current()).(input := "", isSending := true, messages := old(messages) + [m],
                                           uploadedMedia := [], pending := Some(m))
    {
      input, isSending, messages, uploadedMedia, pending := "", true, messages + [m], [], Some(m);
    }

    /** The query's answer arrives; only a send in flight awaits one. */
    method ReceiveQueryReply(reply: RagResponse, now: nat, clockTime: string)
      requires Valid() && isSending
      modifies this
      ensures Valid() && Current() == CompleteSend(old(Current()), reply, now, clockTime)
    {
      var userMessage := pending.value;
      if reply.success && reply.data.Some? {
        var d := reply.data.value;
        var assistantId := AssistantId(d, now);
        ragResults := ragResults[assistantId := d.results];
        var assistant := Message(assistantId, Ai, d.summary, Some(clockTime), None);
        var withoutTemp := Seqs.Filter(messages, HasOtherId(userMessage.id));
        messages := withoutTemp + [userMessage.(id := ConfirmedId(d, now)), assistant];
      } else {
        messages := Renamed(messages, userMessage.id, NatToString(now));
      }
      isSending := false;
      pending := None;
    }

    /**
     * The history request's answer arrives. It keeps the page consistent when
     * no send is in flight; one landing during a send leaves it inconsistent.
     */
    method ReceiveHistory(res: ApiResponse<seq<Message>>)
      requires LoadsHistory(Current())
      modifies this
      ensures Current() == LoadHistory(old(Current()), res)
      ensures old(Valid()) && !old(isSending) ==> Valid()
    {
      if res.success {
        messages := res.data;
      }
    }

    method HandleToggleSources(messageId: string)
      requires Valid()
      modifies this
      ensures Valid() && Current() == ToggleSources(old(Current()), messageId)
    {
      var expanded := expandedSources;
      if messageId in expanded {
        expanded := expanded - {messageId};
      } else {
        expanded := expanded + {messageId};
      }
      expandedSources := expanded;
    }

    method HandleFileUpload(fileCount: nat)
      requires Valid()
      modifies this
      ensures Valid() && Current() == BeginUpload(old(Current()), fileCount)
    {
      if fileCount == 0 || !Truthy(caseId) {
        return;
      }
      showUploadDropdown := false;
      isUploading := true;
    }

    /** The upload request ends, with a response or an exception. */
    method ReceiveUploadOutcome(o: UploadOutcome)
      requires Valid()
      modifies this
      ensures Valid() && Current() == CompleteUpload(old(Current()), o)
    {
      if o.UploadResponse? && o.success && |o.uploadedFiles| > 0 {
        uploadedMedia := ToMediaItems(o.uploadedFiles);
      }
      isUploading := false;
    }

    method HandleRemovePendingMedia(idx: int)
      requires Valid()
      modifies this
      ensures Valid() && Current() == RemovePendingMedia(old(Current()), idx)
    {
      uploadedMedia := RemoveAt(uploadedMedia, idx);
    }

    /** `setSelectedSource(src)` followed by `setShowSourceModal(true)`, as every click handler ends. */
    method ShowSource(src: Source)
      requires Valid()
      modifies this
      ensures Valid() && Current() == Show(old(Current()), src)
    {
      selectedSource := Some(src);
      showSourceModal := true;
    }

    method HandleSourceClick(c: Citation)
      requires Valid()
      modifies this
      ensures Valid() && Current() == SourceClick(old(Current()), c)
    {
      var shown := CitationSource(c);
      ShowSource(shown);
    }

    method HandleEvidenceFileClick(f: EvidenceFile, url: Option<string>)
      requires Valid()
      modifies this
      ensures Valid() && Current() == EvidenceFileClick(old(Current()), f, url)
    {
      if !Truthy(url) {
        return;
      }
      ShowSource(Source(f.name, f.kind, url.value, "Evidence File", Some(f.uploadTime), f.uploadDate));
    }

    method HandleMediaClick(m: MediaItem, messageTimestamp: Option<string>, date: string)
      requires Valid()
      modifies this
      ensures Valid() && Current() == MediaClick(old(Current()), m, messageTimestamp, date)
    {
      var name := if m.description != "" then m.description else KindName(m.kind) + " file";
      ShowSource(Source(name, m.kind, m.url, "Evidence", messageTimestamp, date));
    }

    method HandleResultClick(res: RagResult, today: string)
      requires Valid()
      modifies this
      ensures Valid() && Current() == ResultClick(old(Current()), res, today)
    {
      ShowSource(Source(res.camId + " - Frame at " + res.timestamp + "s", Video, res.gdriveUrl,
                        res.camId, Some(res.timestamp + "s"), today));
    }

    method HandleCloseSourceModal()
      requires Valid()
      modifies this
      ensures Valid() && Current() == CloseSourceModal(old(Current()))
    {
      showSourceModal := false;
      selectedSource := None;
    }
  }
}
