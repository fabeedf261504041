/**
 * The new-case form: the evidence files being uploaded, each with its
 * progress and status, the simulated upload that advances them tick by tick,
 * and the create button.
 *
 * Every selected file starts its own ticker, which keeps a running (real)
 * progress and raises it by a random amount every interval; the amounts, the
 * random file ids and the formatted sizes are inputs.
 */
module NewCase {
  import opened Wrappers
  import opened Strings
  import Seqs

  datatype FileKind = Video | Image | Audio | Document

  datatype UploadStatus = Uploading | Completed | Failed

  datatype MediaFile = MediaFile(
    id: string,
    name: string,
    kind: FileKind,
    size: string,
    progress: int,
    status: UploadStatus)

  /** A file chosen in the picker, with the random id and the formatted size it is given. */
  datatype Selected = Selected(id: string, name: string, mimeType: string, size: string)

  /** A running upload simulation: the file it advances and its own unrounded progress. */
  datatype Ticker = Ticker(fileId: string, progress: real)

  /** The form's state: `tickers` are the intervals still running. */
  datatype Form = Form(
    caseTitle: string,
    caseDescription: string,
    mediaFiles: seq<MediaFile>,
    isUploading: bool,
    tickers: seq<Ticker>)

  const Initial: Form := Form("", "", [], false, [])

  /** The largest amount one tick adds (`Math.random()` times this). */
  const MaxIncrement: real := 15.0

  // ------------------------------------------------------------ file types

  /** `getFileType`: the kind named by the MIME type's prefix, `document` otherwise. */
  function GetFileType(mimeType: string): (k: FileKind)
    ensures k == Video <==> StartsWith(mimeType, "video/")
    ensures k == Image <==> StartsWith(mimeType, "image/")
    ensures k == Audio <==> StartsWith(mimeType, "audio/")
    ensures k == Document <==>
      !StartsWith(mimeType, "video/") && !StartsWith(mimeType, "image/") && !StartsWith(mimeType, "audio/")
  {
    MimePrefixesExclusive(mimeType);
    if StartsWith(mimeType, "video/") then Video
    else if StartsWith(mimeType, "image/") then Image
    else if StartsWith(mimeType, "audio/") then Audio
    else Document
  }

  /** The three prefixes start with different letters, so at most one matches. */
  lemma MimePrefixesExclusive(mimeType: string)
    ensures !(StartsWith(mimeType, "video/") && StartsWith(mimeType, "image/"))
    ensures !(StartsWith(mimeType, "video/") && StartsWith(mimeType, "audio/"))
    ensures !(StartsWith(mimeType, "image/") && StartsWith(mimeType, "audio/"))
  {
    if |mimeType| > 0 {
      var c := mimeType[0];
      if StartsWith(mimeType, "video/") { assert c == mimeType[..6][0] == 'v'; }
      if StartsWith(mimeType, "image/") { assert c == mimeType[..6][0] == 'i'; }
      if StartsWith(mimeType, "audio/") { assert c == mimeType[..6][0] == 'a'; }
    }
  }

  // ---------------------------------------------------------------- adding

  /** The entry a selected file becomes: no progress yet, uploading. */
  function NewFile(sel: Selected): (f: MediaFile)
    ensures f.id == sel.id && f.name == sel.name && f.size == sel.size
    ensures f.kind == GetFileType(sel.mimeType) && f.progress == 0 && f.status == Uploading
  {
    MediaFile(sel.id, sel.name, GetFileType(sel.mimeType), sel.size, 0, Uploading)
  }

  function NewFiles(sels: seq<Selected>): (r: seq<MediaFile>)
    ensures |r| == |sels|
    ensures forall i :: 0 <= i < |sels| ==> r[i] == NewFile(sels[i])
  {
    seq(|sels|, i requires 0 <= i < |sels| => NewFile(sels[i]))
  }

  function NewTickers(sels: seq<Selected>): (r: seq<Ticker>)
    ensures |r| == |sels|
    ensures forall i :: 0 <= i < |sels| ==> r[i] == Ticker(sels[i].id, 0.0)
  {
    seq(|sels|, i requires 0 <= i < |sels| => Ticker(sels[i].id, 0.0))
  }

  /** `handleFileUpload`: append each selected file and start its ticker; set the flag if any was selected. */
  function AddFiles(s: Form, sels: seq<Selected>): Form {
    s.(mediaFiles := s.mediaFiles + NewFiles(sels),
       tickers := s.tickers + NewTickers(sels),
       isUploading := s.isUploading || |sels| > 0)
  }

  // ---------------------------------------------------------------- ticks

  /** `prev.map(file => file.id === id ? {...file, progress: 100, status: 'completed'} : file)`. */
  function MarkCompleted(files: seq<MediaFile>, id: string): (r: seq<MediaFile>)
    ensures |r| == |files|
    ensures forall i :: 0 <= i < |files| ==>
      r[i] == if files[i].id == id then files[i].(progress := 100, status := Completed) else files[i]
  {
    seq(|files|, i requires 0 <= i < |files| =>
      if files[i].id == id then files[i].(progress := 100, status := Completed) else files[i])
  }

  /** `prev.map(file => file.id === id ? {...file, progress: p} : file)`. */
  function SetProgress(files: seq<MediaFile>, id: string, p: int): (r: seq<MediaFile>)
    ensures |r| == |files|
    ensures forall i :: 0 <= i < |files| ==>
      r[i] == if files[i].id == id then files[i].(progress := p) else files[i]
  {
    seq(|files|, i requires 0 <= i < |files| => if files[i].id == id then files[i].(progress := p) else files[i])
  }

  /** `prev.every(f => f.status === 'completed')`. */
  predicate AllCompleted(files: seq<MediaFile>) {
    forall i :: 0 <= i < |files| ==> files[i].status == Completed
  }

  /**
   * One interval of ticker `k`: add `increment`; at 100 or more the file is
   * completed, the ticker stops and the flag is cleared if every file is now
   * completed; below 100 the file shows the rounded-down progress.
   */
  function Tick(s: Form, k: nat, increment: real): (r: Form)
    requires k < |s.tickers|
  {
    var t := s.tickers[k];
    var progress := t.progress + increment;
    if progress >= 100.0 then
      var files := MarkCompleted(s.mediaFiles, t.fileId);
      s.(mediaFiles := files,
         tickers := s.tickers[..k] + s.tickers[k + 1..],
         isUploading := if AllCompleted(files) then false else s.isUploading)
    else
      s.(mediaFiles := SetProgress(s.mediaFiles, t.fileId, progress.Floor),
         tickers := s.tickers[k := Ticker(t.fileId, progress)])
  }

  // ------------------------------------------------------------- removing

  function HasOtherId(id: string): MediaFile -> bool {
    (f: MediaFile) => f.id != id
  }

  /** `handleRemoveFile`: drop the files with that id; their tickers run on. */
  function RemoveFile(s: Form, id: string): Form {
    s.(mediaFiles := Seqs.Filter(s.mediaFiles, HasOtherId(id)))
  }

  // ------------------------------------------------------------- progress

  function CompletedCount(files: seq<MediaFile>): (n: nat)
    ensures n <= |files|
    ensures n == |files| <==> AllCompleted(files)
  {
    if files == [] then 0
    else
      assert forall i :: 1 <= i < |files| ==> files[1..][i - 1] == files[i];
      (if files[0].status == Completed then 1 else 0) + CompletedCount(files[1..])
  }

  /** `Math.floor((completed / total) * 100)` for `total > 0`, in exact arithmetic. */
  function Percent(completed: nat, total: nat): (p: int)
    requires 0 < total
  {
    ((completed as real / total as real) * 100.0).Floor
  }

  /** The overall progress the file list shows: 0 with no files. */
  function DisplayedProgress(files: seq<MediaFile>): int {
    if |files| > 0 then Percent(CompletedCount(files), |files|) else 0
  }

  /** The overall progress sent with a new case: 100 with no files. */
  function CreatedProgress(files: seq<MediaFile>): int {
    if |files| > 0 then Percent(CompletedCount(files), |files|) else 100
  }

  // --------------------------------------------------------------- create

  /** The request `handleCreateCase` sends: the title as typed, the file count and the overall progress. */
  datatype CreateRequest = CreateRequest(title: string, description: string, mediaCount: nat, uploadProgress: int)

  /** `handleCreateCase`: nothing for a blank title, otherwise the request to send. */
  function CreateCaseRequest(s: Form): (r: Option<CreateRequest>)
    ensures r.None? <==> AllWhitespace(s.caseTitle)
  {
    TrimEmptyIff(s.caseTitle);
    if Trim(s.caseTitle) == [] then None
    else Some(CreateRequest(s.caseTitle, s.caseDescription, |s.mediaFiles|, CreatedProgress(s.mediaFiles)))
  }

  // ---------------------------------------------------------------- lemmas

  /** The facts every reachable form keeps. */
  predicate Valid(s: Form) {
    && (forall i :: 0 <= i < |s.mediaFiles| ==> 0 <= s.mediaFiles[i].progress <= 100)
    && (forall i :: 0 <= i < |s.mediaFiles| ==> s.mediaFiles[i].status != Failed)
    && (forall i :: 0 <= i < |s.mediaFiles| && s.mediaFiles[i].status == Completed ==> s.mediaFiles[i].progress == 100)
    && (forall i :: 0 <= i < |s.mediaFiles| && s.mediaFiles[i].status == Uploading ==> s.isUploading)
    && (forall k :: 0 <= k < |s.tickers| ==> 0.0 <= s.tickers[k].progress < 100.0)
    && (forall j, k :: 0 <= j < k < |s.tickers| ==> s.tickers[j].fileId != s.tickers[k].fileId)
    && (forall k, i :: 0 <= k < |s.tickers| && 0 <= i < |s.mediaFiles| && s.mediaFiles[i].id == s.tickers[k].fileId ==>
          s.mediaFiles[i].status == Uploading)
  }

  /**
   * The selected files' ids are new: distinct from each other and from every
   * file and ticker already there. The source draws them at random and does
   * not check this.
   */
  predicate FreshIds(s: Form, sels: seq<Selected>) {
    && (forall j, k :: 0 <= j < k < |sels| ==> sels[j].id != sels[k].id)
    && (forall j, i :: 0 <= j < |sels| && 0 <= i < |s.mediaFiles| ==> sels[j].id != s.mediaFiles[i].id)
    && (forall j, k :: 0 <= j < |sels| && 0 <= k < |s.tickers| ==> sels[j].id != s.tickers[k].fileId)
  }

  lemma InitialValid()
    ensures Valid(Initial) && DisplayedProgress(Initial.mediaFiles) == 0
  {
  }

  /**
   * Selected files are appended at the end, in order, at 0% and uploading,
   * and the flag is set; the files already there are untouched.
   */
  lemma AddAppends(s: Form, sels: seq<Selected>)
    ensures var r := AddFiles(s, sels);
      && |r.mediaFiles| == |s.mediaFiles| + |sels|
      && r.mediaFiles[..|s.mediaFiles|] == s.mediaFiles
      && (forall i :: 0 <= i < |sels| ==>
            r.mediaFiles[|s.mediaFiles| + i] == MediaFile(sels[i].id, sels[i].name, GetFileType(sels[i].mimeType), sels[i].size, 0, Uploading))
      && (|sels| > 0 ==> r.isUploading)
      && (sels == [] ==> r == s)
  {
    var r := AddFiles(s, sels);
    assert r.mediaFiles[..|s.mediaFiles|] == s.mediaFiles;
    if sels == [] {
      assert r.mediaFiles == s.mediaFiles && r.tickers == s.tickers;
    }
  }

  /** Adding files with new ids keeps the form valid. */
  lemma AddValid(s: Form, sels: seq<Selected>)
    requires Valid(s) && FreshIds(s, sels)
    ensures Valid(AddFiles(s, sels))
  {
    var r := AddFiles(s, sels);
    forall k, i | 0 <= k < |r.tickers| && 0 <= i < |r.mediaFiles| && r.mediaFiles[i].id == r.tickers[k].fileId
      ensures r.mediaFiles[i].status == Uploading
    {
    }
  }

  /** A tick that reaches 100 completes exactly the ticker's files, at 100%, and stops the ticker. */
  lemma TickCompletes(s: Form, k: nat, increment: real)
    requires k < |s.tickers| && s.tickers[k].progress + increment >= 100.0
    ensures var r := Tick(s, k, increment);
      var id := s.tickers[k].fileId;
      && |r.mediaFiles| == |s.mediaFiles|
      && (forall i :: 0 <= i < |s.mediaFiles| && s.mediaFiles[i].id == id ==>
            r.mediaFiles[i].progress == 100 && r.mediaFiles[i].status == Completed)
      && (forall i :: 0 <= i < |s.mediaFiles| && s.mediaFiles[i].id != id ==> r.mediaFiles[i] == s.mediaFiles[i])
      && |r.tickers| == |s.tickers| - 1
      && (r.isUploading <==> s.isUploading && !AllCompleted(r.mediaFiles))
  {
  }

  /** A tick below 100 shows the rounded-down progress on the ticker's files and changes no status. */
  lemma TickAdvances(s: Form, k: nat, increment: real)
    requires k < |s.tickers| && s.tickers[k].progress + increment < 100.0
    ensures var r := Tick(s, k, increment);
      var t := s.tickers[k];
      && |r.mediaFiles| == |s.mediaFiles|
      && (forall i :: 0 <= i < |s.mediaFiles| ==> r.mediaFiles[i].status == s.mediaFiles[i].status)
      && (forall i :: 0 <= i < |s.mediaFiles| && s.mediaFiles[i].id == t.fileId ==>
            r.mediaFiles[i].progress == (t.progress + increment).Floor)
      && (forall i :: 0 <= i < |s.mediaFiles| && s.mediaFiles[i].id != t.fileId ==> r.mediaFiles[i] == s.mediaFiles[i])
      && r.isUploading == s.isUploading
      && r.tickers == s.tickers[k := Ticker(t.fileId, t.progress + increment)]
  {
  }

  /** Ticks with increments of at most 15 keep the form valid. */
  lemma TickValid(s: Form, k: nat, increment: real)
    requires Valid(s) && k < |s.tickers| && 0.0 <= increment <= MaxIncrement
    ensures Valid(Tick(s, k, increment))
  {
    if s.tickers[k].progress + increment >= 100.0 {
      CompletingTickValid(s, k, increment);
    } else {
      var p := s.tickers[k].progress + increment;
      assert 0 <= p.Floor <= 99;
    }
  }

  /** The completing tick: the file is marked done and its ticker leaves the list. */
  lemma CompletingTickValid(s: Form, k: nat, increment: real)
    requires Valid(s) && k < |s.tickers| && s.tickers[k].progress + increment >= 100.0
    ensures Valid(Tick(s, k, increment))
  {
    var r := Tick(s, k, increment);
    var files := r.mediaFiles;
    forall i | 0 <= i < |files| && files[i].status == Uploading ensures r.isUploading {
      assert !AllCompleted(files);
    }
    forall j | 0 <= j < |r.tickers| ensures 0.0 <= r.tickers[j].progress < 100.0 {
      assert r.tickers[j] == if j < k then s.tickers[j] else s.tickers[j + 1];
    }
    forall k', i | 0 <= k' < |r.tickers| && 0 <= i < |files| && files[i].id == r.tickers[k'].fileId
      ensures files[i].status == Uploading
    {
      var j := if k' < k then k' else k' + 1;
      assert r.tickers[k'] == s.tickers[j];
    }
    forall a, b | 0 <= a < b < |r.tickers| ensures r.tickers[a].fileId != r.tickers[b].fileId {
      var ja, jb := if a < k then a else a + 1, if b < k then b else b + 1;
      assert r.tickers[a] == s.tickers[ja] && r.tickers[b] == s.tickers[jb];
    }
  }

  /** The flag is cleared only when every file is completed. */
  lemma FlagClearedOnlyWhenAllComplete(s: Form, k: nat, increment: real)
    requires Valid(s) && k < |s.tickers| && s.isUploading && !Tick(s, k, increment).isUploading
    ensures AllCompleted(Tick(s, k, increment).mediaFiles)
  {
  }

  /** Removing a file drops exactly the files with its id and keeps the others in order. */
  lemma RemoveKeepsOthers(s: Form, id: string)
    requires Valid(s)
    ensures var r := RemoveFile(s, id);
      && Valid(r)
      && (forall i :: 0 <= i < |r.mediaFiles| ==> r.mediaFiles[i].id != id)
      && Seqs.IsSubseq(r.mediaFiles, s.mediaFiles)
      && (forall f :: multiset(r.mediaFiles)[f] == if f.id == id then 0 else multiset(s.mediaFiles)[f])
      && r.(mediaFiles := s.mediaFiles) == s
  {
    var r := RemoveFile(s, id);
    Seqs.FilterIsSubseq(s.mediaFiles, HasOtherId(id));
    forall f ensures multiset(r.mediaFiles)[f] == if f.id == id then 0 else multiset(s.mediaFiles)[f] {
      Seqs.FilterMultiset(s.mediaFiles, HasOtherId(id), f);
    }
    RemoveValid(s, id);
  }

  lemma RemoveValid(s: Form, id: string)
    requires Valid(s)
    ensures Valid(RemoveFile(s, id))
  {
    var r := RemoveFile(s, id);
    forall i | 0 <= i < |r.mediaFiles| ensures r.mediaFiles[i] in s.mediaFiles {
    }
  }

  /** The exact percentage is the integer quotient of `100 * completed` by `total`. */
  lemma {:induction false} PercentQuotient(completed: nat, total: nat)
    requires 0 < total
    ensures Percent(completed, total) == (100 * completed) / total
  {
    var q := (100 * completed) / total;
    var x := (completed as real / total as real) * 100.0;
    assert x == (100 * completed) as real / total as real;
    assert q * total <= 100 * completed < (q + 1) * total;
    assert (q * total) as real <= (100 * completed) as real < ((q + 1) * total) as real;
    assert q as real * total as real <= (100 * completed) as real;
    assert q as real <= x < (q + 1) as real;
  }

  /** `(100 * c) / n` lies in [0, 100] and is 100 exactly when `c == n`. */
  lemma QuotientBounds(c: nat, n: nat)
    requires 0 < n && c <= n
    ensures 0 <= (100 * c) / n <= 100
    ensures (100 * c) / n == 100 <==> c == n
  {
    var q := (100 * c) / n;
    assert q * n <= 100 * c < q * n + n;
    if q > 100 {
      MulAtLeast(q, 101, n);
    }
    if c == n {
      assert 100 * c == 100 * n;
      if q < 100 { MulAtLeast(99, q, n); }
    }
  }

  lemma MulAtLeast(a: int, b: int, n: nat)
    requires a >= b
    ensures a * n >= b * n
  {
  }

  /** The overall progress is a percentage, and 100 exactly when every file is completed. */
  lemma ProgressBounds(files: seq<MediaFile>)
    requires |files| > 0
    ensures 0 <= DisplayedProgress(files) <= 100
    ensures DisplayedProgress(files) == 100 <==> AllCompleted(files)
    ensures CreatedProgress(files) == DisplayedProgress(files)
  {
    PercentQuotient(CompletedCount(files), |files|);
    QuotientBounds(CompletedCount(files), |files|);
  }

  /** With no files the list shows 0% while a created case reports 100%. */
  lemma EmptyProgress()
    ensures DisplayedProgress([]) == 0 && CreatedProgress([]) == 100
  {
  }

  /** A blank title creates nothing; otherwise the request carries the title as typed, untrimmed. */
  lemma CreateGuard(s: Form)
    ensures Trim(s.caseTitle) == [] ==> CreateCaseRequest(s).None?
    ensures Trim(s.caseTitle) != [] ==>
      CreateCaseRequest(s) == Some(CreateRequest(s.caseTitle, s.caseDescription, |s.mediaFiles|, CreatedProgress(s.mediaFiles)))
  {
  }

  // ----------------------------------------------------------- the component

  /** The mounted form: each handler updates the fields step by step. */
  class NewCaseForm {
    var caseTitle: string
    var caseDescription: string
    var mediaFiles: seq<MediaFile>
    var isUploading: bool
    var tickers: seq<Ticker>

    function Current(): Form reads this {
      Form(caseTitle, caseDescription, mediaFiles, isUploading, tickers)
    }

    constructor ()
      ensures Current() == Initial
    {
      caseTitle := "";
      caseDescription := "";
      mediaFiles := [];
      isUploading := false;
      tickers := [];
    }

    method SetTitle(text: string)
      modifies this
      ensures Current() == old(Current()).(caseTitle := text)
    {
      caseTitle := text;
    }

    method SetDescription(text: string)
      modifies this
      ensures Current() == old(Current()).(caseDescription := text)
    {
      caseDescription := text;
    }

    /** `handleFileUpload`: one append and one ticker per selected file, in order. */
    method HandleFileUpload(sels: seq<Selected>)
      modifies this
      ensures Current() == AddFiles(old(Current()), sels)
    {
      var i := 0;
      while i < |sels|
        invariant 0 <= i <= |sels|
        invariant caseTitle == old(caseTitle) && caseDescription == old(caseDescription)
        invariant mediaFiles == old(mediaFiles) + NewFiles(sels[..i])
        invariant tickers == old(tickers) + NewTickers(sels[..i])
        invariant isUploading == (old(isUploading) || i > 0)
      {
        var newFile := NewFile(sels[i]);
        mediaFiles := mediaFiles + [newFile];
        isUploading := true;
        tickers := tickers + [Ticker(newFile.id, 0.0)];
        assert NewFiles(sels[..i + 1]) == NewFiles(sels[..i]) + [newFile];
        assert NewTickers(sels[..i + 1]) == NewTickers(sels[..i]) + [Ticker(newFile.id, 0.0)];
        i := i + 1;
      }
      assert sels[..i] == sels;
    }

    /** One interval of ticker `k`. */
    method HandleTick(k: nat, increment: real)
      requires k < |tickers|
      modifies this
      ensures Current() == Tick(old(Current()), k, increment)
    {
      var t := tickers[k];
      var progress := t.progress + increment;
      if progress >= 100.0 {
        tickers := tickers[..k] + tickers[k + 1..];
        mediaFiles := MarkCompleted(mediaFiles, t.fileId);
        if AllCompleted(mediaFiles) {
          isUploading := false;
        }
      } else {
        tickers := tickers[k := Ticker(t.fileId, progress)];
        mediaFiles := SetProgress(mediaFiles, t.fileId, progress.Floor);
      }
    }

    method HandleRemoveFile(id: string)
      modifies this
      ensures Current() == RemoveFile(old(Current()), id)
    {
      mediaFiles := Seqs.Filter(mediaFiles, HasOtherId(id));
    }

    /** `handleCreateCase`: the request to send, if the title is not blank; the form is unchanged. */
    method HandleCreateCase() returns (request: Option<CreateRequest>)
      ensures request == CreateCaseRequest(Current())
    {
      if Trim(caseTitle) == [] {
        return None;
      }
      var total := |mediaFiles|;
      var overall := if total > 0 then Percent(CompletedCount(mediaFiles), total) else 100;
      request := Some(CreateRequest(caseTitle, caseDescription, total, overall));
    }
  }
}
