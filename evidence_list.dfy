/**
 * The evidence list: the files of the active tab, grouped under their upload
 * date. Groups are listed in the order their dates first appear, which is the
 * order `Object.entries` gives for keys that are not array indices.
 */
module EvidenceList {
  import opened Wrappers
  import Seqs

  datatype MediaType = Video | Image | Audio

  datatype EvidenceFile = EvidenceFile(
    id: string,
    name: string,
    kind: MediaType,
    uploadDate: string,
    uploadTime: string,
    thumbnail: Option<string>)

  datatype Tab = Videos | Images | Audios

  /** The tab shown first. */
  const InitialTab: Tab := Videos

  /** The media type a tab shows. */
  function TabKind(t: Tab): MediaType {
    match t
    case Videos => Video
    case Images => Image
    case Audios => Audio
  }

  function OfTab(t: Tab): EvidenceFile -> bool {
    (f: EvidenceFile) => f.kind == TabKind(t)
  }

  /** `getFilteredEvidence`: the files whose type matches the tab, in input order. */
  function FilteredEvidence(files: seq<EvidenceFile>, tab: Tab): (r: seq<EvidenceFile>)
    ensures forall i :: 0 <= i < |r| ==> r[i].kind == TabKind(tab)
    ensures Seqs.IsSubseq(r, files)
    ensures forall f :: multiset(r)[f] == if f.kind == TabKind(tab) then multiset(files)[f] else 0
  {
    var r := Seqs.Filter(files, OfTab(tab));
    Seqs.FilterIsSubseq(files, OfTab(tab));
    forall f ensures multiset(r)[f] == if f.kind == TabKind(tab) then multiset(files)[f] else 0 {
      Seqs.FilterMultiset(files, OfTab(tab), f);
    }
    r
  }

  /** On first render the list shows exactly the video files. */
  lemma InitialTabShowsVideos(files: seq<EvidenceFile>)
    ensures forall f :: f in FilteredEvidence(files, InitialTab) <==> f in files && f.kind == Video
  {
    forall f ensures f in FilteredEvidence(files, InitialTab) <==> f in files && f.kind == Video {
      assert multiset(FilteredEvidence(files, InitialTab))[f] == if f.kind == Video then multiset(files)[f] else 0;
    }
  }

  // -------------------------------------------------------------- grouping

  function HasDate(d: string): EvidenceFile -> bool {
    (f: EvidenceFile) => f.uploadDate == d
  }

  /** The files uploaded on `d`, in input order. */
  function FilesOn(files: seq<EvidenceFile>, d: string): (r: seq<EvidenceFile>)
    ensures forall i :: 0 <= i < |r| ==> r[i].uploadDate == d
  {
    Seqs.Filter(files, HasDate(d))
  }

  predicate Distinct(s: seq<string>) {
    forall i, j :: 0 <= i < j < |s| ==> s[i] != s[j]
  }

  /** The dates of `files`, each once, in order of first appearance. */
  function DistinctDates(files: seq<EvidenceFile>): (r: seq<string>)
    ensures Distinct(r)
    ensures forall d :: d in r <==> exists i :: 0 <= i < |files| && files[i].uploadDate == d
  {
    if files == [] then []
    else
      var init := files[..|files| - 1];
      var prev := DistinctDates(init);
      var d := files[|files| - 1].uploadDate;
      assert forall i :: 0 <= i < |init| ==> init[i] == files[i];
      if d in prev then prev else prev + [d]
  }

  /** Appending a file adds its date at the end unless the date is already there. */
  lemma DatesAppend(files: seq<EvidenceFile>, f: EvidenceFile)
    ensures DistinctDates(files + [f]) ==
      if f.uploadDate in DistinctDates(files) then DistinctDates(files) else DistinctDates(files) + [f.uploadDate]
  {
    assert (files + [f])[..|files|] == files;
  }

  /** Appending a file extends the group of its date only. */
  lemma FilesOnAppend(files: seq<EvidenceFile>, f: EvidenceFile, d: string)
    ensures FilesOn(files + [f], d) == if f.uploadDate == d then FilesOn(files, d) + [f] else FilesOn(files, d)
  {
    Seqs.FilterAppend(files, [f], HasDate(d));
    assert Seqs.Filter([f], HasDate(d)) == (if f.uploadDate == d then [f] else []) + Seqs.Filter([], HasDate(d));
  }

  /** A date no file has selects nothing. */
  lemma {:induction false} NoneOn(files: seq<EvidenceFile>, d: string)
    requires d !in DistinctDates(files)
    ensures FilesOn(files, d) == []
  {
    if FilesOn(files, d) != [] {
      Seqs.FilterMultiset(files, HasDate(d), FilesOn(files, d)[0]);
    }
  }

  /** `grouped` is the grouping of `files`, with its keys in insertion order. */
  ghost predicate GroupedAs(files: seq<EvidenceFile>, keys: seq<string>, grouped: map<string, seq<EvidenceFile>>) {
    && keys == DistinctDates(files)
    && (forall d :: d in grouped <==> d in keys)
    && (forall d :: d in grouped ==> grouped[d] == FilesOn(files, d))
  }

  /** One step of the loop: create the file's group when missing, then push the file to it. */
  lemma GroupStep(files: seq<EvidenceFile>, file: EvidenceFile, keys: seq<string>, grouped: map<string, seq<EvidenceFile>>)
    requires GroupedAs(files, keys, grouped)
    ensures var d := file.uploadDate;
            var created := if d in grouped then grouped else grouped[d := []];
            GroupedAs(files + [file],
                      if d in grouped then keys else keys + [d],
                      created[d := created[d] + [file]])
  {
    var d := file.uploadDate;
    var keys' := if d in grouped then keys else keys + [d];
    var created := if d in grouped then grouped else grouped[d := []];
    var g := created[d := created[d] + [file]];
    DatesAppend(files, file);
    assert keys' == DistinctDates(files + [file]);
    assert forall e :: e in g <==> e in keys';
    forall e | e in g ensures g[e] == FilesOn(files + [file], e) {
      FilesOnAppend(files, file, e);
      if e == d && d !in grouped {
        NoneOn(files, d);
      }
    }
  }

  /**
   * `groupEvidenceByDate`: one entry per date, each holding the files of that
   * date in input order; `keys` are the dates in insertion order.
   */
  method GroupByDate(files: seq<EvidenceFile>) returns (keys: seq<string>, grouped: map<string, seq<EvidenceFile>>)
    ensures keys == DistinctDates(files)
    ensures forall d :: d in grouped <==> d in keys
    ensures forall d :: d in grouped ==> grouped[d] == FilesOn(files, d)
  {
    keys, grouped := [], map[];
    var i := 0;
    while i < |files|
      invariant 0 <= i <= |files|
      invariant GroupedAs(files[..i], keys, grouped)
    {
      var file := files[i];
      assert files[..i + 1] == files[..i] + [file];
      GroupStep(files[..i], file, keys, grouped);
      if file.uploadDate !in grouped {
        grouped := grouped[file.uploadDate := []];
        keys := keys + [file.uploadDate];
      }
      grouped := grouped[file.uploadDate := grouped[file.uploadDate] + [file]];
      i := i + 1;
    }
    assert files[..i] == files;
  }

  // ---------------------------------------------------------------- lemmas

  /** The groups laid end to end, in key order. */
  function Flatten(files: seq<EvidenceFile>, keys: seq<string>): seq<EvidenceFile> {
    if keys == [] then [] else FilesOn(files, keys[0]) + Flatten(files, keys[1..])
  }

  /** Over distinct keys, a file appears in the flattened groups as often as in the input if its date is a key, else never. */
  lemma {:induction false} FlattenCount(files: seq<EvidenceFile>, keys: seq<string>, f: EvidenceFile)
    requires Distinct(keys)
    ensures multiset(Flatten(files, keys))[f] == if f.uploadDate in keys then multiset(files)[f] else 0
  {
    if keys != [] {
      var k := keys[0];
      assert Distinct(keys[1..]);
      FlattenCount(files, keys[1..], f);
      Seqs.FilterMultiset(files, HasDate(k), f);
      assert multiset(Flatten(files, keys)) == multiset(FilesOn(files, k)) + multiset(Flatten(files, keys[1..]));
      if k == f.uploadDate {
        assert k !in keys[1..];
      }
    }
  }

  /** The groups form a partition of the files: nothing dropped, nothing duplicated. */
  lemma GroupingPartitions(files: seq<EvidenceFile>)
    ensures multiset(Flatten(files, DistinctDates(files))) == multiset(files)
    ensures |Flatten(files, DistinctDates(files))| == |files|
  {
    var keys := DistinctDates(files);
    forall f ensures multiset(Flatten(files, keys))[f] == multiset(files)[f] {
      FlattenCount(files, keys, f);
      if f in files {
        var i :| 0 <= i < |files| && files[i] == f;
      }
    }
    assert multiset(Flatten(files, keys)) == multiset(files);
    assert |multiset(Flatten(files, keys))| == |multiset(files)|;
  }

  /** Every file lands in the group of its own date and in no other. */
  lemma FileInItsGroup(files: seq<EvidenceFile>, f: EvidenceFile, d: string)
    requires f in files
    ensures f.uploadDate in DistinctDates(files)
    ensures f in FilesOn(files, d) <==> d == f.uploadDate
  {
    var i :| 0 <= i < |files| && files[i] == f;
    Seqs.FilterMultiset(files, HasDate(d), f);
  }

  /** No group is empty. */
  lemma GroupsNonEmpty(files: seq<EvidenceFile>, d: string)
    requires d in DistinctDates(files)
    ensures |FilesOn(files, d)| > 0
  {
    var i :| 0 <= i < |files| && files[i].uploadDate == d;
    Seqs.FilterMultiset(files, HasDate(d), files[i]);
  }

  /** Within a group, files keep their input order. */
  lemma GroupKeepsOrder(files: seq<EvidenceFile>, d: string)
    ensures Seqs.IsSubseq(FilesOn(files, d), files)
  {
    Seqs.FilterIsSubseq(files, HasDate(d));
  }

  /** What the list shows for a tab: the groups of the filtered files, all of the tab's type. */
  method Displayed(files: seq<EvidenceFile>, tab: Tab) returns (keys: seq<string>, grouped: map<string, seq<EvidenceFile>>)
    ensures keys == DistinctDates(FilteredEvidence(files, tab))
    ensures forall d :: d in grouped ==> |grouped[d]| > 0
    ensures forall d, i :: d in grouped && 0 <= i < |grouped[d]| ==>
      grouped[d][i].kind == TabKind(tab) && grouped[d][i].uploadDate == d
  {
    var shown := FilteredEvidence(files, tab);
    keys, grouped := GroupByDate(shown);
    forall d | d in grouped ensures |grouped[d]| > 0 {
      GroupsNonEmpty(shown, d);
    }
    forall d, i | d in grouped && 0 <= i < |grouped[d]|
      ensures grouped[d][i].kind == TabKind(tab)
    {
      GroupMemberOfKind(shown, TabKind(tab), d, i);
    }
  }

  /** A file of a group is one of the grouped files, so it shares whatever kind they all have. */
  lemma GroupMemberOfKind(shown: seq<EvidenceFile>, kind: MediaType, d: string, i: nat)
    requires forall j :: 0 <= j < |shown| ==> shown[j].kind == kind
    requires i < |FilesOn(shown, d)|
    ensures FilesOn(shown, d)[i].kind == kind
  {
    var f := FilesOn(shown, d)[i];
    Seqs.FilterMultiset(shown, HasDate(d), f);
    assert f in multiset(FilesOn(shown, d));
    var j :| 0 <= j < |shown| && shown[j] == f;
  }
}
