/**
 * The past-cases page: the list of cases loaded from the cases service, the
 * title search over it, which cases open on a click, the status badge and
 * action of each row and the banner shown while some case is still
 * processing. The page's rules are stated over `Row`, the view its field
 * reads have of a stored object, so that they apply both to the backend
 * records the listing delivers and to mapped cases.
 */
module PastCases {
  import opened Wrappers
  import opened Strings
  import Seqs
  import opened CasesService

  // ---------------------------------------------------------------- rows

  /**
   * A row of the table: the object `setCases` stored, as the page's reads of
   * `id`, `title`, `uploadProgress` and `status` see it. A field the object
   * lacks reads as `undefined`, here `None`.
   */
  datatype Row = Row(id: Option<string>, title: string, uploadProgress: Option<int>, status: string)

  /**
   * A backend record read through the page's field names: its own id, title
   * and unmapped status, and no `uploadProgress`, which a backend record
   * does not have.
   */
  function ListedRow(doc: CaseDocument): (r: Row)
    ensures r.id == doc.id && r.title == doc.title && r.status == doc.status && r.uploadProgress.None?
  {
    Row(doc.id, doc.title, None, doc.status)
  }

  /** A case in the page's own shape, read through the same field names. */
  function CaseRow(c: Case): (r: Row)
    ensures r.id == c.id && r.title == c.title && r.status == c.status && r.uploadProgress == Some(c.uploadProgress)
  {
    Row(c.id, c.title, Some(c.uploadProgress), c.status)
  }

  /** The rows of the elements of a response, each read with `asRow`. */
  function Rows<T>(xs: seq<T>, asRow: T -> Row): (r: seq<Row>)
    ensures |r| == |xs|
    ensures forall i :: 0 <= i < |xs| ==> r[i] == asRow(xs[i])
  {
    seq(|xs|, i requires 0 <= i < |xs| => asRow(xs[i]))
  }

  // -------------------------------------------------------------- loading

  /** What the page shows: a spinner, an error text, or the case table. */
  datatype View = Loading | ErrorShown(text: string) | Table(rows: seq<Row>)

  const LoadFailed: string := "Failed to load cases."
  const LoadThrew: string := "An unexpected error occurred."

  /**
   * The page after `loadCases` settles: the response's elements as rows on
   * success, a fixed text when the service reports failure, another when the
   * call itself throws (`None`). `asRow` says how the page's field reads see
   * an element of the response.
   */
  function AfterLoad<T>(response: Option<ApiResponse<seq<T>>>, asRow: T -> Row): (v: View)
    ensures v.Table? <==> response.Some? && response.value.success
    ensures v.Table? ==> v.rows == Rows(response.value.data, asRow)
    ensures response.Some? && !response.value.success ==> v == ErrorShown(LoadFailed)
    ensures response.None? ==> v == ErrorShown(LoadThrew)
  {
    match response
    case None => ErrorShown(LoadThrew)
    case Some(r) => if r.success then Table(Rows(r.data, asRow)) else ErrorShown(LoadFailed)
  }

  /**
   * Whatever the backend does, the service never throws, so the second error
   * text is never shown; on a reply the table holds the backend records
   * themselves.
   */
  lemma LoadFromService(outcome: Outcome<seq<CaseDocument>>)
    ensures AfterLoad(Some(GetCases(outcome)), ListedRow) ==
      if outcome.Replied? then Table(Rows(outcome.body, ListedRow)) else ErrorShown(LoadFailed)
  {
  }

  // ------------------------------------------------------------- searching

  /** The row test against an already lower-cased query. */
  function TitleContains(needle: string): Row -> bool {
    (c: Row) => Contains(Lower(c.title), needle)
  }

  predicate Matches(c: Row, query: string) {
    Contains(Lower(c.title), Lower(query))
  }

  /** `filteredCases`: the cases whose lower-cased title includes the lower-cased query, in order. */
  function FilteredCases(cases: seq<Row>, query: string): (r: seq<Row>)
    ensures forall i :: 0 <= i < |r| ==> Matches(r[i], query)
    ensures Seqs.IsSubseq(r, cases)
    ensures forall c :: multiset(r)[c] == if Matches(c, query) then multiset(cases)[c] else 0
  {
    var r := Seqs.Filter(cases, TitleContains(Lower(query)));
    Seqs.FilterIsSubseq(cases, TitleContains(Lower(query)));
    forall c ensures multiset(r)[c] == if Matches(c, query) then multiset(cases)[c] else 0 {
      Seqs.FilterMultiset(cases, TitleContains(Lower(query)), c);
    }
    r
  }

  /** An empty query keeps every case. */
  lemma EmptyQueryKeepsAll(cases: seq<Row>)
    ensures FilteredCases(cases, "") == cases
  {
    forall i | 0 <= i < |cases| ensures TitleContains(Lower(""))(cases[i]) {
      ContainsEmpty(Lower(cases[i].title));
    }
    Seqs.FilterAll(cases, TitleContains(Lower("")));
  }

  lemma LowerIdempotent(s: string)
    ensures Lower(Lower(s)) == Lower(s)
  {
  }

  /** The search ignores the case of the query's letters. */
  lemma SearchIgnoresQueryCase(cases: seq<Row>, query: string)
    ensures FilteredCases(cases, Lower(query)) == FilteredCases(cases, query)
  {
    LowerIdempotent(query);
  }

  /** Typing more characters can only narrow the list: a case kept for `query + more` is kept for `query`. */
  lemma LongerQueryNarrows(cases: seq<Row>, query: string, more: string, c: Row)
    ensures multiset(FilteredCases(cases, query + more))[c] <= multiset(FilteredCases(cases, query))[c]
  {
    if Matches(c, query + more) {
      var t := Lower(c.title);
      assert Lower(query + more) == Lower(query) + Lower(more);
      var i: nat :| i <= |t| && OccursAt(t, Lower(query) + Lower(more), i);
      OccursAtPrefix(t, Lower(query), Lower(more), i);
      assert Matches(c, query);
    }
  }

  // -------------------------------------------------------------- clicking

  /** `handleCaseClick`: the route a click opens, only for a completed case; `undefined` ids are spelled out. */
  function ClickTarget(c: Row): (r: Option<string>)
    ensures r.Some? <==> c.status == "completed"
    ensures r.Some? ==> r.value == "/case/" + JsString(c.id)
  {
    if c.status == "completed" then Some("/case/" + JsString(c.id)) else None
  }

  /** The action column: an "Open" button for a completed case, "Processing..." for any other. */
  function ActionText(c: Row): (r: string)
    ensures r == "Open" <==> ClickTarget(c).Some?
    ensures r != "Open" ==> r == "Processing..."
  {
    if c.status == "completed" then "Open" else "Processing..."
  }

  // ---------------------------------------------------------------- badges

  datatype Badge = ProcessingBadge(progress: Option<int>) | CompletedBadge | FailedBadge

  /** A progress as JSX renders it as a child: the decimal number, or nothing for `undefined`. */
  function ProgressText(p: Option<int>): (r: string)
    ensures p.Some? ==> r == IntToString(p.value)
    ensures p.None? ==> r == ""
  {
    if p.Some? then IntToString(p.value) else ""
  }

  /** `getStatusBadge`: processing with its progress, completed, and every other status as failed. */
  function StatusBadge(c: Row): (b: Badge)
    ensures b.ProcessingBadge? <==> c.status == "processing"
    ensures b.ProcessingBadge? ==> b.progress == c.uploadProgress
    ensures b == CompletedBadge <==> c.status == "completed"
    ensures b == FailedBadge <==> c.status != "processing" && c.status != "completed"
  {
    if c.status == "processing" then ProcessingBadge(c.uploadProgress)
    else if c.status == "completed" then CompletedBadge
    else FailedBadge
  }

  /** The text inside a badge. */
  function BadgeText(b: Badge): (r: string)
    ensures b.ProcessingBadge? ==> r == "Processing " + ProgressText(b.progress) + "%"
    ensures b == CompletedBadge ==> r == "Completed"
    ensures b == FailedBadge ==> r == "Failed"
  {
    match b
    case ProcessingBadge(p) => "Processing " + ProgressText(p) + "%"
    case CompletedBadge => "Completed"
    case FailedBadge => "Failed"
  }

  /** Exactly the rows with a "Completed" badge open on a click. */
  lemma ClickableIffCompleted(c: Row)
    ensures ClickTarget(c).Some? <==> StatusBadge(c) == CompletedBadge
    ensures ClickTarget(c).Some? <==> BadgeText(StatusBadge(c)) == "Completed"
  {
    var b := StatusBadge(c);
    if b.ProcessingBadge? {
      var t := BadgeText(b);
      assert t[0] == 'P';
    }
  }

  /**
   * The listing as it reaches the page: a record the backend calls "active"
   * keeps that status, so its row shows the "Failed" badge and
   * "Processing...", and a click on it does nothing.
   */
  lemma ListedActiveCasesFail(outcome: Outcome<seq<CaseDocument>>, i: int)
    requires outcome.Replied? && 0 <= i < |outcome.body| && outcome.body[i].status == "active"
    ensures var v := AfterLoad(Some(GetCases(outcome)), ListedRow);
            && v.Table? && |v.rows| == |outcome.body|
            && StatusBadge(v.rows[i]) == FailedBadge && BadgeText(StatusBadge(v.rows[i])) == "Failed"
            && ClickTarget(v.rows[i]).None? && ActionText(v.rows[i]) == "Processing..."
  {
  }

  /** A listed record that is processing has no `uploadProgress`, so its badge reads "Processing %". */
  lemma ListedProgressBlank(doc: CaseDocument)
    requires doc.status == "processing"
    ensures BadgeText(StatusBadge(ListedRow(doc))) == "Processing %"
  {
  }

  /**
   * The listing mapped as the other reads map a record: an "active" record
   * shows as completed, and a click opens its page.
   */
  lemma MappedActiveCasesOpen(outcome: Outcome<seq<CaseDocument>>, i: int)
    requires outcome.Replied? && 0 <= i < |outcome.body| && outcome.body[i].status == "active"
    ensures var v := AfterLoad(Some(GetCasesMapped(outcome)), CaseRow);
            && v.Table? && |v.rows| == |outcome.body|
            && StatusBadge(v.rows[i]) == CompletedBadge
            && ClickTarget(v.rows[i]) == Some("/case/" + JsString(outcome.body[i].id))
            && ActionText(v.rows[i]) == "Open"
  {
  }

  // ------------------------------------------------------ banner and hint

  /** The processing banner: shown when some loaded case (not only a filtered one) is processing. */
  predicate ShowProcessingBanner(cases: seq<Row>) {
    exists i :: 0 <= i < |cases| && cases[i].status == "processing"
  }

  /** The banner is shown exactly when some row of the unfiltered list has a processing badge. */
  lemma BannerIffProcessingBadge(cases: seq<Row>)
    ensures ShowProcessingBanner(cases) <==> exists i :: 0 <= i < |cases| && StatusBadge(cases[i]).ProcessingBadge?
  {
  }

  datatype EmptyHint = AdjustSearch | CreateFirst

  /** The hint under "No cases found": adjust the search when there is a query, else create a first case. */
  function EmptyStateHint(query: string): (h: EmptyHint)
    ensures h == AdjustSearch <==> query != []
  {
    if query != [] then AdjustSearch else CreateFirst
  }

  /** The hint shown for an empty result depends only on whether a query was typed. */
  lemma HintOnlyOnQuery(a: string, b: string)
    requires (a == []) == (b == [])
    ensures EmptyStateHint(a) == EmptyStateHint(b)
  {
  }

  /** With no query the table is empty only when no case was loaded, so the hint then invites a first case. */
  lemma EmptyWithoutQuery(cases: seq<Row>)
    requires FilteredCases(cases, "") == []
    ensures cases == [] && EmptyStateHint("") == CreateFirst
  {
    EmptyQueryKeepsAll(cases);
  }
}
