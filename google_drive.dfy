/**
 * Google Drive URL handling: extracting a file id with three regular
 * expressions tried in order, and building the embed and direct-view URLs.
 *
 * Each regular expression is modelled by what a leftmost, backtracking match
 * returns:
 *   /drive\.google\.com\/file\/d\/([^\/\?]+)/  -> FileMatchAt
 *   /drive\.google\.com\/open\?id=([^&]+)/     -> OpenMatchAt
 *   /drive\.google\.com\/uc\?.*id=([^&]+)/     -> UcMatchAt
 * The capture group `([^...]+)` is the maximal run of allowed characters
 * (greedy); `.*` does not cross a line terminator and, being greedy, makes the
 * LAST suitable `id=` on the line win.
 */
module GoogleDrive {
  import opened Wrappers
  import opened Strings

  const Host: string := "drive.google.com"
  const FileLiteral: string := "drive.google.com/file/d/"
  const OpenLiteral: string := "drive.google.com/open?id="
  const UcLiteral: string := "drive.google.com/uc?"
  const IdKey: string := "id="

  const EmbedPrefix: string := "https://drive.google.com/file/d/"
  const EmbedSuffix: string := "/preview"
  const ViewQuery: string := "export=view&"
  /** `https://drive.google.com/uc?export=view&id=`, written by its parts. */
  const ViewPrefix: string := "https://" + UcLiteral + ViewQuery + IdKey

  /** The characters `[^\/\?]` excludes. */
  predicate IsSlashOrQuery(c: char) { c == '/' || c == '?' }

  /** The character `[^&]` excludes. */
  predicate IsAmp(c: char) { c == '&' }

  /** The characters JavaScript's `.` does not match. */
  predicate IsLineTerminator(c: char) {
    c == '\n' || c == '\r' || c == '\U{2028}' || c == '\U{2029}'
  }

  // ------------------------------------------------------ capture groups

  /** The greedy capture `([^stop]*)` starting at index `k`: the longest run of non-stop characters. */
  function RunFrom(s: string, k: nat, stop: char -> bool): (r: string)
    requires k <= |s|
    ensures k + |r| <= |s| && r == s[k..k + |r|]
    ensures forall i :: 0 <= i < |r| ==> !stop(r[i])
    ensures k + |r| == |s| || stop(s[k + |r|])
    decreases |s| - k
  {
    if k < |s| && !stop(s[k]) then [s[k]] + RunFrom(s, k + 1, stop) else []
  }

  /** A maximal run is determined by where it starts. */
  lemma {:induction false} RunFromExact(s: string, k: nat, stop: char -> bool, t: string)
    requires k + |t| <= |s| && s[k..k + |t|] == t
    requires forall i :: 0 <= i < |t| ==> !stop(t[i])
    requires k + |t| == |s| || stop(s[k + |t|])
    ensures RunFrom(s, k, stop) == t
    decreases |t|
  {
    if t != [] {
      assert s[k] == t[0];
      assert s[k + 1..k + 1 + |t[1..]|] == t[1..];
      RunFromExact(s, k + 1, stop, t[1..]);
    }
  }

  // ------------------------------------- patterns 1 and 2: literal, then a run

  /** `lit` occurs at `i` and is followed by at least one character of the group. */
  predicate LiteralRunAt(s: string, lit: string, stop: char -> bool, i: nat) {
    OccursAt(s, lit, i) && i + |lit| < |s| && !stop(s[i + |lit|])
  }

  /** Leftmost start position, at or after `i`, where `lit` followed by a group character matches. */
  function FirstLiteralRun(s: string, lit: string, stop: char -> bool, i: nat): (p: Option<nat>)
    ensures p.Some? ==> i <= p.value && LiteralRunAt(s, lit, stop, p.value)
    ensures p.Some? ==> forall k: nat :: i <= k < p.value ==> !LiteralRunAt(s, lit, stop, k)
    ensures p.None? ==> forall k: nat :: i <= k ==> !LiteralRunAt(s, lit, stop, k)
    decreases |s| - i
  {
    if i + |lit| >= |s| then None
    else if LiteralRunAt(s, lit, stop, i) then Some(i)
    else FirstLiteralRun(s, lit, stop, i + 1)
  }

  predicate FileMatchAt(s: string, i: nat) { LiteralRunAt(s, FileLiteral, IsSlashOrQuery, i) }

  predicate OpenMatchAt(s: string, i: nat) { LiteralRunAt(s, OpenLiteral, IsAmp, i) }

  // ------------------------------------------ pattern 3: literal, `.*`, `id=`, run

  predicate NoLineBreak(s: string, a: nat, b: nat)
    requires a <= b <= |s|
  {
    forall m :: a <= m < b ==> !IsLineTerminator(s[m])
  }

  /** `id=` at `j`, followed by at least one character other than `&`. */
  predicate IdValueAt(s: string, j: nat) {
    OccursAt(s, IdKey, j) && j + 3 < |s| && !IsAmp(s[j + 3])
  }

  /** Pattern 3 matches with the literal at `i` and its `id=` at `j`. */
  predicate UcMatchAt(s: string, i: nat, j: nat) {
    && OccursAt(s, UcLiteral, i)
    && i + |UcLiteral| <= j
    && IdValueAt(s, j)
    && NoLineBreak(s, i + |UcLiteral|, j)
  }

  /** The first line terminator at or after `k`, or the end of `s`. */
  function LineEnd(s: string, k: nat): (e: nat)
    requires k <= |s|
    ensures k <= e <= |s|
    ensures e == |s| || IsLineTerminator(s[e])
    ensures NoLineBreak(s, k, e)
    decreases |s| - k
  {
    if k == |s| || IsLineTerminator(s[k]) then k else LineEnd(s, k + 1)
  }

  /** The largest `j` in `[lo, hi)` with `IdValueAt(s, j)`: what a greedy `.*` backtracks to. */
  function LastIdValue(s: string, lo: nat, hi: nat): (p: Option<nat>)
    ensures p.Some? ==> lo <= p.value < hi && IdValueAt(s, p.value)
    ensures p.Some? ==> forall m: nat :: p.value < m < hi ==> !IdValueAt(s, m)
    ensures p.None? ==> forall m: nat :: lo <= m < hi ==> !IdValueAt(s, m)
    decreases hi
  {
    if hi <= lo then None
    else if IdValueAt(s, hi - 1) then Some(hi - 1)
    else LastIdValue(s, lo, hi - 1)
  }

  /** Where pattern 3, started at `i`, finds its `id=`. */
  function UcIdAt(s: string, i: nat): (p: Option<nat>)
    ensures p.Some? ==> UcMatchAt(s, i, p.value)
    ensures p.Some? ==> forall m: nat :: p.value < m ==> !UcMatchAt(s, i, m)
    ensures p.None? ==> forall m: nat :: !UcMatchAt(s, i, m)
  {
    if OccursAt(s, UcLiteral, i) then
      var from := i + |UcLiteral|;
      var e := LineEnd(s, from);
      var p := LastIdValue(s, from, e);
      assert forall m: nat :: e <= m && from <= m ==> !UcMatchAt(s, i, m) by {
        forall m: nat | e <= m && from <= m ensures !UcMatchAt(s, i, m) {
          if m > e && m <= |s| { assert !NoLineBreak(s, from, m); }
        }
      }
      p
    else None
  }

  /** Leftmost start at or after `i` where pattern 3 matches, with the `id=` it uses. */
  function FirstUc(s: string, i: nat): (p: Option<(nat, nat)>)
    ensures p.Some? ==> i <= p.value.0 && UcMatchAt(s, p.value.0, p.value.1)
    ensures p.Some? ==> forall m: nat :: p.value.1 < m ==> !UcMatchAt(s, p.value.0, m)
    ensures p.Some? ==> forall k: nat, m: nat :: i <= k < p.value.0 ==> !UcMatchAt(s, k, m)
    ensures p.None? ==> forall k: nat, m: nat :: i <= k ==> !UcMatchAt(s, k, m)
    decreases |s| - i
  {
    if i >= |s| then
      assert forall k: nat :: i <= k ==> !OccursAt(s, UcLiteral, k);
      None
    else
      match UcIdAt(s, i)
      case Some(j) => Some((i, j))
      case None => FirstUc(s, i + 1)
  }

  // ---------------------------------------------------------- extractFileId

  /** The group of pattern 1 at its leftmost match. */
  function FileId(url: string): (r: Option<string>)
    ensures r.Some? ==> |r.value| > 0
    ensures forall i: nat ::
      FileMatchAt(url, i) && (forall k: nat :: k < i ==> !FileMatchAt(url, k)) ==>
        r == Some(RunFrom(url, i + |FileLiteral|, IsSlashOrQuery))
    ensures r.None? <==> forall k: nat :: !FileMatchAt(url, k)
  {
    assert forall k: nat :: FileMatchAt(url, k) == LiteralRunAt(url, FileLiteral, IsSlashOrQuery, k);
    match FirstLiteralRun(url, FileLiteral, IsSlashOrQuery, 0)
    case Some(p) => Some(RunFrom(url, p + |FileLiteral|, IsSlashOrQuery))
    case None => None
  }

  /** The group of pattern 2 at its leftmost match. */
  function OpenId(url: string): (r: Option<string>)
    ensures r.Some? ==> |r.value| > 0
    ensures forall i: nat ::
      OpenMatchAt(url, i) && (forall k: nat :: k < i ==> !OpenMatchAt(url, k)) ==>
        r == Some(RunFrom(url, i + |OpenLiteral|, IsAmp))
    ensures r.None? <==> forall k: nat :: !OpenMatchAt(url, k)
  {
    assert forall k: nat :: OpenMatchAt(url, k) == LiteralRunAt(url, OpenLiteral, IsAmp, k);
    match FirstLiteralRun(url, OpenLiteral, IsAmp, 0)
    case Some(p) => Some(RunFrom(url, p + |OpenLiteral|, IsAmp))
    case None => None
  }

  /** The group of pattern 3: leftmost start, last `id=` on that line. */
  function UcId(url: string): (r: Option<string>)
    ensures r.Some? ==> |r.value| > 0
    ensures r.None? <==> forall k: nat, m: nat :: !UcMatchAt(url, k, m)
  {
    match FirstUc(url, 0)
    case Some((_, j)) => Some(RunFrom(url, j + |IdKey|, IsAmp))
    case None => None
  }

  /** The group `UcId` returns is the one after the last `id=` of the leftmost match. */
  lemma UcIdLeftmostLast(url: string, i: nat, j: nat)
    requires UcMatchAt(url, i, j) && (forall k: nat, m: nat :: k < i ==> !UcMatchAt(url, k, m))
    requires forall m: nat :: j < m ==> !UcMatchAt(url, i, m)
    ensures UcId(url) == Some(RunFrom(url, j + |IdKey|, IsAmp))
  {
    var p := FirstUc(url, 0);
    assert p.Some?;
    LeftmostLastUnique((k: nat, m: nat) => UcMatchAt(url, k, m), i, j, p.value.0, p.value.1);
  }

  /** Of a relation, at most one pair is leftmost in its first part and last in its second. */
  lemma LeftmostLastUnique(matches: (nat, nat) -> bool, i: nat, j: nat, i0: nat, j0: nat)
    requires matches(i, j) && (forall k: nat, m: nat :: k < i ==> !matches(k, m))
    requires forall m: nat :: j < m ==> !matches(i, m)
    requires matches(i0, j0) && (forall k: nat, m: nat :: k < i0 ==> !matches(k, m))
    requires forall m: nat :: j0 < m ==> !matches(i0, m)
    ensures i == i0 && j == j0
  {
  }


  /**
   * `extractFileId`: the capture group of the first of the three patterns that
   * matches, each at its leftmost position; None when none of them matches.
   */
  function ExtractFileId(url: string): (r: Option<string>)
    ensures r.Some? ==> |r.value| > 0
    // Pattern 1 wins wherever it matches, at its leftmost position.
    ensures forall i: nat ::
      FileMatchAt(url, i) && (forall k: nat :: k < i ==> !FileMatchAt(url, k)) ==>
        r == Some(RunFrom(url, i + |FileLiteral|, IsSlashOrQuery))
    // Pattern 2 is consulted only when pattern 1 matches nowhere.
    ensures (forall k: nat :: !FileMatchAt(url, k)) ==>
      forall i: nat ::
        OpenMatchAt(url, i) && (forall k: nat :: k < i ==> !OpenMatchAt(url, k)) ==>
          r == Some(RunFrom(url, i + |OpenLiteral|, IsAmp))
    // Pattern 3 only when neither of the others matches: leftmost start, last `id=`.
    ensures (forall k: nat :: !FileMatchAt(url, k)) && (forall k: nat :: !OpenMatchAt(url, k)) ==>
      forall i: nat, j: nat ::
        UcMatchAt(url, i, j) && (forall k: nat, m: nat :: k < i ==> !UcMatchAt(url, k, m)) &&
        (forall m: nat :: j < m ==> !UcMatchAt(url, i, m)) ==>
          r == Some(RunFrom(url, j + |IdKey|, IsAmp))
    // No id exactly when no pattern matches anywhere.
    ensures r.None? <==>
      (forall k: nat :: !FileMatchAt(url, k)) && (forall k: nat :: !OpenMatchAt(url, k)) &&
      (forall k: nat, m: nat :: !UcMatchAt(url, k, m))
  {
    var file := FileId(url);
    if file.Some? then file
    else
      var open := OpenId(url);
      assert forall i: nat, j: nat ::
        UcMatchAt(url, i, j) && (forall k: nat, m: nat :: k < i ==> !UcMatchAt(url, k, m)) &&
        (forall m: nat :: j < m ==> !UcMatchAt(url, i, m)) ==>
          UcId(url) == Some(RunFrom(url, j + |IdKey|, IsAmp)) by {
        forall i: nat, j: nat |
          UcMatchAt(url, i, j) && (forall k: nat, m: nat :: k < i ==> !UcMatchAt(url, k, m)) &&
          (forall m: nat :: j < m ==> !UcMatchAt(url, i, m))
          ensures UcId(url) == Some(RunFrom(url, j + |IdKey|, IsAmp)) {
          UcIdLeftmostLast(url, i, j);
        }
      }
      if open.Some? then open else UcId(url)
  }

  // ------------------------------------------------------------ converters

  /** The result of `convertGoogleDriveVideoUrl`. */
  datatype VideoSource = VideoSource(isGoogleDrive: bool, embedUrl: string)

  /** `convertGoogleDriveVideoUrl`: the Drive preview (embed) URL when an id is found, else the URL itself. */
  function ConvertGoogleDriveVideoUrl(url: string): (r: VideoSource)
    ensures r.isGoogleDrive <==> ExtractFileId(url).Some?
    ensures r.isGoogleDrive ==> r.embedUrl == EmbedPrefix + ExtractFileId(url).value + EmbedSuffix
    ensures !r.isGoogleDrive ==> r.embedUrl == url
  {
    match ExtractFileId(url)
    case Some(id) => VideoSource(true, EmbedPrefix + id + EmbedSuffix)
    case None => VideoSource(false, url)
  }

  /** `convertGoogleDriveImageUrl`: the Drive direct-view URL when an id is found, else the URL itself. */
  function ConvertGoogleDriveImageUrl(url: string): (r: string)
    ensures ExtractFileId(url).Some? ==> r == ViewPrefix + ExtractFileId(url).value
    ensures ExtractFileId(url).None? ==> r == url
  {
    match ExtractFileId(url)
    case Some(id) => ViewPrefix + id
    case None => url
  }

  /** `isGoogleDriveUrl`: `/drive\.google\.com/.test(url)`. */
  predicate IsGoogleDriveUrl(url: string) {
    Contains(url, Host)
  }

  // ---------------------------------------------------------------- lemmas

  lemma FileMatchHasHost(url: string, k: nat)
    requires FileMatchAt(url, k)
    ensures IsGoogleDriveUrl(url)
  {
    assert FileLiteral == Host + "/file/d/";
    OccursAtPrefix(url, Host, "/file/d/", k);
  }

  lemma OpenMatchHasHost(url: string, k: nat)
    requires OpenMatchAt(url, k)
    ensures IsGoogleDriveUrl(url)
  {
    assert OpenLiteral == Host + "/open?id=";
    OccursAtPrefix(url, Host, "/open?id=", k);
  }

  lemma UcMatchHasHost(url: string, k: nat, m: nat)
    requires UcMatchAt(url, k, m)
    ensures IsGoogleDriveUrl(url)
  {
    assert UcLiteral == Host + "/uc?";
    OccursAtPrefix(url, Host, "/uc?", k);
  }

  /** Every pattern begins with the host, so a found id implies a Drive URL. */
  lemma ExtractedIdImpliesDriveUrl(url: string)
    requires ExtractFileId(url).Some?
    ensures IsGoogleDriveUrl(url)
  {
    if FileId(url).Some? {
      var k: nat :| FileMatchAt(url, k);
      FileMatchHasHost(url, k);
    } else if OpenId(url).Some? {
      var k: nat :| OpenMatchAt(url, k);
      OpenMatchHasHost(url, k);
    } else {
      var k: nat, m: nat :| UcMatchAt(url, k, m);
      UcMatchHasHost(url, k, m);
    }
  }

  /** A URL without the host is passed through unchanged by both converters. */
  lemma NonDriveUrlUnchanged(url: string)
    requires !IsGoogleDriveUrl(url)
    ensures ConvertGoogleDriveVideoUrl(url) == VideoSource(false, url)
    ensures ConvertGoogleDriveImageUrl(url) == url
  {
    if ExtractFileId(url).Some? {
      ExtractedIdImpliesDriveUrl(url);
    }
  }

  /** The preview URL built for an id (without `/` or `?`) yields that id again. */
  lemma {:induction false} EmbedUrlRoundTrip(id: string)
    requires id != []
    requires forall i :: 0 <= i < |id| ==> !IsSlashOrQuery(id[i])
    ensures ExtractFileId(EmbedPrefix + id + EmbedSuffix) == Some(id)
  {
    var e := EmbedPrefix + id + EmbedSuffix;
    assert e[..|EmbedPrefix|] == EmbedPrefix;
    assert e[8..32] == FileLiteral;
    assert e[32] == id[0];
    assert FileMatchAt(e, 8);
    forall k: nat | k < 8 ensures !FileMatchAt(e, k) {
      assert e[k] == EmbedPrefix[k] != 'd';
      NotOccursAtOffset(e, FileLiteral, k, 0);
    }
    assert e[32..32 + |id|] == id;
    assert e[32 + |id|] == '/';
    RunFromExact(e, 32, IsSlashOrQuery, id);
  }

  /** The characters of a Drive file id: `[A-Za-z0-9_-]`. */
  predicate IsDriveIdChar(c: char) {
    ('A' <= c <= 'Z') || ('a' <= c <= 'z') || ('0' <= c <= '9') || c == '_' || c == '-'
  }

  predicate IsDriveId(id: string) {
    id != [] && forall i :: 0 <= i < |id| ==> IsDriveIdChar(id[i])
  }

  /** In `p + id`, a character `id` does not contain can only come from `p`. */
  lemma FromPrefix(p: string, id: string, c: char, i: nat)
    requires i < |p + id| && (p + id)[i] == c
    requires forall j :: 0 <= j < |id| ==> id[j] != c
    ensures i < |p| && p[i] == c
  {
  }

  lemma ViewPrefixSlashes(i: nat)
    requires i < |ViewPrefix| && ViewPrefix[i] == '/'
    ensures i == 6 || i == 7 || i == 24
  {
    assert i < 43;
    assert i == 0 || i == 1 || i == 2 || i == 3 || i == 4 || i == 5 || i == 6 || i == 7 || i == 8 || i == 9 ||
      i == 10 || i == 11 || i == 12 || i == 13 || i == 14 || i == 15 || i == 16 || i == 17 || i == 18 || i == 19 ||
      i == 20 || i == 21 || i == 22 || i == 23 || i == 24 || i == 25 || i == 26 || i == 27 || i == 28 || i == 29 ||
      i == 30 || i == 31 || i == 32 || i == 33 || i == 34 || i == 35 || i == 36 || i == 37 || i == 38 || i == 39 ||
      i == 40 || i == 41 || i == 42;
  }

  lemma ViewPrefixQueries(i: nat)
    requires i < |ViewPrefix| && ViewPrefix[i] == '?'
    ensures i == 27
  {
    assert i < 43;
    assert i == 0 || i == 1 || i == 2 || i == 3 || i == 4 || i == 5 || i == 6 || i == 7 || i == 8 || i == 9 ||
      i == 10 || i == 11 || i == 12 || i == 13 || i == 14 || i == 15 || i == 16 || i == 17 || i == 18 || i == 19 ||
      i == 20 || i == 21 || i == 22 || i == 23 || i == 24 || i == 25 || i == 26 || i == 27 || i == 28 || i == 29 ||
      i == 30 || i == 31 || i == 32 || i == 33 || i == 34 || i == 35 || i == 36 || i == 37 || i == 38 || i == 39 ||
      i == 40 || i == 41 || i == 42;
  }

  /** Pattern 1 needs `/` at offsets 16 and 23 of its literal; a view URL has `/` only at 6, 7 and 24 before the id. */
  lemma ViewUrlNoFileMatch(id: string, k: nat)
    requires IsDriveId(id)
    ensures !FileMatchAt(ViewPrefix + id, k)
  {
    var e := ViewPrefix + id;
    if k + 23 < |e| && e[k + 23] == '/' {
      FromPrefix(ViewPrefix, id, '/', k + 23);
      ViewPrefixSlashes(k + 23);
      assert k == 1 && e[17] == ViewPrefix[17] == 'g';
      NotOccursAtOffset(e, FileLiteral, k, 16);
    } else {
      NotOccursAtOffset(e, FileLiteral, k, 23);
    }
  }

  /** Pattern 2 needs `?` at offset 21 of its literal; the only `?` is at 27, preceded at 6 by `/`, not `d`. */
  lemma ViewUrlNoOpenMatch(id: string, k: nat)
    requires IsDriveId(id)
    ensures !OpenMatchAt(ViewPrefix + id, k)
  {
    var e := ViewPrefix + id;
    if k + 21 < |e| && e[k + 21] == '?' {
      FromPrefix(ViewPrefix, id, '?', k + 21);
      ViewPrefixQueries(k + 21);
      assert e[6] == ViewPrefix[6] == '/';
      NotOccursAtOffset(e, OpenLiteral, k, 0);
    } else {
      NotOccursAtOffset(e, OpenLiteral, k, 21);
    }
  }

  /** Pattern 3 cannot start before 8: its literal has `?` at offset 19. */
  lemma ViewUrlNoEarlierUc(id: string, k: nat, m: nat)
    requires IsDriveId(id) && k < 8
    ensures !UcMatchAt(ViewPrefix + id, k, m)
  {
    var e := ViewPrefix + id;
    assert e[k + 19] == ViewPrefix[k + 19];
    NotOccursAtOffset(e, UcLiteral, k, 19);
  }

  /** No `id=` after position 40: the id itself holds no `=`. */
  lemma ViewUrlNoLaterId(id: string, m: nat)
    requires IsDriveId(id) && 40 < m
    ensures !IdValueAt(ViewPrefix + id, m)
  {
    var e := ViewPrefix + id;
    if m + 2 < |e| {
      assert e[m + 2] == id[m + 2 - |ViewPrefix|];
    }
    NotOccursAtOffset(e, IdKey, m, 2);
  }

  lemma ViewUrlUcMatch(id: string)
    requires IsDriveId(id)
    ensures UcMatchAt(ViewPrefix + id, 8, 40)
  {
    var e := ViewPrefix + id;
    ViewPrefixParts();
    assert e[..|ViewPrefix|] == ViewPrefix;
    assert e[8..28] == ViewPrefix[8..28];
    assert e[40..43] == ViewPrefix[40..43];
    assert e[43] == id[0];
    forall m: nat | 28 <= m < 40 ensures !IsLineTerminator(e[m]) {
      assert e[m] == ViewPrefix[m];
    }
  }

  /** Where the literal and the `id=` sit in the direct-view prefix, and that no line break lies between. */
  lemma ViewPrefixParts()
    ensures |ViewPrefix| == 43
    ensures ViewPrefix[8..28] == UcLiteral && ViewPrefix[40..43] == IdKey
    ensures forall m: nat | 28 <= m < 40 :: !IsLineTerminator(ViewPrefix[m])
  {
    var a := "https://" + UcLiteral;
    assert ViewPrefix == a + ViewQuery + IdKey;
    assert forall k | 0 <= k < |ViewQuery| :: ViewQuery[k] in "export=view&";
    forall m: nat | 28 <= m < 40 ensures !IsLineTerminator(ViewPrefix[m]) {
      assert ViewPrefix[m] == ViewQuery[m - 28];
    }
  }

  /** The direct-view URL built for a Drive id yields that id again (through pattern 3). */
  lemma ViewUrlRoundTrip(id: string)
    requires IsDriveId(id)
    ensures ExtractFileId(ViewPrefix + id) == Some(id)
  {
    var e := ViewPrefix + id;
    forall k: nat ensures !FileMatchAt(e, k) {
      ViewUrlNoFileMatch(id, k);
    }
    forall k: nat ensures !OpenMatchAt(e, k) {
      ViewUrlNoOpenMatch(id, k);
    }
    ViewUrlUcMatch(id);
    forall k: nat, m: nat | k < 8 ensures !UcMatchAt(e, k, m) {
      ViewUrlNoEarlierUc(id, k, m);
    }
    forall m: nat | 40 < m ensures !UcMatchAt(e, 8, m) {
      ViewUrlNoLaterId(id, m);
    }
    assert e[43..] == id;
    RunFromExact(e, 43, IsAmp, id);
  }

  /** Converting an embed URL again changes nothing, when the id carries no `/` or `?` (as Drive ids do not). */
  lemma VideoConversionIdempotent(url: string)
    requires ExtractFileId(url).Some? ==>
      forall i :: 0 <= i < |ExtractFileId(url).value| ==> !IsSlashOrQuery(ExtractFileId(url).value[i])
    ensures ConvertGoogleDriveVideoUrl(ConvertGoogleDriveVideoUrl(url).embedUrl) == ConvertGoogleDriveVideoUrl(url)
  {
    if ExtractFileId(url).Some? {
      EmbedUrlRoundTrip(ExtractFileId(url).value);
    }
  }

  /** Converting a direct-view URL again changes nothing, when the id is a Drive id. */
  lemma ImageConversionIdempotent(url: string)
    requires ExtractFileId(url).Some? ==> IsDriveId(ExtractFileId(url).value)
    ensures ConvertGoogleDriveImageUrl(ConvertGoogleDriveImageUrl(url)) == ConvertGoogleDriveImageUrl(url)
  {
    if ExtractFileId(url).Some? {
      ViewUrlRoundTrip(ExtractFileId(url).value);
    }
  }
}
