/**
 * The video player's clip window: the bounds derived from the optional
 * `startTime`/`endTime` props and the media duration, the progress bar and
 * slider derived from them, the time label, and the playback state machine
 * driven by the element's events and the buttons.
 *
 * Times are exact reals (seconds). The HTML video element is modelled by its
 * current time, whether it is playing, and whether it has ended playback.
 * Three of its own rules enter: it pauses before firing `ended`; `play()` on
 * an element that has ended starts over from 0 (`ElementPlay`); and loading
 * a new `src` leaves it paused at time 0. A seek, a time report or a reload
 * clears the ended state.
 */
module VideoPlayer {
  import opened Wrappers
  import opened Strings

  // ------------------------------------------------------------ clip bounds

  /** `startTime ?? 0`. */
  function ClipStart(startTime: Option<real>): (r: real)
    ensures startTime.Some? ==> r == startTime.value
    ensures startTime.None? ==> r == 0.0
  {
    startTime.GetOr(0.0)
  }

  /** `endTime ?? duration`. */
  function ClipEnd(endTime: Option<real>, duration: real): (r: real)
    ensures endTime.Some? ==> r == endTime.value
    ensures endTime.None? ==> r == duration
  {
    endTime.GetOr(duration)
  }

  /** `Math.max(0, clipEnd - clipStart)`: the length of the window, or 0 when it is empty or inverted. */
  function ClipDuration(clipStart: real, clipEnd: real): (r: real)
    ensures r >= 0.0
    ensures r == 0.0 <==> clipEnd <= clipStart
    ensures r > 0.0 ==> clipStart + r == clipEnd
  {
    if clipEnd - clipStart > 0.0 then clipEnd - clipStart else 0.0
  }

  /** The progress bar width in per cent, clamped to [0, 100]; 0 for an empty window. */
  function ClipProgress(currentTime: real, clipStart: real, clipDuration: real): (r: real)
    ensures 0.0 <= r <= 100.0
    ensures clipDuration <= 0.0 ==> r == 0.0
    ensures clipDuration > 0.0 && clipStart <= currentTime <= clipStart + clipDuration ==>
      r * clipDuration == (currentTime - clipStart) * 100.0
  {
    if clipDuration > 0.0 then
      var raw := (currentTime - clipStart) / clipDuration * 100.0;
      var low := if raw > 0.0 then raw else 0.0;
      if low < 100.0 then low else 100.0
    else 0.0
  }

  /** The slider's `max`: the clip end when it lies after the start, else just after the start. */
  function SliderMax(clipStart: real, clipEnd: real): (r: real)
    ensures r > clipStart
    ensures clipEnd > clipStart ==> r == clipEnd
  {
    if clipEnd > clipStart then clipEnd else clipStart + 0.001
  }

  /** The slider's `value` as written: `Math.min(Math.max(currentTime, clipStart), clipEnd)`. */
  function SliderValueAsWritten(currentTime: real, clipStart: real, clipEnd: real): (r: real)
    ensures r <= clipEnd
    ensures clipStart <= clipEnd ==> clipStart <= r
  {
    var lifted := if currentTime > clipStart then currentTime else clipStart;
    if lifted < clipEnd then lifted else clipEnd
  }

  /** The current time clamped into the slider's own range [clipStart, SliderMax]. */
  function SliderValue(currentTime: real, clipStart: real, clipEnd: real): (r: real)
    ensures clipStart <= r <= SliderMax(clipStart, clipEnd)
    ensures clipStart <= currentTime <= clipEnd ==> r == currentTime
  {
    var lowered := if currentTime < clipEnd then currentTime else clipEnd;
    if lowered > clipStart then lowered else clipStart
  }

  /** The two clamps agree whenever the window is not inverted. */
  lemma SliderValueAgrees(currentTime: real, clipStart: real, clipEnd: real)
    requires clipStart <= clipEnd
    ensures SliderValue(currentTime, clipStart, clipEnd) == SliderValueAsWritten(currentTime, clipStart, clipEnd)
  {
  }

  /**
   * With `startTime = 65` and no `endTime`, before the metadata has loaded
   * (duration 0) the window is [65, 0]: the value as written is 0, below the
   * slider's minimum of 65.
   */
  lemma SliderValueBelowMinimum()
    ensures var clipStart := ClipStart(Some(65.0));
            var clipEnd := ClipEnd(None, 0.0);
            SliderValueAsWritten(65.0, clipStart, clipEnd) < clipStart
  {
  }

  // ------------------------------------------------------------ time label

  /** The whole seconds `formatTime` shows: the floor of the time, with negatives as 0. */
  function WholeSeconds(seconds: real): nat {
    if seconds < 0.0 then 0 else seconds.Floor
  }

  /** `formatTime`: minutes, a colon, and the seconds within the minute padded to two digits. */
  function FormatTime(seconds: real): (r: string)
    ensures r == NatToString(WholeSeconds(seconds) / 60) + ":" +
                 PadStart(NatToString(WholeSeconds(seconds) % 60), 2, '0')
  {
    var s := if seconds > 0.0 then seconds else 0.0;
    var m := (s / 60.0).Floor;
    // JavaScript's `%` on a non-negative number: `s - 60 * trunc(s / 60)`.
    var sec := (s - 60.0 * m as real).Floor;
    FloorSplit(s);
    NatToString(m) + ":" + PadStart(NatToString(sec), 2, '0')
  }

  /** `floor(s / 60)` and `floor(s % 60)` are the minutes and seconds of `floor(s)`. */
  lemma FloorSplit(s: real)
    requires s >= 0.0
    ensures (s / 60.0).Floor == s.Floor / 60
    ensures (s - 60.0 * (s / 60.0).Floor as real).Floor == s.Floor % 60
  {
    var n := s.Floor;
    var m := n / 60;
    assert n as real <= s < n as real + 1.0;
    assert 60 * m <= n < 60 * m + 60;
    assert (60 * m) as real <= s < (60 * m + 60) as real;
    assert m as real <= s / 60.0 < m as real + 1.0;
  }

  /** The label is `m:ss`: exactly two digits after the colon, which read back as the seconds. */
  lemma FormatTimeShape(seconds: real)
    ensures |FormatTime(seconds)| == |NatToString(WholeSeconds(seconds) / 60)| + 3
    ensures FormatTime(seconds)[..|NatToString(WholeSeconds(seconds) / 60)|] == NatToString(WholeSeconds(seconds) / 60)
    ensures FormatTime(seconds)[|NatToString(WholeSeconds(seconds) / 60)|] == ':'
    ensures var tail := FormatTime(seconds)[|NatToString(WholeSeconds(seconds) / 60)| + 1..];
            |tail| == 2 && IsDigit(tail[0]) && IsDigit(tail[1]) && DigitsValue(tail) == WholeSeconds(seconds) % 60
  {
    var n := WholeSeconds(seconds);
    var m := NatToString(n / 60);
    var p := PadStart(NatToString(n % 60), 2, '0');
    TwoDigits(n % 60);
    var r := m + ":" + p;
    assert FormatTime(seconds) == r;
    assert r[..|m|] == m;
    assert r[|m| + 1..] == p;
  }

  /** Negative times show as `0:00`. */
  lemma FormatTimeNegative(seconds: real)
    requires seconds <= 0.0
    ensures FormatTime(seconds) == "0:00"
  {
    var p := PadStart(NatToString(0), 2, '0');
    assert p == "00";
  }

  // --------------------------------------------------------- state machine

  /** The props the player is rendered with. */
  datatype Props = Props(src: string, startTime: Option<real>, endTime: Option<real>)

  /**
   * The component state (`isPlaying`, `currentTime`, `duration`) and the
   * element's own current time, play state and whether it has ended
   * playback (reached the end of the media and fired `ended`; a seek, a
   * time report or a new source clears it).
   */
  datatype Playback = Playback(
    isPlaying: bool,
    currentTime: real,
    duration: real,
    elementTime: real,
    elementPlaying: bool,
    elementEnded: bool)

  /** The state right after mounting: paused, at the clip start (the reset effect has run), no duration. */
  function Mounted(p: Props): (r: Playback)
    ensures !r.isPlaying && !r.elementPlaying && !r.elementEnded && r.duration == 0.0
    ensures r.currentTime == ClipStart(p.startTime) && r.elementTime == 0.0
  {
    Playback(false, ClipStart(p.startTime), 0.0, 0.0, false, false)
  }

  /** `handleLoadedMetadata`: record the duration; seek to `startTime` when it is given. */
  function LoadedMetadata(p: Props, s: Playback, mediaDuration: real): (r: Playback)
    ensures r.duration == mediaDuration
    ensures p.startTime.Some? ==> r.currentTime == p.startTime.value && r.elementTime == p.startTime.value && !r.elementEnded
    ensures p.startTime.None? ==> r.currentTime == s.currentTime && r.elementTime == s.elementTime && r.elementEnded == s.elementEnded
    ensures r.isPlaying == s.isPlaying && r.elementPlaying == s.elementPlaying
  {
    match p.startTime
    case Some(t) => s.(duration := mediaDuration, elementTime := t, currentTime := t, elementEnded := false)
    case None => s.(duration := mediaDuration)
  }

  /** Whether the element's time has reached a given `endTime`. */
  predicate PastEnd(p: Props, time: real) {
    p.endTime.Some? && time >= p.endTime.value
  }

  /**
   * `handleTimeUpdate`, the element reporting `time`: follow it, or, once it
   * reaches `endTime`, pause and go back to the clip start.
   */
  function TimeUpdate(p: Props, s: Playback, time: real): (r: Playback)
    ensures r.duration == s.duration && !r.elementEnded
    ensures PastEnd(p, time) ==>
      && !r.isPlaying && !r.elementPlaying
      && r.currentTime == ClipStart(p.startTime) && r.elementTime == ClipStart(p.startTime)
    ensures !PastEnd(p, time) ==>
      r == s.(currentTime := time, elementTime := time, elementEnded := false)
  {
    var s1 := s.(elementTime := time, currentTime := time, elementEnded := false);
    if PastEnd(p, time) then
      var c := ClipStart(p.startTime);
      s1.(elementPlaying := false, elementTime := c, currentTime := c, isPlaying := false)
    else s1
  }

  /** The play button's restart test: at or past `endTime`, or before the clip start. */
  predicate OutsideClip(p: Props, time: real) {
    PastEnd(p, time) || time < ClipStart(p.startTime)
  }

  /**
   * The element's `play()`: an element that has ended playback first seeks
   * back to the beginning of the media, time 0.
   */
  function ElementPlay(s: Playback): (r: Playback)
    ensures r.elementPlaying && !r.elementEnded
    ensures r.elementTime == if s.elementEnded then 0.0 else s.elementTime
    ensures r.isPlaying == s.isPlaying && r.currentTime == s.currentTime && r.duration == s.duration
  {
    var s1 := if s.elementEnded then s.(elementTime := 0.0, elementEnded := false) else s;
    s1.(elementPlaying := true)
  }

  /**
   * `togglePlay`: pause without seeking, or play, first seeking to the clip
   * start when the element's time is outside the clip. The state's time
   * stays as it was when no seek is made, until the element reports again.
   */
  function TogglePlay(p: Props, s: Playback): (r: Playback)
    ensures r.isPlaying == !s.isPlaying && r.elementPlaying == !s.isPlaying
    ensures r.duration == s.duration
    ensures s.isPlaying ==> r.currentTime == s.currentTime && r.elementTime == s.elementTime && r.elementEnded == s.elementEnded
    ensures !s.isPlaying ==> !r.elementEnded
    ensures !s.isPlaying && OutsideClip(p, s.elementTime) ==>
      r.currentTime == ClipStart(p.startTime) && r.elementTime == ClipStart(p.startTime)
    ensures !s.isPlaying && !OutsideClip(p, s.elementTime) ==>
      r.currentTime == s.currentTime && r.elementTime == (if s.elementEnded then 0.0 else s.elementTime)
  {
    if s.isPlaying then s.(elementPlaying := false, isPlaying := false)
    else
      var c := ClipStart(p.startTime);
      var s1 := if OutsideClip(p, s.elementTime) then s.(elementTime := c, currentTime := c, elementEnded := false) else s;
      ElementPlay(s1).(isPlaying := true)
  }

  /**
   * The restart test the prop documentation describes ("seeks here on load
   * and on replay"): it also seeks to the clip start when the element has
   * ended playback, so that a replay never starts at the media's beginning.
   */
  function TogglePlayIntended(p: Props, s: Playback): (r: Playback)
    ensures r.isPlaying == !s.isPlaying && r.elementPlaying == !s.isPlaying
    ensures s.isPlaying ==> r == TogglePlay(p, s)
    ensures !s.elementEnded ==> r == TogglePlay(p, s)
    ensures ClipWellFormed(p) && !s.isPlaying ==>
      && ClipStart(p.startTime) <= r.elementTime
      && (p.endTime.Some? ==> r.elementTime < p.endTime.value)
  {
    if s.isPlaying then s.(elementPlaying := false, isPlaying := false)
    else
      var c := ClipStart(p.startTime);
      var s1 := if OutsideClip(p, s.elementTime) || s.elementEnded then s.(elementTime := c, currentTime := c, elementEnded := false) else s;
      ElementPlay(s1).(isPlaying := true)
  }

  /** `handleSeek`: move the element and the state to the slider's first value. */
  function Seek(s: Playback, values: seq<real>): (r: Playback)
    requires |values| > 0
    ensures r == s.(currentTime := values[0], elementTime := values[0], elementEnded := false)
  {
    s.(elementTime := values[0], currentTime := values[0], elementEnded := false)
  }

  /**
   * The element's `ended` event. The element has already paused itself when it
   * fires the event, so both the state's flag and the element's clear, and the
   * element has ended playback.
   */
  function Ended(s: Playback): (r: Playback)
    ensures !r.isPlaying && !r.elementPlaying && r.elementEnded
    ensures r.currentTime == s.currentTime && r.duration == s.duration && r.elementTime == s.elementTime
  {
    s.(isPlaying := false, elementPlaying := false, elementEnded := true)
  }

  /**
   * New props: when `src` or `startTime` changed, the reset effect stops
   * playback, puts the time at `startTime ?? 0` and forgets the duration. A
   * new `src` also makes the element load the new media, which leaves it
   * paused at time 0; a new `startTime` alone leaves the element as it was.
   */
  function PropsChanged(old_: Props, new_: Props, s: Playback): (r: Playback)
    ensures old_.src != new_.src || old_.startTime != new_.startTime ==>
      !r.isPlaying && r.currentTime == ClipStart(new_.startTime) && r.duration == 0.0
    ensures old_.src == new_.src && old_.startTime == new_.startTime ==> r == s
    ensures old_.src != new_.src ==> r.elementTime == 0.0 && !r.elementPlaying && !r.elementEnded
    ensures old_.src == new_.src ==>
      r.elementTime == s.elementTime && r.elementPlaying == s.elementPlaying && r.elementEnded == s.elementEnded
  {
    var reset := if old_.src != new_.src || old_.startTime != new_.startTime then
      s.(isPlaying := false, currentTime := ClipStart(new_.startTime), duration := 0.0)
    else s;
    if old_.src != new_.src then reset.(elementTime := 0.0, elementPlaying := false, elementEnded := false) else reset
  }

  // ---------------------------------------------------------------- lemmas

  /** A well-formed clip: the start lies before a given end. */
  predicate ClipWellFormed(p: Props) {
    p.endTime.Some? ==> ClipStart(p.startTime) < p.endTime.value
  }

  /**
   * Pressing play starts the element inside the clip, unless the element has
   * ended playback and the clip starts after 0 (see `ReplayAfterNaturalEnd`).
   */
  lemma PlayStartsInsideClip(p: Props, s: Playback)
    requires ClipWellFormed(p) && !s.isPlaying
    requires ClipStart(p.startTime) == 0.0 || !s.elementEnded
    ensures var r := TogglePlay(p, s);
            && r.isPlaying
            && ClipStart(p.startTime) <= r.elementTime
            && (p.endTime.Some? ==> r.elementTime < p.endTime.value)
  {
  }

  /** After any time update the element is before a given end: reaching it sends it back to the start. */
  lemma TimeUpdateStaysBeforeEnd(p: Props, s: Playback, time: real)
    requires ClipWellFormed(p)
    ensures p.endTime.Some? ==> TimeUpdate(p, s, time).elementTime < p.endTime.value
  {
  }

  /** Only a paused element has ended playback: the `ended` event pauses, and every play clears the flag. */
  predicate EndedOnlyPaused(s: Playback) {
    s.elementEnded ==> !s.isPlaying
  }

  /** Every state the player reaches has `EndedOnlyPaused`: mounting gives it, and every step keeps it. */
  lemma EndedOnlyPausedKept(p: Props, q: Props, s: Playback, mediaDuration: real, time: real, values: seq<real>)
    requires EndedOnlyPaused(s) && |values| > 0
    ensures EndedOnlyPaused(Mounted(p))
    ensures EndedOnlyPaused(LoadedMetadata(p, s, mediaDuration))
    ensures EndedOnlyPaused(TimeUpdate(p, s, time))
    ensures EndedOnlyPaused(TogglePlay(p, s))
    ensures EndedOnlyPaused(Seek(s, values))
    ensures EndedOnlyPaused(Ended(s))
    ensures EndedOnlyPaused(PropsChanged(p, q, s))
  {
  }

  /** Pausing, then playing inside the clip, resumes where playback was paused. */
  lemma PauseResume(p: Props, s: Playback)
    requires EndedOnlyPaused(s) && s.isPlaying && !OutsideClip(p, s.elementTime)
    ensures TogglePlay(p, TogglePlay(p, s)) == s.(elementPlaying := true)
  {
  }

  /**
   * After a new source, pressing play starts the new media at the clip start
   * (a start at 0 or later), wherever the old media had been.
   */
  lemma NewSourcePlaysFromClipStart(old_: Props, new_: Props, s: Playback)
    requires old_.src != new_.src && ClipWellFormed(new_) && 0.0 <= ClipStart(new_.startTime)
    ensures var r := TogglePlay(new_, PropsChanged(old_, new_, s));
            r.isPlaying && r.elementPlaying && r.elementTime == ClipStart(new_.startTime)
  {
  }

  /**
   * A clip from 120 seconds with no end, played to the media's natural end at
   * 300: the `ended` event leaves the element at 300, which is inside the
   * clip, so a replay makes no seek and the element restarts at 0, before
   * the clip; its next time report shows 0.
   */
  lemma ReplayAfterNaturalEnd(src: string, s: Playback)
    ensures var p := Props(src, Some(120.0), None);
            var replay := TogglePlay(p, Ended(TimeUpdate(p, s, 300.0)));
            && replay.isPlaying && replay.elementTime == 0.0
            && TimeUpdate(p, replay, 0.0).currentTime == 0.0 < ClipStart(p.startTime)
  {
  }

  /** With the intended restart test, the same replay starts at the clip start. */
  lemma IntendedReplayAfterNaturalEnd(src: string, s: Playback)
    ensures var p := Props(src, Some(120.0), None);
            var replay := TogglePlayIntended(p, Ended(TimeUpdate(p, s, 300.0)));
            replay.isPlaying && replay.elementTime == 120.0 && replay.currentTime == 120.0
  {
  }

  /**
   * The documented example: a clip from 65 to 95 seconds seeks to 65 on
   * load, and reaching 95 stops playback at 65.
   */
  lemma DocumentedClip(src: string, s: Playback, mediaDuration: real)
    ensures var p := Props(src, Some(65.0), Some(95.0));
            var loaded := LoadedMetadata(p, s, mediaDuration);
            var stopped := TimeUpdate(p, TogglePlay(p, loaded.(isPlaying := false)), 95.0);
            && loaded.currentTime == 65.0 && loaded.elementTime == 65.0
            && !stopped.isPlaying && stopped.currentTime == 65.0
  {
  }

  // ----------------------------------------------------------- the component

  /** The mounted component: its props and its playback state, changed by each event handler. */
  class Player {
    var props: Props
    var isPlaying: bool
    var currentTime: real
    var duration: real
    var elementTime: real
    var elementPlaying: bool
    var elementEnded: bool

    function Current(): Playback reads this {
      Playback(isPlaying, currentTime, duration, elementTime, elementPlaying, elementEnded)
    }

    constructor (p: Props)
      ensures props == p && Current() == Mounted(p)
    {
      props := p;
      isPlaying := false;
      currentTime := ClipStart(p.startTime);
      duration := 0.0;
      elementTime := 0.0;
      elementPlaying := false;
      elementEnded := false;
    }

    method HandleLoadedMetadata(mediaDuration: real)
      modifies this
      ensures props == old(props) && Current() == LoadedMetadata(props, old(Current()), mediaDuration)
    {
      duration := mediaDuration;
      if props.startTime.Some? {
        elementTime := props.startTime.value;
        currentTime := props.startTime.value;
        elementEnded := false;
      }
    }

    method HandleTimeUpdate(time: real)
      modifies this
      ensures props == old(props) && Current() == TimeUpdate(props, old(Current()), time)
    {
      elementTime := time;
      currentTime := time;
      elementEnded := false;
      if props.endTime.Some? && time >= props.endTime.value {
        elementPlaying := false;
        var c := ClipStart(props.startTime);
        elementTime := c;
        currentTime := c;
        isPlaying := false;
      }
    }

    method HandleTogglePlay()
      modifies this
      ensures props == old(props) && Current() == TogglePlay(props, old(Current()))
    {
      if isPlaying {
        elementPlaying := false;
        isPlaying := false;
      } else {
        var time := elementTime;
        var c := ClipStart(props.startTime);
        if (props.endTime.Some? && time >= props.endTime.value) || time < c {
          elementTime := c;
          currentTime := c;
          elementEnded := false;
        }
        // the element's own play(): an ended element starts over from 0
        if elementEnded {
          elementTime := 0.0;
          elementEnded := false;
        }
        elementPlaying := true;
        isPlaying := true;
      }
    }

    method HandleSeek(values: seq<real>)
      requires |values| > 0
      modifies this
      ensures props == old(props) && Current() == Seek(old(Current()), values)
    {
      var time := values[0];
      elementTime := time;
      currentTime := time;
      elementEnded := false;
    }

    method HandleEnded()
      modifies this
      ensures props == old(props) && Current() == Ended(old(Current()))
    {
      isPlaying := false;
      elementPlaying := false;
      elementEnded := true;
    }

    /** A re-render with new props, running the reset effect when `src` or `startTime` changed and reloading the element when `src` changed. */
    method Rerender(p: Props)
      modifies this
      ensures props == p && Current() == PropsChanged(old(props), p, old(Current()))
    {
      if props.src != p.src || props.startTime != p.startTime {
        isPlaying := false;
        currentTime := ClipStart(p.startTime);
        duration := 0.0;
      }
      if props.src != p.src {
        elementTime := 0.0;
        elementPlaying := false;
        elementEnded := false;
      }
      props := p;
    }
  }
}
