/** The audio player of app/meditate/_components/meditation-player.tsx: the `m:ss` clock, the
    segment timeline built when the audio's length is known, the lookup of the segment under the
    play head, and the handlers that move it. */
module MeditationPlayer {
  import opened Wrappers
  import opened Text
  import opened Schema

  // ---- the clock --------------------------------------------------------------------------

  /** `Math.trunc`. */
  function Trunc(x: real): (t: int)
    ensures x >= 0.0 ==> t == x.Floor
    ensures x < 0.0 ==> t == -((-x).Floor)
  {
    if x >= 0.0 then x.Floor else -((-x).Floor)
  }

  /** `formatTime`: whole minutes, a colon, and whole seconds of the minute padded to two digits;
      the seconds use JavaScript's remainder, which takes the sign of the dividend. */
  function FormatTime(seconds: real): string
  {
    var mins := (seconds / 60.0).Floor;
    var secs := (seconds - 60.0 * (Trunc(seconds / 60.0) as real)).Floor;
    IntToString(mins) + ":" + PadStart2(IntToString(secs))
  }

  /** The reading of an `m:ss` clock: the number of whole seconds it shows, if it is one. */
  function ReadClock(r: string): Option<int>
  {
    var parts := Split(r, ':');
    if |parts| == 2 && AllDigits(parts[0]) && AllDigits(parts[1]) && |parts[1]| == 2 then
      Some(60 * DecimalValue(parts[0]) + DecimalValue(parts[1]))
    else None
  }

  lemma {:induction false} LeadingZero(s: string)
    requires AllDigits(s)
    ensures AllDigits("0" + s) && DecimalValue("0" + s) == DecimalValue(s)
    decreases |s|
  {
    if |s| > 0 {
      var t := "0" + s;
      assert t[..|t| - 1] == "0" + s[..|s| - 1];
      LeadingZero(s[..|s| - 1]);
    }
  }

  /** Whole seconds split into minutes and the seconds of the minute. */
  lemma MinutesOf(seconds: real)
    requires seconds >= 0.0
    ensures (seconds / 60.0).Floor == seconds.Floor / 60
    ensures (seconds - 60.0 * (Trunc(seconds / 60.0) as real)).Floor == seconds.Floor % 60
  {
    var m := (seconds / 60.0).Floor;
    var f := seconds.Floor;
    assert 60.0 * (m as real) <= seconds < 60.0 * (m as real) + 60.0;
    assert 60 * m <= f < 60 * m + 60;
    assert (seconds - 60.0 * (m as real)).Floor == f - 60 * m;
  }

  /** For a non-negative time the clock shows exactly its whole seconds: reading it back gives
      the time rounded down, and the seconds always take two digits. */
  lemma FormatTimeReadsBack(seconds: real)
    requires seconds >= 0.0
    ensures ReadClock(FormatTime(seconds)) == Some(seconds.Floor)
  {
    MinutesOf(seconds);
    var m := seconds.Floor / 60;
    var s := seconds.Floor % 60;
    var mm := NatToString(m);
    var ss := PadStart2(NatToString(s));
    assert FormatTime(seconds) == mm + ":" + ss;
    assert AllDigits(ss) && DecimalValue(ss) == s by {
      NatToStringRoundTrip(s);
      if |NatToString(s)| < 2 {
        LeadingZero(NatToString(s));
        assert ss == "0" + NatToString(s);
      }
    }
    assert Excludes(mm, ':') && Excludes(ss, ':');
    SplitJoin([mm, ss], ':');
    assert Join([mm, ss], ':') == mm + ":" + ss by {
      assert [mm, ss][1..] == [ss];
    }
    NatToStringRoundTrip(m);
  }

  // ---- the timeline -----------------------------------------------------------------------

  /** Where a segment starts and how long it lasts, in seconds of the audio file. */
  datatype Timing = Timing(start: real, duration: real)

  /** The characters of all speech segments. */
  function SpeechChars(segments: seq<Segment>): nat
  {
    if |segments| == 0 then 0
    else SpeechChars(segments[..|segments| - 1]) + (match segments[|segments| - 1] case Speech(c, _, _) => |c| case Pause(_) => 0)
  }

  /** The declared seconds of all pause segments. */
  function PauseTotal(segments: seq<Segment>): real
  {
    if |segments| == 0 then 0.0
    else PauseTotal(segments[..|segments| - 1]) + (match segments[|segments| - 1] case Speech(_, _, _) => 0.0 case Pause(d) => d)
  }

  /** A division by the character count is defined: there is a character to share or no speech
      segment asks for a share. */
  predicate Shareable(segments: seq<Segment>)
  {
    SpeechChars(segments) > 0 || forall k :: 0 <= k < |segments| ==> segments[k].Pause?
  }

  /** The length given to one segment: a pause its declared seconds, a speech segment its share,
      by characters, of the `speech` seconds left once the pauses are taken out. */
  function Length(segment: Segment, chars: nat, speech: real): real
    requires segment.Speech? ==> chars > 0
  {
    match segment
    case Pause(d) => d
    case Speech(c, _, _) => Share(|c|, chars, speech)
  }

  /** `(part / chars) * speech`. */
  function Share(part: nat, chars: nat, speech: real): real
    requires chars > 0
  {
    (part as real / chars as real) * speech
  }

  lemma SharesAdd(a: nat, b: nat, chars: nat, speech: real)
    requires chars > 0
    ensures Share(a, chars, speech) + Share(b, chars, speech) == Share(a + b, chars, speech)
  {
    var n := chars as real;
    assert a as real / n + b as real / n == (a + b) as real / n;
  }

  /** The sum of the lengths of `segments`, the start of the segment that follows them. */
  function Elapsed(segments: seq<Segment>, chars: nat, speech: real): real
    requires chars > 0 || forall k :: 0 <= k < |segments| ==> segments[k].Pause?
  {
    if |segments| == 0 then 0.0
    else Elapsed(segments[..|segments| - 1], chars, speech) + Length(segments[|segments| - 1], chars, speech)
  }

  /** The timeline of `handleLoadedMetadata` for an audio file of `total` seconds. */
  function Timeline(segments: seq<Segment>, total: real): (times: seq<Timing>)
    requires Shareable(segments)
    ensures |times| == |segments|
  {
    var chars := SpeechChars(segments);
    var speech := total - PauseTotal(segments);
    seq(|segments|, k requires 0 <= k < |segments| =>
      Timing(Elapsed(segments[..k], chars, speech), Length(segments[k], chars, speech)))
  }

  /** The lengths add up to the pauses plus the speech segments' part of `speech`. */
  lemma {:induction false} ElapsedSplits(segments: seq<Segment>, chars: nat, speech: real)
    requires chars > 0
    ensures Elapsed(segments, chars, speech) == PauseTotal(segments) + Share(SpeechChars(segments), chars, speech)
    decreases |segments|
  {
    if |segments| > 0 {
      var init := segments[..|segments| - 1];
      ElapsedSplits(init, chars, speech);
      match segments[|segments| - 1]
      case Pause(d) =>
      case Speech(c, _, _) =>
        SharesAdd(SpeechChars(init), |c|, chars, speech);
    }
  }

  /** When some speech segment has a character, the timeline ends exactly at the end of the
      audio: the speech shares take up whatever the pauses leave. */
  lemma TimelineCoversAudio(segments: seq<Segment>, total: real)
    requires SpeechChars(segments) > 0
    ensures Elapsed(segments, SpeechChars(segments), total - PauseTotal(segments)) == total
  {
    var chars := SpeechChars(segments);
    ElapsedSplits(segments, chars, total - PauseTotal(segments));
    assert chars as real / chars as real == 1.0;
    assert Share(chars, chars, total - PauseTotal(segments)) == total - PauseTotal(segments);
  }

  /** Each segment starts where the one before it ends. */
  lemma TimelineContiguous(segments: seq<Segment>, total: real, k: nat)
    requires Shareable(segments) && k + 1 < |segments|
    ensures Timeline(segments, total)[k + 1].start == Timeline(segments, total)[k].start + Timeline(segments, total)[k].duration
  {
    assert segments[..k + 1][..k] == segments[..k];
  }

  /** No segment is given a negative length: pauses are non-negative and the pauses fit in the
      audio. */
  predicate Forward(segments: seq<Segment>, total: real)
  {
    PauseTotal(segments) <= total && forall k :: 0 <= k < |segments| ==> segments[k].Pause? ==> segments[k].duration >= 0.0
  }

  lemma {:induction false} StartsAscend(segments: seq<Segment>, total: real, j: nat, k: nat)
    requires Shareable(segments) && Forward(segments, total)
    requires j < k < |segments|
    ensures Timeline(segments, total)[j].start + Timeline(segments, total)[j].duration <= Timeline(segments, total)[k].start
    decreases k - j
  {
    var times := Timeline(segments, total);
    TimelineContiguous(segments, total, k - 1);
    if j < k - 1 {
      StartsAscend(segments, total, j, k - 1);
      var chars := SpeechChars(segments);
      var speech := total - PauseTotal(segments);
      assert times[k - 1].duration == Length(segments[k - 1], chars, speech);
      assert times[k - 1].duration >= 0.0;
    }
  }

  // ---- the lookup -------------------------------------------------------------------------

  predicate Covers(t: Timing, x: real) { t.start <= x < t.start + t.duration }

  /** `segmentTimes.findIndex(...)`: the first segment whose interval holds `x`. */
  function FirstCovering(times: seq<Timing>, x: real): (r: Option<nat>)
    ensures r.Some? ==> r.value < |times| && Covers(times[r.value], x)
    ensures r.Some? ==> forall j :: 0 <= j < r.value ==> !Covers(times[j], x)
    ensures r.None? ==> forall j :: 0 <= j < |times| ==> !Covers(times[j], x)
  {
    if |times| == 0 then None
    else if Covers(times[0], x) then Some(0)
    else match FirstCovering(times[1..], x)
      case None => None
      case Some(k) => Some(k + 1)
  }

  /** On a timeline with no negative length, any instant inside segment k is found as segment k. */
  lemma LookupFindsSegment(segments: seq<Segment>, total: real, k: nat, x: real)
    requires Shareable(segments) && Forward(segments, total) && k < |segments|
    requires Covers(Timeline(segments, total)[k], x)
    ensures FirstCovering(Timeline(segments, total), x) == Some(k)
  {
    var times := Timeline(segments, total);
    var r := FirstCovering(times, x);
    if r != Some(k) {
      assert r.Some? && r.value < k;
      StartsAscend(segments, total, r.value, k);
      assert false;
    }
  }

  // ---- the component ----------------------------------------------------------------------

  class Player {
    const segments: seq<Segment>
    var times: seq<Timing>
    var index: int
    var playing: bool
    var currentTime: real
    var duration: real
    /** The audio element's play head. */
    var head: real

    /** The timings are not yet computed or give one timing per segment, and the highlighted
        index is 0 or names a timed segment. */
    predicate Valid()
      reads this
    {
      && (times == [] || |times| == |segments|)
      && (index == 0 || 0 <= index < |times|)
    }

    constructor (script: MeditationScript)
      ensures segments == script.segments && times == [] && index == 0 && !playing
      ensures currentTime == 0.0 && duration == 0.0 && head == 0.0
      ensures Valid()
    {
      segments := script.segments;
      times, index, playing, currentTime, duration, head := [], 0, false, 0.0, 0.0, 0.0;
    }

    /** Both "loadedmetadata" handlers: the timeline for an audio file of `total` seconds, and the
        displayed length. */
    method LoadedMetadata(total: real)
      requires Shareable(segments)
      requires Valid()
      modifies this`times, this`duration
      ensures times == Timeline(segments, total) && duration == total
      ensures Valid()
    {
      times := ComputeTimings(segments, total);
      duration := total;
    }

    /** Both "timeupdate" handlers: the clock follows the play head, and the index moves to the
        first segment holding it, or stays where it is. */
    method TimeUpdate(x: real)
      requires Valid()
      modifies this`head, this`currentTime, this`index
      ensures head == x && currentTime == x
      ensures FirstCovering(times, x).Some? ==> index == FirstCovering(times, x).value
      ensures FirstCovering(times, x).None? ==> index == old(index)
      ensures Valid()
    {
      head := x;
      currentTime := x;
      var found := FirstCovering(times, x);
      if found.Some? {
        index := found.value;
      }
    }

    method Played()
      modifies this`playing
      ensures playing
    {
      playing := true;
    }

    method Paused()
      modifies this`playing
      ensures !playing
    {
      playing := false;
    }

    /** Both "ended" handlers: playback stops and the index and clock go back to the start. */
    method Ended()
      requires Valid()
      modifies this`playing, this`index, this`currentTime
      ensures !playing && index == 0 && currentTime == 0.0
      ensures Valid()
    {
      playing, index, currentTime := false, 0, 0.0;
    }

    /** `togglePlayPause`: whether it asks the element to play (else to pause); the state moves
        only when the element answers with "play" or "pause". */
    method TogglePlayPause() returns (play: bool)
      ensures play <==> !playing
    {
      play := !playing;
    }

    /** `playFromSegment`: seek to the start of segment `i` and ask to play, or nothing when `i`
        has no timing yet. */
    method PlayFromSegment(i: int) returns (play: bool)
      modifies this`head
      ensures play <==> 0 <= i < |times|
      ensures play ==> head == times[i].start
      ensures !play ==> head == old(head)
    {
      if i < 0 || i >= |times| {
        return false;
      }
      head := times[i].start;
      play := true;
    }
  }

  /** The `segments.map` with its running `currentTime`, which `handleLoadedMetadata` uses. */
  method ComputeTimings(segments: seq<Segment>, total: real) returns (times: seq<Timing>)
    requires Shareable(segments)
    ensures times == Timeline(segments, total)
  {
    var chars := SpeechChars(segments);
    var speech := total - PauseTotal(segments);
    var clock := 0.0;
    times := [];
    for i := 0 to |segments|
      invariant |times| == i
      invariant clock == Elapsed(segments[..i], chars, speech)
      invariant forall k :: 0 <= k < i ==> times[k] == Timeline(segments, total)[k]
    {
      var length := Length(segments[i], chars, speech);
      times := times + [Timing(clock, length)];
      assert segments[..i + 1][..i] == segments[..i];
      clock := clock + length;
    }
  }

  /** Seeking to a segment of positive length and the "timeupdate" that follows highlight that
      segment. */
  lemma SeekHighlights(segments: seq<Segment>, total: real, i: nat)
    requires Shareable(segments) && Forward(segments, total) && i < |segments|
    requires Timeline(segments, total)[i].duration > 0.0
    ensures FirstCovering(Timeline(segments, total), Timeline(segments, total)[i].start) == Some(i)
  {
    LookupFindsSegment(segments, total, i, Timeline(segments, total)[i].start);
  }
}
