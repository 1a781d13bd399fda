/** The script view of app/meditate/_components/meditation-display.tsx, which plays the decoded
    audio through an audio context on a schedule built from word counts, and highlights each
    segment from a timer. */
module MeditationDisplay {
  import opened Wrappers
  import opened Text
  import opened Schema

  // ---- word counts ------------------------------------------------------------------------

  /** The white-space runs of `s` that start in it; `afterSpace` says whether the character
      before `s` was white space. */
  function RunsFrom(s: string, afterSpace: bool): nat
    decreases |s|
  {
    if |s| == 0 then 0
    else (if IsSpace(s[0]) && !afterSpace then 1 else 0) + RunsFrom(s[1..], IsSpace(s[0]))
  }

  /** Whether the last character read, after `a` following a character of kind `afterSpace`, is
      white space. */
  function EndsInSpace(a: string, afterSpace: bool): bool
  {
    if |a| == 0 then afterSpace else IsSpace(a[|a| - 1])
  }

  /** `content.split(/\s+/).length`: splitting on white-space runs gives one piece more than
      there are runs (empty pieces at either end included). */
  function WordCount(content: string): (n: nat)
    ensures n >= 1
  {
    RunsFrom(content, false) + 1
  }

  lemma {:induction false} RunsAppend(a: string, t: string, afterSpace: bool)
    ensures RunsFrom(a + t, afterSpace) == RunsFrom(a, afterSpace) + RunsFrom(t, EndsInSpace(a, afterSpace))
    decreases |a|
  {
    if |a| > 0 {
      assert (a + t)[0] == a[0] && (a + t)[1..] == a[1..] + t;
      RunsAppend(a[1..], t, IsSpace(a[0]));
      if |a| > 1 {
        assert a[1..][|a| - 2] == a[|a| - 1];
      }
    } else {
      assert a + t == t;
    }
  }

  predicate Word(w: string) { |w| > 0 && forall k :: 0 <= k < |w| ==> !IsSpace(w[k]) }

  lemma {:induction false} WordHasNoRun(w: string, afterSpace: bool)
    requires forall k :: 0 <= k < |w| ==> !IsSpace(w[k])
    ensures RunsFrom(w, afterSpace) == 0
    ensures |w| > 0 ==> !EndsInSpace(w, afterSpace)
    decreases |w|
  {
    if |w| > 0 {
      WordHasNoRun(w[1..], false);
    }
  }

  /** For text written as words separated by single spaces, the count is the number of words. */
  lemma {:induction false} WordCountOfWords(words: seq<string>)
    requires |words| >= 1
    requires forall k :: 0 <= k < |words| ==> Word(words[k])
    ensures WordCount(Join(words, ' ')) == |words|
  {
    if |words| == 1 {
      WordHasNoRun(words[0], false);
    } else {
      var rest := Join(words[1..], ' ');
      WordCountOfWords(words[1..]);
      WordHasNoRun(words[0], false);
      RunsAppend(words[0], [' '] + rest, false);
      assert ([' '] + rest)[0] == ' ' && ([' '] + rest)[1..] == rest;
      assert words[0] + [' '] + rest == words[0] + ([' '] + rest);
      var tail := words[1..];
      assert tail[0] == words[1];
      assert |rest| > 0 && rest[0] == words[1][0] by {
        if |tail| == 1 {
          assert rest == tail[0];
        } else {
          assert rest == tail[0] + [' '] + Join(tail[1..], ' ');
        }
      }
      assert RunsFrom(rest, true) == RunsFrom(rest, false);
    }
  }

  /** `Math.ceil(wordCount / 2)`: the whole seconds a speech segment is given. */
  function SpeechSeconds(content: string): (secs: nat)
    ensures 2 * secs >= WordCount(content) && 2 * secs <= WordCount(content) + 1
  {
    (WordCount(content) + 1) / 2
  }

  // ---- the schedule -----------------------------------------------------------------------

  /** How far one segment advances the schedule, in seconds. */
  function Advance(segment: Segment): real
  {
    match segment
    case Speech(c, _, _) => SpeechSeconds(c) as real
    case Pause(d) => d
  }

  /** The offset of the end of `segments` from the start of playback. */
  function Offset(segments: seq<Segment>): real
  {
    if |segments| == 0 then 0.0 else Offset(segments[..|segments| - 1]) + Advance(segments[|segments| - 1])
  }

  /** A timer the schedule sets: highlight segment `index`, or end playback; `delay` is in
      milliseconds from the start of playback. */
  datatype Timer = Highlight(delay: real, index: nat) | Finish(delay: real)
  {
    function Delay(): real { match this case Highlight(d, _) => d case Finish(d) => d }
  }

  /** The timers `playAudioWithPauses` sets, in the order it sets them. */
  function Schedule(segments: seq<Segment>): (timers: seq<Timer>)
    ensures |timers| == |segments| + 1
  {
    Highlights(segments) + [Finish(1000.0 * Offset(segments))]
  }

  /** The highlight timers, one per segment. */
  function Highlights(segments: seq<Segment>): (timers: seq<Timer>)
    ensures |timers| == |segments|
  {
    seq(|segments|, i requires 0 <= i < |segments| => Highlight(1000.0 * Offset(segments[..i + 1]), i))
  }

  /** The start times of the speech sources, one per speech segment, on the context's clock. */
  function SourceStarts(segments: seq<Segment>, now: real): seq<real>
  {
    if |segments| == 0 then []
    else
      var init := segments[..|segments| - 1];
      SourceStarts(init, now) + (if segments[|segments| - 1].Speech? then [now + Offset(init)] else [])
  }

  /** Highlighting segment i is due when segment i ends, not when it starts. */
  lemma HighlightAtSegmentEnd(segments: seq<Segment>, i: nat)
    requires i < |segments|
    ensures Schedule(segments)[i] == Highlight(1000.0 * (Offset(segments[..i]) + Advance(segments[i])), i)
  {
    assert segments[..i + 1][..i] == segments[..i];
  }

  /** The last highlight and the end of playback fall due together, and the end is set after
      it, so playback finishes on index 0. */
  lemma FinishAfterLastHighlight(segments: seq<Segment>)
    requires |segments| > 0
    ensures Schedule(segments)[|segments| - 1].Delay() == Schedule(segments)[|segments|].Delay()
    ensures Fired(true, 0, Schedule(segments)) == (false, 0)
  {
    assert segments[..|segments|] == segments;
    FiredEndsWithFinish(true, 0, Schedule(segments));
  }

  /** With no negative pause, the timers fall due in the order they are set. */
  lemma {:induction false} ScheduleInOrder(segments: seq<Segment>, i: nat, j: nat)
    requires forall k :: 0 <= k < |segments| ==> Advance(segments[k]) >= 0.0
    requires i <= j <= |segments|
    ensures Schedule(segments)[i].Delay() <= Schedule(segments)[j].Delay()
  {
    if i < j {
      OffsetGrows(segments, i + 1, if j < |segments| then j + 1 else |segments|);
      assert segments[..|segments|] == segments;
    }
  }

  lemma {:induction false} OffsetGrows(segments: seq<Segment>, m: nat, n: nat)
    requires forall k :: 0 <= k < |segments| ==> Advance(segments[k]) >= 0.0
    requires m <= n <= |segments|
    ensures Offset(segments[..m]) <= Offset(segments[..n])
    decreases n - m
  {
    if m < n {
      OffsetGrows(segments, m, n - 1);
      assert segments[..n][..n - 1] == segments[..n - 1];
    }
  }

  /** What one turn of the scheduling loop adds. */
  lemma ScheduleStep(segments: seq<Segment>, now: real, i: nat)
    requires i < |segments|
    ensures Offset(segments[..i + 1]) == Offset(segments[..i]) + Advance(segments[i])
    ensures Highlights(segments)[..i + 1] == Highlights(segments)[..i] + [Highlight(1000.0 * Offset(segments[..i + 1]), i)]
    ensures SourceStarts(segments[..i + 1], now)
      == SourceStarts(segments[..i], now) + (if segments[i].Speech? then [now + Offset(segments[..i])] else [])
  {
    assert segments[..i + 1][..i] == segments[..i];
  }

  lemma TakeAll<T>(h: seq<T>)
    ensures h[..|h|] == h
  {
  }

  /** The playing flag and highlighted index after `timers` fire in turn. */
  function Fired(playing: bool, index: int, timers: seq<Timer>): (bool, int)
    decreases |timers|
  {
    if |timers| == 0 then (playing, index)
    else match timers[0]
      case Highlight(_, i) => Fired(playing, i, timers[1..])
      case Finish(_) => Fired(false, 0, timers[1..])
  }

  lemma {:induction false} FiredEndsWithFinish(playing: bool, index: int, timers: seq<Timer>)
    requires |timers| > 0 && timers[|timers| - 1].Finish?
    ensures Fired(playing, index, timers) == (false, 0)
    decreases |timers|
  {
    if |timers| > 1 {
      var next := match timers[0] case Highlight(_, i) => (playing, i) case Finish(_) => (false, 0);
      FiredEndsWithFinish(next.0, next.1, timers[1..]);
    }
  }

  // ---- the component ----------------------------------------------------------------------

  class Display {
    const segments: seq<Segment>
    var hasContext: bool
    var hasBuffer: bool
    var loading: bool
    var playing: bool
    var index: int
    /** The timers set so far, in the order they were set. */
    var timers: seq<Timer>
    /** The start times of the speech sources started so far. */
    var starts: seq<real>

    constructor (script: MeditationScript)
      ensures segments == script.segments
      ensures !hasContext && !hasBuffer && loading && !playing && index == 0 && timers == [] && starts == []
    {
      segments := script.segments;
      hasContext, hasBuffer, loading, playing, index, timers, starts := false, false, true, false, 0, [], [];
    }

    /** The loading effect: without an audio path nothing is fetched; otherwise `decoded` says
        whether fetching and decoding succeeded. Loading ends either way. */
    method LoadAudio(path: Option<string>, decoded: bool)
      modifies this`hasContext, this`hasBuffer, this`loading
      ensures !loading
      ensures hasContext == (old(hasContext) || (path.Some? && path.value != "" && decoded))
      ensures hasBuffer == (old(hasBuffer) || (path.Some? && path.value != "" && decoded))
    {
      if path.None? || path.value == "" {
        loading := false;
        return;
      }
      if decoded {
        hasContext, hasBuffer := true, true;
      }
      loading := false;
    }

    /** `playAudioWithPauses` at context time `now`: nothing without a context and a decoded
        buffer; otherwise playing from index 0, with every segment's sources and timers set. */
    method Play(now: real)
      modifies this`playing, this`index, this`timers, this`starts
      ensures !(hasContext && hasBuffer) ==> playing == old(playing) && index == old(index) && timers == old(timers) && starts == old(starts)
      ensures hasContext && hasBuffer ==>
        && playing && index == 0
        && timers == old(timers) + Schedule(segments)
        && starts == old(starts) + SourceStarts(segments, now)
    {
      if !hasContext || !hasBuffer {
        return;
      }
      playing, index := true, 0;
      ScheduleSegments(now);
    }

    /** The `for` loop of `playAudioWithPauses` and the closing timer. */
    method ScheduleSegments(now: real)
      modifies this`timers, this`starts
      ensures timers == old(timers) + Schedule(segments)
      ensures starts == old(starts) + SourceStarts(segments, now)
    {
      var clock := now;
      for i := 0 to |segments|
        invariant clock == now + Offset(segments[..i])
        invariant timers == old(timers) + Highlights(segments)[..i]
        invariant starts == old(starts) + SourceStarts(segments[..i], now)
      {
        ScheduleStep(segments, now, i);
        if segments[i].Speech? {
          starts := starts + [clock];
          clock := clock + SpeechSeconds(segments[i].content) as real;
        } else {
          clock := clock + segments[i].duration;
        }
        timers := timers + [Highlight(1000.0 * (clock - now), i)];
      }
      TakeAll(segments);
      TakeAll(Highlights(segments));
      timers := timers + [Finish(1000.0 * (clock - now))];
    }

    /** A timer's callback. */
    method Fire(timer: Timer)
      modifies this`playing, this`index
      ensures (playing, index) == Fired(old(playing), old(index), [timer])
    {
      match timer
      case Highlight(_, i) => index := i;
      case Finish(_) => playing, index := false, 0;
    }

    /** `stopAudio`: the context, if any, is closed and replaced, and the view goes back to the
        start; the timers already set are not cleared and still fire. */
    method Stop()
      modifies this`playing, this`index
      ensures !playing && index == 0
    {
      playing, index := false, 0;
    }
  }
}
