/** The meditation form of app/meditate/_components/user-input-form.tsx: the generation step, the
    animated progress bar and its target, the meditation shown so far, and the loop that reads the
    generation endpoint's event stream. */
module UserInputForm {
  import opened Wrappers
  import opened Text
  import opened Schema
  import opened Protocol

  /** Client-only step names; the others are the endpoint's progress steps. */
  const Idle: string := "idle"
  const ScriptShown: string := "script-ready"
  const Done: string := "complete"

  /** The progress floor the step effect gives each in-flight step. */
  function StepFloor(step: string): Option<real>
  {
    if step == GeneratingScript then Some(15.0)
    else if step == ScriptShown then Some(20.0)
    else if step == GeneratingSpeech then Some(60.0)
    else if step == GeneratingSilence then Some(70.0)
    else if step == CombiningAudio then Some(85.0)
    else if step == AddingMusic then Some(95.0)
    else None
  }

  function Max(a: real, b: real): (m: real)
    ensures m >= a && m >= b && (m == a || m == b)
  {
    if a >= b then a else b
  }

  /** `isLoading`: the form is busy while the step is neither "idle" nor "complete". */
  predicate Loading(step: string) { step != Idle && step != Done }

  /** The target the step effect sets: the step's floor unless the target is already higher,
      100 once complete, and 0 for "idle" and any step it does not know. */
  function TargetFor(step: string, target: real): (t: real)
    ensures step == Done ==> t == 100.0
    ensures StepFloor(step).Some? ==> t == Max(StepFloor(step).value, target)
    ensures step != Done && StepFloor(step).None? ==> t == 0.0
  {
    if step == Done then 100.0
    else match StepFloor(step)
      case Some(floor) => Max(floor, target)
      case None => 0.0
  }

  /** Running the effect again with the target it just set changes nothing, so the effect
      settles after one re-render. */
  lemma TargetForSettles(step: string, target: real)
    ensures TargetFor(step, TargetFor(step, target)) == TargetFor(step, target)
  {
  }

  /** Every step the form reaches while loading has a floor, and a loading step never lowers the
      target. */
  lemma TargetForKeepsHigherTarget(step: string, target: real)
    requires StepFloor(step).Some?
    ensures Loading(step)
    ensures TargetFor(step, target) >= target && TargetFor(step, target) >= StepFloor(step).value
  {
  }

  /** The form state the model tracks. */
  datatype FormState = FormState(step: string, progress: real, target: real, meditation: Option<MeditationView>)

  /** An event whose percentage, if it carries one, lies in 0..100 as the endpoint's do. */
  predicate Percent(e: Event) { e.Progress? ==> 0 <= e.progress <= 100 }

  /** Every line of a chunk that decodes carries a percentage in 0..100. */
  predicate PercentLines(lines: seq<string>, decode: string -> Option<Event>)
  {
    forall k :: 0 <= k < |lines| ==> decode(lines[k]).None? || Percent(decode(lines[k]).value)
  }

  /** The effect of one parsed event on the form: "script" shows the draft, "progress" moves the
      step and raises the target, "complete" finishes; "error" and unknown types change nothing. */
  function Absorb(s: FormState, e: Event): (r: FormState)
    ensures r.progress == s.progress
    ensures e.Completed? ==> r.step == Done && r.target == 100.0
    ensures !e.Completed? ==> r.target >= s.target && (Percent(e) ==> r.target <= Max(s.target, 100.0))
    ensures !e.ScriptReady? && !e.Progress? && !e.Completed? ==> r == s
    ensures e.ScriptReady? ==> r == s.(step := ScriptShown, meditation := Some(e.draft))
    ensures e.Progress? ==> r.step == e.step && r.target == Max(s.target, e.progress as real) && r.meditation == s.meditation
    ensures e.Completed? ==> r.meditation == Some(ViewOf(e.row))
  {
    match e
    case ScriptReady(view) => s.(step := ScriptShown, meditation := Some(view))
    case Progress(step, p) => s.(step := step, target := Max(s.target, p as real))
    case Completed(row) => s.(step := Done, target := 100.0, meditation := Some(ViewOf(row)))
    case Failed(_) => s
    case Other(_) => s
  }

  /** The lines of one chunk, in order, up to and including the first "complete" event; a line
      that does not decode is skipped. */
  function AbsorbLines(s: FormState, lines: seq<string>, decode: string -> Option<Event>): FormState
    decreases |lines|
  {
    if |lines| == 0 then s
    else match decode(lines[0])
      case None => AbsorbLines(s, lines[1..], decode)
      case Some(e) => if e.Completed? then Absorb(s, e) else AbsorbLines(Absorb(s, e), lines[1..], decode)
  }

  /** The lines a chunk is cut into: split on "\n", empty pieces dropped. */
  function Lines(chunk: string): seq<string> { NonEmpty(Split(chunk, '\n')) }

  /** The chunks of a stream, each framed on its own. */
  function AbsorbChunks(s: FormState, chunks: seq<string>, decode: string -> Option<Event>): FormState
    decreases |chunks|
  {
    if |chunks| == 0 then s
    else AbsorbChunks(AbsorbLines(s, Lines(chunks[0]), decode), chunks[1..], decode)
  }

  /** Out-of-order or repeated percentages never lower the target while a chunk is read, the
      target stays within 100, and reading never moves the animated value. */
  lemma {:induction false} AbsorbLinesRaisesTarget(s: FormState, lines: seq<string>, decode: string -> Option<Event>)
    requires s.target <= 100.0 && PercentLines(lines, decode)
    ensures s.target <= AbsorbLines(s, lines, decode).target <= 100.0
    ensures AbsorbLines(s, lines, decode).progress == s.progress
    decreases |lines|
  {
    if |lines| > 0 {
      assert PercentLines(lines[1..], decode) by {
        forall k | 0 <= k < |lines| - 1 ensures decode(lines[1..][k]).None? || Percent(decode(lines[1..][k]).value) {
          assert lines[1..][k] == lines[k + 1];
        }
      }
      match decode(lines[0])
      case None => AbsorbLinesRaisesTarget(s, lines[1..], decode);
      case Some(e) =>
        if !e.Completed? {
          AbsorbLinesRaisesTarget(Absorb(s, e), lines[1..], decode);
        }
    }
  }

  /** The target is the running maximum: once a chunk is read, it is at least every percentage
      that a progress line before the first "complete" carried. */
  lemma {:induction false} TargetCoversEveryProgress(s: FormState, lines: seq<string>, decode: string -> Option<Event>, k: nat)
    requires s.target <= 100.0 && PercentLines(lines, decode)
    requires k < |lines| && decode(lines[k]).Some? && decode(lines[k]).value.Progress?
    requires forall j :: 0 <= j < k ==> decode(lines[j]).None? || !decode(lines[j]).value.Completed?
    ensures AbsorbLines(s, lines, decode).target >= decode(lines[k]).value.progress as real
    decreases k
  {
    assert PercentLines(lines[1..], decode) by {
      forall j | 0 <= j < |lines| - 1 ensures decode(lines[1..][j]).None? || Percent(decode(lines[1..][j]).value) {
        assert lines[1..][j] == lines[j + 1];
      }
    }
    if k == 0 {
      AbsorbLinesRaisesTarget(Absorb(s, decode(lines[0]).value), lines[1..], decode);
    } else {
      var t := match decode(lines[0]) case None => s case Some(e) => Absorb(s, e);
      assert lines[1..][k - 1] == lines[k];
      TargetCoversEveryProgress(t, lines[1..], decode, k - 1);
    }
  }

  /** The same across a whole stream. */
  lemma {:induction false} AbsorbChunksRaisesTarget(s: FormState, chunks: seq<string>, decode: string -> Option<Event>)
    requires s.target <= 100.0
    requires forall i :: 0 <= i < |chunks| ==> PercentLines(Lines(chunks[i]), decode)
    ensures s.target <= AbsorbChunks(s, chunks, decode).target <= 100.0
    ensures AbsorbChunks(s, chunks, decode).progress == s.progress
    decreases |chunks|
  {
    if |chunks| > 0 {
      var next := AbsorbLines(s, Lines(chunks[0]), decode);
      AbsorbLinesRaisesTarget(s, Lines(chunks[0]), decode);
      assert forall i :: 0 <= i < |chunks| - 1 ==> chunks[1..][i] == chunks[i + 1];
      AbsorbChunksRaisesTarget(next, chunks[1..], decode);
    }
  }

  /** A line that does not decode, or decodes to an "error" or unknown event, is as if absent. */
  lemma {:induction false} IgnoredLineChangesNothing(s: FormState, line: string, rest: seq<string>, decode: string -> Option<Event>)
    requires decode(line).None? || decode(line).value.Failed? || decode(line).value.Other?
    ensures AbsorbLines(s, [line] + rest, decode) == AbsorbLines(s, rest, decode)
  {
    assert ([line] + rest)[0] == line && ([line] + rest)[1..] == rest;
  }

  /** The first "complete" line of a chunk finishes the form with its payload, and whatever
      follows it in that chunk is ignored. */
  lemma {:induction false} CompleteEndsChunk(s: FormState, lines: seq<string>, decode: string -> Option<Event>, k: nat, row: Meditation)
    requires k < |lines| && decode(lines[k]) == Some(Completed(row))
    requires forall j :: 0 <= j < k ==> decode(lines[j]).None? || !decode(lines[j]).value.Completed?
    ensures AbsorbLines(s, lines, decode) == AbsorbLines(s, lines[..k + 1], decode)
    ensures AbsorbLines(s, lines, decode).step == Done
    ensures AbsorbLines(s, lines, decode).target == 100.0
    ensures AbsorbLines(s, lines, decode).meditation == Some(ViewOf(row))
    decreases k
  {
    if k > 0 {
      var t := match decode(lines[0]) case None => s case Some(e) => Absorb(s, e);
      assert lines[..k + 1][1..] == lines[1..][..k];
      CompleteEndsChunk(t, lines[1..], decode, k - 1, row);
    }
  }

  class Form {
    var step: string
    var progress: real
    var target: real
    var meditation: Option<MeditationView>

    function State(): FormState
      reads this
    {
      FormState(step, progress, target, meditation)
    }

    constructor ()
      ensures State() == FormState(Idle, 0.0, 0.0, None)
    {
      step, progress, target, meditation := Idle, 0.0, 0.0, None;
    }

    /** The step effect's target update. */
    method SettleTarget()
      modifies this`target
      ensures target == TargetFor(step, old(target))
    {
      target := TargetFor(step, target);
    }

    /** One interval tick: half a point forward, unless that would pass the target. */
    method Tick()
      modifies this`progress
      ensures old(progress) + 0.5 <= target ==> progress == old(progress) + 0.5
      ensures old(progress) + 0.5 > target ==> progress == old(progress)
      ensures old(progress) <= target ==> progress <= target
      ensures progress >= old(progress)
    {
      var next := progress + 0.5;
      if next <= target {
        progress := next;
      }
    }

    /** The guards and the reset at the start of `handleSubmit`: blank input or a failed or
        negative credit check sends nothing. `credits` is the credit check's result. */
    method Submit(input: string, credits: Result<bool>) returns (started: bool)
      modifies this
      ensures started <==> !IsBlank(input) && credits == Success(true)
      ensures !started ==> State() == old(State())
      ensures started ==> State() == FormState(GeneratingScript, 0.0, 0.0, None) && Loading(step)
    {
      if IsBlank(input) {
        return false;
      }
      if credits.Failure? || !credits.value {
        return false;
      }
      meditation, progress, target, step := None, 0.0, 0.0, GeneratingScript;
      started := true;
    }

    /** One line of a chunk; `stop` is the `break` after "complete". */
    method HandleLine(line: string, decode: string -> Option<Event>) returns (stop: bool)
      modifies this
      ensures stop <==> decode(line).Some? && decode(line).value.Completed?
      ensures decode(line).None? ==> State() == old(State())
      ensures decode(line).Some? ==> State() == Absorb(old(State()), decode(line).value)
    {
      stop := false;
      var data := decode(line);
      if data.None? {
        return;
      }
      match data.value
      case ScriptReady(view) =>
        step := ScriptShown;
        meditation := Some(view);
      case Progress(s, p) =>
        step := s;
        target := Max(target, p as real);
      case Completed(row) =>
        step := Done;
        target := 100.0;
        meditation := Some(ViewOf(row));
        stop := true;
      case Failed(_) =>
      case Other(_) =>
    }

    /** The `for` loop over one chunk's lines. */
    method ReadChunk(chunk: string, decode: string -> Option<Event>)
      modifies this
      ensures State() == AbsorbLines(old(State()), Lines(chunk), decode)
    {
      var lines := Lines(chunk);
      var i := 0;
      while i < |lines|
        invariant 0 <= i <= |lines|
        invariant AbsorbLines(State(), lines[i..], decode) == AbsorbLines(old(State()), lines, decode)
      {
        assert lines[i..][1..] == lines[i + 1..];
        var stop := HandleLine(lines[i], decode);
        if stop {
          return;
        }
        i := i + 1;
      }
    }

    /** The rest of `handleSubmit` after the reset: a response that is not ok or a transport
        failure (`broken`, after the chunks that did arrive) puts the form back to "idle";
        otherwise each chunk is read in turn. */
    method ReadStream(ok: bool, chunks: seq<string>, broken: bool, decode: string -> Option<Event>)
      modifies this
      ensures !ok ==> State() == old(State()).(step := Idle)
      ensures ok && !broken ==> State() == AbsorbChunks(old(State()), chunks, decode)
      ensures ok && broken ==> State() == AbsorbChunks(old(State()), chunks, decode).(step := Idle)
      ensures !ok || broken ==> !Loading(step)
    {
      if !ok {
        step := Idle;
        return;
      }
      for i := 0 to |chunks|
        invariant AbsorbChunks(State(), chunks[i..], decode) == AbsorbChunks(old(State()), chunks, decode)
      {
        assert chunks[i..][1..] == chunks[i + 1..];
        ReadChunk(chunks[i], decode);
      }
      assert chunks[|chunks|..] == [];
      if broken {
        step := Idle;
      }
    }
  }
}
