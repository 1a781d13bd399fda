/** The pure rules of the generation endpoint (app/api/generate-meditation/route.ts): parameter
    clamping, the word and silence budgets, script validation, the speech/pause partition, the
    per-segment progress formula, file naming, and the ordered concat list. */
module GenerationPlan {
  import opened Wrappers
  import opened Text
  import opened Sorting
  import opened Schema

  const DefaultMusicVolume: real := 0.3
  const DefaultDurationMinutes: real := 5.0
  const WordsPerMinute: real := 150.0

  /** The JSON request body. A missing or falsy `userInput` is the empty string; an absent number
      is `None`. Non-numeric values (which `Number` turns into NaN) are not represented. */
  datatype RequestBody = RequestBody(userInput: string, musicVolume: Option<real>, durationMinutes: Option<real>)

  function Clamp(lo: real, hi: real, x: real): real
    requires lo <= hi
  {
    if x < lo then lo else if x > hi then hi else x
  }

  /** `Math.max(0, Math.min(1, Number(musicVolume)))` with the 0.3 default. */
  function ValidatedVolume(body: RequestBody): (v: real)
    ensures 0.0 <= v <= 1.0
    ensures body.musicVolume.None? ==> v == DefaultMusicVolume
    ensures body.musicVolume.Some? ==> var x := body.musicVolume.value;
      (x < 0.0 ==> v == 0.0) && (x > 1.0 ==> v == 1.0) && (0.0 <= x <= 1.0 ==> v == x)
  {
    match body.musicVolume
    case None => DefaultMusicVolume
    case Some(x) => Clamp(0.0, 1.0, x)
  }

  /** `Math.max(1, Math.min(10, Number(durationMinutes)))` with the 5-minute default. */
  function ValidatedDuration(body: RequestBody): (d: real)
    ensures 1.0 <= d <= 10.0
    ensures body.durationMinutes.None? ==> d == DefaultDurationMinutes
    ensures body.durationMinutes.Some? ==> var x := body.durationMinutes.value;
      (x < 1.0 ==> d == 1.0) && (x > 10.0 ==> d == 10.0) && (1.0 <= x <= 10.0 ==> d == x)
  {
    match body.durationMinutes
    case None => DefaultDurationMinutes
    case Some(x) => Clamp(1.0, 10.0, x)
  }

  /** The numbers the script-generation prompt is built from. */
  datatype Budget = Budget(durationMinutes: real, targetWordCount: real, totalSeconds: real, silenceSeconds: real)

  function BudgetFor(durationMinutes: real): Budget
  {
    var total := durationMinutes * 60.0;
    Budget(durationMinutes, durationMinutes * WordsPerMinute, total, total / 2.0)
  }

  /** For every admitted duration: 150 words per minute at every length, the total in seconds,
      and exactly half of it silence. */
  lemma BudgetShape(d: real)
    requires 1.0 <= d <= 10.0
    ensures var b := BudgetFor(d);
      && b.durationMinutes == d
      && b.targetWordCount == WordsPerMinute * (b.totalSeconds / 60.0)
      && 2.0 * b.silenceSeconds == b.totalSeconds
      && b.silenceSeconds == d * 60.0 / 2.0
      && 150.0 <= b.targetWordCount <= 1500.0
      && 60.0 <= b.totalSeconds <= 600.0
      && 30.0 <= b.silenceSeconds <= 300.0
  {
  }

  /** A request that passed authentication and input checks, with its clamped parameters. */
  datatype Admitted = Admitted(userId: string, userInput: string, volume: real, budget: Budget)

  /** The checks before anything is streamed: an empty `userId` is a failed authentication and a
      failed body is a JSON error from `req.json()`. */
  function Admit(userId: string, body: Result<RequestBody>): (r: Result<Admitted>)
    ensures userId == "" ==> r == Failure("Unauthorized")
    ensures userId != "" && body.Failure? ==> r == Failure(body.error)
    ensures userId != "" && body.Success? && body.value.userInput == "" ==> r == Failure("User input is required")
    ensures r.Success? <==> userId != "" && body.Success? && body.value.userInput != ""
    ensures r.Success? ==>
      && r.value.userId == userId && r.value.userInput == body.value.userInput
      && r.value.volume == ValidatedVolume(body.value)
      && r.value.budget == BudgetFor(ValidatedDuration(body.value))
  {
    if userId == "" then Failure("Unauthorized")
    else if body.Failure? then Failure(body.error)
    else if body.value.userInput == "" then Failure("User input is required")
    else Success(Admitted(userId, body.value.userInput, ValidatedVolume(body.value),
                          BudgetFor(ValidatedDuration(body.value))))
  }

  /** What `JSON.parse` makes of a completion: a falsy title is the empty string and `segments`
      is `None` when it is not an array. */
  datatype ParsedScript = ParsedScript(
    title: string,
    targetWordCount: real,
    actualWordCount: real,
    durationMinutes: real,
    segments: Option<seq<Segment>>)

  /** The checks on the completion: a failed call, an empty completion, unparsable JSON, and a
      script without a title or without a segments array are each an error. */
  function ValidateScript(completion: Result<string>, parse: string -> Result<ParsedScript>): (r: Result<MeditationScript>)
    ensures completion.Failure? ==> r == Failure(completion.error)
    ensures completion == Success("") ==> r == Failure("Failed to generate meditation script")
    ensures completion.Success? && completion.value != "" && parse(completion.value).Failure? ==>
      r == Failure(parse(completion.value).error)
    ensures r.Success? <==>
      completion.Success? && completion.value != "" && parse(completion.value).Success?
      && parse(completion.value).value.title != "" && parse(completion.value).value.segments.Some?
    ensures r.Success? ==> var p := parse(completion.value).value;
      r.value == MeditationScript(p.title, p.targetWordCount, p.actualWordCount, p.durationMinutes, p.segments.value)
    ensures r.Failure? && completion.Success? && completion.value != "" && parse(completion.value).Success? ==>
      r == Failure("Invalid script format")
  {
    if completion.Failure? then Failure(completion.error)
    else if completion.value == "" then Failure("Failed to generate meditation script")
    else
      var parsed := parse(completion.value);
      if parsed.Failure? then Failure(parsed.error)
      else if parsed.value.title == "" || parsed.value.segments.None? then Failure("Invalid script format")
      else
        var p := parsed.value;
        Success(MeditationScript(p.title, p.targetWordCount, p.actualWordCount, p.durationMinutes, p.segments.value))
  }

  // ---------------------------------------------------------------------------------------------
  // Partition of the segments into speech and pause work lists

  /** A segment tagged with its position in the script. */
  datatype Indexed = Indexed(segment: Segment, index: nat)

  /** `segments.map((segment, index) => ({ segment, index })).filter(...)`, keeping the speech
      segments when `speech` holds and the pause segments otherwise. */
  function Tagged(segments: seq<Segment>, speech: bool): (r: seq<Indexed>)
    ensures forall j :: 0 <= j < |r| ==>
      r[j].index < |segments| && segments[r[j].index] == r[j].segment && r[j].segment.Speech? == speech
    ensures forall i, j :: 0 <= i < j < |r| ==> r[i].index < r[j].index
  {
    if |segments| == 0 then []
    else
      var last := |segments| - 1;
      var front := Tagged(segments[..last], speech);
      if segments[last].Speech? == speech then front + [Indexed(segments[last], last)] else front
  }

  function SpeechEntries(segments: seq<Segment>): seq<Indexed> { Tagged(segments, true) }

  function PauseEntries(segments: seq<Segment>): seq<Indexed> { Tagged(segments, false) }

  function IndexSet(entries: seq<Indexed>): set<nat>
  {
    set j | 0 <= j < |entries| :: entries[j].index
  }

  /** The positions `0 .. n-1`. */
  function Below(n: nat): (r: set<nat>)
    ensures forall i :: i in r <==> 0 <= i < n
  {
    if n == 0 then {} else Below(n - 1) + {n - 1}
  }

  /** Every position of the script is in exactly one of the two lists, in the list its type
      selects, and the two lists together are as long as the script. */
  lemma {:induction false} TaggedCovers(segments: seq<Segment>, speech: bool)
    ensures forall i :: i in IndexSet(Tagged(segments, speech)) <==> 0 <= i < |segments| && segments[i].Speech? == speech
  {
    if |segments| > 0 {
      var last := |segments| - 1;
      TaggedCovers(segments[..last], speech);
      if segments[last].Speech? == speech {
        IndexSetAppend(Tagged(segments[..last], speech), Indexed(segments[last], last));
      }
    }
  }

  lemma IndexSetAppend(front: seq<Indexed>, e: Indexed)
    ensures IndexSet(front + [e]) == IndexSet(front) + {e.index}
  {
    var r := front + [e];
    forall x | x in IndexSet(r) ensures x in IndexSet(front) + {e.index} {
      var j :| 0 <= j < |r| && r[j].index == x;
      if j < |front| { assert front[j] == r[j]; }
    }
    forall x | x in IndexSet(front) ensures x in IndexSet(r) {
      var j :| 0 <= j < |front| && front[j].index == x;
      assert r[j] == front[j];
    }
    assert r[|front|] == e;
  }

  lemma PartitionComplete(segments: seq<Segment>)
    ensures IndexSet(SpeechEntries(segments)) + IndexSet(PauseEntries(segments)) == Below(|segments|)
    ensures IndexSet(SpeechEntries(segments)) !! IndexSet(PauseEntries(segments))
    ensures |SpeechEntries(segments)| + |PauseEntries(segments)| == |segments|
  {
    TaggedCovers(segments, true);
    TaggedCovers(segments, false);
    TaggedLength(segments);
  }

  lemma {:induction false} TaggedLength(segments: seq<Segment>)
    ensures |Tagged(segments, true)| + |Tagged(segments, false)| == |segments|
  {
    if |segments| > 0 {
      TaggedLength(segments[..|segments| - 1]);
    }
  }

  // ---------------------------------------------------------------------------------------------
  // Progress of the speech work list

  /** `Math.round(num / den)` for a non-negative ratio, halves rounding up: the integer `r` with
      r - 1/2 <= num/den < r + 1/2, stated without division. */
  function RoundRatio(num: nat, den: nat): (r: nat)
    requires den > 0
    ensures 2 * den * r <= 2 * num + den < 2 * den * (r + 1)
  {
    (2 * num + den) / (2 * den)
  }

  lemma MulMonotone(c: nat, a: int, b: int)
    requires a <= b
    ensures c * a <= c * b
  {
  }

  /** The percentage sent when the `i`-th of `n` speech segments is done. */
  function SpeechProgress(i: nat, n: nat): int
    requires i < n
  {
    20 + RoundRatio(40 * (i + 1), n)
  }

  lemma SpeechProgressRange(i: nat, n: nat)
    requires i < n
    ensures 20 <= SpeechProgress(i, n) <= 60
    ensures i == n - 1 ==> SpeechProgress(i, n) == 60
  {
    var r := RoundRatio(40 * (i + 1), n);
    if r > 40 {
      MulMonotone(2 * n, 41, r);
      assert false;
    }
    if i == n - 1 && r < 40 {
      MulMonotone(2 * n, r + 1, 40);
      assert false;
    }
  }

  lemma SpeechProgressMonotone(i: nat, j: nat, n: nat)
    requires i <= j < n
    ensures SpeechProgress(i, n) <= SpeechProgress(j, n)
  {
    var a, b := RoundRatio(40 * (i + 1), n), RoundRatio(40 * (j + 1), n);
    if a > b {
      MulMonotone(2 * n, b + 1, a);
      assert false;
    }
  }

  // ---------------------------------------------------------------------------------------------
  // Files of one request

  /** `path.join(audioDir, baseFilename)`: every file of a request starts with this stem. */
  function Stem(audioDir: string, base: string): string { audioDir + "/" + base }

  /** `meditation-<clock>`. */
  function BaseName(now: nat): string { "meditation-" + NatToString(now) }

  function SegmentPath(stem: string, index: nat): string { stem + "-segment-" + NatToString(index) + ".mp3" }
  function TempPath(stem: string, index: nat): string { stem + "-temp-" + NatToString(index) + ".mp3" }
  function ListPath(stem: string): string { stem + "-list.txt" }
  function MeditationPath(stem: string): string { stem + "-meditation.mp3" }
  function MusicPath(stem: string): string { stem + "-music.mp3" }
  function FinalPath(stem: string): string { stem + ".mp3" }

  /** The path recorded in the database for the final file. */
  function StoredAudioPath(base: string): string { "/audio/" + base + ".mp3" }

  lemma SegmentPathInjective(stem: string, i: nat, j: nat)
    requires SegmentPath(stem, i) == SegmentPath(stem, j)
    ensures i == j
  {
    var p, q := SegmentPath(stem, i), SegmentPath(stem, j);
    var k := |stem + "-segment-"|;
    assert |NatToString(i)| == |p| - k - 4 == |NatToString(j)|;
    assert NatToString(i) == p[k..|p| - 4] == q[k..|q| - 4] == NatToString(j);
    NatToStringInjective(i, j);
  }

  lemma SegmentPathIsNotTemp(stem: string, i: nat, j: nat)
    ensures SegmentPath(stem, i) != TempPath(stem, j)
  {
    assert SegmentPath(stem, i)[|stem| + 1] == 's';
    assert TempPath(stem, j)[|stem| + 1] == 't';
  }

  function SegmentFiles(stem: string, indices: set<nat>): set<string>
  {
    set i | i in indices :: SegmentPath(stem, i)
  }

  function TempFiles(stem: string, indices: set<nat>): set<string>
  {
    set i | i in indices :: TempPath(stem, i)
  }

  /** Every file a successful request creates and removes again. */
  function Intermediates(stem: string, segments: seq<Segment>): set<string>
  {
    SegmentFiles(stem, Below(|segments|)) + TempFiles(stem, IndexSet(SpeechEntries(segments)))
      + {ListPath(stem), MeditationPath(stem), MusicPath(stem)}
  }

  /** The final file's name differs from every intermediate file's name (it has `.` where they
      have `-` right after the stem), so deleting the intermediates never deletes it. */
  lemma FinalIsNotIntermediate(stem: string, segments: seq<Segment>)
    ensures FinalPath(stem) !in Intermediates(stem, segments)
  {
    var f := FinalPath(stem);
    assert f[|stem|] == '.';
    forall p | p in Intermediates(stem, segments) ensures |stem| < |p| && p[|stem|] == '-' {
      if p in SegmentFiles(stem, Below(|segments|)) {
        var i :| i in Below(|segments|) && p == SegmentPath(stem, i);
      } else if p in TempFiles(stem, IndexSet(SpeechEntries(segments))) {
        var i :| i in IndexSet(SpeechEntries(segments)) && p == TempPath(stem, i);
      }
    }
  }

  // ---------------------------------------------------------------------------------------------
  // Ordered reassembly

  /** What a finished segment task returns: `{ index, path }`. */
  datatype Artifact = Artifact(index: nat, path: string)

  function ArtifactOf(stem: string, e: Indexed): Artifact { Artifact(e.index, SegmentPath(stem, e.index)) }

  function IndexKey(a: Artifact): int { a.index }

  /** The artifacts of an `n`-segment script in script order. */
  function InScriptOrder(stem: string, n: nat): (r: seq<Artifact>)
    ensures |r| == n && forall k :: 0 <= k < n ==> r[k] == Artifact(k, SegmentPath(stem, k))
  {
    seq(n, k requires 0 <= k < n => Artifact(k, SegmentPath(stem, k)))
  }

  function ArtifactsOf(stem: string, entries: seq<Indexed>): (r: seq<Artifact>)
    ensures |r| == |entries| && forall k :: 0 <= k < |r| ==> r[k] == ArtifactOf(stem, entries[k])
  {
    seq(|entries|, k requires 0 <= k < |entries| => ArtifactOf(stem, entries[k]))
  }

  lemma ArtifactsOfAppend(stem: string, entries: seq<Indexed>, e: Indexed)
    ensures ArtifactsOf(stem, entries + [e]) == ArtifactsOf(stem, entries) + [ArtifactOf(stem, e)]
  {
  }

  lemma InScriptOrderAppend(stem: string, n: nat)
    ensures InScriptOrder(stem, n + 1) == InScriptOrder(stem, n) + [Artifact(n, SegmentPath(stem, n))]
  {
  }

  lemma TaggedAppend(segments: seq<Segment>, speech: bool)
    requires |segments| > 0
    ensures var last := |segments| - 1;
      Tagged(segments, speech) ==
        if segments[last].Speech? == speech then Tagged(segments[..last], speech) + [Indexed(segments[last], last)]
        else Tagged(segments[..last], speech)
  {
  }

  /** The speech and pause artifacts together are exactly one artifact per script position. */
  lemma {:induction false} PartitionArtifacts(stem: string, segments: seq<Segment>)
    ensures multiset(ArtifactsOf(stem, SpeechEntries(segments))) + multiset(ArtifactsOf(stem, PauseEntries(segments)))
      == multiset(InScriptOrder(stem, |segments|))
  {
    if |segments| > 0 {
      var last := |segments| - 1;
      var front := segments[..last];
      PartitionArtifacts(stem, front);
      var e := Indexed(segments[last], last);
      InScriptOrderAppend(stem, last);
      TaggedAppend(segments, true);
      TaggedAppend(segments, false);
      if segments[last].Speech? {
        ArtifactsOfAppend(stem, SpeechEntries(front), e);
      } else {
        ArtifactsOfAppend(stem, PauseEntries(front), e);
      }
      PartitionStep(ArtifactsOf(stem, SpeechEntries(front)), ArtifactsOf(stem, PauseEntries(front)),
                    ArtifactsOf(stem, SpeechEntries(segments)), ArtifactsOf(stem, PauseEntries(segments)),
                    InScriptOrder(stem, last), ArtifactOf(stem, e));
    }
  }

  /** One more artifact, added to one of the two lists and to the script-order list. */
  lemma PartitionStep(speech: seq<Artifact>, pauses: seq<Artifact>, speech': seq<Artifact>, pauses': seq<Artifact>,
                      ordered: seq<Artifact>, a: Artifact)
    requires multiset(speech) + multiset(pauses) == multiset(ordered)
    requires (speech' == speech + [a] && pauses' == pauses) || (speech' == speech && pauses' == pauses + [a])
    ensures multiset(speech') + multiset(pauses') == multiset(ordered + [a])
  {
    MultisetAppend(ordered, a);
    if speech' == speech + [a] {
      MultisetAppend(speech, a);
    } else {
      MultisetAppend(pauses, a);
    }
  }

  lemma MultisetAppend<T>(s: seq<T>, x: T)
    ensures multiset(s + [x]) == multiset(s) + multiset{x}
  {
  }

  function PathsOf(artifacts: seq<Artifact>): (r: seq<string>)
    ensures |r| == |artifacts| && forall k :: 0 <= k < |r| ==> r[k] == artifacts[k].path
  {
    seq(|artifacts|, k requires 0 <= k < |artifacts| => artifacts[k].path)
  }

  /** Whatever order the segment tasks finished in, sorting their results by index gives the
      artifacts in script order. */
  lemma SortRestoresScriptOrder(stem: string, segments: seq<Segment>, finished: seq<Artifact>)
    requires multiset(finished) == multiset(InScriptOrder(stem, |segments|))
    ensures SortBy(finished, IndexKey) == InScriptOrder(stem, |segments|)
    ensures PathsOf(SortBy(finished, IndexKey)) == seq(|segments|, k requires 0 <= k < |segments| => SegmentPath(stem, k))
  {
    SortRearrangement(finished, InScriptOrder(stem, |segments|), IndexKey);
  }

  /** The ffmpeg concat list: `file '<path>'` per segment file, joined by newlines. */
  function ConcatLine(path: string): string { "file '" + path + "'" }

  function ConcatList(paths: seq<string>): string
  {
    Join(seq(|paths|, k requires 0 <= k < |paths| => ConcatLine(paths[k])), '\n')
  }

  /** Reading the list back line by line gives one line per file, in order. */
  lemma ConcatListLines(paths: seq<string>)
    requires 1 <= |paths|
    requires forall k :: 0 <= k < |paths| ==> Excludes(paths[k], '\n')
    ensures var lines := Split(ConcatList(paths), '\n');
      |lines| == |paths| && forall k :: 0 <= k < |paths| ==> lines[k] == ConcatLine(paths[k])
  {
    var lines := seq(|paths|, k requires 0 <= k < |paths| => ConcatLine(paths[k]));
    forall k | 0 <= k < |paths| ensures Excludes(lines[k], '\n') {
      assert lines[k] == "file '" + paths[k] + "'";
    }
    SplitJoin(lines, '\n');
  }
}
