/** The streaming request handler of app/api/generate-meditation/route.ts: one `Generator` per
    request owns the response stream and the request's files in the audio directory. The
    language model, text-to-speech, ffmpeg and ffprobe are the `Collaborators`, each a function
    that yields a value or fails with a message. */
module GenerationRoute {
  import opened Wrappers
  import opened Text
  import opened Sorting
  import opened Sequences
  import opened Schema
  import opened Protocol
  import opened GenerationPlan
  import opened MeditationsActions

  /** The external calls. Files are tracked by name: a call that succeeds has written its output
      file, and one that fails has written nothing. */
  datatype Collaborators = Collaborators(
    chat: (Budget, string) -> Result<string>,        // script completion; "" when it has no content
    parse: string -> Result<ParsedScript>,           // JSON.parse of the completion
    synthesize: string -> Result<()>,                // text-to-speech of a speech segment
    transcode: (string, string) -> Result<()>,       // ffmpeg: raw speech file -> segment file
    silence: (real, string) -> Result<()>,           // ffmpeg: silence of a duration -> segment file
    concat: (string, string) -> Result<()>,          // ffmpeg: concat list text -> voice track
    probe: string -> Result<real>,                   // ffprobe: duration of a file in seconds
    trimMusic: (real, string) -> Result<()>,         // ffmpeg: background music cut to a duration
    mix: (string, string, real, string) -> Result<()>) // ffmpeg: voice + music at a gain -> final file

  function Range(n: nat): (r: seq<nat>)
    ensures |r| == n && forall k :: 0 <= k < n ==> r[k] == k
  {
    seq(n, k requires 0 <= k < n => k)
  }

  /** The per-segment progress events, in the order the speech tasks finished. */
  function SpeechProgressEvents(completion: seq<nat>, n: nat): (r: seq<Event>)
    requires forall k :: 0 <= k < |completion| ==> completion[k] < n
    ensures |r| == |completion|
    ensures forall k :: 0 <= k < |r| ==> r[k] == Progress(GeneratingSpeech, SpeechProgress(completion[k], n))
  {
    seq(|completion|, k requires 0 <= k < |completion| => Progress(GeneratingSpeech, SpeechProgress(completion[k], n)))
  }

  function ScriptFor(a: Admitted, env: Collaborators): Result<MeditationScript>
  {
    ValidateScript(env.chat(a.budget, a.userInput), env.parse)
  }

  function SegmentPathsInOrder(stem: string, n: nat): (r: seq<string>)
    ensures |r| == n && forall k :: 0 <= k < n ==> r[k] == SegmentPath(stem, k)
  {
    seq(n, k requires 0 <= k < n => SegmentPath(stem, k))
  }

  lemma SegmentFilesUnion(stem: string, a: set<nat>, b: set<nat>)
    ensures SegmentFiles(stem, a + b) == SegmentFiles(stem, a) + SegmentFiles(stem, b)
  {
  }

  lemma SegmentPathsInOrderFiles(stem: string, n: nat)
    ensures (set p | p in SegmentPathsInOrder(stem, n)) == SegmentFiles(stem, Below(n))
  {
    var paths := SegmentPathsInOrder(stem, n);
    forall p | p in SegmentFiles(stem, Below(n)) ensures p in paths {
      var i :| i in Below(n) && p == SegmentPath(stem, i);
      assert paths[i] == p;
    }
  }

  /** Multisets survive a change of order of the positions they are read at. */
  lemma {:induction false} ReorderedArtifacts(stem: string, entries: seq<Indexed>, order: seq<nat>)
    requires multiset(order) == multiset(Range(|entries|))
    ensures forall k :: 0 <= k < |order| ==> order[k] < |entries|
    ensures multiset(seq(|order|, k requires 0 <= k < |order| && order[k] < |entries| => ArtifactOf(stem, entries[order[k]])))
      == multiset(ArtifactsOf(stem, entries))
  {
    forall k | 0 <= k < |order| ensures order[k] < |entries| {
      assert order[k] in multiset(Range(|entries|));
    }
    var f := (i: nat) => if i < |entries| then ArtifactOf(stem, entries[i]) else Artifact(0, "");
    MapPreservesMultiset(f, order, Range(|entries|));
    assert MapSeq(f, order) == seq(|order|, k requires 0 <= k < |order| && order[k] < |entries| => ArtifactOf(stem, entries[order[k]]));
    assert MapSeq(f, Range(|entries|)) == ArtifactsOf(stem, entries);
  }

  lemma InRange(i: nat, n: nat)
    requires i in multiset(Range(n))
    ensures i < n
  {
    var k :| 0 <= k < n && Range(n)[k] == i;
  }

  lemma SpeechProgressEventsAppend(completion: seq<nat>, i: nat, n: nat)
    requires forall k :: 0 <= k < |completion| ==> completion[k] < n
    requires i < n
    ensures SpeechProgressEvents(completion + [i], n)
         == SpeechProgressEvents(completion, n) + [Progress(GeneratingSpeech, SpeechProgress(i, n))]
  {
  }

  lemma TempFilesGrow(stem: string, a: set<nat>, b: set<nat>)
    requires a <= b
    ensures TempFiles(stem, a) <= TempFiles(stem, b)
  {
  }

  /** One finished speech task turns its temporary file into its segment file and leaves every
      other file as it was. */
  lemma FilesAfterSpeechTask(stem: string, initial: set<string>, finished: set<nat>, index: nat)
    ensures ((initial - TempFiles(stem, finished)) + SegmentFiles(stem, finished) - {TempPath(stem, index)})
              + {SegmentPath(stem, index)}
         == (initial - TempFiles(stem, finished + {index})) + SegmentFiles(stem, finished + {index})
  {
    forall j | j in finished ensures SegmentPath(stem, j) != TempPath(stem, index) {
      SegmentPathIsNotTemp(stem, j, index);
    }
    assert TempFiles(stem, finished + {index}) == TempFiles(stem, finished) + {TempPath(stem, index)};
    assert SegmentFiles(stem, finished + {index}) == SegmentFiles(stem, finished) + {SegmentPath(stem, index)};
  }

  /** One more finished pause task adds its artifact and its segment file. */
  lemma PauseStep(stem: string, entries: seq<Indexed>, j: nat)
    requires j < |entries|
    ensures ArtifactsOf(stem, entries[..j + 1]) == ArtifactsOf(stem, entries[..j]) + [ArtifactOf(stem, entries[j])]
    ensures SegmentFiles(stem, IndexSet(entries[..j + 1]))
         == SegmentFiles(stem, IndexSet(entries[..j])) + {SegmentPath(stem, entries[j].index)}
  {
    assert entries[..j + 1] == entries[..j] + [entries[j]];
    assert IndexSet(entries[..j + 1]) == IndexSet(entries[..j]) + {entries[j].index};
  }

  /** The state of the speech round after the tasks at positions `completion` have finished, in
      that order, and those at `remaining` have not. */
  ghost predicate SpeechRound(speech: seq<Indexed>, stem: string, initialFiles: set<string>, initialStream: seq<Event>,
                              remaining: multiset<nat>, completion: seq<nat>, done: seq<Artifact>, finished: set<nat>,
                              files: set<string>, stream: seq<Event>)
  {
    && multiset(completion) + remaining == multiset(Range(|speech|))
    && (forall k :: 0 <= k < |completion| ==> completion[k] < |speech|)
    && |done| == |completion|
    && (forall k :: 0 <= k < |done| ==> done[k] == ArtifactOf(stem, speech[completion[k]]))
    && stream == initialStream + SpeechProgressEvents(completion, |speech|)
    && (forall k :: 0 <= k < |completion| ==> speech[completion[k]].index in finished)
    && finished <= IndexSet(speech)
    && files == (initialFiles - TempFiles(stem, finished)) + SegmentFiles(stem, finished)
  }

  /** Finishing the task at position `i` moves it from `remaining` to the end of `completion`. */
  lemma SpeechRoundStep(speech: seq<Indexed>, stem: string, initialFiles: set<string>, initialStream: seq<Event>,
                        remaining: multiset<nat>, completion: seq<nat>, done: seq<Artifact>, finished: set<nat>,
                        files: set<string>, stream: seq<Event>, i: nat, a: Artifact, files': set<string>, stream': seq<Event>)
    requires SpeechRound(speech, stem, initialFiles, initialStream, remaining, completion, done, finished, files, stream)
    requires i in remaining && i < |speech|
    requires a == ArtifactOf(stem, speech[i])
    requires stream' == stream + [Progress(GeneratingSpeech, SpeechProgress(i, |speech|))]
    requires files' == (files - {TempPath(stem, speech[i].index)}) + {SegmentPath(stem, speech[i].index)}
    ensures SpeechRound(speech, stem, initialFiles, initialStream, remaining - multiset{i}, completion + [i],
                        done + [a], finished + {speech[i].index}, files', stream')
  {
    FilesAfterSpeechTask(stem, initialFiles, finished, speech[i].index);
    SpeechProgressEventsAppend(completion, i, |speech|);
    assert speech[i].index in IndexSet(speech);
  }

  /** When every position has finished, every speech index has, and the finished artifacts are
      the speech artifacts in some order. */
  lemma SpeechTasksCovered(stem: string, speech: seq<Indexed>, completion: seq<nat>, done: seq<Artifact>, finished: set<nat>)
    requires multiset(completion) == multiset(Range(|speech|))
    requires forall k :: 0 <= k < |completion| ==> completion[k] < |speech|
    requires |done| == |completion|
    requires forall k :: 0 <= k < |done| ==> done[k] == ArtifactOf(stem, speech[completion[k]])
    requires forall k :: 0 <= k < |completion| ==> speech[completion[k]].index in finished
    requires finished <= IndexSet(speech)
    ensures finished == IndexSet(speech)
    ensures multiset(done) == multiset(ArtifactsOf(stem, speech))
  {
    ReorderedArtifacts(stem, speech, completion);
    assert done == seq(|completion|, k requires 0 <= k < |completion| && completion[k] < |speech| => ArtifactOf(stem, speech[completion[k]]));
    forall x | x in IndexSet(speech) ensures x in finished {
      var j :| 0 <= j < |speech| && speech[j].index == x;
      assert Range(|speech|)[j] == j;
      assert j in multiset(completion);
      var k :| 0 <= k < |completion| && completion[k] == j;
    }
  }

  /** No event of `events` ends the stream. */
  ghost predicate NoTerminal(events: seq<Event>) {
    forall e | e in events :: !e.IsTerminal()
  }

  lemma SpeechProgressQuiet(completion: seq<nat>, n: nat)
    requires forall k :: 0 <= k < |completion| ==> completion[k] < n
    ensures NoTerminal([Progress(GeneratingSpeech, 20), Progress(GeneratingSilence, 65)] + SpeechProgressEvents(completion, n))
  {
    var r := [Progress(GeneratingSpeech, 20), Progress(GeneratingSilence, 65)] + SpeechProgressEvents(completion, n);
    forall e | e in r ensures !e.IsTerminal() {
      var k :| 0 <= k < |r| && r[k] == e;
    }
  }

  lemma QuietAppend(a: seq<Event>, b: seq<Event>)
    requires NoTerminal(a) && NoTerminal(b)
    ensures NoTerminal(a + b)
  {
  }

  /** The progress events from "generating-speech" to "combining-audio", with the speech
      tasks finishing in the order `completion`. */
  function SynthesisEvents(completion: seq<nat>, n: nat): (r: seq<Event>)
    requires forall k :: 0 <= k < |completion| ==> completion[k] < n
    ensures NoTerminal(r)
  {
    [Progress(GeneratingSpeech, 20), Progress(GeneratingSilence, 65)]
      + SpeechProgressEvents(completion, n)
      + [Progress(CombiningAudio, 75)]
  }

  /** The progress events of a request whose audio work all succeeds, in order. */
  function AudioEvents(completion: seq<nat>, n: nat): (r: seq<Event>)
    requires forall k :: 0 <= k < |completion| ==> completion[k] < n
    ensures NoTerminal(r)
  {
    SynthesisEvents(completion, n) + [Progress(AddingMusic, 85)]
  }

  /** The speech artifacts and the pause artifacts, sorted together by index, are the segment
      files in script order. */
  lemma Gathered(stem: string, segments: seq<Segment>, speechDone: seq<Artifact>, pauseDone: seq<Artifact>)
    requires multiset(speechDone) == multiset(ArtifactsOf(stem, SpeechEntries(segments)))
    requires pauseDone == ArtifactsOf(stem, PauseEntries(segments))
    ensures SortBy(speechDone + pauseDone, IndexKey) == InScriptOrder(stem, |segments|)
  {
    PartitionArtifacts(stem, segments);
    assert multiset(speechDone + pauseDone) == multiset(InScriptOrder(stem, |segments|));
    SortRestoresScriptOrder(stem, segments, speechDone + pauseDone);
  }

  /** Removing the intermediates from a set that holds them and the final file, one group at a
      time, leaves what was there before the request, less the intermediates, plus the final file. */
  lemma RemoveIntermediates(initial: set<string>, temps: set<string>, segs: set<string>, intermediates: set<string>,
                            list: string, voice: string, music: string, final: string)
    requires intermediates == segs + temps + {list, voice, music}
    requires final !in intermediates
    ensures ((initial - temps) + segs + {list, voice, music, final}) - segs - {list} - {voice} - {music}
         == (initial - intermediates) + {final}
  {
  }

  /** The speech segment files and the pause segment files are the segment files of every position. */
  lemma SegmentFilesPartition(stem: string, segments: seq<Segment>)
    ensures SegmentFiles(stem, IndexSet(SpeechEntries(segments))) + SegmentFiles(stem, IndexSet(PauseEntries(segments)))
         == SegmentFiles(stem, Below(|segments|))
  {
    PartitionComplete(segments);
    SegmentFilesUnion(stem, IndexSet(SpeechEntries(segments)), IndexSet(PauseEntries(segments)));
  }

  /** What a request whose audio work and insert succeed leaves behind: the progress events with
      the speech tasks finishing in the order `completion`, the concat list naming every segment
      file in script order, the final file in place of the intermediates, and the new row, which
      points at the final file. */
  ghost predicate Produced(a: Admitted, script: MeditationScript, env: Collaborators, stem: string, base: string, rowId: string, rowTime: int,
                           filesBefore: set<string>, files: set<string>, rowsBefore: seq<Meditation>, rows: seq<Meditation>,
                           completion: seq<nat>, progress: seq<Event>, list: string, row: Meditation)
  {
    var m := |SpeechEntries(script.segments)|;
    && multiset(completion) == multiset(Range(m))
    && (forall k :: 0 <= k < |completion| ==> completion[k] < m)
    && progress == AudioEvents(completion, m)
    && list == ConcatList(SegmentPathsInOrder(stem, |script.segments|))
    && Assembled(SegmentPathsInOrder(stem, |script.segments|), a.volume, env, stem)
    && files == (filesBefore - Intermediates(stem, script.segments)) + {FinalPath(stem)}
    && row == InsertedRow(NewMeditation(a.userId, a.userInput, script, Some(StoredAudioPath(base))), rowId, rowTime)
    && rows == rowsBefore + [row]
  }

  /** Every ffmpeg and ffprobe call of the assembly succeeds: the voice track is concatenated
      from the list of `paths`, the music is cut to the probed length of the voice track, and the
      two are mixed at gain `volume` into the final file. */
  ghost predicate Assembled(paths: seq<string>, volume: real, env: Collaborators, stem: string)
  {
    && env.concat(ConcatList(paths), MeditationPath(stem)).Success?
    && env.probe(MeditationPath(stem)).Success?
    && env.trimMusic(env.probe(MeditationPath(stem)).value, MusicPath(stem)).Success?
    && env.mix(MeditationPath(stem), MusicPath(stem), volume, FinalPath(stem)).Success?
  }

  /** The event that ends the stream of a request with this outcome. */
  function Terminal(outcome: Result<Meditation>): (e: Event)
    ensures e.IsTerminal()
  {
    match outcome
    case Success(row) => Completed(row)
    case Failure(message) => Failed(message)
  }

  class Generator {
    /** The events written to the response, in order. */
    var stream: seq<Event>
    var closed: bool
    /** The names of the files present in the audio directory. */
    var files: set<string>

    constructor (existing: set<string>)
      ensures stream == [] && !closed && files == existing
    {
      stream, closed, files := [], false, existing;
    }

    /** `sendUpdate`: one event on its own line. */
    method Send(e: Event)
      requires !closed
      modifies this`stream
      ensures stream == old(stream) + [e]
    {
      stream := stream + [e];
    }

    /** The `catch` block: one "error" event, then the stream closes. It touches no file. */
    method Abort(message: string)
      requires !closed
      modifies this`stream, this`closed
      ensures stream == old(stream) + [Failed(message)] && closed
    {
      stream := stream + [Failed(message)];
      closed := true;
    }

    /** One speech task: text-to-speech into a temporary file, transcode it into the segment
        file, delete the temporary file, then report progress for speech segment `i` of `n`. */
    method SpeechTask(e: Indexed, i: nat, n: nat, env: Collaborators, stem: string) returns (r: Result<Artifact>)
      requires e.segment.Speech? && i < n && !closed
      modifies this`stream, this`files
      ensures r.Success? ==> && r.value == ArtifactOf(stem, e)
                             && stream == old(stream) + [Progress(GeneratingSpeech, SpeechProgress(i, n))]
                             && files == (old(files) - {TempPath(stem, e.index)}) + {SegmentPath(stem, e.index)}
      ensures r.Failure? ==> stream == old(stream) && old(files) <= files
    {
      var speech := env.synthesize(e.segment.content);
      if speech.Failure? {
        return Failure(speech.error);
      }
      var temp, out := TempPath(stem, e.index), SegmentPath(stem, e.index);
      files := files + {temp};
      var converted := env.transcode(temp, out);
      if converted.Failure? {
        return Failure(converted.error);
      }
      files := files + {out};
      files := files - {temp};
      SegmentPathIsNotTemp(stem, e.index, e.index);
      Send(Progress(GeneratingSpeech, SpeechProgress(i, n)));
      r := Success(Artifact(e.index, out));
    }

    /** All speech tasks, finishing in any order: each round picks any task not yet finished. The
        first failure stops the round. */
    method RunSpeechTasks(speech: seq<Indexed>, env: Collaborators, stem: string)
      returns (done: seq<Artifact>, completion: seq<nat>, failure: Option<string>)
      requires forall j :: 0 <= j < |speech| ==> speech[j].segment.Speech?
      requires !closed
      modifies this`stream, this`files
      ensures forall k :: 0 <= k < |completion| ==> completion[k] < |speech|
      ensures stream == old(stream) + SpeechProgressEvents(completion, |speech|)
      ensures failure.None? ==>
        && multiset(completion) == multiset(Range(|speech|))
        && multiset(done) == multiset(ArtifactsOf(stem, speech))
        && files == (old(files) - TempFiles(stem, IndexSet(speech))) + SegmentFiles(stem, IndexSet(speech))
      ensures failure.Some? ==> old(files) - TempFiles(stem, IndexSet(speech)) <= files
    {
      var m := |speech|;
      var remaining := multiset(Range(m));
      done, completion, failure := [], [], None;
      ghost var finished: set<nat> := {};
      while remaining != multiset{}
        invariant SpeechRound(speech, stem, old(files), old(stream), remaining, completion, done, finished, files, stream)
        decreases |remaining|
      {
        var i :| i in remaining;
        InRange(i, m);
        ghost var files0, stream0 := files, stream;
        var r := SpeechTask(speech[i], i, m, env, stem);
        if r.Failure? {
          failure := Some(r.error);
          TempFilesGrow(stem, finished, IndexSet(speech));
          return;
        }
        SpeechRoundStep(speech, stem, old(files), old(stream), remaining, completion, done, finished, files0, stream0,
                        i, r.value, files, stream);
        done, completion := done + [r.value], completion + [i];
        remaining := remaining - multiset{i};
        finished := finished + {speech[i].index};
      }
      SpeechTasksCovered(stem, speech, completion, done, finished);
    }

    /** The pause tasks: one silence file per pause segment, at its declared duration. */
    method RunPauseTasks(pauses: seq<Indexed>, env: Collaborators, stem: string)
      returns (done: seq<Artifact>, failure: Option<string>)
      requires forall j :: 0 <= j < |pauses| ==> pauses[j].segment.Pause?
      modifies this`files
      ensures failure.None? ==> done == ArtifactsOf(stem, pauses)
                                && files == old(files) + SegmentFiles(stem, IndexSet(pauses))
      ensures failure.Some? ==> old(files) <= files
    {
      done, failure := [], None;
      for j := 0 to |pauses|
        invariant done == ArtifactsOf(stem, pauses[..j])
        invariant files == old(files) + SegmentFiles(stem, IndexSet(pauses[..j]))
      {
        var e := pauses[j];
        var out := SegmentPath(stem, e.index);
        var made := env.silence(e.segment.duration, out);
        if made.Failure? {
          failure := Some(made.error);
          return;
        }
        files := files + {out};
        done := done + [ArtifactOf(stem, e)];
        PauseStep(stem, pauses, j);
      }
      assert pauses[..|pauses|] == pauses;
    }

    /** From the "generating-speech" checkpoint to the sorted segment list: the speech tasks, the
        pause tasks, and the sort by original index. `sent` is what went onto the stream. */
    method Synthesize(segments: seq<Segment>, env: Collaborators, stem: string)
      returns (ordered: seq<Artifact>, completion: seq<nat>, failure: Option<string>, ghost sent: seq<Event>)
      requires !closed
      modifies this`stream, this`files
      ensures stream == old(stream) + sent && NoTerminal(sent)
      ensures forall k :: 0 <= k < |completion| ==> completion[k] < |SpeechEntries(segments)|
      ensures failure.Some? ==> old(files) - TempFiles(stem, IndexSet(SpeechEntries(segments))) <= files
      ensures failure.None? ==> multiset(completion) == multiset(Range(|SpeechEntries(segments)|))
      ensures failure.None? ==> sent == SynthesisEvents(completion, |SpeechEntries(segments)|)
      ensures failure.None? ==> ordered == InScriptOrder(stem, |segments|)
      ensures failure.None? ==> files == (old(files) - TempFiles(stem, IndexSet(SpeechEntries(segments))))
                                         + SegmentFiles(stem, Below(|segments|))
    {
      var speechDone, pauseDone;
      ordered := [];
      speechDone, completion, failure, sent := SpeechStage(SpeechEntries(segments), env, stem);
      if failure.Some? {
        return;
      }
      pauseDone, failure := RunPauseTasks(PauseEntries(segments), env, stem);
      if failure.Some? {
        return;
      }
      Send(Progress(CombiningAudio, 75));
      sent := sent + [Progress(CombiningAudio, 75)];
      Gathered(stem, segments, speechDone, pauseDone);
      ordered := SortBy(speechDone + pauseDone, IndexKey);
      SegmentFilesPartition(stem, segments);
    }

    /** The "generating-speech" and "generating-silence" checkpoints, then the speech tasks. */
    method SpeechStage(speech: seq<Indexed>, env: Collaborators, stem: string)
      returns (speechDone: seq<Artifact>, completion: seq<nat>, failure: Option<string>, ghost sent: seq<Event>)
      requires forall j :: 0 <= j < |speech| ==> speech[j].segment.Speech?
      requires !closed
      modifies this`stream, this`files
      ensures forall k :: 0 <= k < |completion| ==> completion[k] < |speech|
      ensures sent == [Progress(GeneratingSpeech, 20), Progress(GeneratingSilence, 65)] + SpeechProgressEvents(completion, |speech|)
      ensures stream == old(stream) + sent && NoTerminal(sent)
      ensures failure.Some? ==> old(files) - TempFiles(stem, IndexSet(speech)) <= files
      ensures failure.None? ==>
        && multiset(completion) == multiset(Range(|speech|))
        && multiset(speechDone) == multiset(ArtifactsOf(stem, speech))
        && files == (old(files) - TempFiles(stem, IndexSet(speech))) + SegmentFiles(stem, IndexSet(speech))
    {
      Send(Progress(GeneratingSpeech, 20));
      Send(Progress(GeneratingSilence, 65));
      ghost var opening := stream;
      assert opening == old(stream) + [Progress(GeneratingSpeech, 20), Progress(GeneratingSilence, 65)];
      speechDone, completion, failure := RunSpeechTasks(speech, env, stem);
      sent := [Progress(GeneratingSpeech, 20), Progress(GeneratingSilence, 65)] + SpeechProgressEvents(completion, |speech|);
      SpeechProgressQuiet(completion, |speech|);
    }

    /** From the concat list to the mixed file: write the list, concatenate, report
        "adding-music", probe the voice track, cut the music to its length, and mix. */
    method Assemble(paths: seq<string>, volume: real, env: Collaborators, stem: string)
      returns (failure: Option<string>, ghost list: string, ghost sent: seq<Event>)
      requires !closed
      modifies this`stream, this`files
      ensures list == ConcatList(paths)
      ensures stream == old(stream) + sent && (sent == [] || sent == [Progress(AddingMusic, 85)])
      ensures failure.None? ==> sent == [Progress(AddingMusic, 85)]
      ensures failure.None? ==> files == old(files) + {ListPath(stem), MeditationPath(stem), MusicPath(stem), FinalPath(stem)}
      ensures failure.None? ==> Assembled(paths, volume, env, stem)
      ensures failure.Some? ==> old(files) <= files
    {
      var text := ConcatList(paths);
      list, sent := text, [];
      files := files + {ListPath(stem)};
      var voice := env.concat(text, MeditationPath(stem));
      if voice.Failure? {
        return Some(voice.error), list, sent;
      }
      files := files + {MeditationPath(stem)};
      Send(Progress(AddingMusic, 85));
      sent := [Progress(AddingMusic, 85)];
      var duration := env.probe(MeditationPath(stem));
      if duration.Failure? {
        return Some(duration.error), list, sent;
      }
      var music := env.trimMusic(duration.value, MusicPath(stem));
      if music.Failure? {
        return Some(music.error), list, sent;
      }
      files := files + {MusicPath(stem)};
      var mixed := env.mix(MeditationPath(stem), MusicPath(stem), volume, FinalPath(stem));
      if mixed.Failure? {
        return Some(mixed.error), list, sent;
      }
      files := files + {FinalPath(stem)};
      failure := None;
    }

    /** `segmentFiles.forEach(file => fs.unlinkSync(file))`. */
    method RemoveAll(paths: seq<string>)
      modifies this`files
      ensures files == old(files) - set p | p in paths
    {
      for j := 0 to |paths|
        invariant files == old(files) - set p | p in paths[..j]
      {
        files := files - {paths[j]};
        assert paths[..j + 1] == paths[..j] + [paths[j]];
      }
      assert paths[..|paths|] == paths;
    }

    /** The `forEach` over the segment files and the three further deletions after the mix. */
    method Cleanup(segmentFiles: seq<string>, stem: string, ghost n: nat)
      requires segmentFiles == SegmentPathsInOrder(stem, n)
      modifies this`files
      ensures files == old(files) - SegmentFiles(stem, Below(n)) - {ListPath(stem)} - {MeditationPath(stem)} - {MusicPath(stem)}
    {
      RemoveAll(segmentFiles);
      files := files - {ListPath(stem)};
      files := files - {MeditationPath(stem)};
      files := files - {MusicPath(stem)};
      SegmentPathsInOrderFiles(stem, n);
    }

    /** The whole request, from authentication to the terminal event. `now` is the clock reading
        that names the files; `rowId` and `rowTime` are the database's key and timestamp for the
        new row, and `dbReachable` whether the insert can reach the database. `progress` is what
        the stream carried before its one terminal event; `audio` is the part of it after the
        "script" event. */
    method Process(userId: string, body: Result<RequestBody>, env: Collaborators, audioDir: string, now: nat,
                   store: MeditationStore, rowId: string, rowTime: int, dbReachable: bool)
      returns (outcome: Result<Meditation>, ghost progress: seq<Event>, ghost audio: seq<Event>,
               ghost completion: seq<nat>, ghost list: string, ghost cleaned: bool)
      requires !closed
      modifies this`stream, this`files, this`closed, store
      ensures closed && NoTerminal(progress)
      ensures stream == old(stream) + progress + [Terminal(outcome)]
      ensures outcome.Failure? ==> store.rows == old(store.rows)
      ensures !cleaned ==> outcome.Failure?
      ensures !cleaned && Admit(userId, body).Success? && ScriptFor(Admit(userId, body).value, env).Success? ==>
        old(files) - TempFiles(Stem(audioDir, BaseName(now)),
                               IndexSet(SpeechEntries(ScriptFor(Admit(userId, body).value, env).value.segments))) <= files
      ensures cleaned ==> && Admit(userId, body).Success? && ScriptFor(Admit(userId, body).value, env).Success?
                          && files == (old(files) - Intermediates(Stem(audioDir, BaseName(now)),
                                                                  ScriptFor(Admit(userId, body).value, env).value.segments))
                                      + {FinalPath(Stem(audioDir, BaseName(now)))}
      ensures cleaned && outcome.Failure? ==> outcome.error == "Failed to create meditation"
      ensures Admit(userId, body).Failure? ==>
        outcome == Failure(Admit(userId, body).error) && progress == [] && files == old(files)
      ensures Admit(userId, body).Success? && ScriptFor(Admit(userId, body).value, env).Failure? ==>
        && outcome == Failure(ScriptFor(Admit(userId, body).value, env).error)
        && progress == [Progress(GeneratingScript, 5)]
        && files == old(files)
      ensures outcome.Success? ==>
        && Admit(userId, body).Success? && ScriptFor(Admit(userId, body).value, env).Success?
        && progress == [Progress(GeneratingScript, 5), ScriptReady(MeditationView(ScriptFor(Admit(userId, body).value, env).value, None))] + audio
        && Produced(Admit(userId, body).value, ScriptFor(Admit(userId, body).value, env).value, env, Stem(audioDir, BaseName(now)),
                    BaseName(now), rowId, rowTime, old(files), files, old(store.rows), store.rows, completion, audio, list, outcome.value)
    {
      audio, completion, list, cleaned := [], [], "", false;
      var admitted := Admit(userId, body);
      if admitted.Failure? {
        Abort(admitted.error);
        return Failure(admitted.error), [], audio, completion, list, cleaned;
      }
      Send(Progress(GeneratingScript, 5));
      ghost var opening := stream;
      ghost var drafted;
      outcome, drafted, audio, completion, list, cleaned := Draft(admitted.value, env, audioDir, now, store, rowId, rowTime, dbReachable);
      progress := [Progress(GeneratingScript, 5)] + drafted;
      assert stream == old(stream) + progress + [Terminal(outcome)] by {
        assert opening == old(stream) + [Progress(GeneratingScript, 5)];
      }
      QuietAppend([Progress(GeneratingScript, 5)], drafted);
    }

    /** From the "generating-script" checkpoint on: the script, then the audio. */
    method Draft(a: Admitted, env: Collaborators, audioDir: string, now: nat,
                 store: MeditationStore, rowId: string, rowTime: int, dbReachable: bool)
      returns (outcome: Result<Meditation>, ghost progress: seq<Event>, ghost audio: seq<Event>,
               ghost completion: seq<nat>, ghost list: string, ghost cleaned: bool)
      requires !closed
      modifies this`stream, this`files, this`closed, store
      ensures closed && NoTerminal(progress)
      ensures stream == old(stream) + progress + [Terminal(outcome)]
      ensures outcome.Failure? ==> store.rows == old(store.rows)
      ensures !cleaned ==> outcome.Failure?
      ensures !cleaned && ScriptFor(a, env).Success? ==>
        old(files) - TempFiles(Stem(audioDir, BaseName(now)), IndexSet(SpeechEntries(ScriptFor(a, env).value.segments))) <= files
      ensures cleaned ==> && ScriptFor(a, env).Success?
                          && files == (old(files) - Intermediates(Stem(audioDir, BaseName(now)), ScriptFor(a, env).value.segments))
                                      + {FinalPath(Stem(audioDir, BaseName(now)))}
      ensures cleaned && outcome.Failure? ==> outcome.error == "Failed to create meditation"
      ensures ScriptFor(a, env).Failure? ==>
        outcome == Failure(ScriptFor(a, env).error) && progress == [] && files == old(files)
      ensures outcome.Success? ==>
        && ScriptFor(a, env).Success?
        && progress == [ScriptReady(MeditationView(ScriptFor(a, env).value, None))] + audio
        && Produced(a, ScriptFor(a, env).value, env, Stem(audioDir, BaseName(now)), BaseName(now), rowId, rowTime,
                    old(files), files, old(store.rows), store.rows, completion, audio, list, outcome.value)
    {
      audio, completion, list, cleaned := [], [], "", false;
      var generated := ValidateScript(env.chat(a.budget, a.userInput), env.parse);
      if generated.Failure? {
        Abort(generated.error);
        return Failure(generated.error), [], audio, completion, list, cleaned;
      }
      var script := generated.value;
      Send(ScriptReady(MeditationView(script, None)));
      var base := BaseName(now);
      outcome, audio, completion, list, cleaned := Produce(a, script, env, Stem(audioDir, base), base, store, rowId, rowTime, dbReachable);
      QuietAppend([ScriptReady(MeditationView(script, None))], audio);
      progress := [ScriptReady(MeditationView(script, None))] + audio;
    }

    /** Everything after the "script" event: audio, cleanup, the database row, and the terminal
        event. */
    method Produce(a: Admitted, script: MeditationScript, env: Collaborators, stem: string, base: string,
                   store: MeditationStore, rowId: string, rowTime: int, dbReachable: bool)
      returns (outcome: Result<Meditation>, ghost progress: seq<Event>, ghost completion: seq<nat>, ghost list: string,
               ghost cleaned: bool)
      requires !closed
      modifies this`stream, this`files, this`closed, store
      ensures closed && NoTerminal(progress)
      ensures stream == old(stream) + progress + [Terminal(outcome)]
      ensures outcome.Failure? ==> store.rows == old(store.rows)
      ensures !cleaned ==> outcome.Failure? && old(files) - TempFiles(stem, IndexSet(SpeechEntries(script.segments))) <= files
      ensures cleaned ==> files == (old(files) - Intermediates(stem, script.segments)) + {FinalPath(stem)}
      ensures cleaned && outcome.Failure? ==> outcome.error == "Failed to create meditation"
      ensures outcome.Success? ==>
        Produced(a, script, env, stem, base, rowId, rowTime, old(files), files, old(store.rows), store.rows,
                 completion, progress, list, outcome.value)
    {
      list, cleaned := "", false;
      var ordered, failure;
      ordered, completion, failure, progress := Synthesize(script.segments, env, stem);
      if failure.Some? {
        Abort(failure.value);
        return Failure(failure.value), progress, completion, list, cleaned;
      }
      ghost var files1 := files;
      var segmentFiles := PathsOf(ordered);
      assert segmentFiles == SegmentPathsInOrder(stem, |script.segments|);
      ghost var sent;
      failure, list, sent := Assemble(segmentFiles, a.volume, env, stem);
      QuietAppend(progress, sent);
      progress := progress + sent;
      assert stream == old(stream) + progress;
      if failure.Some? {
        Abort(failure.value);
        return Failure(failure.value), progress, completion, list, cleaned;
      }
      ghost var files2 := files;
      Cleanup(segmentFiles, stem, |script.segments|);
      cleaned := true;
      FinalIsNotIntermediate(stem, script.segments);
      RemoveIntermediates(old(files), TempFiles(stem, IndexSet(SpeechEntries(script.segments))),
                          SegmentFiles(stem, Below(|script.segments|)), Intermediates(stem, script.segments),
                          ListPath(stem), MeditationPath(stem), MusicPath(stem), FinalPath(stem));
      assert progress == AudioEvents(completion, |SpeechEntries(script.segments)|);

      var saved := store.Create(NewMeditation(a.userId, a.userInput, script, Some(StoredAudioPath(base))),
                                rowId, rowTime, dbReachable);
      if saved.ActionError? {
        Abort(saved.message);
        return Failure(saved.message), progress, completion, list, cleaned;
      }
      Send(Completed(saved.data));
      closed := true;
      outcome := Success(saved.data);
    }
  }
}
