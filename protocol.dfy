/** The newline-delimited JSON events the generation endpoint streams to the browser. */
module Protocol {
  import opened Wrappers
  import opened Schema

  /** The `step` names the endpoint puts on progress events. */
  const GeneratingScript: string := "generating-script"
  const GeneratingSpeech: string := "generating-speech"
  const GeneratingSilence: string := "generating-silence"
  const CombiningAudio: string := "combining-audio"
  const AddingMusic: string := "adding-music"

  /** The `meditation` payload of a "script" event: the script, with no audio yet. */
  datatype MeditationView = MeditationView(meditationScript: MeditationScript, audioFilePath: Option<string>)

  /** One event, by its `type` field: "progress", "script", "complete" or "error". `Other` is any
      other `type` a reader may meet; the endpoint never writes it. */
  datatype Event =
    | Progress(step: string, progress: int)
    | ScriptReady(draft: MeditationView)
    | Completed(row: Meditation)
    | Failed(message: string)
    | Other(kind: string)
  {
    predicate IsTerminal() { Completed? || Failed? }
  }

  /** The part of a "complete" event's row that the form reads: its script and its audio path. */
  function ViewOf(row: Meditation): (v: MeditationView)
    ensures v.meditationScript == row.meditationScript && v.audioFilePath == row.audioFilePath
  {
    MeditationView(row.meditationScript, row.audioFilePath)
  }
}
