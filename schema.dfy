/** The stored meditation row and the script it carries (db/schema/meditations-schema.ts). */
module Schema {
  import opened Wrappers

  /** One ordered unit of a script: spoken content or a silence interval, told apart by `type`.
      Numbers are JSON numbers; durations are in seconds. */
  datatype Segment =
    | Speech(content: string, wordCount: real, duration: real)
    | Pause(duration: real)

  datatype MeditationScript = MeditationScript(
    title: string,
    targetWordCount: real,
    actualWordCount: real,
    durationMinutes: real,
    segments: seq<Segment>)

  /** The values an insert supplies: everything but the defaulted columns. */
  datatype NewMeditation = NewMeditation(
    userId: string,
    userInput: string,
    meditationScript: MeditationScript,
    audioFilePath: Option<string>)

  /** A row of the `meditations` table. Timestamps are milliseconds since the epoch. */
  datatype Meditation = Meditation(
    id: string,
    userId: string,
    userInput: string,
    meditationScript: MeditationScript,
    audioFilePath: Option<string>,
    createdAt: int,
    updatedAt: int)

  /** The row the table stores for an insert: the random primary key `id` and the clock reading
      `now` stand in for the column defaults. */
  function InsertedRow(values: NewMeditation, id: string, now: int): (row: Meditation)
    ensures row.id == id && row.createdAt == now && row.updatedAt == now
    ensures row.userId == values.userId && row.userInput == values.userInput
    ensures row.meditationScript == values.meditationScript
    ensures row.audioFilePath == values.audioFilePath
  {
    Meditation(id, values.userId, values.userInput, values.meditationScript, values.audioFilePath, now, now)
  }
}
