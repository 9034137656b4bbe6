/** The log entry of internal/parser/parser.go. */
module LogEntries {
  datatype Level = Debug | Info | Warn | Error

  /** `timestamp` is the sender's; `raw` is the line, or for a traceback its lines joined. */
  datatype Entry = Entry(
    timestamp: int,
    level: Level,
    source: string,
    sourceType: string,
    message: string,
    raw: string,
    stacktrace: string,
    trace: string)
}
