/**
 * The level `src/middleware/requestLogger.ts` logs a finished response at,
 * chosen from its status code.
 */
module RequestLogger {

  datatype Level = InfoLevel | WarnLevel | ErrorLevel

  datatype LogEntry = LogEntry(level: Level, message: string)

  /** The entry the `finish` listener writes for a status code. */
  function FinishEntry(status: int): (e: LogEntry)
    ensures e.level == ErrorLevel <==> status >= 500
    ensures e.level == WarnLevel <==> 400 <= status < 500
    ensures e.level == InfoLevel <==> status < 400
    ensures e.message == match e.level
                         case ErrorLevel => "Server error"
                         case WarnLevel => "Client error"
                         case InfoLevel => "Request completed"
  {
    if status >= 500 then LogEntry(ErrorLevel, "Server error")
    else if status >= 400 then LogEntry(WarnLevel, "Client error")
    else LogEntry(InfoLevel, "Request completed")
  }
}
