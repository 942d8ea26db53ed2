/** `logMessage` from src/helpers/logging.ts: hand a message to an optional
    logging callback, then write it to exactly one console channel chosen by
    its level. The callback call and the console write are returned as
    emissions, in the order they happen. */
module Logging {
  import opened Base

  /** `LogLevel`; each member's string value is its `Wire()`. */
  datatype LogLevel = DEBUG | INFO | WARN | ERROR {
    function Wire(): string
    {
      match this
      case DEBUG => "debug"
      case INFO => "info"
      case WARN => "warn"
      case ERROR => "error"
    }
  }

  /** The console methods the source writes to. */
  datatype ConsoleMethod = ConsoleDebug | ConsoleInfo | ConsoleWarn | ConsoleError {
    function Name(): string
    {
      match this
      case ConsoleDebug => "debug"
      case ConsoleInfo => "info"
      case ConsoleWarn => "warn"
      case ConsoleError => "error"
    }
  }

  /** One observable output: a call of a host logging callback with
      `(message, level)`, or one console call with its arguments. */
  datatype Emission =
    | CallbackInvoked(callback: FnRef, message: string, level: LogLevel)
    | ConsoleWrite(channel: ConsoleMethod, args: seq<string>)

  /** The `switch` of logMessage: INFO, WARN and ERROR have their own
      channel, DEBUG falls to `console.debug`. */
  function ConsoleFor(level: LogLevel): ConsoleMethod
  {
    match level
    case INFO => ConsoleInfo
    case WARN => ConsoleWarn
    case ERROR => ConsoleError
    case DEBUG => ConsoleDebug
  }

  /** `logMessage(message, level?, logCallback?)`: an omitted level is
      DEBUG, for the callback and the console alike; the callback (when
      given) is called once, first; then exactly one console method whose
      name is the level's string value receives the message unchanged. */
  function LogMessage(message: string, level: Option<LogLevel>, logCallback: Option<FnRef>): (r: seq<Emission>)
    ensures |r| == if logCallback.Some? then 2 else 1
    ensures logCallback.Some? ==> r[0] == CallbackInvoked(logCallback.value, message, level.GetOr(DEBUG))
    ensures r[|r| - 1] == ConsoleWrite(ConsoleFor(level.GetOr(DEBUG)), [message])
    ensures r[|r| - 1].channel.Name() == level.GetOr(DEBUG).Wire()
  {
    var effective := level.GetOr(DEBUG);
    var callback := if logCallback.Some? then [CallbackInvoked(logCallback.value, message, effective)] else [];
    callback + [ConsoleWrite(ConsoleFor(effective), [message])]
  }
}
