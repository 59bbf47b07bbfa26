/** The error-handling decisions of the application: which HTTP error `abort`
    raises, which PHP error levels are fatal, when a reported PHP error becomes
    an exception, and which handler receives what. */
module ExceptionHandlers {
  import opened Wrappers

  /** The HTTP errors the framework raises. */
  datatype HttpError =
    | NotFoundHttp(message: string)
    | MethodNotAllowedHttp(allowed: seq<string>)
    | HttpStatus(code: int, message: string, headers: seq<(string, string)>)

  /** The status code of the response each error renders to. */
  function StatusCode(e: HttpError): int
  {
    match e
    case NotFoundHttp(_) => 404
    case MethodNotAllowedHttp(_) => 405
    case HttpStatus(code, _, _) => code
  }

  /** `abort($code, $message, $headers)`: a not-found error for 404 (which drops
      the headers), a generic HTTP error carrying all three otherwise. */
  function Abort(code: int, message: string, headers: seq<(string, string)>): (r: HttpError)
    ensures StatusCode(r) == code
    ensures code == 404 ==> r == NotFoundHttp(message)
    ensures code != 404 ==> r.HttpStatus? && r.code == code && r.message == message && r.headers == headers
  {
    if code == 404 then NotFoundHttp(message) else HttpStatus(code, message, headers)
  }

  /** The PHP error levels the framework names. */
  const E_ERROR: int := 1
  const E_WARNING: int := 2
  const E_PARSE: int := 4
  const E_NOTICE: int := 8
  const E_CORE_ERROR: int := 16
  const E_COMPILE_ERROR: int := 64

  /** The fatal levels: the four built-in ones, and `FATAL_ERROR` when that
      constant is defined (`fatalConstant` is `None` when it is not). */
  function FatalCodes(fatalConstant: Option<int>): seq<int>
  {
    [E_ERROR, E_CORE_ERROR, E_COMPILE_ERROR, E_PARSE] + (if fatalConstant.Some? then [fatalConstant.value] else [])
  }

  /** `isFatalError($type)`. */
  function IsFatalError(t: int, fatalConstant: Option<int>): (r: bool)
    ensures r <==> (t == 1 || t == 4 || t == 16 || t == 64 || fatalConstant == Some(t))
  {
    t in FatalCodes(fatalConstant)
  }

  /** Warnings and notices are not fatal unless `FATAL_ERROR` is defined to be one of them. */
  lemma WarningsNotFatal(fatalConstant: Option<int>)
    ensures fatalConstant != Some(E_WARNING) ==> !IsFatalError(E_WARNING, fatalConstant)
    ensures fatalConstant != Some(E_NOTICE) ==> !IsFatalError(E_NOTICE, fatalConstant)
    ensures IsFatalError(E_ERROR, fatalConstant) && IsFatalError(E_PARSE, fatalConstant)
  {
  }

  /** The exceptions that reach the handlers. `Error` is PHP's engine error,
      which is not an `Exception`. */
  datatype Throwable =
    | Exception(message: string)
    | Http(error: HttpError)
    | Error(message: string)
    | ErrorException(message: string, severity: bv64, file: string, line: int)
    | FatalErrorException(message: string, errorType: int, file: string, line: int)
    | FatalThrowableError(wrapped: string)

  /** The handler installed with `set_error_handler`: a PHP error becomes an
      `ErrorException` exactly when its level is among the reported ones
      (`error_reporting() & $level`); otherwise it is ignored. */
  function ErrorHandler(reporting: bv64, level: bv64, message: string, file: string, line: int): (r: Option<Throwable>)
    ensures r.Some? <==> reporting & level != 0
    ensures r.Some? ==> r.value == ErrorException(message, level, file, line)
  {
    if reporting & level != 0 then Some(ErrorException(message, level, file, line)) else None
  }

  /** `error_reporting(-1)` reports every level; with reporting switched off
      (the `@` operator) no error is converted. */
  lemma ErrorHandlerReporting(level: bv64, message: string, file: string, line: int)
    ensures level != 0 ==> ErrorHandler(0xFFFF_FFFF_FFFF_FFFF, level, message, file, line).Some?
    ensures ErrorHandler(0, level, message, file, line).None?
  {
    assert 0xFFFF_FFFF_FFFF_FFFF & level == level;
  }

  /** What `error_get_last()` returns. */
  datatype LastError = LastError(errorType: int, message: string, file: string, line: int)

  /** `handleShutdown`: the exception passed on to the uncaught-exception
      handler, present exactly when there is a last error and it is fatal. */
  function HandleShutdown(last: Option<LastError>, fatalConstant: Option<int>): (r: Option<Throwable>)
    ensures r.Some? <==> last.Some? && IsFatalError(last.value.errorType, fatalConstant)
    ensures r.Some? ==> r.value == FatalErrorException(last.value.message, last.value.errorType, last.value.file, last.value.line)
  {
    if last.Some? && IsFatalError(last.value.errorType, fatalConstant) then
      Some(FatalErrorException(last.value.message, last.value.errorType, last.value.file, last.value.line))
    else None
  }

  /** The container keys of the two possible exception handlers. */
  const ContractKey := "Illuminate\\Contracts\\Debug\\ExceptionHandler"
  const LumenHandlerKey := "Laravel\\Lumen\\Exceptions\\Handler"

  /** `resolveExceptionHandler`: the bound contract, else Lumen's own handler. */
  function ResolveExceptionHandler(contractBound: bool): (key: string)
    ensures contractBound <==> key == ContractKey
    ensures !contractBound <==> key == LumenHandlerKey
  {
    if contractBound then ContractKey else LumenHandlerKey
  }

  /** The throwable that is reported: an `Error` is wrapped as a fatal throwable
      error, anything else is passed as is. */
  function Reported(e: Throwable): (r: Throwable)
    ensures !r.Error?
    ensures !e.Error? ==> r == e
    ensures e.Error? ==> r == FatalThrowableError(e.message)
  {
    if e.Error? then FatalThrowableError(e.message) else e
  }

  /** Wrapping is done once: a reported throwable is reported unchanged. */
  lemma ReportedIdempotent(e: Throwable)
    ensures Reported(Reported(e)) == Reported(e)
  {
  }

  /** Where the handler output goes: a response returned or sent, the
      handler's console rendering, or the throwable echoed as a string. */
  datatype Output = RenderedResponse | SentResponse | ConsoleOutput | EchoedString

  /** What the handler is asked to do: which handler, with which throwable, and
      where its output goes. */
  datatype Handling = Handling(handler: string, reported: Throwable, output: Output)

  /** `sendExceptionToHandler`: the resolved handler reports and renders the
      (wrapped) throwable, and the response is returned. */
  function SendExceptionToHandler(e: Throwable, contractBound: bool): (r: Handling)
    ensures r.handler == ResolveExceptionHandler(contractBound)
    ensures r.reported == Reported(e) && r.output == RenderedResponse
  {
    Handling(ResolveExceptionHandler(contractBound), Reported(e), RenderedResponse)
  }

  /** `handleUncaughtException`: as above, but the output is written to the
      console when running there and sent as a response otherwise. */
  function HandleUncaughtException(e: Throwable, contractBound: bool, inConsole: bool): (r: Handling)
    ensures r.handler == ResolveExceptionHandler(contractBound)
    ensures r.reported == Reported(e)
    ensures r.output == if inConsole then ConsoleOutput else SentResponse
  {
    Handling(ResolveExceptionHandler(contractBound), Reported(e), if inConsole then ConsoleOutput else SentResponse)
  }

  /** A fatal last error at shutdown reaches the handler as a fatal error
      exception carrying its level and message, never wrapped again. */
  lemma ShutdownReportsFatal(last: LastError, fatalConstant: Option<int>, contractBound: bool, inConsole: bool)
    requires IsFatalError(last.errorType, fatalConstant)
    ensures var e := HandleShutdown(Some(last), fatalConstant);
      && e.Some?
      && HandleUncaughtException(e.value, contractBound, inConsole).reported
         == FatalErrorException(last.message, last.errorType, last.file, last.line)
  {
  }
}
