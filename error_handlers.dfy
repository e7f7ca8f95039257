/**
 * The parse-error handler the Maven plugin gives the changelog parser: it
 * writes each error to the build log, at the warn level for warnings and at
 * the error level otherwise, as one line locating the error. Logging is a
 * returned value here: the logger, the level and the text.
 */
module ErrorHandlers {
  import opened Wrappers
  import opened Failures

  datatype Severity = Warning | Error | Critical

  /** Where an error was found: a line, a column and, when known, the file's URI. */
  datatype LexicalPosition = LexicalPosition(line: int, column: int, file: Option<string>)

  /** A parse error: its severity, position, message and, when there is one, the exception's text. */
  datatype ParseError = ParseError(severity: Severity, lexical: LexicalPosition, message: string,
                                   exception: Option<string>)

  /** The build log, identified only by name. */
  datatype Log = Log(name: string)

  datatype Level = WarnLevel | ErrorLevel

  /** One call of the build log. */
  datatype LogCall = LogCall(logger: Log, level: Level, text: string)

  // ---- decimal integers (the %d conversion) ------------------------------

  function Digit(d: nat): (c: char)
    requires d < 10
    ensures '0' <= c <= '9' && c as int - '0' as int == d
  {
    ('0' as int + d) as char
  }

  predicate IsDigits(s: string) {
    forall i :: 0 <= i < |s| ==> '0' <= s[i] <= '9'
  }

  /** The decimal digits of `n`, most significant first, without leading zeros. */
  function NatString(n: nat): (r: string)
    ensures |r| > 0 && IsDigits(r)
    ensures n > 0 ==> r[0] != '0'
  {
    if n < 10 then [Digit(n)] else NatString(n / 10) + [Digit(n % 10)]
  }

  /** `%d` of an `int`: a minus sign for negative values, then the digits. */
  function DecimalString(n: int): (r: string)
    ensures |r| > 0
    ensures n < 0 <==> r[0] == '-'
  {
    if n < 0 then "-" + NatString(-n) else NatString(n)
  }

  /** The value of a string of decimal digits. */
  function NatValue(s: string): nat
    requires IsDigits(s)
  {
    if s == [] then 0 else NatValue(s[..|s| - 1]) * 10 + (s[|s| - 1] as int - '0' as int)
  }

  /** The value of an optionally signed decimal numeral. */
  function DecimalValue(s: string): int
    requires |s| > 0 && (s[0] == '-' || '0' <= s[0] <= '9') && IsDigits(s[1..])
  {
    if s[0] == '-' then -(NatValue(s[1..]) as int) else NatValue(s)
  }

  /** Reading the digits of `n` back gives `n`. */
  lemma {:induction false} NatStringRoundTrip(n: nat)
    ensures NatValue(NatString(n)) == n
  {
    if n >= 10 {
      NatStringRoundTrip(n / 10);
      var s := NatString(n);
      assert s[..|s| - 1] == NatString(n / 10);
    }
  }

  /** The `%d` text of a number denotes that number. */
  lemma DecimalStringRoundTrip(n: int)
    ensures var s := DecimalString(n);
      (s[0] == '-' || '0' <= s[0] <= '9') && IsDigits(s[1..]) && DecimalValue(s) == n
  {
    var s := DecimalString(n);
    if n < 0 {
      assert s[1..] == NatString(-n);
      NatStringRoundTrip(-n);
    } else {
      NatStringRoundTrip(n);
    }
  }

  // ---- the message --------------------------------------------------------

  /**
   * The logged text of an error: `file:line:column: message`, with
   * `: (exception)` appended when there is an exception and without the
   * `file:` prefix when the file is unknown.
   */
  function Format(error: ParseError): string {
    var line := DecimalString(error.lexical.line);
    var column := DecimalString(error.lexical.column);
    match (error.lexical.file, error.exception)
    case (Some(file), Some(exception)) => file + ":" + line + ":" + column + ": " + error.message + ": (" + exception + ")"
    case (Some(file), None) => file + ":" + line + ":" + column + ": " + error.message
    case (None, Some(exception)) => line + ":" + column + ": " + error.message + ": (" + exception + ")"
    case (None, None) => line + ":" + column + ": " + error.message
  }

  /** A known file only adds `file:` in front of what the message would be without it. */
  lemma FormatFilePrefix(error: ParseError)
    requires error.lexical.file.Some?
    ensures Format(error) == error.lexical.file.value + ":" + Format(error.(lexical := error.lexical.(file := None)))
  {
    var line := DecimalString(error.lexical.line);
    var column := DecimalString(error.lexical.column);
    var file := error.lexical.file.value;
    if error.exception.Some? {
      var exception := error.exception.value;
      assert file + ":" + line + ":" + column + ": " + error.message + ": (" + exception + ")" ==
        file + ":" + (line + ":" + column + ": " + error.message + ": (" + exception + ")");
    } else {
      assert file + ":" + line + ":" + column + ": " + error.message ==
        file + ":" + (line + ":" + column + ": " + error.message);
    }
  }

  /** An exception only adds `: (exception)` after what the message would be without it. */
  lemma FormatExceptionSuffix(error: ParseError)
    requires error.exception.Some?
    ensures Format(error) == Format(error.(exception := None)) + ": (" + error.exception.value + ")"
  {
  }

  // ---- the handler --------------------------------------------------------

  /** `onWarn`: the error's text at the warn level. */
  function OnWarn(logger: Log, error: ParseError): (r: LogCall)
    ensures r.logger == logger && r.level == WarnLevel && r.text == Format(error)
  {
    LogCall(logger, WarnLevel, Format(error))
  }

  /** `onError`: the error's text at the error level. */
  function OnError(logger: Log, error: ParseError): (r: LogCall)
    ensures r.logger == logger && r.level == ErrorLevel && r.text == Format(error)
  {
    LogCall(logger, ErrorLevel, Format(error))
  }

  /**
   * The handler's response to one error: warnings go to the warn level,
   * errors and critical errors to the error level, always with the same text.
   */
  function Handle(logger: Log, error: ParseError): (r: LogCall)
    ensures r.logger == logger && r.text == Format(error)
    ensures r.level == WarnLevel <==> error.severity == Warning
  {
    match error.severity
    case Warning => OnWarn(logger, error)
    case Error => OnError(logger, error)
    case Critical => OnError(logger, error)
  }

  /** `loggingHandler`: rejects a missing logger, otherwise handles every error as `Handle` does. */
  function LoggingHandler(logger: Option<Log>): (r: Result<ParseError -> LogCall, Failure>)
    ensures logger.None? <==> r.Failure?
    ensures r.Failure? ==> r.error == NullArgument("Logger")
    ensures r.Success? ==> forall error :: r.value(error) == Handle(logger.value, error)
  {
    match logger
    case None => Failure(NullArgument("Logger"))
    case Some(log) => Success(error => Handle(log, error))
  }
}
