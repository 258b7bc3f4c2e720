/**
 * The logging-session builder: a record of four settings, each replaced by
 * its own `with_*` setter, which consumes the session and returns a new one.
 */
module LogBuilder {

  /** The filter is kept as the directive string it is built from. */
  type EnvFilter = string

  datatype LoggingSession = LoggingSession(
    filter: EnvFilter,
    threadNames: bool,
    fileNames: bool,
    lineNumbers: bool)

  /** `LoggingSession::new`: empty filter, thread names on, file names and line numbers off. */
  function New(): (s: LoggingSession)
    ensures s.filter == [] && s.threadNames && !s.fileNames && !s.lineNumbers
  {
    LoggingSession("", true, false, false)
  }

  /** `Default::default` delegates to `new`. */
  function Default(): (s: LoggingSession)
    ensures s == New()
  {
    New()
  }

  function WithFilter(s: LoggingSession, filter: EnvFilter): (r: LoggingSession)
    ensures r.filter == filter
    ensures r.(filter := s.filter) == s
  {
    LoggingSession(filter, s.threadNames, s.fileNames, s.lineNumbers)
  }

  function WithThreadNames(s: LoggingSession, enable: bool): (r: LoggingSession)
    ensures r.threadNames == enable
    ensures r.(threadNames := s.threadNames) == s
  {
    LoggingSession(s.filter, enable, s.fileNames, s.lineNumbers)
  }

  function WithFileNames(s: LoggingSession, enable: bool): (r: LoggingSession)
    ensures r.fileNames == enable
    ensures r.(fileNames := s.fileNames) == s
  {
    LoggingSession(s.filter, s.threadNames, enable, s.lineNumbers)
  }

  function WithLineNumbers(s: LoggingSession, enable: bool): (r: LoggingSession)
    ensures r.lineNumbers == enable
    ensures r.(lineNumbers := s.lineNumbers) == s
  {
    LoggingSession(s.filter, s.threadNames, s.fileNames, enable)
  }

  /** Setters on different fields commute. */
  lemma SettersCommute(s: LoggingSession, f: EnvFilter, t: bool, fn: bool, ln: bool)
    ensures WithThreadNames(WithFilter(s, f), t) == WithFilter(WithThreadNames(s, t), f)
    ensures WithFileNames(WithFilter(s, f), fn) == WithFilter(WithFileNames(s, fn), f)
    ensures WithLineNumbers(WithFilter(s, f), ln) == WithFilter(WithLineNumbers(s, ln), f)
    ensures WithFileNames(WithThreadNames(s, t), fn) == WithThreadNames(WithFileNames(s, fn), t)
    ensures WithLineNumbers(WithThreadNames(s, t), ln) == WithThreadNames(WithLineNumbers(s, ln), t)
    ensures WithLineNumbers(WithFileNames(s, fn), ln) == WithFileNames(WithLineNumbers(s, ln), fn)
  {
  }

  /** A second write to the same field overrides the first. */
  lemma LastWriteWins(s: LoggingSession, f1: EnvFilter, f2: EnvFilter, b1: bool, b2: bool)
    ensures WithFilter(WithFilter(s, f1), f2) == WithFilter(s, f2)
    ensures WithThreadNames(WithThreadNames(s, b1), b2) == WithThreadNames(s, b2)
    ensures WithFileNames(WithFileNames(s, b1), b2) == WithFileNames(s, b2)
    ensures WithLineNumbers(WithLineNumbers(s, b1), b2) == WithLineNumbers(s, b2)
  {
  }

  /** Every session is reachable from `new` by the four setters. */
  lemma SettersSpanAllSessions(s: LoggingSession)
    ensures WithLineNumbers(WithFileNames(WithThreadNames(WithFilter(New(), s.filter), s.threadNames), s.fileNames), s.lineNumbers) == s
  {
  }
}
