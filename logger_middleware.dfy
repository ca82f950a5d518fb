/** `logger.Middleware`: an `io.Writer` put in place of the standard
    logger's output to catch Terraform's log lines and pass each one to a
    `Log` at the level its tag names. */
module LogMiddleware {
  import opened Wrappers
  import opened Logging
  import opened Text

  /** Where the standard logger writes: nowhere (a nil writer), some other
      stream, or a middleware. */
  datatype Writer = NoWriter | Stream(name: string) | Intercepting(m: Middleware)

  /** The standard library's global logger, as far as its output goes. */
  class GlobalLog {
    var output: Writer

    constructor (w: Writer)
      ensures output == w
    {
      output := w;
    }
  }

  /** What the timestamp patterns of `Write` find in one write: a tag and a
      message, or (no tag) the text after the timestamp. */
  datatype Parsed = Tagged(tag: string, text: string) | Dated(rest: string)

  /** Which `Log` method a write goes to, and the format it is given. */
  function Routed(p: Parsed): (Method, string)
  {
    match p
    case Tagged(tag, text) =>
      var msg := TrimRight(text, '\n');
      if tag == "ERROR" then (Errorf, msg)
      else if tag == "WARN" then (Warnf, msg)
      else if tag == "INFO" then (Infof, msg)
      else if tag == "DEBUG" then (Debugf, msg)
      else if tag == "TRACE" then (Debugf, TracePrefix + msg)
      else (Printf, "[" + tag + "] " + msg)
    case Dated(rest) => (Printf, rest)
  }

  /** The least level at which a tagged line reaches the output: an
      independent statement of the dispatch table. */
  function TagThreshold(tag: string, msg: string): Level
  {
    if tag == "WARN" then LevelWarn
    else if tag == "INFO" then LevelInfo
    else if tag == "DEBUG" then (if HasPrefix(msg, TracePrefix) then LevelTrace else LevelDebug)
    else if tag == "TRACE" then LevelTrace
    else LevelError
  }

  class Middleware {
    var log: Log
    /** The writer `Start` replaced; `NoWriter` when not started. */
    var prevWriter: Writer

    constructor (l: Log)
      ensures log == l && prevWriter == NoWriter
    {
      log := l;
      prevWriter := NoWriter;
    }

    /** `IsEnabled`: a writer has been saved. */
    predicate IsEnabled()
      reads this
    {
      !prevWriter.NoWriter?
    }

    /** `Start`: the global output now goes to this middleware and what it
        was is saved. */
    method Start(g: GlobalLog)
      modifies this, g
      ensures log == old(log)
      ensures prevWriter == old(g.output) && g.output == Intercepting(this)
    {
      var prev := g.output;
      g.output := Intercepting(this);
      prevWriter := prev;
    }

    /** `Close`: without a saved writer nothing happens; otherwise the saved
        writer is restored and forgotten. */
    method Close(g: GlobalLog)
      modifies this, g
      ensures log == old(log)
      ensures old(prevWriter).NoWriter? ==> prevWriter == NoWriter && g.output == old(g.output)
      ensures !old(prevWriter).NoWriter? ==> prevWriter == NoWriter && g.output == old(prevWriter)
    {
      if prevWriter.NoWriter? {
        return;
      }
      g.output := prevWriter;
      prevWriter := NoWriter;
    }

    /** `SetLogger`. */
    method SetLogger(l: Log)
      modifies this
      ensures log == l && prevWriter == old(prevWriter)
    {
      log := l;
    }

    /** `Write`: the parsed line goes to the method its tag names; the whole
        input is always reported written, without error. */
    method Write(p: seq<bv8>, parsed: Parsed, stamp: string) returns (n: int, err: Option<string>)
      modifies log
      ensures n == |p| && err == None
      ensures log.prefix == old(log.prefix) && log.level == old(log.level)
      ensures log.written == old(log.written) + Emitted(log.prefix, log.level, Routed(parsed).0, Routed(parsed).1, stamp)
    {
      match parsed {
        case Tagged(tag, text) =>
          var msg := TrimRight(text, '\n');
          if tag == "ERROR" {
            log.Errorf(msg, stamp);
          } else if tag == "WARN" {
            log.Warnf(msg, stamp);
          } else if tag == "INFO" {
            log.Infof(msg, stamp);
          } else if tag == "DEBUG" {
            log.Debugf(msg, stamp);
          } else if tag == "TRACE" {
            log.Debugf(TracePrefix + msg, stamp);
          } else {
            log.Printf("[" + tag + "] " + msg, stamp);
          }
        case Dated(rest) =>
          log.Printf(rest, stamp);
      }
      return |p|, None;
    }
  }

  /** `NewMiddleware`: the first logger given, unless there is none or it is
      nil; then a fresh `Log` with no prefix at the default level. Later
      arguments are ignored. The middleware starts disabled. */
  method NewMiddleware(ls: seq<Log?>) returns (m: Middleware)
    ensures fresh(m) && !m.IsEnabled()
    ensures |ls| > 0 && ls[0] != null ==> m.log == ls[0]
    ensures |ls| == 0 || ls[0] == null ==>
      fresh(m.log) && m.log.prefix == "" && m.log.level == DefaultLevel && m.log.written == []
  {
    var l: Log;
    if |ls| == 0 || ls[0] == null {
      l := new Log("", DefaultLevel);
    } else {
      l := ls[0];
    }
    m := new Middleware(l);
  }

  // ---------------------------------------------------------------------
  // Properties

  /** A tagged line reaches the output exactly when the level reaches the
      threshold its tag (and, for DEBUG, a trace marker) sets. */
  lemma DispatchThreshold(level: Level, tag: string, text: string)
    ensures var r := Routed(Tagged(tag, text));
      Gate(level, r.0, r.1).Some? <==> TagThreshold(tag, TrimRight(text, '\n')) <= level
  {
    var msg := TrimRight(text, '\n');
    var r := Routed(Tagged(tag, text));
    GateThreshold(level, r.0, r.1);
    if tag == "TRACE" {
      TraceOnlyAtTrace(level, msg);
    }
  }

  /** A TRACE line is written only at the trace level, tagged `TRACE`, with
      its own message and no trailing newline. */
  lemma TraceDispatch(level: Level, text: string)
    ensures var r := Routed(Tagged("TRACE", text));
      Gate(level, r.0, r.1) ==
        (if level >= LevelTrace then Some(("TRACE", TrimRight(text, '\n'))) else None)
  {
    TraceOnlyAtTrace(level, TrimRight(text, '\n'));
  }

  /** ERROR, WARN and INFO lines keep their level tag (padded to five
      characters) and their message. */
  lemma LevelTagsKept(level: Level, tag: string, text: string)
    requires tag in ["ERROR", "WARN", "INFO"]
    ensures var r := Routed(Tagged(tag, text));
      Gate(level, r.0, r.1).Some? ==>
        Gate(level, r.0, r.1).value == ((if tag == "ERROR" then tag else tag + " "), TrimRight(text, '\n'))
  {
    assert "WARN" + " " == "WARN ";
    assert "INFO" + " " == "INFO ";
  }

  /** A line with any other tag is always written, untagged, with the tag
      kept in brackets in front of the message. */
  lemma OtherTagsPrinted(level: Level, tag: string, text: string)
    requires tag !in ["ERROR", "WARN", "INFO", "DEBUG", "TRACE"]
    ensures var r := Routed(Tagged(tag, text));
      Gate(level, r.0, r.1) == Some(("     ", "[" + tag + "] " + TrimRight(text, '\n')))
  {
  }
}
