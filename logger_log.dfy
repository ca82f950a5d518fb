/** `logger.Log`: a leveled logger over the standard library's `log.Logger`.
    Whether a call writes, and with which five-character tag, is a pure
    decision on the configured level; the line it writes has a fixed shape. */
module Logging {
  import opened Wrappers
  import opened Text

  /** `Level` is a `uint8`. */
  newtype Level = x: int | 0 <= x < 256

  const LevelError: Level := 0
  const LevelWarn: Level := 1
  const LevelInfo: Level := 2
  const LevelDebug: Level := 3
  const LevelTrace: Level := 4

  /** `DefLogLevel`. */
  const DefaultLevel: Level := LevelInfo

  /** `TracePrefix`: the marker of a Terraform trace entry. */
  const TracePrefix := "[TRACE] "

  /** The public logging methods of `Log`. */
  datatype Method = Printf | Debugf | Infof | Warnf | Errorf

  /** `tracef`: silent below the trace level; otherwise the trace marker is
      removed and the rest is written with the `TRACE` tag. */
  function TraceGate(level: Level, format: string): Option<(string, string)>
  {
    if level < LevelTrace then None else Some(("TRACE", TrimPrefix(format, TracePrefix)))
  }

  /** The tag and message a call writes at the configured level, or `None`
      when the level gate keeps it silent. */
  function Gate(level: Level, m: Method, format: string): Option<(string, string)>
  {
    match m
    case Printf => Some(("     ", format))
    case Debugf =>
      if level < LevelDebug then None
      else if HasPrefix(format, TracePrefix) then TraceGate(level, format)
      else Some(("DEBUG", format))
    case Infof => if level < LevelInfo then None else Some(("INFO ", format))
    case Warnf => if level < LevelWarn then None else Some(("WARN ", format))
    case Errorf => if level < LevelError then None else Some(("ERROR", format))
  }

  /** The least configured level at which a call writes: an independent
      statement of the gating table. */
  function Threshold(m: Method, format: string): Level
  {
    match m
    case Printf => LevelError
    case Errorf => LevelError
    case Warnf => LevelWarn
    case Infof => LevelInfo
    case Debugf => if HasPrefix(format, TracePrefix) then LevelTrace else LevelDebug
  }

  /** The message a call writes when it writes at all. */
  function Message(m: Method, format: string): string
  {
    if m == Debugf then TrimPrefix(format, TracePrefix) else format
  }

  /** The line `output` hands to the standard logger: the tag and `" [ "` as
      the logger's prefix, the timestamp the standard logger puts after its
      prefix, then `"] "` or `"] <prefix>: "`, then the message. */
  function Line(prefix: string, tag: string, stamp: string, msg: string): string
  {
    tag + " [ " + stamp + (if |prefix| != 0 then "] " + prefix + ": " else "] ") + msg
  }

  /** The lines one call adds to the wrapped logger's output. */
  function Emitted(prefix: string, level: Level, m: Method, format: string, stamp: string): seq<string>
  {
    match Gate(level, m, format)
    case None => []
    case Some(tm) => [Line(prefix, tm.0, stamp, tm.1)]
  }

  /** `Log`. What the wrapped standard logger has been given is kept as the
      sequence of lines `written`; the timestamp of each line is an input. */
  class Log {
    var prefix: string
    var level: Level
    var written: seq<string>

    /** `NewLog`: the prefix and level are stored as given. */
    constructor (prefix: string, level: Level)
      ensures this.prefix == prefix && this.level == level && written == []
    {
      this.prefix := prefix;
      this.level := level;
      written := [];
    }

    method Printf(format: string, stamp: string)
      modifies this
      ensures prefix == old(prefix) && level == old(level)
      ensures written == old(written) + Emitted(prefix, level, Method.Printf, format, stamp)
    {
      Output("     ", format, stamp);
    }

    method Debugf(format: string, stamp: string)
      modifies this
      ensures prefix == old(prefix) && level == old(level)
      ensures written == old(written) + Emitted(prefix, level, Method.Debugf, format, stamp)
    {
      if level < LevelDebug {
        assert Emitted(prefix, level, Method.Debugf, format, stamp) == [];
        return;
      }
      if HasPrefix(format, TracePrefix) {
        Tracef(format, stamp);
        return;
      }
      Output("DEBUG", format, stamp);
    }

    /** `tracef`, reached from `Debugf` only. */
    method Tracef(format: string, stamp: string)
      modifies this
      ensures prefix == old(prefix) && level == old(level)
      ensures written == old(written) + match TraceGate(level, format)
        case None => []
        case Some(tm) => [Line(prefix, tm.0, stamp, tm.1)]
    {
      if level < LevelTrace {
        return;
      }
      var f := TrimPrefix(format, TracePrefix);
      Output("TRACE", f, stamp);
    }

    method Infof(format: string, stamp: string)
      modifies this
      ensures prefix == old(prefix) && level == old(level)
      ensures written == old(written) + Emitted(prefix, level, Method.Infof, format, stamp)
    {
      if level < LevelInfo {
        return;
      }
      Output("INFO ", format, stamp);
    }

    method Warnf(format: string, stamp: string)
      modifies this
      ensures prefix == old(prefix) && level == old(level)
      ensures written == old(written) + Emitted(prefix, level, Method.Warnf, format, stamp)
    {
      if level < LevelWarn {
        return;
      }
      Output("WARN ", format, stamp);
    }

    method Errorf(format: string, stamp: string)
      modifies this
      ensures prefix == old(prefix) && level == old(level)
      ensures written == old(written) + Emitted(prefix, level, Method.Errorf, format, stamp)
    {
      if level < LevelError {
        return;
      }
      Output("ERROR", format, stamp);
    }

    /** `output`: one line with the given tag. */
    method Output(tag: string, msg: string, stamp: string)
      modifies this
      ensures prefix == old(prefix) && level == old(level)
      ensures written == old(written) + [Line(prefix, tag, stamp, msg)]
    {
      var p := if |prefix| != 0 then "] " + prefix + ": " else "] ";
      written := written + [tag + " [ " + stamp + p + msg];
    }
  }

  // ---------------------------------------------------------------------
  // Properties

  /** A call writes exactly when the configured level reaches its threshold,
      and then writes its message (with the trace marker removed for trace
      entries). */
  lemma GateThreshold(level: Level, m: Method, format: string)
    ensures Gate(level, m, format).Some? <==> Threshold(m, format) <= level
    ensures Gate(level, m, format).Some? ==> Gate(level, m, format).value.1 == Message(m, format)
  {
  }

  /** Raising the level never silences a call, and never changes what it
      writes. */
  lemma GateMonotonic(l1: Level, l2: Level, m: Method, format: string)
    requires l1 <= l2 && Gate(l1, m, format).Some?
    ensures Gate(l2, m, format) == Gate(l1, m, format)
  {
    GateThreshold(l1, m, format);
    GateThreshold(l2, m, format);
  }

  /** `Printf` and `Errorf` write at every level. */
  lemma AlwaysWritten(level: Level, format: string)
    ensures Gate(level, Printf, format) == Some(("     ", format))
    ensures Gate(level, Errorf, format) == Some(("ERROR", format))
  {
  }

  /** A trace entry reaches the output only at the trace level, without its
      marker; below the debug level no debug call writes. */
  lemma TraceOnlyAtTrace(level: Level, msg: string)
    ensures Gate(level, Debugf, TracePrefix + msg) ==
      (if level >= LevelTrace then Some(("TRACE", msg)) else None)
  {
    var f := TracePrefix + msg;
    assert HasPrefix(f, TracePrefix) by {
      assert f[..|TracePrefix|] == TracePrefix;
    }
    assert f[|TracePrefix|..] == msg;
  }

  /** Every tag is five characters wide, so the columns line up. */
  lemma TagWidth(level: Level, m: Method, format: string)
    requires Gate(level, m, format).Some?
    ensures |Gate(level, m, format).value.0| == 5
  {
  }

  /** A line starts with its tag, `" [ "` and the timestamp, and ends with
      the message, separated by `"] "` or by `"] <prefix>: "`. */
  lemma LineShape(prefix: string, tag: string, stamp: string, msg: string)
    ensures var l := Line(prefix, tag, stamp, msg);
      var head := tag + " [ " + stamp;
      var sep := if |prefix| != 0 then "] " + prefix + ": " else "] ";
      |l| == |head| + |sep| + |msg| &&
      l[..|head|] == head && l[|head|..|head| + |sep|] == sep && l[|head| + |sep|..] == msg
  {
    var head := tag + " [ " + stamp;
    var sep := if |prefix| != 0 then "] " + prefix + ": " else "] ";
    var l := Line(prefix, tag, stamp, msg);
    assert l == head + sep + msg;
  }

  /** A logged line can be read back: under one prefix, with tags of one
      width and timestamps of one width, equal lines have equal tags,
      timestamps and messages. */
  lemma LineInjective(prefix: string, tag1: string, stamp1: string, msg1: string,
                      tag2: string, stamp2: string, msg2: string)
    requires |tag1| == |tag2| && |stamp1| == |stamp2|
    requires Line(prefix, tag1, stamp1, msg1) == Line(prefix, tag2, stamp2, msg2)
    ensures tag1 == tag2 && stamp1 == stamp2 && msg1 == msg2
  {
    LineShape(prefix, tag1, stamp1, msg1);
    LineShape(prefix, tag2, stamp2, msg2);
    var head1 := tag1 + " [ " + stamp1;
    var head2 := tag2 + " [ " + stamp2;
    assert head1 == head2;
    assert tag1 == head1[..|tag1|] && tag2 == head2[..|tag2|];
    assert stamp1 == head1[|tag1| + 3..] && stamp2 == head2[|tag2| + 3..];
  }

}
