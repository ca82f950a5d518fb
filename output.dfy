/** Reading one output value of the root module out of the platform's state,
    as text. */
module Outputs {
  import opened Wrappers
  import opened Cty
  import opened Adapter
  import opened Text

  /** A module of the state: how many resources it holds, and its output
      values (`None` when the map is nil; an entry is `None` when it holds a
      nil reference). */
  datatype Module = Module(resources: nat, outputValues: Option<map<string, Option<OutputValue>>>)

  datatype OutputValue = OutputValue(value: Value)

  /** `states.State`: the root module is always there; the others are keyed
      by their address. */
  datatype State = State(root: Module, children: map<string, Module>)

  /** A module with no resources and no output values (a nil map, or one with
      no entries). */
  predicate ModuleEmpty(m: Module)
  {
    m.resources == 0 && (m.outputValues.None? || |m.outputValues.value| == 0)
  }

  /** `State.Empty()`: no module holds a resource or an output value. */
  predicate Empty(s: State)
  {
    ModuleEmpty(s.root) && forall k | k in s.children :: ModuleEmpty(s.children[k])
  }

  predicate NoLeadingOrTrailingQuote(s: string)
  {
    |s| == 0 || (s[0] != '"' && s[|s| - 1] != '"')
  }

  /** `strings.Trim(s, "\"")`. */
  function TrimQuotes(s: string): string
  {
    TrimRight(TrimLeft(s, '"'), '"')
  }

  /** `strings.Replace(s, "\\n", "\n", -1)`: every two-character backslash-n,
      taken left to right without overlap, becomes a newline. */
  function Unescape(s: string): string
    decreases |s|
  {
    if |s| < 2 then s
    else if s[0] == '\\' && s[1] == 'n' then ['\n'] + Unescape(s[2..])
    else [s[0]] + Unescape(s[1..])
  }

  /** The inverse direction, for stating the round trip: every newline
      becomes a backslash-n. */
  function Escape(s: string): string
    decreases |s|
  {
    if |s| == 0 then s
    else if s[0] == '\n' then ['\\', 'n'] + Escape(s[1..])
    else [s[0]] + Escape(s[1..])
  }

  /** No backslash is directly followed by an `n`. */
  predicate NoEscapedNewline(s: string)
  {
    forall i | 0 <= i < |s| - 1 :: !(s[i] == '\\' && s[i + 1] == 'n')
  }

  /** `valueAsString`: a nil output value is the empty string; otherwise the
      value's JSON encoding with the surrounding quotes trimmed and escaped
      newlines turned into newlines. The JSON encoder is a parameter. */
  function ValueAsString(v: Option<OutputValue>, marshal: Value -> Result<string>): (r: Result<string>)
    ensures v.None? ==> r == Ok("")
    ensures r.Err? ==> v.Some? && marshal(v.value.value).Err?
  {
    match v
    case None => Ok("")
    case Some(ov) =>
      match marshal(ov.value)
      case Err(e) => Err(e)
      case Ok(b) => Ok(Unescape(TrimQuotes(b)))
  }

  /** `OutputValueAsString`. */
  function OutputValueAsString(state: Option<State>, name: string, marshal: Value -> Result<string>): (r: Result<string>)
    ensures state.None? || Empty(state.value) ==> r == Err("no state found or empty state")
    ensures state.Some? && !Empty(state.value) && state.value.root.outputValues.None? ==>
      r == Err("no output values in the state")
    ensures (state.Some? && !Empty(state.value) && state.value.root.outputValues.Some? &&
             name !in state.value.root.outputValues.value) ==>
      r == Err("value of " + Quoted(name) + " not found")
    ensures r.Ok? ==>
      (state.Some? && state.value.root.outputValues.Some? &&
       name in state.value.root.outputValues.value &&
       r == ValueAsString(state.value.root.outputValues.value[name], marshal))
  {
    if state.None? || Empty(state.value) then Err("no state found or empty state")
    else
      var output := state.value.root.outputValues;
      if output.None? then Err("no output values in the state")
      else if name !in output.value then Err("value of " + Quoted(name) + " not found")
      else ValueAsString(output.value[name], marshal)
  }

  /** A state made only of output values is not empty: an output the root
      module holds is read, whatever the resources. */
  lemma OutputPresentIsRead(state: State, name: string, marshal: Value -> Result<string>)
    requires state.root.outputValues.Some? && name in state.root.outputValues.value
    ensures OutputValueAsString(Some(state), name, marshal) == ValueAsString(state.root.outputValues.value[name], marshal)
  {
  }

  // ---------------------------------------------------------------------
  // Properties

  /** Trimming takes quotes off both ends and only quotes: what is left has
      neither a leading nor a trailing quote, and sits inside the input
      between runs of quotes. */
  lemma TrimQuotesSpec(s: string)
    ensures NoLeadingOrTrailingQuote(TrimQuotes(s))
    ensures exists a, b | 0 <= a <= b <= |s| :: CutBetweenQuotes(s, a, b) && TrimQuotes(s) == s[a..b]
  {
    var l := TrimLeft(s, '"');
    var r := TrimRight(l, '"');
    assert r == TrimQuotes(s);
    var a := |s| - |l|;
    var b := a + |r|;
    assert l == s[a..];
    assert r == s[a..b];
    assert NoLeadingOrTrailingQuote(r) by {
      if |r| > 0 {
        assert r[0] == l[0];
      }
    }
    forall i | b <= i < |s|
      ensures s[i] == '"'
    {
      assert s[i] == l[i - a];
    }
    assert CutBetweenQuotes(s, a, b);
  }

  /** Everything before `a` and from `b` on is a quote. */
  predicate CutBetweenQuotes(s: string, a: nat, b: nat)
    requires a <= b <= |s|
  {
    (forall i | 0 <= i < a :: s[i] == '"') && (forall i | b <= i < |s| :: s[i] == '"')
  }

  /** Trimming twice trims nothing more. */
  lemma TrimQuotesIdempotent(s: string)
    ensures TrimQuotes(TrimQuotes(s)) == TrimQuotes(s)
  {
    var t := TrimQuotes(s);
    TrimQuotesSpec(s);
    assert TrimLeft(t, '"') == t;
  }

  /** Unescaping keeps the first character unless it starts an escape. */
  lemma {:induction false} UnescapeHead(s: string)
    requires |s| > 0
    ensures |Unescape(s)| > 0
    ensures Unescape(s)[0] == (if |s| >= 2 && s[0] == '\\' && s[1] == 'n' then '\n' else s[0])
  {
  }

  /** Unescaping ends with the input's last character or with a newline. */
  lemma {:induction false} UnescapeLast(s: string)
    requires |s| > 0
    ensures |Unescape(s)| > 0
    ensures var u := Unescape(s); u[|u| - 1] == '\n' || u[|u| - 1] == s[|s| - 1]
    decreases |s|
  {
    if |s| >= 2 {
      if s[0] == '\\' && s[1] == 'n' {
        if |s| > 2 {
          UnescapeLast(s[2..]);
        }
      } else {
        UnescapeLast(s[1..]);
      }
    }
  }

  /** The result of unescaping holds no escaped newline. */
  lemma {:induction false} UnescapeLeavesNoEscape(s: string)
    ensures NoEscapedNewline(Unescape(s))
    decreases |s|
  {
    if |s| >= 2 {
      if s[0] == '\\' && s[1] == 'n' {
        UnescapeLeavesNoEscape(s[2..]);
        assert Unescape(s) == ['\n'] + Unescape(s[2..]);
      } else {
        var t := s[1..];
        UnescapeLeavesNoEscape(t);
        assert Unescape(s) == [s[0]] + Unescape(t);
        if s[0] == '\\' && |t| > 0 {
          UnescapeHead(t);
        }
      }
    }
  }

  /** Unescaping undoes escaping when the text has no backslash-n of its
      own. */
  lemma {:induction false} UnescapeEscape(s: string)
    requires NoEscapedNewline(s)
    ensures Unescape(Escape(s)) == s
    decreases |s|
  {
    if |s| > 0 {
      var t := s[1..];
      assert NoEscapedNewline(t) by {
        forall i | 0 <= i < |t| - 1
          ensures !(t[i] == '\\' && t[i + 1] == 'n')
        {
          assert t[i] == s[i + 1] && t[i + 1] == s[i + 2];
        }
      }
      UnescapeEscape(t);
      if s[0] == '\n' {
        assert Escape(s) == ['\\', 'n'] + Escape(t);
        assert (['\\', 'n'] + Escape(t))[2..] == Escape(t);
      } else {
        assert Escape(s) == [s[0]] + Escape(t);
        if |Escape(t)| > 0 && s[0] == '\\' {
          EscapeHead(t);
        }
        assert ([s[0]] + Escape(t))[1..] == Escape(t);
      }
    }
  }

  lemma EscapeHead(s: string)
    requires |s| > 0
    ensures |Escape(s)| > 0 && Escape(s)[0] == (if s[0] == '\n' then '\\' else s[0])
  {
  }

  /** The text read out for an output value never starts or ends with a
      quote, and holds no escaped newline. */
  lemma ValueAsStringShape(v: Option<OutputValue>, marshal: Value -> Result<string>)
    requires ValueAsString(v, marshal).Ok?
    ensures var s := ValueAsString(v, marshal).value;
      NoLeadingOrTrailingQuote(s) && NoEscapedNewline(s)
  {
    if v.Some? {
      var b := marshal(v.value.value).value;
      var t := TrimQuotes(b);
      TrimQuotesSpec(b);
      UnescapeLeavesNoEscape(t);
      if |t| > 0 {
        UnescapeHead(t);
        UnescapeLast(t);
      }
    }
  }
}
