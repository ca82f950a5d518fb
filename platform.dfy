/** `Platform`: the code, providers, provisioners, variables, state, hooks and
    log middleware Terraform is run with, the checks made before running it,
    and the statistics of the last apply. */
module Terranova {
  import opened Wrappers
  import opened Cty
  import opened Decimal
  import opened Platformer
  import Adapter
  import Provisioners
  import Outputs
  import Statistics
  import opened Logging
  import opened LogMiddleware

  /** A legacy `terraform.ResourceProvider` handed to `AddProvider`: the
      built-in null provider, or one the caller brings. */
  datatype ProviderRef = NullProvider | CustomProvider(id: string)

  /** `providersFactory(p)`: a factory that always gives `p`. */
  datatype ProviderFactory = FixedProvider(provider: ProviderRef)

  /** `provisionersFactory(p)`: a factory that always gives the wrapper of
      `p` (nil when `p` cannot be wrapped). */
  datatype ProvisionerFactory = FixedProvisioner(provisioner: Provisioners.LegacyProvisioner)

  /** A `terraform.Hook`, by identity. */
  datatype Hook = Hook(id: string)

  /** A variable value of any Go type, as `%v` prints it: strings as they
      are, integers in decimal, booleans as `true`/`false`; the rendering of
      any other value is given with it. */
  datatype GoValue = GoString(s: string) | GoInt(i: int) | GoBool(b: bool) | GoOther(repr: string)

  function FormatV(v: GoValue): string
  {
    match v
    case GoString(s) => s
    case GoInt(i) => IntToString(i)
    case GoBool(b) => if b then "true" else "false"
    case GoOther(r) => r
  }

  /** `terraform.ValueSourceType`, of which `variables` uses one. */
  datatype ValueSourceType = ValueFromCaller

  /** `terraform.InputValue`. */
  datatype InputValue = InputValue(value: Value, sourceType: ValueSourceType)

  /** `states.NewState()`: a root module with no resources and an empty
      (non-nil) output map, and no other module. */
  function NewState(): Outputs.State
  {
    Outputs.State(Outputs.Module(0, Some(map[])), map[])
  }

  function UndeclaredMessage(name: string): string
  {
    "variable " + Adapter.Quoted(name) + " is not declared in the code"
  }

  class Platform {
    var code: string
    var providers: map<string, ProviderFactory>
    var provisioners: map<string, ProvisionerFactory>
    /** `Vars`; `None` is the nil map. */
    var vars: Option<map<string, GoValue>>
    /** `State`; `None` is the nil reference. */
    var state: Option<Outputs.State>
    var hooks: seq<Hook>
    var logMiddleware: Middleware?
    /** The count hook of the last apply; `None` before any. */
    var countHook: Option<Statistics.CountHook>

    /** `NewPlatform`: the code and hooks as given, the null provider only,
        no provisioner, no variables, a fresh empty state. */
    constructor (code: string, hooks: seq<Hook>)
      ensures this.code == code && this.hooks == hooks
      ensures providers == map["null" := FixedProvider(NullProvider)] && provisioners == map[]
      ensures vars == None && state == Some(NewState())
      ensures logMiddleware == null && countHook == None
    {
      this.code := code;
      this.hooks := hooks;
      providers := map[];
      provisioners := map[];
      vars := None;
      logMiddleware := null;
      countHook := None;
      state := None;
      new;
      var _ := AddProvider("null", NullProvider);
      state := Some(NewState());
    }

    /** `AddProvider`: the name now gives a factory of this provider,
        whatever it gave before; nothing else changes. */
    method AddProvider(name: string, provider: ProviderRef) returns (r: Platform)
      modifies this
      ensures r == this && providers == old(providers)[name := FixedProvider(provider)]
      ensures code == old(code) && provisioners == old(provisioners) && vars == old(vars)
      ensures state == old(state) && hooks == old(hooks)
      ensures logMiddleware == old(logMiddleware) && countHook == old(countHook)
    {
      providers := providers[name := FixedProvider(provider)];
      r := this;
    }

    /** `AddProvisioner` of `platform.go`: the name now gives a factory of
        this provisioner; nothing else changes. */
    method AddProvisioner(name: string, provisioner: Provisioners.LegacyProvisioner) returns (r: Platform)
      modifies this
      ensures r == this && provisioners == old(provisioners)[name := FixedProvisioner(provisioner)]
      ensures code == old(code) && providers == old(providers) && vars == old(vars)
      ensures state == old(state) && hooks == old(hooks)
      ensures logMiddleware == old(logMiddleware) && countHook == old(countHook)
    {
      provisioners := provisioners[name := FixedProvisioner(provisioner)];
      r := this;
    }

    /** `Var`: creates the map when it is empty, then stores the value. */
    method Var(name: string, value: GoValue) returns (r: Platform)
      modifies this
      ensures r == this && vars == Some(Contents(old(vars))[name := value])
      ensures code == old(code) && providers == old(providers) && provisioners == old(provisioners)
      ensures state == old(state) && hooks == old(hooks)
      ensures logMiddleware == old(logMiddleware) && countHook == old(countHook)
    {
      var m := if vars.None? || |vars.value| == 0 then map[] else vars.value;
      vars := Some(m[name := value]);
      r := this;
    }

    /** `BindVars`: every entry is stored, in the map's own order; an empty
        map changes nothing. */
    method BindVars(vs: map<string, GoValue>) returns (r: Platform)
      modifies this
      ensures r == this && vars == Bound(old(vars), vs)
      ensures code == old(code) && providers == old(providers) && provisioners == old(provisioners)
      ensures state == old(state) && hooks == old(hooks)
      ensures logMiddleware == old(logMiddleware) && countHook == old(countHook)
    {
      r := this;
      if |vs| == 0 {
        return;
      }
      var base := Contents(vars);
      var rest := vs.Keys;
      var done: map<string, GoValue> := map[];
      while rest != {}
        invariant rest <= vs.Keys
        invariant done.Keys == vs.Keys - rest && forall k | k in done :: done[k] == vs[k]
        invariant done == map[] ==> vars == old(vars)
        invariant done != map[] ==> vars == Some(base + done)
        invariant code == old(code) && providers == old(providers) && provisioners == old(provisioners)
        invariant state == old(state) && hooks == old(hooks)
        invariant logMiddleware == old(logMiddleware) && countHook == old(countHook)
        decreases rest
      {
        var name :| name in rest;
        ghost var before := Contents(vars);
        var _ := Var(name, vs[name]);
        MergeUpdate(base, done, name, vs[name]);
        assert before == base + done;
        done := done[name := vs[name]];
        rest := rest - {name};
      }
      assert done == vs;
    }

    /** `AddMiddleware`. */
    method AddMiddleware(lm: Middleware?) returns (r: Platform)
      modifies this
      ensures r == this && logMiddleware == lm
      ensures code == old(code) && providers == old(providers) && provisioners == old(provisioners)
      ensures vars == old(vars) && state == old(state) && hooks == old(hooks) && countHook == old(countHook)
    {
      logMiddleware := lm;
      r := this;
    }

    /** `variables`: every bound variable must be declared by the code;
        each becomes a string input value, printed with `%v`, that comes
        from the caller. The first undeclared name met (in the map's own
        order) is the one reported. */
    method Variables(declared: set<string>) returns (r: Result<map<string, InputValue>>)
      ensures r.Ok? <==> Contents(vars).Keys <= declared
      ensures r.Err? ==> exists n | n in Contents(vars) && n !in declared :: r.msg == UndeclaredMessage(n)
      ensures r.Ok? ==> r.value.Keys == Contents(vars).Keys
      ensures r.Ok? ==> forall n | n in r.value ::
        r.value[n] == InputValue(Str(FormatV(Contents(vars)[n])), ValueFromCaller)
    {
      var all := Contents(vars);
      var iv: map<string, InputValue> := map[];
      var rest := all.Keys;
      while rest != {}
        invariant rest <= all.Keys
        invariant iv.Keys == all.Keys - rest && iv.Keys <= declared
        invariant forall n | n in iv :: iv[n] == InputValue(Str(FormatV(all[n])), ValueFromCaller)
        decreases rest
      {
        var name :| name in rest;
        if name !in declared {
          return Err(UndeclaredMessage(name));
        }
        iv := iv[name := InputValue(Str(FormatV(all[name])), ValueFromCaller)];
        rest := rest - {name};
      }
      return Ok(iv);
    }

    /** `config`: no code is rejected before anything is written or loaded;
        otherwise the loaded configuration (or the loader's error) is the
        result. Writing the code out and loading it is the `load`
        parameter. */
    method Config<C>(load: string -> Result<C>) returns (r: Result<C>)
      ensures |code| == 0 ==> r == Err("no code to apply")
      ensures |code| != 0 ==> r == load(code)
    {
      if |code| == 0 {
        return Err("no code to apply");
      }
      r := load(code);
    }

    /** `Export`: no code is rejected before anything is written; otherwise
        the outcome of writing the code (the `save` parameter, `None` on
        success) is the result. */
    method Export(save: string -> Option<string>) returns (err: Option<string>)
      ensures |code| == 0 ==> err == Some("no code to export")
      ensures |code| != 0 ==> err == save(code)
    {
      if |code| == 0 {
        return Some("no code to export");
      }
      err := save(code);
    }

    /** `startMiddleware`: without a middleware nothing happens; a
        middleware already intercepting is left alone; otherwise it is
        started. */
    method StartMiddleware(g: GlobalLog)
      modifies g, if logMiddleware == null then {} else {logMiddleware}
      ensures logMiddleware == null ==> g.output == old(g.output)
      ensures logMiddleware != null && old(logMiddleware.IsEnabled()) ==>
        g.output == old(g.output) && logMiddleware.prevWriter == old(logMiddleware.prevWriter)
      ensures logMiddleware != null && !old(logMiddleware.IsEnabled()) ==>
        logMiddleware.prevWriter == old(g.output) && g.output == Intercepting(logMiddleware)
      ensures logMiddleware != null ==> logMiddleware.log == old(logMiddleware.log)
    {
      if logMiddleware == null {
        return;
      }
      if !logMiddleware.IsEnabled() {
        logMiddleware.Start(g);
      }
    }

    /** `Stats` (of `stats.go`): fresh statistics holding the applied counts
        of the count hook, all zero before any apply. */
    method Stats() returns (s: Statistics.Stats)
      ensures fresh(s) && !s.fromPlan
      ensures countHook.None? ==> s.Tallied() == Statistics.Tally(0, 0, 0)
      ensures countHook.Some? ==>
        s.Tallied() == Statistics.Tally(countHook.value.added, countHook.value.changed, countHook.value.removed)
    {
      s := new Statistics.Stats();
      s := s.FromCountHook(countHook);
    }

    /** `OutputValueAsString`, on the platform's state. */
    function OutputValueAsString(name: string, marshal: Value -> Result<string>): (r: Result<string>)
      reads this
      ensures state.None? ==> r == Err("no state found or empty state")
      ensures r.Ok? ==> state.Some? && state.value.root.outputValues.Some? && name in state.value.root.outputValues.value
    {
      Outputs.OutputValueAsString(state, name, marshal)
    }
  }

  // ---------------------------------------------------------------------
  // Properties

  /** The string form of a variable: strings are kept as they are, and an
      integer's decimal form reads back as that integer. */
  lemma FormatVFaithful(v: GoValue)
    ensures v.GoString? ==> FormatV(v) == v.s
    ensures v.GoInt? && v.i >= 0 ==> IsDigits(FormatV(v)) && ParseNat(FormatV(v)) == v.i
    ensures v.GoInt? && v.i < 0 ==> FormatV(v)[0] == '-' && ParseNat(FormatV(v)[1..]) == -v.i
  {
  }

  /** The message names the offending variable in quotes. */
  lemma UndeclaredMessageNamesVariable(name: string)
    ensures var m := UndeclaredMessage(name);
      m[..10] == "variable \"" && m[10..10 + |name|] == name && m[10 + |name|..] == "\" is not declared in the code"
  {
    var m := UndeclaredMessage(name);
    assert m == "variable \"" + name + "\" is not declared in the code";
  }

  /** Different names give different messages. */
  lemma UndeclaredMessageInjective(a: string, b: string)
    requires UndeclaredMessage(a) == UndeclaredMessage(b)
    ensures a == b
  {
    UndeclaredMessageNamesVariable(a);
    UndeclaredMessageNamesVariable(b);
    var ma, mb := UndeclaredMessage(a), UndeclaredMessage(b);
    assert |ma| == 10 + |a| + 29 && |mb| == 10 + |b| + 29;
    assert a == ma[10..10 + |a|] == mb[10..10 + |b|] == b;
  }
}
