/** The provisioner registry of the platform as `provisioner.go` keeps it:
    a map that starts nil, gets the built-in provisioners on first use, and
    from which the engine's factories are built. */
module ProvisionerRegistry {
  import opened Wrappers

  /** A legacy `terraform.ResourceProvisioner`: one of the three built in,
      or one the caller brings (told apart by an identity). */
  datatype ResourceProvisioner = LocalExec | RemoteExec | FileProvisioner | Custom(id: string)

  /** A `terraform.ResourceProvisionerFactory`: a closure that, when called,
      yields this provisioner (and no error). */
  datatype Factory = Factory(instance: ResourceProvisioner)

  /** `defaultProvisioners`. */
  function DefaultProvisioners(): (d: map<string, ResourceProvisioner>)
    ensures d.Keys == {"local-exec", "remote-exec", "file"}
  {
    map["local-exec" := LocalExec, "remote-exec" := RemoteExec, "file" := FileProvisioner]
  }

  /** What the factories built by the source's loop yield: each closure
      captures the loop's single `provisioner` variable, so once the loop is
      over every factory yields the provisioner of the name visited last. */
  function SharedCapture(provs: map<string, ResourceProvisioner>, order: seq<string>): map<string, Factory>
    requires |order| > 0 && order[|order| - 1] in provs
  {
    map k | k in provs :: Factory(provs[order[|order| - 1]])
  }

  /** `order` lists every key of `provs` once: the order a map range visits
      them in, which Go leaves unspecified. */
  predicate IterationOrder(provs: map<string, ResourceProvisioner>, order: seq<string>)
  {
    (forall i | 0 <= i < |order| :: order[i] in provs) && (forall k | k in provs :: k in order) &&
    (forall i, j | 0 <= i < j < |order| :: order[i] != order[j])
  }

  class Platform {
    /** `Provisioners`; `None` is the nil map. */
    var provisioners: Option<map<string, ResourceProvisioner>>

    constructor ()
      ensures provisioners == None
    {
      provisioners := None;
    }

    /** `updateProvisioners` as written (Go before 1.22, where a `range`
        loop has one variable for all iterations): the factories cover
        exactly the registered names, and every one of them yields the
        provisioner visited last. Nothing is changed. */
    method UpdateProvisionersAsWritten(order: seq<string>) returns (ctx: map<string, Factory>)
      requires provisioners.Some? && IterationOrder(provisioners.value, order) && |order| > 0
      ensures ctx.Keys == provisioners.value.Keys
      ensures ctx == SharedCapture(provisioners.value, order)
    {
      var provs := provisioners.value;
      var names: set<string> := {};
      var provisioner := provs[order[0]];
      var i := 0;
      while i < |order|
        invariant 0 <= i <= |order|
        invariant names == set j | 0 <= j < i :: order[j]
        invariant i > 0 ==> provisioner == provs[order[i - 1]]
      {
        provisioner := provs[order[i]];
        names := names + {order[i]};
        i := i + 1;
      }
      // Every closure reads the shared variable when it is called.
      ctx := map k | k in names :: Factory(provisioner);
      assert names == provs.Keys by {
        IterationOrderCovers(provs, order);
      }
    }

    /** `updateProvisioners` as intended: every registered name gets a
        factory that yields that name's provisioner. Nothing is changed. */
    method UpdateProvisioners() returns (ctx: map<string, Factory>)
      requires provisioners.Some?
      ensures ctx.Keys == provisioners.value.Keys
      ensures forall k | k in ctx :: ctx[k].instance == provisioners.value[k]
    {
      var provs := provisioners.value;
      ctx := map[];
      var rest := provs.Keys;
      while rest != {}
        invariant rest <= provs.Keys
        invariant ctx.Keys == provs.Keys - rest
        invariant forall k | k in ctx :: ctx[k].instance == provs[k]
        decreases rest
      {
        var name :| name in rest;
        ctx := ctx[name := Factory(provs[name])];
        rest := rest - {name};
      }
    }

    /** `AddProvisioner`: a nil map first gets the built-in provisioners;
        then the name is bound to the given provisioner, overriding a
        built-in one of the same name. The factories are rebuilt and
        dropped. */
    method AddProvisioner(name: string, provisioner: ResourceProvisioner) returns (r: Platform)
      modifies this
      ensures r == this
      ensures provisioners == Some(Registered(old(provisioners), name, provisioner))
    {
      if provisioners.None? {
        provisioners := Some(DefaultProvisioners());
      }
      provisioners := Some(provisioners.value[name := provisioner]);
      var _ := UpdateProvisioners();
      r := this;
    }
  }

  /** The registry after `AddProvisioner(name, p)`: a nil map first gets the
      built-in provisioners, then the name is bound to `p`. */
  function Registered(provs: Option<map<string, ResourceProvisioner>>, name: string, p: ResourceProvisioner)
    : map<string, ResourceProvisioner>
  {
    (if provs.None? then DefaultProvisioners() else provs.value)[name := p]
  }

  lemma IterationOrderCovers(provs: map<string, ResourceProvisioner>, order: seq<string>)
    requires IterationOrder(provs, order)
    ensures (set j | 0 <= j < |order| :: order[j]) == provs.Keys
  {
    forall k | k in provs
      ensures k in set j | 0 <= j < |order| :: order[j]
    {
      var j :| 0 <= j < |order| && order[j] == k;
    }
  }

  // ---------------------------------------------------------------------
  // Properties

  /** The factories of the loop as written disagree with the registry: with
      `a` bound to one provisioner and `b` to another, and `b` visited
      last, the factory for `a` yields `b`'s provisioner. */
  lemma SharedCaptureCounterexample()
    ensures var provs := map["a" := Custom("x"), "b" := Custom("y")];
      IterationOrder(provs, ["a", "b"]) &&
      SharedCapture(provs, ["a", "b"])["a"].instance != provs["a"]
  {
    var provs := map["a" := Custom("x"), "b" := Custom("y")];
    assert provs.Keys == {"a", "b"};
  }

  /** The registry does not depend on the order in which distinct names are
      added, from a nil registry or any other; adding a name twice keeps
      the second provisioner; and an addition leaves every other name's
      entry as it was. */
  lemma RegistrationOrderIrrelevant(provs: Option<map<string, ResourceProvisioner>>,
                                    a: string, pa: ResourceProvisioner, b: string, pb: ResourceProvisioner)
    ensures a != b ==> Registered(Some(Registered(provs, a, pa)), b, pb) == Registered(Some(Registered(provs, b, pb)), a, pa)
    ensures Registered(Some(Registered(provs, a, pa)), a, pb) == Registered(provs, a, pb)
    ensures provs.Some? && b != a && b in provs.value ==> Registered(provs, a, pa)[b] == provs.value[b]
  {
  }

  /** After adding to a nil map, the built-in names the caller did not
      override are there with their built-in provisioners. */
  lemma DefaultsInstalled(name: string, p: ResourceProvisioner)
    ensures var m := DefaultProvisioners()[name := p];
      m.Keys == {"local-exec", "remote-exec", "file", name} && m[name] == p &&
      (name != "local-exec" ==> m["local-exec"] == LocalExec) &&
      (name != "remote-exec" ==> m["remote-exec"] == RemoteExec) &&
      (name != "file" ==> m["file"] == FileProvisioner)
  {
  }
}
