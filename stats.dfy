/** `Stats`: how many resources a plan will add, change and destroy, or an
    apply did, and the one-line summary of it. */
module Statistics {
  import opened Decimal
  import opened Wrappers

  /** `plans.Action`. */
  datatype Action = NoOp | Create | Read | Update | DeleteThenCreate | CreateThenDelete | Delete

  /** The mode of a resource address: managed resource or data source. */
  datatype Mode = Managed | Data

  /** A planned change of one resource instance (`plans.ResourceInstanceChangeSrc`). */
  datatype ResourceChange = ResourceChange(action: Action, mode: Mode)

  /** `plans.Plan` as far as the counting reads it; `changes` is `None` when
      the plan's `Changes` is nil. */
  datatype Plan = Plan(changes: Option<seq<ResourceChange>>)

  /** `local.CountHook`: counts of applied changes and of planned ones. */
  datatype CountHook = CountHook(added: int, changed: int, removed: int,
                                 toAdd: int, toChange: int, toRemove: int, toRemoveAndAdd: int)

  /** Added, changed and destroyed counts. */
  datatype Tally = Tally(add: int, change: int, destroy: int)
  {
    function Plus(o: Tally): Tally { Tally(add + o.add, change + o.change, destroy + o.destroy) }
  }

  /** What one change contributes: a create adds, an update changes, a
      replacement (either order) adds and destroys, a delete destroys unless it
      is of a data source; nothing else counts. */
  function Contribution(c: ResourceChange): Tally
  {
    match c.action
    case Create => Tally(1, 0, 0)
    case Update => Tally(0, 1, 0)
    case DeleteThenCreate => Tally(1, 0, 1)
    case CreateThenDelete => Tally(1, 0, 1)
    case Delete => if c.mode != Data then Tally(0, 0, 1) else Tally(0, 0, 0)
    case _ => Tally(0, 0, 0)
  }

  /** The counts of a sequence of changes, accumulated from the front. */
  function Counts(rs: seq<ResourceChange>): Tally
  {
    if |rs| == 0 then Tally(0, 0, 0) else Counts(rs[..|rs| - 1]).Plus(Contribution(rs[|rs| - 1]))
  }

  /** `Changes.Empty()`: every change is a no-op. */
  predicate ChangesEmpty(rs: seq<ResourceChange>)
  {
    forall i | 0 <= i < |rs| :: rs[i].action == NoOp
  }

  /** The plan gives nothing to count: nil, without changes, or empty. */
  predicate NothingToCount(plan: Option<Plan>)
  {
    plan.None? || plan.value.changes.None? || ChangesEmpty(plan.value.changes.value)
  }

  /** The summary line; the wording says whether the counts are planned or
      done. */
  function Render(t: Tally, fromPlan: bool): string
  {
    "resources: " + (IntToString(t.add) + AddTail(t, fromPlan))
  }

  function AddTail(t: Tally, fromPlan: bool): string
  {
    (if fromPlan then " to add, " else " added, ") + (IntToString(t.change) + ChangeTail(t.destroy, fromPlan))
  }

  function ChangeTail(destroy: int, fromPlan: bool): string
  {
    (if fromPlan then " to change, " else " changed, ") + (IntToString(destroy) + (if fromPlan then " to destroy" else " destroyed"))
  }

  class Stats {
    var add: int
    var change: int
    var destroy: int
    var fromPlan: bool

    /** `NewStats`: all zero, not from a plan. */
    constructor ()
      ensures add == 0 && change == 0 && destroy == 0 && !fromPlan
    {
      add, change, destroy, fromPlan := 0, 0, 0, false;
    }

    function Tallied(): Tally
      reads this
    {
      Tally(add, change, destroy)
    }

    /** `FromPlan`: a plan with nothing to count leaves the receiver as it was;
        otherwise the counts are those of the plan's changes and are marked as
        planned. */
    method FromPlan(plan: Option<Plan>) returns (r: Stats)
      modifies this
      ensures r == this
      ensures NothingToCount(plan) ==> Tallied() == old(Tallied()) && fromPlan == old(fromPlan)
      ensures !NothingToCount(plan) ==> Tallied() == Counts(plan.value.changes.value) && fromPlan
    {
      if plan.None? || plan.value.changes.None? || ChangesEmpty(plan.value.changes.value) {
        return this;
      }
      add, change, destroy := 0, 0, 0;
      fromPlan := true;
      var rs := plan.value.changes.value;
      var i := 0;
      while i < |rs|
        invariant 0 <= i <= |rs| && fromPlan
        invariant Tallied() == Counts(rs[..i])
      {
        assert rs[..i + 1][..i] == rs[..i];
        match rs[i].action {
          case Create => add := add + 1;
          case Update => change := change + 1;
          case DeleteThenCreate => add := add + 1; destroy := destroy + 1;
          case CreateThenDelete => add := add + 1; destroy := destroy + 1;
          case Delete =>
            if rs[i].mode != Data {
              destroy := destroy + 1;
            }
          case _ =>
        }
        i := i + 1;
      }
      assert rs[..i] == rs;
      r := this;
    }

    /** `FromCountHook`: the applied counts replace the receiver's, the
        planned ones are ignored; a nil hook changes nothing. */
    method FromCountHook(hook: Option<CountHook>) returns (r: Stats)
      modifies this
      ensures r == this && fromPlan == old(fromPlan)
      ensures hook.None? ==> Tallied() == old(Tallied())
      ensures hook.Some? ==> Tallied() == Tally(hook.value.added, hook.value.changed, hook.value.removed)
    {
      if hook.None? {
        return this;
      }
      add, change, destroy := hook.value.added, hook.value.changed, hook.value.removed;
      r := this;
    }

    /** `String`. */
    function String(): string
      reads this
    {
      Render(Tallied(), fromPlan)
    }
  }

  // ---------------------------------------------------------------------
  // Properties

  lemma ContributionBounds(c: ResourceChange)
    ensures var t := Contribution(c);
      0 <= t.add <= 1 && 0 <= t.change <= 1 && 0 <= t.destroy <= 1 && t.add + t.change <= 1
  {
  }

  /** Counting is additive over a split of the changes. */
  lemma {:induction false} CountsAppend(a: seq<ResourceChange>, b: seq<ResourceChange>)
    ensures Counts(a + b) == Counts(a).Plus(Counts(b))
    decreases |b|
  {
    if |b| == 0 {
      assert a + b == a;
    } else {
      var b' := b[..|b| - 1];
      var last := b[|b| - 1];
      assert (a + b)[..|a + b| - 1] == a + b';
      assert (a + b)[|a + b| - 1] == last;
      CountsAppend(a, b');
      var c := Contribution(last);
      assert Counts(a + b) == Counts(a + b').Plus(c);
      assert Counts(b) == Counts(b').Plus(c);
    }
  }

  lemma CountsSingle(x: ResourceChange)
    ensures Counts([x]) == Contribution(x)
  {
    assert [x][..0] == [];
  }

  /** Taking one change out of the middle takes out its contribution. */
  lemma CountsRemoveAt(b: seq<ResourceChange>, j: nat)
    requires j < |b|
    ensures Counts(b) == Counts(b[..j] + b[j + 1..]).Plus(Contribution(b[j]))
  {
    SplitAt(b, j);
    CountsInsert(b[..j], b[j], b[j + 1..]);
  }

  lemma CountsInsert(p: seq<ResourceChange>, x: ResourceChange, q: seq<ResourceChange>)
    ensures Counts((p + [x]) + q) == Counts(p + q).Plus(Contribution(x))
  {
    CountsAppend(p + [x], q);
    CountsAppend(p, [x]);
    CountsAppend(p, q);
    CountsSingle(x);
    var tp, tq, tx := Counts(p), Counts(q), Contribution(x);
    assert Counts((p + [x]) + q) == tp.Plus(tx).Plus(tq);
    assert Counts(p + q) == tp.Plus(tq);
    assert tp.Plus(tx).Plus(tq) == tp.Plus(tq).Plus(tx) by {
      assert tp.add + tx.add + tq.add == tp.add + tq.add + tx.add;
      assert tp.change + tx.change + tq.change == tp.change + tq.change + tx.change;
      assert tp.destroy + tx.destroy + tq.destroy == tp.destroy + tq.destroy + tx.destroy;
    }
  }

  lemma SplitAt<T>(b: seq<T>, j: nat)
    requires j < |b|
    ensures b == (b[..j] + [b[j]]) + b[j + 1..]
  {
  }

  lemma MultisetRemoveLast(a: seq<ResourceChange>, b: seq<ResourceChange>, j: nat)
    requires |a| > 0 && j < |b| && b[j] == a[|a| - 1] && multiset(a) == multiset(b)
    ensures multiset(a[..|a| - 1]) == multiset(b[..j] + b[j + 1..])
  {
    var last := a[|a| - 1];
    var a', b' := a[..|a| - 1], b[..j] + b[j + 1..];
    assert a == a' + [last];
    assert b == b[..j] + [b[j]] + b[j + 1..];
    assert multiset(a') + multiset{last} == multiset(b') + multiset{last};
    forall x ensures multiset(a')[x] == multiset(b')[x] {
      assert (multiset(a') + multiset{last})[x] == (multiset(b') + multiset{last})[x];
    }
  }

  /** The counts do not depend on the order the changes come in. */
  lemma {:induction false} CountsPermutation(a: seq<ResourceChange>, b: seq<ResourceChange>)
    requires multiset(a) == multiset(b)
    ensures Counts(a) == Counts(b)
    decreases |a|
  {
    if |a| > 0 {
      var last := a[|a| - 1];
      assert last in multiset(b) by {
        assert last in multiset(a);
      }
      var j :| 0 <= j < |b| && b[j] == last;
      MultisetRemoveLast(a, b, j);
      CountsPermutation(a[..|a| - 1], b[..j] + b[j + 1..]);
      CountsRemoveAt(b, j);
    } else {
      assert b == [] by {
        assert |multiset(b)| == 0;
      }
    }
  }

  /** Counts are non-negative, and no count exceeds the number of changes;
      every replacement is both an addition and a destruction. */
  lemma {:induction false} CountsBounds(rs: seq<ResourceChange>)
    ensures var t := Counts(rs);
      0 <= t.add <= |rs| && 0 <= t.change <= |rs| && 0 <= t.destroy <= |rs|
      && t.add + t.change <= |rs|
  {
    if |rs| > 0 {
      CountsBounds(rs[..|rs| - 1]);
      ContributionBounds(rs[|rs| - 1]);
    }
  }

  lemma ContributionZero(c: ResourceChange)
    requires c.action in {NoOp, Read} || c == ResourceChange(Delete, Data)
    ensures Contribution(c) == Tally(0, 0, 0)
  {
  }

  /** A change set with nothing but no-ops, reads and data-source deletions
      counts zero. */
  lemma {:induction false} CountsZero(rs: seq<ResourceChange>)
    requires forall i | 0 <= i < |rs| :: rs[i].action in {NoOp, Read} || rs[i] == ResourceChange(Delete, Data)
    ensures Counts(rs) == Tally(0, 0, 0)
  {
    if |rs| > 0 {
      CountsZero(rs[..|rs| - 1]);
      ContributionZero(rs[|rs| - 1]);
    }
  }

  lemma DropPrefix(p: string, x: string, y: string)
    requires p + x == p + y
    ensures x == y
  {
    assert x == (p + x)[|p|..];
    assert y == (p + y)[|p|..];
  }

  /** The rendering of one number followed by a space-led tail determines
      both. */
  lemma IntFieldUnique(a: int, x: string, b: int, y: string)
    requires |x| > 0 && |y| > 0 && x[0] == ' ' && y[0] == ' '
    requires IntToString(a) + x == IntToString(b) + y
    ensures a == b && x == y
  {
    var sa, sb := IntToString(a), IntToString(b);
    assert sa == (sa + x)[..|sa|] == (sb + y)[..|sb|] == sb;
    assert x == (sa + x)[|sa|..] == (sb + y)[|sb|..] == y;
  }

  lemma ChangeTailInjective(d1: int, d2: int, p: bool)
    requires ChangeTail(d1, p) == ChangeTail(d2, p)
    ensures d1 == d2
  {
    var e := if p then " to destroy" else " destroyed";
    DropPrefix(if p then " to change, " else " changed, ", IntToString(d1) + e, IntToString(d2) + e);
    IntFieldUnique(d1, e, d2, e);
  }

  lemma AddTailWording(t: Tally, p: bool)
    ensures |AddTail(t, p)| > 1 && AddTail(t, p)[1] == (if p then 't' else 'a')
  {
    var w := if p then " to add, " else " added, ";
    var rest := IntToString(t.change) + ChangeTail(t.destroy, p);
    assert AddTail(t, p) == w + rest;
    ConcatIndex(w, rest, 1);
  }

  lemma ConcatIndex<T>(w: seq<T>, rest: seq<T>, i: nat)
    requires i < |w|
    ensures |w + rest| > i && (w + rest)[i] == w[i]
  {
  }

  lemma AddTailInjective(t1: Tally, p1: bool, t2: Tally, p2: bool)
    requires AddTail(t1, p1) == AddTail(t2, p2)
    ensures p1 == p2 && t1.change == t2.change && t1.destroy == t2.destroy
  {
    AddTailWording(t1, p1);
    AddTailWording(t2, p2);
    var w := if p1 then " to add, " else " added, ";
    DropPrefix(w, IntToString(t1.change) + ChangeTail(t1.destroy, p1), IntToString(t2.change) + ChangeTail(t2.destroy, p2));
    IntFieldUnique(t1.change, ChangeTail(t1.destroy, p1), t2.change, ChangeTail(t2.destroy, p2));
    ChangeTailInjective(t1.destroy, t2.destroy, p1);
  }

  /** The summary loses nothing: equal summaries come from equal counts with
      the same wording. */
  lemma RenderInjective(t1: Tally, p1: bool, t2: Tally, p2: bool)
    requires Render(t1, p1) == Render(t2, p2)
    ensures t1 == t2 && p1 == p2
  {
    DropPrefix("resources: ", IntToString(t1.add) + AddTail(t1, p1), IntToString(t2.add) + AddTail(t2, p2));
    IntFieldUnique(t1.add, AddTail(t1, p1), t2.add, AddTail(t2, p2));
    AddTailInjective(t1, p1, t2, p2);
  }
}
