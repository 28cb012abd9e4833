/**
 * The action log of the billing module: the entries `recordAction` appends and
 * the per-type filtering and summing that `actionsFor`, `getTotal` and
 * `grandTotal` perform over it.
 */
module ActionLog {
  import opened JsNumbers

  /** One recorded action: the type the caller gave, the cost copied from the
      settings at the time it was recorded, and an opaque timestamp. */
  datatype Action = Action(kind: string, cost: JsNumber, timestamp: int)

  /** The entries of `log` whose type is `kind`, in log order. */
  function Filter(log: seq<Action>, kind: string): (r: seq<Action>)
  {
    if log == [] then []
    else
      var rest := Filter(log[..|log| - 1], kind);
      if log[|log| - 1].kind == kind then rest + [log[|log| - 1]] else rest
  }

  /** The running JavaScript sum `0 + c0 + c1 + ...` of the costs, in order. */
  function SumCosts(actions: seq<Action>): (r: JsNumber)
    ensures !r.Undefined?
  {
    if actions == [] then Num(0.0)
    else Plus(SumCosts(actions[..|actions| - 1]), actions[|actions| - 1].cost)
  }

  /** `getTotal(kind)`: the sum of the costs of the entries of type `kind`. */
  function Total(log: seq<Action>, kind: string): JsNumber
  {
    SumCosts(Filter(log, kind))
  }

  /** `grandTotal()`: the sms total plus the call total. */
  function GrandTotal(log: seq<Action>): JsNumber
  {
    Plus(Total(log, "sms"), Total(log, "call"))
  }

  /** The types of the entries of `log`, in order. */
  function Kinds(log: seq<Action>): (r: seq<string>)
    ensures |r| == |log|
    ensures forall i :: 0 <= i < |log| ==> r[i] == log[i].kind
  {
    seq(|log|, i requires 0 <= i < |log| => log[i].kind)
  }

  /** Appending one entry extends the filtered log by that entry exactly when
      its type matches. */
  lemma FilterAppendOne(log: seq<Action>, a: Action, kind: string)
    ensures Filter(log + [a], kind) == Filter(log, kind) + (if a.kind == kind then [a] else [])
  {
    assert (log + [a])[..|log|] == log;
  }

  /** Filtering distributes over concatenation: together with FilterAppendOne
      this says the result is the in-order subsequence of matching entries. */
  lemma {:induction false} FilterAppend(a: seq<Action>, b: seq<Action>, kind: string)
    ensures Filter(a + b, kind) == Filter(a, kind) + Filter(b, kind)
    decreases |b|
  {
    if b == [] {
      assert a + b == a;
    } else {
      var b' := b[..|b| - 1];
      var x := b[|b| - 1];
      assert b == b' + [x];
      assert a + b == (a + b') + [x];
      FilterAppend(a, b', kind);
      FilterAppendOne(a + b', x, kind);
      FilterAppendOne(b', x, kind);
    }
  }

  /** Every entry of the filtered log has the requested type and occurs in the log. */
  lemma {:induction false} FilterSound(log: seq<Action>, kind: string)
    ensures forall i :: 0 <= i < |Filter(log, kind)| ==> Filter(log, kind)[i].kind == kind
    ensures forall x :: x in Filter(log, kind) ==> x in log
  {
    if log != [] {
      var p := log[..|log| - 1];
      FilterSound(p, kind);
      FilterAppendOne(p, log[|log| - 1], kind);
      assert log == p + [log[|log| - 1]];
    }
  }

  /** The filtered log is empty exactly when no entry has the requested type. */
  lemma {:induction false} FilterEmptyIff(log: seq<Action>, kind: string)
    ensures Filter(log, kind) == [] <==> forall i :: 0 <= i < |log| ==> log[i].kind != kind
  {
    if log != [] {
      var p := log[..|log| - 1];
      FilterEmptyIff(p, kind);
      FilterAppendOne(p, log[|log| - 1], kind);
      assert log == p + [log[|log| - 1]];
      assert forall i :: 0 <= i < |p| ==> p[i] == log[i];
    }
  }

  /** The filtered log has as many entries as the log has entries of that type. */
  lemma {:induction false} FilterCount(log: seq<Action>, kind: string)
    ensures |Filter(log, kind)| == multiset(Kinds(log))[kind]
  {
    if log != [] {
      var p := log[..|log| - 1];
      var x := log[|log| - 1];
      FilterCount(p, kind);
      assert Kinds(log) == Kinds(p) + [x.kind];
    }
  }

  /** A total is a number exactly when every cost it adds up is a number; a
      single `undefined` cost turns the total into `NaN` for good. */
  lemma {:induction false} SumCostsIsNumber(actions: seq<Action>)
    ensures SumCosts(actions).Num? <==> forall i :: 0 <= i < |actions| ==> actions[i].cost.Num?
  {
    if actions != [] {
      var p := actions[..|actions| - 1];
      SumCostsIsNumber(p);
      assert forall i :: 0 <= i < |p| ==> p[i] == actions[i];
    }
  }

  /** Costs of non-negative numbers add up to a non-negative number. */
  lemma {:induction false} SumCostsNonNegative(actions: seq<Action>)
    requires forall i :: 0 <= i < |actions| ==> actions[i].cost.Num? && actions[i].cost.value >= 0.0
    ensures SumCosts(actions).Num? && SumCosts(actions).value >= 0.0
  {
    if actions != [] {
      var p := actions[..|actions| - 1];
      assert forall i :: 0 <= i < |p| ==> p[i] == actions[i];
      SumCostsNonNegative(p);
    }
  }

  /** Appending one entry adds its cost to the total of its own type and leaves
      the total of every other type as it was. */
  lemma TotalAppendOne(log: seq<Action>, a: Action, kind: string)
    ensures Total(log + [a], kind) == if a.kind == kind then Plus(Total(log, kind), a.cost) else Total(log, kind)
  {
    FilterAppendOne(log, a, kind);
    var f := Filter(log, kind);
    if a.kind == kind {
      assert (f + [a])[..|f|] == f;
    }
  }

  /** Appending an sms or call entry adds its cost to the grand total; an entry
      of any other type leaves the grand total unchanged. */
  lemma GrandTotalAppendOne(log: seq<Action>, a: Action)
    ensures GrandTotal(log + [a]) ==
              if a.kind == "sms" || a.kind == "call" then Plus(GrandTotal(log), a.cost) else GrandTotal(log)
  {
    TotalAppendOne(log, a, "sms");
    TotalAppendOne(log, a, "call");
    PlusRegroup(Total(log, "sms"), Total(log, "call"), a.cost);
    PlusRegroup(Total(log, "sms"), a.cost, Total(log, "call"));
  }
}
