/** What the engine promises for any list of steps: which steps run, in which order they are
    compensated, and when a compensated failure leaves the stores as they were. */
module SagaRollback {
  import opened Sequences
  import opened Stores
  import opened Saga

  // ---------------------------------------------------------------- scripts

  /** The stores after the first k operations of a script. */
  function After(ops: seq<Op>, k: nat, s: Stores): Stores
    requires k <= |ops|
  {
    if k == 0 then s else Apply(ops[k - 1], After(ops, k - 1, s))
  }

  predicate Accepted(ops: seq<Op>, k: nat, s: Stores)
    requires k <= |ops|
  {
    k == 0 || (Accepted(ops, k - 1, s) && Accepts(ops[k - 1], After(ops, k - 1, s)))
  }

  /** A script takes effect up to some operation k and stops there; it succeeds iff k is its end. */
  lemma {:induction false} ScriptShape(f: Oracle, w: World, ops: seq<Op>, i: nat, s: Stores) returns (k: nat)
    requires i <= |ops| && Accepted(ops, i, s) && w.stores == After(ops, i, s)
    ensures i <= k <= |ops| && Accepted(ops, k, s)
    ensures RunScript(f, w, ops, i).0.stores == After(ops, k, s)
    ensures RunScript(f, w, ops, i).1 <==> k == |ops|
    ensures RunScript(f, w, ops, i).0.events == w.events
    decreases |ops| - i
  {
    if i == |ops| {
      k := i;
    } else {
      var (w1, ok) := Call(f, w, ops[i]);
      if ok {
        k := ScriptShape(f, w1, ops, i + 1, s);
      } else {
        k := i;
      }
    }
  }

  // ---------------------------------------------------------------- the order of steps

  function Names(steps: seq<Step>, n: nat): seq<StepName>
    requires n <= |steps|
  {
    seq(n, i requires 0 <= i < n => steps[i].name)
  }

  function Executes(steps: seq<Step>, n: nat): seq<Event>
    requires n <= |steps|
  {
    seq(n, i requires 0 <= i < n => Execute(steps[i].name))
  }

  function CompensatesDown(steps: seq<Step>, n: nat): seq<Event>
    requires n <= |steps|
  {
    seq(n, i requires 0 <= i < n => Compensate(steps[n - 1 - i].name))
  }

  function NamesDown(steps: seq<Step>, n: nat): seq<StepName>
    requires n <= |steps|
  {
    seq(n, i requires 0 <= i < n => steps[n - 1 - i].name)
  }

  lemma StepEvents(f: Oracle, w: World, step: Step)
    ensures ExecuteStep(f, w, step).0.events == w.events + [Execute(step.name)]
    ensures CompensateStep(f, w, step).0.events == w.events + [Compensate(step.name)]
  {
    var _ := ScriptShape(f, w.(events := w.events + [Execute(step.name)]), step.execute, 0, w.stores);
    var _ := ScriptShape(f, w.(events := w.events + [Compensate(step.name)]), step.compensate, 0, w.stores);
  }

  lemma {:induction false} NamesDownStep(steps: seq<Step>, n: nat)
    requires 0 < n <= |steps|
    ensures NamesDown(steps, n) == [steps[n - 1].name] + NamesDown(steps, n - 1)
    ensures CompensatesDown(steps, n) == [Compensate(steps[n - 1].name)] + CompensatesDown(steps, n - 1)
    ensures NamesDown(steps, n)[1..] == NamesDown(steps, n - 1)
  {
  }

  lemma {:induction false} CompensateDownOrder(f: Oracle, w: World, steps: seq<Step>, n: nat, r: Result)
    returns (done: seq<StepName>)
    requires n <= |steps|
    ensures Subsequence(done, NamesDown(steps, n))
    ensures CompensateDown(f, w, steps, n, r).1 == r.(compensated := r.compensated + done)
    ensures CompensateDown(f, w, steps, n, r).0.events == w.events + CompensatesDown(steps, n)
    decreases n
  {
    if n == 0 {
      done := [];
      assert r.compensated + [] == r.compensated;
    } else {
      StepEvents(f, w, steps[n - 1]);
      var (w1, ok) := CompensateStep(f, w, steps[n - 1]);
      var name := steps[n - 1].name;
      var r1 := if ok then r.(compensated := r.compensated + [name]) else r;
      var rest := CompensateDownOrder(f, w1, steps, n - 1, r1);
      NamesDownStep(steps, n);
      if ok {
        done := [name] + rest;
        assert done[1..] == rest;
        assert r.compensated + done == r1.compensated + rest;
      } else {
        done := rest;
        SubsequenceSkip(rest, name, NamesDown(steps, n - 1));
      }
    }
  }

  /** The result of a run in which exactly the first n steps succeeded. */
  predicate Ordered(steps: seq<Step>, n: nat, r: Result)
    requires n <= |steps|
  {
    && r.executed == Names(steps, n)
    && (r.success <==> n == |steps|)
    && (r.success ==> r.compensated == [] && r.failed == None)
    && (!r.success ==> r.failed == Some(steps[n].name) && Subsequence(r.compensated, NamesDown(steps, n)))
  }

  lemma {:induction false} ExecuteOrder(f: Oracle, w: World, steps: seq<Step>, i: nat, r: Result)
    returns (n: nat)
    requires i <= |steps| && r.success && r.compensated == [] && r.failed == None && r.executed == Names(steps, i)
    requires exists before :: w.events == before + Executes(steps, i)
    ensures n <= |steps|
    ensures Ordered(steps, n, ExecuteFrom(f, w, steps, i, r).1)
    ensures forall before :: w.events == before + Executes(steps, i) ==>
      ExecuteFrom(f, w, steps, i, r).0.events ==
        if n == |steps| then before + Executes(steps, n)
        else before + Executes(steps, n + 1) + CompensatesDown(steps, n)
    decreases |steps| - i
  {
    var before :| w.events == before + Executes(steps, i);
    assert forall b :: w.events == b + Executes(steps, i) ==> b == w.events[..|w.events| - i] == before;
    if i == |steps| {
      n := i;
    } else {
      StepEvents(f, w, steps[i]);
      var (w1, ok) := ExecuteStep(f, w, steps[i]);
      assert Executes(steps, i) + [Execute(steps[i].name)] == Executes(steps, i + 1);
      assert w1.events == before + Executes(steps, i + 1);
      if ok {
        var r1 := r.(executed := r.executed + [steps[i].name]);
        assert r1.executed == Names(steps, i + 1);
        n := ExecuteOrder(f, w1, steps, i + 1, r1);
      } else {
        n := i;
        var r1 := r.(success := false, failed := Some(steps[i].name));
        var done := CompensateDownOrder(f, w1, steps, i, r1);
        assert [] + done == done;
      }
    }
  }

  /** For any steps and any failures: steps 0..n-1 succeed; if n is not the end, step n fails and then
      every executed step is compensated exactly once, newest first, whatever compensations fail; the
      failing step is never compensated.  The result names exactly this. */
  lemma Rollback(f: Oracle, w: World, steps: seq<Step>) returns (n: nat)
    ensures n <= |steps|
    ensures Ordered(steps, n, RunSteps(f, w, steps).1)
    ensures RunSteps(f, w, steps).0.events == w.events +
      if n == |steps| then Executes(steps, n) else Executes(steps, n + 1) + CompensatesDown(steps, n)
  {
    assert w.events == w.events + Executes(steps, 0);
    n := ExecuteOrder(f, w, steps, 0, STARTED);
    if n < |steps| {
      assert w.events + Executes(steps, n + 1) + CompensatesDown(steps, n)
          == w.events + (Executes(steps, n + 1) + CompensatesDown(steps, n));
    }
  }

  // ---------------------------------------------------------------- restoring the start

  /** In state s: undoing the completed step gives s back, and a step that stops half way has changed nothing. */
  ghost predicate Undoes(step: Step, s: Stores) {
    && (forall k :: 0 <= k < |step.execute| && Accepted(step.execute, k, s) ==> After(step.execute, k, s) == s)
    && (Accepted(step.execute, |step.execute|, s) ==>
          var s' := After(step.execute, |step.execute|, s);
          Accepted(step.compensate, |step.compensate|, s') ==>
            After(step.compensate, |step.compensate|, s') == s)
  }

  /** The state in which step i starts when all steps before it succeeded. */
  function StateAt(steps: seq<Step>, i: nat, s: Stores): Stores
    requires i <= |steps|
  {
    if i == 0 then s else
      var ops := steps[i - 1].execute;
      After(ops, |ops|, StateAt(steps, i - 1, s))
  }

  ghost predicate Completes(steps: seq<Step>, i: nat, s: Stores)
    requires i < |steps|
  {
    Accepted(steps[i].execute, |steps[i].execute|, StateAt(steps, i, s))
  }

  ghost predicate Reverts(steps: seq<Step>, i: nat, s: Stores)
    requires i < |steps|
  {
    Undoes(steps[i], StateAt(steps, i, s))
  }

  lemma ExecuteAt(f: Oracle, w: World, steps: seq<Step>, i: nat, s: Stores)
    requires i < |steps| && w.stores == StateAt(steps, i, s) && Reverts(steps, i, s)
    ensures var (w', ok) := ExecuteStep(f, w, steps[i]);
      && (ok ==> Completes(steps, i, s) && w'.stores == StateAt(steps, i + 1, s))
      && (!ok ==> w'.stores == StateAt(steps, i, s))
  {
    var k := ScriptShape(f, w.(events := w.events + [Execute(steps[i].name)]), steps[i].execute, 0, w.stores);
  }

  lemma CompensateAt(f: Oracle, w: World, steps: seq<Step>, i: nat, s: Stores)
    requires i < |steps| && w.stores == StateAt(steps, i + 1, s) && Completes(steps, i, s) && Reverts(steps, i, s)
    ensures var (w', ok) := CompensateStep(f, w, steps[i]);
      ok ==> w'.stores == StateAt(steps, i, s)
  {
    var k := ScriptShape(f, w.(events := w.events + [Compensate(steps[i].name)]), steps[i].compensate, 0, w.stores);
  }

  lemma {:induction false} CompensateCounts(f: Oracle, w: World, steps: seq<Step>, n: nat, r: Result)
    requires n <= |steps|
    ensures |CompensateDown(f, w, steps, n, r).1.compensated| <= |r.compensated| + n
    ensures CompensateDown(f, w, steps, n, r).1.executed == r.executed
    ensures !r.success ==> !CompensateDown(f, w, steps, n, r).1.success
    decreases n
  {
    if n > 0 {
      var (w1, ok) := CompensateStep(f, w, steps[n - 1]);
      var r1 := if ok then r.(compensated := r.compensated + [steps[n - 1].name]) else r;
      CompensateCounts(f, w1, steps, n - 1, r1);
    }
  }

  lemma {:induction false} CompensateRestores(f: Oracle, w: World, steps: seq<Step>, n: nat, r: Result, s: Stores)
    requires n <= |steps| && w.stores == StateAt(steps, n, s)
    requires forall i :: 0 <= i < n ==> Reverts(steps, i, s) && Completes(steps, i, s)
    ensures |CompensateDown(f, w, steps, n, r).1.compensated| == |r.compensated| + n ==>
      CompensateDown(f, w, steps, n, r).0.stores == s
    decreases n
  {
    if n > 0 {
      CompensateAt(f, w, steps, n - 1, s);
      var (w1, ok) := CompensateStep(f, w, steps[n - 1]);
      var r1 := if ok then r.(compensated := r.compensated + [steps[n - 1].name]) else r;
      CompensateCounts(f, w1, steps, n - 1, r1);
      if ok {
        CompensateRestores(f, w1, steps, n - 1, r1, s);
      }
    }
  }

  lemma {:induction false} ExecuteRestores(f: Oracle, w: World, steps: seq<Step>, i: nat, r: Result, s: Stores)
    requires i <= |steps| && w.stores == StateAt(steps, i, s)
    requires r.success && r.compensated == [] && |r.executed| == i
    requires forall j :: 0 <= j < |steps| ==> Reverts(steps, j, s)
    requires forall j :: 0 <= j < i ==> Completes(steps, j, s)
    ensures var (w', r') := ExecuteFrom(f, w, steps, i, r);
      !r'.success && |r'.compensated| == |r'.executed| ==> w'.stores == s
    decreases |steps| - i
  {
    if i < |steps| {
      ExecuteAt(f, w, steps, i, s);
      var (w1, ok) := ExecuteStep(f, w, steps[i]);
      if ok {
        ExecuteRestores(f, w1, steps, i + 1, r.(executed := r.executed + [steps[i].name]), s);
      } else {
        var r1 := r.(success := false, failed := Some(steps[i].name));
        CompensateRestores(f, w1, steps, i, r1, s);
        CompensateCounts(f, w1, steps, i, r1);
      }
    }
  }

  /** If every step undoes itself where it starts, a failed run whose executed steps were all
      compensated ends in the state it started from. */
  lemma FullRollbackRestores(f: Oracle, w: World, steps: seq<Step>)
    requires forall i :: 0 <= i < |steps| ==> Reverts(steps, i, w.stores)
    ensures var (w', r) := RunSteps(f, w, steps);
      !r.success && |r.compensated| == |r.executed| ==> w'.stores == w.stores
  {
    ExecuteRestores(f, w, steps, 0, STARTED, w.stores);
  }
}
