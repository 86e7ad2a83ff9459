/** The coordinator as the program runs it: an object that calls repositories one after another,
    remembers the executed steps and writes its progress into a result object.  Every method is proved
    to do what the functions of module Saga say. */
module SagaCoordinator {
  import opened Stores
  import opened Saga
  import opened SagaRollback

  class SagaResult {
    var success: bool
    var executedSteps: seq<StepName>
    var compensatedSteps: seq<StepName>
    var failedStep: Option<StepName>
    var stepResults: map<StepName, bool>  // whether the step succeeded

    ghost function View(): Result
      reads this
    {
      Result(success, executedSteps, compensatedSteps, failedStep)
    }

    /** There is a step result for every step executed and for the one that failed, except some. */
    ghost predicate Recorded(except: set<StepName>)
      reads this
    {
      && (forall n :: n in stepResults <==> (n in executedSteps || failedStep == Some(n)) && n !in except)
      && (forall n :: n in stepResults ==> (stepResults[n] <==> failedStep != Some(n)))
    }

    constructor (success: bool, executed: seq<StepName>, compensated: seq<StepName>, failed: Option<StepName>,
                 results: map<StepName, bool>)
      ensures View() == Result(success, executed, compensated, failed) && stepResults == results
    {
      this.success, executedSteps, compensatedSteps, failedStep := success, executed, compensated, failed;
      stepResults := results;
    }

    method AddExecuted(name: StepName, stepResult: bool)
      modifies this
      ensures View() == old(View()).(executed := old(executedSteps) + [name])
      ensures stepResults == old(stepResults)[name := stepResult]
    {
      executedSteps := executedSteps + [name];
      stepResults := stepResults[name := stepResult];
    }

    method AddCompensated(name: StepName)
      modifies this
      ensures View() == old(View()).(compensated := old(compensatedSteps) + [name])
      ensures stepResults == old(stepResults)
    {
      compensatedSteps := compensatedSteps + [name];
    }

    method Fail(name: StepName)
      modifies this
      ensures View() == old(View()).(success := false, failed := Some(name))
      ensures stepResults == old(stepResults)[name := false]
    {
      success := false;
      failedStep := Some(name);
      stepResults := stepResults[name := false];
    }
  }

  lemma {:induction false} CompensatePrefix(f: Oracle, w: World, steps: seq<Step>, i: nat, n: nat, r: Result)
    requires n <= i <= |steps|
    ensures CompensateDown(f, w, steps[..i], n, r) == CompensateDown(f, w, steps, n, r)
    decreases n
  {
    if n > 0 {
      var (w1, ok) := CompensateStep(f, w, steps[n - 1]);
      var r1 := if ok then r.(compensated := r.compensated + [steps[n - 1].name]) else r;
      CompensatePrefix(f, w1, steps, i, n - 1, r1);
    }
  }

  /** A run names none but its own steps, and no failed one if it succeeds. */
  lemma {:induction false} StepNames(f: Oracle, w: World, steps: seq<Step>)
    ensures var r := RunSteps(f, w, steps).1;
      && (forall n :: n in r.executed || r.failed == Some(n) ==> exists i :: 0 <= i < |steps| && steps[i].name == n)
      && (r.success ==> r.failed == None)
  {
    var n := Rollback(f, w, steps);
  }

  class SagaCoordinator {
    const oracle: Oracle
    var stores: Stores
    var calls: nat
    ghost var history: seq<Stores>
    ghost var events: seq<Event>

    ghost function Now(): World
      reads this
    {
      World(stores, calls, history, events)
    }

    constructor (oracle: Oracle, stores: Stores)
      ensures this.oracle == oracle && Now() == World(stores, 0, [stores], [])
    {
      this.oracle, this.stores, calls := oracle, stores, 0;
      history, events := [stores], [];
    }

    /** One repository call. */
    method Invoke(op: Op) returns (ok: bool)
      modifies this
      ensures (Now(), ok) == Call(oracle, old(Now()), op)
    {
      ok := oracle(calls) && Accepts(op, stores);
      if ok {
        stores := Apply(op, stores);
      }
      calls := calls + 1;
      history := history + [stores];
    }

    /** The calls of a step up to the first that raises. */
    method InvokeAll(ops: seq<Op>) returns (ok: bool)
      modifies this
      ensures (Now(), ok) == RunScript(oracle, old(Now()), ops, 0)
    {
      ok := true;
      var i := 0;
      while i < |ops|
        invariant i <= |ops| && ok
        invariant RunScript(oracle, old(Now()), ops, 0) == RunScript(oracle, Now(), ops, i)
      {
        ok := Invoke(ops[i]);
        if !ok {
          return;
        }
        i := i + 1;
      }
    }

    method Execute(step: Step) returns (ok: bool)
      modifies this
      ensures (Now(), ok) == ExecuteStep(oracle, old(Now()), step)
    {
      events := events + [Event.Execute(step.name)];
      ok := InvokeAll(step.execute);
    }

    method Compensate(step: Step) returns (ok: bool)
      modifies this
      ensures (Now(), ok) == CompensateStep(oracle, old(Now()), step)
    {
      events := events + [Event.Compensate(step.name)];
      ok := InvokeAll(step.compensate);
    }

    /** Compensate the executed steps, newest first, going on past compensations that fail. */
    method CompensateSteps(executed: seq<Step>, result: SagaResult)
      modifies this, result
      ensures (Now(), result.View())
           == CompensateDown(oracle, old(Now()), executed, |executed|, old(result.View()))
      ensures result.stepResults == old(result.stepResults)
      ensures result.executedSteps == old(result.executedSteps) && result.failedStep == old(result.failedStep)
    {
      var n: nat := |executed|;
      while n > 0
        invariant n <= |executed|
        invariant CompensateDown(oracle, old(Now()), executed, |executed|, old(result.View()))
               == CompensateDown(oracle, Now(), executed, n, result.View())
        invariant result.stepResults == old(result.stepResults)
        invariant result.executedSteps == old(result.executedSteps) && result.failedStep == old(result.failedStep)
      {
        var step := executed[n - 1];
        var ok := Compensate(step);
        if ok {
          result.AddCompensated(step.name);
        }
        n := n - 1;
      }
    }

    method ExecuteSteps(steps: seq<Step>) returns (result: SagaResult)
      modifies this
      ensures fresh(result)
      ensures (Now(), result.View()) == RunSteps(oracle, old(Now()), steps)
      ensures result.Recorded({})
    {
      result := new SagaResult(true, [], [], None, map[]);
      var executed: seq<Step> := [];
      var i := 0;
      while i < |steps|
        invariant i <= |steps| && executed == steps[..i] && fresh(result)
        invariant RunSteps(oracle, old(Now()), steps)
               == ExecuteFrom(oracle, Now(), steps, i, result.View())
        invariant result.Recorded({}) && result.failedStep.None?
      {
        var step := steps[i];
        var ok := Execute(step);
        if ok {
          result.AddExecuted(step.name, ok);
          executed := executed + [step];
        } else {
          result.Fail(step.name);
          CompensatePrefix(oracle, Now(), steps, i, i, result.View());
          CompensateSteps(executed, result);
          return;
        }
        i := i + 1;
      }
    }

    /** The result is null when the embedding service raised. */
    method ExecuteCreateSaga(req: Request) returns (result: SagaResult?)
      requires req.CreateSaga?
      modifies this
      ensures result != null ==> fresh(result)
      ensures (Now(), if result == null then Raised else Returned(result.View())) == RunSaga(oracle, old(Now()), req)
      ensures result != null ==> result.Recorded({})
    {
      var encoded := Encode(req.given, req.encoder, req.chunks);
      if encoded.Exception? {
        return null;
      }
      result := ExecuteSteps(CreateSteps(req.doc, req.chunks, encoded.embeddings));
    }

    method ExecuteDeleteSaga(docUuid: DocUuid) returns (result: SagaResult)
      modifies this
      ensures fresh(result)
      ensures (Now(), Returned(result.View())) == RunSaga(oracle, old(Now()), DeleteSaga(docUuid))
      ensures result.Recorded({})
    {
      result := ExecuteSteps(DeleteSteps(docUuid));
    }

    method ExecuteUpdateSaga(req: Request) returns (result: SagaResult?)
      requires req.UpdateSaga?
      modifies this
      ensures result != null ==> fresh(result)
      ensures (Now(), if result == null then Raised else Returned(result.View())) == RunSaga(oracle, old(Now()), req)
      ensures result != null ==>
        if result.failedStep == Some(PostgresUpdate) then result.stepResults == map[]
        else result.Recorded({PostgresUpdate})
    {
      var clear := ClearSteps(req.docUuid);
      StepNames(oracle, Now(), clear);
      var deleteResult := ExecuteSteps(clear);
      if !deleteResult.success {
        return deleteResult;
      }
      ghost var r1 := deleteResult.View();
      var executed := deleteResult.executedSteps;
      var ok := Execute(PostgresUpdateStep(req.docUuid, req.doc, req.chunks));
      if !ok {
        CompensateSteps(clear, deleteResult);
        result := new SagaResult(false, executed, [], Some(PostgresUpdate), map[]);
        return;
      }
      var encoded := Encode(req.given, req.encoder, req.chunks);
      if encoded.Exception? {
        return null;
      }
      var rebuild := RebuildSteps(req.docUuid, req.chunks, encoded.embeddings);
      StepNames(oracle, Now(), rebuild);
      var createResult := ExecuteSteps(rebuild);
      result := new SagaResult(
        createResult.success,
        executed + [PostgresUpdate] + createResult.executedSteps,
        createResult.compensatedSteps,
        createResult.failedStep,
        deleteResult.stepResults + createResult.stepResults);
    }
  }
}
