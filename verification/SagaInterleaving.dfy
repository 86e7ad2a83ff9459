/** Sagas as programs that yield after every repository call, and what happens when any number of them
    run concurrently on different documents. */
module SagaInterleaving {
  import opened Stores
  import opened Saga
  import opened SagaSafety
  import opened SagaHealing

  /** The rest of a saga: the next call, and how it goes on when the call returns or raises. */
  datatype Prog = Done(outcome: Outcome) | Do(op: Op, onOk: Prog, onFail: Prog)

  /** The stores after a call that the oracle lets through (`up`) or not. */
  function Effect(op: Op, up: bool, s: Stores): Stores {
    if up && Accepts(op, s) then Apply(op, s) else s
  }

  function Next(p: Prog, up: bool, s: Stores): Prog
    requires p.Do?
  {
    if up && Accepts(p.op, s) then p.onOk else p.onFail
  }

  /** Run a program alone to its end; its n-th call from now is answered by f(i + n). */
  function Run(f: Oracle, i: nat, p: Prog, s: Stores): (Stores, Outcome)
    decreases p
  {
    if p.Done? then (s, p.outcome)
    else if f(i) && Accepts(p.op, s) then Run(f, i + 1, p.onOk, Apply(p.op, s))
    else Run(f, i + 1, p.onFail, s)
  }

  /** The stores after every call of such a run. */
  function Trail(f: Oracle, i: nat, p: Prog, s: Stores): seq<Stores>
    decreases p
  {
    if p.Done? then [] else
      var s1 := Effect(p.op, f(i), s);
      [s1] + Trail(f, i + 1, Next(p, f(i), s), s1)
  }

  // ---------------------------------------------------------------- sagas as programs

  function ScriptProg(ops: seq<Op>, i: nat, ok: Prog, fail: Prog): Prog
    requires i <= |ops|
    decreases |ops| - i
  {
    if i == |ops| then ok else Do(ops[i], ScriptProg(ops, i + 1, ok, fail), fail)
  }

  function CompensateProg(steps: seq<Step>, n: nat, r: Result, k: Result -> Prog): Prog
    requires n <= |steps|
    decreases n
  {
    if n == 0 then k(r) else
      ScriptProg(steps[n - 1].compensate, 0,
        CompensateProg(steps, n - 1, r.(compensated := r.compensated + [steps[n - 1].name]), k),
        CompensateProg(steps, n - 1, r, k))
  }

  function ExecuteProg(steps: seq<Step>, i: nat, r: Result, k: Result -> Prog): Prog
    requires i <= |steps|
    decreases |steps| - i
  {
    if i == |steps| then k(r) else
      ScriptProg(steps[i].execute, 0,
        ExecuteProg(steps, i + 1, r.(executed := r.executed + [steps[i].name]), k),
        CompensateProg(steps, i, r.(success := false, failed := Some(steps[i].name)), k))
  }

  function Return(r: Result): Prog {
    Done(Returned(r))
  }

  function MergedReturn(r1: Result): Result -> Prog {
    (r3: Result) => Return(Result(r3.success, r1.executed + [PostgresUpdate] + r3.executed, r3.compensated, r3.failed))
  }

  function UpdateFailed(r1: Result): Result -> Prog {
    (_: Result) => Return(Result(false, r1.executed, [], Some(PostgresUpdate)))
  }

  function RebuildProg(req: Request, r1: Result): Prog
    requires req.UpdateSaga?
  {
    match Encode(req.given, req.encoder, req.chunks)
    case Exception => Done(Raised)
    case Ready(e) => ExecuteProg(RebuildSteps(req.docUuid, req.chunks, e), 0, STARTED, MergedReturn(r1))
  }

  function AfterClear(req: Request, r1: Result): Prog
    requires req.UpdateSaga?
  {
    if !r1.success then Return(r1) else
      ScriptProg(PostgresUpdateStep(req.docUuid, req.doc, req.chunks).execute, 0,
        RebuildProg(req, r1),
        CompensateProg(ClearSteps(req.docUuid), 2, r1, UpdateFailed(r1)))
  }

  function AfterClearing(req: Request): Result -> Prog
    requires req.UpdateSaga?
  {
    (r1: Result) => AfterClear(req, r1)
  }

  function SagaProg(req: Request): Prog {
    match req
    case CreateSaga(doc, chunks, given, encoder) =>
      (match Encode(given, encoder, chunks)
       case Exception => Done(Raised)
       case Ready(e) => ExecuteProg(CreateSteps(doc, chunks, e), 0, STARTED, Return))
    case DeleteSaga(d) => ExecuteProg(DeleteSteps(d), 0, STARTED, Return)
    case UpdateSaga(d, _, _, _, _) =>
      ExecuteProg(ClearSteps(d), 0, STARTED, AfterClearing(req))
  }

  lemma {:induction false} OneMoreState(f: Oracle, w: World, p: Prog)
    requires p.Do?
    ensures var w1 := Call(f, w, p.op).0;
      w.history + Trail(f, w.calls, p, w.stores) ==
        w1.history + Trail(f, w1.calls, Next(p, f(w.calls), w.stores), w1.stores)
  {
  }

  lemma {:induction false} ScriptProgRuns(f: Oracle, w: World, ops: seq<Op>, i: nat, ok: Prog, fail: Prog)
    requires i <= |ops|
    ensures var (w', b) := RunScript(f, w, ops, i);
      var rest := if b then ok else fail;
      && Run(f, w.calls, ScriptProg(ops, i, ok, fail), w.stores) == Run(f, w'.calls, rest, w'.stores)
      && w.history + Trail(f, w.calls, ScriptProg(ops, i, ok, fail), w.stores) ==
        w'.history + Trail(f, w'.calls, rest, w'.stores)
    decreases |ops| - i
  {
    if i < |ops| {
      var (w1, b) := Call(f, w, ops[i]);
      OneMoreState(f, w, ScriptProg(ops, i, ok, fail));
      if b {
        ScriptProgRuns(f, w1, ops, i + 1, ok, fail);
      }
    }
  }

  lemma {:induction false} CompensateProgRuns(f: Oracle, w: World, steps: seq<Step>, n: nat, r: Result,
      k: Result -> Prog)
    requires n <= |steps|
    ensures var (w', r') := CompensateDown(f, w, steps, n, r);
      && Run(f, w.calls, CompensateProg(steps, n, r, k), w.stores) == Run(f, w'.calls, k(r'), w'.stores)
      && w.history + Trail(f, w.calls, CompensateProg(steps, n, r, k), w.stores) ==
        w'.history + Trail(f, w'.calls, k(r'), w'.stores)
    decreases n
  {
    if n > 0 {
      var r1 := r.(compensated := r.compensated + [steps[n - 1].name]);
      ScriptProgRuns(f, w.(events := w.events + [Compensate(steps[n - 1].name)]), steps[n - 1].compensate, 0,
        CompensateProg(steps, n - 1, r1, k), CompensateProg(steps, n - 1, r, k));
      var (w1, b) := CompensateStep(f, w, steps[n - 1]);
      CompensateProgRuns(f, w1, steps, n - 1, if b then r1 else r, k);
    }
  }

  lemma {:induction false} ExecuteProgRuns(f: Oracle, w: World, steps: seq<Step>, i: nat, r: Result, k: Result -> Prog)
    requires i <= |steps|
    ensures var (w', r') := ExecuteFrom(f, w, steps, i, r);
      && Run(f, w.calls, ExecuteProg(steps, i, r, k), w.stores) == Run(f, w'.calls, k(r'), w'.stores)
      && w.history + Trail(f, w.calls, ExecuteProg(steps, i, r, k), w.stores) ==
        w'.history + Trail(f, w'.calls, k(r'), w'.stores)
    decreases |steps| - i
  {
    if i < |steps| {
      var r1 := r.(executed := r.executed + [steps[i].name]);
      var r2 := r.(success := false, failed := Some(steps[i].name));
      ScriptProgRuns(f, w.(events := w.events + [Execute(steps[i].name)]), steps[i].execute, 0,
        ExecuteProg(steps, i + 1, r1, k), CompensateProg(steps, i, r2, k));
      var (w1, b) := ExecuteStep(f, w, steps[i]);
      if b {
        ExecuteProgRuns(f, w1, steps, i + 1, r1, k);
      } else {
        CompensateProgRuns(f, w1, steps, i, r2, k);
      }
    }
  }

  /** The call-by-call program of a saga computes what the coordinator computes, state by state. */
  lemma SagaProgRuns(f: Oracle, w: World, req: Request)
    ensures var (w', o) := RunSaga(f, w, req);
      && Run(f, w.calls, SagaProg(req), w.stores) == (w'.stores, o)
      && w.history + Trail(f, w.calls, SagaProg(req), w.stores) == w'.history
  {
    match req
    case CreateSaga(doc, chunks, given, encoder) =>
      var encoded := Encode(given, encoder, chunks);
      if encoded.Ready? {
        ExecuteProgRuns(f, w, CreateSteps(doc, chunks, encoded.embeddings), 0, STARTED, Return);
      }
    case DeleteSaga(d) => ExecuteProgRuns(f, w, DeleteSteps(d), 0, STARTED, Return);
    case UpdateSaga(d, doc, chunks, given, encoder) =>
      ExecuteProgRuns(f, w, ClearSteps(d), 0, STARTED, AfterClearing(req));
      var (w1, r1) := RunSteps(f, w, ClearSteps(d));
      if r1.success {
        AfterClearRuns(f, w1, req, r1);
      }
  }

  lemma {:induction false} RebuildProgRuns(f: Oracle, w: World, req: Request, r1: Result)
    requires req.UpdateSaga?
    ensures var (w', o) := Rebuild(f, w, req, r1);
      && Run(f, w.calls, RebuildProg(req, r1), w.stores) == (w'.stores, o)
      && w.history + Trail(f, w.calls, RebuildProg(req, r1), w.stores) == w'.history
  {
    var encoded := Encode(req.given, req.encoder, req.chunks);
    if encoded.Ready? {
      var steps := RebuildSteps(req.docUuid, req.chunks, encoded.embeddings);
      assert RebuildProg(req, r1) == ExecuteProg(steps, 0, STARTED, MergedReturn(r1));
      ExecuteProgRuns(f, w, steps, 0, STARTED, MergedReturn(r1));
      var (w3, r3) := RunSteps(f, w, steps);
      assert MergedReturn(r1)(r3).Done?;
    }
  }

  lemma AfterClearRuns(f: Oracle, w1: World, req: Request, r1: Result)
    requires req.UpdateSaga? && r1.success
    ensures var (w2, ok) := ExecuteStep(f, w1, PostgresUpdateStep(req.docUuid, req.doc, req.chunks));
      var (w', o) :=
        if ok then Rebuild(f, w2, req, r1) else
          (CompensateDown(f, w2, ClearSteps(req.docUuid), 2, r1).0,
           Returned(Result(false, r1.executed, [], Some(PostgresUpdate))));
      && Run(f, w1.calls, AfterClear(req, r1), w1.stores) == (w'.stores, o)
      && w1.history + Trail(f, w1.calls, AfterClear(req, r1), w1.stores) == w'.history
  {
    var step := PostgresUpdateStep(req.docUuid, req.doc, req.chunks);
    var onFail := CompensateProg(ClearSteps(req.docUuid), 2, r1, UpdateFailed(r1));
    assert AfterClear(req, r1) == ScriptProg(step.execute, 0, RebuildProg(req, r1), onFail);
    ScriptProgRuns(f, w1.(events := w1.events + [Execute(step.name)]), step.execute, 0, RebuildProg(req, r1), onFail);
    var (w2, ok) := ExecuteStep(f, w1, step);
    assert Run(f, w1.calls, AfterClear(req, r1), w1.stores)
        == Run(f, w2.calls, if ok then RebuildProg(req, r1) else onFail, w2.stores);
    if ok {
      RebuildProgRuns(f, w2, req, r1);
    } else {
      CompensateProgRuns(f, w2, ClearSteps(req.docUuid), 2, r1, UpdateFailed(r1));
    }
  }

  // ---------------------------------------------------------------- calls that stay apart

  /** A call of a saga on d that names no chunk outside ids. */
  ghost predicate Within(op: Op, d: DocUuid, ids: set<ChunkUuid>) {
    && OpOn(op, d)
    && match op
       case CreateChunks(chunks) => forall c :: c in chunks ==> c.chunkUuid in ids
       case CreateChunkNodes(cs) => forall c :: c in cs ==> c in ids
       case CreateEdges(_, cs) => forall c :: c in cs ==> c in ids
       case _ => true
  }

  ghost predicate Confined(p: Prog, d: DocUuid, ids: set<ChunkUuid>) {
    p.Done? || (Within(p.op, d, ids) && Confined(p.onOk, d, ids) && Confined(p.onFail, d, ids))
  }

  /** What the stores hold of d is named by ids. */
  ghost predicate Owns(s: Stores, d: DocUuid, ids: set<ChunkUuid>) {
    && (forall r :: r in s.chunkRows && r.docUuid == d ==> r.chunkUuid in ids)
    && (forall e :: e in s.contains && e.doc == d ==> e.chunk in ids)
  }

  lemma OwnsKept(op: Op, up: bool, s: Stores, d: DocUuid, ids: set<ChunkUuid>, d': DocUuid, ids': set<ChunkUuid>)
    requires Within(op, d, ids) && Owns(s, d', ids') && (d == d' ==> ids == ids')
    ensures Owns(Effect(op, up, s), d', ids')
  {
  }

  predicate IsPg(op: Op) {
    op.CreateDocument? || op.CreateChunks? || op.UpdateDocument? || op.DeleteChunks? || op.DeleteDocument?
  }

  predicate IsGraph(op: Op) {
    op.CreateDocNode? || op.CreateChunkNodes? || op.CreateEdges? || op.DeleteGraph?
  }

  lemma PgAcceptsKept(o1: Op, o2: Op, s: Stores, d1: DocUuid, ids1: set<ChunkUuid>, d2: DocUuid, ids2: set<ChunkUuid>)
    requires IsPg(o1) && IsPg(o2) && d1 != d2 && ids1 !! ids2
    requires Within(o1, d1, ids1) && Within(o2, d2, ids2) && Owns(s, d1, ids1) && Owns(s, d2, ids2)
    requires Accepts(o2, s)
    ensures Accepts(o1, Apply(o2, s)) <==> Accepts(o1, s)
  {
  }

  lemma PgDocumentsCommute(o1: Op, o2: Op, s: Stores, d1: DocUuid, d2: DocUuid)
    requires IsPg(o1) && IsPg(o2) && d1 != d2 && OpOn(o1, d1) && OpOn(o2, d2)
    ensures Apply(o1, Apply(o2, s)).documents == Apply(o2, Apply(o1, s)).documents
  {
  }

  lemma PgRowsCommute(o1: Op, o2: Op, s: Stores, d1: DocUuid, d2: DocUuid)
    requires IsPg(o1) && IsPg(o2) && d1 != d2 && OpOn(o1, d1) && OpOn(o2, d2)
    ensures Apply(o1, Apply(o2, s)).chunkRows == Apply(o2, Apply(o1, s)).chunkRows
  {
  }

  lemma PgCommutes(o1: Op, o2: Op, s: Stores, d1: DocUuid, ids1: set<ChunkUuid>, d2: DocUuid, ids2: set<ChunkUuid>)
    requires IsPg(o1) && IsPg(o2) && d1 != d2 && ids1 !! ids2
    requires Within(o1, d1, ids1) && Within(o2, d2, ids2) && Owns(s, d1, ids1) && Owns(s, d2, ids2)
    requires Accepts(o2, s)
    ensures Accepts(o1, Apply(o2, s)) <==> Accepts(o1, s)
    ensures Apply(o1, Apply(o2, s)) == Apply(o2, Apply(o1, s))
  {
    PgAcceptsKept(o1, o2, s, d1, ids1, d2, ids2);
    PgDocumentsCommute(o1, o2, s, d1, d2);
    PgRowsCommute(o1, o2, s, d1, d2);
  }

  lemma GraphCommutes(o1: Op, o2: Op, s: Stores, d1: DocUuid, ids1: set<ChunkUuid>, d2: DocUuid, ids2: set<ChunkUuid>)
    requires IsGraph(o1) && IsGraph(o2) && d1 != d2 && ids1 !! ids2
    requires Within(o1, d1, ids1) && Within(o2, d2, ids2) && Owns(s, d1, ids1) && Owns(s, d2, ids2)
    ensures Apply(o1, Apply(o2, s)) == Apply(o2, Apply(o1, s))
  {
    var s1, s2 := Apply(o1, s), Apply(o2, s);
    assert GraphChunks(s, d1) <= ids1 && GraphChunks(s, d2) <= ids2;
    ChildrenKept(o2, s, d2, ids2, d1, ids1);
    ChildrenKept(o1, s, d1, ids1, d2, ids2);
    var a, b := Apply(o1, s2), Apply(o2, s1);
    assert a.docNodes == b.docNodes;
    assert a.chunkNodes == b.chunkNodes;
    forall e ensures e in a.contains <==> e in b.contains {
    }
    assert a.contains == b.contains;
  }

  lemma ChildrenKept(op: Op, s: Stores, d: DocUuid, ids: set<ChunkUuid>, d': DocUuid, ids': set<ChunkUuid>)
    requires IsGraph(op) && d != d' && ids !! ids' && Within(op, d, ids) && Owns(s, d, ids) && Owns(s, d', ids')
    ensures GraphChunks(Apply(op, s), d') == GraphChunks(s, d')
    ensures d' in Apply(op, s).docNodes <==> d' in s.docNodes
    ensures forall c :: c in ids' ==> (c in Apply(op, s).chunkNodes <==> c in s.chunkNodes)
  {
  }

  /** Calls of sagas on different documents with disjoint chunk ids commute, failures included. */
  lemma CallsCommute(o1: Op, up1: bool, o2: Op, up2: bool, s: Stores,
                     d1: DocUuid, ids1: set<ChunkUuid>, d2: DocUuid, ids2: set<ChunkUuid>)
    requires d1 != d2 && ids1 !! ids2
    requires Within(o1, d1, ids1) && Within(o2, d2, ids2) && Owns(s, d1, ids1) && Owns(s, d2, ids2)
    ensures Accepts(o1, Effect(o2, up2, s)) <==> Accepts(o1, s)
    ensures Accepts(o2, Effect(o1, up1, s)) <==> Accepts(o2, s)
    ensures Effect(o1, up1, Effect(o2, up2, s)) == Effect(o2, up2, Effect(o1, up1, s))
  {
    if Accepts(o1, s) && Accepts(o2, s) {
      if IsPg(o1) && IsPg(o2) {
        PgCommutes(o1, o2, s, d1, ids1, d2, ids2);
        PgCommutes(o2, o1, s, d2, ids2, d1, ids1);
      } else if IsGraph(o1) && IsGraph(o2) {
        GraphCommutes(o1, o2, s, d1, ids1, d2, ids2);
      } else {
        OthersCommute(o1, o2, s, d1, d2);
      }
    } else if Accepts(o2, s) && IsPg(o1) && IsPg(o2) {
      PgCommutes(o1, o2, s, d1, ids1, d2, ids2);
    } else if Accepts(o1, s) && IsPg(o1) && IsPg(o2) {
      PgCommutes(o2, o1, s, d2, ids2, d1, ids1);
    }
  }

  lemma OthersCommute(o1: Op, o2: Op, s: Stores, d1: DocUuid, d2: DocUuid)
    requires d1 != d2 && OpOn(o1, d1) && OpOn(o2, d2)
    requires !(IsPg(o1) && IsPg(o2)) && !(IsGraph(o1) && IsGraph(o2))
    ensures Accepts(o1, s) && Accepts(o2, s) ==>
      Accepts(o1, Apply(o2, s)) && Accepts(o2, Apply(o1, s)) && Apply(o1, Apply(o2, s)) == Apply(o2, Apply(o1, s))
  {
    var a, b := Apply(o1, Apply(o2, s)), Apply(o2, Apply(o1, s));
    if o1.InsertVectors? || o1.DeleteVectors? {
      assert a.vectors == b.vectors;
    } else if IsGraph(o1) {
      assert GraphChunks(Apply(o2, s), d1) == GraphChunks(s, d1);
    } else if IsGraph(o2) {
      assert GraphChunks(Apply(o1, s), d2) == GraphChunks(s, d2);
    }
  }

  // ---------------------------------------------------------------- sagas at once

  /** A program under way: its oracle, the number of calls it has made, and what it has yet to do. */
  datatype Task = Task(oracle: Oracle, calls: nat, rest: Prog)

  datatype Config = Config(tasks: seq<Task>, s: Stores)

  /** The saga whose turn it is makes its next call; a finished one does nothing. */
  function Turn(c: Config, k: nat): Config {
    if k >= |c.tasks| || c.tasks[k].rest.Done? then c
    else
      var t := c.tasks[k];
      var up := t.oracle(t.calls);
      Config(c.tasks[k := Task(t.oracle, t.calls + 1, Next(t.rest, up, c.s))], Effect(t.rest.op, up, c.s))
  }

  function Interleave(c: Config, schedule: seq<nat>): Config
    decreases |schedule|
  {
    if schedule == [] then c else Interleave(Turn(c, schedule[0]), schedule[1..])
  }

  function Turns0(n: nat): seq<nat> {
    seq(n, _ => 0)
  }

  lemma {:induction false} AloneTurns(f: Oracle, i: nat, p: Prog, s: Stores, n: nat)
    requires n <= |Trail(f, i, p, s)|
    ensures Interleave(Config([Task(f, i, p)], s), Turns0(n)).s == ([s] + Trail(f, i, p, s))[n]
    decreases n
  {
    if n > 0 {
      var s1 := Effect(p.op, f(i), s);
      AloneTurns(f, i + 1, Next(p, f(i), s), s1, n - 1);
      assert Turns0(n)[1..] == Turns0(n - 1);
      var c := Config([Task(f, i, p)], s);
      assert Turn(c, 0) == Config([Task(f, i + 1, Next(p, f(i), s))], s1);
    }
  }

  /** A turn is one call: after n turns a saga alone is in the state after its n-th repository call. */
  lemma {:induction false} TurnsAreCalls(f: Oracle, s: Stores, req: Request, n: nat)
    ensures var states := RunSaga(f, Start(s), req).0.history;
      n < |states| ==> Interleave(Config([Task(f, 0, SagaProg(req))], s), Turns0(n)).s == states[n]
  {
    SagaProgRuns(f, Start(s), req);
    if n < |RunSaga(f, Start(s), req).0.history| {
      AloneTurns(f, 0, SagaProg(req), s, n);
    }
  }

  /** A turn of one saga among others is its turn alone on the same stores, and moves no other saga. */
  lemma {:induction false} TurnIsOwn(c: Config, k: nat)
    requires k < |c.tasks|
    ensures var c', alone := Turn(c, k), Turn(Config([c.tasks[k]], c.s), 0);
      && c'.s == alone.s && |c'.tasks| == |c.tasks| && c'.tasks[k] == alone.tasks[0]
      && forall i :: 0 <= i < |c.tasks| && i != k ==> c'.tasks[i] == c.tasks[i]
  {
  }

  /** Finish the first task, then the second, and so on. */
  function Serial(tasks: seq<Task>, s: Stores): (Stores, seq<Outcome>)
    decreases |tasks|
  {
    if tasks == [] then (s, []) else
      var (s1, o) := Run(tasks[0].oracle, tasks[0].calls, tasks[0].rest, s);
      var (s2, os) := Serial(tasks[1..], s1);
      (s2, [o] + os)
  }

  /** The document of a task and the chunk ids it may touch. */
  datatype Claim = Claim(doc: DocUuid, ids: set<ChunkUuid>)

  ghost predicate Disjoint(claims: seq<Claim>) {
    forall i, j :: 0 <= i < j < |claims| ==> claims[i].doc != claims[j].doc && claims[i].ids !! claims[j].ids
  }

  ghost predicate Keeps(t: Task, s: Stores, claim: Claim) {
    Confined(t.rest, claim.doc, claim.ids) && Owns(s, claim.doc, claim.ids)
  }

  ghost predicate Apart(tasks: seq<Task>, s: Stores, claims: seq<Claim>) {
    && |tasks| == |claims| && Disjoint(claims)
    && forall i :: 0 <= i < |tasks| ==> Keeps(tasks[i], s, claims[i])
  }

  /** A call of the other saga can be moved past the whole rest of this one. */
  lemma {:induction false} CallMovesPast(f: Oracle, i: nat, p: Prog, s: Stores, op: Op, up: bool,
                                         d1: DocUuid, ids1: set<ChunkUuid>, d2: DocUuid, ids2: set<ChunkUuid>)
    requires d1 != d2 && ids1 !! ids2
    requires Confined(p, d1, ids1) && Within(op, d2, ids2) && Owns(s, d1, ids1) && Owns(s, d2, ids2)
    ensures var (s1, o) := Run(f, i, p, s);
      && Run(f, i, p, Effect(op, up, s)) == (Effect(op, up, s1), o)
      && (Accepts(op, s1) <==> Accepts(op, s))
    decreases p
  {
    if p.Do? {
      CallsCommute(p.op, f(i), op, up, s, d1, ids1, d2, ids2);
      OwnsKept(p.op, f(i), s, d1, ids1, d1, ids1);
      OwnsKept(p.op, f(i), s, d1, ids1, d2, ids2);
      CallMovesPast(f, i + 1, Next(p, f(i), s), Effect(p.op, f(i), s), op, up, d1, ids1, d2, ids2);
    }
  }

  lemma {:induction false} RunOwns(f: Oracle, i: nat, p: Prog, s: Stores, d: DocUuid, ids: set<ChunkUuid>,
                                   d': DocUuid, ids': set<ChunkUuid>)
    requires Confined(p, d, ids) && Owns(s, d', ids') && d != d'
    ensures Owns(Run(f, i, p, s).0, d', ids')
    decreases p
  {
    if p.Do? {
      OwnsKept(p.op, f(i), s, d, ids, d', ids');
      RunOwns(f, i + 1, Next(p, f(i), s), Effect(p.op, f(i), s), d, ids, d', ids');
    }
  }

  lemma {:induction false} ApartAfterFirst(tasks: seq<Task>, s: Stores, claims: seq<Claim>)
    requires Apart(tasks, s, claims) && tasks != []
    ensures Apart(tasks[1..], Run(tasks[0].oracle, tasks[0].calls, tasks[0].rest, s).0, claims[1..])
  {
    var t, s1 := tasks[0], Run(tasks[0].oracle, tasks[0].calls, tasks[0].rest, s).0;
    forall i | 1 <= i < |tasks| ensures Keeps(tasks[i], s1, claims[i]) {
      RunOwns(t.oracle, t.calls, t.rest, s, claims[0].doc, claims[0].ids, claims[i].doc, claims[i].ids);
    }
  }

  lemma {:induction false} ApartKept(c: Config, claims: seq<Claim>, k: nat)
    requires Apart(c.tasks, c.s, claims)
    ensures Apart(Turn(c, k).tasks, Turn(c, k).s, claims)
  {
    var c' := Turn(c, k);
    if k < |c.tasks| && c.tasks[k].rest.Do? {
      var t := c.tasks[k];
      forall i | 0 <= i < |c.tasks| ensures Keeps(c'.tasks[i], c'.s, claims[i]) {
        OwnsKept(t.rest.op, t.oracle(t.calls), c.s, claims[k].doc, claims[k].ids, claims[i].doc, claims[i].ids);
      }
    }
  }

  /** A turn of any task leaves the serial end as it is: the call moves past all tasks before it. */
  lemma {:induction false} TurnKeepsSerial(tasks: seq<Task>, s: Stores, claims: seq<Claim>, k: nat)
    requires Apart(tasks, s, claims) && k < |tasks| && tasks[k].rest.Do?
    ensures var c := Turn(Config(tasks, s), k); Serial(c.tasks, c.s) == Serial(tasks, s)
    decreases k
  {
    var c := Turn(Config(tasks, s), k);
    var t := tasks[k];
    var up := t.oracle(t.calls);
    if k == 0 {
      assert c.tasks[1..] == tasks[1..];
      assert Run(t.oracle, t.calls, t.rest, s)
          == Run(t.oracle, t.calls + 1, Next(t.rest, up, s), Effect(t.rest.op, up, s));
    } else {
      var first := tasks[0];
      var s1 := Run(first.oracle, first.calls, first.rest, s).0;
      CallMovesPast(first.oracle, first.calls, first.rest, s, t.rest.op, up,
                    claims[0].doc, claims[0].ids, claims[k].doc, claims[k].ids);
      ApartAfterFirst(tasks, s, claims);
      TurnKeepsSerial(tasks[1..], s1, claims[1..], k - 1);
      assert c.tasks[1..] == Turn(Config(tasks[1..], s1), k - 1).tasks;
    }
  }

  lemma {:induction false} InterleaveIsSerial(c: Config, claims: seq<Claim>, schedule: seq<nat>)
    requires Apart(c.tasks, c.s, claims)
    ensures var c' := Interleave(c, schedule); Serial(c'.tasks, c'.s) == Serial(c.tasks, c.s)
    decreases |schedule|
  {
    if schedule != [] {
      var k := schedule[0];
      if k < |c.tasks| && c.tasks[k].rest.Do? {
        TurnKeepsSerial(c.tasks, c.s, claims, k);
      }
      ApartKept(c, claims, k);
      InterleaveIsSerial(Turn(c, k), claims, schedule[1..]);
    }
  }

  // ---------------------------------------------------------------- the programs of sagas are confined

  ghost predicate AllWithin(ops: seq<Op>, d: DocUuid, ids: set<ChunkUuid>) {
    forall i :: 0 <= i < |ops| ==> Within(ops[i], d, ids)
  }

  ghost predicate StepsWithin(steps: seq<Step>, d: DocUuid, ids: set<ChunkUuid>) {
    forall i :: 0 <= i < |steps| ==> AllWithin(steps[i].execute, d, ids) && AllWithin(steps[i].compensate, d, ids)
  }

  lemma {:induction false} ScriptConfined(ops: seq<Op>, i: nat, ok: Prog, fail: Prog, d: DocUuid, ids: set<ChunkUuid>)
    requires i <= |ops| && AllWithin(ops, d, ids) && Confined(ok, d, ids) && Confined(fail, d, ids)
    ensures Confined(ScriptProg(ops, i, ok, fail), d, ids)
    decreases |ops| - i
  {
    if i < |ops| {
      ScriptConfined(ops, i + 1, ok, fail, d, ids);
    }
  }

  lemma {:induction false} CompensateConfined(steps: seq<Step>, n: nat, r: Result, k: Result -> Prog,
      d: DocUuid, ids: set<ChunkUuid>)
    requires n <= |steps| && StepsWithin(steps, d, ids) && forall r' :: Confined(k(r'), d, ids)
    ensures Confined(CompensateProg(steps, n, r, k), d, ids)
    decreases n
  {
    if n > 0 {
      var r1 := r.(compensated := r.compensated + [steps[n - 1].name]);
      CompensateConfined(steps, n - 1, r1, k, d, ids);
      CompensateConfined(steps, n - 1, r, k, d, ids);
      ScriptConfined(steps[n - 1].compensate, 0,
        CompensateProg(steps, n - 1, r1, k), CompensateProg(steps, n - 1, r, k), d, ids);
    }
  }

  lemma {:induction false} ExecuteConfined(steps: seq<Step>, i: nat, r: Result, k: Result -> Prog, d: DocUuid,
      ids: set<ChunkUuid>)
    requires i <= |steps| && StepsWithin(steps, d, ids) && forall r' :: Confined(k(r'), d, ids)
    ensures Confined(ExecuteProg(steps, i, r, k), d, ids)
    decreases |steps| - i
  {
    if i < |steps| {
      var r1 := r.(executed := r.executed + [steps[i].name]);
      var r2 := r.(success := false, failed := Some(steps[i].name));
      ExecuteConfined(steps, i + 1, r1, k, d, ids);
      CompensateConfined(steps, i, r2, k, d, ids);
      ScriptConfined(steps[i].execute, 0, ExecuteProg(steps, i + 1, r1, k), CompensateProg(steps, i, r2, k), d, ids);
    }
  }

  lemma RebuildConfined(req: Request, r1: Result, ids: set<ChunkUuid>)
    requires req.UpdateSaga? && Ids(req.chunks) <= ids
    ensures Confined(RebuildProg(req, r1), req.docUuid, ids)
  {
    var encoded := Encode(req.given, req.encoder, req.chunks);
    if encoded.Ready? {
      var steps := RebuildSteps(req.docUuid, req.chunks, encoded.embeddings);
      assert StepsWithin(steps, req.docUuid, ids);
      ExecuteConfined(steps, 0, STARTED, MergedReturn(r1), req.docUuid, ids);
    }
  }

  lemma AfterClearConfined(req: Request, r1: Result, ids: set<ChunkUuid>)
    requires req.UpdateSaga? && req.Valid() && Ids(req.chunks) <= ids
    ensures Confined(AfterClear(req, r1), req.docUuid, ids)
  {
    var d := req.docUuid;
    var ops := PostgresUpdateStep(d, req.doc, req.chunks).execute;
    var onFail := CompensateProg(ClearSteps(d), 2, r1, UpdateFailed(r1));
    RebuildConfined(req, r1, ids);
    CompensateConfined(ClearSteps(d), 2, r1, UpdateFailed(r1), d, ids);
    assert AllWithin(ops, d, ids) by {
      UpdateOpsWithin(req, ids);
    }
    ScriptConfined(ops, 0, RebuildProg(req, r1), onFail, d, ids);
    assert r1.success ==> AfterClear(req, r1) == ScriptProg(ops, 0, RebuildProg(req, r1), onFail);
  }

  lemma UpdateOpsWithin(req: Request, ids: set<ChunkUuid>)
    requires req.UpdateSaga? && req.Valid() && Ids(req.chunks) <= ids
    ensures AllWithin(PostgresUpdateStep(req.docUuid, req.doc, req.chunks).execute, req.docUuid, ids)
  {
    assert forall c :: c in req.chunks ==> c.chunkUuid in Ids(req.chunks);
  }

  lemma CreateConfined(req: Request, ids: set<ChunkUuid>)
    requires req.CreateSaga? && req.Valid() && Ids(req.chunks) <= ids
    ensures Confined(SagaProg(req), req.Doc(), ids)
  {
    var encoded := Encode(req.given, req.encoder, req.chunks);
    if encoded.Ready? {
      var steps := CreateSteps(req.doc, req.chunks, encoded.embeddings);
      assert forall c :: c in req.chunks ==> c.chunkUuid in Ids(req.chunks);
      assert StepsWithin(steps, req.Doc(), ids);
      ExecuteConfined(steps, 0, STARTED, Return, req.Doc(), ids);
    }
  }

  lemma SagaConfined(req: Request, ids: set<ChunkUuid>)
    requires req.Valid() && (!req.DeleteSaga? ==> Ids(req.chunks) <= ids)
    ensures Confined(SagaProg(req), req.Doc(), ids)
  {
    var d := req.Doc();
    match req
    case CreateSaga(_, _, _, _) => CreateConfined(req, ids);
    case DeleteSaga(_) => ExecuteConfined(DeleteSteps(d), 0, STARTED, Return, d, ids);
    case UpdateSaga(_, _, _, _, _) =>
      forall r1 ensures Confined(AfterClearing(req)(r1), d, ids) {
        AfterClearConfined(req, r1, ids);
      }
      ExecuteConfined(ClearSteps(d), 0, STARTED, AfterClearing(req), d, ids);
  }

  /** The chunk ids a saga can touch when it starts in s. */
  function Footprint(req: Request, s: Stores): set<ChunkUuid> {
    PgChunks(s, req.Doc()) + if req.DeleteSaga? then {} else Ids(req.chunks)
  }

  function Tasks(sagas: seq<Entry>): (tasks: seq<Task>)
    ensures |tasks| == |sagas|
    ensures forall i :: 0 <= i < |sagas| ==> tasks[i] == Task(sagas[i].oracle, 0, SagaProg(sagas[i].req))
  {
    seq(|sagas|, i requires 0 <= i < |sagas| => Task(sagas[i].oracle, 0, SagaProg(sagas[i].req)))
  }

  /** The coordinator runs one saga after the other. */
  function OneByOne(sagas: seq<Entry>, s: Stores): (Stores, seq<Outcome>)
    decreases |sagas|
  {
    if sagas == [] then (s, []) else
      var (w, o) := RunSaga(sagas[0].oracle, Start(s), sagas[0].req);
      var (s', os) := OneByOne(sagas[1..], w.stores);
      (s', [o] + os)
  }

  /** Valid sagas on different documents with disjoint chunk ids. */
  ghost predicate Independent(sagas: seq<Entry>, s: Stores) {
    && (forall i :: 0 <= i < |sagas| ==> sagas[i].req.Valid())
    && forall i, j :: 0 <= i < j < |sagas| ==>
      && sagas[i].req.Doc() != sagas[j].req.Doc()
      && Footprint(sagas[i].req, s) !! Footprint(sagas[j].req, s)
  }

  lemma {:induction false} SerialIsOneByOne(sagas: seq<Entry>, s: Stores)
    ensures Serial(Tasks(sagas), s) == OneByOne(sagas, s)
    decreases |sagas|
  {
    if sagas != [] {
      SagaProgRuns(sagas[0].oracle, Start(s), sagas[0].req);
      assert Tasks(sagas)[1..] == Tasks(sagas[1..]);
      SerialIsOneByOne(sagas[1..], RunSaga(sagas[0].oracle, Start(s), sagas[0].req).0.stores);
    }
  }

  lemma {:induction false} FinishedIsSerial(tasks: seq<Task>, s: Stores)
    requires forall i :: 0 <= i < |tasks| ==> tasks[i].rest.Done?
    ensures Serial(tasks, s).0 == s && |Serial(tasks, s).1| == |tasks|
    ensures forall i :: 0 <= i < |tasks| ==> Serial(tasks, s).1[i] == tasks[i].rest.outcome
    decreases |tasks|
  {
    if tasks != [] {
      FinishedIsSerial(tasks[1..], s);
    }
  }

  lemma {:induction false} SagaOwns(req: Request, s: Stores)
    requires WellFormed(s) && GraphBehind(s)
    ensures Owns(s, req.Doc(), Footprint(req, s))
  {
  }

  ghost predicate Finished(c: Config) {
    forall i :: 0 <= i < |c.tasks| ==> c.tasks[i].rest.Done?
  }

  lemma {:induction false} InterleaveKeepsCount(c: Config, schedule: seq<nat>)
    ensures |Interleave(c, schedule).tasks| == |c.tasks|
    decreases |schedule|
  {
    if schedule != [] {
      InterleaveKeepsCount(Turn(c, schedule[0]), schedule[1..]);
    }
  }

  /** Any number of sagas on different documents with disjoint chunk ids, run concurrently under any
      schedule of their calls and with any failures: once all have finished, the stores and all results
      are those of running them one after the other. */
  lemma {:induction false} ConcurrentSagasAreSerial(sagas: seq<Entry>, s: Stores, schedule: seq<nat>)
    requires Independent(sagas, s) && WellFormed(s) && GraphBehind(s)
    ensures var c := Interleave(Config(Tasks(sagas), s), schedule);
      var (s', os) := OneByOne(sagas, s);
      |c.tasks| == |sagas| == |os| &&
      (Finished(c) ==> c.s == s' && forall i :: 0 <= i < |os| ==> c.tasks[i].rest == Done(os[i]))
  {
    var c := Config(Tasks(sagas), s);
    var claims := seq(|sagas|, i requires 0 <= i < |sagas| =>
      Claim(sagas[i].req.Doc(), Footprint(sagas[i].req, s)));
    forall i | 0 <= i < |sagas| ensures Keeps(c.tasks[i], s, claims[i]) {
      SagaConfined(sagas[i].req, Footprint(sagas[i].req, s));
      SagaOwns(sagas[i].req, s);
    }
    InterleaveIsSerial(c, claims, schedule);
    SerialIsOneByOne(sagas, s);
    InterleaveKeepsCount(c, schedule);
    var c' := Interleave(c, schedule);
    SerialCount(c'.tasks, c'.s);
    if Finished(c') {
      FinishedIsSerial(c'.tasks, c'.s);
    }
  }

  lemma {:induction false} SerialCount(tasks: seq<Task>, s: Stores)
    ensures |Serial(tasks, s).1| == |tasks|
    decreases |tasks|
  {
    if tasks != [] {
      SerialCount(tasks[1..], Run(tasks[0].oracle, tasks[0].calls, tasks[0].rest, s).0);
    }
  }

  // ---------------------------------------------------------------- every fair schedule finishes

  /** The most calls a program can make. */
  function Size(p: Prog): nat {
    if p.Done? then 0
    else 1 + if Size(p.onOk) >= Size(p.onFail) then Size(p.onOk) else Size(p.onFail)
  }

  function Turns(schedule: seq<nat>, k: nat): nat {
    if schedule == [] then 0 else (if schedule[0] == k then 1 else 0) + Turns(schedule[1..], k)
  }

  /** A schedule that gives each task as many turns as it can make calls finishes all of them. */
  lemma {:induction false} EnoughTurnsFinish(c: Config, schedule: seq<nat>)
    requires forall k :: 0 <= k < |c.tasks| ==> Turns(schedule, k) >= Size(c.tasks[k].rest)
    ensures Finished(Interleave(c, schedule))
    decreases |schedule|
  {
    if schedule == [] {
      assert forall k :: 0 <= k < |c.tasks| ==> Turns(schedule, k) == 0;
    } else {
      var c' := Turn(c, schedule[0]);
      forall k | 0 <= k < |c'.tasks| ensures Turns(schedule[1..], k) >= Size(c'.tasks[k].rest) {
        assert Turns(schedule, k) >= Size(c.tasks[k].rest);
      }
      EnoughTurnsFinish(c', schedule[1..]);
    }
  }

  /** Such sagas under any schedule with enough turns do finish, and end as one after the other. */
  lemma {:induction false} FairSchedulesAreSerial(sagas: seq<Entry>, s: Stores, schedule: seq<nat>)
    requires Independent(sagas, s) && WellFormed(s) && GraphBehind(s)
    requires forall k :: 0 <= k < |sagas| ==> Turns(schedule, k) >= Size(SagaProg(sagas[k].req))
    ensures var c := Interleave(Config(Tasks(sagas), s), schedule);
      var (s', os) := OneByOne(sagas, s);
      && c.s == s' && |c.tasks| == |os|
      && forall i :: 0 <= i < |os| ==> c.tasks[i].rest == Done(os[i])
  {
    EnoughTurnsFinish(Config(Tasks(sagas), s), schedule);
    ConcurrentSagasAreSerial(sagas, s, schedule);
  }
}
