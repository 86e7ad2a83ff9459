/** The audit buffer: a bounded deque filled by appenders and emptied by flush tasks that release the
    lock while they write to the database and put their batch back when the write fails. */
module AuditBuffer {

  /** A log carries its position among all logs ever appended, which makes logs distinct. */
  datatype Log = Log(serial: nat, body: string)

  /** The last n logs of s. */
  function Newest(s: seq<Log>, n: nat): seq<Log> {
    if |s| <= n then s else s[|s| - n..]
  }

  /** What is cut off by Newest. */
  function Oldest(s: seq<Log>, n: nat): seq<Log> {
    if |s| <= n then [] else s[..|s| - n]
  }

  // ---------------------------------------------------------------- all interleavings

  /** `inflight` holds the batch of every flush task that is writing; `dropped` what a full buffer
      pushed out; `lost` the batches of tasks cancelled while writing. */
  datatype State = State(
    appended: seq<Log>, buffer: seq<Log>, inflight: seq<seq<Log>>,
    persisted: seq<Log>, dropped: seq<Log>, lost: seq<Log>)

  const EMPTY := State([], [], [], [], [], [])

  datatype Step = Append(body: string) | Take | Commit(task: nat) | Restore(task: nat) | Cancel(task: nat)

  function Without(tasks: seq<seq<Log>>, i: nat): seq<seq<Log>>
    requires i < |tasks|
  {
    tasks[..i] + tasks[i + 1..]
  }

  /** One atomic step; a step of a task that does not exist does nothing. */
  function Next(max: nat, s: State, step: Step): State {
    match step
    case Append(body) =>
      var log := Log(|s.appended|, body);
      s.(appended := s.appended + [log],
         buffer := Newest(s.buffer + [log], max),
         dropped := s.dropped + Oldest(s.buffer + [log], max))
    case Take =>
      if s.buffer == [] then s else s.(buffer := [], inflight := s.inflight + [s.buffer])
    case Commit(i) =>
      if i >= |s.inflight| then s else
        s.(inflight := Without(s.inflight, i), persisted := s.persisted + s.inflight[i])
    case Restore(i) =>
      if i >= |s.inflight| then s else
        var all := s.inflight[i] + s.buffer;
        s.(inflight := Without(s.inflight, i), buffer := Newest(all, max), dropped := s.dropped + Oldest(all, max))
    case Cancel(i) =>
      if i >= |s.inflight| then s else
        s.(inflight := Without(s.inflight, i), lost := s.lost + s.inflight[i])
  }

  function Run(max: nat, s: State, steps: seq<Step>): State
    decreases |steps|
  {
    if steps == [] then s else Run(max, Next(max, s, steps[0]), steps[1..])
  }

  // ---------------------------------------------------------------- the service object

  /** The object, with the state of the transition system as a ghost: every method is a step of it. */
  class AuditService {
    const batchSize: int
    const maxBufferSize: nat
    var buffer: seq<Log>
    var serial: nat  // names the next log
    ghost var state: State

    ghost predicate Valid()
      reads this
    {
      |buffer| <= maxBufferSize && state.buffer == buffer && |state.appended| == serial
    }

    constructor (batchSize: int, maxBufferSize: nat)
      ensures Valid() && state == EMPTY
      ensures this.batchSize == batchSize && this.maxBufferSize == maxBufferSize
    {
      this.batchSize, this.maxBufferSize, buffer, serial := batchSize, maxBufferSize, [], 0;
      state := EMPTY;
    }

    /** Append under the lock; a full deque drops its oldest log.  `flush` says that a task is spawned. */
    method AddLog(body: string) returns (flush: bool)
      requires Valid()
      modifies this
      ensures Valid() && state == Next(maxBufferSize, old(state), Append(body))
      ensures buffer == Newest(old(buffer) + [Log(old(serial), body)], maxBufferSize)
      ensures flush <==> |buffer| >= batchSize
    {
      state := Next(maxBufferSize, state, Append(body));
      buffer := buffer + [Log(serial, body)];
      serial := serial + 1;
      if |buffer| > maxBufferSize {
        buffer := buffer[1..];
      }
      flush := |buffer| >= batchSize;
    }

    /** First critical section of a flush: take everything. */
    method TakeBatch() returns (logs: seq<Log>)
      requires Valid()
      modifies this
      ensures Valid() && state == Next(maxBufferSize, old(state), Take)
      ensures logs == old(buffer) && buffer == []
    {
      state := Next(maxBufferSize, state, Take);
      logs := buffer;
      buffer := [];
    }

    /** The write of a task's batch succeeded: nothing is left to do. */
    ghost method Confirm(task: nat)
      requires Valid()
      modifies this`state
      ensures Valid() && state == Next(maxBufferSize, old(state), Commit(task))
    {
      state := Next(maxBufferSize, state, Commit(task));
    }

    /** Second critical section, after a failed write: put logs back from the newest to the oldest
        while there is room. */
    method PutBack(logs: seq<Log>, ghost task: nat)
      requires Valid() && task < |state.inflight| && state.inflight[task] == logs
      modifies this
      ensures Valid() && state == Next(maxBufferSize, old(state), Restore(task))
      ensures buffer == Newest(logs + old(buffer), maxBufferSize)
    {
      ghost var before := buffer;
      state := Next(maxBufferSize, state, Restore(task));
      var n := |logs|;
      while n > 0
        invariant 0 <= n <= |logs| && |buffer| <= maxBufferSize
        invariant buffer == logs[n..] + before
        invariant state == Next(maxBufferSize, old(state), Restore(task)) && serial == old(serial)
      {
        if |buffer| < maxBufferSize {
          buffer := [logs[n - 1]] + buffer;
        } else {
          assert (logs + before)[n..] == logs[n..] + before;
          return;
        }
        n := n - 1;
      }
      assert logs[0..] == logs;
    }

    /** A flush during which no other task runs: nothing is lost, and a failed one changes nothing. */
    method FlushAlone(writeSucceeds: bool) returns (persisted: seq<Log>)
      requires Valid()
      modifies this
      ensures Valid() && persisted + buffer == old(buffer)
      ensures if writeSucceeds then buffer == [] else persisted == []
      ensures var n := |old(state).inflight|;
        var taken := Next(maxBufferSize, old(state), Take);
        state == if old(buffer) == [] then old(state)
          else Next(maxBufferSize, taken, if writeSucceeds then Commit(n) else Restore(n))
    {
      ghost var n := |state.inflight|;
      var logs := TakeBatch();
      persisted := [];
      if logs != [] {
        if writeSucceeds {
          Confirm(n);
          persisted := logs;
        } else {
          assert logs + [] == logs;
          PutBack(logs, n);
        }
      }
    }
  }

  // ---------------------------------------------------------------- conservation

  function Flat(tasks: seq<seq<Log>>): seq<Log> {
    if tasks == [] then [] else tasks[0] + Flat(tasks[1..])
  }

  /** Every place a log can be in, with multiplicity. */
  ghost function Everywhere(s: State): multiset<Log> {
    multiset(s.buffer) + multiset(Flat(s.inflight)) + multiset(s.persisted)
      + multiset(s.dropped) + multiset(s.lost)
  }

  ghost predicate Conserved(max: nat, s: State) {
    && |s.buffer| <= max
    && (forall i :: 0 <= i < |s.inflight| ==> s.inflight[i] != [])
    && (forall i :: 0 <= i < |s.appended| ==> s.appended[i].serial == i)
    && Everywhere(s) == multiset(s.appended)
  }

  lemma {:induction false} FlatAppend(tasks: seq<seq<Log>>, b: seq<Log>)
    ensures Flat(tasks + [b]) == Flat(tasks) + b
  {
    if tasks == [] {
      assert tasks + [b] == [b];
      assert Flat([b]) == b + Flat([]) == b;
    } else {
      assert (tasks + [b])[1..] == tasks[1..] + [b];
      FlatAppend(tasks[1..], b);
    }
  }

  lemma {:induction false} FlatWithout(tasks: seq<seq<Log>>, i: nat)
    requires i < |tasks|
    ensures multiset(Flat(tasks)) == multiset(Flat(Without(tasks, i))) + multiset(tasks[i])
  {
    if i == 0 {
      assert Without(tasks, 0) == tasks[1..];
    } else {
      assert Without(tasks, i)[1..] == Without(tasks[1..], i - 1) && Without(tasks, i)[0] == tasks[0];
      FlatWithout(tasks[1..], i - 1);
    }
  }

  lemma CutSplits(s: seq<Log>, n: nat)
    ensures s == Oldest(s, n) + Newest(s, n)
    ensures multiset(s) == multiset(Oldest(s, n)) + multiset(Newest(s, n))
    ensures |Newest(s, n)| <= n
  {
    assert s == Oldest(s, n) + Newest(s, n);
  }

  /** Cutting `all` into a buffer and a dropped part moves nothing out of sight. */
  lemma CutEverywhere(s: State, all: seq<Log>, kept: seq<Log>, gone: seq<Log>)
    requires all == gone + kept
    ensures Everywhere(s.(buffer := kept, dropped := s.dropped + gone)) == Everywhere(s.(buffer := all))
  {
  }

  lemma ConservedAppend(max: nat, s: State, body: string)
    requires Conserved(max, s)
    ensures Conserved(max, Next(max, s, Append(body)))
  {
    var log := Log(|s.appended|, body);
    var all := s.buffer + [log];
    CutSplits(all, max);
    CutEverywhere(s, all, Newest(all, max), Oldest(all, max));
    assert multiset(all) == multiset(s.buffer) + multiset{log};
    assert Everywhere(s.(buffer := all)) == Everywhere(s) + multiset{log};
    assert multiset(s.appended + [log]) == multiset(s.appended) + multiset{log};
    AppendWhole(max, s, log, Newest(all, max), Oldest(all, max));
  }

  lemma AppendWhole(max: nat, s: State, log: Log, kept: seq<Log>, gone: seq<Log>)
    requires Conserved(max, s) && log.serial == |s.appended| && |kept| <= max
    requires var s1 := s.(buffer := kept, dropped := s.dropped + gone);
      Everywhere(s1) == multiset(s.appended + [log])
    ensures Conserved(max, s.(appended := s.appended + [log], buffer := kept, dropped := s.dropped + gone))
  {
  }

  lemma ConservedTake(max: nat, s: State)
    requires Conserved(max, s)
    ensures Conserved(max, Next(max, s, Take))
  {
    FlatAppend(s.inflight, s.buffer);
    assert multiset(Flat(s.inflight) + s.buffer) == multiset(Flat(s.inflight)) + multiset(s.buffer);
    assert multiset(s.buffer[..0]) == multiset{};
  }

  lemma LeaveFlight(s: State, i: nat)
    requires i < |s.inflight| && forall j :: 0 <= j < |s.inflight| ==> s.inflight[j] != []
    ensures var s1 := s.(inflight := Without(s.inflight, i));
      && Everywhere(s) == Everywhere(s1) + multiset(s.inflight[i])
      && (forall j :: 0 <= j < |s1.inflight| ==> s1.inflight[j] != [])
  {
    FlatWithout(s.inflight, i);
  }

  lemma ConservedRestore(max: nat, s: State, s1: State, b: seq<Log>)
    requires Conserved(max, s)
    requires s1 == s.(inflight := s1.inflight) && Everywhere(s) == Everywhere(s1) + multiset(b)
    requires forall i :: 0 <= i < |s1.inflight| ==> s1.inflight[i] != []
    ensures var all := b + s.buffer;
      Conserved(max, s1.(buffer := Newest(all, max), dropped := s.dropped + Oldest(all, max)))
  {
    var all := b + s.buffer;
    CutSplits(all, max);
    CutEverywhere(s1, all, Newest(all, max), Oldest(all, max));
    RestoreWhole(max, s, s1, b, Newest(all, max), Oldest(all, max));
  }

  lemma ConservedLeave(max: nat, s: State, step: Step)
    requires Conserved(max, s) && (step.Commit? || step.Restore? || step.Cancel?)
    ensures Conserved(max, Next(max, s, step))
  {
    if step.task < |s.inflight| {
      var b := s.inflight[step.task];
      var s1 := s.(inflight := Without(s.inflight, step.task));
      LeaveFlight(s, step.task);
      if step.Restore? {
        ConservedRestore(max, s, s1, b);
      } else {
        DoneWhole(max, s, s1, b);
      }
    }
  }

  lemma DoneWhole(max: nat, s: State, s1: State, b: seq<Log>)
    requires Conserved(max, s)
    requires s1 == s.(inflight := s1.inflight) && Everywhere(s) == Everywhere(s1) + multiset(b)
    requires forall i :: 0 <= i < |s1.inflight| ==> s1.inflight[i] != []
    ensures Conserved(max, s1.(persisted := s.persisted + b)) && Conserved(max, s1.(lost := s.lost + b))
  {
    assert multiset(s.persisted + b) == multiset(s.persisted) + multiset(b);
    assert multiset(s.lost + b) == multiset(s.lost) + multiset(b);
  }

  lemma RestoreWhole(max: nat, s: State, s1: State, b: seq<Log>, kept: seq<Log>, gone: seq<Log>)
    requires Conserved(max, s) && |kept| <= max
    requires s1 == s.(inflight := s1.inflight) && Everywhere(s) == Everywhere(s1) + multiset(b)
    requires forall i :: 0 <= i < |s1.inflight| ==> s1.inflight[i] != []
    requires Everywhere(s1.(buffer := kept, dropped := s.dropped + gone)) == Everywhere(s1.(buffer := b + s.buffer))
    ensures Conserved(max, s1.(buffer := kept, dropped := s.dropped + gone))
  {
    assert multiset(b + s.buffer) == multiset(b) + multiset(s.buffer);
  }

  lemma ConservedStep(max: nat, s: State, step: Step)
    requires Conserved(max, s)
    ensures Conserved(max, Next(max, s, step))
  {
    match step
    case Append(body) => ConservedAppend(max, s, body);
    case Take => ConservedTake(max, s);
    case _ => ConservedLeave(max, s, step);
  }

  lemma {:induction false} ConservedRun(max: nat, s: State, steps: seq<Step>)
    requires Conserved(max, s)
    ensures Conserved(max, Run(max, s, steps))
    decreases |steps|
  {
    if steps != [] {
      ConservedStep(max, s, steps[0]);
      ConservedRun(max, Next(max, s, steps[0]), steps[1..]);
    }
  }

  lemma {:induction false} SerialsAreUnique(logs: seq<Log>, x: Log)
    requires forall i :: 0 <= i < |logs| ==> logs[i].serial == i
    ensures multiset(logs)[x] == if x in logs then 1 else 0
  {
    if logs != [] {
      var init, last := logs[..|logs| - 1], logs[|logs| - 1];
      assert logs == init + [last];
      SerialsAreUnique(init, x);
      assert last !in init;
    }
  }

  /** After any interleaving of appends, flushes, failures and cancellations each appended log is in
      exactly one place exactly once, nothing else is anywhere, and the buffer is within its bound. */
  lemma Conservation(max: nat, steps: seq<Step>)
    ensures var s := Run(max, EMPTY, steps);
      && |s.buffer| <= max
      && (forall x :: x in s.appended ==> Everywhere(s)[x] == 1)
      && (forall x :: x !in s.appended ==> Everywhere(s)[x] == 0)
  {
    assert Conserved(max, EMPTY);
    ConservedRun(max, EMPTY, steps);
    var s := Run(max, EMPTY, steps);
    forall x ensures Everywhere(s)[x] == if x in s.appended then 1 else 0 {
      SerialsAreUnique(s.appended, x);
    }
  }

  // ---------------------------------------------------------------- when nothing is lost

  /** A step that meets a full buffer, or cancels a flush while it writes. */
  predicate Loses(max: nat, s: State, step: Step) {
    match step
    case Append(_) => |s.buffer| >= max
    case Restore(i) => i < |s.inflight| && |s.inflight[i]| + |s.buffer| > max
    case Cancel(i) => i < |s.inflight|
    case _ => false
  }

  predicate LossyRun(max: nat, s: State, steps: seq<Step>)
    decreases |steps|
  {
    steps != [] && (Loses(max, s, steps[0]) || LossyRun(max, Next(max, s, steps[0]), steps[1..]))
  }

  lemma LossStep(max: nat, s: State, step: Step)
    requires Conserved(max, s)
    ensures var s' := Next(max, s, step);
      s'.dropped + s'.lost == [] <==> s.dropped + s.lost == [] && !Loses(max, s, step)
  {
  }

  lemma {:induction false} LossExactly(max: nat, s: State, steps: seq<Step>)
    requires Conserved(max, s)
    ensures var s' := Run(max, s, steps);
      s'.dropped + s'.lost == [] <==> s.dropped + s.lost == [] && !LossyRun(max, s, steps)
    decreases |steps|
  {
    if steps != [] {
      ConservedStep(max, s, steps[0]);
      LossStep(max, s, steps[0]);
      LossExactly(max, Next(max, s, steps[0]), steps[1..]);
    }
  }

  /** Logs are lost if and only if some append or restore met a full buffer or some flush was cancelled
      while writing. */
  lemma NothingLostUnless(max: nat, steps: seq<Step>)
    ensures var s := Run(max, EMPTY, steps);
      (forall x :: x in s.appended ==> x in s.buffer || x in Flat(s.inflight) || x in s.persisted)
        <==> !LossyRun(max, EMPTY, steps)
  {
    assert Conserved(max, EMPTY);
    LossExactly(max, EMPTY, steps);
    ConservedRun(max, EMPTY, steps);
    Conservation(max, steps);
    var s := Run(max, EMPTY, steps);
    var kept := multiset(s.buffer) + multiset(Flat(s.inflight)) + multiset(s.persisted);
    if s.dropped + s.lost == [] {
      assert s.dropped == [] && s.lost == [];
      assert Everywhere(s) == kept;
    } else {
      var x := (s.dropped + s.lost)[0];
      assert x in multiset(s.dropped) + multiset(s.lost);
      assert Everywhere(s)[x] == kept[x] + (multiset(s.dropped) + multiset(s.lost))[x];
      assert x in Everywhere(s) && x in s.appended;
    }
  }
}
