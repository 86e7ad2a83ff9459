/** The consumer object: its methods are runs of the delivery machine. */
module EventConsumer {
  import opened Stores
  import opened Delivery

  /** What the handlers of one message leave in the trace; raises(i) says that the i-th raises. */
  function Attempts(offset: Offset, list: seq<Handler>, raises: nat -> bool, n: nat): (events: seq<Event>)
    requires n <= |list|
    ensures |events| == n
  {
    seq(n, i requires 0 <= i < n => Attempted(offset, list[i], raises(i)))
  }

  /** The state after a message has been consumed without interruption: every handler has been
      attempted, in order, whichever of them raise, and then the position is committed if that succeeds. */
  function AfterMessage(s: State, raises: nat -> bool, commitOk: bool): State
    requires s.current.None? && s.position < |s.log|
  {
    var kind, o, upTo := s.log[s.position], s.position, s.position + 1;
    var list := Handlers(s.handlers, kind);
    var pass := Pass(o, kind, list, |list|, list, [], [], []);
    if list == [] then s.(position := upTo, trace := s.trace + [Settled(pass)])
    else s.(
      position := upTo,
      committed := if commitOk then upTo else s.committed,
      trace := s.trace + Attempts(o, list, raises, |list|) + [Settled(pass)]
        + if commitOk then [Committed(upTo)] else [])
  }

  function MessageSteps(n: nat, raises: nat -> bool, commitOk: bool): seq<Step> {
    if n == 0 then [Fetch] else [Fetch] + seq(n, i requires 0 <= i < n => Attempt(raises(i))) + [Finish(commitOk)]
  }

  lemma {:induction false} RunSnoc(s: State, steps: seq<Step>, last: Step)
    requires Runnable(s, steps) && Enabled(Run(s, steps), last)
    ensures Runnable(s, steps + [last]) && Run(s, steps + [last]) == Next(Run(s, steps), last)
    decreases |steps|
  {
    if steps == [] {
      assert steps + [last] == [last] && [last][1..] == [];
    } else {
      assert (steps + [last])[1..] == steps[1..] + [last];
      RunSnoc(Next(s, steps[0]), steps[1..], last);
    }
  }

  /** The machine in the middle of a message, after n handlers. */
  function Midway(s: State, raises: nat -> bool, n: nat): State
    requires s.current.None? && s.position < |s.log|
    requires n <= |Handlers(s.handlers, s.log[s.position])|
  {
    var kind := s.log[s.position];
    var list := Handlers(s.handlers, kind);
    s.(position := s.position + 1, current := Some(Pass(s.position, kind, list, n, list[..n], [], [], [])),
       trace := s.trace + Attempts(s.position, list, raises, n))
  }

  lemma {:induction false} MidwayStep(s: State, raises: nat -> bool, n: nat)
    requires s.current.None? && s.position < |s.log|
    requires n < |Handlers(s.handlers, s.log[s.position])|
    ensures Enabled(Midway(s, raises, n), Attempt(raises(n)))
    ensures Next(Midway(s, raises, n), Attempt(raises(n))) == Midway(s, raises, n + 1)
  {
    var o := s.position;
    var list := Handlers(s.handlers, s.log[o]);
    assert list[..n + 1] == list[..n] + [list[n]];
    assert Attempts(o, list, raises, n + 1) == Attempts(o, list, raises, n) + [Attempted(o, list[n], raises(n))];
    assert s.trace + Attempts(o, list, raises, n + 1)
        == s.trace + Attempts(o, list, raises, n) + [Attempted(o, list[n], raises(n))];
  }

  lemma {:induction false} MidwayRun(s: State, raises: nat -> bool, n: nat)
    requires s.current.None? && s.position < |s.log|
    requires n <= |Handlers(s.handlers, s.log[s.position])| && Handlers(s.handlers, s.log[s.position]) != []
    ensures var steps := [Fetch] + seq(n, i requires 0 <= i < n => Attempt(raises(i)));
      Runnable(s, steps) && Run(s, steps) == Midway(s, raises, n)
  {
    var steps := [Fetch] + seq(n, i requires 0 <= i < n => Attempt(raises(i)));
    if n == 0 {
      assert steps == [Fetch] && [Fetch][1..] == [];
      assert s.trace + Attempts(s.position, Handlers(s.handlers, s.log[s.position]), raises, 0) == s.trace;
    } else {
      MidwayRun(s, raises, n - 1);
      MidwayStep(s, raises, n - 1);
      var before := [Fetch] + seq(n - 1, i requires 0 <= i < n - 1 => Attempt(raises(i)));
      assert steps == before + [Attempt(raises(n - 1))];
      RunSnoc(s, before, Attempt(raises(n - 1)));
    }
  }

  lemma {:induction false} QuietIsUndisturbed(s: State, steps: seq<Step>)
    requires Runnable(s, steps)
    requires forall i :: 0 <= i < |steps| ==> steps[i].Fetch? || steps[i].Attempt? || steps[i].Finish?
    ensures Undisturbed(s, steps)
    decreases |steps|
  {
    if steps != [] {
      QuietIsUndisturbed(Next(s, steps[0]), steps[1..]);
    }
  }

  /** Consuming a message without interruption is a run of the machine, and not a disturbed one. */
  lemma {:induction false} MessageIsRun(s: State, raises: nat -> bool, commitOk: bool)
    requires s.current.None? && s.position < |s.log|
    ensures var steps := MessageSteps(|Handlers(s.handlers, s.log[s.position])|, raises, commitOk);
      && Runnable(s, steps) && Undisturbed(s, steps)
      && Run(s, steps) == AfterMessage(s, raises, commitOk)
  {
    var list := Handlers(s.handlers, s.log[s.position]);
    var n := |list|;
    if n == 0 {
      assert [Fetch][1..] == [];
    } else {
      MidwayRun(s, raises, n);
      assert list[..n] == list;
      RunSnoc(s, [Fetch] + seq(n, i requires 0 <= i < n => Attempt(raises(i))), Finish(commitOk));
    }
    QuietIsUndisturbed(s, MessageSteps(n, raises, commitOk));
  }

  class EventConsumer {
    var log: seq<string>
    var committed: Offset
    var position: Offset
    var handlers: map<string, seq<Handler>>
    var trace: seq<Event>

    /** The state with the given message in progress. */
    function With(current: Option<Pass>): State
      reads this
    {
      State(log, committed, position, handlers, current, trace)
    }

    constructor ()
      ensures With(None) == INITIAL
    {
      log, committed, position, handlers, trace := [], 0, 0, map[], [];
    }

    method RegisterHandler(kind: string, h: Handler)
      modifies this`handlers
      ensures With(None) == Next(old(With(None)), Register(kind, h))
    {
      if kind !in handlers {
        handlers := handlers[kind := []];
      }
      handlers := handlers[kind := handlers[kind] + [h]];
    }

    method UnregisterHandler(kind: string, h: Handler) returns (removed: bool)
      modifies this`handlers
      ensures With(None) == Next(old(With(None)), Unregister(kind, h))
      ensures removed <==> h in Listed(old(handlers), kind)
    {
      if kind !in handlers {
        return false;
      }
      var i := IndexOf(handlers[kind], h);
      if i == |handlers[kind]| {
        return false;
      }
      handlers := handlers[kind := Without(handlers[kind], i)];
      return true;
    }

    /** The passage of one fetched message through its handlers. */
    method ProcessMessage(kind: string, raises: nat -> bool, commitOk: bool)
      requires 0 < position <= |log| && log[position - 1] == kind
      modifies this`committed, this`trace
      ensures With(None) == AfterMessage(old(With(None)).(position := old(position) - 1), raises, commitOk)
    {
      ghost var s := With(None).(position := position - 1);
      var list := Handlers(handlers, kind);
      if list == [] {
        trace := trace + [Settled(Pass(position - 1, kind, [], 0, [], [], [], []))];
        return;
      }
      for i := 0 to |list|
        invariant With(Some(Pass(position - 1, kind, list, i, list[..i], [], [], []))) == Midway(s, raises, i)
      {
        MidwayStep(s, raises, i);
        trace := trace + [Attempted(position - 1, list[i], raises(i))];
      }
      assert list[..|list|] == list;
      trace := trace + [Settled(Pass(position - 1, kind, list, |list|, list, [], [], []))];
      if commitOk {
        committed := position;
        trace := trace + [Committed(position)];
      }
    }

    method ConsumeOne(raises: nat -> bool, commitOk: bool) returns (kind: Option<string>)
      requires position <= |log|
      modifies this`committed, this`position, this`trace
      ensures old(position) == |log| ==> kind == None && With(None) == old(With(None))
      ensures old(position) < |log| ==>
        kind == Some(log[old(position)]) && With(None) == AfterMessage(old(With(None)), raises, commitOk)
    {
      if position == |log| {
        return None;
      }
      kind := Some(log[position]);
      position := position + 1;
      ProcessMessage(kind.value, raises, commitOk);
    }
  }
}
