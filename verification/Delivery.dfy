/** Event delivery: one consumer task on one partition, whose offsets are committed after the handlers
    of a message have run.

    Handlers may be registered and unregistered while a message is in progress, because the loop over
    them gives way at every handler; it walks the live list by position. */
module Delivery {
  import opened Stores
  import opened Sequences

  type Handler = nat
  type Offset = nat

  /** The passage of one message through its handlers: `next` is the position of the loop in the live
      list.  Since the message was fetched, when `registered` was the list, handlers were attempted,
      added, withdrawn while they waited for their turn, and skipped by the loop. */
  datatype Pass = Pass(
    offset: Offset, kind: string, registered: seq<Handler>, next: nat,
    attempted: seq<Handler>, added: seq<Handler>, withdrawn: seq<Handler>, skipped: seq<Handler>)

  datatype Event =
    | Attempted(offset: Offset, handler: Handler, raised: bool)
    | Settled(pass: Pass)      // the loop over the handlers of a message has ended
    | Interrupted(pass: Pass)  // the message was given up in the middle
    | Committed(upTo: Offset)

  /** The log holds the event type of every message, "" for a message without one.  `position` is the
      next offset the consumer fetches, `committed` the offset it resumes from. */
  datatype State = State(
    log: seq<string>, committed: Offset, position: Offset, handlers: map<string, seq<Handler>>,
    current: Option<Pass>, trace: seq<Event>)

  const INITIAL := State([], 0, 0, map[], None, [])

  /** Attempt begins a handler, which is under way until the next step of the loop: registrations and a
      cancellation that follow an Attempt fall into it.  A commit that fails or is cancelled is
      Finish(false). */
  datatype Step =
    | Produce(kind: string)
    | Register(kind: string, handler: Handler)
    | Unregister(kind: string, handler: Handler)
    | Fetch
    | Attempt(raised: bool)
    | Finish(commitOk: bool)
    | Cancel                  // the consuming coroutine is cancelled in the middle of a handler
    | Restart(dropped: bool)  // the consumer is stopped and started; the message in progress may go on
    | Crash

  function Listed(handlers: map<string, seq<Handler>>, kind: string): seq<Handler> {
    if kind in handlers then handlers[kind] else []
  }

  /** The handlers a message is routed to; a message without a type has none. */
  function Handlers(handlers: map<string, seq<Handler>>, kind: string): seq<Handler> {
    if kind == "" then [] else Listed(handlers, kind)
  }

  /** list.index, or the length of the list. */
  function IndexOf(list: seq<Handler>, h: Handler): (i: nat)
    ensures i <= |list|
    ensures i < |list| ==> list[i] == h
    ensures forall j :: 0 <= j < i ==> list[j] != h
  {
    if list == [] || list[0] == h then 0 else 1 + IndexOf(list[1..], h)
  }

  function Without(list: seq<Handler>, i: nat): seq<Handler>
    requires i < |list|
  {
    list[..i] + list[i + 1..]
  }

  /** The handlers the loop has yet to come to. */
  function Waiting(p: Pass, list: seq<Handler>): seq<Handler> {
    if p.next < |list| then list[p.next..] else []
  }

  // What a step means for the message in progress, whose live list is `list`.

  function Attempting(p: Pass, list: seq<Handler>): Pass
    requires p.next < |list|
  {
    p.(next := p.next + 1, attempted := p.attempted + [list[p.next]])
  }

  /** A new handler waits for its turn, unless the list has shrunk behind the loop. */
  function Registering(p: Pass, list: seq<Handler>, h: Handler): Pass {
    p.(added := p.added + [h], skipped := p.skipped + if p.next > |list| then [h] else [])
  }

  /** A handler that waits is withdrawn; one that has run makes the loop skip the first that waits. */
  function Unregistering(p: Pass, list: seq<Handler>, i: nat): Pass
    requires i < |list|
  {
    if i >= p.next then p.(withdrawn := p.withdrawn + [list[i]])
    else if p.next < |list| then p.(skipped := p.skipped + [list[p.next]])
    else p
  }

  predicate Enabled(s: State, step: Step) {
    match step
    case Fetch => s.current.None? && s.position < |s.log|
    case Attempt(_) => s.current.Some? && s.current.value.next < |Handlers(s.handlers, s.current.value.kind)|
    case Finish(_) => s.current.Some? && s.current.value.next >= |Handlers(s.handlers, s.current.value.kind)|
    case Cancel => s.current.Some? && s.current.value.attempted != []
    case _ => true
  }

  predicate Concerns(s: State, kind: string) {
    s.current.Some? && s.current.value.kind == kind
  }

  /** The trace of giving up the message in progress, if there is one. */
  function GiveUp(s: State): seq<Event> {
    if s.current.Some? then s.trace + [Interrupted(s.current.value)] else s.trace
  }

  function Next(s: State, step: Step): State
    requires Enabled(s, step)
  {
    match step
    case Produce(kind) => s.(log := s.log + [kind])
    case Register(kind, h) =>
      var list := Listed(s.handlers, kind);
      s.(handlers := s.handlers[kind := list + [h]],
         current := if Concerns(s, kind) then Some(Registering(s.current.value, list, h)) else s.current)
    case Unregister(kind, h) =>
      var list := Listed(s.handlers, kind);
      var i := IndexOf(list, h);
      if i == |list| then s else
        s.(handlers := s.handlers[kind := Without(list, i)],
           current := if Concerns(s, kind) then Some(Unregistering(s.current.value, list, i)) else s.current)
    case Fetch =>
      var kind := s.log[s.position];
      var list := Handlers(s.handlers, kind);
      var pass := Pass(s.position, kind, list, 0, [], [], [], []);
      // a message that nobody handles is passed over without a commit
      if list == [] then s.(position := s.position + 1, trace := s.trace + [Settled(pass)])
      else s.(position := s.position + 1, current := Some(pass))
    case Attempt(raised) =>
      var p := s.current.value;
      var list := Handlers(s.handlers, p.kind);
      s.(current := Some(Attempting(p, list)), trace := s.trace + [Attempted(p.offset, list[p.next], raised)])
    case Finish(ok) =>
      s.(current := None, committed := if ok then s.position else s.committed,
         trace := s.trace + [Settled(s.current.value)] + if ok then [Committed(s.position)] else [])
    case Cancel => s.(current := None, trace := GiveUp(s))
    case Restart(dropped) =>
      if dropped then s.(position := s.committed, current := None, trace := GiveUp(s))
      else s.(position := s.committed)
    case Crash => s.(position := s.committed, current := None, handlers := map[], trace := GiveUp(s))
  }

  predicate Runnable(s: State, steps: seq<Step>)
    decreases |steps|
  {
    steps != [] ==> Enabled(s, steps[0]) && Runnable(Next(s, steps[0]), steps[1..])
  }

  function Run(s: State, steps: seq<Step>): State
    requires Runnable(s, steps)
    decreases |steps|
  {
    if steps == [] then s else Run(Next(s, steps[0]), steps[1..])
  }

  // ---------------------------------------------------------------- which handlers a message gets

  /** list.remove */
  function RemoveFirst(list: seq<Handler>, h: Handler): seq<Handler> {
    if list == [] then [] else if list[0] == h then list[1..] else [list[0]] + RemoveFirst(list[1..], h)
  }

  /** What a run of steps makes of the handlers of one type. */
  function Registered(list: seq<Handler>, steps: seq<Step>, kind: string): seq<Handler>
    decreases |steps|
  {
    if steps == [] then list else
      var list' :=
        match steps[0]
        case Register(k, h) => if k == kind then list + [h] else list
        case Unregister(k, h) => if k == kind then RemoveFirst(list, h) else list
        case Crash => []
        case _ => list;
      Registered(list', steps[1..], kind)
  }

  lemma {:induction false} RemovesFirst(list: seq<Handler>, h: Handler)
    ensures var i := IndexOf(list, h); RemoveFirst(list, h) == if i == |list| then list else Without(list, i)
  {
    if list != [] && list[0] != h {
      RemovesFirst(list[1..], h);
      var i := IndexOf(list[1..], h);
      if i < |list| - 1 {
        assert Without(list, i + 1) == [list[0]] + Without(list[1..], i);
      }
    }
  }

  lemma {:induction false} RegistrationsKept(s: State, steps: seq<Step>, kind: string)
    requires Runnable(s, steps)
    ensures Listed(Run(s, steps).handlers, kind) == Registered(Listed(s.handlers, kind), steps, kind)
    decreases |steps|
  {
    if steps != [] {
      if steps[0].Unregister? {
        RemovesFirst(Listed(s.handlers, kind), steps[0].handler);
      }
      RegistrationsKept(Next(s, steps[0]), steps[1..], kind);
    }
  }

  /** After any run the next message fetched gets the handlers that have been registered for its own type
      since the last crash and not been unregistered, in that order, before any of them is attempted; a
      message without any, or without a type, is settled at once. */
  lemma {:induction false} FetchIsRouted(steps: seq<Step>)
    requires Runnable(INITIAL, steps) && Enabled(Run(INITIAL, steps), Fetch)
    ensures var s := Run(INITIAL, steps);
      var s', kind := Next(s, Fetch), s.log[s.position];
      var list := if kind == "" then [] else Registered([], steps, kind);
      var pass := Pass(s.position, kind, list, 0, [], [], [], []);
      s' == if list == [] then s.(position := s.position + 1, trace := s.trace + [Settled(pass)])
            else s.(position := s.position + 1, current := Some(pass))
  {
    var s := Run(INITIAL, steps);
    RegistrationsKept(INITIAL, steps, s.log[s.position]);
  }

  predicate KindIsLogged(log: seq<string>, p: Pass) {
    p.offset < |log| && p.kind == log[p.offset]
  }

  predicate AllLogged(s: State) {
    && (s.current.Some? ==> KindIsLogged(s.log, s.current.value))
    && forall t :: 0 <= t < |s.trace| && (s.trace[t].Settled? || s.trace[t].Interrupted?) ==>
      KindIsLogged(s.log, s.trace[t].pass)
  }

  /** Every message settled, interrupted or in progress has the type that the log holds at its offset. */
  lemma {:induction false} MessagesKeepTheirType(s: State, steps: seq<Step>)
    requires Runnable(s, steps) && AllLogged(s)
    ensures AllLogged(Run(s, steps))
    decreases |steps|
  {
    if steps != [] {
      assert AllLogged(Next(s, steps[0]));
      MessagesKeepTheirType(Next(s, steps[0]), steps[1..]);
    }
  }

  // ---------------------------------------------------------------- the account of a message

  /** The attempts, continued by the handlers still waiting, are a subsequence of those registered. */
  predicate InOrder(p: Pass, list: seq<Handler>) {
    Subsequence(p.attempted + Waiting(p, list), p.registered + p.added)
  }

  /** Every handler registered when the message was fetched or since has been attempted, waits, was
      withdrawn while it waited, or was skipped; each in exactly one of these ways. */
  predicate Accounted(p: Pass, list: seq<Handler>) {
    multiset(p.registered) + multiset(p.added) ==
    multiset(p.attempted) + multiset(Waiting(p, list)) + multiset(p.withdrawn) + multiset(p.skipped)
  }

  predicate Tracked(p: Pass, list: seq<Handler>) {
    InOrder(p, list) && Accounted(p, list)
  }

  lemma {:induction false} FetchTracked(p: Pass, list: seq<Handler>)
    requires p == Pass(p.offset, p.kind, list, 0, [], [], [], [])
    ensures Tracked(p, list)
  {
    assert p.attempted + Waiting(p, list) == list == p.registered + p.added;
    SubsequenceSelf(list);
  }

  lemma {:induction false} RegisterInOrder(p: Pass, list: seq<Handler>, h: Handler)
    requires InOrder(p, list)
    ensures InOrder(Registering(p, list, h), list + [h])
  {
    var p' := Registering(p, list, h);
    var all, known := p.attempted + Waiting(p, list), p.registered + p.added;
    SubsequenceAppend(all, known, h);
    assert known + [h] == p'.registered + p'.added;
    if p.next <= |list| {
      assert all + [h] == p'.attempted + Waiting(p', list + [h]);
    } else {
      SubsequenceWithout(all + [h], known + [h], |all|);
      assert (all + [h])[..|all|] + (all + [h])[|all| + 1..] == p'.attempted + Waiting(p', list + [h]);
    }
  }

  lemma {:induction false} RegisterAccounted(p: Pass, list: seq<Handler>, h: Handler)
    requires Accounted(p, list)
    ensures Accounted(Registering(p, list, h), list + [h])
  {
    var p' := Registering(p, list, h);
    var waiting' := Waiting(p', list + [h]);
    assert multiset(p'.added) == multiset(p.added) + multiset{h};
    assert multiset(waiting') + multiset(p'.skipped)
        == multiset(Waiting(p, list)) + multiset(p.skipped) + multiset{h} by {
      if p.next <= |list| {
        assert waiting' == Waiting(p, list) + [h] && p'.skipped == p.skipped;
      } else {
        assert waiting' == Waiting(p, list) && p'.skipped == p.skipped + [h];
      }
    }
    forall x
      ensures (multiset(p'.registered) + multiset(p'.added))[x] ==
        (multiset(p'.attempted) + multiset(waiting') + multiset(p'.withdrawn) + multiset(p'.skipped))[x]
    {
      assert (multiset(p.registered) + multiset(p.added))[x] ==
        (multiset(p.attempted) + multiset(Waiting(p, list)) + multiset(p.withdrawn) + multiset(p.skipped))[x];
      assert (multiset(waiting') + multiset(p'.skipped))[x] ==
        (multiset(Waiting(p, list)) + multiset(p.skipped) + multiset{h})[x];
    }
  }

  lemma {:induction false} WithoutBehind(list: seq<Handler>, i: nat, n: nat)
    requires n <= i < |list|
    ensures Without(list, i)[n..] == Without(list[n..], i - n)
  {
  }

  lemma {:induction false} WithoutBefore(list: seq<Handler>, i: nat, n: nat)
    requires i < n < |list|
    ensures Without(list, i)[n..] == list[n..][1..]
  {
  }

  /** What unregistering does to the handlers waiting: if the handler is waiting it is taken out; if it
      has already run, the first of those waiting is skipped, although it stays registered. */
  lemma {:induction false} UnregisterShifts(p: Pass, list: seq<Handler>, i: nat)
    requires i < |list|
    ensures var before := Waiting(p, list);
      Waiting(p, Without(list, i)) ==
        if i >= p.next then Without(before, i - p.next) else if before == [] then [] else before[1..]
  {
    if i >= p.next {
      WithoutBehind(list, i, p.next);
    } else if p.next < |list| {
      WithoutBefore(list, i, p.next);
    }
  }

  lemma {:induction false} UnregisterInOrder(p: Pass, list: seq<Handler>, i: nat)
    requires i < |list| && InOrder(p, list)
    ensures InOrder(Unregistering(p, list, i), Without(list, i))
  {
    var before, after := Waiting(p, list), Waiting(p, Without(list, i));
    UnregisterShifts(p, list, i);
    assert Waiting(Unregistering(p, list, i), Without(list, i)) == after;
    if i >= p.next {
      WithoutWaiting(p.attempted, before, i - p.next, p.registered + p.added);
    } else if before != [] {
      WithoutWaiting(p.attempted, before, 0, p.registered + p.added);
      assert Without(before, 0) == before[1..];
    }
  }

  lemma {:induction false} WithoutWaiting(attempted: seq<Handler>, before: seq<Handler>, j: nat, known: seq<Handler>)
    requires j < |before| && Subsequence(attempted + before, known)
    ensures Subsequence(attempted + Without(before, j), known)
  {
    var all, m := attempted + before, |attempted| + j;
    SubsequenceWithout(all, known, m);
    assert all[..m] + all[m + 1..] == attempted + Without(before, j);
  }

  lemma {:induction false} MultisetOfWithout(list: seq<Handler>, i: nat)
    requires i < |list|
    ensures multiset(list) == multiset(Without(list, i)) + multiset{list[i]}
  {
    assert list == list[..i] + ([list[i]] + list[i + 1..]);
  }

  lemma {:induction false} UnregisterAccounted(p: Pass, list: seq<Handler>, i: nat)
    requires i < |list| && Accounted(p, list)
    ensures Accounted(Unregistering(p, list, i), Without(list, i))
  {
    if i >= p.next {
      WithdrawnAccounted(p, list, i);
    } else if p.next < |list| {
      SkippedAccounted(p, list, i);
    }
  }

  lemma {:induction false} WithdrawnAccounted(p: Pass, list: seq<Handler>, i: nat)
    requires p.next <= i < |list| && Accounted(p, list)
    ensures Accounted(p.(withdrawn := p.withdrawn + [list[i]]), Without(list, i))
  {
    var before := Waiting(p, list);
    var after := Waiting(p, Without(list, i));
    UnregisterShifts(p, list, i);
    MultisetOfWithout(before, i - p.next);
    assert before[i - p.next] == list[i] && after == Without(before, i - p.next);
    Moves(p, list, list[i], after, p.withdrawn + [list[i]], p.skipped);
  }

  lemma {:induction false} SkippedAccounted(p: Pass, list: seq<Handler>, i: nat)
    requires i < p.next < |list| && Accounted(p, list)
    ensures Accounted(p.(skipped := p.skipped + [list[p.next]]), Without(list, i))
  {
    var before := Waiting(p, list);
    var after := Waiting(p, Without(list, i));
    UnregisterShifts(p, list, i);
    MultisetOfWithout(before, 0);
    assert before[0] == list[p.next] && after == Without(before, 0);
    Moves(p, list, list[p.next], after, p.withdrawn, p.skipped + [list[p.next]]);
  }

  /** One handler moves from those waiting to the withdrawn or the skipped. */
  lemma {:induction false} Moves(
    p: Pass, list: seq<Handler>, h: Handler, after: seq<Handler>, withdrawn: seq<Handler>, skipped: seq<Handler>)
    requires Accounted(p, list) && multiset(Waiting(p, list)) == multiset(after) + multiset{h}
    requires || (withdrawn == p.withdrawn + [h] && skipped == p.skipped)
             || (withdrawn == p.withdrawn && skipped == p.skipped + [h])
    ensures multiset(p.registered) + multiset(p.added) ==
      multiset(p.attempted) + multiset(after) + multiset(withdrawn) + multiset(skipped)
  {
    assert multiset(withdrawn) + multiset(skipped) == multiset(p.withdrawn) + multiset(p.skipped) + multiset{h};
  }

  lemma {:induction false} AttemptTracked(p: Pass, list: seq<Handler>)
    requires p.next < |list| && Tracked(p, list)
    ensures Tracked(Attempting(p, list), list)
  {
    var p' := Attempting(p, list);
    assert p'.attempted + Waiting(p', list) == p.attempted + Waiting(p, list);
    assert multiset(p'.attempted + Waiting(p', list)) == multiset(p'.attempted) + multiset(Waiting(p', list));
    assert multiset(p.attempted + Waiting(p, list)) == multiset(p.attempted) + multiset(Waiting(p, list));
  }

  predicate PassTracked(s: State) {
    s.current.Some? ==>
      s.current.value.kind != "" && Tracked(s.current.value, Handlers(s.handlers, s.current.value.kind))
  }

  lemma {:induction false} TrackedAfterRegister(s: State, kind: string, h: Handler)
    requires PassTracked(s)
    ensures PassTracked(Next(s, Register(kind, h)))
  {
    var s' := Next(s, Register(kind, h));
    if s.current.Some? {
      var p := s.current.value;
      var list := Handlers(s.handlers, p.kind);
      if p.kind == kind {
        RegisterInOrder(p, list, h);
        RegisterAccounted(p, list, h);
        assert s'.current.value == Registering(p, list, h) && Handlers(s'.handlers, kind) == list + [h];
      } else {
        assert s'.current.value == p && Handlers(s'.handlers, p.kind) == list;
      }
    }
  }

  lemma {:induction false} TrackedAfterUnregister(s: State, kind: string, h: Handler)
    requires PassTracked(s)
    ensures PassTracked(Next(s, Unregister(kind, h)))
  {
    var all, s' := Listed(s.handlers, kind), Next(s, Unregister(kind, h));
    var i := IndexOf(all, h);
    if s.current.Some? && i < |all| {
      var p := s.current.value;
      if p.kind == kind {
        UnregisterInOrder(p, all, i);
        UnregisterAccounted(p, all, i);
        assert s'.current.value == Unregistering(p, all, i) && Handlers(s'.handlers, kind) == Without(all, i);
      } else {
        assert s'.current.value == p && Handlers(s'.handlers, p.kind) == Handlers(s.handlers, p.kind);
      }
    }
  }

  lemma {:induction false} TrackedAfterFetch(s: State)
    requires Enabled(s, Fetch)
    ensures PassTracked(Next(s, Fetch))
  {
    var kind := s.log[s.position];
    var list := Handlers(s.handlers, kind);
    FetchTracked(Pass(s.position, kind, list, 0, [], [], [], []), list);
  }

  lemma {:induction false} TrackedAfterAttempt(s: State, raised: bool)
    requires Enabled(s, Attempt(raised)) && PassTracked(s)
    ensures PassTracked(Next(s, Attempt(raised)))
  {
    AttemptTracked(s.current.value, Handlers(s.handlers, s.current.value.kind));
  }

  lemma {:induction false} TrackedStep(s: State, step: Step)
    requires Enabled(s, step) && PassTracked(s)
    ensures PassTracked(Next(s, step))
  {
    match step {
      case Register(kind, h) => TrackedAfterRegister(s, kind, h);
      case Unregister(kind, h) => TrackedAfterUnregister(s, kind, h);
      case Fetch => TrackedAfterFetch(s);
      case Attempt(raised) => TrackedAfterAttempt(s, raised);
      case _ =>
    }
  }

  // ---------------------------------------------------------------- what the trace says of a message

  predicate Ends(e: Event) {
    e.Settled? || e.Interrupted?
  }

  /** The attempts at the end of the trace, and no others before them, are those of the pass. */
  predicate AttemptsAre(trace: seq<Event>, p: Pass) {
    var n := |trace| - |p.attempted|;
    && n >= 0
    && (forall j :: n <= j < |trace| ==>
      trace[j].Attempted? && trace[j].offset == p.offset && trace[j].handler == p.attempted[j - n])
    && (n > 0 ==> !trace[n - 1].Attempted?)
  }

  /** A message that ended is accounted for: its attempts are those recorded since the one before it, in
      the order of registration, and if it was not interrupted every other handler was withdrawn or
      skipped. */
  predicate EndsWell(trace: seq<Event>, e: Event) {
    Ends(e) ==>
      && AttemptsAre(trace, e.pass)
      && Subsequence(e.pass.attempted, e.pass.registered + e.pass.added)
      && (e.Settled? ==>
        multiset(e.pass.registered) + multiset(e.pass.added) ==
        multiset(e.pass.attempted) + multiset(e.pass.withdrawn) + multiset(e.pass.skipped))
  }

  predicate TraceTells(trace: seq<Event>) {
    forall t :: 0 <= t < |trace| ==> EndsWell(trace[..t], trace[t])
  }

  predicate AttemptsTold(s: State) {
    if s.current.Some? then AttemptsAre(s.trace, s.current.value)
    else s.trace != [] ==> !s.trace[|s.trace| - 1].Attempted?
  }

  lemma {:induction false} SubsequencePrefix(a: seq<Handler>, b: seq<Handler>, known: seq<Handler>)
    requires Subsequence(a + b, known)
    ensures Subsequence(a, known)
    decreases |b|
  {
    if b == [] {
      assert a + b == a;
    } else {
      var all, n := a + b, |a + b| - 1;
      SubsequenceWithout(all, known, n);
      assert all[..n] + all[n + 1..] == a + b[..|b| - 1];
      SubsequencePrefix(a, b[..|b| - 1], known);
    }
  }

  lemma {:induction false} TraceGrows(trace: seq<Event>, e: Event)
    requires TraceTells(trace) && EndsWell(trace, e)
    ensures TraceTells(trace + [e])
  {
    var trace' := trace + [e];
    forall t | 0 <= t < |trace'| ensures EndsWell(trace'[..t], trace'[t]) {
      assert trace'[..t] == trace[..t];
      assert trace[..|trace|] == trace;
    }
  }

  lemma {:induction false} InterruptedWell(s: State)
    requires s.current.Some? && PassTracked(s) && AttemptsTold(s)
    ensures EndsWell(s.trace, Interrupted(s.current.value))
  {
    var p := s.current.value;
    SubsequencePrefix(p.attempted, Waiting(p, Handlers(s.handlers, p.kind)), p.registered + p.added);
  }

  lemma {:induction false} SettledWell(s: State, ok: bool)
    requires Enabled(s, Finish(ok)) && PassTracked(s) && AttemptsTold(s)
    ensures EndsWell(s.trace, Settled(s.current.value))
  {
    var p := s.current.value;
    assert p.attempted + Waiting(p, Handlers(s.handlers, p.kind)) == p.attempted;
  }

  lemma {:induction false} ToldStep(s: State, step: Step)
    requires Enabled(s, step) && AttemptsTold(s)
    ensures AttemptsTold(Next(s, step))
  {
    if step.Attempt? {
      var p := s.current.value;
      var list := Handlers(s.handlers, p.kind);
      assert AttemptsAre(s.trace + [Attempted(p.offset, list[p.next], step.raised)], Attempting(p, list));
    }
  }

  lemma {:induction false} TellsStep(s: State, step: Step)
    requires Enabled(s, step) && PassTracked(s) && AttemptsTold(s) && TraceTells(s.trace)
    ensures TraceTells(Next(s, step).trace)
  {
    match step {
      case Finish(ok) =>
        SettledWell(s, ok);
        TraceGrows(s.trace, Settled(s.current.value));
        if ok {
          TraceGrows(s.trace + [Settled(s.current.value)], Committed(s.position));
        } else {
          assert s.trace + [Settled(s.current.value)] + [] == s.trace + [Settled(s.current.value)];
        }
      case Attempt(raised) =>
        var p := s.current.value;
        TraceGrows(s.trace, Attempted(p.offset, Handlers(s.handlers, p.kind)[p.next], raised));
      case Fetch =>
        var kind := s.log[s.position];
        var p := Pass(s.position, kind, Handlers(s.handlers, kind), 0, [], [], [], []);
        if p.registered == [] {
          TraceGrows(s.trace, Settled(p));
        }
      case _ =>
        if s.current.Some? {
          InterruptedWell(s);
          TraceGrows(s.trace, Interrupted(s.current.value));
        }
    }
  }

  lemma {:induction false} TellsRun(s: State, steps: seq<Step>)
    requires Runnable(s, steps) && PassTracked(s) && AttemptsTold(s) && TraceTells(s.trace)
    ensures var s' := Run(s, steps); PassTracked(s') && AttemptsTold(s') && TraceTells(s'.trace)
    decreases |steps|
  {
    if steps != [] {
      TrackedStep(s, steps[0]);
      ToldStep(s, steps[0]);
      TellsStep(s, steps[0]);
      TellsRun(Next(s, steps[0]), steps[1..]);
    }
  }

  /** Over every run, disturbed or not, for every message settled, interrupted or in progress: the
      attempts recorded for it are in the order of registration, and every handler registered is
      accounted for. */
  lemma {:induction false} AttemptsInOrder(steps: seq<Step>)
    requires Runnable(INITIAL, steps)
    ensures var s := Run(INITIAL, steps); TraceTells(s.trace) && AttemptsTold(s) && PassTracked(s)
  {
    TellsRun(INITIAL, steps);
  }

  // ---------------------------------------------------------------- which commits are sound

  /** Every handler registered when the message was fetched or since has been attempted, or was
      unregistered before its turn. */
  predicate Covered(p: Pass) {
    multiset(p.registered) + multiset(p.added) == multiset(p.attempted) + multiset(p.withdrawn)
  }

  predicate SettledAt(trace: seq<Event>, t: nat, o: Offset) {
    t < |trace| && trace[t].Settled? && trace[t].pass.offset == o && Covered(trace[t].pass)
  }

  predicate Handled(trace: seq<Event>, o: Offset) {
    exists t :: 0 <= t < |trace| && SettledAt(trace, t, o)
  }

  ghost predicate AllHandled(trace: seq<Event>, n: nat) {
    forall o: nat :: o < n ==> Handled(trace, o)
  }

  /** No commit goes beyond what had been handled by then. */
  ghost predicate CommitsSound(trace: seq<Event>) {
    forall t :: 0 <= t < |trace| && trace[t].Committed? ==> AllHandled(trace[..t], trace[t].upTo)
  }

  /** What a caller who watches the steps can keep: the offsets with a passage in which no handler was
      skipped, and those that were cancelled or had a handler skipped and no such passage. */
  datatype Ledger = Ledger(covered: set<Offset>, owed: set<Offset>)

  function Enter(l: Ledger, o: Offset, clean: bool): Ledger {
    if clean then Ledger(l.covered + {o}, l.owed - {o})
    else if o in l.covered then l
    else l.(owed := l.owed + {o})
  }

  function Book(s: State, l: Ledger, step: Step): Ledger
    requires Enabled(s, step)
  {
    match step
    case Fetch => if Handlers(s.handlers, s.log[s.position]) == [] then Enter(l, s.position, true) else l
    case Finish(_) => Enter(l, s.current.value.offset, s.current.value.skipped == [])
    case Cancel => Enter(l, s.current.value.offset, false)
    case _ => l
  }

  /** At every successful commit, no offset below the position is owed. */
  predicate NoDebt(s: State, l: Ledger, steps: seq<Step>)
    requires Runnable(s, steps)
    decreases |steps|
  {
    steps != [] ==>
      var l' := Book(s, l, steps[0]);
      && (steps[0] == Finish(true) ==> forall o :: o in l'.owed ==> o >= s.position)
      && NoDebt(Next(s, steps[0]), l', steps[1..])
  }

  /** The ledger is right, and everything below the position is in it or in progress. */
  ghost predicate Balanced(s: State, l: Ledger) {
    && s.committed <= s.position
    && (s.current.Some? ==> s.current.value.offset >= s.committed)
    && (forall o :: o in l.covered <==> Handled(s.trace, o))
    && l.covered !! l.owed
    && (forall o: nat :: o < s.position ==>
      o in l.covered || o in l.owed || (s.current.Some? && s.current.value.offset == o))
  }

  lemma {:induction false} CoveredIff(s: State, ok: bool)
    requires Enabled(s, Finish(ok)) && PassTracked(s)
    ensures Covered(s.current.value) <==> s.current.value.skipped == []
  {
    var p := s.current.value;
    assert Waiting(p, Handlers(s.handlers, p.kind)) == [];
    assert |multiset(p.skipped)| == |p.skipped|;
    if Covered(p) {
      var a := multiset(p.attempted) + multiset(p.withdrawn);
      assert |a + multiset(p.skipped)| == |a| + |p.skipped|;
    }
  }

  lemma {:induction false} HandledAfter(trace: seq<Event>, e: Event, o: Offset)
    ensures Handled(trace + [e], o) <==> Handled(trace, o) || (e.Settled? && e.pass.offset == o && Covered(e.pass))
  {
    var trace' := trace + [e];
    if t :| 0 <= t < |trace| && SettledAt(trace, t, o) {
      assert SettledAt(trace', t, o);
    }
    if e.Settled? && e.pass.offset == o && Covered(e.pass) {
      assert SettledAt(trace', |trace|, o);
    }
    if t :| 0 <= t < |trace'| && SettledAt(trace', t, o) {
      assert t < |trace| ==> SettledAt(trace, t, o);
    }
  }

  lemma {:induction false} BalancedFinish(s: State, l: Ledger, ok: bool)
    requires Enabled(s, Finish(ok)) && PassTracked(s) && Balanced(s, l)
    ensures Balanced(Next(s, Finish(ok)), Book(s, l, Finish(ok)))
  {
    var p := s.current.value;
    CoveredIff(s, ok);
    var trace := s.trace + [Settled(p)];
    forall o ensures Handled(Next(s, Finish(ok)).trace, o) <==> o in Book(s, l, Finish(ok)).covered {
      HandledAfter(s.trace, Settled(p), o);
      if ok {
        HandledAfter(trace, Committed(s.position), o);
      } else {
        assert trace + [] == trace;
      }
    }
  }

  lemma {:induction false} BalancedFetch(s: State, l: Ledger)
    requires Enabled(s, Fetch) && Balanced(s, l)
    ensures Balanced(Next(s, Fetch), Book(s, l, Fetch))
  {
    var kind := s.log[s.position];
    var p := Pass(s.position, kind, Handlers(s.handlers, kind), 0, [], [], [], []);
    forall o ensures p.registered == [] ==> (Handled(s.trace + [Settled(p)], o) <==> o in l.covered || o == p.offset) {
      HandledAfter(s.trace, Settled(p), o);
    }
  }

  lemma {:induction false} BalancedStep(s: State, l: Ledger, step: Step)
    requires Enabled(s, step) && PassTracked(s) && Balanced(s, l)
    ensures Balanced(Next(s, step), Book(s, l, step))
  {
    match step {
      case Finish(ok) => BalancedFinish(s, l, ok);
      case Fetch => BalancedFetch(s, l);
      case Attempt(raised) =>
        var p := s.current.value;
        forall o ensures Handled(Next(s, step).trace, o) <==> Handled(s.trace, o) {
          HandledAfter(s.trace, Attempted(p.offset, Handlers(s.handlers, p.kind)[p.next], raised), o);
        }
      case _ =>
        if s.current.Some? {
          forall o ensures Handled(GiveUp(s), o) <==> Handled(s.trace, o) {
            HandledAfter(s.trace, Interrupted(s.current.value), o);
          }
        }
    }
  }

  /** A successful commit is sound if and only if no offset below the position is owed. */
  lemma {:induction false} CommitSoundIff(s: State, l: Ledger)
    requires Enabled(s, Finish(true)) && PassTracked(s) && Balanced(s, l)
    ensures AllHandled(s.trace + [Settled(s.current.value)], s.position) <==>
      forall o :: o in Book(s, l, Finish(true)).owed ==> o >= s.position
  {
    var trace, l' := s.trace + [Settled(s.current.value)], Book(s, l, Finish(true));
    BalancedFinish(s, l, true);
    forall o ensures Handled(trace, o) <==> o in l'.covered {
      HandledAfter(trace, Committed(s.position), o);
    }
  }

  lemma {:induction false} CommitsSoundAfter(trace: seq<Event>, e: Event)
    ensures CommitsSound(trace + [e]) <==> CommitsSound(trace) && (e.Committed? ==> AllHandled(trace, e.upTo))
  {
    var trace' := trace + [e];
    assert trace'[..|trace|] == trace;
    assert forall t :: 0 <= t < |trace| ==> trace'[..t] == trace[..t] && trace'[t] == trace[t];
    if CommitsSound(trace') {
      assert e.Committed? ==> trace'[|trace|].Committed?;
    }
  }

  lemma {:induction false} SoundStepIff(s: State, l: Ledger, step: Step)
    requires Enabled(s, step) && PassTracked(s) && Balanced(s, l)
    ensures CommitsSound(Next(s, step).trace) <==>
      && CommitsSound(s.trace)
      && (step == Finish(true) ==> forall o :: o in Book(s, l, step).owed ==> o >= s.position)
  {
    match step {
      case Finish(ok) =>
        var trace := s.trace + [Settled(s.current.value)];
        CommitsSoundAfter(s.trace, Settled(s.current.value));
        if ok {
          CommitSoundIff(s, l);
          CommitsSoundAfter(trace, Committed(s.position));
        } else {
          assert trace + [] == trace;
        }
      case Fetch =>
        var kind := s.log[s.position];
        CommitsSoundAfter(s.trace, Settled(Pass(s.position, kind, Handlers(s.handlers, kind), 0, [], [], [], [])));
      case Attempt(raised) =>
        var p := s.current.value;
        CommitsSoundAfter(s.trace, Attempted(p.offset, Handlers(s.handlers, p.kind)[p.next], raised));
      case _ =>
        if s.current.Some? {
          CommitsSoundAfter(s.trace, Interrupted(s.current.value));
        }
    }
  }

  lemma {:induction false} SoundRunIff(s: State, l: Ledger, steps: seq<Step>)
    requires Runnable(s, steps) && PassTracked(s) && Balanced(s, l)
    ensures CommitsSound(Run(s, steps).trace) <==> CommitsSound(s.trace) && NoDebt(s, l, steps)
    decreases |steps|
  {
    if steps != [] {
      TrackedStep(s, steps[0]);
      BalancedStep(s, l, steps[0]);
      SoundStepIff(s, l, steps[0]);
      SoundRunIff(Next(s, steps[0]), Book(s, l, steps[0]), steps[1..]);
    }
  }

  const NO_ENTRIES := Ledger({}, {})

  /** Over every run with crashes, restarts, cancellations, failing commits, raising handlers and changing
      registrations: no commit goes beyond what had been handled by then if and only if at no successful
      commit an offset below the position is owed. */
  lemma {:induction false} CommitsSoundIff(steps: seq<Step>)
    requires Runnable(INITIAL, steps)
    ensures CommitsSound(Run(INITIAL, steps).trace) <==> NoDebt(INITIAL, NO_ENTRIES, steps)
  {
    SoundRunIff(INITIAL, NO_ENTRIES, steps);
  }

  // ---------------------------------------------------------------- at least once

  /** The steps after which a message is owed unless it has been handled before: a cancelled handler,
      unregistering a handler that has run while others of the message wait, and registering one for the
      message when its list has shrunk behind the loop. */
  predicate Disturbs(s: State, step: Step) {
    match step
    case Cancel => true
    case Unregister(kind, h) =>
      && Concerns(s, kind)
      && var list := Listed(s.handlers, kind);
      IndexOf(list, h) < s.current.value.next < |list|
    case Register(kind, _) => Concerns(s, kind) && s.current.value.next > |Listed(s.handlers, kind)|
    case _ => false
  }

  predicate Undisturbed(s: State, steps: seq<Step>)
    requires Runnable(s, steps)
    decreases |steps|
  {
    steps != [] ==> !Disturbs(s, steps[0]) && Undisturbed(Next(s, steps[0]), steps[1..])
  }

  predicate NothingSkipped(s: State) {
    s.current.Some? ==> s.current.value.skipped == []
  }

  lemma {:induction false} UndisturbedOwesNothing(s: State, l: Ledger, steps: seq<Step>)
    requires Runnable(s, steps) && Undisturbed(s, steps) && NothingSkipped(s) && l.owed == {}
    ensures NoDebt(s, l, steps)
    decreases |steps|
  {
    if steps != [] {
      assert NothingSkipped(Next(s, steps[0]));
      UndisturbedOwesNothing(Next(s, steps[0]), Book(s, l, steps[0]), steps[1..]);
    }
  }

  /** At least once: over every undisturbed run, whenever an offset is committed every message before it
      has passed all its handlers. */
  lemma {:induction false} AtLeastOnce(steps: seq<Step>)
    requires Runnable(INITIAL, steps) && Undisturbed(INITIAL, steps)
    ensures CommitsSound(Run(INITIAL, steps).trace)
  {
    UndisturbedOwesNothing(INITIAL, NO_ENTRIES, steps);
    CommitsSoundIff(steps);
  }

  predicate Rising(trace: seq<Event>, committed: Offset) {
    && (forall t :: 0 <= t < |trace| && trace[t].Committed? ==> trace[t].upTo <= committed)
    && (forall t, u :: 0 <= t < u < |trace| && trace[t].Committed? && trace[u].Committed? ==>
      trace[t].upTo <= trace[u].upTo)
  }

  lemma {:induction false} RisingRun(s: State, steps: seq<Step>)
    requires Runnable(s, steps) && s.committed <= s.position && Rising(s.trace, s.committed)
    ensures var s' := Run(s, steps); Rising(s'.trace, s'.committed)
    decreases |steps|
  {
    if steps != [] {
      RisingRun(Next(s, steps[0]), steps[1..]);
    }
  }

  /** Committed offsets never go back, in any run. */
  lemma {:induction false} CommitsNeverGoBack(steps: seq<Step>)
    requires Runnable(INITIAL, steps)
    ensures var s := Run(INITIAL, steps); Rising(s.trace, s.committed)
  {
    RisingRun(INITIAL, steps);
  }

  /** The offset committed last, 0 if there was none. */
  function LastCommit(trace: seq<Event>): Offset {
    if trace == [] then 0
    else if trace[|trace| - 1].Committed? then trace[|trace| - 1].upTo
    else LastCommit(trace[..|trace| - 1])
  }

  lemma {:induction false} LastCommitAfter(trace: seq<Event>, e: Event)
    ensures LastCommit(trace + [e]) == if e.Committed? then e.upTo else LastCommit(trace)
  {
    assert (trace + [e])[..|trace|] == trace;
  }

  lemma {:induction false} CommittedStep(s: State, step: Step)
    requires Enabled(s, step) && s.committed == LastCommit(s.trace)
    ensures var s' := Next(s, step); s'.committed == LastCommit(s'.trace)
  {
    match step {
      case Finish(ok) =>
        var trace := s.trace + [Settled(s.current.value)];
        LastCommitAfter(s.trace, Settled(s.current.value));
        if ok {
          LastCommitAfter(trace, Committed(s.position));
        } else {
          assert trace + [] == trace;
        }
      case Fetch =>
        var kind := s.log[s.position];
        LastCommitAfter(s.trace, Settled(Pass(s.position, kind, Handlers(s.handlers, kind), 0, [], [], [], [])));
      case Attempt(raised) =>
        var p := s.current.value;
        LastCommitAfter(s.trace, Attempted(p.offset, Handlers(s.handlers, p.kind)[p.next], raised));
      case _ =>
        if s.current.Some? {
          LastCommitAfter(s.trace, Interrupted(s.current.value));
        }
    }
  }

  lemma {:induction false} CommittedRun(s: State, steps: seq<Step>)
    requires Runnable(s, steps) && s.committed == LastCommit(s.trace)
    ensures var s' := Run(s, steps); s'.committed == LastCommit(s'.trace)
    decreases |steps|
  {
    if steps != [] {
      CommittedStep(s, steps[0]);
      CommittedRun(Next(s, steps[0]), steps[1..]);
    }
  }

  /** After any run, a consumer that crashes or is restarted goes on with the message after the last
      commit, and so fetches again what it had fetched since. */
  lemma {:induction false} ResumesAtLastCommit(steps: seq<Step>, step: Step)
    requires Runnable(INITIAL, steps) && (step.Crash? || step.Restart?)
    ensures var s := Run(INITIAL, steps);
      && Next(s, step).position == LastCommit(s.trace)
      && (step == Restart(true) || step.Crash? ==> Next(s, step).current.None?)
  {
    CommittedRun(INITIAL, steps);
  }

  // ---------------------------------------------------------------- how a message is lost

  /** A message passed by the position that has not been handled, and will not be by its passage, if it
      is still in progress. */
  predicate Lost(s: State, o: Offset) {
    && o < s.position && !Handled(s.trace, o)
    && (s.current.Some? && s.current.value.offset == o ==> s.current.value.skipped != [])
  }

  predicate GoesBack(step: Step) {
    step.Restart? || step.Crash?
  }

  lemma {:induction false} LostStaysLost(s: State, step: Step, o: Offset)
    requires Enabled(s, step) && PassTracked(s) && Lost(s, o) && !GoesBack(step)
    ensures Lost(Next(s, step), o)
  {
    match step {
      case Finish(ok) =>
        var p := s.current.value;
        CoveredIff(s, ok);
        HandledAfter(s.trace, Settled(p), o);
        if ok {
          HandledAfter(s.trace + [Settled(p)], Committed(s.position), o);
        } else {
          assert s.trace + [Settled(p)] + [] == s.trace + [Settled(p)];
        }
      case Fetch =>
        var kind := s.log[s.position];
        HandledAfter(s.trace, Settled(Pass(s.position, kind, Handlers(s.handlers, kind), 0, [], [], [], [])), o);
      case Attempt(raised) =>
        var p := s.current.value;
        HandledAfter(s.trace, Attempted(p.offset, Handlers(s.handlers, p.kind)[p.next], raised), o);
      case Cancel => HandledAfter(s.trace, Interrupted(s.current.value), o);
      case _ =>
    }
  }

  predicate NeverGoesBack(steps: seq<Step>) {
    forall i :: 0 <= i < |steps| ==> !GoesBack(steps[i])
  }

  lemma {:induction false} LostRun(s: State, steps: seq<Step>, o: Offset)
    requires Runnable(s, steps) && PassTracked(s) && Lost(s, o) && NeverGoesBack(steps)
    ensures PassTracked(Run(s, steps)) && Lost(Run(s, steps), o)
    decreases |steps|
  {
    if steps != [] {
      TrackedStep(s, steps[0]);
      LostStaysLost(s, steps[0], o);
      LostRun(Next(s, steps[0]), steps[1..], o);
    }
  }

  lemma {:induction false} DisturbedIsLostNow(s: State, step: Step)
    requires s.current.Some? && s.current.value.offset < s.position && !Handled(s.trace, s.current.value.offset)
    requires Enabled(s, step) && Disturbs(s, step)
    ensures Lost(Next(s, step), s.current.value.offset)
  {
    if step.Cancel? {
      HandledAfter(s.trace, Interrupted(s.current.value), s.current.value.offset);
    }
  }

  /** Every step that disturbs a message not handled before loses it for good, unless the consumer goes
      back: after any continuation the next successful commit covers it, and it is still not handled. */
  lemma {:induction false} DisturbedIsLost(s: State, step: Step, steps: seq<Step>)
    requires s.current.Some? && PassTracked(s) && s.current.value.offset < s.position
    requires !Handled(s.trace, s.current.value.offset)
    requires Enabled(s, step) && Disturbs(s, step)
    requires Runnable(Next(s, step), steps) && NeverGoesBack(steps)
    requires Enabled(Run(Next(s, step), steps), Finish(true))
    ensures var s' := Next(Run(Next(s, step), steps), Finish(true));
      s.current.value.offset < s'.committed && !Handled(s'.trace, s.current.value.offset)
  {
    var o := s.current.value.offset;
    TrackedStep(s, step);
    DisturbedIsLostNow(s, step);
    LostRun(Next(s, step), steps, o);
    LostStaysLost(Run(Next(s, step), steps), Finish(true), o);
  }
}
