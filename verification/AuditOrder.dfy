/** The order of the logs in the audit buffer, in its batches in flight and in the database, under any
    overlap of flush tasks. */
module AuditOrder {
  import opened AuditBuffer

  predicate Increasing(s: seq<Log>) {
    forall i, j :: 0 <= i < j < |s| ==> s[i].serial < s[j].serial
  }

  predicate IsSuffix(a: seq<Log>, b: seq<Log>) {
    |a| <= |b| && forall i :: 0 <= i < |a| ==> a[i] == b[|b| - |a| + i]
  }

  /** Persisted logs, batches in flight and buffer, read in this order. */
  function Line(s: State): seq<Log> {
    s.persisted + Flat(s.inflight) + s.buffer
  }

  predicate Ordered(s: State) {
    Increasing(Line(s))
  }

  // ---------------------------------------------------------------- when the order is kept

  /** A write that succeeds does so for the oldest batch in flight; one that fails puts back the newest
      batch, or finds the buffer full and puts back nothing. */
  predicate InSequence(max: nat, s: State, step: Step) {
    match step
    case Commit(i) => i < |s.inflight| ==> i == 0
    case Restore(i) => i < |s.inflight| ==> i == |s.inflight| - 1 || |s.buffer| == max
    case _ => true
  }

  predicate AllInSequence(max: nat, s: State, steps: seq<Step>)
    decreases |steps|
  {
    steps != [] ==> InSequence(max, s, steps[0]) && AllInSequence(max, Next(max, s, steps[0]), steps[1..])
  }

  predicate OrderedThroughout(max: nat, s: State, steps: seq<Step>)
    decreases |steps|
  {
    Ordered(s) && (steps != [] ==> OrderedThroughout(max, Next(max, s, steps[0]), steps[1..]))
  }

  lemma {:induction false} IncreasingSuffix(front: seq<Log>, s: seq<Log>, kept: seq<Log>)
    requires Increasing(front + s) && IsSuffix(kept, s)
    ensures Increasing(front + kept)
  {
    var a, b, cut := front + s, front + kept, |s| - |kept|;
    forall i, j | 0 <= i < j < |b| ensures b[i].serial < b[j].serial {
      var i', j' := if i < |front| then i else i + cut, if j < |front| then j else j + cut;
      assert b[i] == a[i'] && b[j] == a[j'];
    }
  }

  /** Taking a stretch out of the middle keeps the order. */
  lemma {:induction false} IncreasingWithout(front: seq<Log>, gone: seq<Log>, back: seq<Log>)
    requires Increasing(front + (gone + back))
    ensures Increasing(front + back)
  {
    IncreasingSuffix(front, gone + back, back);
  }

  lemma {:induction false} NewestIsSuffix(s: seq<Log>, n: nat)
    ensures IsSuffix(Newest(s, n), s) && |Newest(s, n)| == if |s| <= n then |s| else n
    ensures |s| <= n ==> Newest(s, n) == s
  {
  }

  lemma {:induction false} FlatConcat(a: seq<seq<Log>>, b: seq<seq<Log>>)
    ensures Flat(a + b) == Flat(a) + Flat(b)
  {
    if a == [] {
      assert a + b == b;
    } else {
      assert (a + b)[1..] == a[1..] + b;
      FlatConcat(a[1..], b);
    }
  }

  /** A batch between the older and the newer ones. */
  lemma {:induction false} FlatAround(tasks: seq<seq<Log>>, i: nat)
    requires i < |tasks|
    ensures Flat(tasks) == Flat(tasks[..i]) + (tasks[i] + Flat(tasks[i + 1..]))
    ensures Flat(Without(tasks, i)) == Flat(tasks[..i]) + Flat(tasks[i + 1..])
  {
    assert tasks == tasks[..i] + tasks[i..];
    FlatConcat(tasks[..i], tasks[i..]);
    assert tasks[i..][1..] == tasks[i + 1..];
    FlatConcat(tasks[..i], tasks[i + 1..]);
  }

  /** Every log in sight has been appended. */
  lemma {:induction false} InSightIsAppended(max: nat, s: State, x: Log)
    requires Conserved(max, s) && x in Line(s)
    ensures x.serial < |s.appended| && s.appended[x.serial] == x
  {
    assert x in s.persisted || x in Flat(s.inflight) || x in s.buffer;
    assert x in Everywhere(s);
    assert x in multiset(s.appended);
  }

  lemma {:induction false} OrderAfterAppend(max: nat, s: State, body: string)
    requires Conserved(max, s) && Ordered(s)
    ensures Ordered(Next(max, s, Append(body)))
  {
    var log := Log(|s.appended|, body);
    var front, all := s.persisted + Flat(s.inflight), s.buffer + [log];
    assert front + all == Line(s) + [log];
    forall i | 0 <= i < |Line(s)| ensures Line(s)[i].serial < log.serial {
      InSightIsAppended(max, s, Line(s)[i]);
    }
    NewestIsSuffix(all, max);
    IncreasingSuffix(front, all, Newest(all, max));
  }

  lemma {:induction false} OrderAfterTake(max: nat, s: State)
    requires Ordered(s)
    ensures Ordered(Next(max, s, Take))
  {
    FlatAppend(s.inflight, s.buffer);
    assert s.persisted + (Flat(s.inflight) + s.buffer) + [] == Line(s);
  }

  lemma {:induction false} OrderAfterCancel(max: nat, s: State, i: nat)
    requires Ordered(s)
    ensures Ordered(Next(max, s, Cancel(i)))
  {
    if i < |s.inflight| {
      var b, older, newer := s.inflight[i], Flat(s.inflight[..i]), Flat(s.inflight[i + 1..]);
      FlatAround(s.inflight, i);
      Regroup(s.persisted, older, b + newer, s.buffer);
      assert (b + newer) + s.buffer == b + (newer + s.buffer);
      Regroup(s.persisted, older, newer, s.buffer);
      IncreasingWithout(s.persisted + older, b, newer + s.buffer);
    }
  }

  /** A batch that is not the oldest overtakes an older log when it is written. */
  lemma {:induction false} OrderAfterCommit(max: nat, s: State, i: nat)
    requires Conserved(max, s) && Ordered(s) && i < |s.inflight|
    ensures Ordered(Next(max, s, Commit(i))) <==> i == 0
  {
    var s' := Next(max, s, Commit(i));
    var b, older, newer := s.inflight[i], Flat(s.inflight[..i]), Flat(s.inflight[i + 1..]);
    FlatAround(s.inflight, i);
    assert Line(s) == s.persisted + (older + (b + newer)) + s.buffer;
    assert Line(s') == s.persisted + b + (older + newer) + s.buffer;
    if i == 0 {
      assert older == [] && Line(s') == Line(s);
    } else {
      assert older == s.inflight[0] + Flat(s.inflight[..i][1..]) && older != [];
      var n := |s.persisted|;
      assert Line(s)[n] == older[0] && Line(s)[n + |older|] == b[0];
      assert Line(s')[n] == b[0] && Line(s')[n + |b|] == older[0];
    }
  }

  lemma {:induction false} Regroup(p: seq<Log>, x: seq<Log>, y: seq<Log>, z: seq<Log>)
    ensures p + (x + y) + z == (p + x) + (y + z)
  {
  }

  lemma {:induction false} RestoredLine(max: nat, s: State, i: nat, b: seq<Log>, newer: seq<Log>)
    requires i < |s.inflight| && b == s.inflight[i] && newer == Flat(s.inflight[i + 1..])
    ensures var front := s.persisted + Flat(s.inflight[..i]);
      && Line(s) == front + (b + (newer + s.buffer))
      && Line(Next(max, s, Restore(i))) == front + (newer + Newest(b + s.buffer, max))
  {
    var older := Flat(s.inflight[..i]);
    FlatAround(s.inflight, i);
    Regroup(s.persisted, older, b + newer, s.buffer);
    assert (b + newer) + s.buffer == b + (newer + s.buffer);
    Regroup(s.persisted, older, newer, Newest(b + s.buffer, max));
  }

  lemma {:induction false} NewerFlat(tasks: seq<seq<Log>>)
    requires forall j :: 0 <= j < |tasks| ==> tasks[j] != []
    ensures Flat(tasks) == [] <==> tasks == []
  {
    if tasks != [] {
      assert Flat(tasks) == tasks[0] + Flat(tasks[1..]);
    }
  }

  /** A batch put back into a buffer with room is overtaken by the newer batches in flight. */
  lemma {:induction false} OrderAfterRestore(max: nat, s: State, i: nat)
    requires Conserved(max, s) && Ordered(s) && i < |s.inflight|
    ensures Ordered(Next(max, s, Restore(i))) <==> i == |s.inflight| - 1 || |s.buffer| == max
  {
    var b, newer := s.inflight[i], Flat(s.inflight[i + 1..]);
    RestoredLine(max, s, i, b, newer);
    NewerFlat(s.inflight[i + 1..]);
    PutBackOrder(max, s.persisted + Flat(s.inflight[..i]), b, newer, s.buffer);
  }

  lemma {:induction false} PutBackOrder(max: nat, front: seq<Log>, b: seq<Log>, newer: seq<Log>, buffer: seq<Log>)
    requires b != [] && |buffer| <= max && Increasing(front + (b + (newer + buffer)))
    ensures Increasing(front + (newer + Newest(b + buffer, max))) <==> newer == [] || |buffer| == max
  {
    var kept := Newest(b + buffer, max);
    NewestIsSuffix(b + buffer, max);
    if |buffer| == max {
      assert kept == buffer;
      IncreasingWithout(front, b, newer + buffer);
    } else if newer == [] {
      assert newer + buffer == buffer && newer + kept == kept;
      IncreasingSuffix(front, b + buffer, kept);
    } else {
      RestoredBehind(front, b, newer, buffer, kept);
    }
  }

  lemma {:induction false} RestoredBehind(
    front: seq<Log>, b: seq<Log>, newer: seq<Log>, buffer: seq<Log>, kept: seq<Log>)
    requires b != [] && newer != [] && Increasing(front + (b + (newer + buffer)))
    requires IsSuffix(kept, b + buffer) && |kept| > |buffer|
    ensures !Increasing(front + (newer + kept))
  {
    var last := |kept| - |buffer| - 1;
    var line, line' := front + (b + (newer + buffer)), front + (newer + kept);
    assert kept[last] == (b + buffer)[|b| - 1] == b[|b| - 1];
    assert line[|front| + |b| - 1] == b[|b| - 1] && line[|front| + |b|] == newer[0];
    assert line'[|front|] == newer[0] && line'[|front| + |newer| + last] == kept[last];
  }

  /** From an ordered state, a step leads to an ordered state if and only if it is in sequence. */
  lemma {:induction false} OrderStep(max: nat, s: State, step: Step)
    requires Conserved(max, s) && Ordered(s)
    ensures Ordered(Next(max, s, step)) <==> InSequence(max, s, step)
  {
    match step
    case Append(body) => OrderAfterAppend(max, s, body);
    case Take => OrderAfterTake(max, s);
    case Cancel(i) => OrderAfterCancel(max, s, i);
    case Commit(i) => if i < |s.inflight| { OrderAfterCommit(max, s, i); }
    case Restore(i) => if i < |s.inflight| { OrderAfterRestore(max, s, i); }
  }

  lemma {:induction false} OrderRun(max: nat, s: State, steps: seq<Step>)
    requires Conserved(max, s) && Ordered(s)
    ensures OrderedThroughout(max, s, steps) <==> AllInSequence(max, s, steps)
    decreases |steps|
  {
    if steps != [] {
      OrderStep(max, s, steps[0]);
      ConservedStep(max, s, steps[0]);
      if InSequence(max, s, steps[0]) {
        OrderRun(max, Next(max, s, steps[0]), steps[1..]);
      }
    }
  }

  /** Whatever flushes overlap: the logs persisted, in flight and buffered are in the order of appending
      in every state of a run if and only if every step of the run is in sequence. */
  lemma {:induction false} OrderKeptIff(max: nat, steps: seq<Step>)
    ensures OrderedThroughout(max, EMPTY, steps) <==> AllInSequence(max, EMPTY, steps)
  {
    OrderRun(max, EMPTY, steps);
  }

  // ---------------------------------------------------------------- when the buffer has no gap

  function End(b: seq<Log>): nat
    requires b != []
  {
    b[|b| - 1].serial + 1
  }

  /** A batch put back ends where the buffer begins, or the buffer is full. */
  predicate Adjoins(max: nat, s: State, step: Step) {
    match step
    case Restore(i) =>
      i < |s.inflight| && s.inflight[i] != [] ==>
        |s.buffer| == max || End(s.inflight[i]) == |s.appended| - |s.buffer|
    case _ => true
  }

  predicate AllAdjoin(max: nat, s: State, steps: seq<Step>)
    decreases |steps|
  {
    steps != [] ==> Adjoins(max, s, steps[0]) && AllAdjoin(max, Next(max, s, steps[0]), steps[1..])
  }

  /** The buffer is the end of what was appended. */
  predicate Gapless(s: State) {
    IsSuffix(s.buffer, s.appended)
  }

  predicate GaplessThroughout(max: nat, s: State, steps: seq<Step>)
    decreases |steps|
  {
    Gapless(s) && (steps != [] ==> GaplessThroughout(max, Next(max, s, steps[0]), steps[1..]))
  }

  /** A stretch of what was appended. */
  predicate Stretch(b: seq<Log>, appended: seq<Log>) {
    b != [] && End(b) <= |appended| && IsSuffix(b, appended[..End(b)])
  }

  predicate Stretches(s: State) {
    forall i :: 0 <= i < |s.inflight| ==> Stretch(s.inflight[i], s.appended)
  }

  lemma {:induction false} SuffixOfSuffix(a: seq<Log>, b: seq<Log>, c: seq<Log>)
    requires IsSuffix(a, b) && IsSuffix(b, c)
    ensures IsSuffix(a, c)
  {
  }

  lemma {:induction false} SuffixGrows(a: seq<Log>, b: seq<Log>, x: Log)
    requires IsSuffix(a, b)
    ensures IsSuffix(a + [x], b + [x])
  {
    assert b + [x] == b[..|b| - |a|] + (a + [x]);
  }

  lemma {:induction false} JoinSuffixes(b: seq<Log>, buffer: seq<Log>, appended: seq<Log>)
    requires IsSuffix(buffer, appended) && IsSuffix(b, appended[..|appended| - |buffer|])
    ensures IsSuffix(b + buffer, appended)
  {
    assert appended == appended[..|appended| - |buffer|] + buffer;
  }

  lemma {:induction false} GaplessAfterAppend(max: nat, s: State, body: string)
    requires Gapless(s) && Stretches(s)
    ensures Gapless(Next(max, s, Append(body))) && Stretches(Next(max, s, Append(body)))
  {
    var log := Log(|s.appended|, body);
    var all := s.buffer + [log];
    SuffixGrows(s.buffer, s.appended, log);
    NewestIsSuffix(all, max);
    SuffixOfSuffix(Newest(all, max), all, s.appended + [log]);
    forall i | 0 <= i < |s.inflight| ensures Stretch(s.inflight[i], s.appended + [log]) {
      var b := s.inflight[i];
      assert (s.appended + [log])[..End(b)] == s.appended[..End(b)];
    }
  }

  lemma {:induction false} GaplessAfterTake(max: nat, s: State)
    requires Conserved(max, s) && Gapless(s) && Stretches(s)
    ensures Gapless(Next(max, s, Take)) && Stretches(Next(max, s, Take))
  {
    if s.buffer != [] {
      assert End(s.buffer) == |s.appended| && s.appended[..|s.appended|] == s.appended;
    }
  }

  lemma {:induction false} GaplessAfterRestore(max: nat, s: State, i: nat)
    requires Conserved(max, s) && Gapless(s) && Stretches(s) && i < |s.inflight|
    ensures Gapless(Next(max, s, Restore(i))) <==> Adjoins(max, s, Restore(i))
  {
    var b := s.inflight[i];
    var all := b + s.buffer;
    var kept := Newest(all, max);
    NewestIsSuffix(all, max);
    if |s.buffer| == max {
      assert kept == s.buffer;
    } else if End(b) == |s.appended| - |s.buffer| {
      JoinSuffixes(b, s.buffer, s.appended);
      SuffixOfSuffix(kept, all, s.appended);
    } else {
      assert kept[|kept| - |s.buffer| - 1] == b[|b| - 1];
    }
  }

  lemma {:induction false} GaplessStep(max: nat, s: State, step: Step)
    requires Conserved(max, s) && Gapless(s) && Stretches(s)
    ensures Gapless(Next(max, s, step)) <==> Adjoins(max, s, step)
    ensures Stretches(Next(max, s, step))
  {
    match step
    case Append(body) => GaplessAfterAppend(max, s, body);
    case Take => GaplessAfterTake(max, s);
    case Restore(i) => if i < |s.inflight| { GaplessAfterRestore(max, s, i); }
    case _ =>
  }

  lemma {:induction false} GaplessRun(max: nat, s: State, steps: seq<Step>)
    requires Conserved(max, s) && Gapless(s) && Stretches(s)
    ensures GaplessThroughout(max, s, steps) <==> AllAdjoin(max, s, steps)
    decreases |steps|
  {
    if steps != [] {
      GaplessStep(max, s, steps[0]);
      ConservedStep(max, s, steps[0]);
      if Adjoins(max, s, steps[0]) {
        GaplessRun(max, Next(max, s, steps[0]), steps[1..]);
      }
    }
  }

  /** Whatever flushes overlap: the buffer is a contiguous end of everything appended in every state of a
      run if and only if every batch put back into a buffer with room ends where the buffer begins. */
  lemma {:induction false} GaplessIff(max: nat, steps: seq<Step>)
    ensures GaplessThroughout(max, EMPTY, steps) <==> AllAdjoin(max, EMPTY, steps)
  {
    assert Conserved(max, EMPTY);
    GaplessRun(max, EMPTY, steps);
  }

  // ---------------------------------------------------------------- one flush at a time

  /** No task takes a batch while another is in flight. */
  predicate OneFlight(max: nat, s: State, steps: seq<Step>)
    decreases |steps|
  {
    steps == [] || ((steps[0].Take? ==> s.inflight == []) && OneFlight(max, Next(max, s, steps[0]), steps[1..]))
  }

  /** The batch in flight ends where the buffer begins, unless appends have filled the buffer since. */
  predicate AtBuffer(max: nat, s: State) {
    && |s.inflight| <= 1
    && (s.inflight != [] && s.inflight[0] != [] ==>
      |s.buffer| == max || End(s.inflight[0]) == |s.appended| - |s.buffer|)
  }

  lemma {:induction false} AtBufferStep(max: nat, s: State, step: Step)
    requires Conserved(max, s) && Gapless(s) && AtBuffer(max, s) && (step.Take? ==> s.inflight == [])
    ensures AtBuffer(max, Next(max, s, step))
  {
    if step.Append? {
      NewestIsSuffix(s.buffer + [Log(|s.appended|, step.body)], max);
    }
  }

  lemma {:induction false} OneFlightIsInSequence(max: nat, s: State, steps: seq<Step>)
    requires Conserved(max, s) && Gapless(s) && Stretches(s) && AtBuffer(max, s) && OneFlight(max, s, steps)
    ensures AllInSequence(max, s, steps) && AllAdjoin(max, s, steps)
    decreases |steps|
  {
    if steps != [] {
      GaplessStep(max, s, steps[0]);
      ConservedStep(max, s, steps[0]);
      AtBufferStep(max, s, steps[0]);
      OneFlightIsInSequence(max, Next(max, s, steps[0]), steps[1..]);
    }
  }

  /** With at most one flush in flight both hold in every state, through appends to a full deque, failed
      flushes, restores and cancellations. */
  lemma {:induction false} OrderPreserved(max: nat, steps: seq<Step>)
    requires OneFlight(max, EMPTY, steps)
    ensures OrderedThroughout(max, EMPTY, steps) && GaplessThroughout(max, EMPTY, steps)
  {
    assert Conserved(max, EMPTY);
    OneFlightIsInSequence(max, EMPTY, steps);
    OrderKeptIff(max, steps);
    GaplessIff(max, steps);
  }

  // ---------------------------------------------------------------- a run out of sequence

  lemma {:induction false} Lead(max: nat, s: State, step: Step, s': State, rest: seq<Step>)
    requires Next(max, s, step) == s'
    ensures Run(max, s, [step] + rest) == Run(max, s', rest)
  {
    assert ([step] + rest)[1..] == rest;
  }

  lemma {:induction false} SecondCommitsFirst(max: nat, x: Log, y: Log)
    requires max >= 2
    ensures Run(max, State([x, y], [], [[x], [y]], [], [], []), [Commit(1), Restore(0)]) ==
      State([x, y], [x], [], [y], [], [])
  {
  }

  lemma {:induction false} TwoTakes(max: nat, a: string, b: string, end: seq<Step>)
    requires max >= 2
    ensures var x, y := Log(0, a), Log(1, b);
      Run(max, EMPTY, [Append(a)] + ([Take] + ([Append(b)] + ([Take] + end)))) ==
      Run(max, State([x, y], [], [[x], [y]], [], [], []), end)
  {
    var x, y := Log(0, a), Log(1, b);
    var s1 := State([x], [x], [], [], [], []);
    var s2 := State([x], [], [[x]], [], [], []);
    var s3 := State([x, y], [y], [[x]], [], [], []);
    var s4 := State([x, y], [], [[x], [y]], [], [], []);
    assert Next(max, EMPTY, Append(a)) == s1 && Next(max, s1, Take) == s2;
    assert Next(max, s2, Append(b)) == s3 && Next(max, s3, Take) == s4;
    Lead(max, s3, Take, s4, end);
    Lead(max, s2, Append(b), s3, [Take] + end);
    Lead(max, s1, Take, s2, [Append(b)] + ([Take] + end));
    Lead(max, EMPTY, Append(a), s1, [Take] + ([Append(b)] + ([Take] + end)));
  }

  /** Two flushes in flight break both: the first fails after the second committed. */
  lemma {:induction false} OverlappingFlushesReorder(max: nat, a: string, b: string)
    requires max >= 2
    ensures var s := Run(max, EMPTY, [Append(a), Take, Append(b), Take, Commit(1), Restore(0)]);
      && s.appended == [Log(0, a), Log(1, b)]
      && s.persisted == [Log(1, b)] && s.buffer == [Log(0, a)]
      && !IsSuffix(s.buffer, s.appended)
      && !Increasing(s.persisted + Flat(s.inflight) + s.buffer)
  {
    var x, y := Log(0, a), Log(1, b);
    var end := [Commit(1), Restore(0)];
    SecondCommitsFirst(max, x, y);
    TwoTakes(max, a, b, end);
    assert [Append(a)] + ([Take] + ([Append(b)] + ([Take] + end)))
        == [Append(a), Take, Append(b), Take, Commit(1), Restore(0)];
    assert ([y] + [] + [x])[0] == y && ([y] + [] + [x])[1] == x;
  }
}
