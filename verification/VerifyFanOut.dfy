/** The bounded fan-out of LLM verify calls: coroutines gathered under one semaphore and one call budget
    that outlives the batch.  Any scheduling of the coroutines is a run of this step system. */
module VerifyFanOut {

  datatype Verdict = Yes | Partial | No

  /** One coroutine: waiting for the semaphore, holding it across an LLM call, or finished. */
  datatype Task = Waiting | Calling | Done(verdict: Verdict)

  /** `calls` counts the LLM calls of the mapper's whole lifetime; `kept` and `partial` list the finished
      candidates in completion order, as Phase 1.5 collects them. */
  datatype Batch = Batch(tasks: seq<Task>, calls: nat, kept: seq<nat>, partial: seq<nat>)

  datatype Limits = Limits(parallelism: nat, cap: int)

  function Count(tasks: seq<Task>, t: Task): nat {
    if tasks == [] then 0
    else Count(tasks[..|tasks| - 1], t) + if tasks[|tasks| - 1] == t then 1 else 0
  }

  function Begin(n: nat, calls: nat): Batch {
    Batch(seq(n, i => Waiting), calls, [], [])
  }

  // ----- steps -----

  datatype Step = Enter(i: nat) | Return(i: nat, verdict: Verdict)

  /** A coroutine enters when the semaphore has room; a call in flight may return any verdict (a failed
      call counts as No). */
  predicate Enabled(l: Limits, b: Batch, s: Step) {
    s.i < |b.tasks| &&
    match s
    case Enter(i) => b.tasks[i] == Waiting && Count(b.tasks, Calling) < l.parallelism
    case Return(i, _) => b.tasks[i] == Calling
  }

  function Finish(b: Batch, i: nat, v: Verdict): Batch
    requires i < |b.tasks|
  {
    b.(tasks := b.tasks[i := Done(v)],
       kept := if v == Yes then b.kept + [i] else b.kept,
       partial := if v == Partial then b.partial + [i] else b.partial)
  }

  /** With the budget spent a coroutine answers Yes on the spot, without a call. */
  function Move(l: Limits, b: Batch, s: Step): Batch
    requires Enabled(l, b, s)
  {
    match s
    case Enter(i) =>
      if b.calls >= l.cap then Finish(b, i, Yes) else b.(tasks := b.tasks[i := Calling], calls := b.calls + 1)
    case Return(i, v) => Finish(b, i, v)
  }

  predicate Schedule(l: Limits, b: Batch, steps: seq<Step>)
    decreases |steps|
  {
    steps == [] || (Enabled(l, b, steps[0]) && Schedule(l, Move(l, b, steps[0]), steps[1..]))
  }

  function Run(l: Limits, b: Batch, steps: seq<Step>): Batch
    requires Schedule(l, b, steps)
    decreases |steps|
  {
    if steps == [] then b else Run(l, Move(l, b, steps[0]), steps[1..])
  }

  predicate Finished(b: Batch) {
    forall i :: 0 <= i < |b.tasks| ==> b.tasks[i].Done?
  }

  // ----- counting -----

  lemma {:induction false} CountUpdate(tasks: seq<Task>, i: nat, to: Task, t: Task)
    requires i < |tasks|
    ensures Count(tasks[i := to], t) ==
            Count(tasks, t) - (if tasks[i] == t then 1 else 0) + (if to == t then 1 else 0)
  {
    var n := |tasks| - 1;
    if i < n {
      CountUpdate(tasks[..n], i, to, t);
      assert tasks[i := to][..n] == tasks[..n][i := to];
    } else {
      assert tasks[i := to][..n] == tasks[..n];
    }
  }

  lemma {:induction false} CountIs(tasks: seq<Task>, t: Task)
    ensures (forall i :: 0 <= i < |tasks| ==> tasks[i] != t) ==> Count(tasks, t) == 0
    ensures (forall i :: 0 <= i < |tasks| ==> tasks[i] == t) ==> Count(tasks, t) == |tasks|
    ensures Count(tasks, t) == 0 ==> forall i :: 0 <= i < |tasks| ==> tasks[i] != t
  {
    if tasks != [] {
      var n := |tasks| - 1;
      CountIs(tasks[..n], t);
      assert forall i :: 0 <= i < n ==> tasks[..n][i] == tasks[i];
    }
  }

  // ----- the invariant -----

  ghost predicate Listed(list: seq<nat>, tasks: seq<Task>, v: Verdict) {
    && (forall i: nat :: i in list <==> i < |tasks| && tasks[i] == Done(v))
    && (forall j, k :: 0 <= j < k < |list| ==> list[j] != list[k])
  }

  function Least(x: int, y: int): int {
    if x < y then x else y
  }

  function Most(x: int, y: int): int {
    if x < y then y else x
  }

  /** `before` is the number of calls made before the batch of `n` coroutines. */
  ghost predicate Inv(l: Limits, n: nat, before: nat, b: Batch) {
    && |b.tasks| == n
    && Count(b.tasks, Calling) <= l.parallelism
    && before <= b.calls <= Most(before, l.cap)
    && b.calls == Least(Most(before, l.cap), before + n - Count(b.tasks, Waiting))
    && Listed(b.kept, b.tasks, Yes) && Listed(b.partial, b.tasks, Partial)
  }

  lemma BeginInv(l: Limits, n: nat, before: nat)
    ensures Inv(l, n, before, Begin(n, before))
  {
    CountIs(Begin(n, before).tasks, Waiting);
    CountIs(Begin(n, before).tasks, Calling);
  }

  lemma FinishLists(b: Batch, i: nat, v: Verdict)
    requires i < |b.tasks| && !b.tasks[i].Done?
    requires Listed(b.kept, b.tasks, Yes) && Listed(b.partial, b.tasks, Partial)
    ensures Listed(Finish(b, i, v).kept, Finish(b, i, v).tasks, Yes)
    ensures Listed(Finish(b, i, v).partial, Finish(b, i, v).tasks, Partial)
  {
    assert i !in b.kept && i !in b.partial;
    var b' := Finish(b, i, v);
    assert forall j :: 0 <= j < |b.tasks| && j != i ==> b'.tasks[j] == b.tasks[j];
    assert forall j: nat :: j in b'.kept <==> j in b.kept || (v == Yes && j == i);
    assert forall j: nat :: j in b'.partial <==> j in b.partial || (v == Partial && j == i);
  }

  lemma MoveKeepsInv(l: Limits, n: nat, before: nat, b: Batch, s: Step)
    requires Inv(l, n, before, b) && Enabled(l, b, s)
    ensures Inv(l, n, before, Move(l, b, s))
    ensures Measure(Move(l, b, s)) < Measure(b)
  {
    var b' := Move(l, b, s);
    CountUpdate(b.tasks, s.i, b'.tasks[s.i], Waiting);
    CountUpdate(b.tasks, s.i, b'.tasks[s.i], Calling);
    if s.Return? {
      FinishLists(b, s.i, s.verdict);
    } else if b.calls >= l.cap {
      FinishLists(b, s.i, Yes);
    } else {
      assert forall j :: 0 <= j < n && j != s.i ==> b'.tasks[j] == b.tasks[j];
    }
  }

  /** Every step shortens what is left, so a schedule has at most 2n steps. */
  function Measure(b: Batch): nat {
    2 * Count(b.tasks, Waiting) + Count(b.tasks, Calling)
  }

  lemma {:induction false} ScheduleKeepsInv(l: Limits, n: nat, before: nat, b: Batch, steps: seq<Step>)
    requires Inv(l, n, before, b) && Schedule(l, b, steps)
    ensures Inv(l, n, before, Run(l, b, steps))
    ensures |steps| + Measure(Run(l, b, steps)) <= Measure(b)
    decreases |steps|
  {
    if steps != [] {
      MoveKeepsInv(l, n, before, b, steps[0]);
      ScheduleKeepsInv(l, n, before, Move(l, b, steps[0]), steps[1..]);
    }
  }

  /** No schedule gets stuck: until every coroutine is done, some step is enabled. */
  lemma Progress(l: Limits, b: Batch) returns (s: Step)
    requires 1 <= l.parallelism && !Finished(b)
    ensures Enabled(l, b, s)
  {
    var i :| 0 <= i < |b.tasks| && !b.tasks[i].Done?;
    if b.tasks[i] == Calling {
      s := Return(i, No);
    } else if j :| 0 <= j < |b.tasks| && b.tasks[j] == Calling {
      s := Return(j, No);
    } else {
      CountIs(b.tasks, Calling);
      s := Enter(i);
    }
  }

  /** A finished batch, under any schedule: the number of LLM calls is the same for all of them, every
      candidate has one outcome at its own position, and the kept and partial lists are duplicate-free,
      disjoint, and list exactly the Yes and Partial candidates. */
  lemma FinishedBatch(l: Limits, n: nat, before: nat, steps: seq<Step>)
    requires Schedule(l, Begin(n, before), steps) && Finished(Run(l, Begin(n, before), steps))
    ensures var b := Run(l, Begin(n, before), steps);
            && |b.tasks| == n
            && b.calls == Least(Most(before, l.cap), before + n)
            && (forall i: nat :: i in b.kept <==> i < n && b.tasks[i] == Done(Yes))
            && (forall i: nat :: i in b.partial <==> i < n && b.tasks[i] == Done(Partial))
            && (forall i :: i in b.kept ==> i !in b.partial)
            && (forall j, k :: 0 <= j < k < |b.kept| ==> b.kept[j] != b.kept[k])
            && (forall j, k :: 0 <= j < k < |b.partial| ==> b.partial[j] != b.partial[k])
  {
    BeginInv(l, n, before);
    ScheduleKeepsInv(l, n, before, Begin(n, before), steps);
    CountIs(Run(l, Begin(n, before), steps).tasks, Waiting);
  }

  // ----- what is recorded -----

  function Returns(steps: seq<Step>): nat {
    if steps == [] then 0 else (if steps[0].Return? then 1 else 0) + Returns(steps[1..])
  }

  /** The verdict a coroutine's call returned in the schedule. */
  predicate Answers(steps: seq<Step>, i: nat, v: Verdict) {
    Return(i, v) in steps
  }

  lemma AnswersSplit(steps: seq<Step>, i: nat, v: Verdict)
    requires steps != []
    ensures Answers(steps, i, v) <==> steps[0] == Return(i, v) || Answers(steps[1..], i, v)
  {
    assert steps == [steps[0]] + steps[1..];
  }

  /** A finished coroutine takes no further step. */
  lemma {:induction false} DoneStays(l: Limits, b: Batch, steps: seq<Step>, i: nat)
    requires Schedule(l, b, steps) && i < |b.tasks| && b.tasks[i].Done?
    ensures i < |Run(l, b, steps).tasks| && Run(l, b, steps).tasks[i] == b.tasks[i]
    ensures forall v :: !Answers(steps, i, v)
    decreases |steps|
  {
    if steps != [] {
      DoneStays(l, Move(l, b, steps[0]), steps[1..], i);
      forall v ensures !Answers(steps, i, v) { AnswersSplit(steps, i, v); }
    }
  }

  /** From any moment of a batch on: the verdict recorded for a coroutine is the one its call returns, and a waiting
      one that finishes without a call returning is answered Yes. */
  lemma {:induction false} Recorded(l: Limits, b: Batch, steps: seq<Step>, i: nat)
    requires Schedule(l, b, steps) && i < |b.tasks| && !b.tasks[i].Done?
    ensures |Run(l, b, steps).tasks| == |b.tasks|
    ensures forall v :: Answers(steps, i, v) ==> Run(l, b, steps).tasks[i] == Done(v)
    ensures (forall v :: !Answers(steps, i, v)) && Run(l, b, steps).tasks[i].Done? ==>
              b.tasks[i] == Waiting && Run(l, b, steps).tasks[i] == Done(Yes)
    decreases |steps|
  {
    if steps != [] {
      var s, b' := steps[0], Move(l, b, steps[0]);
      forall v ensures Answers(steps, i, v) <==> s == Return(i, v) || Answers(steps[1..], i, v) {
        AnswersSplit(steps, i, v);
      }
      if b'.tasks[i].Done? {
        DoneStays(l, b', steps[1..], i);
        if s.Return? { assert Answers(steps, i, s.verdict); }
        RunLength(l, b', steps[1..]);
      } else {
        Recorded(l, b', steps[1..], i);
      }
    }
  }

  lemma {:induction false} RunLength(l: Limits, b: Batch, steps: seq<Step>)
    requires Schedule(l, b, steps)
    ensures |Run(l, b, steps).tasks| == |b.tasks|
    decreases |steps|
  {
    if steps != [] { RunLength(l, Move(l, b, steps[0]), steps[1..]); }
  }

  lemma MoveCounts(l: Limits, b: Batch, s: Step)
    requires Enabled(l, b, s)
    ensures Count(Move(l, b, s).tasks, Calling) + (if s.Return? then 1 else 0) + b.calls ==
            Count(b.tasks, Calling) + Move(l, b, s).calls
  {
    CountUpdate(b.tasks, s.i, Move(l, b, s).tasks[s.i], Calling);
  }

  /** Calls in flight plus calls returned are the calls made. */
  lemma {:induction false} CallsReturn(l: Limits, b: Batch, steps: seq<Step>)
    requires Schedule(l, b, steps)
    ensures Count(Run(l, b, steps).tasks, Calling) + Returns(steps) + b.calls ==
            Count(b.tasks, Calling) + Run(l, b, steps).calls
    decreases |steps|
  {
    if steps != [] {
      MoveCounts(l, b, steps[0]);
      CallsReturn(l, Move(l, b, steps[0]), steps[1..]);
    }
  }

  /** In every finished batch, whatever the schedule: a candidate is recorded with the verdict its call returned, one
      whose call never returned was never called and is answered Yes, and as many calls returned as were made. */
  lemma VerdictsRecorded(l: Limits, n: nat, before: nat, steps: seq<Step>)
    requires Schedule(l, Begin(n, before), steps) && Finished(Run(l, Begin(n, before), steps))
    ensures var b := Run(l, Begin(n, before), steps);
            && |b.tasks| == n
            && (forall i: nat, v :: i < n && Return(i, v) in steps ==> b.tasks[i] == Done(v))
            && (forall i :: 0 <= i < n && (forall v :: Return(i, v) !in steps) ==> b.tasks[i] == Done(Yes))
            && Returns(steps) == b.calls - before
  {
    var b := Run(l, Begin(n, before), steps);
    RunLength(l, Begin(n, before), steps);
    forall i: nat | i < n
      ensures forall v :: Return(i, v) in steps ==> b.tasks[i] == Done(v)
      ensures (forall v :: Return(i, v) !in steps) ==> b.tasks[i] == Done(Yes)
    {
      Recorded(l, Begin(n, before), steps, i);
      if forall v :: Return(i, v) !in steps { assert forall v :: !Answers(steps, i, v); }
      forall v | Return(i, v) in steps ensures b.tasks[i] == Done(v) { assert Answers(steps, i, v); }
    }
    CallsReturn(l, Begin(n, before), steps);
    CountIs(Begin(n, before).tasks, Calling);
    CountIs(b.tasks, Calling);
  }

  // ----- the mapper's lifetime: batch after batch on one counter -----

  /** Batches given by their sizes and schedules; a batch starts where the previous one left the counter. */
  datatype Work = Work(n: nat, steps: seq<Step>)

  predicate Lifetime(l: Limits, calls: nat, work: seq<Work>)
    decreases |work|
  {
    work == [] ||
    (&& Schedule(l, Begin(work[0].n, calls), work[0].steps)
     && Finished(Run(l, Begin(work[0].n, calls), work[0].steps))
     && Lifetime(l, Run(l, Begin(work[0].n, calls), work[0].steps).calls, work[1..]))
  }

  function TotalCalls(l: Limits, calls: nat, work: seq<Work>): nat
    requires Lifetime(l, calls, work)
    decreases |work|
  {
    if work == [] then calls
    else TotalCalls(l, Run(l, Begin(work[0].n, calls), work[0].steps).calls, work[1..])
  }

  function Candidates(work: seq<Work>): nat {
    if work == [] then 0 else work[0].n + Candidates(work[1..])
  }

  /** Over the mapper's lifetime exactly the smaller of the cap and the number of candidates is called,
      whatever the schedules. */
  lemma {:induction false} LifetimeCalls(l: Limits, calls: nat, work: seq<Work>)
    requires Lifetime(l, calls, work)
    ensures TotalCalls(l, calls, work) == Least(Most(calls, l.cap), calls + Candidates(work))
    decreases |work|
  {
    if work != [] {
      FinishedBatch(l, work[0].n, calls, work[0].steps);
      LifetimeCalls(l, Run(l, Begin(work[0].n, calls), work[0].steps).calls, work[1..]);
    }
  }

  lemma CapHolds(l: Limits, work: seq<Work>)
    requires Lifetime(l, 0, work)
    ensures TotalCalls(l, 0, work) <= Most(0, l.cap)
    ensures l.cap <= 0 ==> TotalCalls(l, 0, work) == 0
  {
    LifetimeCalls(l, 0, work);
  }

  /** Once the budget is spent a step answers Yes without a call. */
  lemma SpentMove(l: Limits, b: Batch, s: Step)
    requires l.cap <= b.calls && Enabled(l, b, s)
    requires forall i :: 0 <= i < |b.tasks| ==> b.tasks[i] in {Waiting, Done(Yes)}
    ensures var b' := Move(l, b, s);
            && b'.calls == b.calls && |b'.tasks| == |b.tasks|
            && forall i :: 0 <= i < |b'.tasks| ==> b'.tasks[i] in {Waiting, Done(Yes)}
  {
  }

  lemma {:induction false} SpentRun(l: Limits, b: Batch, steps: seq<Step>)
    requires l.cap <= b.calls && Schedule(l, b, steps)
    requires forall i :: 0 <= i < |b.tasks| ==> b.tasks[i] in {Waiting, Done(Yes)}
    ensures var b' := Run(l, b, steps);
            && b'.calls == b.calls && |b'.tasks| == |b.tasks|
            && forall i :: 0 <= i < |b'.tasks| ==> b'.tasks[i] in {Waiting, Done(Yes)}
    decreases |steps|
  {
    if steps != [] {
      SpentMove(l, b, steps[0]);
      SpentRun(l, Move(l, b, steps[0]), steps[1..]);
    }
  }

  /** The budget is the mapper's, not the run's: any batch that starts with it spent makes no call at all, and every
      candidate of it is answered Yes unseen. */
  lemma LaterBatchUnverified(l: Limits, n: nat, before: nat, steps: seq<Step>)
    requires l.cap <= before
    requires Schedule(l, Begin(n, before), steps) && Finished(Run(l, Begin(n, before), steps))
    ensures var b := Run(l, Begin(n, before), steps);
            b.calls == before && |b.tasks| == n && forall i :: 0 <= i < n ==> b.tasks[i] == Done(Yes)
  {
    SpentRun(l, Begin(n, before), steps);
  }

  /** Two runs of one candidate each under a cap of one: the first is verified and refused, the second is not. */
  lemma SecondRunUnverified()
    ensures var l, first, second := Limits(1, 1), [Enter(0), Return(0, No)], [Enter(0)];
            && Schedule(l, Begin(1, 0), first) && Run(l, Begin(1, 0), first) == Batch([Done(No)], 1, [], [])
            && Schedule(l, Begin(1, 1), second) && Run(l, Begin(1, 1), second) == Batch([Done(Yes)], 1, [0], [])
  {
    var l := Limits(1, 1);
    OneTask(Waiting);
    OneTask(Calling);
    var b0 := Begin(1, 0);
    assert b0.tasks == [Waiting];
    var b1 := Move(l, b0, Enter(0));
    assert b1 == Batch([Calling], 1, [], []);
    assert Move(l, b1, Return(0, No)) == Batch([Done(No)], 1, [], []);
    assert [Enter(0), Return(0, No)][1..] == [Return(0, No)] && [Return(0, No)][1..] == [];
    var c0 := Begin(1, 1);
    assert c0.tasks == [Waiting];
    assert Move(l, c0, Enter(0)) == Batch([Done(Yes)], 1, [0], []);
    assert [Enter(0)][1..] == [];
  }

  lemma OneTask(t: Task)
    ensures Count([t], Calling) == if t == Calling then 1 else 0
  {
    assert [t][..0] == [];
  }
}
