/**
 * Runs in which no task is retried and no failure ends the run: every
 * attempt completes, or its failure is suppressed (handed to an
 * `onFailure` that returns, or dropped under `ignoreFailures`). Nothing is
 * pushed back, so such a run is the queue run task by task, cut into
 * batches of `batchSize`; the batch count is the one of a run in which
 * every task succeeds.
 */
module DispatcherSettled {
  import opened Dispatcher
  import opened DispatcherLemmas

  // -------------------------------------------------------------------------
  // Settling tasks
  // -------------------------------------------------------------------------

  /** Every invocation of every task of `queue` completes or has its failure suppressed. */
  ghost predicate Settles(opts: Options, behave: Behaviour, queue: seq<Task>) {
    forall t, n :: t in queue ==>
      ExecuteItem(opts, t, behave(t, n)).outcome.Completed? || ExecuteItem(opts, t, behave(t, n)).outcome.Suppressed?
  }

  predicate Settled(results: seq<Outcome>) {
    forall i :: 0 <= i < |results| ==> results[i].Completed? || results[i].Suppressed?
  }

  /** Neither batch hook ever throws. */
  ghost predicate BatchHooksReturn(opts: Options) {
    (forall n :: opts.onBatchStart(n).None?) && (forall n :: opts.onBatchEnd(n).None?)
  }

  /** Events of the task hooks only: no `onBatchStart` or `onBatchEnd` call. */
  predicate TaskOnly(events: seq<Event>) {
    forall i :: 0 <= i < |events| ==> !events[i].BatchStarted? && !events[i].BatchEnded?
  }

  predicate NoRetries(events: seq<Event>) {
    forall i :: 0 <= i < |events| ==> !events[i].Retried?
  }

  predicate NoFailures(events: seq<Event>) {
    forall i :: 0 <= i < |events| ==> !events[i].Failed?
  }

  /** The queue run task by task from the invocation counts `calls`, as one batch. */
  function Sequential(opts: Options, behave: Behaviour, queue: seq<Task>, calls: map<Task, nat>): BatchRun {
    ExecuteBatch(opts, behave, queue, BatchRun([], [], calls))
  }

  lemma SettlesPart(opts: Options, behave: Behaviour, queue: seq<Task>, part: seq<Task>)
    requires Settles(opts, behave, queue)
    requires forall t :: t in part ==> t in queue
    ensures Settles(opts, behave, part)
  {
  }

  lemma SettlesSplit(opts: Options, behave: Behaviour, queue: seq<Task>, k: nat)
    requires k <= |queue| && Settles(opts, behave, queue)
    ensures Settles(opts, behave, queue[..k]) && Settles(opts, behave, queue[k..])
  {
    forall t | t in queue[k..] ensures t in queue {
      var i :| 0 <= i < |queue[k..]| && queue[k..][i] == t;
      assert queue[k + i] == t;
    }
    forall t | t in queue[..k] ensures t in queue {
      var i :| 0 <= i < k && queue[..k][i] == t;
      assert queue[i] == t;
    }
    SettlesPart(opts, behave, queue, queue[..k]);
    SettlesPart(opts, behave, queue, queue[k..]);
  }

  /**
   * A task whose attempt settles calls no `onRetry`, no batch hook, and no
   * `onFailure` when there is none.
   */
  lemma SettledItem(opts: Options, t: Task, a: Attempt)
    requires ExecuteItem(opts, t, a).outcome.Completed? || ExecuteItem(opts, t, a).outcome.Suppressed?
    ensures var ev := ExecuteItem(opts, t, a).events;
      TaskOnly(ev) && NoRetries(ev) && (opts.onFailure.None? ==> NoFailures(ev))
  {
  }

  /**
   * A batch of settling tasks, after settled outcomes, settles every one of
   * its tasks and calls no `onRetry`, no batch hook, and no `onFailure`
   * when there is none.
   */
  lemma {:induction false} SettleBatch(opts: Options, behave: Behaviour, batch: seq<Task>, acc: BatchRun)
    requires Settles(opts, behave, batch) && Settled(acc.results)
    requires TaskOnly(acc.events) && NoRetries(acc.events)
    requires opts.onFailure.None? ==> NoFailures(acc.events)
    ensures var r := ExecuteBatch(opts, behave, batch, acc);
      && Settled(r.results) && |r.results| == |acc.results| + |batch|
      && TaskOnly(r.events) && NoRetries(r.events)
      && (opts.onFailure.None? ==> NoFailures(r.events))
    decreases |batch|
  {
    if |batch| > 0 {
      var u := batch[0];
      var item, next := BatchStep(opts, behave, batch, acc);
      SettledItem(opts, u, behave(u, Times(acc.calls, u)));
      assert forall w :: w in batch[1..] ==> w in batch;
      SettlesPart(opts, behave, batch, batch[1..]);
      SettleBatch(opts, behave, batch[1..], next);
    }
  }

  lemma {:induction false} RequeuedSettled(results: seq<Outcome>)
    requires Settled(results)
    ensures Requeued(results) == []
    decreases |results|
  {
    if results != [] {
      RequeuedSettled(results[..|results| - 1]);
    }
  }

  /**
   * The queue run task by task settles every task: it ends without a fatal
   * outcome, pushes nothing back, invokes each task once per occurrence,
   * and calls no `onRetry`, and no `onFailure` when there is none.
   */
  lemma SettledSequential(opts: Options, behave: Behaviour, queue: seq<Task>, calls: map<Task, nat>)
    requires Settles(opts, behave, queue)
    ensures var s := Sequential(opts, behave, queue, calls);
      && !Aborted(s) && Requeued(s.results) == [] && |s.results| == |queue|
      && TaskOnly(s.events) && NoRetries(s.events)
      && (opts.onFailure.None? ==> NoFailures(s.events))
      && (forall t :: Times(s.calls, t) == Times(calls, t) + multiset(queue)[t])
  {
    var s := Sequential(opts, behave, queue, calls);
    SettleBatch(opts, behave, queue, BatchRun([], [], calls));
    RequeuedSettled(s.results);
    forall t ensures Times(s.calls, t) == Times(calls, t) + multiset(queue)[t] {
      BatchTimes(opts, behave, t, queue, BatchRun([], [], calls));
    }
  }

  // -------------------------------------------------------------------------
  // Batches cut from one sequential run
  // -------------------------------------------------------------------------

  /** A batch run after earlier outcomes appends to them what it produces from scratch. */
  lemma {:induction false} BatchShift(opts: Options, behave: Behaviour, batch: seq<Task>, acc: BatchRun)
    ensures var s := Sequential(opts, behave, batch, acc.calls);
      ExecuteBatch(opts, behave, batch, acc) == BatchRun(acc.results + s.results, acc.events + s.events, s.calls)
    decreases |batch|
  {
    if |batch| > 0 {
      var item, next := BatchStep(opts, behave, batch, acc);
      var item0, next0 := BatchStep(opts, behave, batch, BatchRun([], [], acc.calls));
      assert next0 == BatchRun([item.outcome], item.events, next.calls);
      if !item.outcome.Fatal? {
        BatchShift(opts, behave, batch[1..], next);
        BatchShift(opts, behave, batch[1..], next0);
        var s1 := Sequential(opts, behave, batch[1..], next.calls);
        assert acc.results + [item.outcome] + s1.results == acc.results + ([item.outcome] + s1.results);
        assert acc.events + item.events + s1.events == acc.events + (item.events + s1.events);
      }
    }
  }

  /** Running `a + b` is running `a`, then `b` from where `a` stopped, unless `a` ends fatally. */
  lemma {:induction false} BatchSplit(opts: Options, behave: Behaviour, a: seq<Task>, b: seq<Task>, acc: BatchRun)
    requires |a| == 0 || !Aborted(ExecuteBatch(opts, behave, a, acc))
    ensures ExecuteBatch(opts, behave, a + b, acc) == ExecuteBatch(opts, behave, b, ExecuteBatch(opts, behave, a, acc))
    decreases |a|
  {
    if |a| > 0 {
      var item, next := BatchStep(opts, behave, a, acc);
      assert (a + b)[0] == a[0] && (a + b)[1..] == a[1..] + b;
      var item2, next2 := BatchStep(opts, behave, a + b, acc);
      if !item.outcome.Fatal? {
        BatchSplit(opts, behave, a[1..], b, next);
      }
    } else {
      assert a + b == b;
    }
  }

  /** The queue run task by task is its first k tasks run task by task, then the rest from there. */
  lemma SequentialSplit(opts: Options, behave: Behaviour, queue: seq<Task>, k: nat, calls: map<Task, nat>)
    requires k <= |queue| && !Aborted(Sequential(opts, behave, queue[..k], calls))
    ensures var b := Sequential(opts, behave, queue[..k], calls);
      var s := Sequential(opts, behave, queue[k..], b.calls);
      Sequential(opts, behave, queue, calls) == BatchRun(b.results + s.results, b.events + s.events, s.calls)
  {
    assert queue == queue[..k] + queue[k..];
    BatchSplit(opts, behave, queue[..k], queue[k..], BatchRun([], [], calls));
    BatchShift(opts, behave, queue[k..], Sequential(opts, behave, queue[..k], calls));
  }

  // -------------------------------------------------------------------------
  // The task hook calls of a log
  // -------------------------------------------------------------------------

  /** The log without its `onBatchStart` and `onBatchEnd` calls. */
  function TaskEvents(log: seq<Event>): seq<Event>
    decreases |log|
  {
    if log == [] then []
    else (if log[0].BatchStarted? || log[0].BatchEnded? then [] else [log[0]]) + TaskEvents(log[1..])
  }

  lemma {:induction false} TaskEventsAppend(a: seq<Event>, b: seq<Event>)
    ensures TaskEvents(a + b) == TaskEvents(a) + TaskEvents(b)
    decreases |a|
  {
    if a != [] {
      assert (a + b)[1..] == a[1..] + b;
      TaskEventsAppend(a[1..], b);
    } else {
      assert a + b == b;
    }
  }

  lemma {:induction false} TaskOnlyFixed(events: seq<Event>)
    requires TaskOnly(events)
    ensures TaskEvents(events) == events
    decreases |events|
  {
    if events != [] {
      TaskOnlyFixed(events[1..]);
    }
  }

  /** The task hook calls of a completed pass are those of its batch. */
  lemma TaskEventsPass(log: seq<Event>, events: seq<Event>)
    requires TaskOnly(events)
    ensures TaskEvents(log + [BatchStarted] + events + [BatchEnded]) == TaskEvents(log) + events
  {
    TaskEventsAppend(log + [BatchStarted] + events, [BatchEnded]);
    TaskEventsAppend(log + [BatchStarted], events);
    TaskEventsAppend(log, [BatchStarted]);
    TaskOnlyFixed(events);
    assert TaskEvents([BatchStarted]) == [] && TaskEvents([BatchEnded]) == [];
  }

  /** The argument lists of the `onFailure` calls, in call order. */
  function Failures(log: seq<Event>): seq<seq<Value>>
    decreases |log|
  {
    if log == [] then []
    else (if log[0].Failed? then [log[0].args] else []) + Failures(log[1..])
  }

  lemma {:induction false} FailuresAppend(a: seq<Event>, b: seq<Event>)
    ensures Failures(a + b) == Failures(a) + Failures(b)
    decreases |a|
  {
    if a != [] {
      assert (a + b)[1..] == a[1..] + b;
      FailuresAppend(a[1..], b);
    } else {
      assert a + b == b;
    }
  }

  /** Dropping the batch hook calls keeps the `onSuccess`, `onFailure` and problem counts. */
  lemma {:induction false} TaskEventsKeep(log: seq<Event>)
    ensures Successes(TaskEvents(log)) == Successes(log)
    ensures Failures(TaskEvents(log)) == Failures(log)
    ensures Problems(TaskEvents(log)) == Problems(log)
    decreases |log|
  {
    if log != [] {
      var head := if log[0].BatchStarted? || log[0].BatchEnded? then [] else [log[0]];
      TaskEventsKeep(log[1..]);
      SuccessesAppend(head, TaskEvents(log[1..]));
      FailuresAppend(head, TaskEvents(log[1..]));
      ProblemsAppend(head, TaskEvents(log[1..]));
    }
  }

  // -------------------------------------------------------------------------
  // Whole runs
  // -------------------------------------------------------------------------

  /** The first pass of a settling run: it takes one batch, settles it, and leaves the rest of the queue. */
  lemma SettledStep(opts: Options, behave: Behaviour, st: State, fuel: nat) returns (next: State)
    requires opts.batchSize >= 1 && BatchHooksReturn(opts) && |st.queue| > 0
    requires Settles(opts, behave, st.queue)
    requires fuel >= BatchCount(|st.queue|, opts.batchSize)
    ensures var k := Take(opts.batchSize, |st.queue|);
      var b := Sequential(opts, behave, st.queue[..k], st.calls);
      && RunFrom(opts, behave, st, fuel) == RunFrom(opts, behave, next, fuel - 1)
      && next == State(st.queue[k..], b.calls, st.log + [BatchStarted] + b.events + [BatchEnded], st.batches + 1)
      && !Aborted(b) && TaskOnly(b.events)
      && fuel - 1 >= BatchCount(|next.queue|, opts.batchSize)
      && BatchCount(|st.queue|, opts.batchSize) == 1 + BatchCount(|next.queue|, opts.batchSize)
      && Settles(opts, behave, next.queue)
  {
    var k := Take(opts.batchSize, |st.queue|);
    SettlesSplit(opts, behave, st.queue, k);
    SettledSequential(opts, behave, st.queue[..k], st.calls);
    var b := Sequential(opts, behave, st.queue[..k], st.calls);
    PassCompletes(opts, behave, st);
    assert st.queue[k..] + Requeued(b.results) == st.queue[k..];
    next := State(st.queue[k..], b.calls, st.log + [BatchStarted] + b.events + [BatchEnded], st.batches + 1);
    RunFromContinue(opts, behave, st, fuel, next);
    BatchCountStep(|st.queue|, opts.batchSize);
  }

  /**
   * A run in which every attempt completes or has its failure suppressed,
   * and no batch hook throws, returns `true` after ceil(M / batchSize)
   * batches. Its task hook calls and invocation counts are those of the
   * queue run task by task: the batches only cut that run into pieces.
   */
  lemma {:induction false} SettledRun(opts: Options, behave: Behaviour, st: State, fuel: nat)
    requires opts.batchSize >= 1 && BatchHooksReturn(opts)
    requires Settles(opts, behave, st.queue)
    requires fuel >= BatchCount(|st.queue|, opts.batchSize)
    ensures var r := RunFrom(opts, behave, st, fuel);
      var s := Sequential(opts, behave, st.queue, st.calls);
      && r.result == Returned(true)
      && r.st.batches == st.batches + BatchCount(|st.queue|, opts.batchSize)
      && r.st.calls == s.calls
      && TaskEvents(r.st.log) == TaskEvents(st.log) + s.events
    decreases |st.queue|
  {
    if |st.queue| > 0 {
      var k := Take(opts.batchSize, |st.queue|);
      var next := SettledStep(opts, behave, st, fuel);
      SettledRun(opts, behave, next, fuel - 1);
      var b := Sequential(opts, behave, st.queue[..k], st.calls);
      SequentialSplit(opts, behave, st.queue, k, st.calls);
      TaskEventsPass(st.log, b.events);
      AppendAssoc(TaskEvents(st.log), b.events, Sequential(opts, behave, next.queue, next.calls).events);
    } else {
      assert TaskEvents(st.log) + [] == TaskEvents(st.log);
    }
  }

  /**
   * In such a run nothing is retried, each task is invoked once per
   * occurrence in the queue, and without `onFailure` no failure hook is
   * called.
   */
  lemma SettledRunHooks(opts: Options, behave: Behaviour, st: State, fuel: nat)
    requires opts.batchSize >= 1 && BatchHooksReturn(opts)
    requires Settles(opts, behave, st.queue)
    requires fuel >= BatchCount(|st.queue|, opts.batchSize)
    ensures var r := RunFrom(opts, behave, st, fuel);
      var before := TaskEvents(st.log);
      var after := TaskEvents(r.st.log);
      && |before| <= |after| && after[..|before|] == before
      && NoRetries(after[|before|..])
      && (opts.onFailure.None? ==> NoFailures(after[|before|..]))
      && (forall t :: Times(r.st.calls, t) == Times(st.calls, t) + multiset(st.queue)[t])
  {
    SettledRun(opts, behave, st, fuel);
    SettledSequential(opts, behave, st.queue, st.calls);
    var s := Sequential(opts, behave, st.queue, st.calls);
    var before := TaskEvents(st.log);
    var after := TaskEvents(RunFrom(opts, behave, st, fuel).st.log);
    assert after == before + s.events;
    assert after[|before|..] == s.events;
  }

  // -------------------------------------------------------------------------
  // Tasks that resolve or fail, with the failures suppressed
  // -------------------------------------------------------------------------

  /**
   * Every task of `queue` resolves on every invocation, or is rejected on
   * every invocation with an error the retry policy refuses.
   */
  ghost predicate ResolvesOrFails(opts: Options, behave: Behaviour, queue: seq<Task>) {
    forall t, n :: t in queue ==>
      if behave(t, 0).Resolve? then behave(t, n).Resolve?
      else behave(t, n).Reject? && !ShouldRetry(opts, behave(t, n).err)
  }

  /**
   * `onSuccess` never throws, and a failure goes to an `onFailure` that
   * never throws or, without one, is dropped under `ignoreFailures`.
   */
  ghost predicate TaskHooksReturn(opts: Options) {
    && (forall p :: opts.onSuccess(p).None?)
    && (if opts.onFailure.Some? then forall p :: opts.onFailure.value(p).None? else opts.ignoreFailures)
  }

  /** The argument lists of the tasks of `queue` that resolve, in queue order. */
  function ResolvedArgs(behave: Behaviour, queue: seq<Task>): seq<seq<Value>>
    decreases |queue|
  {
    if queue == [] then []
    else (if behave(queue[0], 0).Resolve? then [queue[0].args] else []) + ResolvedArgs(behave, queue[1..])
  }

  /** The argument lists of the tasks of `queue` that are rejected, in queue order. */
  function RejectedArgs(behave: Behaviour, queue: seq<Task>): seq<seq<Value>>
    decreases |queue|
  {
    if queue == [] then []
    else (if behave(queue[0], 0).Reject? then [queue[0].args] else []) + RejectedArgs(behave, queue[1..])
  }

  /** Every queued task is counted once, as resolving or as rejected. */
  lemma {:induction false} ResolvedRejectedSplit(behave: Behaviour, queue: seq<Task>)
    ensures |ResolvedArgs(behave, queue)| + |RejectedArgs(behave, queue)| == |queue|
    decreases |queue|
  {
    if queue != [] {
      ResolvedRejectedSplit(behave, queue[1..]);
    }
  }

  /**
   * One such task in a batch: it is not fatal, and it adds its arguments to
   * the `onSuccess` calls when it resolves, or to the `onFailure` calls
   * (one problem more) when it is rejected and there is an `onFailure`.
   */
  lemma SettledCall(opts: Options, t: Task, a: Attempt, resolves: bool, events: seq<Event>)
    requires TaskHooksReturn(opts)
    requires if resolves then a.Resolve? else a.Reject? && !ShouldRetry(opts, a.err)
    ensures var item := ExecuteItem(opts, t, a);
      var l := events + item.events;
      && (item.outcome.Completed? || item.outcome.Suppressed?)
      && Successes(l) == Successes(events) + (if resolves then [t.args] else [])
      && Failures(l) == Failures(events) + (if !resolves && opts.onFailure.Some? then [t.args] else [])
      && Problems(l) == Problems(events) + (if !resolves && opts.onFailure.Some? then 1 else 0)
  {
    var item := ExecuteItem(opts, t, a);
    SuccessesAppend(events, item.events);
    FailuresAppend(events, item.events);
    ProblemsAppend(events, item.events);
    if resolves {
      assert item.events == [Succeeded(t.args, a.result)];
    } else if opts.onFailure.Some? {
      assert item.events == [Failed(t.args, a.err)];
    } else {
      assert item.events == [];
    }
  }

  /**
   * A batch of such tasks calls `onSuccess` for the ones that resolve and
   * `onFailure`, when there is one, for the ones that are rejected, in
   * batch order, and nothing else.
   */
  lemma {:induction false} SettledCalls(opts: Options, behave: Behaviour, batch: seq<Task>, acc: BatchRun)
    requires ResolvesOrFails(opts, behave, batch) && TaskHooksReturn(opts)
    ensures var r := ExecuteBatch(opts, behave, batch, acc);
      && Successes(r.events) == Successes(acc.events) + ResolvedArgs(behave, batch)
      && Failures(r.events) == Failures(acc.events) + (if opts.onFailure.Some? then RejectedArgs(behave, batch) else [])
      && Problems(r.events) == Problems(acc.events) + (if opts.onFailure.Some? then |RejectedArgs(behave, batch)| else 0)
    decreases |batch|
  {
    if |batch| > 0 {
      var u := batch[0];
      var item, next := BatchStep(opts, behave, batch, acc);
      SettledCall(opts, u, behave(u, Times(acc.calls, u)), behave(u, 0).Resolve?, acc.events);
      assert forall w :: w in batch[1..] ==> w in batch;
      SettledCalls(opts, behave, batch[1..], next);
      var resolved := if behave(u, 0).Resolve? then [u.args] else [];
      var failed := if !behave(u, 0).Resolve? && opts.onFailure.Some? then [u.args] else [];
      var failedRest := if opts.onFailure.Some? then RejectedArgs(behave, batch[1..]) else [];
      assert ResolvedArgs(behave, batch) == resolved + ResolvedArgs(behave, batch[1..]);
      assert (if opts.onFailure.Some? then RejectedArgs(behave, batch) else []) == failed + failedRest;
      AppendAssoc(Successes(acc.events), resolved, ResolvedArgs(behave, batch[1..]));
      AppendAssoc(Failures(acc.events), failed, failedRest);
    }
  }

  lemma SettlesMixed(opts: Options, behave: Behaviour, queue: seq<Task>)
    requires ResolvesOrFails(opts, behave, queue) && TaskHooksReturn(opts)
    ensures Settles(opts, behave, queue)
  {
    forall t, n | t in queue
      ensures ExecuteItem(opts, t, behave(t, n)).outcome.Completed? || ExecuteItem(opts, t, behave(t, n)).outcome.Suppressed?
    {
      SettledCall(opts, t, behave(t, n), behave(t, 0).Resolve?, []);
    }
  }

  /**
   * Tasks that each resolve or fail, with `onSuccess` returning and the
   * failures suppressed: the run returns `true` after ceil(M / batchSize)
   * batches; `onSuccess` is called once per resolving task, and
   * `onFailure`, when there is one, once per rejected task, both in queue
   * order; nothing is retried; and each task is invoked once per
   * occurrence in the queue.
   */
  lemma SettledCallsRun(opts: Options, behave: Behaviour, st: State, fuel: nat)
    requires opts.batchSize >= 1 && BatchHooksReturn(opts) && TaskHooksReturn(opts)
    requires ResolvesOrFails(opts, behave, st.queue)
    requires fuel >= BatchCount(|st.queue|, opts.batchSize)
    ensures var r := RunFrom(opts, behave, st, fuel);
      && r.result == Returned(true)
      && r.st.batches == st.batches + BatchCount(|st.queue|, opts.batchSize)
      && Successes(r.st.log) == Successes(st.log) + ResolvedArgs(behave, st.queue)
      && Failures(r.st.log) == Failures(st.log) + (if opts.onFailure.Some? then RejectedArgs(behave, st.queue) else [])
      && Problems(r.st.log) == Problems(st.log) + (if opts.onFailure.Some? then |RejectedArgs(behave, st.queue)| else 0)
      && (forall t :: Times(r.st.calls, t) == Times(st.calls, t) + multiset(st.queue)[t])
  {
    SettlesMixed(opts, behave, st.queue);
    SettledRun(opts, behave, st, fuel);
    SettledRunHooks(opts, behave, st, fuel);
    SettledLog(opts, behave, st, RunFrom(opts, behave, st, fuel).st.log);
  }

  /** The log of a run of such tasks. */
  lemma SettledLog(opts: Options, behave: Behaviour, st: State, log: seq<Event>)
    requires ResolvesOrFails(opts, behave, st.queue) && TaskHooksReturn(opts)
    requires TaskEvents(log) == TaskEvents(st.log) + Sequential(opts, behave, st.queue, st.calls).events
    ensures Successes(log) == Successes(st.log) + ResolvedArgs(behave, st.queue)
    ensures Failures(log) == Failures(st.log) + (if opts.onFailure.Some? then RejectedArgs(behave, st.queue) else [])
    ensures Problems(log) == Problems(st.log) + (if opts.onFailure.Some? then |RejectedArgs(behave, st.queue)| else 0)
  {
    var s := Sequential(opts, behave, st.queue, st.calls);
    var failed := if opts.onFailure.Some? then RejectedArgs(behave, st.queue) else [];
    SettledCalls(opts, behave, st.queue, BatchRun([], [], st.calls));
    assert Successes([]) == [] && Failures([]) == [] && Problems([]) == 0;
    assert Successes(s.events) == ResolvedArgs(behave, st.queue);
    assert Failures(s.events) == failed;
    KeepAcross(st.log, log, s.events);
  }

  /** A log whose task hook calls are those of `log0` followed by `events` gains their successes, failures and problems. */
  lemma KeepAcross(log0: seq<Event>, log: seq<Event>, events: seq<Event>)
    requires TaskEvents(log) == TaskEvents(log0) + events
    ensures Failures(log) == Failures(log0) + Failures(events)
    ensures Successes(log) == Successes(log0) + Successes(events)
    ensures Problems(log) == Problems(log0) + Problems(events)
  {
    TaskEventsKeep(log);
    TaskEventsKeep(log0);
    FailuresAppend(TaskEvents(log0), events);
    SuccessesAppend(TaskEvents(log0), events);
    ProblemsAppend(TaskEvents(log0), events);
  }
}
