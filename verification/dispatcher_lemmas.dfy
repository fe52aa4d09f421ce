/**
 * What the dispatcher promises, proved about the run functions of module
 * Dispatcher: the per-task retry and failure rules, the shape of the queue
 * after a batch, the batch count, and the behaviour of the loop under the
 * option settings the package's own tests exercise.
 */
module DispatcherLemmas {
  import opened Dispatcher

  // -------------------------------------------------------------------------
  // Helpers over the hook log
  // -------------------------------------------------------------------------

  /** How many times `e` occurs in the log. */
  function Count(log: seq<Event>, e: Event): nat
    decreases |log|
  {
    if log == [] then 0 else (if log[0] == e then 1 else 0) + Count(log[1..], e)
  }

  lemma {:induction false} CountAppend(a: seq<Event>, b: seq<Event>, e: Event)
    ensures Count(a + b, e) == Count(a, e) + Count(b, e)
    decreases |a|
  {
    if a != [] {
      assert (a + b)[1..] == a[1..] + b;
      CountAppend(a[1..], b, e);
    } else {
      assert a + b == b;
    }
  }

  /** The argument lists passed to `onSuccess`, in call order. */
  function Successes(log: seq<Event>): seq<seq<Value>>
    decreases |log|
  {
    if log == [] then []
    else (if log[0].Succeeded? then [log[0].args] else []) + Successes(log[1..])
  }

  lemma {:induction false} SuccessesAppend(a: seq<Event>, b: seq<Event>)
    ensures Successes(a + b) == Successes(a) + Successes(b)
    decreases |a|
  {
    if a != [] {
      assert (a + b)[1..] == a[1..] + b;
      SuccessesAppend(a[1..], b);
    } else {
      assert a + b == b;
    }
  }

  function ArgsOf(tasks: seq<Task>): seq<seq<Value>>
    decreases |tasks|
  {
    if tasks == [] then [] else [tasks[0].args] + ArgsOf(tasks[1..])
  }

  lemma {:induction false} ArgsOfAppend(a: seq<Task>, b: seq<Task>)
    ensures ArgsOf(a + b) == ArgsOf(a) + ArgsOf(b)
    decreases |a|
  {
    if a != [] {
      assert (a + b)[1..] == a[1..] + b;
      ArgsOfAppend(a[1..], b);
    } else {
      assert a + b == b;
    }
  }

  /** No hook the caller supplied ever throws. */
  ghost predicate QuietHooks(opts: Options) {
    && (forall p :: opts.onSuccess(p).None?)
    && (forall a :: opts.onRetry(a).None?)
    && (forall n :: opts.onBatchStart(n).None?)
    && (forall n :: opts.onBatchEnd(n).None?)
  }

  /** `b` occurs in `a` in order, possibly with gaps. */
  predicate Subsequence<T(==)>(a: seq<T>, b: seq<T>)
    decreases |b|
  {
    if a == [] then true
    else if b == [] then false
    else if a[|a| - 1] == b[|b| - 1] then Subsequence(a[..|a| - 1], b[..|b| - 1])
    else Subsequence(a, b[..|b| - 1])
  }

  // -------------------------------------------------------------------------
  // One task
  // -------------------------------------------------------------------------

  /**
   * A task whose attempt reached the `catch` block calls `onRetry` (and is
   * re-queued as the same task unless the hook throws) exactly when
   * `greedyRetry` is set or some filter accepts the error.
   */
  lemma RetryRule(opts: Options, task: Task, attempt: Attempt, e: Error)
    requires Caught(opts, task, attempt) == Some(e)
    ensures (Retried(task.args) in ExecuteItem(opts, task, attempt).events) <==>
              (opts.greedyRetry || exists i :: 0 <= i < |opts.retryFilters| && opts.retryFilters[i](e))
    ensures (ExecuteItem(opts, task, attempt).outcome == Retry(task)) <==>
              (ShouldRetry(opts, e) && opts.onRetry(task.args).None?)
  {
    AnyFilterMatchesIff(opts.retryFilters, e);
  }

  /**
   * A failure that is not retried: `onFailure` wins when present and the
   * run goes on unless it throws; otherwise `ignoreFailures` drops it;
   * otherwise the run fails with that same error.
   */
  lemma FailureRule(opts: Options, task: Task, attempt: Attempt, e: Error)
    requires Caught(opts, task, attempt) == Some(e) && !ShouldRetry(opts, e)
    ensures var r := ExecuteItem(opts, task, attempt);
      && !r.outcome.Retry? && !r.outcome.Completed?
      && (opts.onFailure.Some? ==>
            Failed(task.args, e) in r.events &&
            r.outcome == (match opts.onFailure.value((task.args, e))
                          case None => Suppressed
                          case Some(h) => Fatal(h)))
      && (opts.onFailure.None? && opts.ignoreFailures ==> r.outcome == Suppressed && r.events == (if attempt.Resolve? then [Succeeded(task.args, attempt.result)] else []))
      && (opts.onFailure.None? && !opts.ignoreFailures ==> r.outcome == Fatal(e))
  {
  }

  /** A task that resolves and whose `onSuccess` returns is completed, calls `onSuccess` once and is not re-queued. */
  lemma SuccessRule(opts: Options, task: Task, v: Value)
    requires opts.onSuccess((task.args, v)).None?
    ensures ExecuteItem(opts, task, Resolve(v)) == ItemRun(Completed(v), [Succeeded(task.args, v)])
  {
  }

  /** An error thrown by `onSuccess` is handled like a rejection of the task. */
  lemma SuccessHookErrorIsCaught(opts: Options, task: Task, v: Value, e: Error)
    requires opts.onSuccess((task.args, v)) == Some(e)
    ensures ExecuteItem(opts, task, Resolve(v)).outcome == ExecuteItem(opts, task, Reject(e)).outcome
    ensures ExecuteItem(opts, task, Resolve(v)).events == [Succeeded(task.args, v)] + ExecuteItem(opts, task, Reject(e)).events
  {
  }

  // -------------------------------------------------------------------------
  // greedyRetry makes the filters irrelevant
  // -------------------------------------------------------------------------

  lemma {:induction false} GreedyBatch(opts: Options, filters: seq<Error -> bool>, behave: Behaviour, batch: seq<Task>, acc: BatchRun)
    requires opts.greedyRetry
    ensures ExecuteBatch(opts, behave, batch, acc) == ExecuteBatch(opts.(retryFilters := filters), behave, batch, acc)
    decreases |batch|
  {
    if batch != [] {
      var other := opts.(retryFilters := filters);
      var t := batch[0];
      var n := Times(acc.calls, t);
      var item := ExecuteItem(opts, t, behave(t, n));
      assert item == ExecuteItem(other, t, behave(t, n));
      if !item.outcome.Fatal? {
        var next := BatchRun(acc.results + [item.outcome], acc.events + item.events, acc.calls[t := n + 1]);
        GreedyBatch(opts, filters, behave, batch[1..], next);
      }
    }
  }

  /** With `greedyRetry` set, the whole run is the same whatever the retry filters are. */
  lemma {:induction false} GreedyIgnoresFilters(opts: Options, filters: seq<Error -> bool>, behave: Behaviour, st: State, fuel: nat)
    requires opts.greedyRetry
    ensures RunFrom(opts, behave, st, fuel) == RunFrom(opts.(retryFilters := filters), behave, st, fuel)
    decreases fuel
  {
    var other := opts.(retryFilters := filters);
    if |st.queue| > 0 && fuel > 0 {
      var k := Take(opts.batchSize, |st.queue|);
      GreedyBatch(opts, filters, behave, st.queue[..k], BatchRun([], [], st.calls));
      assert Iterate(opts, behave, st) == Iterate(other, behave, st);
      match Iterate(opts, behave, st)
      case Abort(_, _) =>
      case Continue(next) => GreedyIgnoresFilters(opts, filters, behave, next, fuel - 1);
    }
  }

  // -------------------------------------------------------------------------
  // The queue after one pass
  // -------------------------------------------------------------------------

  lemma {:induction false} RequeuedIsSubsequence(results: seq<Outcome>, batch: seq<Task>)
    requires |results| <= |batch|
    requires forall i :: 0 <= i < |results| && results[i].Retry? ==> results[i].task == batch[i]
    ensures Subsequence(Requeued(results), batch)
    decreases |batch|
  {
    if batch == [] {
    } else if |results| < |batch| {
      var init := batch[..|batch| - 1];
      assert forall i :: 0 <= i < |results| && results[i].Retry? ==> results[i].task == init[i];
      RequeuedIsSubsequence(results, init);
      SubsequenceExtend(Requeued(results), init, batch[|batch| - 1]);
      assert init + [batch[|batch| - 1]] == batch;
    } else {
      var last := results[|results| - 1];
      var init := results[..|results| - 1];
      var binit := batch[..|batch| - 1];
      assert forall i :: 0 <= i < |init| && init[i].Retry? ==> init[i].task == binit[i];
      RequeuedIsSubsequence(init, binit);
      var a := Requeued(results);
      if last.Retry? {
        assert a == Requeued(init) + [last.task];
        assert a[..|a| - 1] == Requeued(init);
      } else {
        assert a == Requeued(init);
        SubsequenceExtend(a, binit, batch[|batch| - 1]);
        assert binit + [batch[|batch| - 1]] == batch;
      }
    }
  }

  lemma {:induction false} SubsequenceExtend<T>(a: seq<T>, b: seq<T>, x: T)
    requires Subsequence(a, b)
    ensures Subsequence(a, b + [x])
    decreases |b|, 1
  {
    var bx := b + [x];
    assert bx[..|bx| - 1] == b;
    if a != [] && a[|a| - 1] == x {
      SubsequenceDropLast(a, b);
    }
  }

  lemma {:induction false} SubsequenceDropLast<T>(a: seq<T>, b: seq<T>)
    requires a != [] && Subsequence(a, b)
    ensures Subsequence(a[..|a| - 1], b)
    decreases |b|, 0
  {
    var binit := b[..|b| - 1];
    assert binit + [b[|b| - 1]] == b;
    if a[|a| - 1] == b[|b| - 1] {
      SubsequenceExtend(a[..|a| - 1], binit, b[|b| - 1]);
    } else {
      SubsequenceDropLast(a, binit);
      SubsequenceExtend(a[..|a| - 1], binit, b[|b| - 1]);
    }
  }

  /**
   * One pass that completes: the queue is the untouched remainder after
   * `min(batchSize, |queue|)` tasks, followed by the batch's retried tasks,
   * which are some of the batch's own tasks in batch order.
   */
  lemma PassShape(opts: Options, behave: Behaviour, st: State)
    requires Iterate(opts, behave, st).Continue?
    ensures var k := Take(opts.batchSize, |st.queue|);
            var q := Iterate(opts, behave, st).next.queue;
            q[..|st.queue| - k] == st.queue[k..] &&
            Subsequence(q[|st.queue| - k..], st.queue[..k])
  {
    var k := Take(opts.batchSize, |st.queue|);
    var b := ExecuteBatch(opts, behave, st.queue[..k], BatchRun([], [], st.calls));
    ExecuteBatchShape(opts, behave, st.queue[..k], BatchRun([], [], st.calls));
    RequeuedIsSubsequence(b.results, st.queue[..k]);
    var q := Iterate(opts, behave, st).next.queue;
    assert q == st.queue[k..] + Requeued(b.results);
    assert q[|st.queue| - k..] == Requeued(b.results);
  }

  // -------------------------------------------------------------------------
  // Runs in which nothing fails: ceil(M / batchSize) batches
  // -------------------------------------------------------------------------

  /** The number of batches that drain `m` tasks, `batchSize` at a time, with no retries. */
  function BatchCount(m: nat, batchSize: nat): nat
    requires batchSize >= 1
    decreases m
  {
    if m == 0 then 0
    else if m <= batchSize then 1
    else 1 + BatchCount(m - batchSize, batchSize)
  }

  /** `BatchCount(m, batchSize)` is ceil(m / batchSize): the least c with m <= c * batchSize. */
  lemma {:induction false} BatchCountIsCeiling(m: nat, batchSize: nat)
    requires batchSize >= 1
    ensures var c := BatchCount(m, batchSize);
      m <= c * batchSize && (m == 0 || (c - 1) * batchSize < m)
    decreases m
  {
    if m > batchSize {
      var c := BatchCount(m, batchSize);
      BatchCountIsCeiling(m - batchSize, batchSize);
      assert c * batchSize == (c - 1) * batchSize + batchSize;
      assert (c - 1) * batchSize == (c - 2) * batchSize + batchSize;
    }
  }

  /** Retried or failed tasks recorded in the log. */
  function Problems(log: seq<Event>): nat
    decreases |log|
  {
    if log == [] then 0
    else (if log[0].Retried? || log[0].Failed? then 1 else 0) + Problems(log[1..])
  }

  lemma {:induction false} ProblemsAppend(a: seq<Event>, b: seq<Event>)
    ensures Problems(a + b) == Problems(a) + Problems(b)
    decreases |a|
  {
    if a != [] {
      assert (a + b)[1..] == a[1..] + b;
      ProblemsAppend(a[1..], b);
    } else {
      assert a + b == b;
    }
  }

  predicate AllCompleted(results: seq<Outcome>) {
    forall i :: 0 <= i < |results| ==> results[i].Completed?
  }

  predicate AllSucceeded(events: seq<Event>) {
    forall i :: 0 <= i < |events| ==> events[i].Succeeded?
  }

  lemma {:induction false} RequeuedCompleted(results: seq<Outcome>)
    requires AllCompleted(results)
    ensures Requeued(results) == []
    decreases |results|
  {
    if results != [] {
      RequeuedCompleted(results[..|results| - 1]);
    }
  }

  lemma {:induction false} ProblemsSucceeded(events: seq<Event>)
    requires AllSucceeded(events)
    ensures Problems(events) == 0
    decreases |events|
  {
    if events != [] {
      ProblemsSucceeded(events[1..]);
    }
  }

  lemma {:induction false} AllSucceedBatch(opts: Options, behave: Behaviour, batch: seq<Task>, acc: BatchRun)
    requires AllCompleted(acc.results) && AllSucceeded(acc.events)
    requires forall t, n :: t in batch ==> behave(t, n).Resolve?
    requires forall p :: opts.onSuccess(p).None?
    ensures var r := ExecuteBatch(opts, behave, batch, acc);
      && AllCompleted(r.results) && AllSucceeded(r.events)
      && Successes(r.events) == Successes(acc.events) + ArgsOf(batch)
    decreases |batch|
  {
    if batch != [] {
      var t := batch[0];
      var n := Times(acc.calls, t);
      var v := behave(t, n).result;
      var item := ExecuteItem(opts, t, behave(t, n));
      assert item == ItemRun(Completed(v), [Succeeded(t.args, v)]);
      var next := BatchRun(acc.results + [item.outcome], acc.events + item.events, acc.calls[t := n + 1]);
      assert ExecuteBatch(opts, behave, batch, acc) == ExecuteBatch(opts, behave, batch[1..], next);
      assert forall u :: u in batch[1..] ==> u in batch;
      AllSucceedBatch(opts, behave, batch[1..], next);
      SuccessesAppend(acc.events, item.events);
      assert ArgsOf(batch) == [t.args] + ArgsOf(batch[1..]);
    }
  }

  /** One pass in which every task resolves and no hook throws. */
  lemma AllSucceedPass(opts: Options, behave: Behaviour, st: State)
    requires opts.batchSize >= 1 && QuietHooks(opts) && |st.queue| > 0
    requires forall t, n :: t in st.queue ==> behave(t, n).Resolve?
    ensures var k := Take(opts.batchSize, |st.queue|);
      var r := Iterate(opts, behave, st);
      && r.Continue?
      && r.next.queue == st.queue[k..]
      && Successes(r.next.log) == Successes(st.log) + ArgsOf(st.queue[..k])
      && Problems(r.next.log) == Problems(st.log)
  {
    var k := Take(opts.batchSize, |st.queue|);
    var batch := st.queue[..k];
    assert forall t :: t in batch ==> t in st.queue;
    var b := AllSucceedFacts(opts, behave, batch, st.calls);
    PassCompletes(opts, behave, st);
    QuietPassLog(st.log, b.events);
    assert st.queue[k..] + Requeued(b.results) == st.queue[k..];
  }

  /** A batch, started afresh, in which every task resolves and `onSuccess` never throws. */
  lemma AllSucceedFacts(opts: Options, behave: Behaviour, batch: seq<Task>, calls: map<Task, nat>) returns (b: BatchRun)
    requires forall t, n :: t in batch ==> behave(t, n).Resolve?
    requires forall p :: opts.onSuccess(p).None?
    ensures b == ExecuteBatch(opts, behave, batch, BatchRun([], [], calls))
    ensures !Aborted(b) && Requeued(b.results) == []
    ensures Problems(b.events) == 0 && Successes(b.events) == ArgsOf(batch)
  {
    b := ExecuteBatch(opts, behave, batch, BatchRun([], [], calls));
    AllSucceedBatch(opts, behave, batch, BatchRun([], [], calls));
    RequeuedCompleted(b.results);
    ProblemsSucceeded(b.events);
    assert Successes([]) == [];
    assert [] + ArgsOf(batch) == ArgsOf(batch);
  }

  /** The log of a pass whose every task succeeded. */
  lemma QuietPassLog(log: seq<Event>, events: seq<Event>)
    requires Problems(events) == 0
    ensures var l := log + [BatchStarted] + events + [BatchEnded];
      Successes(l) == Successes(log) + Successes(events) && Problems(l) == Problems(log)
  {
    var l1 := log + [BatchStarted];
    var l2 := l1 + events;
    assert Successes([BatchStarted]) == [] && Successes([BatchEnded]) == [];
    assert Problems([BatchStarted]) == 0 && Problems([BatchEnded]) == 0;
    SuccessesAppend(log, [BatchStarted]);
    SuccessesAppend(l1, events);
    SuccessesAppend(l2, [BatchEnded]);
    assert Successes(l1) == Successes(log);
    assert Successes(l2 + [BatchEnded]) == Successes(l2);
    ProblemsAppend(log, [BatchStarted]);
    ProblemsAppend(l1, events);
    ProblemsAppend(l2, [BatchEnded]);
  }

  /**
   * When every task resolves and no hook throws, a run with
   * `batchSize >= 1` returns `true` after exactly ceil(M / batchSize)
   * batches.
   */
  lemma {:induction false} AllSucceed(opts: Options, behave: Behaviour, st: State, fuel: nat)
    requires opts.batchSize >= 1 && QuietHooks(opts)
    requires forall t, n :: t in st.queue ==> behave(t, n).Resolve?
    requires fuel >= BatchCount(|st.queue|, opts.batchSize)
    ensures RunFrom(opts, behave, st, fuel).result == Returned(true)
    ensures RunFrom(opts, behave, st, fuel).st.batches == st.batches + BatchCount(|st.queue|, opts.batchSize)
    decreases |st.queue|
  {
    if st.queue != [] {
      var next := AllSucceedStep(opts, behave, st, fuel);
      AllSucceed(opts, behave, next, fuel - 1);
      var r := RunFrom(opts, behave, next, fuel - 1);
      assert RunFrom(opts, behave, st, fuel) == r;
      assert r.st.batches == next.batches + BatchCount(|next.queue|, opts.batchSize);
    }
  }

  /**
   * In such a run `onSuccess` is called once per task, in queue order, and
   * nothing is retried or failed.
   */
  lemma {:induction false} AllSucceedLog(opts: Options, behave: Behaviour, st: State, fuel: nat)
    requires opts.batchSize >= 1 && QuietHooks(opts)
    requires forall t, n :: t in st.queue ==> behave(t, n).Resolve?
    requires fuel >= BatchCount(|st.queue|, opts.batchSize)
    ensures var r := RunFrom(opts, behave, st, fuel);
      && Successes(r.st.log) == Successes(st.log) + ArgsOf(st.queue)
      && Problems(r.st.log) == Problems(st.log)
    decreases |st.queue|
  {
    if st.queue != [] {
      var k := Take(opts.batchSize, |st.queue|);
      var next := AllSucceedStep(opts, behave, st, fuel);
      AllSucceedLog(opts, behave, next, fuel - 1);
      AppendAssoc(Successes(st.log), ArgsOf(st.queue[..k]), ArgsOf(next.queue));
    }
  }

  /** The first pass of `AllSucceed`, and what the rest of the run starts from. */
  lemma AllSucceedStep(opts: Options, behave: Behaviour, st: State, fuel: nat) returns (next: State)
    requires opts.batchSize >= 1 && QuietHooks(opts) && |st.queue| > 0
    requires forall t, n :: t in st.queue ==> behave(t, n).Resolve?
    requires fuel >= BatchCount(|st.queue|, opts.batchSize)
    ensures var k := Take(opts.batchSize, |st.queue|);
      && RunFrom(opts, behave, st, fuel) == RunFrom(opts, behave, next, fuel - 1)
      && fuel - 1 >= BatchCount(|next.queue|, opts.batchSize)
      && BatchCount(|st.queue|, opts.batchSize) == 1 + BatchCount(|next.queue|, opts.batchSize)
      && next.batches == st.batches + 1
      && (forall t, n :: t in next.queue ==> behave(t, n).Resolve?)
      && |next.queue| < |st.queue|
      && ArgsOf(st.queue) == ArgsOf(st.queue[..k]) + ArgsOf(next.queue)
      && Successes(next.log) == Successes(st.log) + ArgsOf(st.queue[..k])
      && Problems(next.log) == Problems(st.log)
  {
    var k := Take(opts.batchSize, |st.queue|);
    AllSucceedPass(opts, behave, st);
    next := Iterate(opts, behave, st).next;
    RunFromUnfold(opts, behave, st, fuel);
    AllSucceedRest(behave, st.queue, k);
    BatchCountStep(|st.queue|, opts.batchSize);
    ArgsOfSplit(st.queue, k);
  }

  lemma AppendAssoc<T>(a: seq<T>, b: seq<T>, c: seq<T>)
    ensures a + b + c == a + (b + c)
  {
  }

  lemma ArgsOfSplit(q: seq<Task>, k: nat)
    requires k <= |q|
    ensures ArgsOf(q) == ArgsOf(q[..k]) + ArgsOf(q[k..])
  {
    ArgsOfAppend(q[..k], q[k..]);
    assert q == q[..k] + q[k..];
  }

  lemma AllSucceedRest(behave: Behaviour, queue: seq<Task>, k: nat)
    requires k <= |queue|
    requires forall t, n :: t in queue ==> behave(t, n).Resolve?
    ensures forall t, n :: t in queue[k..] ==> behave(t, n).Resolve?
  {
    forall t, n | t in queue[k..] ensures behave(t, n).Resolve? {
      var i :| 0 <= i < |queue[k..]| && queue[k..][i] == t;
      assert queue[k + i] == t;
    }
  }

  lemma BatchCountStep(m: nat, batchSize: int)
    requires batchSize >= 1 && m > 0
    ensures BatchCount(m, batchSize) == 1 + BatchCount(m - Take(batchSize, m), batchSize)
  {
  }

  // -------------------------------------------------------------------------
  // A task that fails k times with a matching filter, then succeeds
  // -------------------------------------------------------------------------

  /**
   * Attempts `from` to `from + k - 1` of task `t` reject with errors the
   * retry policy accepts, and attempt `from + k` resolves.
   */
  ghost predicate RetriedThenResolves(opts: Options, behave: Behaviour, t: Task, from: nat, k: nat) {
    && (forall i :: from <= i < from + k ==> behave(t, i).Reject? && ShouldRetry(opts, behave(t, i).err))
    && behave(t, from + k).Resolve?
  }

  /** The hook calls of k passes that each retry the task with arguments `args`. */
  function RetryPasses(args: seq<Value>, k: nat): seq<Event>
    decreases k
  {
    if k == 0 then [] else [BatchStarted, Retried(args), BatchEnded] + RetryPasses(args, k - 1)
  }

  lemma {:induction false} RetryPassesCount(args: seq<Value>, k: nat, x: Event)
    requires !x.BatchStarted? && !x.BatchEnded?
    ensures Count(RetryPasses(args, k), x) == if x == Retried(args) then k else 0
    decreases k
  {
    if k > 0 {
      RetryPassesCount(args, k - 1, x);
      CountAppend([BatchStarted, Retried(args), BatchEnded], RetryPasses(args, k - 1), x);
      CountOfThree(BatchStarted, Retried(args), BatchEnded, x);
    }
  }

  lemma CountOfThree(a: Event, b: Event, c: Event, x: Event)
    ensures Count([a, b, c], x) == (if a == x then 1 else 0) + (if b == x then 1 else 0) + (if c == x then 1 else 0)
  {
    assert [a, b, c][1..] == [b, c] && [b, c][1..] == [c] && [c][1..] == [];
    assert Count([c], x) == (if c == x then 1 else 0);
    assert Count([b, c], x) == (if b == x then 1 else 0) + Count([c], x);
  }

  /**
   * Alone in the queue, a task that is rejected k times with errors the
   * retry policy accepts and then resolves makes the run return `true`
   * after k + 1 batches.
   */
  lemma {:induction false} RetryThenSucceed(opts: Options, behave: Behaviour, st: State, t: Task, k: nat, fuel: nat)
    requires opts.batchSize >= 1 && QuietHooks(opts) && st.queue == [t] && fuel >= k + 1
    requires RetriedThenResolves(opts, behave, t, Times(st.calls, t), k)
    ensures RunFrom(opts, behave, st, fuel).result == Returned(true)
    ensures RunFrom(opts, behave, st, fuel).st.batches == st.batches + k + 1
    decreases k
  {
    var next := RetryStep(opts, behave, st, t, k, fuel);
    if k > 0 {
      RetryThenSucceed(opts, behave, next, t, k - 1, fuel - 1);
    }
  }

  /**
   * The hooks such a run calls are exactly: k passes that each call
   * `onBatchStart`, `onRetry` and `onBatchEnd`, then one pass that calls
   * `onBatchStart`, `onSuccess` and `onBatchEnd`.
   */
  lemma {:induction false} RetryThenSucceedTrace(opts: Options, behave: Behaviour, st: State, t: Task, k: nat, fuel: nat)
    requires opts.batchSize >= 1 && QuietHooks(opts) && st.queue == [t] && fuel >= k + 1
    requires RetriedThenResolves(opts, behave, t, Times(st.calls, t), k)
    ensures RunFrom(opts, behave, st, fuel).st.log
      == st.log + RetryPasses(t.args, k) + [BatchStarted, Succeeded(t.args, behave(t, Times(st.calls, t) + k).result), BatchEnded]
    decreases k
  {
    var next := RetryStep(opts, behave, st, t, k, fuel);
    var last := [BatchStarted, Succeeded(t.args, behave(t, Times(st.calls, t) + k).result), BatchEnded];
    if k > 0 {
      RetryThenSucceedTrace(opts, behave, next, t, k - 1, fuel - 1);
      AppendAssoc(st.log, [BatchStarted, Retried(t.args), BatchEnded], RetryPasses(t.args, k - 1));
    } else {
      assert next.log == st.log + [] + last;
    }
  }

  /** In that run `onRetry` is called k times for the task, and `onSuccess` once. */
  lemma RetryThenSucceedLog(opts: Options, behave: Behaviour, st: State, t: Task, k: nat, fuel: nat)
    requires opts.batchSize >= 1 && QuietHooks(opts) && st.queue == [t] && fuel >= k + 1
    requires RetriedThenResolves(opts, behave, t, Times(st.calls, t), k)
    ensures var r := RunFrom(opts, behave, st, fuel);
      var v := behave(t, Times(st.calls, t) + k).result;
      && Count(r.st.log, Retried(t.args)) == Count(st.log, Retried(t.args)) + k
      && Count(r.st.log, Succeeded(t.args, v)) == Count(st.log, Succeeded(t.args, v)) + 1
  {
    var v := behave(t, Times(st.calls, t) + k).result;
    RetryThenSucceedTrace(opts, behave, st, t, k, fuel);
    RetryLogCount(st.log, t.args, k, v, Retried(t.args));
    RetryLogCount(st.log, t.args, k, v, Succeeded(t.args, v));
  }

  lemma RetryLogCount(log: seq<Event>, args: seq<Value>, k: nat, v: Value, x: Event)
    requires !x.BatchStarted? && !x.BatchEnded?
    ensures Count(log + RetryPasses(args, k) + [BatchStarted, Succeeded(args, v), BatchEnded], x)
      == Count(log, x) + (if x == Retried(args) then k else 0) + (if x == Succeeded(args, v) then 1 else 0)
  {
    var last := [BatchStarted, Succeeded(args, v), BatchEnded];
    RetryPassesCount(args, k, x);
    CountAppend(log, RetryPasses(args, k), x);
    CountAppend(log + RetryPasses(args, k), last, x);
    CountOfThree(BatchStarted, Succeeded(args, v), BatchEnded, x);
  }

  /** The first pass of such a run, and the state the rest of it starts from. */
  lemma RetryStep(opts: Options, behave: Behaviour, st: State, t: Task, k: nat, fuel: nat) returns (next: State)
    requires opts.batchSize >= 1 && QuietHooks(opts) && st.queue == [t] && fuel >= k + 1
    requires RetriedThenResolves(opts, behave, t, Times(st.calls, t), k)
    ensures var ev := if k == 0 then Succeeded(t.args, behave(t, Times(st.calls, t)).result) else Retried(t.args);
      && RunFrom(opts, behave, st, fuel) == RunFrom(opts, behave, next, fuel - 1)
      && next.log == st.log + [BatchStarted, ev, BatchEnded]
      && next.batches == st.batches + 1
      && next.queue == (if k == 0 then [] else [t])
      && Times(next.calls, t) == Times(st.calls, t) + 1
      && (k > 0 ==> RetriedThenResolves(opts, behave, t, Times(next.calls, t), k - 1))
  {
    var n := Times(st.calls, t);
    assert k == 0 ==> behave(t, n).Resolve?;
    assert k > 0 ==> behave(t, n).Reject? && ShouldRetry(opts, behave(t, n).err);
    next := SingleTaskPass(opts, behave, st, t);
    RunFromContinue(opts, behave, st, fuel, next);
  }

  /** A pass over a queue holding only `t`, whose attempt resolves or is to be retried. */
  lemma SingleTaskPass(opts: Options, behave: Behaviour, st: State, t: Task) returns (next: State)
    requires opts.batchSize >= 1 && QuietHooks(opts) && st.queue == [t]
    requires var a := behave(t, Times(st.calls, t)); a.Resolve? || ShouldRetry(opts, a.err)
    ensures var a := behave(t, Times(st.calls, t));
      && Iterate(opts, behave, st) == Continue(next)
      && next.log == st.log + [BatchStarted, if a.Resolve? then Succeeded(t.args, a.result) else Retried(t.args), BatchEnded]
      && next.queue == (if a.Resolve? then [] else [t])
      && Times(next.calls, t) == Times(st.calls, t) + 1
      && next.batches == st.batches + 1
  {
    var n := Times(st.calls, t);
    var a := behave(t, n);
    var item := ExecuteItem(opts, t, a);
    var ev := if a.Resolve? then Succeeded(t.args, a.result) else Retried(t.args);
    if a.Resolve? {
      assert item == ItemRun(Completed(a.result), [ev]);
    } else {
      assert item == ItemRun(Retry(t), [ev]);
    }
    assert Take(opts.batchSize, 1) == 1;
    assert st.queue[..1] == [t];
    SingletonBatch(opts, behave, t, st.calls);
    PassCompletes(opts, behave, st);
    next := Iterate(opts, behave, st).next;
    assert st.queue[1..] == [];
  }

  /** A batch of one task that is not fatal. */
  lemma SingletonBatch(opts: Options, behave: Behaviour, t: Task, calls: map<Task, nat>)
    requires !ExecuteItem(opts, t, behave(t, Times(calls, t))).outcome.Fatal?
    ensures var item := ExecuteItem(opts, t, behave(t, Times(calls, t)));
      ExecuteBatch(opts, behave, [t], BatchRun([], [], calls))
        == BatchRun([item.outcome], item.events, calls[t := Times(calls, t) + 1])
  {
    var item := ExecuteItem(opts, t, behave(t, Times(calls, t)));
    var b := BatchRun([] + [item.outcome], [] + item.events, calls[t := Times(calls, t) + 1]);
    assert [t][1..] == [];
    assert ExecuteBatch(opts, behave, [t], BatchRun([], [], calls)) == ExecuteBatch(opts, behave, [], b);
    assert [] + [item.outcome] == [item.outcome] && [] + item.events == item.events;
  }

  /** What one completed pass adds to the count of event `x`. */
  lemma CountPass(log: seq<Event>, ev: Event, x: Event)
    requires !x.BatchStarted? && !x.BatchEnded?
    ensures Count(log + [BatchStarted] + [ev] + [BatchEnded], x) == Count(log, x) + (if ev == x then 1 else 0)
  {
    CountAppend(log, [BatchStarted], x);
    CountAppend(log + [BatchStarted], [ev], x);
    CountAppend(log + [BatchStarted] + [ev], [BatchEnded], x);
  }

  // -------------------------------------------------------------------------
  // A task that fails k times with a matching filter, among other tasks
  // -------------------------------------------------------------------------

  /** Is `e` a call of `onSuccess`, `onRetry` or `onFailure` with argument list `args`? */
  predicate Mentions(e: Event, args: seq<Value>) {
    (e.Succeeded? || e.Retried? || e.Failed?) && e.args == args
  }

  /** The calls of the task hooks with argument list `args`, in call order. */
  function About(log: seq<Event>, args: seq<Value>): seq<Event>
    decreases |log|
  {
    if log == [] then []
    else (if Mentions(log[0], args) then [log[0]] else []) + About(log[1..], args)
  }

  lemma {:induction false} AboutAppend(a: seq<Event>, b: seq<Event>, args: seq<Value>)
    ensures About(a + b, args) == About(a, args) + About(b, args)
    decreases |a|
  {
    if a != [] {
      assert (a + b)[1..] == a[1..] + b;
      AboutAppend(a[1..], b, args);
    } else {
      assert a + b == b;
    }
  }

  /** Counting a call with arguments `args` only needs the calls with those arguments. */
  lemma {:induction false} CountAbout(log: seq<Event>, args: seq<Value>, x: Event)
    requires Mentions(x, args)
    ensures Count(log, x) == Count(About(log, args), x)
    decreases |log|
  {
    if log != [] {
      CountAbout(log[1..], args, x);
      CountAppend(if Mentions(log[0], args) then [log[0]] else [], About(log[1..], args), x);
    }
  }

  /** `j` calls of `onRetry` with `args`. */
  function Retries(args: seq<Value>, j: nat): seq<Event>
    decreases j
  {
    if j == 0 then [] else Retries(args, j - 1) + [Retried(args)]
  }

  lemma {:induction false} RetriesCount(args: seq<Value>, j: nat, x: Event)
    ensures Count(Retries(args, j), x) == if x == Retried(args) then j else 0
    decreases j
  {
    if j > 0 {
      RetriesCount(args, j - 1, x);
      CountAppend(Retries(args, j - 1), [Retried(args)], x);
    }
  }

  /** Running task `u` calls no task hook with arguments other than its own. */
  lemma ItemAboutOther(opts: Options, u: Task, a: Attempt, args: seq<Value>)
    requires u.args != args
    ensures About(ExecuteItem(opts, u, a).events, args) == []
  {
    var ev := ExecuteItem(opts, u, a).events;
    if |ev| == 1 {
      assert About(ev, args) == About(ev[1..], args);
    } else if |ev| == 2 {
      assert About(ev, args) == About(ev[1..], args);
      assert About(ev[1..], args) == About(ev[2..], args);
    }
  }

  /** Pushing back after one more outcome. */
  lemma RequeuedSnoc(results: seq<Outcome>, o: Outcome)
    ensures Requeued(results + [o]) == Requeued(results) + (if o.Retry? then [o.task] else [])
  {
    assert (results + [o])[..|results|] == results;
  }

  /** The attempt of a task that resolves, or is rejected and retried, under hooks that do not throw. */
  lemma ItemRetriedOrDone(opts: Options, t: Task, a: Attempt)
    requires (forall p :: opts.onSuccess(p).None?) && (forall x :: opts.onRetry(x).None?)
    requires a.Resolve? || ShouldRetry(opts, a.err)
    ensures ExecuteItem(opts, t, a) ==
      if a.Resolve? then ItemRun(Completed(a.result), [Succeeded(t.args, a.result)])
      else ItemRun(Retry(t), [Retried(t.args)])
  {
  }

  /** One step of a batch: the first task's run, and the state the rest of the batch starts from. */
  lemma BatchStep(opts: Options, behave: Behaviour, batch: seq<Task>, acc: BatchRun) returns (item: ItemRun, next: BatchRun)
    requires |batch| > 0
    ensures item == ExecuteItem(opts, batch[0], behave(batch[0], Times(acc.calls, batch[0])))
    ensures next == BatchRun(acc.results + [item.outcome], acc.events + item.events, acc.calls[batch[0] := Times(acc.calls, batch[0]) + 1])
    ensures item.outcome.Fatal? ==> ExecuteBatch(opts, behave, batch, acc) == next && Aborted(next)
    ensures !item.outcome.Fatal? ==> ExecuteBatch(opts, behave, batch, acc) == ExecuteBatch(opts, behave, batch[1..], next)
  {
    var u := batch[0];
    item := ExecuteItem(opts, u, behave(u, Times(acc.calls, u)));
    next := BatchRun(acc.results + [item.outcome], acc.events + item.events, acc.calls[u := Times(acc.calls, u) + 1]);
  }

  /** A batch that is not aborted invokes `t` once for each time it holds `t`. */
  lemma {:induction false} BatchTimes(opts: Options, behave: Behaviour, t: Task, batch: seq<Task>, acc: BatchRun)
    ensures var r := ExecuteBatch(opts, behave, batch, acc);
      !Aborted(r) ==> Times(r.calls, t) == Times(acc.calls, t) + multiset(batch)[t]
    decreases |batch|
  {
    if |batch| > 0 {
      var u := batch[0];
      var item, next := BatchStep(opts, behave, batch, acc);
      if !item.outcome.Fatal? {
        assert batch == [u] + batch[1..];
        assert multiset(batch)[t] == multiset([u])[t] + multiset(batch[1..])[t];
        assert Times(next.calls, t) == Times(acc.calls, t) + (if u == t then 1 else 0);
        BatchTimes(opts, behave, t, batch[1..], next);
      }
    }
  }

  /** A batch pushes back only tasks it holds. */
  lemma {:induction false} BatchRequeuedFrom(opts: Options, behave: Behaviour, batch: seq<Task>, acc: BatchRun)
    ensures var r := ExecuteBatch(opts, behave, batch, acc);
      forall x :: x in Requeued(r.results) ==> x in Requeued(acc.results) || x in batch
    decreases |batch|
  {
    if |batch| > 0 {
      var item, next := BatchStep(opts, behave, batch, acc);
      RequeuedSnoc(acc.results, item.outcome);
      if !item.outcome.Fatal? {
        assert forall w :: w in batch[1..] ==> w in batch;
        BatchRequeuedFrom(opts, behave, batch[1..], next);
      }
    }
  }

  /** The first task of a batch that holds `t` at most once pushes `t` back exactly when it is `t` and is rejected. */
  lemma RequeuedStepT(opts: Options, behave: Behaviour, t: Task, batch: seq<Task>, acc: BatchRun, item: ItemRun, next: BatchRun)
    requires (forall p :: opts.onSuccess(p).None?) && (forall a :: opts.onRetry(a).None?)
    requires |batch| > 0 && multiset(batch)[t] <= 1
    requires multiset(batch)[t] == 1 ==> var a := behave(t, Times(acc.calls, t)); a.Resolve? || ShouldRetry(opts, a.err)
    requires item == ExecuteItem(opts, batch[0], behave(batch[0], Times(acc.calls, batch[0])))
    requires next == BatchRun(acc.results + [item.outcome], acc.events + item.events, acc.calls[batch[0] := Times(acc.calls, batch[0]) + 1])
    requires !item.outcome.Fatal?
    ensures multiset(batch[1..])[t] <= 1
    ensures multiset(batch[1..])[t] == 1 ==> Times(next.calls, t) == Times(acc.calls, t)
    ensures multiset(Requeued(next.results))[t] +
        (if multiset(batch[1..])[t] == 1 && behave(t, Times(next.calls, t)).Reject? then 1 else 0)
      == multiset(Requeued(acc.results))[t] +
        (if multiset(batch)[t] == 1 && behave(t, Times(acc.calls, t)).Reject? then 1 else 0)
  {
    var u := batch[0];
    var n := Times(acc.calls, u);
    assert batch == [u] + batch[1..];
    assert multiset(batch)[t] == multiset([u])[t] + multiset(batch[1..])[t];
    RequeuedSnoc(acc.results, item.outcome);
    var pushed := if item.outcome.Retry? then [item.outcome.task] else [];
    assert multiset(Requeued(next.results)) == multiset(Requeued(acc.results)) + multiset(pushed);
    if u == t {
      ItemRetriedOrDone(opts, t, behave(t, n));
      assert multiset(pushed)[t] == (if behave(t, n).Reject? then 1 else 0);
      assert multiset(batch[1..])[t] == 0;
    } else {
      assert multiset(pushed)[t] == 0;
      assert Times(next.calls, t) == Times(acc.calls, t);
    }
  }

  /**
   * A batch that holds `t` at most once and is not aborted pushes `t` back
   * exactly when it holds `t` and that attempt of `t` was rejected.
   */
  lemma {:induction false} BatchRequeuedT(opts: Options, behave: Behaviour, t: Task, batch: seq<Task>, acc: BatchRun)
    requires (forall p :: opts.onSuccess(p).None?) && (forall a :: opts.onRetry(a).None?)
    requires multiset(batch)[t] <= 1
    requires multiset(batch)[t] == 1 ==> var a := behave(t, Times(acc.calls, t)); a.Resolve? || ShouldRetry(opts, a.err)
    ensures var r := ExecuteBatch(opts, behave, batch, acc);
      !Aborted(r) ==>
        multiset(Requeued(r.results))[t] == multiset(Requeued(acc.results))[t] +
          (if multiset(batch)[t] == 1 && behave(t, Times(acc.calls, t)).Reject? then 1 else 0)
    decreases |batch|
  {
    if |batch| > 0 {
      var item, next := BatchStep(opts, behave, batch, acc);
      if !item.outcome.Fatal? {
        RequeuedStepT(opts, behave, t, batch, acc, item, next);
        BatchRequeuedT(opts, behave, t, batch[1..], next);
      }
    }
  }

  /**
   * Under hooks that do not throw, running `u` calls the task hooks with
   * `t`'s arguments once if `u` is `t` (the attempt resolving or being
   * retried) and never if `u` has other arguments.
   */
  lemma ItemAboutT(opts: Options, t: Task, u: Task, a: Attempt)
    requires (forall p :: opts.onSuccess(p).None?) && (forall x :: opts.onRetry(x).None?)
    requires u == t ==> a.Resolve? || ShouldRetry(opts, a.err)
    requires u != t ==> u.args != t.args
    ensures About(ExecuteItem(opts, u, a).events, t.args) ==
      if u == t then [if a.Resolve? then Succeeded(t.args, a.result) else Retried(t.args)] else []
  {
    if u == t {
      ItemRetriedOrDone(opts, t, a);
      var e := if a.Resolve? then Succeeded(t.args, a.result) else Retried(t.args);
      assert About([e], t.args) == [e] + About([], t.args);
    } else {
      ItemAboutOther(opts, u, a, t.args);
    }
  }

  /**
   * The events of `t` after the first task of a batch that holds `t` at
   * most once, given what that task's own events say about `t`.
   */
  lemma AboutStepT(behave: Behaviour, t: Task, batch: seq<Task>, acc: BatchRun, events: seq<Event>, next: BatchRun)
    requires |batch| > 0 && multiset(batch)[t] <= 1
    requires var a := behave(t, Times(acc.calls, t));
      About(events, t.args) == if batch[0] == t then [if a.Resolve? then Succeeded(t.args, a.result) else Retried(t.args)] else []
    requires next.events == acc.events + events
    requires next.calls == acc.calls[batch[0] := Times(acc.calls, batch[0]) + 1]
    ensures var a := behave(t, Times(acc.calls, t));
      var a' := behave(t, Times(next.calls, t));
      About(next.events, t.args) +
        (if multiset(batch[1..])[t] == 1 then [if a'.Resolve? then Succeeded(t.args, a'.result) else Retried(t.args)] else [])
      == About(acc.events, t.args) +
        (if multiset(batch)[t] == 1 then [if a.Resolve? then Succeeded(t.args, a.result) else Retried(t.args)] else [])
  {
    var u := batch[0];
    assert batch == [u] + batch[1..];
    assert multiset(batch)[t] == multiset([u])[t] + multiset(batch[1..])[t];
    AboutAppend(acc.events, events, t.args);
    if u == t {
      assert multiset(batch[1..])[t] == 0;
    } else {
      assert Times(next.calls, t) == Times(acc.calls, t);
      assert multiset(batch[1..])[t] == multiset(batch)[t];
    }
  }

  /**
   * The rest of a batch that holds `t` at most once, none of whose other
   * tasks shares `t`'s arguments, is such a batch too, and it finds `t`
   * invoked as often as the whole batch did when it still holds `t`.
   */
  lemma BatchTailT(t: Task, batch: seq<Task>, acc: BatchRun, next: BatchRun)
    requires |batch| > 0 && multiset(batch)[t] <= 1
    requires forall u :: u in batch && u != t ==> u.args != t.args
    requires next.calls == acc.calls[batch[0] := Times(acc.calls, batch[0]) + 1]
    ensures batch[0] == t ==> multiset(batch)[t] == 1 && multiset(batch[1..])[t] == 0
    ensures batch[0] != t ==> batch[0].args != t.args && multiset(batch[1..])[t] == multiset(batch)[t]
    ensures forall u :: u in batch[1..] && u != t ==> u.args != t.args
    ensures batch[0] != t ==> Times(next.calls, t) == Times(acc.calls, t)
  {
    assert batch == [batch[0]] + batch[1..];
    assert multiset(batch)[t] == multiset([batch[0]])[t] + multiset(batch[1..])[t];
    assert forall w :: w in batch[1..] ==> w in batch;
  }

  /**
   * A batch that holds `t` at most once, none of whose other tasks shares
   * `t`'s arguments, and that is not aborted, calls the task hooks with
   * those arguments once if it holds `t` (`onSuccess` when the attempt
   * resolves, `onRetry` when it is retried) and never otherwise.
   */
  lemma {:induction false} BatchAboutT(opts: Options, behave: Behaviour, t: Task, batch: seq<Task>, acc: BatchRun)
    requires (forall p :: opts.onSuccess(p).None?) && (forall a :: opts.onRetry(a).None?)
    requires multiset(batch)[t] <= 1
    requires forall u :: u in batch && u != t ==> u.args != t.args
    requires multiset(batch)[t] == 1 ==> var a := behave(t, Times(acc.calls, t)); a.Resolve? || ShouldRetry(opts, a.err)
    ensures var r := ExecuteBatch(opts, behave, batch, acc);
      var a := behave(t, Times(acc.calls, t));
      !Aborted(r) ==>
        About(r.events, t.args) == About(acc.events, t.args) +
          (if multiset(batch)[t] == 1 then [if a.Resolve? then Succeeded(t.args, a.result) else Retried(t.args)] else [])
    decreases |batch|
  {
    if |batch| > 0 {
      var item, next := BatchStep(opts, behave, batch, acc);
      if !item.outcome.Fatal? {
        BatchTailT(t, batch, acc, next);
        ItemAboutT(opts, t, batch[0], behave(batch[0], Times(acc.calls, batch[0])));
        AboutStepT(behave, t, batch, acc, item.events, next);
        BatchAboutT(opts, behave, t, batch[1..], next);
      }
    }
  }

  /**
   * How far task `t` has come in a run that started from log `log0` after
   * `from` earlier attempts: either it is queued once and its j attempts
   * so far were all retried, or it has left the queue after k retries and
   * one success. No other queued task shares its arguments.
   */
  ghost predicate Tracking(opts: Options, behave: Behaviour, t: Task, from: nat, k: nat, log0: seq<Event>, st: State) {
    && (forall u :: u in st.queue && u != t ==> u.args != t.args)
    && RetriedThenResolves(opts, behave, t, from, k)
    && from <= Times(st.calls, t)
    && if multiset(st.queue)[t] == 1 then
         && Times(st.calls, t) - from <= k
         && About(st.log, t.args) == About(log0, t.args) + Retries(t.args, Times(st.calls, t) - from)
       else
         && multiset(st.queue)[t] == 0
         && Times(st.calls, t) == from + k + 1
         && About(st.log, t.args) == About(log0, t.args) + Retries(t.args, k) + [Succeeded(t.args, behave(t, from + k).result)]
  }

  /** The events of a completed pass that mention `args` are those of its batch. */
  lemma AboutPass(log: seq<Event>, events: seq<Event>, args: seq<Value>)
    ensures About(log + [BatchStarted] + events + [BatchEnded], args) == About(log, args) + About(events, args)
  {
    AboutAppend(log, [BatchStarted], args);
    AboutAppend(log + [BatchStarted], events, args);
    AboutAppend(log + [BatchStarted] + events, [BatchEnded], args);
  }

  /**
   * Splicing off a batch and pushing back some of its tasks: how often `t`
   * is queued before and after, and no task with `t`'s arguments but `t`
   * is queued afterwards if none was before.
   */
  lemma TrackQueue(t: Task, queue: seq<Task>, batch: seq<Task>, rest: seq<Task>, pushed: seq<Task>)
    requires queue == batch + rest
    requires forall x :: x in pushed ==> x in batch
    requires forall u :: u in queue && u != t ==> u.args != t.args
    ensures multiset(queue)[t] == multiset(batch)[t] + multiset(rest)[t]
    ensures multiset(rest + pushed)[t] == multiset(rest)[t] + multiset(pushed)[t]
    ensures forall u :: u in rest + pushed && u != t ==> u.args != t.args
  {
    assert multiset(queue) == multiset(batch) + multiset(rest);
    assert multiset(rest + pushed) == multiset(rest) + multiset(pushed);
    assert forall u :: u in batch ==> u in queue;
    assert forall u :: u in rest ==> u in queue;
  }

  /**
   * What a completed pass did to `t`, as far as tracking `t` needs: the
   * batch was split off the head of the queue, invoked `t` once for each
   * time it held `t`, pushed `t` back when it held `t` and that attempt was
   * rejected, pushed back only its own tasks, and logged with `t`'s
   * arguments exactly the outcome of that attempt.
   */
  ghost predicate BatchEffect(behave: Behaviour, t: Task, st: State, batch: seq<Task>, rest: seq<Task>, b: BatchRun, next: State) {
    var a := behave(t, Times(st.calls, t));
    && st.queue == batch + rest
    && Times(b.calls, t) == Times(st.calls, t) + multiset(batch)[t]
    && multiset(Requeued(b.results))[t] == (if multiset(batch)[t] == 1 && a.Reject? then 1 else 0)
    && (forall x :: x in Requeued(b.results) ==> x in batch)
    && About(b.events, t.args) ==
         (if multiset(batch)[t] == 1 then [if a.Resolve? then Succeeded(t.args, a.result) else Retried(t.args)] else [])
    && next.queue == rest + Requeued(b.results)
    && next.calls == b.calls
    && About(next.log, t.args) == About(st.log, t.args) + About(b.events, t.args)
  }

  /** A pass whose batch does not hold `t` keeps track of `t`. */
  lemma TrackUntouched(opts: Options, behave: Behaviour, t: Task, from: nat, k: nat, log0: seq<Event>, st: State,
                       batch: seq<Task>, rest: seq<Task>, b: BatchRun, next: State)
    requires Tracking(opts, behave, t, from, k, log0, st) && BatchEffect(behave, t, st, batch, rest, b, next)
    requires multiset(batch)[t] == 0
    ensures Tracking(opts, behave, t, from, k, log0, next)
  {
    TrackQueue(t, st.queue, batch, rest, Requeued(b.results));
    assert About(next.log, t.args) == About(st.log, t.args);
    assert multiset(next.queue)[t] == multiset(st.queue)[t];
  }

  /** A pass that retries `t` once more keeps track of `t`. */
  lemma TrackRetried(opts: Options, behave: Behaviour, t: Task, from: nat, k: nat, log0: seq<Event>, st: State,
                     batch: seq<Task>, rest: seq<Task>, b: BatchRun, next: State)
    requires Tracking(opts, behave, t, from, k, log0, st) && BatchEffect(behave, t, st, batch, rest, b, next)
    requires multiset(batch)[t] == 1 && Times(st.calls, t) < from + k
    ensures Tracking(opts, behave, t, from, k, log0, next)
  {
    TrackQueue(t, st.queue, batch, rest, Requeued(b.results));
    var j := Times(st.calls, t) - from;
    assert behave(t, from + j).Reject?;
    assert multiset(next.queue)[t] == 1;
    RetriesSnoc(About(log0, t.args), About(st.log, t.args), About(next.log, t.args), t.args, j);
  }

  /** One more retry after `j` of them. */
  lemma RetriesSnoc(prefix: seq<Event>, before: seq<Event>, after: seq<Event>, args: seq<Value>, j: nat)
    requires before == prefix + Retries(args, j)
    requires after == before + [Retried(args)]
    ensures after == prefix + Retries(args, j + 1)
  {
    assert Retries(args, j + 1) == Retries(args, j) + [Retried(args)];
  }

  /** A pass in which `t`'s last attempt resolves keeps track of `t`. */
  lemma TrackResolved(opts: Options, behave: Behaviour, t: Task, from: nat, k: nat, log0: seq<Event>, st: State,
                      batch: seq<Task>, rest: seq<Task>, b: BatchRun, next: State)
    requires Tracking(opts, behave, t, from, k, log0, st) && BatchEffect(behave, t, st, batch, rest, b, next)
    requires multiset(batch)[t] == 1 && from + k <= Times(st.calls, t)
    ensures Tracking(opts, behave, t, from, k, log0, next)
  {
    TrackQueue(t, st.queue, batch, rest, Requeued(b.results));
    assert Times(st.calls, t) == from + k;
    assert multiset(next.queue)[t] == 0;
    assert About(next.log, t.args) == About(log0, t.args) + Retries(t.args, k) + [Succeeded(t.args, behave(t, from + k).result)];
  }

  /** What a completed pass does to `t`, its invocation count and the hook calls with its arguments. */
  lemma TrackEffect(opts: Options, behave: Behaviour, t: Task, from: nat, k: nat, log0: seq<Event>, st: State,
                    batch: seq<Task>, rest: seq<Task>, b: BatchRun, next: State)
    requires QuietHooks(opts) && Tracking(opts, behave, t, from, k, log0, st)
    requires st.queue == batch + rest
    requires b == ExecuteBatch(opts, behave, batch, BatchRun([], [], st.calls)) && !Aborted(b)
    requires next == State(rest + Requeued(b.results), b.calls, st.log + [BatchStarted] + b.events + [BatchEnded], st.batches + 1)
    ensures BatchEffect(behave, t, st, batch, rest, b, next)
  {
    var acc := BatchRun([], [], st.calls);
    assert multiset(st.queue) == multiset(batch) + multiset(rest);
    assert forall u :: u in batch ==> u in st.queue;
    assert Requeued(acc.results) == [];
    BatchTimes(opts, behave, t, batch, acc);
    BatchRequeuedFrom(opts, behave, batch, acc);
    BatchRequeuedT(opts, behave, t, batch, acc);
    BatchAboutT(opts, behave, t, batch, acc);
    AboutPass(st.log, b.events, t.args);
  }

  /** A pass whose batch is not aborted keeps track of `t`. */
  lemma TrackBatch(opts: Options, behave: Behaviour, t: Task, from: nat, k: nat, log0: seq<Event>, st: State,
                   batch: seq<Task>, rest: seq<Task>, b: BatchRun, next: State)
    requires QuietHooks(opts) && Tracking(opts, behave, t, from, k, log0, st)
    requires st.queue == batch + rest
    requires b == ExecuteBatch(opts, behave, batch, BatchRun([], [], st.calls)) && !Aborted(b)
    requires next == State(rest + Requeued(b.results), b.calls, st.log + [BatchStarted] + b.events + [BatchEnded], st.batches + 1)
    ensures Tracking(opts, behave, t, from, k, log0, next)
  {
    TrackEffect(opts, behave, t, from, k, log0, st, batch, rest, b, next);
    if multiset(batch)[t] == 0 {
      TrackUntouched(opts, behave, t, from, k, log0, st, batch, rest, b, next);
    } else if Times(st.calls, t) < from + k {
      TrackRetried(opts, behave, t, from, k, log0, st, batch, rest, b, next);
    } else {
      TrackResolved(opts, behave, t, from, k, log0, st, batch, rest, b, next);
    }
  }

  /** A completed pass keeps track of `t`. */
  lemma PassTracking(opts: Options, behave: Behaviour, t: Task, from: nat, k: nat, log0: seq<Event>, st: State)
    requires QuietHooks(opts) && Tracking(opts, behave, t, from, k, log0, st)
    requires Iterate(opts, behave, st).Continue?
    ensures Tracking(opts, behave, t, from, k, log0, Iterate(opts, behave, st).next)
  {
    var m := Take(opts.batchSize, |st.queue|);
    var b := BatchOf(opts, behave, st);
    assert !Aborted(b);
    PassCompletes(opts, behave, st);
    assert st.queue == st.queue[..m] + st.queue[m..];
    TrackBatch(opts, behave, t, from, k, log0, st, st.queue[..m], st.queue[m..], b, Iterate(opts, behave, st).next);
  }

  /**
   * Task `t` has made all k + 1 attempts after the `from` earlier ones,
   * and the task hooks called with its arguments since log `log0` are k
   * retries and then one success.
   */
  ghost predicate TrackDone(behave: Behaviour, t: Task, from: nat, k: nat, log0: seq<Event>, st: State) {
    && Times(st.calls, t) == from + k + 1
    && behave(t, from + k).Resolve?
    && About(st.log, t.args) == About(log0, t.args) + Retries(t.args, k) + [Succeeded(t.args, behave(t, from + k).result)]
  }

  /** If the run returned, `t` is done. */
  ghost predicate Finished(behave: Behaviour, t: Task, from: nat, k: nat, log0: seq<Event>, r: Final) {
    r.result.Returned? ==> TrackDone(behave, t, from, k, log0, r.st)
  }

  /**
   * A run that keeps track of `t`, and returns without another pass: the
   * queue is already empty, so `t` has made all k + 1 attempts.
   */
  lemma TrackFinished(opts: Options, behave: Behaviour, t: Task, from: nat, k: nat, log0: seq<Event>, st: State, fuel: nat)
    requires Tracking(opts, behave, t, from, k, log0, st) && (|st.queue| == 0 || fuel == 0)
    ensures Finished(behave, t, from, k, log0, RunFrom(opts, behave, st, fuel))
  {
    assert multiset(st.queue)[t] == 0 || |st.queue| > 0;
  }

  /** A run that keeps track of `t` and makes another pass: the pass keeps track of `t`, and so does the rest of the run. */
  lemma {:induction false} TrackPass(opts: Options, behave: Behaviour, t: Task, from: nat, k: nat, log0: seq<Event>, st: State, fuel: nat)
    requires QuietHooks(opts) && Tracking(opts, behave, t, from, k, log0, st)
    requires |st.queue| > 0 && fuel > 0
    ensures Finished(behave, t, from, k, log0, RunFrom(opts, behave, st, fuel))
    decreases fuel, 0
  {
    var more, next := PassOn(opts, behave, t, from, k, log0, st, fuel);
    if more {
      RunTracking(opts, behave, t, from, k, log0, next, fuel - 1);
    }
  }

  /**
   * One pass of a run that keeps track of `t`: either it ends the run, and
   * the run has finished with `t`, or it leaves a state `next` that keeps
   * track of `t`, and the run has finished with `t` when the rest of the
   * run from `next` has.
   */
  lemma PassOn(opts: Options, behave: Behaviour, t: Task, from: nat, k: nat, log0: seq<Event>, st: State, fuel: nat)
      returns (more: bool, next: State)
    requires QuietHooks(opts) && Tracking(opts, behave, t, from, k, log0, st)
    requires |st.queue| > 0 && fuel > 0
    ensures !more ==> Finished(behave, t, from, k, log0, RunFrom(opts, behave, st, fuel))
    ensures more ==> Tracking(opts, behave, t, from, k, log0, next)
    ensures more && Finished(behave, t, from, k, log0, RunFrom(opts, behave, next, fuel - 1)) ==>
      Finished(behave, t, from, k, log0, RunFrom(opts, behave, st, fuel))
  {
    more := Iterate(opts, behave, st).Continue?;
    next := Iterate(opts, behave, st).next;
    if more {
      PassTracking(opts, behave, t, from, k, log0, st);
    }
    FinishedStep(opts, behave, t, from, k, log0, st, fuel);
  }

  /** A run whose first pass completes has finished with `t` when the rest of the run has. */
  lemma FinishedStep(opts: Options, behave: Behaviour, t: Task, from: nat, k: nat, log0: seq<Event>, st: State, fuel: nat)
    requires |st.queue| > 0 && fuel > 0
    ensures Iterate(opts, behave, st).Abort? ==> Finished(behave, t, from, k, log0, RunFrom(opts, behave, st, fuel))
    ensures Iterate(opts, behave, st).Continue? &&
            Finished(behave, t, from, k, log0, RunFrom(opts, behave, Iterate(opts, behave, st).next, fuel - 1)) ==>
              Finished(behave, t, from, k, log0, RunFrom(opts, behave, st, fuel))
  {
    RunFromUnfold(opts, behave, st, fuel);
  }

  /** A run that keeps track of `t` and returns has made all k + 1 attempts of `t`, with their hook calls. */
  lemma {:induction false} RunTracking(opts: Options, behave: Behaviour, t: Task, from: nat, k: nat, log0: seq<Event>, st: State, fuel: nat)
    requires QuietHooks(opts) && Tracking(opts, behave, t, from, k, log0, st)
    ensures Finished(behave, t, from, k, log0, RunFrom(opts, behave, st, fuel))
    decreases fuel, 1
  {
    if |st.queue| == 0 || fuel == 0 {
      TrackFinished(opts, behave, t, from, k, log0, st, fuel);
    } else {
      TrackPass(opts, behave, t, from, k, log0, st, fuel);
    }
  }

  /**
   * A task queued once among other tasks, none of which shares its
   * arguments, that is rejected k times with errors the retry policy
   * accepts and then resolves: whatever the other tasks do and whatever
   * the batch size, a run that returns `true` called `onRetry` for it
   * exactly k times and then `onSuccess` once, and no other task hook with
   * its arguments.
   */
  lemma RetryAmongOthers(opts: Options, behave: Behaviour, st: State, t: Task, k: nat, fuel: nat)
    requires QuietHooks(opts)
    requires multiset(st.queue)[t] == 1
    requires forall u :: u in st.queue && u != t ==> u.args != t.args
    requires RetriedThenResolves(opts, behave, t, Times(st.calls, t), k)
    ensures var r := RunFrom(opts, behave, st, fuel);
      r.result.Returned? ==>
        var v := behave(t, Times(st.calls, t) + k).result;
        && About(r.st.log, t.args) == About(st.log, t.args) + Retries(t.args, k) + [Succeeded(t.args, v)]
        && Count(r.st.log, Retried(t.args)) == Count(st.log, Retried(t.args)) + k
        && Count(r.st.log, Succeeded(t.args, v)) == Count(st.log, Succeeded(t.args, v)) + 1
        && multiset(Successes(r.st.log))[t.args] == multiset(Successes(st.log))[t.args] + 1
        && Times(r.st.calls, t) == Times(st.calls, t) + k + 1
  {
    var from := Times(st.calls, t);
    TrackingStart(opts, behave, t, k, st);
    RunTracking(opts, behave, t, from, k, st.log, st, fuel);
    FinishedCounts(opts, behave, st, t, k, fuel);
  }

  /** A queue that holds `t` once, none of whose other tasks shares its arguments, keeps track of `t` from the start. */
  lemma TrackingStart(opts: Options, behave: Behaviour, t: Task, k: nat, st: State)
    requires multiset(st.queue)[t] == 1
    requires forall u :: u in st.queue && u != t ==> u.args != t.args
    requires RetriedThenResolves(opts, behave, t, Times(st.calls, t), k)
    ensures Tracking(opts, behave, t, Times(st.calls, t), k, st.log, st)
  {
    assert About(st.log, t.args) + Retries(t.args, 0) == About(st.log, t.args);
  }

  /** What a run that has finished with `t` did with `t`'s arguments, counted. */
  lemma FinishedCounts(opts: Options, behave: Behaviour, st: State, t: Task, k: nat, fuel: nat)
    requires Finished(behave, t, Times(st.calls, t), k, st.log, RunFrom(opts, behave, st, fuel))
    ensures var r := RunFrom(opts, behave, st, fuel);
      r.result.Returned? ==>
        var v := behave(t, Times(st.calls, t) + k).result;
        && About(r.st.log, t.args) == About(st.log, t.args) + Retries(t.args, k) + [Succeeded(t.args, v)]
        && Count(r.st.log, Retried(t.args)) == Count(st.log, Retried(t.args)) + k
        && Count(r.st.log, Succeeded(t.args, v)) == Count(st.log, Succeeded(t.args, v)) + 1
        && multiset(Successes(r.st.log))[t.args] == multiset(Successes(st.log))[t.args] + 1
        && Times(r.st.calls, t) == Times(st.calls, t) + k + 1
  {
    var r := RunFrom(opts, behave, st, fuel);
    if r.result.Returned? {
      var v := behave(t, Times(st.calls, t) + k).result;
      AboutCounts(st.log, r.st.log, t.args, k, v);
      AboutSuccessOnce(st.log, r.st.log, t.args, k, v);
    }
  }

  /**
   * Such a log also holds exactly one more `onSuccess` call with arguments
   * `args` than `log0`, whatever its result.
   */
  lemma AboutSuccessOnce(log0: seq<Event>, log: seq<Event>, args: seq<Value>, k: nat, v: Value)
    requires About(log, args) == About(log0, args) + Retries(args, k) + [Succeeded(args, v)]
    ensures multiset(Successes(log))[args] == multiset(Successes(log0))[args] + 1
  {
    SuccessesAbout(log, args);
    SuccessesAbout(log0, args);
    SuccessesAppend(About(log0, args) + Retries(args, k), [Succeeded(args, v)]);
    SuccessesAppend(About(log0, args), Retries(args, k));
    RetriesNoSuccess(args, k);
    assert Successes([Succeeded(args, v)]) == [args];
  }

  /** Every `onSuccess` call with argument list `args` is among the calls that mention `args`. */
  lemma {:induction false} SuccessesAbout(log: seq<Event>, args: seq<Value>)
    ensures multiset(Successes(log))[args] == multiset(Successes(About(log, args)))[args]
    decreases |log|
  {
    if log != [] {
      var e := log[0];
      var head := if Mentions(e, args) then [e] else [];
      SuccessesAbout(log[1..], args);
      assert log == [e] + log[1..];
      SuccessesAppend([e], log[1..]);
      SuccessesAppend(head, About(log[1..], args));
      assert Successes([e]) == if e.Succeeded? then [e.args] else [];
    }
  }

  /** Retries hold no `onSuccess` call. */
  lemma {:induction false} RetriesNoSuccess(args: seq<Value>, j: nat)
    ensures Successes(Retries(args, j)) == []
    decreases j
  {
    if j > 0 {
      RetriesNoSuccess(args, j - 1);
      SuccessesAppend(Retries(args, j - 1), [Retried(args)]);
    }
  }

  /**
   * A log whose events with arguments `args` are those of `log0` followed
   * by k retries and one success holds k more retries and one more such
   * success than `log0`.
   */
  lemma AboutCounts(log0: seq<Event>, log: seq<Event>, args: seq<Value>, k: nat, v: Value)
    requires About(log, args) == About(log0, args) + Retries(args, k) + [Succeeded(args, v)]
    ensures Count(log, Retried(args)) == Count(log0, Retried(args)) + k
    ensures Count(log, Succeeded(args, v)) == Count(log0, Succeeded(args, v)) + 1
  {
    var tail := Retries(args, k) + [Succeeded(args, v)];
    assert About(log, args) == About(log0, args) + tail;
    forall x | x == Retried(args) || x == Succeeded(args, v)
      ensures Count(log, x) == Count(log0, x) + Count(tail, x)
    {
      CountAbout(log, args, x);
      CountAbout(log0, args, x);
      CountAppend(About(log0, args), tail, x);
    }
    RetriesCount(args, k, Retried(args));
    RetriesCount(args, k, Succeeded(args, v));
    CountAppend(Retries(args, k), [Succeeded(args, v)], Retried(args));
    CountAppend(Retries(args, k), [Succeeded(args, v)], Succeeded(args, v));
  }

  // -------------------------------------------------------------------------
  // Failures nobody handles; batch sizes below one
  // -------------------------------------------------------------------------

  /**
   * With no retry policy and no failure handling (the defaults), the first
   * task of the queue rejecting with `e` makes the run reject with `e`.
   */
  lemma UnhandledFailureRejects(opts: Options, behave: Behaviour, st: State, e: Error, fuel: nat)
    requires !opts.greedyRetry && opts.retryFilters == [] && opts.onFailure.None? && !opts.ignoreFailures
    requires opts.batchSize >= 1 && opts.onBatchStart(st.batches).None?
    requires |st.queue| > 0 && behave(st.queue[0], Times(st.calls, st.queue[0])) == Reject(e)
    requires fuel >= 1
    ensures RunFrom(opts, behave, st, fuel).result == Threw(e)
  {
    var t := st.queue[0];
    var k := Take(opts.batchSize, |st.queue|);
    assert st.queue[..k][0] == t;
    assert ExecuteItem(opts, t, Reject(e)).outcome == Fatal(e);
    var b := ExecuteBatch(opts, behave, st.queue[..k], BatchRun([], [], st.calls));
    assert b.results == [Fatal(e)];
  }

  /** The defaults are such a configuration: without options, a rejected task rejects the run. */
  lemma DefaultsRejectOnFailure(behave: Behaviour, st: State, e: Error, fuel: nat)
    requires |st.queue| > 0 && behave(st.queue[0], Times(st.calls, st.queue[0])) == Reject(e)
    requires fuel >= 1
    ensures RunFrom(Configure(NoOptions), behave, st, fuel).result == Threw(e)
  {
    UnhandledFailureRejects(Configure(NoOptions), behave, st, e, fuel);
  }

  /**
   * `splice(0, n)` with n <= 0 removes nothing, so with such a batch size a
   * non-empty queue never drains: every pass leaves it as it was.
   */
  lemma {:induction false} NonPositiveBatchSizeNeverDrains(opts: Options, behave: Behaviour, st: State, fuel: nat)
    requires opts.batchSize <= 0 && |st.queue| > 0
    requires forall n :: opts.onBatchStart(n).None? && opts.onBatchEnd(n).None?
    ensures RunFrom(opts, behave, st, fuel).result == OutOfFuel
    ensures RunFrom(opts, behave, st, fuel).st.queue == st.queue
    decreases fuel
  {
    if fuel > 0 {
      var next := Iterate(opts, behave, st).next;
      assert ExecuteBatch(opts, behave, st.queue[..0], BatchRun([], [], st.calls)) == BatchRun([], [], st.calls);
      assert Iterate(opts, behave, st) == Continue(next);
      assert next.queue == st.queue;
      NonPositiveBatchSizeNeverDrains(opts, behave, next, fuel - 1);
    }
  }
}
