/**
 * A worked run of the dispatcher: a queue in which one task needs three
 * retries among tasks that always succeed, in batches of two. A retried
 * task goes to the back of the queue and is then the only task of its
 * batch, so the run needs more batches than the queue has pairs.
 */
module DispatcherScenarios {
  import opened Dispatcher
  import opened DispatcherLemmas

  /**
   * A pass whose batch `batch` is the head of the queue, in which no batch
   * hook throws and no task is fatal: the queue loses the batch and gains
   * the retried tasks at its back, the caller's task state is the batch's,
   * and the log gains the batch's hook calls between the two batch markers.
   */
  lemma PassOf(opts: Options, behave: Behaviour, st: State, batch: seq<Task>, rest: seq<Task>, b: BatchRun, fuel: nat)
      returns (next: State)
    requires st.queue == batch + rest && |batch| == Take(opts.batchSize, |st.queue|) && |batch| > 0 && fuel > 0
    requires opts.onBatchStart(st.batches).None? && opts.onBatchEnd(st.batches).None?
    requires b == ExecuteBatch(opts, behave, batch, BatchRun([], [], st.calls)) && !Aborted(b)
    ensures next.queue == rest + Requeued(b.results) && next.calls == b.calls && next.batches == st.batches + 1
    ensures next.log == st.log + ([BatchStarted] + b.events + [BatchEnded])
    ensures RunFrom(opts, behave, st, fuel) == RunFrom(opts, behave, next, fuel - 1)
  {
    assert st.queue[..|batch|] == batch && st.queue[|batch|..] == rest;
    PassCompletes(opts, behave, st);
    next := Iterate(opts, behave, st).next;
    RunFromContinue(opts, behave, st, fuel, next);
  }

  /** A batch `[a, b]`, run after `acc`, in which both tasks resolve. */
  lemma BothResolveBatch(opts: Options, behave: Behaviour, a: Task, va: Value, b: Task, vb: Value, acc: BatchRun)
      returns (r: BatchRun)
    requires QuietHooks(opts) && behave(a, Times(acc.calls, a)) == Resolve(va)
    requires behave(b, Times(acc.calls[a := Times(acc.calls, a) + 1], b)) == Resolve(vb)
    ensures r == ExecuteBatch(opts, behave, [a, b], acc)
    ensures r.results == acc.results + [Completed(va), Completed(vb)]
    ensures r.events == acc.events + [Succeeded(a.args, va), Succeeded(b.args, vb)]
    ensures forall u :: Times(r.calls, u) == Times(acc.calls, u) + (if u == a then 1 else 0) + (if u == b then 1 else 0)
  {
    SuccessRule(opts, a, va);
    SuccessRule(opts, b, vb);
    var item, mid := BatchStep(opts, behave, [a, b], acc);
    assert [a, b][1..] == [b];
    var item2, last := BatchStep(opts, behave, [b], mid);
    assert [b][1..] == [];
    r := last;
  }

  /**
   * A batch `[a, b]`, run after `acc`, in which `a` resolves and `b` is
   * rejected with an error the retry policy accepts.
   */
  lemma ResolveRetryBatch(opts: Options, behave: Behaviour, a: Task, va: Value, b: Task, e: Error, acc: BatchRun)
      returns (r: BatchRun)
    requires QuietHooks(opts) && behave(a, Times(acc.calls, a)) == Resolve(va)
    requires behave(b, Times(acc.calls[a := Times(acc.calls, a) + 1], b)) == Reject(e) && ShouldRetry(opts, e)
    ensures r == ExecuteBatch(opts, behave, [a, b], acc)
    ensures r.results == acc.results + [Completed(va), Retry(b)]
    ensures r.events == acc.events + [Succeeded(a.args, va), Retried(b.args)]
    ensures forall u :: Times(r.calls, u) == Times(acc.calls, u) + (if u == a then 1 else 0) + (if u == b then 1 else 0)
  {
    SuccessRule(opts, a, va);
    RetryRule(opts, b, Reject(e), e);
    var item, mid := BatchStep(opts, behave, [a, b], acc);
    assert [a, b][1..] == [b];
    var item2, last := BatchStep(opts, behave, [b], mid);
    assert [b][1..] == [];
    r := last;
  }

  /** The batch `[t]`, run after `acc`, when running `t` ends with outcome `o` and hook calls `es`. */
  lemma AloneBatch(opts: Options, behave: Behaviour, t: Task, acc: BatchRun, o: Outcome, es: seq<Event>)
      returns (r: BatchRun)
    requires ExecuteItem(opts, t, behave(t, Times(acc.calls, t))) == ItemRun(o, es) && !o.Fatal?
    ensures r == ExecuteBatch(opts, behave, [t], acc)
    ensures r.results == acc.results + [o] && r.events == acc.events + es
    ensures forall u :: Times(r.calls, u) == Times(acc.calls, u) + (if u == t then 1 else 0)
  {
    var item;
    item, r := BatchStep(opts, behave, [t], acc);
    assert [t][1..] == [];
  }

  /** A pass over `[a, b] + rest` in which both tasks resolve and no hook throws. */
  lemma BothResolve(opts: Options, behave: Behaviour, st: State, a: Task, va: Value, b: Task, vb: Value,
                    rest: seq<Task>, fuel: nat) returns (next: State)
    requires opts.batchSize == 2 && QuietHooks(opts) && st.queue == [a, b] + rest && fuel > 0
    requires behave(a, Times(st.calls, a)) == Resolve(va)
    requires behave(b, Times(st.calls[a := Times(st.calls, a) + 1], b)) == Resolve(vb)
    ensures next.queue == rest && next.batches == st.batches + 1
    ensures next.log == st.log + [BatchStarted, Succeeded(a.args, va), Succeeded(b.args, vb), BatchEnded]
    ensures forall u :: Times(next.calls, u) == Times(st.calls, u) + (if u == a then 1 else 0) + (if u == b then 1 else 0)
    ensures RunFrom(opts, behave, st, fuel) == RunFrom(opts, behave, next, fuel - 1)
  {
    var r := BothResolveBatch(opts, behave, a, va, b, vb, BatchRun([], [], st.calls));
    assert r.results == [Completed(va), Completed(vb)];
    assert Requeued(r.results) == [];
    assert r.events == [Succeeded(a.args, va), Succeeded(b.args, vb)];
    next := PassOf(opts, behave, st, [a, b], rest, r, fuel);
    assert rest + [] == rest;
  }

  /**
   * A pass over `[a, b] + rest` in which `a` resolves, `b` is rejected with
   * an error the retry policy accepts, and no hook throws: `b` goes to the
   * back of the queue.
   */
  lemma ResolveThenRetry(opts: Options, behave: Behaviour, st: State, a: Task, va: Value, b: Task, e: Error,
                         rest: seq<Task>, fuel: nat) returns (next: State)
    requires opts.batchSize == 2 && QuietHooks(opts) && st.queue == [a, b] + rest && fuel > 0
    requires behave(a, Times(st.calls, a)) == Resolve(va)
    requires behave(b, Times(st.calls[a := Times(st.calls, a) + 1], b)) == Reject(e) && ShouldRetry(opts, e)
    ensures next.queue == rest + [b] && next.batches == st.batches + 1
    ensures next.log == st.log + [BatchStarted, Succeeded(a.args, va), Retried(b.args), BatchEnded]
    ensures forall u :: Times(next.calls, u) == Times(st.calls, u) + (if u == a then 1 else 0) + (if u == b then 1 else 0)
    ensures RunFrom(opts, behave, st, fuel) == RunFrom(opts, behave, next, fuel - 1)
  {
    var r := ResolveRetryBatch(opts, behave, a, va, b, e, BatchRun([], [], st.calls));
    assert r.results == [Completed(va), Retry(b)];
    assert Requeued(r.results) == [b];
    assert r.events == [Succeeded(a.args, va), Retried(b.args)];
    next := PassOf(opts, behave, st, [a, b], rest, r, fuel);
  }

  /** A pass over `[t]` in which `t` is rejected with an error the retry policy accepts: `[t]` again. */
  lemma RetryAgain(opts: Options, behave: Behaviour, st: State, t: Task, e: Error, fuel: nat) returns (next: State)
    requires opts.batchSize >= 1 && QuietHooks(opts) && st.queue == [t] && fuel > 0
    requires behave(t, Times(st.calls, t)) == Reject(e) && ShouldRetry(opts, e)
    ensures next.queue == [t] && next.batches == st.batches + 1
    ensures next.log == st.log + [BatchStarted, Retried(t.args), BatchEnded]
    ensures forall u :: Times(next.calls, u) == Times(st.calls, u) + (if u == t then 1 else 0)
    ensures RunFrom(opts, behave, st, fuel) == RunFrom(opts, behave, next, fuel - 1)
  {
    RetryRule(opts, t, Reject(e), e);
    var r := AloneBatch(opts, behave, t, BatchRun([], [], st.calls), Retry(t), [Retried(t.args)]);
    assert r.results == [Retry(t)];
    assert Requeued(r.results) == [t];
    assert r.events == [Retried(t.args)];
    next := PassOf(opts, behave, st, [t], [], r, fuel);
    assert [] + [t] == [t];
    assert [BatchStarted] + r.events + [BatchEnded] == [BatchStarted, Retried(t.args), BatchEnded];
    assert next.queue == [t];
    assert next.log == st.log + [BatchStarted, Retried(t.args), BatchEnded];
    assert forall u :: Times(next.calls, u) == Times(st.calls, u) + (if u == t then 1 else 0);
  }

  /** A pass over `[t]` in which `t` resolves: the run returns `true` with an empty queue. */
  lemma ResolveLast(opts: Options, behave: Behaviour, st: State, t: Task, v: Value, fuel: nat) returns (next: State)
    requires opts.batchSize >= 1 && QuietHooks(opts) && st.queue == [t] && fuel > 0
    requires behave(t, Times(st.calls, t)) == Resolve(v)
    ensures next.queue == [] && next.batches == st.batches + 1
    ensures next.log == st.log + [BatchStarted, Succeeded(t.args, v), BatchEnded]
    ensures forall u :: Times(next.calls, u) == Times(st.calls, u) + (if u == t then 1 else 0)
    ensures RunFrom(opts, behave, st, fuel) == Final(Returned(true), next)
  {
    SuccessRule(opts, t, v);
    var r := AloneBatch(opts, behave, t, BatchRun([], [], st.calls), Completed(v), [Succeeded(t.args, v)]);
    assert r.results == [Completed(v)];
    assert Requeued(r.results) == [];
    assert r.events == [Succeeded(t.args, v)];
    next := PassOf(opts, behave, st, [t], [], r, fuel);
    assert [] + Requeued(r.results) == [];
    assert [BatchStarted] + r.events + [BatchEnded] == [BatchStarted, Succeeded(t.args, v), BatchEnded];
  }

  /**
   * The first three batches of the six-batch run below: `[s, s]`,
   * `[s, r]`, `[s, s]`, after which only the retried `r` is queued.
   */
  lemma PairedPasses(opts: Options, behave: Behaviour, s: Task, r: Task, vs: Value, e: Error,
                     calls: map<Task, nat>, fuel: nat) returns (st: State)
    requires opts.batchSize == 2 && QuietHooks(opts) && ShouldRetry(opts, e)
    requires s != r
    requires forall n :: behave(s, n) == Resolve(vs)
    requires Times(calls, r) == 0 && behave(r, 0) == Reject(e) && fuel >= 3
    ensures st.queue == [r] && st.batches == 3
    ensures st.log == [BatchStarted, Succeeded(s.args, vs), Succeeded(s.args, vs), BatchEnded]
                    + [BatchStarted, Succeeded(s.args, vs), Retried(r.args), BatchEnded]
                    + [BatchStarted, Succeeded(s.args, vs), Succeeded(s.args, vs), BatchEnded]
    ensures Times(st.calls, s) == Times(calls, s) + 5 && Times(st.calls, r) == 1
    ensures RunFrom(opts, behave, State([s, s, s, r, s, s], calls, [], 0), fuel) == RunFrom(opts, behave, st, fuel - 3)
  {
    var s0 := State([s, s, s, r, s, s], calls, [], 0);
    var s1 := BothResolve(opts, behave, s0, s, vs, s, vs, [s, r, s, s], fuel);
    assert s1.log == [BatchStarted, Succeeded(s.args, vs), Succeeded(s.args, vs), BatchEnded];
    assert Times(s1.calls, r) == 0;
    var s2 := ResolveThenRetry(opts, behave, s1, s, vs, r, e, [s, s], fuel - 1);
    assert Times(s2.calls, s) == Times(calls, s) + 3;
    st := BothResolve(opts, behave, s2, s, vs, s, vs, [r], fuel - 2);
  }

  /**
   * The last three batches of the six-batch run below: `r` alone, rejected
   * twice more with an error the retry policy accepts, then resolving.
   */
  lemma LonePasses(opts: Options, behave: Behaviour, st: State, r: Task, vr: Value, e: Error, fuel: nat)
      returns (last: State)
    requires opts.batchSize >= 1 && QuietHooks(opts) && ShouldRetry(opts, e)
    requires st.queue == [r] && fuel >= 3
    requires behave(r, Times(st.calls, r)) == Reject(e) && behave(r, Times(st.calls, r) + 1) == Reject(e)
    requires behave(r, Times(st.calls, r) + 2) == Resolve(vr)
    ensures last.queue == [] && last.batches == st.batches + 3
    ensures last.log == st.log + [BatchStarted, Retried(r.args), BatchEnded] + [BatchStarted, Retried(r.args), BatchEnded]
                              + [BatchStarted, Succeeded(r.args, vr), BatchEnded]
    ensures Times(last.calls, r) == Times(st.calls, r) + 3
    ensures forall u :: u != r ==> Times(last.calls, u) == Times(st.calls, u)
    ensures RunFrom(opts, behave, st, fuel) == Final(Returned(true), last)
  {
    var s4 := RetryAgain(opts, behave, st, r, e, fuel);
    var s5 := RetryAgain(opts, behave, s4, r, e, fuel - 1);
    last := ResolveLast(opts, behave, s5, r, vr, fuel - 2);
  }

  /**
   * Tasks `[s, s, s, r, s, s]` in batches of two, where `s` always
   * resolves with `vs` and `r` is rejected three times with an error the
   * retry policy accepts and then resolves with `vr`. The batches are
   * `[s, s]`, `[s, r]`, `[s, s]`, `[r]`, `[r]`, `[r]`: the run returns
   * `true` after six batches, with six successes, three retries and no
   * failure, `s` invoked five times and `r` four times.
   */
  lemma SixBatches(opts: Options, behave: Behaviour, s: Task, r: Task, vs: Value, vr: Value, e: Error,
                   calls: map<Task, nat>, fuel: nat)
    requires opts.batchSize == 2 && QuietHooks(opts) && ShouldRetry(opts, e)
    requires s != r
    requires forall n :: behave(s, n) == Resolve(vs)
    requires forall n :: behave(r, n) == if n < 3 then Reject(e) else Resolve(vr)
    requires Times(calls, r) == 0 && fuel >= 6
    ensures var f := RunFrom(opts, behave, State([s, s, s, r, s, s], calls, [], 0), fuel);
      && f.result == Returned(true)
      && f.st.batches == 6
      && f.st.log == [BatchStarted, Succeeded(s.args, vs), Succeeded(s.args, vs), BatchEnded]
                   + [BatchStarted, Succeeded(s.args, vs), Retried(r.args), BatchEnded]
                   + [BatchStarted, Succeeded(s.args, vs), Succeeded(s.args, vs), BatchEnded]
                   + [BatchStarted, Retried(r.args), BatchEnded]
                   + [BatchStarted, Retried(r.args), BatchEnded]
                   + [BatchStarted, Succeeded(r.args, vr), BatchEnded]
      && Times(f.st.calls, s) == Times(calls, s) + 5
      && Times(f.st.calls, r) == 4
  {
    var s3 := PairedPasses(opts, behave, s, r, vs, e, calls, fuel);
    var s6 := LonePasses(opts, behave, s3, r, vr, e, fuel - 3);
  }
}
