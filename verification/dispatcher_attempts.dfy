/**
 * How often a retried task is invoked, whatever else is queued. Other tasks
 * may share its argument list (the package's own tests queue several
 * retrying tasks with equal arguments): the invocation count is kept per
 * task, so only the task's own attempts matter.
 */
module DispatcherAttempts {
  import opened Dispatcher
  import opened DispatcherLemmas

  /**
   * `t` has made at most k attempts after the `from` earlier ones and is
   * queued once, or it has made all k + 1 and is no longer queued.
   */
  ghost predicate Attempting(opts: Options, behave: Behaviour, t: Task, from: nat, k: nat, st: State) {
    && RetriedThenResolves(opts, behave, t, from, k)
    && from <= Times(st.calls, t)
    && if multiset(st.queue)[t] == 1 then
         Times(st.calls, t) - from <= k
       else
         multiset(st.queue)[t] == 0 && Times(st.calls, t) == from + k + 1
  }

  /**
   * A batch split off the head of the queue that is not aborted keeps
   * `Attempting`: it invokes `t` once if it holds `t`, and pushes `t` back
   * exactly when that attempt is rejected.
   */
  lemma AttemptsBatch(opts: Options, behave: Behaviour, t: Task, from: nat, k: nat, st: State,
                      batch: seq<Task>, rest: seq<Task>, b: BatchRun, next: State)
    requires QuietHooks(opts) && Attempting(opts, behave, t, from, k, st)
    requires st.queue == batch + rest
    requires b == ExecuteBatch(opts, behave, batch, BatchRun([], [], st.calls)) && !Aborted(b)
    requires next.queue == rest + Requeued(b.results) && next.calls == b.calls
    ensures Attempting(opts, behave, t, from, k, next)
  {
    var acc := BatchRun([], [], st.calls);
    assert multiset(st.queue) == multiset(batch) + multiset(rest);
    assert multiset(next.queue) == multiset(rest) + multiset(Requeued(b.results));
    assert Requeued(acc.results) == [];
    BatchTimes(opts, behave, t, batch, acc);
    BatchRequeuedT(opts, behave, t, batch, acc);
  }

  /** A completed pass keeps `Attempting`. */
  lemma AttemptsPass(opts: Options, behave: Behaviour, t: Task, from: nat, k: nat, st: State)
    requires QuietHooks(opts) && Attempting(opts, behave, t, from, k, st)
    requires Iterate(opts, behave, st).Continue?
    ensures Attempting(opts, behave, t, from, k, Iterate(opts, behave, st).next)
  {
    var m := Take(opts.batchSize, |st.queue|);
    var b := BatchOf(opts, behave, st);
    assert !Aborted(b);
    PassCompletes(opts, behave, st);
    assert st.queue == st.queue[..m] + st.queue[m..];
    AttemptsBatch(opts, behave, t, from, k, st, st.queue[..m], st.queue[m..], b, Iterate(opts, behave, st).next);
  }

  /** If the run returned, `t` has made all k + 1 attempts. */
  ghost predicate AttemptsDone(t: Task, from: nat, k: nat, r: Final) {
    r.result.Returned? ==> Times(r.st.calls, t) == from + k + 1
  }

  /** A run that stops without another pass: if it returned, the queue is empty, so `t` is done. */
  lemma AttemptsFinished(opts: Options, behave: Behaviour, t: Task, from: nat, k: nat, st: State, fuel: nat)
    requires Attempting(opts, behave, t, from, k, st) && (|st.queue| == 0 || fuel == 0)
    ensures AttemptsDone(t, from, k, RunFrom(opts, behave, st, fuel))
  {
    assert multiset(st.queue)[t] == 0 || |st.queue| > 0;
  }

  /**
   * One pass of a run that keeps `Attempting`: either it ends the run, and
   * `t` is done if the run returned, or it leaves a state `next` that keeps
   * `Attempting`, and `t` is done when it is done in the rest of the run.
   */
  lemma AttemptsOn(opts: Options, behave: Behaviour, t: Task, from: nat, k: nat, st: State, fuel: nat)
      returns (more: bool, next: State)
    requires QuietHooks(opts) && Attempting(opts, behave, t, from, k, st)
    requires |st.queue| > 0 && fuel > 0
    ensures !more ==> AttemptsDone(t, from, k, RunFrom(opts, behave, st, fuel))
    ensures more ==> Attempting(opts, behave, t, from, k, next)
    ensures more && AttemptsDone(t, from, k, RunFrom(opts, behave, next, fuel - 1)) ==>
      AttemptsDone(t, from, k, RunFrom(opts, behave, st, fuel))
  {
    more := Iterate(opts, behave, st).Continue?;
    next := Iterate(opts, behave, st).next;
    if more {
      AttemptsPass(opts, behave, t, from, k, st);
    }
    RunFromUnfold(opts, behave, st, fuel);
  }

  /** A run that keeps `Attempting` and makes another pass. */
  lemma {:induction false} AttemptsNext(opts: Options, behave: Behaviour, t: Task, from: nat, k: nat, st: State, fuel: nat)
    requires QuietHooks(opts) && Attempting(opts, behave, t, from, k, st)
    requires |st.queue| > 0 && fuel > 0
    ensures AttemptsDone(t, from, k, RunFrom(opts, behave, st, fuel))
    decreases fuel, 0
  {
    var more, next := AttemptsOn(opts, behave, t, from, k, st, fuel);
    if more {
      AttemptsRun(opts, behave, t, from, k, next, fuel - 1);
    }
  }

  /** A run that keeps `Attempting` and returns has made all k + 1 attempts of `t`. */
  lemma {:induction false} AttemptsRun(opts: Options, behave: Behaviour, t: Task, from: nat, k: nat, st: State, fuel: nat)
    requires QuietHooks(opts) && Attempting(opts, behave, t, from, k, st)
    ensures AttemptsDone(t, from, k, RunFrom(opts, behave, st, fuel))
    decreases fuel, 1
  {
    if |st.queue| == 0 || fuel == 0 {
      AttemptsFinished(opts, behave, t, from, k, st, fuel);
    } else {
      AttemptsNext(opts, behave, t, from, k, st, fuel);
    }
  }

  /**
   * A task queued once, among any other tasks (some may have the same
   * arguments), that is rejected k times with errors the retry policy
   * accepts and then resolves: a run that returns `true` invoked it
   * exactly k + 1 times, whatever the batch size and whatever the other
   * tasks do.
   */
  lemma RetryInvocations(opts: Options, behave: Behaviour, st: State, t: Task, k: nat, fuel: nat)
    requires QuietHooks(opts)
    requires multiset(st.queue)[t] == 1
    requires RetriedThenResolves(opts, behave, t, Times(st.calls, t), k)
    ensures var r := RunFrom(opts, behave, st, fuel);
      r.result.Returned? ==> Times(r.st.calls, t) == Times(st.calls, t) + k + 1
  {
    AttemptsRun(opts, behave, t, Times(st.calls, t), k, st, fuel);
  }
}
