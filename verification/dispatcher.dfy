/**
 * The batched retry dispatcher of `batch-promises-with-delay`.
 *
 * The caller hands over an array of tasks (a function plus its argument
 * list) and options. The dispatcher repeatedly takes up to `batchSize`
 * tasks from the front of the array, runs them, puts the tasks whose error
 * matches the retry policy back at the end of the array, and calls the
 * batch hooks, until the array is empty or a failure nobody handles ends
 * the run.
 *
 * Caller code is abstract here: what a task function does on its n-th
 * invocation is a `Behaviour`, and each hook is a function that says
 * whether the hook throws. Every hook invocation is recorded as an `Event`.
 * A batch runs its tasks one after another, in batch order.
 */
module Dispatcher {

  datatype Option<T> = None | Some(value: T)

  /** A JavaScript value as the dispatcher sees it: passed along, never inspected. */
  datatype Value = Undefined | Text(text: string)

  /** An error thrown or rejected by a task function or by a hook. */
  datatype Error = Error(message: string)

  /** The identity of a task function (caller code). */
  type FuncId = nat

  /** A queued task `{func, args}`; a retried task is this same value again. */
  datatype Task = Task(func: FuncId, args: seq<Value>)

  /** What one invocation of a task function does: resolve with a value or reject with an error. */
  datatype Attempt = Resolve(result: Value) | Reject(err: Error)

  /**
   * Caller code: the outcome of the n-th invocation (counting from 0) of a
   * task value. A task function that fails k times and then succeeds is
   * `(t, n) => if n < k then Reject(e) else Resolve(v)`.
   */
  type Behaviour = (Task, nat) -> Attempt

  /** A hook that may throw: `None` when it returns normally, `Some(e)` when it throws `e`. */
  type Hook<!A> = A -> Option<Error>

  /** The options after defaults are applied. */
  datatype Options = Options(
    batchSize: int,
    delayBetweenBatches: int,
    retryFilters: seq<Error -> bool>,
    greedyRetry: bool,
    ignoreFailures: bool,
    onSuccess: Hook<(seq<Value>, Value)>,
    onFailure: Option<Hook<(seq<Value>, Error)>>,
    onRetry: Hook<seq<Value>>,
    /** Both batch hooks are told how many batches were started before this one. */
    onBatchStart: Hook<nat>,
    onBatchEnd: Hook<nat>)

  /** The options object as the caller writes it; `None` is a property left out. */
  datatype UserOptions = UserOptions(
    batchSize: Option<int>,
    delayBetweenBatches: Option<int>,
    retryFilters: Option<seq<Error -> bool>>,
    greedyRetry: Option<bool>,
    ignoreFailures: Option<bool>,
    onSuccess: Option<Hook<(seq<Value>, Value)>>,
    onFailure: Option<Hook<(seq<Value>, Error)>>,
    onRetry: Option<Hook<seq<Value>>>,
    onBatchStart: Option<Hook<nat>>,
    onBatchEnd: Option<Hook<nat>>)

  /** No options at all (`options` undefined, so `options || {}` is `{}`). */
  const NoOptions := UserOptions(None, None, None, None, None, None, None, None, None, None)

  function Or<T>(o: Option<T>, default: T): T {
    match o
    case Some(v) => v
    case None => default
  }

  /** The destructuring with defaults at the top of the run function. */
  function Configure(u: UserOptions): (o: Options)
    ensures o.batchSize == (if u.batchSize.Some? then u.batchSize.value else 1)
    ensures o.delayBetweenBatches == (if u.delayBetweenBatches.Some? then u.delayBetweenBatches.value else 1)
    ensures o.retryFilters == (if u.retryFilters.Some? then u.retryFilters.value else [])
    ensures o.greedyRetry <==> u.greedyRetry == Some(true)
    ensures o.ignoreFailures <==> u.ignoreFailures == Some(true)
    ensures o.onFailure == u.onFailure
    ensures u.onSuccess.Some? ==> o.onSuccess == u.onSuccess.value
    ensures u.onSuccess.None? ==> forall a, v :: o.onSuccess((a, v)).None?
    ensures u.onRetry.Some? ==> o.onRetry == u.onRetry.value
    ensures u.onRetry.None? ==> forall a :: o.onRetry(a).None?
    ensures u.onBatchStart.Some? ==> o.onBatchStart == u.onBatchStart.value
    ensures u.onBatchStart.None? ==> forall n :: o.onBatchStart(n).None?
    ensures u.onBatchEnd.Some? ==> o.onBatchEnd == u.onBatchEnd.value
    ensures u.onBatchEnd.None? ==> forall n :: o.onBatchEnd(n).None?
  {
    Options(
      Or(u.batchSize, 1),
      Or(u.delayBetweenBatches, 1),
      Or(u.retryFilters, []),
      Or(u.greedyRetry, false),
      Or(u.ignoreFailures, false),
      Or(u.onSuccess, _ => None),
      u.onFailure,
      Or(u.onRetry, _ => None),
      Or(u.onBatchStart, _ => None),
      Or(u.onBatchEnd, _ => None))
  }

  /** A hook invocation, in the order the hooks were called. */
  datatype Event =
    | BatchStarted
    | Succeeded(args: seq<Value>, result: Value)
    | Retried(args: seq<Value>)
    | Failed(args: seq<Value>, err: Error)
    | BatchEnded

  /** How one task of a batch ended. */
  datatype Outcome =
    | Completed(result: Value)   // resolved, and onSuccess returned
    | Retry(task: Task)          // to be appended to the back of the queue
    | Suppressed                 // a failure handed to onFailure, or ignored
    | Fatal(err: Error)          // ends the whole run with this error

  datatype ItemRun = ItemRun(outcome: Outcome, events: seq<Event>)

  // -------------------------------------------------------------------------
  // One task: executeSingleItem
  // -------------------------------------------------------------------------

  /** Does some filter of `retryFilters` accept the error? The first one that does ends the search. */
  function AnyFilterMatches(filters: seq<Error -> bool>, err: Error): bool
    decreases |filters|
  {
    if filters == [] then false
    else filters[0](err) || AnyFilterMatches(filters[1..], err)
  }

  lemma {:induction false} AnyFilterMatchesIff(filters: seq<Error -> bool>, err: Error)
    ensures AnyFilterMatches(filters, err) <==> exists i :: 0 <= i < |filters| && filters[i](err)
    decreases |filters|
  {
    if filters != [] {
      AnyFilterMatchesIff(filters[1..], err);
      assert forall i :: 1 <= i < |filters| ==> filters[i] == filters[1..][i - 1];
    }
  }

  /** The `for` loop over `retryFilters` with its `break`. */
  method ScanFilters(filters: seq<Error -> bool>, err: Error) returns (shouldRetry: bool)
    ensures shouldRetry == AnyFilterMatches(filters, err)
    ensures shouldRetry <==> exists i :: 0 <= i < |filters| && filters[i](err)
  {
    AnyFilterMatchesIff(filters, err);
    shouldRetry := false;
    var i := 0;
    while i < |filters|
      invariant 0 <= i <= |filters|
      invariant !shouldRetry
      invariant AnyFilterMatches(filters, err) == AnyFilterMatches(filters[i..], err)
    {
      if filters[i](err) {
        shouldRetry := true;
        break;
      }
      assert filters[i..][1..] == filters[i + 1..];
      i := i + 1;
    }
  }

  /** A failed task is retried iff `greedyRetry` is set or some retry filter accepts its error. */
  predicate ShouldRetry(opts: Options, err: Error) {
    opts.greedyRetry || AnyFilterMatches(opts.retryFilters, err)
  }

  /**
   * The error that reaches the `catch` block: the task's rejection, or the
   * error thrown by `onSuccess` after the task resolved. `None` when the
   * `try` block completes.
   */
  function Caught(opts: Options, task: Task, attempt: Attempt): Option<Error> {
    match attempt
    case Reject(e) => Some(e)
    case Resolve(v) => opts.onSuccess((task.args, v))
  }

  /** `executeSingleItem`: run one task, call its hooks and classify the result. */
  function ExecuteItem(opts: Options, task: Task, attempt: Attempt): (r: ItemRun)
    ensures r.outcome.Completed? <==> Caught(opts, task, attempt).None?
    ensures r.outcome.Completed? ==> attempt.Resolve? && r.outcome.result == attempt.result
    ensures r.outcome.Retry? ==> r.outcome.task == task
    ensures r.outcome.Retry? || r.outcome.Fatal? ==> Caught(opts, task, attempt).Some?
    ensures attempt.Resolve? ==> |r.events| > 0 && r.events[0] == Succeeded(task.args, attempt.result)
    ensures |r.events| <= 2
  {
    var success := if attempt.Resolve? then [Succeeded(task.args, attempt.result)] else [];
    match Caught(opts, task, attempt)
    case None => ItemRun(Completed(attempt.result), success)
    case Some(e) =>
      if ShouldRetry(opts, e) then
        var events := success + [Retried(task.args)];
        match opts.onRetry(task.args)
        case None => ItemRun(Retry(task), events)
        case Some(h) => ItemRun(Fatal(h), events)
      else if opts.onFailure.Some? then
        var events := success + [Failed(task.args, e)];
        match opts.onFailure.value((task.args, e))
        case None => ItemRun(Suppressed, events)
        case Some(h) => ItemRun(Fatal(h), events)
      else if opts.ignoreFailures then
        ItemRun(Suppressed, success)
      else
        ItemRun(Fatal(e), success)
  }

  // -------------------------------------------------------------------------
  // One batch, run in order
  // -------------------------------------------------------------------------

  /** How often each task value has been invoked so far (the caller's own state). */
  function Times(calls: map<Task, nat>, t: Task): nat {
    if t in calls then calls[t] else 0
  }

  datatype BatchRun = BatchRun(results: seq<Outcome>, events: seq<Event>, calls: map<Task, nat>)

  predicate Aborted(b: BatchRun) {
    |b.results| > 0 && b.results[|b.results| - 1].Fatal?
  }

  predicate NoFatal(results: seq<Outcome>) {
    forall i :: 0 <= i < |results| ==> !results[i].Fatal?
  }

  /**
   * Run the tasks of `batch` in order after the ones already in `acc`,
   * stopping at the first fatal outcome.
   */
  function ExecuteBatch(opts: Options, behave: Behaviour, batch: seq<Task>, acc: BatchRun): (r: BatchRun)
    ensures |acc.results| <= |r.results| <= |acc.results| + |batch|
    decreases |batch|
  {
    if batch == [] then acc
    else
      var t := batch[0];
      var n := Times(acc.calls, t);
      var item := ExecuteItem(opts, t, behave(t, n));
      var next := BatchRun(acc.results + [item.outcome], acc.events + item.events, acc.calls[t := n + 1]);
      if item.outcome.Fatal? then next
      else ExecuteBatch(opts, behave, batch[1..], next)
  }

  /**
   * A batch extends the outcomes it started from, one outcome per task in
   * batch order, a retried outcome carrying its own task; it stops at the
   * first fatal outcome, and runs the whole batch when there is none.
   */
  lemma {:induction false} ExecuteBatchShape(opts: Options, behave: Behaviour, batch: seq<Task>, acc: BatchRun)
    requires NoFatal(acc.results)
    ensures var r := ExecuteBatch(opts, behave, batch, acc);
      && r.results[..|acc.results|] == acc.results
      && (forall i :: |acc.results| <= i < |r.results| && r.results[i].Retry? ==>
            r.results[i].task == batch[i - |acc.results|])
      && (forall i :: 0 <= i < |r.results| - 1 ==> !r.results[i].Fatal?)
      && (!Aborted(r) ==> |r.results| == |acc.results| + |batch|)
    decreases |batch|
  {
    if batch != [] {
      var t := batch[0];
      var n := Times(acc.calls, t);
      var item := ExecuteItem(opts, t, behave(t, n));
      var next := BatchRun(acc.results + [item.outcome], acc.events + item.events, acc.calls[t := n + 1]);
      if !item.outcome.Fatal? {
        ExecuteBatchShape(opts, behave, batch[1..], next);
        var r := ExecuteBatch(opts, behave, batch[1..], next);
        assert r.results[..|acc.results|] == r.results[..|next.results|][..|acc.results|];
      }
    }
  }

  /** The tasks to re-queue, in batch order (the `forEach` over the results). */
  function Requeued(results: seq<Outcome>): (tasks: seq<Task>)
    ensures |tasks| <= |results|
    decreases |results|
  {
    if results == [] then []
    else
      var last := results[|results| - 1];
      Requeued(results[..|results| - 1]) + (if last.Retry? then [last.task] else [])
  }

  /** A task is pushed back exactly when some outcome of the batch is a retry of it. */
  lemma {:induction false} RequeuedMembers(results: seq<Outcome>)
    ensures forall x :: x in Requeued(results) <==> exists i :: 0 <= i < |results| && results[i] == Retry(x)
    decreases |results|
  {
    if results != [] {
      var init := results[..|results| - 1];
      RequeuedMembers(init);
      assert forall i :: 0 <= i < |init| ==> init[i] == results[i];
    }
  }

  // -------------------------------------------------------------------------
  // The run loop
  // -------------------------------------------------------------------------

  /** The number of tasks `splice(0, batchSize)` removes from a queue of length n. */
  function Take(batchSize: int, n: nat): (k: nat)
    ensures k <= n
    ensures batchSize <= 0 ==> k == 0
    ensures batchSize > 0 ==> k <= batchSize && (k == n || k == batchSize)
  {
    if batchSize <= 0 then 0 else if batchSize < n then batchSize else n
  }

  /** The state of a run: the caller's array, the caller's task state, the hook log, batches started. */
  datatype State = State(queue: seq<Task>, calls: map<Task, nat>, log: seq<Event>, batches: nat)

  datatype Step = Continue(next: State) | Abort(err: Error, next: State)

  /** The batch of a pass: the first `Take` tasks of the queue, run in order. */
  function BatchOf(opts: Options, behave: Behaviour, st: State): BatchRun {
    ExecuteBatch(opts, behave, st.queue[..Take(opts.batchSize, |st.queue|)], BatchRun([], [], st.calls))
  }

  /** One pass of the `while` loop. */
  function Iterate(opts: Options, behave: Behaviour, st: State): (r: Step)
    ensures r.next.batches == st.batches + 1
  {
    var started := st.(log := st.log + [BatchStarted], batches := st.batches + 1);
    match opts.onBatchStart(st.batches)
    case Some(e) => Abort(e, started)
    case None =>
      var k := Take(opts.batchSize, |st.queue|);
      var b := BatchOf(opts, behave, st);
      var spliced := State(st.queue[k..], b.calls, started.log + b.events, started.batches);
      if Aborted(b) then
        Abort(b.results[|b.results| - 1].err, spliced)
      else
        var ended := spliced.(queue := spliced.queue + Requeued(b.results), log := spliced.log + [BatchEnded]);
        match opts.onBatchEnd(st.batches)
        case Some(e) => Abort(e, ended)
        case None => Continue(ended)
  }

  /**
   * A pass starts with `onBatchStart`, only appends to the log, and ends
   * with `onBatchEnd` when it completes; the tasks it did not take stay at
   * the head of the queue, followed by at most the batch's own tasks.
   */
  lemma IterateShape(opts: Options, behave: Behaviour, st: State)
    ensures var r := Iterate(opts, behave, st);
      && |st.log| < |r.next.log| && r.next.log[..|st.log| + 1] == st.log + [BatchStarted]
      && (r.Continue? ==> r.next.log[|r.next.log| - 1] == BatchEnded)
      && (r.Continue? ==>
            var k := Take(opts.batchSize, |st.queue|);
            |st.queue| - k <= |r.next.queue| <= |st.queue| &&
            r.next.queue[..|st.queue| - k] == st.queue[k..])
  {
    var r := Iterate(opts, behave, st);
    if opts.onBatchStart(st.batches).None? {
      var k := Take(opts.batchSize, |st.queue|);
      var b := BatchOf(opts, behave, st);
      assert |Requeued(b.results)| <= |b.results| <= k;
      var log := st.log + [BatchStarted] + b.events;
      assert log[..|st.log| + 1] == st.log + [BatchStarted];
      assert (log + [BatchEnded])[..|st.log| + 1] == st.log + [BatchStarted];
    }
  }

  /** What the run promise settles to: `true`, a rejection, or (model only) fuel exhausted. */
  datatype RunResult = Returned(value: bool) | Threw(err: Error) | OutOfFuel

  datatype Final = Final(result: RunResult, st: State)

  /**
   * The run from state `st`, for at most `fuel` more passes of the loop.
   * The loop has no bound of its own (retries are unbounded); `fuel` stands
   * for "long enough".
   */
  function RunFrom(opts: Options, behave: Behaviour, st: State, fuel: nat): (r: Final)
    ensures r.result.Returned? ==> r.result.value && r.st.queue == []
    ensures r.result.OutOfFuel? ==> r.st.queue != []
    decreases fuel
  {
    if |st.queue| == 0 then Final(Returned(true), st)
    else if fuel == 0 then Final(OutOfFuel, st)
    else
      match Iterate(opts, behave, st)
      case Abort(e, next) => Final(Threw(e), next)
      case Continue(next) => RunFrom(opts, behave, next, fuel - 1)
  }

  /** A run only appends to the hook log and starts at most `fuel` batches. */
  lemma {:induction false} RunFromShape(opts: Options, behave: Behaviour, st: State, fuel: nat)
    ensures var r := RunFrom(opts, behave, st, fuel);
      && |st.log| <= |r.st.log| && r.st.log[..|st.log|] == st.log
      && st.batches <= r.st.batches <= st.batches + fuel
    decreases fuel
  {
    if |st.queue| > 0 && fuel > 0 {
      IterateShape(opts, behave, st);
      var step := Iterate(opts, behave, st);
      if step.Continue? {
        RunFromShape(opts, behave, step.next, fuel - 1);
        var r := RunFrom(opts, behave, st, fuel);
        assert r.st.log[..|st.log|] == r.st.log[..|step.next.log|][..|st.log|];
      }
    }
  }

  /** A pass in which neither batch hook throws and no task is fatal. */
  lemma PassCompletes(opts: Options, behave: Behaviour, st: State)
    requires opts.onBatchStart(st.batches).None? && opts.onBatchEnd(st.batches).None?
    requires !Aborted(BatchOf(opts, behave, st))
    ensures var b := BatchOf(opts, behave, st);
      Iterate(opts, behave, st) == Continue(State(
        st.queue[Take(opts.batchSize, |st.queue|)..] + Requeued(b.results),
        b.calls,
        st.log + [BatchStarted] + b.events + [BatchEnded],
        st.batches + 1))
  {
  }

  /** One pass of the loop, seen from the whole run. */
  lemma RunFromUnfold(opts: Options, behave: Behaviour, st: State, fuel: nat)
    requires |st.queue| > 0 && fuel > 0
    ensures Iterate(opts, behave, st).Abort? ==>
              RunFrom(opts, behave, st, fuel) == Final(Threw(Iterate(opts, behave, st).err), Iterate(opts, behave, st).next)
    ensures Iterate(opts, behave, st).Continue? ==>
              RunFrom(opts, behave, st, fuel) == RunFrom(opts, behave, Iterate(opts, behave, st).next, fuel - 1)
  {
  }

  /** A run whose first pass completes goes on from the state that pass leaves. */
  lemma RunFromContinue(opts: Options, behave: Behaviour, st: State, fuel: nat, next: State)
    requires |st.queue| > 0 && fuel > 0 && Iterate(opts, behave, st) == Continue(next)
    ensures RunFrom(opts, behave, st, fuel) == RunFrom(opts, behave, next, fuel - 1)
  {
  }

  /** The caller's array, which the run drains in place. */
  class TaskList {
    var items: seq<Task>

    constructor (tasks: seq<Task>)
      ensures items == tasks
    {
      items := tasks;
    }
  }

  /**
   * The exported run function. The queue is the caller's array, changed in
   * place by `splice` and `push`; `calls`, `log` and `batches` are the
   * caller's side of the world, returned in `final`.
   */
  method Run(queued: TaskList, opts: Options, behave: Behaviour,
             calls0: map<Task, nat>, log0: seq<Event>, batches0: nat, fuel: nat)
    returns (result: RunResult, final: State)
    modifies queued
    ensures RunFrom(opts, behave, State(old(queued.items), calls0, log0, batches0), fuel) == Final(result, final)
    ensures final.queue == queued.items
    ensures result.Returned? ==> result.value && queued.items == []
  {
    var calls, log, batches := calls0, log0, batches0;
    var fuelLeft := fuel;
    ghost var start := State(queued.items, calls, log, batches);
    while |queued.items| > 0
      invariant RunFrom(opts, behave, start, fuel) == RunFrom(opts, behave, State(queued.items, calls, log, batches), fuelLeft)
      decreases fuelLeft
    {
      if fuelLeft == 0 {
        result, final := OutOfFuel, State(queued.items, calls, log, batches);
        return;
      }
      ghost var before := State(queued.items, calls, log, batches);
      var step := Pass(queued, opts, behave, calls, log, batches);
      RunFromUnfold(opts, behave, before, fuelLeft);
      calls, log, batches := step.next.calls, step.next.log, step.next.batches;
      if step.Abort? {
        result, final := Threw(step.err), step.next;
        return;
      }
      fuelLeft := fuelLeft - 1;
    }
    result, final := Returned(true), State(queued.items, calls, log, batches);
  }

  /** The body of the `while` loop: one batch, from `onBatchStart` to `onBatchEnd`. */
  method Pass(queued: TaskList, opts: Options, behave: Behaviour,
              calls0: map<Task, nat>, log0: seq<Event>, batches0: nat)
    returns (step: Step)
    modifies queued
    ensures step == Iterate(opts, behave, State(old(queued.items), calls0, log0, batches0))
    ensures queued.items == step.next.queue
  {
    var calls, log, batches := calls0, log0 + [BatchStarted], batches0 + 1;
    var hook := opts.onBatchStart(batches0);
    if hook.Some? {
      return Abort(hook.value, State(queued.items, calls, log, batches));
    }

    // queuedPromises.splice(0, batchSize)
    var k := Take(opts.batchSize, |queued.items|);
    var currBatch := queued.items[..k];
    queued.items := queued.items[k..];

    // Promise.all over the batch, here in order
    var b := ExecuteInOrder(opts, behave, currBatch, calls);
    calls, log := b.calls, log + b.events;
    if Aborted(b) {
      return Abort(b.results[|b.results| - 1].err, State(queued.items, calls, log, batches));
    }
    PushRetried(queued, b.results);

    log := log + [BatchEnded];
    hook := opts.onBatchEnd(batches0);
    if hook.Some? {
      return Abort(hook.value, State(queued.items, calls, log, batches));
    }
    step := Continue(State(queued.items, calls, log, batches));
  }

  /** `Promise.all` over one batch, with the tasks run one after another in batch order. */
  method ExecuteInOrder(opts: Options, behave: Behaviour, batch: seq<Task>, calls0: map<Task, nat>)
    returns (b: BatchRun)
    ensures b == ExecuteBatch(opts, behave, batch, BatchRun([], [], calls0))
  {
    var results: seq<Outcome> := [];
    var events: seq<Event> := [];
    var calls := calls0;
    var j := 0;
    while j < |batch|
      invariant 0 <= j <= |batch| && |results| == j
      invariant NoFatal(results)
      invariant ExecuteBatch(opts, behave, batch, BatchRun([], [], calls0))
             == ExecuteBatch(opts, behave, batch[j..], BatchRun(results, events, calls))
    {
      var task := batch[j];
      var n := Times(calls, task);
      var item := ExecuteItem(opts, task, behave(task, n));
      assert batch[j..][1..] == batch[j + 1..];
      calls := calls[task := n + 1];
      results := results + [item.outcome];
      events := events + item.events;
      if item.outcome.Fatal? {
        return BatchRun(results, events, calls);
      }
      j := j + 1;
    }
    b := BatchRun(results, events, calls);
  }

  /** `results.forEach(...)`: push every task marked for retry onto the caller's array. */
  method PushRetried(queued: TaskList, results: seq<Outcome>)
    modifies queued
    ensures queued.items == old(queued.items) + Requeued(results)
  {
    for i := 0 to |results|
      invariant queued.items == old(queued.items) + Requeued(results[..i])
    {
      assert results[..i + 1][..i] == results[..i];
      if results[i].Retry? {
        queued.items := queued.items + [results[i].task];
      }
    }
    assert results[..|results|] == results;
  }
}
