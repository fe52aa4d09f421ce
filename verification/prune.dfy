/**
 * The MX pruner: every provider-list entry that is on neither the good list
 * nor the dead list is looked up for MX records, in batches of 150 through
 * the batched dispatcher. A domain with records, or whose lookup timed out,
 * goes on the good list; any other failure, or an empty answer, puts it on
 * the dead list. Both lists are written back after every batch.
 */
module Prune {
  import opened Strings
  import opened Dispatcher
  import DL = DispatcherLemmas

  /** One MX record as the resolver returns it. */
  datatype MxRecord = MxRecord(exchange: string, priority: nat)

  /** A resolver error and its `code` property (such as "ETIMEOUT"), when it has one. */
  datatype DnsError = DnsError(code: Option<string>)

  /** How the `resolveMx(domain)` promise settles. */
  datatype MxLookup = Resolved(records: seq<MxRecord>) | Rejected(reason: DnsError)

  /** The `[reason, value]` pair the `collect` wrapper returns. */
  datatype Collected = Collected(err: Option<DnsError>, result: Option<seq<MxRecord>>)

  /** The list `checkDomain` appends a domain to. */
  datatype Verdict = Good | Dead

  const Timeout := "ETIMEOUT"

  /**
   * `collect`: the settled lookup as a pair. The wrapper itself never
   * rejects; exactly one half of the pair is present.
   */
  function Collect(lookup: MxLookup): (c: Collected)
    ensures c.err.Some? <==> c.result.None?
    ensures c.result.Some? <==> lookup.Resolved?
    ensures lookup.Resolved? ==> c.result.value == lookup.records
    ensures lookup.Rejected? ==> c.err.value == lookup.reason
  {
    match lookup
    case Resolved(records) => Collected(None, Some(records))
    case Rejected(reason) => Collected(Some(reason), None)
  }

  /** The branches of `checkDomain` on the collected pair. */
  function Classify(c: Collected): Verdict {
    if c.err.Some? || (c.result.Some? && |c.result.value| == 0) then
      if c.err.Some? && c.err.value.code == Some(Timeout) then Good else Dead
    else Good
  }

  /** A domain is dead exactly when it has no MX record or its lookup failed with anything but a timeout. */
  lemma DeadRule(lookup: MxLookup)
    ensures Classify(Collect(lookup)) == Dead <==>
      || (lookup.Resolved? && |lookup.records| == 0)
      || (lookup.Rejected? && lookup.reason.code != Some(Timeout))
  {
  }

  /** A timed-out lookup keeps the domain on the good list, so a slow server never prunes a provider. */
  lemma TimeoutIsGood(code: Option<string>)
    requires code == Some(Timeout)
    ensures Classify(Collect(Rejected(DnsError(code)))) == Good
  {
  }

  // ---------------------------------------------------------------------
  // The entries still to check
  // ---------------------------------------------------------------------

  /** The `filter` over the split provider list: non-empty entries on neither list, in list order. */
  function Keep(candidates: seq<string>, good: seq<string>, dead: seq<string>): seq<string>
    decreases |candidates|
  {
    if candidates == [] then []
    else
      var d := candidates[0];
      (if |d| > 0 && d !in good && d !in dead then [d] else []) + Keep(candidates[1..], good, dead)
  }

  /** The domains to check, from the three files as read. */
  function Pending(domainTxt: string, goodTxt: string, deadTxt: string): seq<string> {
    Keep(Split(domainTxt, '\n'), Split(goodTxt, '\n'), Split(deadTxt, '\n'))
  }

  /** An entry is pending exactly when it is a non-empty line of the list that neither list holds. */
  lemma {:induction false} KeepMembers(candidates: seq<string>, good: seq<string>, dead: seq<string>)
    ensures forall d :: d in Keep(candidates, good, dead) <==>
      d in candidates && |d| > 0 && d !in good && d !in dead
    decreases |candidates|
  {
    if candidates != [] {
      KeepMembers(candidates[1..], good, dead);
      assert candidates == [candidates[0]] + candidates[1..];
    }
  }

  /** Filtering keeps the list order: it distributes over concatenation. */
  lemma {:induction false} KeepAppend(a: seq<string>, b: seq<string>, good: seq<string>, dead: seq<string>)
    ensures Keep(a + b, good, dead) == Keep(a, good, dead) + Keep(b, good, dead)
    decreases |a|
  {
    if a != [] {
      KeepAppend(a[1..], b, good, dead);
      assert (a + b)[0] == a[0] && (a + b)[1..] == a[1..] + b;
    } else {
      assert a + b == b;
    }
  }

  /** No pending entry holds a line break. */
  lemma PendingLines(domainTxt: string, goodTxt: string, deadTxt: string)
    ensures forall d :: d in Pending(domainTxt, goodTxt, deadTxt) ==> '\n' !in d
  {
    KeepMembers(Split(domainTxt, '\n'), Split(goodTxt, '\n'), Split(deadTxt, '\n'));
  }

  // ---------------------------------------------------------------------
  // The two lists, changed in place by `checkDomain`
  // ---------------------------------------------------------------------

  /** The domains whose lookup gives `v`, in order. */
  function Filed(domains: seq<string>, lookup: string -> MxLookup, v: Verdict): seq<string>
    decreases |domains|
  {
    if domains == [] then []
    else
      (if Classify(Collect(lookup(domains[0]))) == v then [domains[0]] else [])
      + Filed(domains[1..], lookup, v)
  }

  /** Every checked domain is filed on exactly one of the two lists. */
  lemma {:induction false} FiledPartition(domains: seq<string>, lookup: string -> MxLookup)
    ensures multiset(Filed(domains, lookup, Good)) + multiset(Filed(domains, lookup, Dead)) == multiset(domains)
    ensures |Filed(domains, lookup, Good)| + |Filed(domains, lookup, Dead)| == |domains|
    decreases |domains|
  {
    if domains != [] {
      FiledPartition(domains[1..], lookup);
      assert domains == [domains[0]] + domains[1..];
    }
  }

  lemma {:induction false} FiledAppend(a: seq<string>, b: seq<string>, lookup: string -> MxLookup, v: Verdict)
    ensures Filed(a + b, lookup, v) == Filed(a, lookup, v) + Filed(b, lookup, v)
    decreases |a|
  {
    if a != [] {
      FiledAppend(a[1..], b, lookup, v);
      assert (a + b)[0] == a[0] && (a + b)[1..] == a[1..] + b;
    } else {
      assert a + b == b;
    }
  }

  /** The `good` and `dead` arrays of the script, read from their files at start-up. */
  class Lists {
    var good: seq<string>
    var dead: seq<string>

    constructor (goodTxt: string, deadTxt: string)
      ensures good == Split(goodTxt, '\n') && dead == Split(deadTxt, '\n')
    {
      good := Split(goodTxt, '\n');
      dead := Split(deadTxt, '\n');
    }

    /** `checkDomain`: appends the domain to exactly one list, as `Classify` decides. */
    method CheckDomain(domain: string, lookup: MxLookup)
      modifies this
      ensures Classify(Collect(lookup)) == Good ==> good == old(good) + [domain] && dead == old(dead)
      ensures Classify(Collect(lookup)) == Dead ==> dead == old(dead) + [domain] && good == old(good)
    {
      var collected := Collect(lookup);
      var err, result := collected.err, collected.result;
      if err.Some? || (result.Some? && |result.value| == 0) {
        if err.Some? && err.value.code == Some(Timeout) {
          good := good + [domain];
          return;
        }
        dead := dead + [domain];
        return;
      }
      good := good + [domain];
    }

    /**
     * The tasks of a run that completes, in the order the dispatcher runs
     * them (see `PruneRunCompletes`): each domain checked once, in list order.
     */
    method CheckAll(domains: seq<string>, lookup: string -> MxLookup)
      modifies this
      ensures good == old(good) + Filed(domains, lookup, Good)
      ensures dead == old(dead) + Filed(domains, lookup, Dead)
    {
      for i := 0 to |domains|
        invariant good == old(good) + Filed(domains[..i], lookup, Good)
        invariant dead == old(dead) + Filed(domains[..i], lookup, Dead)
      {
        FiledAppend(domains[..i], [domains[i]], lookup, Good);
        FiledAppend(domains[..i], [domains[i]], lookup, Dead);
        assert domains[..i + 1] == domains[..i] + [domains[i]];
        CheckDomain(domains[i], lookup(domains[i]));
      }
      assert domains[..|domains|] == domains;
    }

    /** What `save` writes: each list joined by newlines. */
    function Saved(): (files: (string, string))
      reads this
    {
      (Join(good, '\n'), Join(dead, '\n'))
    }
  }

  /**
   * Saving and reading back: the next run reads exactly the saved lists,
   * so no domain checked before is checked again.
   */
  lemma SavedListsReadBack(domainTxt: string, good: seq<string>, dead: seq<string>)
    requires |good| >= 1 && |dead| >= 1
    requires forall i :: 0 <= i < |good| ==> '\n' !in good[i]
    requires forall i :: 0 <= i < |dead| ==> '\n' !in dead[i]
    ensures Pending(domainTxt, Join(good, '\n'), Join(dead, '\n')) == Keep(Split(domainTxt, '\n'), good, dead)
    ensures forall d :: d in Pending(domainTxt, Join(good, '\n'), Join(dead, '\n')) ==> d !in good && d !in dead
  {
    SplitJoin(good, '\n');
    SplitJoin(dead, '\n');
    KeepMembers(Split(domainTxt, '\n'), good, dead);
  }

  // ---------------------------------------------------------------------
  // The tasks and the dispatcher run
  // ---------------------------------------------------------------------

  /** The identity of `checkDomain` as a task function. */
  const CheckDomainFn: FuncId := 0

  /** `domains.map(domain => ({ func: checkDomain, args: [domain] }))`. */
  function Tasks(domains: seq<string>): (ts: seq<Task>)
    ensures |ts| == |domains|
  {
    seq(|domains|, i requires 0 <= i < |domains| => Task(CheckDomainFn, [Text(domains[i])]))
  }

  /** The argument lists of the tasks are the domains, one each, in order. */
  lemma {:induction false} TasksArgs(domains: seq<string>)
    ensures |DL.ArgsOf(Tasks(domains))| == |domains|
    ensures forall i :: 0 <= i < |domains| ==> DL.ArgsOf(Tasks(domains))[i] == [Text(domains[i])]
    decreases |domains|
  {
    if domains != [] {
      TasksArgs(domains[1..]);
      assert Tasks(domains)[1..] == Tasks(domains[1..]);
    }
  }

  /** The options object of the script; `save` stands for the `onBatchEnd` hook that saves both lists. */
  function PruneOptions(save: Hook<nat>): (o: Options) {
    Configure(UserOptions(Some(150), Some(2000), None, None, None, None, None, None, None, Some(save)))
  }

  /**
   * `checkDomain` as the dispatcher sees it: it always resolves (with
   * `undefined`), because `collect` turns a failed lookup into a value.
   */
  const CheckDomainResolves: Behaviour := (t, n) => Resolve(Undefined)

  /** The state the dispatcher starts from for a list of pending domains. */
  function Start(domains: seq<string>): State {
    State(Tasks(domains), map[], [], 0)
  }

  /**
   * When saving never fails, the run settles to `true` after ceil(n / 150)
   * batches, and `checkDomain` ran once for every pending domain, in list
   * order, with nothing retried or failed.
   */
  lemma PruneRunCompletes(domains: seq<string>, save: Hook<nat>, fuel: nat)
    requires forall n :: save(n).None?
    requires fuel >= DL.BatchCount(|domains|, 150)
    ensures var r := RunFrom(PruneOptions(save), CheckDomainResolves, Start(domains), fuel);
      && r.result == Returned(true)
      && r.st.batches == DL.BatchCount(|domains|, 150)
      && |domains| <= r.st.batches * 150
      && (|domains| == 0 || (r.st.batches - 1) * 150 < |domains|)
      && DL.Successes(r.st.log) == DL.ArgsOf(Tasks(domains))
      && DL.Problems(r.st.log) == 0
  {
    var opts := PruneOptions(save);
    assert DL.QuietHooks(opts);
    DL.AllSucceed(opts, CheckDomainResolves, Start(domains), fuel);
    DL.AllSucceedLog(opts, CheckDomainResolves, Start(domains), fuel);
    DL.BatchCountIsCeiling(|domains|, 150);
  }

  /**
   * A failed save ends the run: the first batch of up to 150 domains was
   * checked, and the rest stay queued and unchecked.
   */
  lemma SaveFailureStopsRun(domains: seq<string>, save: Hook<nat>, e: Error, fuel: nat)
    requires |domains| > 0 && fuel >= 1
    requires save(0) == Some(e)
    ensures var r := RunFrom(PruneOptions(save), CheckDomainResolves, Start(domains), fuel);
      var k := if |domains| < 150 then |domains| else 150;
      && r.result == Threw(e)
      && r.st.queue == Tasks(domains)[k..]
      && r.st.batches == 1
  {
    var opts := PruneOptions(save);
    var st := Start(domains);
    var k := Take(150, |domains|);
    var batch := st.queue[..k];
    DL.AllSucceedBatch(opts, CheckDomainResolves, batch, BatchRun([], [], st.calls));
    DL.RequeuedCompleted(BatchOf(opts, CheckDomainResolves, st).results);
    RunFromUnfold(opts, CheckDomainResolves, st, fuel);
  }
}
