# Burner email provider list: checker, normaliser, MX pruner and batch dispatcher

The repository keeps `emails.txt`, a list of disposable e-mail provider
domains, one per line. Four programs maintain it, and this project models
each of them in Dafny:

- **Checker** (`checks.py`) reads the list and reports three kinds of fault:
  - an entry that repeats an earlier one;
  - an entry that sorts before the entry just above it;
  - an entry (other than the first) whose registrable domain or public
    suffix is empty.

  It exits with status 1 when there is a report and 0 otherwise. Module
  `Checks`, file `checks.dfy`.
- **Normaliser** (`sort.py`) lower-cases and strips every line, removes
  duplicates, sorts the result, joins it with newlines, strips the whole
  text and writes it back. Module `Sort`, file `sort.dfy`.
- **Pruner** (`prune/prune.js`) checks every entry that is on neither
  `good.txt` nor `dead.txt`. It looks up the entry's MX records and files
  it under good or dead:
  - a domain with records, or whose lookup timed out, is good;
  - an empty answer or any other error makes it dead.

  The lookups run through the batch dispatcher, 150 at a time, and both
  lists are saved after every batch. Module `Prune`, file `prune.dfy`.
- **Batch dispatcher** (`batch-promises-with-delay`) takes tasks from the
  front of a queue in batches and runs them. It calls the success, retry
  and failure hooks, puts retried tasks at the back of the queue, and calls
  the batch hooks around each batch. It stops when the queue is empty or
  when a failure nobody handles ends the run. The model is in two places:
  - module `Dispatcher` (file `dispatcher.dfy`) holds the specification
    functions and the imperative run loop over the caller's array;
  - module `DispatcherLemmas` (file `dispatcher_lemmas.dfy`) holds the
    properties of whole runs: runs in which every task succeeds, and a
    task retried k times among other tasks;
  - module `DispatcherSettled` (file `dispatcher_settled.dfy`) holds runs
    in which nothing is retried: every attempt completes, or its failure
    goes to an `onFailure` that returns or is dropped under
    `ignoreFailures`;
  - module `DispatcherAttempts` (file `dispatcher_attempts.dfy`) counts
    the invocations of a retried task among any other tasks, including
    tasks with the same arguments;
  - module `DispatcherScenarios` (file `dispatcher_scenarios.dfy`) works
    one run through pass by pass: six tasks, one of them retried three
    times, in batches of two.

Module `Strings` (file `strings.dfy`) holds the text operations the
programs share:
- Python's `lower`, `strip`, `rstrip`, `readlines` and string order;
- JavaScript's `split("\n")` and `join("\n")`.

The external world is passed in as values:
- file contents are strings;
- the MX resolver's answer for a domain is a value of type `MxLookup`;
- the public-suffix split done by `tldextract` is a function
  `extract: string -> DomainParts`;
- a task function is a `Behaviour`, i.e. the outcome of its n-th
  invocation;
- each hook is a function that says whether the hook throws.

The checker gives the first entry of the list no registrability check, as
the code does: the check sits inside the branch that needs a previous
entry. `Checks.FirstLineNeverValidated` states this.

The code and the natural reading of the dispatcher's behaviour differ on
one point: what happens when `onSuccess` throws. The code awaits
`onSuccess` inside the same `try` block as the task. An error thrown by the
hook is therefore caught and goes through the retry and failure rules like
a rejection of the task. The model follows the code; see
`DispatcherLemmas.SuccessHookErrorIsCaught`.

## Model

| member | source | states |
|---|---|---|
| Strings.LowerChar | sort.py:8 | lower-casing leaves no upper-case letter, keeps whitespace as whitespace, and changes only upper-case letters |
| Strings.Lower | sort.py:8 | `lower()` keeps the length, leaves no upper-case letter, leaves every other character as it was, maps each upper-case letter to its lower-case partner, and keeps whitespace as whitespace |
| Strings.LowerIdempotent | sort.py:8 | lower-casing an already lower-cased line changes nothing |
| Strings.LStripSpec | sort.py:8 | the left strip is a suffix of its input, everything it removed is whitespace, and it does not start with whitespace |
| Strings.RStripSpec | checks.py:14 | `rstrip()` returns a prefix of its input, removes only whitespace, and does not end with whitespace |
| Strings.StripResult | sort.py:8 | `strip()` leaves no whitespace at either end and only keeps characters of its input |
| Strings.StripTrimmed | sort.py:11 | stripping a text with no whitespace at either end changes nothing |
| Strings.StripLeadingSpace | sort.py:11 | stripping removes any amount of leading whitespace in front of a trimmed text |
| Strings.RStripTrailingSpace | checks.py:14 | `rstrip()` removes any trailing whitespace after a text that does not end with whitespace |
| Strings.LessIrreflexive | checks.py:21 | Python's string `<` is irreflexive |
| Strings.LessAsymmetric | checks.py:21 | string `<` is asymmetric |
| Strings.LessTransitive | sort.py:10 | string `<` is transitive |
| Strings.LessTotal | sort.py:10 | two different strings are ordered one way or the other, so `sorted` has a unique answer |
| Strings.EmptyLeast | sort.py:10 | the empty string sorts before every other string |
| Strings.Split | prune/prune.js:14-17 | `split("\n")` yields at least one piece and no piece holds the separator |
| Strings.JoinSplit | prune/prune.js:14-15 | joining the pieces of `split` with the same separator gives back the text |
| Strings.SplitJoin | prune/prune.js:62 | splitting a `join` of separator-free pieces gives back the pieces |
| Strings.SplitFree | prune/prune.js:14 | a text without the separator splits into itself alone |
| Strings.SplitPrefix | prune/prune.js:14 | splitting at the first separator gives the text before it, then the split of the rest |
| Strings.LineEnd | sort.py:5 | the first line ends at the first newline, included, or at the end of the text |
| Strings.ReadLinesSpec | sort.py:5 | `readlines()` gives lines that concatenate back to the text, each holding at most one newline, as its last character, and every line but the last ends with one |
| Strings.TerminatedShape | sort.py:5 | the lines of a newline-joined list are its entries, each with a newline except the last |
| Strings.ReadLinesJoin | sort.py:5 | `readlines()` of non-empty newline-free entries joined by newlines gives each entry back with its newline, except the last |
| Checks.SortedPair | checks.py:20-21 | `sorted([previous, current])` is a permutation of the pair, in non-decreasing order |
| Checks.Domains | checks.py:13-14 | one right-stripped entry per line of the file |
| Checks.DomainsShape | checks.py:13-14 | no entry holds a newline or ends with whitespace |
| Checks.Check | checks.py:8-37 | the checker's loop produces exactly the reports of the per-entry rules, in file order, and exits 1 exactly when there is a report |
| Checks.CheckEntry | checks.py:15-33 | one entry yields a duplicate report if it was seen before, then, when it is not the first entry, a wrong-sorting report if it sorts before its predecessor and an invalid-domain report if its registrable domain or suffix is empty |
| Checks.NotLessTransitive | checks.py:21 | "not sorted before" is transitive, so adjacent order gives order throughout |
| Checks.ReportsLast | checks.py:13-34 | the reports of a list are those of all but the last entry plus those of the last entry against the entries above it |
| Checks.NoWrongSortingIff | checks.py:18-26 | there is no wrong-sorting report exactly when the list is in non-decreasing order |
| Checks.NoDuplicateIff | checks.py:15-17 | there is no duplicate report exactly when all entries are distinct |
| Checks.NoInvalidIff | checks.py:27-33 | there is no invalid-domain report exactly when every entry after the first has a non-empty domain and suffix |
| Checks.CleanIff | checks.py:36-37 | the checker succeeds exactly when the list is sorted, has no repeats, and every entry after the first is registrable |
| Checks.FirstLineNeverValidated | checks.py:18-33 | a one-entry list always passes, whatever its entry |
| Checks.RepeatedNeighbour | checks.py:15-26 | an entry equal to its predecessor is reported as a duplicate and never as wrongly sorted |
| Sort.Normalised | sort.py:7-8 | normalising keeps one entry per line |
| Sort.SortFile | sort.py:1-14 | the program writes the stripped, newline-joined, sorted distinct normalised lines, i.e. the non-empty entries of the normalised list joined by newlines |
| Sort.IncreasingPairs | sort.py:10 | in a strictly increasing list every earlier entry sorts before every later one |
| Sort.InsertSpec | sort.py:10 | inserting into a sorted duplicate-free list keeps it sorted and adds exactly the new element |
| Sort.SortedSetSpec | sort.py:10 | `sorted(set(xs))` is strictly increasing and has exactly the members of `xs` |
| Sort.IncreasingUnique | sort.py:10 | two strictly increasing lists with the same members are equal, so sorted-set is well defined |
| Sort.SortedSetOfIncreasing | sort.py:10 | `sorted(set(xs))` of a strictly increasing list is the list itself |
| Sort.DropEmpty | sort.py:11 | the empty entry, which sorts first, is the only one the final strip can remove |
| Sort.NormaliseClean | sort.py:8 | a normalised line has no newline, no upper-case letter, and no whitespace at either end |
| Sort.JoinTrimmed | sort.py:11 | joining non-empty trimmed entries gives a non-empty trimmed text |
| Sort.DropEmptySpec | sort.py:10-11 | in a sorted set only the first entry can be empty; dropping it leaves a strictly increasing list of the non-empty entries |
| Sort.StripJoinTrimmed | sort.py:11 | stripping a join of non-empty trimmed entries changes nothing |
| Sort.StripJoinAfterEmpty | sort.py:11 | the final strip removes exactly the newline that an empty first entry leaves |
| Sort.StripJoin | sort.py:11 | the stripped join is the join of the entries without the empty one |
| Sort.WrittenIsJoinOfEntries | sort.py:10-11 | the written text joins entries that are strictly increasing, non-empty, lower-case and trimmed, and that are exactly the non-empty normalised lines |
| Sort.EntryFixed | sort.py:8 | a clean entry, with or without its newline, normalises and right-strips back to itself |
| Sort.TerminatedFixed | sort.py:7-8 | reading back clean entries and normalising gives the entries |
| Sort.ReadBack | sort.py:5 | `readlines()` of a written list gives its entries with their newlines |
| Sort.Idempotent | sort.py:1-14 | running the normaliser on its own output writes the same text again |
| Sort.OutputPassesLinter | sort.py:10-11 | the normalised file passes the checker's duplicate and ordering rules |
| Prune.Collect | prune/prune.js:25-30 | `collect` never fails: exactly one of reason and value is present, and it is the lookup's |
| Prune.DeadRule | prune/prune.js:32-46 | a domain goes to the dead list exactly when its lookup gave no records or failed with a code other than ETIMEOUT |
| Prune.TimeoutIsGood | prune/prune.js:35-38 | a timed-out lookup puts the domain on the good list |
| Prune.KeepMembers | prune/prune.js:17-22 | an entry is pending exactly when it is a non-empty line of the provider list that is on neither list |
| Prune.KeepAppend | prune/prune.js:17-22 | the filter works entry by entry, keeping order |
| Prune.PendingLines | prune/prune.js:16-22 | no pending entry holds a newline |
| Prune.FiledPartition | prune/prune.js:32-46 | checking the domains files each of them exactly once, on the good list or the dead list |
| Prune.FiledAppend | prune/prune.js:32-46 | filing works domain by domain, keeping order |
| Prune.Lists.constructor | prune/prune.js:14-15 | the lists start as the newline-split files |
| Prune.Lists.CheckDomain | prune/prune.js:32-46 | `checkDomain` appends the domain to the list its verdict names and leaves the other list alone |
| Prune.Lists.CheckAll | prune/prune.js:48-59 | after checking a sequence of domains, each list has gained exactly the domains filed under it, in order |
| Prune.SavedListsReadBack | prune/prune.js:61-63 | reading back saved lists on the next run leaves pending only entries on neither list, so no domain is checked twice |
| Prune.Tasks | prune/prune.js:48 | one task per pending domain |
| Prune.TasksArgs | prune/prune.js:48 | the i-th task's arguments are the i-th domain alone |
| Prune.PruneRunCompletes | prune/prune.js:52-59 | when saving never fails, the run returns true after ceil(n/150) batches, `checkDomain` ran once per pending domain in list order, and nothing was retried or failed |
| Prune.SaveFailureStopsRun | prune/prune.js:55-58 | a failing save after the first batch rejects the run with that error and leaves the domains after the first 150 unchecked |
| Dispatcher.Configure | node_modules/batch-promises-with-delay/src/index.js:62-74 | the defaults: batch size 1, delay 1, no retry filters, no greedy retry, failures not ignored, no `onFailure`, and hooks that do nothing; every option the caller gives (batch size, delay, retry filters, `onFailure` and each hook) is used as given |
| Dispatcher.AnyFilterMatchesIff | node_modules/batch-promises-with-delay/src/index.js:19-25 | the retry-filter scan finds a match exactly when some filter accepts the error |
| Dispatcher.ScanFilters | node_modules/batch-promises-with-delay/src/index.js:19-25 | the loop with its `break` decides retry exactly when some filter accepts the error |
| Dispatcher.ExecuteItem | node_modules/batch-promises-with-delay/src/index.js:9-56 | a task completes exactly when nothing reaches the `catch`; a completed task keeps its result and a retried task is the same task |
| Dispatcher.ExecuteBatch | node_modules/batch-promises-with-delay/src/index.js:88-92 | a batch adds at most one outcome per task |
| Dispatcher.ExecuteBatchShape | node_modules/batch-promises-with-delay/src/index.js:88-92 | outcomes are in batch order, a retry carries its own task, only the last outcome can be fatal, and the whole batch runs when none is |
| Dispatcher.Requeued | node_modules/batch-promises-with-delay/src/index.js:93-97 | no more tasks are pushed back than there were results |
| Dispatcher.RequeuedMembers | node_modules/batch-promises-with-delay/src/index.js:93-97 | a task is pushed back exactly when some outcome of the batch is a retry carrying it |
| Dispatcher.Take | node_modules/batch-promises-with-delay/src/index.js:87 | `splice(0, batchSize)` removes min(batchSize, length) tasks, and none for a batch size of zero or less |
| Dispatcher.Iterate | node_modules/batch-promises-with-delay/src/index.js:85-103 | each pass starts one more batch |
| Dispatcher.IterateShape | node_modules/batch-promises-with-delay/src/index.js:85-98 | a pass logs `onBatchStart` first and `onBatchEnd` last; the untaken tasks stay at the head of the queue, followed by at most the batch's own tasks |
| Dispatcher.RunFrom | node_modules/batch-promises-with-delay/src/index.js:85-104 | a run that returns returns `true` with an empty queue |
| Dispatcher.RunFromShape | node_modules/batch-promises-with-delay/src/index.js:85-104 | a run only appends to the hook log and starts at most one batch per pass |
| Dispatcher.PassCompletes | node_modules/batch-promises-with-delay/src/index.js:85-98 | a pass with quiet batch hooks and no fatal outcome leaves the rest of the queue followed by the retried tasks, and logs start, task events, end |
| Dispatcher.RunFromUnfold | node_modules/batch-promises-with-delay/src/index.js:85-103 | a run is one pass followed by the run from the state after it, or the pass's error |
| Dispatcher.RunFromContinue | node_modules/batch-promises-with-delay/src/index.js:85-103 | after a pass that completes, the loop goes on from the state that pass leaves |
| Dispatcher.TaskList.constructor | node_modules/batch-promises-with-delay/src/index.js:58 | the array the caller passes in |
| Dispatcher.Run | node_modules/batch-promises-with-delay/src/index.js:58-105 | the loop over the caller's array ends in exactly the result and state of the run specification, with the array drained when it returns true |
| Dispatcher.Pass | node_modules/batch-promises-with-delay/src/index.js:86-98 | one loop body, splicing and pushing on the caller's array, is one pass of the specification |
| Dispatcher.ExecuteInOrder | node_modules/batch-promises-with-delay/src/index.js:88-92 | running the batch task by task gives the batch specification's outcomes, events and call counts |
| Dispatcher.PushRetried | node_modules/batch-promises-with-delay/src/index.js:93-97 | the array gains exactly the retried tasks, in batch order, at its end |
| DispatcherLemmas.CountAppend | node_modules/batch-promises-with-delay/src/index.js:85-103 | hook-call counts add up over concatenated logs |
| DispatcherLemmas.SuccessesAppend | node_modules/batch-promises-with-delay/src/index.js:13 | the `onSuccess` calls of concatenated logs are concatenated |
| DispatcherLemmas.ArgsOfAppend | node_modules/batch-promises-with-delay/src/index.js:9 | the argument lists of concatenated queues are concatenated |
| DispatcherLemmas.RetryRule | node_modules/batch-promises-with-delay/src/index.js:19-31 | a caught error calls `onRetry` exactly when greedy retry is on or some filter accepts it, and the task is re-queued unchanged exactly when, in addition, `onRetry` returns |
| DispatcherLemmas.FailureRule | node_modules/batch-promises-with-delay/src/index.js:32-54 | a failure that is not retried goes to `onFailure` when there is one, is dropped when failures are ignored, and otherwise rejects the run with the same error |
| DispatcherLemmas.SuccessRule | node_modules/batch-promises-with-delay/src/index.js:11-17 | a resolved task whose `onSuccess` returns completes with its result after exactly one `onSuccess` call |
| DispatcherLemmas.SuccessHookErrorIsCaught | node_modules/batch-promises-with-delay/src/index.js:11-18 | an error thrown by `onSuccess` is handled exactly like a rejection of the task with that error |
| DispatcherLemmas.GreedyBatch | node_modules/batch-promises-with-delay/src/index.js:26 | with greedy retry on, a batch runs the same whatever the retry filters are |
| DispatcherLemmas.GreedyIgnoresFilters | node_modules/batch-promises-with-delay/src/index.js:26 | with greedy retry on, a whole run does not depend on the retry filters |
| DispatcherLemmas.RequeuedIsSubsequence | node_modules/batch-promises-with-delay/src/index.js:93-97 | the re-queued tasks are some of the batch's tasks, in batch order |
| DispatcherLemmas.PassShape | node_modules/batch-promises-with-delay/src/index.js:87-97 | after a completed pass the queue is the untaken tasks followed by some of the batch's tasks in batch order |
| DispatcherLemmas.BatchCountIsCeiling | node_modules/batch-promises-with-delay/src/index.js:85-103 | draining m tasks takes ceil(m / batchSize) batches |
| DispatcherLemmas.ProblemsAppend | node_modules/batch-promises-with-delay/src/index.js:27 | retry and failure counts add up over concatenated logs |
| DispatcherLemmas.RequeuedCompleted | node_modules/batch-promises-with-delay/src/index.js:93-97 | a batch whose tasks all completed pushes nothing back |
| DispatcherLemmas.ProblemsSucceeded | node_modules/batch-promises-with-delay/src/index.js:13 | a log of success calls holds no retry or failure |
| DispatcherLemmas.AllSucceedBatch | node_modules/batch-promises-with-delay/src/index.js:88-92 | when every task resolves, the batch completes every task and calls `onSuccess` once per task, in order |
| DispatcherLemmas.AllSucceedPass | node_modules/batch-promises-with-delay/src/index.js:85-98 | such a pass removes the batch from the queue and adds exactly its successes to the log |
| DispatcherLemmas.QuietPassLog | node_modules/batch-promises-with-delay/src/index.js:86-98 | the batch hooks add no success, retry or failure to the log |
| DispatcherLemmas.AllSucceed | node_modules/batch-promises-with-delay/src/index.js:85-104 | when every task resolves and no hook throws, the run returns true after exactly ceil(M / batchSize) batches |
| DispatcherLemmas.AllSucceedLog | node_modules/batch-promises-with-delay/src/index.js:85-104 | in such a run `onSuccess` is called once per task in queue order, and nothing is retried or failed |
| DispatcherLemmas.AllSucceedStep | node_modules/batch-promises-with-delay/src/index.js:85-103 | the first pass of such a run uses one batch and leaves a queue that needs one batch fewer |
| DispatcherLemmas.BatchCountStep | node_modules/batch-promises-with-delay/src/index.js:87 | one splice uses exactly one of the batches the queue needs |
| DispatcherLemmas.RetryPassesCount | node_modules/batch-promises-with-delay/src/index.js:26-31 | k retry passes call `onRetry` k times for the task and call no other task hook |
| DispatcherLemmas.RetryThenSucceed | node_modules/batch-promises-with-delay/src/index.js:26-31 | a lone task rejected k times with retryable errors and then resolved makes the run return true after k + 1 batches |
| DispatcherLemmas.RetryThenSucceedTrace | node_modules/batch-promises-with-delay/src/index.js:85-103 | that run calls, in order, k times start/retry/end and then start/success/end |
| DispatcherLemmas.RetryThenSucceedLog | node_modules/batch-promises-with-delay/src/index.js:26-31 | in that run `onRetry` is called k times and `onSuccess` once (for a task among others, see `RetryAmongOthers`) |
| DispatcherLemmas.RetryAmongOthers | node_modules/batch-promises-with-delay/src/index.js:26-31 | a task queued once among any other tasks with other arguments, rejected k times with retryable errors and then resolved: in a run that returns true, the hook calls with its arguments are exactly k `onRetry` calls followed by one `onSuccess` with its result, so `onRetry` is called k times and `onSuccess` once for it, its arguments appear once more among all `onSuccess` calls, and the task ran k + 1 times, whatever the batch size and whatever the other tasks do |
| DispatcherLemmas.AboutCounts | node_modules/batch-promises-with-delay/src/index.js:26-31 | when the hook calls with some arguments grow by k retries and one success, the log holds k more retries and one more such success |
| DispatcherLemmas.AboutSuccessOnce | node_modules/batch-promises-with-delay/src/index.js:11-17 | such a log holds exactly one more `onSuccess` call with those arguments, whatever its result |
| DispatcherLemmas.SuccessesAbout | node_modules/batch-promises-with-delay/src/index.js:11-17 | every `onSuccess` call with some arguments is among the hook calls that mention them |
| DispatcherLemmas.RunTracking | node_modules/batch-promises-with-delay/src/index.js:85-104 | a run that keeps track of the task (its remaining attempts and the hook calls so far) and returns has made all its attempts with their hook calls |
| DispatcherLemmas.PassTracking | node_modules/batch-promises-with-delay/src/index.js:85-98 | a completed pass keeps track of the task: it is re-queued with one more retry logged, or done with its success logged |
| DispatcherLemmas.TrackEffect | node_modules/batch-promises-with-delay/src/index.js:88-97 | a completed pass invokes the task once if its batch holds it, pushes it back exactly when that attempt is rejected, pushes back only tasks of the batch, and adds to the hook calls with its arguments the one `onRetry` or `onSuccess` of that attempt |
| DispatcherLemmas.TrackBatch | node_modules/batch-promises-with-delay/src/index.js:88-97 | a batch that holds the task calls `onRetry` or `onSuccess` for it once, as its attempt decides, and no other task hook with its arguments |
| DispatcherLemmas.BatchTimes | node_modules/batch-promises-with-delay/src/index.js:88-92 | a batch that is not aborted invokes each of its tasks once more for each time it holds it |
| DispatcherLemmas.BatchRequeuedT | node_modules/batch-promises-with-delay/src/index.js:93-97 | a batch that holds the task once, whose rejections the retry rule accepts, pushes it back exactly when its attempt is rejected |
| DispatcherLemmas.BatchAboutT | node_modules/batch-promises-with-delay/src/index.js:88-92 | the only hook calls of a batch with the task's arguments are the one call for the task itself |
| DispatcherLemmas.RetryStep | node_modules/batch-promises-with-delay/src/index.js:85-103 | the first pass of that run retries the task, or completes it when k is 0, and uses up one attempt |
| DispatcherLemmas.SingleTaskPass | node_modules/batch-promises-with-delay/src/index.js:85-98 | a pass over a lone task that resolves or is retried |
| DispatcherLemmas.SingletonBatch | node_modules/batch-promises-with-delay/src/index.js:88-92 | a batch of one non-fatal task |
| DispatcherLemmas.UnhandledFailureRejects | node_modules/batch-promises-with-delay/src/index.js:41-49 | with no retry and no failure handling, a rejected first task rejects the run with the same error |
| DispatcherLemmas.DefaultsRejectOnFailure | node_modules/batch-promises-with-delay/src/index.js:62-74 | without options, a rejected task rejects the run |
| DispatcherLemmas.NonPositiveBatchSizeNeverDrains | node_modules/batch-promises-with-delay/src/index.js:85-87 | with a batch size of zero or less, `splice` takes nothing and the queue never drains |
| DispatcherSettled.SettledItem | node_modules/batch-promises-with-delay/src/index.js:11-54 | a task whose attempt completes or has its failure suppressed calls no `onRetry`, and no `onFailure` when there is none |
| DispatcherSettled.SettleBatch | node_modules/batch-promises-with-delay/src/index.js:88-92 | a batch of such tasks settles every one of them, with one outcome per task, and calls no `onRetry`, and no `onFailure` when there is none |
| DispatcherSettled.RequeuedSettled | node_modules/batch-promises-with-delay/src/index.js:93-97 | a batch whose outcomes all settled pushes nothing back |
| DispatcherSettled.SettledSequential | node_modules/batch-promises-with-delay/src/index.js:88-97 | the queue run task by task, when every attempt settles, ends without a fatal outcome, pushes nothing back, invokes each task once per occurrence, calls no `onRetry`, and calls no `onFailure` when there is none |
| DispatcherSettled.BatchShift | node_modules/batch-promises-with-delay/src/index.js:88-92 | a batch run after earlier outcomes appends to them exactly what it produces on its own |
| DispatcherSettled.BatchSplit | node_modules/batch-promises-with-delay/src/index.js:88-92 | running `a + b` is running `a` and then `b` from where `a` stopped, unless `a` ends fatally |
| DispatcherSettled.SequentialSplit | node_modules/batch-promises-with-delay/src/index.js:87-92 | cutting a queue after k tasks and running both parts in turn gives the outcomes, hook calls and invocation counts of running it whole |
| DispatcherSettled.TaskEventsPass | node_modules/batch-promises-with-delay/src/index.js:86-98 | the task hook calls of a completed pass are those of its batch |
| DispatcherSettled.TaskEventsKeep | node_modules/batch-promises-with-delay/src/index.js:86-98 | dropping the batch hook calls keeps the `onSuccess` calls, the `onFailure` calls and the problem count |
| DispatcherSettled.SettledStep | node_modules/batch-promises-with-delay/src/index.js:85-103 | the first pass of a settling run takes one batch, settles it, leaves the rest of the queue, and uses one of the batches the queue needs |
| DispatcherSettled.SettledRun | node_modules/batch-promises-with-delay/src/index.js:85-104 | when every attempt completes or has its failure suppressed and no batch hook throws, the run returns true after exactly ceil(M / batchSize) batches, with the task hook calls and invocation counts of the queue run task by task |
| DispatcherSettled.SettledRunHooks | node_modules/batch-promises-with-delay/src/index.js:85-104 | in such a run nothing is retried, each task is invoked once per occurrence, and without `onFailure` no failure hook is called |
| DispatcherSettled.ResolvedRejectedSplit | node_modules/batch-promises-with-delay/src/index.js:11-54 | every queued task counts once, as resolving or as rejected |
| DispatcherSettled.SettledCall | node_modules/batch-promises-with-delay/src/index.js:11-54 | a task that resolves adds one `onSuccess` call with its arguments; one that is rejected with a non-retryable error adds one `onFailure` call and one problem when there is an `onFailure`, and nothing under `ignoreFailures`; neither is fatal |
| DispatcherSettled.SettledCalls | node_modules/batch-promises-with-delay/src/index.js:88-92 | a batch of tasks that each resolve or fail calls `onSuccess` for the resolving ones and `onFailure`, when there is one, for the rejected ones, in batch order, and nothing else |
| DispatcherSettled.SettlesMixed | node_modules/batch-promises-with-delay/src/index.js:32-54 | with `onSuccess` returning and failures suppressed, such tasks settle |
| DispatcherSettled.SettledCallsRun | node_modules/batch-promises-with-delay/src/index.js:85-104 | with tasks that each resolve or fail, `onSuccess` returning, failures going to an `onFailure` that returns or dropped under `ignoreFailures`, and no batch hook throwing: the run returns true after ceil(M / batchSize) batches, calls `onSuccess` once per resolving task and `onFailure` (when given) once per rejected task in queue order, retries nothing, and invokes each task once per occurrence |
| DispatcherSettled.SettledLog | node_modules/batch-promises-with-delay/src/index.js:85-104 | the log of such a run holds those `onSuccess` and `onFailure` calls and problems |
| DispatcherSettled.KeepAcross | node_modules/batch-promises-with-delay/src/index.js:86-98 | a log whose task hook calls extend another's gains exactly their successes, failures and problems |
| DispatcherAttempts.AttemptsBatch | node_modules/batch-promises-with-delay/src/index.js:88-97 | a batch that holds the task invokes it once and pushes it back exactly when that attempt is rejected, whatever else the batch holds |
| DispatcherAttempts.AttemptsPass | node_modules/batch-promises-with-delay/src/index.js:85-98 | a completed pass keeps the task queued once with attempts left, or done after k + 1 invocations |
| DispatcherAttempts.AttemptsFinished | node_modules/batch-promises-with-delay/src/index.js:85 | a run that returns without another pass has an empty queue, so the task is done |
| DispatcherAttempts.AttemptsOn | node_modules/batch-promises-with-delay/src/index.js:85-103 | one pass either ends the run or leaves a state in which the task is still accounted for |
| DispatcherAttempts.AttemptsRun | node_modules/batch-promises-with-delay/src/index.js:85-104 | a run that returns has invoked the task all k + 1 times |
| DispatcherAttempts.RetryInvocations | node_modules/batch-promises-with-delay/src/index.js:26-31 | a task queued once among any other tasks, including tasks with the same arguments, rejected k times with retryable errors and then resolved: a run that returns true invoked it exactly k + 1 times, whatever the batch size and whatever the other tasks do |
| DispatcherScenarios.PassOf | node_modules/batch-promises-with-delay/src/index.js:85-98 | a pass whose batch is the head of the queue and completes removes the batch, pushes back its retried tasks, and logs its hook calls between the batch markers |
| DispatcherScenarios.BothResolveBatch | node_modules/batch-promises-with-delay/src/index.js:11-17 | a batch of two resolving tasks completes both, calls `onSuccess` for each in order, and invokes each once more |
| DispatcherScenarios.ResolveRetryBatch | node_modules/batch-promises-with-delay/src/index.js:11-31 | a batch whose first task resolves and whose second is rejected retryably completes the first, retries the second, and calls `onSuccess` then `onRetry` |
| DispatcherScenarios.AloneBatch | node_modules/batch-promises-with-delay/src/index.js:88-92 | a batch of one non-fatal task has that task's outcome and hook calls |
| DispatcherScenarios.BothResolve | node_modules/batch-promises-with-delay/src/index.js:85-98 | a pass over two resolving tasks leaves the rest of the queue and logs two successes |
| DispatcherScenarios.ResolveThenRetry | node_modules/batch-promises-with-delay/src/index.js:85-98 | a pass over a resolving then a retried task moves the retried task to the back of the queue |
| DispatcherScenarios.RetryAgain | node_modules/batch-promises-with-delay/src/index.js:85-98 | a pass over a lone retried task leaves it alone in the queue |
| DispatcherScenarios.ResolveLast | node_modules/batch-promises-with-delay/src/index.js:85-104 | a pass over a lone resolving task empties the queue and the run returns true |
| DispatcherScenarios.PairedPasses | node_modules/batch-promises-with-delay/src/index.spec.js:217-246 | the first three batches of that test are `[s, s]`, `[s, r]` and `[s, s]`, and leave `r` alone in the queue |
| DispatcherScenarios.LonePasses | node_modules/batch-promises-with-delay/src/index.spec.js:217-246 | the last three batches are `r` alone: two more retries, then its success |
| DispatcherScenarios.SixBatches | node_modules/batch-promises-with-delay/src/index.spec.js:217-246 | tasks `[s, s, s, r, s, s]` in batches of two, `r` rejected three times then resolving: the run returns true after six batches, `[s, s]`, `[s, r]`, `[s, s]`, `[r]`, `[r]`, `[r]`, with that exact sequence of hook calls (six successes, three retries, no failure), `s` invoked five times and `r` four |

## Left out

- Concurrency: `Promise.all` starts all tasks of a batch at once. The model runs them one after another in batch order. A fatal outcome stops the batch in the model, so the tasks after it are not started and their hooks are not called. In the code, every task of the batch keeps running after `Promise.all` rejects.
- `sleep(delayBetweenBatches)` and the clock: the delay has no effect on the order of events or on the outcome. Only the configured value is kept, in `Dispatcher.Configure`.
- `Dispatcher.RunFrom` and `Dispatcher.Run`: they are bounded by a `fuel` number of passes, because the code's loop has no bound (retries are unbounded). `OutOfFuel` is a model artefact: `Dispatcher.Run` stops with it, and the queue left over, after `fuel` passes of its loop. The lemmas about complete runs require enough fuel.
- The batch hooks take the number of batches already started as an argument, so that a hook's behaviour can depend on which batch it closes. The code calls `onBatchStart()` and `onBatchEnd()` with no arguments.
- `batchSize` is an integer in the model. JavaScript's `splice(0, batchSize)` truncates a fractional batch size and takes the whole queue for `Infinity`; neither case is modelled.
- DispatcherLemmas.RetryAmongOthers: hook calls are attributed to a task by its argument list, as the hooks receive only `args`. Its clauses about hook calls therefore require the other queued tasks to have different arguments. The invocation count alone is proved for any queue by `DispatcherAttempts.RetryInvocations`.
- DispatcherSettled.SettledCallsRun: each task is taken to resolve on every invocation or to be rejected on every invocation. The run invokes each task once per occurrence, so this only fixes the kind of answer a task gives; a task whose answer changes between queue occurrences is covered by `DispatcherSettled.SettledRun`, which does not count the `onSuccess` and `onFailure` calls.
- JavaScript truthiness: options are taken as given or left out. A falsy value that is not `undefined` (`null`, `0`) does not fall back to the default. A task rejection with a falsy reason is not modelled.
- A task function that throws synchronously instead of returning a rejected promise is not modelled separately: the call `func(...args)` sits inside the `try` block (index.js:11-12), so a synchronous throw reaches the same `catch` as a rejection.
- Console output (all `console.log`, `console.error` and `print` calls) is left out. Only the reports and the exit status of the checker are kept.
- File I/O: the contents of `emails.txt`, `good.txt` and `dead.txt` are parameters, and what is written is a result.
- The DNS resolver (its 5000 ms timeout and 4 tries) is left out. The answer to a lookup is a parameter `lookup: string -> MxLookup`.
- `tldextract` is left out: it is the parameter `extract`.
- The module-level `count` in the pruner is never used and is left out.
- Prune.Lists.CheckAll: it runs the domains in list order, as the dispatcher does. When lookups overlap in time, the code appends to the lists in completion order instead.
- `pruner.py` and `linting/index.js` are not part of this model.
- Strings: `lower()` and whitespace are modelled for ASCII only. Unicode case mapping and Unicode whitespace are left out.
- Strings.ReadLines: only `\n` ends a line. Python's universal-newline translation of `\r\n` and `\r` on read is left out.
- Prune.Lists.Saved: it has no contract of its own. What it writes is described by Prune.SavedListsReadBack, stated on the joined lists.
