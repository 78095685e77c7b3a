# Verified model of the lock, the compilers and the concurrency helpers

This project models the parts of the repository whose correctness is hard to read off the code, and proves what the
code, its comments and its tests promise about them. Every theorem is for all inputs, all runs and all interleavings
of its model. Where the code does not keep a promise, a lemma gives an input that shows it, and another states exactly
when it does.

- **The file lock** (`FileSystem`, `FileLock`, `FileLockSafety`, `FileLockExclusion`, `FileLockFence`,
  `FileLockReclaim`, `FileLockProgress`, `FileLockErrors`, `FileLockTombs`, `FileLockCode`). A state machine of single
  system calls: any number of processes, each with a StaleAfter of its own, any interleaving, calls that fail, writes
  that are cut short, processes that crash, an operator who clears a dead holder's record, a clock that jumps, and host
  crashes that roll each directory entry back to some version since the last directory fsync. `FileLockCode` is Acquire
  and release as they are written, loops and early returns included. It sees only the replies of its own system calls,
  and is proved to make exactly the machine's calls whatever everybody else does in between, so the theorems about runs
  are theorems about that code.
- **The Sheets batch compiler** (`Numbers`, `A1Notation`, `BatchWriter`): what a list of range updates writes into a
  grid is defined independently of how the list is built, by reading the range strings back.
- **The build stamp** (`Words`, `BuildStamp`): printer, parser and verdict.
- **The slog handler** (`SlogHandler`): derivation chains over any inner handler, with the steps as Go slices.
- **The async runner and the batch buffer** (`AsyncRunner`, `AsyncRunnerCode`, `BatchBuffer`): machines over critical
  sections and channel operations, and the code that runs in them.
- **The retry transport and the backoff** (`RetryTransport`, `Backoff`): response ownership over any script of
  outcomes, and 64-bit arithmetic that wraps.
- **Schema diff and redaction** (`DataDiff`, `PrivacyFilter`).

## What is assumed

- `link` is atomic and refuses an existing target, `rename` is atomic and replaces its target, a temporary name is
  fresh, and every claim attempt writes bytes that differ from every other record's (process id and nanosecond stamp);
  one serial number stands for both kinds of freshness. An open handle reads one file: open, fstat and read of a
  published record are one step. Inode numbers are reused freely once no name refers to them.
- After a host crash each name is bound as in some version of the directory since its last fsync, independently of
  other names, and unsynced content may be lost. A record that was being moved can therefore lose both its names, or
  come back under the lock name; the account of records says so and holds of every run. The content comes from the
  same version as the name, even when the inode number has been used for another file since the last fsync. That a
  restored lock name holds a whole record, and a restored counter the value it had, rests on this.
- The base transport returns no response beside an error. A stream that GetBody opens is a new one.
- Task ids and insert-id process prefixes do not collide. No task, and no Error method of an error it returns, calls
  `runtime.Goexit`, and a value a task panics with can be printed. Cancelling a context and closing its Done channel
  are one step.

## Where the code and its documentation disagree

- `filelock.go:133-135` and `doc.go:23-29` say that fences are never repeated and always rise. With reclaim on, at any
  age and even for one process only, two overlapping occupancies can be handed the same fence (`ReclaimCanShareAFence`).
  The promise holds of all runs that do not read the counter at its maximum exactly when reclaim is off for every
  process (`FencesIncreaseExactly`); at the maximum the next fence is 0 (`CounterWrapsToZero`). With reclaim on it
  holds of every such run in which no reclaim catches a live occupancy's record, be it one judged stale too early or
  one that took a stale record's place before the rename (`SparingRunsKeepFences`).
- `doc.go:16-22` says that a release removes only its own record. With reclaim on, at any age, a holder overtaken
  between the check and the remove of its release removes its successor's (`ReleaseCanRemoveSuccessor`). The promise
  holds of all runs exactly when reclaim is off for every process (`ReleasesOwnExactly`), and a holder whose record
  was reclaimed before its release checked never removes anything (`ReclaimedHolderRemovesNothing`).
- `doc.go:30-32` says that a failed acquisition leaves the window as it was found. An acquisition that fails after its
  record was published looks at the record and removes it; when the look or the remove fails, the record stays and the
  window looks held (`UndoRemovesExactly` says when).
- `doc.go:43-46`, `doc.go:161-164` and `filelock.go:39-45` say that a set-aside file that persists is evidence of a
  reclaim that raced a live claim. One can be left with a single claim ever made and its holder dead, when the removal
  of the judged record fails (`LeftoverWithoutRace`). `SetAsideFilesExplained` says what such a file can be in every
  reachable state; of those, only a preserved record was reported by an error.
- `async.go:275-304` gives the slot back in a deferred call and records a panic of the task function. When the
  function returns an error whose Error method panics, line 313 panics with the mutex held, the recovering call waits
  for that mutex for ever, and with it every later Submit, Get, List and Prune (`SilentErrorStopsRunner`); the same
  happens when the Error method never returns. The slot comes back exactly when the error can tell its text
  (`SlotComesBackExactly`).
- `transport.go:180-183` says that a well-formed Retry-After wins, capped. A value above 9223372036 seconds overflows
  the duration, and 9223372037 gives a negative delay, that is, no wait (`SecondsExactWhenTheyFit`, `WaitIsCapped`).
- The overflow guard of `retry.go:82` overflows itself for one pair, base 1 with the largest cap (`GuardedIsExact`),
  and the unguarded form of `go/retry/retry.go:74` turns negative for ordinary ones (`UnguardedCanBeNegative`).
- `DiffColumns` is not symmetric, nor reflexive, on a schema that gives one path two types (`MatchCanBeOneSided`);
  `MatchExactly` says when it reports a match for all schemas.

## Model

| member | source | states |
|---|---|---|
| FileLockExclusion.MutualExclusion | go/platform/coordination/filelock/filelock.go:147-180 | with StaleAfter unset, in every reachable state, crashes and failed calls included, at most one occupancy is between its link and its remove, and the lock name is bound to that occupancy's own inode and bytes |
| FileLockExclusion.ExclusionKept | go/platform/coordination/filelock/filelock.go:241-328 | the invariant behind it is kept by every run from any state that has it |
| FileLockExclusion.OneInside | go/platform/coordination/filelock/filelock.go:210-219 | two processes cannot both be inside with their own record at the one lock name |
| FileLockExclusion.LiveExclusion | go/platform/coordination/filelock/doc.go:47-53 | with reclaim on at any age: in every run whose reclaims catch no live occupancy's record, at most one live process is inside at a time, and the lock name is bound to its own record |
| FileLockExclusion.ReclaimOffSpares | go/platform/coordination/filelock/filelock.go:399-402 | with StaleAfter unset no reclaim ever catches a record, so those results hold of every run |
| FileLockExclusion.ReleasesOwnOnly | go/platform/coordination/filelock/doc.go:16-22 | in every such run each record removed by a release was the releasing occupancy's own |
| FileLockFence.FencesIncrease | go/platform/coordination/filelock/filelock.go:362-389 | with StaleAfter unset, the fences handed out strictly increase in order of entry in every run that never reads the counter at 2^64-1, across failed acquisitions, crashes, operator clears and host crashes |
| FileLockFence.SparingRunsKeepFences | go/platform/coordination/filelock/doc.go:23-29 | with reclaim on at any age: as long as no reclaim catches a live occupancy's record and the counter is never read at 2^64-1, fences strictly increase and the process inside holds the last one handed out |
| FileLockFence.WrappedExactly | go/platform/coordination/filelock/filelock.go:375-379 | a run is marked, and stays so, if and only if some acquisition in it has read the counter at 2^64-1 |
| FileLockFence.CounterFenced | go/platform/coordination/filelock/filelock.go:585-605 | the rename and the directory fsync that publish a counter keep every version of the directory a host crash may restore at or above the last fence handed out |
| FileLockProgress.CounterWrapsToZero | go/platform/coordination/filelock/filelock.go:375-379 | an undisturbed occupancy that reads 2^64-1 is handed fence 0, so the order is lost exactly there |
| FileLockProgress.ReclaimCanShareAFence | go/platform/coordination/filelock/filelock.go:131-135 | as soon as one process has StaleAfter above zero there is a run from an unused store, not reaching the counter's maximum, in which two occupancies are both handed fence 1 |
| FileLockProgress.FencesIncreaseExactly | go/platform/coordination/filelock/filelock.go:131-135 | all unwrapped runs from all unused stores hand out increasing fences if and only if StaleAfter is unset for every process |
| FileLockProgress.ReleaseCanRemoveSuccessor | go/platform/coordination/filelock/filelock.go:318-328 | as soon as one process has StaleAfter above zero there is a run in which the release of one claim has removed the record of another, whose process is alive and inside |
| FileLockProgress.ReleasesOwnExactly | go/platform/coordination/filelock/doc.go:16-22 | in all runs from all unused stores releases remove only their own records if and only if StaleAfter is unset for every process |
| FileLockProgress.ClaimSucceeds | go/platform/coordination/filelock/filelock.go:241-284 | from any state with the lock name free, an undisturbed claim binds it to a complete, synced record of its own and leaves no temporary name |
| FileLockProgress.ClaimRefused | go/platform/coordination/filelock/filelock.go:266-275 | with the lock name bound, an undisturbed claim is refused, changes no name and goes on to judge the record |
| FileLockProgress.AdvanceSucceeds | go/platform/coordination/filelock/filelock.go:365-389 | an undisturbed rewrite binds the counter's name to the next value, synced, and hands exactly that value out |
| FileLockProgress.FenceHandedOut | go/platform/coordination/filelock/filelock.go:362-389 | an undisturbed occupancy is handed 1 when there is no counter, one more than the counter otherwise, and 0 after 2^64-1, and the counter is that fence from then on |
| FileLockProgress.StaleRecordReclaimed | go/platform/coordination/filelock/filelock.go:399-458 | an undisturbed reclaim of a record past the reclaimer's age frees the lock name, leaves every other name as it was and leaves no set-aside file |
| FileLockProgress.WaitsAndTriesAgain | go/platform/coordination/filelock/filelock.go:165-180 | a waiter with nothing to reclaim (StaleAfter unset, record gone, unreadable, no claim, or not older than that) touches nothing, waits, and begins its loop again |
| FileLockProgress.GoneBeforeSetAside | go/platform/coordination/filelock/filelock.go:434-446 | a waiter that finds the judged record gone before its rename drops the name it reserved, touches nothing else and waits |
| FileLockProgress.CaughtRestored | go/platform/coordination/filelock/filelock.go:456-470 | a waiter that has caught another record than the one it judged puts that record back at the free lock name, drops the set-aside name and waits |
| FileLockSafety.EveryRunSafe | go/platform/coordination/filelock/filelock.go:147-180 | the structural invariant (who owns which name, what each process may assume of its files) holds in every reachable state |
| FileLockSafety.LockNeverPartial | go/platform/coordination/filelock/filelock.go:211-218 | in every reachable state, and after a host crash in any of them, the lock name is unbound or bound to one complete claim record |
| FileLockSafety.UntouchedBy | go/platform/coordination/filelock/filelock.go:472-489 | no call of a process changes a name that is not the lock name, the counter's or one of that process's own temporary names |
| FileLockReclaim.ReclaimDestroysOnlyStaleRecords | go/platform/coordination/filelock/filelock.go:412-470 | in every run, at any StaleAfter: every record ever published is at the lock name with its inode and bytes, or under a set-aside name with them, or was released or cleared, or lost its name in a host crash, or was removed by a reclaimer that had judged it older than its own StaleAfter; in a run without a host crash none is lost |
| FileLockReclaim.PreservedWasReported | go/platform/coordination/filelock/filelock.go:450-465 | every record a run leaves set aside for good was reported: a step of the run ended the Acquire of the process that had caught it with the error that names where it is |
| FileLockReclaim.PreservedIsReported | go/platform/coordination/filelock/filelock.go:450-465 | a record becomes set aside for good by a call of the process that had caught it only, and that call ends its Acquire with the error |
| FileLockReclaim.SettledStays | go/platform/coordination/filelock/filelock.go:434-470 | what became of a record is decided once: reclaimed, released, cleared and preserved records stay so, unless a host crash brings the record back to the lock name or takes its name away |
| FileLockReclaim.ReclaimedHolderRemovesNothing | go/platform/coordination/filelock/filelock.go:309-328 | a holder that is inside, its record removed by a completed reclaim and its release not past its check, removes nothing in any later state of any run, even if its inode number belongs to a successor by then, and whatever host crashes bring back |
| FileLockReclaim.EveryRunReleasedGone | go/platform/coordination/filelock/filelock.go:318-328 | in every run an occupancy whose release has removed a record is over: no process is inside with its claim or about to publish it |
| FileLockTombs.SetAsideFilesExplained | go/platform/coordination/filelock/filelock.go:434-489 | in every reachable state a set-aside file belongs to a reclaimer at work or crashed, or was there before the run or after a host crash, or was reserved and never used, or is the second name of a record that was put back, or holds a listed record that was preserved or was judged stale and could not be removed |
| FileLockTombs.LeftoverWithoutRace | go/platform/coordination/filelock/doc.go:161-164 | as soon as one process has StaleAfter above zero there is a run with one claim ever, its holder dead, that leaves a set-aside file nobody is at work on |
| FileLockProgress.UndoRemovesExactly | go/platform/coordination/filelock/filelock.go:276-328 | an acquisition that fails after its link ends with its error and leaves its record at the lock name if and only if the record is there and the look at it or its removal fails; no other name changes |
| FileLockProgress.ReleaseFreesExactly | go/platform/coordination/filelock/filelock.go:304-328 | a release frees the lock name if and only if the releaser's own record is there and neither the look nor the removal fails; no other name changes, and the occupancy is over either way |
| FileLockErrors.NoFaultNoError | go/platform/coordination/filelock/filelock.go:147-180 | in every run, an Acquire none of whose own calls that matter fails never ends in StaleLock, LostAside, ClaimFailed or GaveUp whatever the others do; in FenceFailed only after reading a counter that is no 64-bit number, and in TwoInside only after meeting another claim at the lock name |
| FileLockErrors.FailedCallIsReported | go/platform/coordination/filelock/filelock.go:241-470 | a failing call of staging, linking, syncing, the counter, the rename, the stat, the restore or the wait decides the error its Acquire ends in, whatever happens afterwards |
| FileLockReclaim.EveryRunAccounted | go/platform/coordination/filelock/filelock.go:434-489 | the account of every published record, and of every version of the directory a host crash may restore, is kept by every run |
| FileLockReclaim.CheckFails | go/platform/coordination/filelock/filelock.go:345-360 | the check of identity and bytes succeeds only for a record that is accounted as still at the lock name: for no record that was ever removed or set aside |
| FileLockCode.StepIsOneCall | go/platform/coordination/filelock/filelock.go:241-605 | every step of the machine does to the directory what its one system call does, and goes on by nothing but that call's reply and the clock |
| FileLockCode.World.Do | go/platform/coordination/filelock/filelock.go:545-634 | a system call made while others run arbitrarily is one step of the machine, and its caller learns the reply only |
| FileLockCode.Store.Claim | go/platform/coordination/filelock/filelock.go:241-284 | makes exactly the machine's calls for staging, stat, link, remove, directory fsync and undo, and returns its record, "already claimed" or an error as the machine ends inside, judging or idle |
| FileLockCode.Store.ReleaseOwn | go/platform/coordination/filelock/filelock.go:322-328 | removes the lock name only after the check of identity and bytes, and ends outside either way |
| FileLockCode.Store.WriteAtomic | go/platform/coordination/filelock/filelock.go:585-605 | stages, syncs, renames and syncs the directory in this order, or removes its temporary file and fails |
| FileLockCode.Store.AdvanceFence | go/platform/coordination/filelock/filelock.go:365-389 | starts at 1, adds one in 64 bits, fails on a counter it cannot read or parse, and returns the fence the machine holds |
| FileLockCode.Store.Enter | go/platform/coordination/filelock/filelock.go:296-307 | hands out the window only with a fence; without one it has left the window |
| FileLockCode.Store.Reclaim | go/platform/coordination/filelock/filelock.go:399-410 | does nothing with StaleAfter unset, and otherwise takes aside exactly the records that read as older |
| FileLockCode.Store.TakeAside | go/platform/coordination/filelock/filelock.go:434-470 | follows the machine from the reserved name through rename, stat, check, remove or restore; an error is returned exactly where the machine ends idle, StaleLock only after a call of this process that failed, and LostAside too in a run from a reachable state |
| FileLockCode.Store.Acquire | go/platform/coordination/filelock/filelock.go:147-180 | for every script of others, replies and polls: returns a record and a fence if and only if the machine ends inside holding them; StaleLock, and in a run from a reachable state ClaimFailed, LostAside and GaveUp, only after a call of this process that failed |
| FileLockCode.Occupancy.Release | go/platform/coordination/filelock/filelock.go:304-306 | the first call runs the release of the machine, every later one changes nothing |
| FileLockCode.InsideMeansAlone | go/platform/coordination/filelock/filelock.go:128-135 | when Acquire has returned with reclaim off, its record is at the lock name, nobody else is inside, and, the counter not having wrapped, its fence is the last handed out and above every earlier one |
| FileLockCode.InsideMeansAloneAlive | go/platform/coordination/filelock/doc.go:47-53 | with reclaim on the same holds among live processes after every run that has caught no live occupancy's record |
| A1Notation.ColIndexToA1 | go/google/workspace/sheets/batch_writer.go:22-37 | terminates for every index and prints the bijective base-26 name; a negative index prints A |
| A1Notation.ColNameReadsBack | go/google/workspace/sheets/batch_writer.go:22-37 | different indices have different names: reading a name back gives its index |
| A1Notation.ColNameReachesEveryWord | go/google/workspace/sheets/batch_writer.go:22-37 | every non-empty word over A-Z is the name of an index |
| A1Notation.ColNamesInOrder | go/google/workspace/sheets/batch_writer.go:22-37 | indices compare as their names do, by length and then alphabetically |
| A1Notation.RangeReadsBack | go/google/workspace/sheets/batch_writer.go:104-197 | every emitted range string reads back to exactly its title, first and last cell, whatever quotes or exclamation marks the title holds |
| A1Notation.TitleReadsBack | go/google/workspace/sheets/batch_writer.go:40-42 | an escaped title reads back to itself, and its end is found whatever follows |
| A1Notation.DoubledAtQuote | go/google/workspace/sheets/batch_writer.go:40-42 | escaping doubles each quote and leaves everything around it |
| A1Notation.RangeExample | go/google/workspace/sheets/batch_writer.go:104-197 | two ranges spelled out, one with a quote in its title |
| BatchWriter.PrepareValueUpdates | go/google/workspace/sheets/batch_writer.go:51-71 | nothing for a missing or empty table, the mixed compilation when some cell is a formula, the single RAW update otherwise |
| BatchWriter.CheckTableHasFormulas | go/google/workspace/sheets/batch_writer.go:73-83 | true exactly when some cell of some row is a formula |
| BatchWriter.BuildMixedModeBatches | go/google/workspace/sheets/batch_writer.go:130-178 | for every ragged table the batches fit their ranges, cover every header and every data position exactly once and nothing else, and write there what the table asks for |
| BatchWriter.BuildMixedColumnBatches | go/google/workspace/sheets/batch_writer.go:183-214 | the runs of a mixed column cover its data rows exactly once, each with the option of its cells |
| BatchWriter.PartitionColumns | go/google/workspace/sheets/batch_writer.go:232-247 | the slices cover the columns in order without gap or overlap, each of one kind, a mixed column on its own |
| BatchWriter.ClassifyColumns | go/google/workspace/sheets/batch_writer.go:251-277 | a column is RAW when it has no formula, FORMULA when it has nothing but formulas and at least one, MIXED otherwise; missing cells count for neither |
| BatchWriter.ExtractSliceValues | go/google/workspace/sheets/batch_writer.go:279-292 | one row per data row, one value per column of the slice, and "" where the row is too short |
| BatchWriter.MixedModeMeaning | go/google/workspace/sheets/batch_writer.go:44-51 | applied to an empty grid, the batches put each header and raw value at its position, "" at missing positions, and write a present cell USER_ENTERED if and only if it is a formula |
| BatchWriter.BuildAllRawBatch | go/google/workspace/sheets/batch_writer.go:85-109 | one RAW update anchored at A1 that writes every header and present cell and no other position |
| BatchWriter.FastPathRefinesMixedMode | go/google/workspace/sheets/batch_writer.go:62-70 | on a table without formulas both paths write the same value with the same option wherever the fast one writes, and the general one writes besides only "" at positions missing from short rows |
| BuildStamp.String | go/platform/buildstamp/buildstamp.go:108-126 | prints the stamp as the specification does, dependencies in ascending order of key, for every order in which a map may be ranged over |
| BuildStamp.PrintedFields | go/platform/buildstamp/buildstamp.go:108-126 | the fields of the printed line, in order: name, version, commit=, dirty=, built= when there is one, then key=value for each dependency, keys ascending |
| BuildStamp.SortedKeysOf | go/platform/buildstamp/buildstamp.go:121 | the keys of the map, each once, in strictly ascending byte order |
| BuildStamp.ParseStamp | go/platform/buildstamp/buildstamp.go:152-194 | takes a line if and only if some prefix of its fields has no "=", every later field has one, every dirty value is true or false and the last commit is not empty; the stamp then holds of each key the last value, and the error of any other line is that of the specification |
| BuildStamp.ParseAccepts | go/platform/buildstamp/buildstamp.go:152-194 | the specification accepts exactly those lines |
| BuildStamp.ParseReflects | go/platform/buildstamp/buildstamp.go:152-194 | an accepted line: name and version are its bare words, commit, dirty, built and each dependency the value of the last field with that key, and there are no other dependencies |
| BuildStamp.ParseRefuses | go/platform/buildstamp/buildstamp.go:152-194 | each error if and only if: no field; the first fault is a bare word after a key=value field, which it names; the first fault is a dirty value, which it names; no fault and no last commit |
| BuildStamp.StampFields.Absorb | go/platform/buildstamp/buildstamp.go:278-301 | each key sets its own field to the value and leaves the others; a dirty value that is neither true nor false is reported and changes nothing |
| BuildStamp.RoundTrip | go/platform/buildstamp/buildstamp.go:145-152 | parsing the printed line of a well-formed stamp gives the stamp back, without its module |
| BuildStamp.RoundTripExactly | go/platform/buildstamp/buildstamp.go:108-194 | and the well-formed stamps are exactly those of which this holds |
| BuildStamp.ParseWellFormed | go/platform/buildstamp/buildstamp.go:152-194 | every stamp that parsing accepts is well formed |
| BuildStamp.ReadStampsReprint | go/platform/buildstamp/buildstamp.go:145-152 | printing a parsed stamp and parsing it again gives the same stamp |
| BuildStamp.Matches | go/platform/buildstamp/buildstamp.go:203-230 | accepts exactly forty hexadecimal digits equal to the commit, clean, with every dependency known and not marked dirty, and otherwise gives the first reason in the documented order |
| BuildStamp.VerdictUnique | go/platform/buildstamp/buildstamp.go:203-230 | a stamp and an expected commit have one verdict only |
| BuildStamp.SameVerdictAfterRoundTrip | go/platform/buildstamp/buildstamp.go:108-230 | a well-formed stamp has the same verdict before and after printing and parsing, and prints to the same bytes again |
| Words.FieldsOfJoin | go/platform/buildstamp/buildstamp.go:153-191 | words joined by single spaces split into the same words |
| SlogHandler.InnerIsRootReplayed | go/slog-gcp/handler.go:44-63 | for every chain of WithAttrs and WithGroup over any inner handler that obeys the slog contract, the fast inner handler equals the recorded steps replayed on the root |
| SlogHandler.FaithfulAttrs | go/slog-gcp/handler.go:176-187 | what WithAttrs does to inner, root and steps keeps them faithful to the calls made |
| SlogHandler.FaithfulGroup | go/slog-gcp/handler.go:191-201 | what WithGroup does keeps them faithful, the empty name included |
| SlogHandler.RecordedFromFirstGroup | go/slog-gcp/handler.go:65-67 | steps are recorded exactly when a group has been opened |
| SlogHandler.ReservedAtRoot | go/slog-gcp/handler.go:144-170 | the replay path writes all that the inner handler would, in order and at the same paths, and one block more: the reserved attributes at the path of the handler that was wrapped |
| SlogHandler.ReservedOnRecord | go/slog-gcp/handler.go:153-157 | the fast path, taken with nothing to inject or no group open, amounts to the same |
| SlogHandler.Handler.WithAttrs | go/slog-gcp/handler.go:176-187 | returns a handler one call further with a steps array of its own, and changes no object that existed before, neither the parent nor a sibling |
| SlogHandler.Handler.WithGroup | go/slog-gcp/handler.go:191-201 | the same for a group; an empty name returns the receiver |
| SlogHandler.Handler.Clone | go/slog-gcp/handler.go:228-244 | copies the steps into a new array with room for one more |
| SlogHandler.Handler.Handle | go/slog-gcp/handler.go:150-170 | for every history of calls and every record, writes the plain chain's attributes with the reserved ones inserted at the wrapped handler's path; the reserved ones are the insert id, when enabled, under its key, and for a trace id that is not empty trace, span id and sampled flag, each with its own value |
| SlogHandler.Handler.ReservedAttrs | go/slog-gcp/handler.go:206-226 | exactly one attribute each for trace (projects/P/traces/T), span id and sampled flag when the trace id is not empty, none otherwise; before them the insert id under its key exactly when enabled |
| SlogHandler.Handler.constructor | go/slog-gcp/handler.go:76-140 | wraps with no calls made, and fixes project, insert id and its key, by default logging.googleapis.com/insertId |
| SlogHandler.InsertIDsDistinct | go/slog-gcp/handler.go:26-37 | two records of a process have the same insert id exactly when their numbers differ by a multiple of 2^64 |
| AsyncRunner.RunningWithinLimit | go/platform/async/async.go:170-186 | with a positive limit, in every run the running tasks number at most the slots taken, which are at most the limit and exactly the tasks that acquired and have not released |
| AsyncRunner.BlocksOnlyWhenFull | go/platform/async/async.go:144-145 | in every run a Submit waits only while the runner is open and every slot is held |
| AsyncRunner.FailsOnlyWhenClosed | go/platform/async/async.go:161-182 | a runner is open until Close, and in every run a task is failed unrun only after a Close, never for the limit or another task |
| AsyncRunner.StartsWhenFree | go/platform/async/async.go:161-186 | on an open runner with a slot free, or without a limit, a submission gets its goroutine by its own steps |
| AsyncRunner.EveryRunSound | go/platform/async/async.go:148-320 | in every run each task's record is the one its place in Submit or execute calls for, and the mutex is held between steps exactly by the task stuck on it |
| AsyncRunner.StepAdvances | go/platform/async/async.go:265-320 | a step leaves a task's record alone, starts a pending one, fails a pending one unrun, or finishes a running one |
| AsyncRunner.ResultsAreFinal | go/platform/async/async.go:265-320 | a finished record never changes again, in any continuation of any run |
| AsyncRunner.RecordTellsOutcome | go/platform/async/async.go:294-319 | in every run, once a task's function has come back its record is still Running or says what came back, for good: Done with the data of a value, Failed with data and text of an error, Failed with the panic value and no data |
| AsyncRunner.GetShowsWholeRecords | go/platform/async/async.go:188-203 | whatever a Get shows in any run is whole: a failed task has its error, a done one its data and no error, any other neither |
| AsyncRunner.PruneKeepsUnfinished | go/platform/async/async.go:220-235 | Prune leaves in the table a task that is pending, running or completed at or after the cutoff, and no other, or everything while the mutex is held for good; every unfinished task is in it before and after |
| AsyncRunner.TaskTable.Prune | go/platform/async/async.go:220-235 | deleting while ranging, in any order, leaves exactly the tasks to be kept and counts those removed |
| AsyncRunner.CalledAtMostOnce | go/platform/async/async.go:275-320 | a task's function is called at most once, and not at all exactly for the failed tasks whose error says the runner was closed first |
| AsyncRunner.SubmitAfterCloseNeverRuns | go/platform/async/async.go:161-168 | a Submit begun after Close never has its function called, however the run goes on, and registers unless the mutex is held for good |
| AsyncRunner.ClosedWhileWaiting | go/platform/async/async.go:144-147 | a task whose Submit is waiting when the runner is closed never has its function called, gets no record but the failure that says so, and gets that by the next step of its Submit unless the mutex is held for good |
| AsyncRunner.SlotComesBack | go/platform/async/async.go:275-304 | a task that holds a slot gives it back by its own steps, to a waiting Submit if there is one, and ends with a final record, whether its function returns a value, panics or returns an error that can tell its text |
| AsyncRunner.SlotComesBackExactly | go/platform/async/async.go:294-319 | from every reachable state a task that holds a slot can give it back, its function coming back with a given outcome, if and only if the outcome is recorded already, or the mutex is free and the outcome, if an error, can tell its text |
| AsyncRunner.SilentErrorStopsRunner | go/platform/async/async.go:308-313 | once a task has returned an error that cannot tell its text and it is being recorded, in every continuation no Submit registers, no Get returns, and no task not yet recorded gives back its slot |
| AsyncRunnerCode.Runner.Submit | go/platform/async/async.go:148-186 | takes the machine's steps for registering, the look at the context, the select with its wait, and failTask; fails whenever the runner was closed before and never on an open one, and hangs when the mutex is held for good |
| AsyncRunnerCode.Runner.Execute | go/platform/async/async.go:275-320 | takes the machine's steps for one task; when it gets through, the record is Done with the data of a value, or Failed with data and text of an error, or Failed with the panic value, stamped with the clock; ends with the mutex and the slot held exactly when it gets to record an error that cannot tell its text |
| BatchBuffer.NothingLostOrReordered | go/platform/async/batch_buffer.go:34-43 | under any interleaving, once no callback is running, the batches delivered and the batches handed back in errors, in the order they were cut, and then the buffer, are exactly the items accepted in lock order |
| BatchBuffer.EveryRunConserves | go/platform/async/batch_buffer.go:68-112 | in every run: the cuts and the buffer concatenate to the items accepted, Add cuts exactly `limit` items and Flush fewer but some, the buffer is below the limit, and each cut is held by one caller or has its fate |
| BatchBuffer.FatesAreFinal | go/platform/async/batch_buffer.go:36-42 | a batch is delivered or returned once, and no later step changes which |
| BatchBuffer.FateTellsResult | go/platform/async/batch_buffer.go:34-43 | in every run a batch is delivered when its callback gives no error, and handed back whole with the error it gives otherwise, for good |
| BatchBuffer.AddTakesItem | go/platform/async/batch_buffer.go:68-88 | in every run Add takes its item in at the end; the item that fills the buffer cuts all of it, for its caller to deliver |
| BatchBuffer.FlushTakesAll | go/platform/async/batch_buffer.go:95-112 | in every run Flush cuts what there is, for its caller to deliver, and does nothing when there is nothing |
| BatchBuffer.BatchBuffer.AddLocked | go/platform/async/batch_buffer.go:69-86 | appends in place, and hands over the array itself when it is full, so that no later Add can write into a cut batch |
| BatchBuffer.BatchBuffer.Add | go/platform/async/batch_buffer.go:68-88 | below the limit keeps the item, at the limit empties the buffer and delivers all of it or returns all of it with the error |
| BatchBuffer.BatchBuffer.Flush | go/platform/async/batch_buffer.go:95-112 | empties the buffer and delivers or returns all of it; does not call back for nothing |
| RetryTransport.Transport.RoundTrip | go/platform/retry/transport.go:98-162 | for every script of outcomes, cancellations and body kinds: one to maxAttempts calls, every one but the last a transient failure or a retryable status with its wait over and the body made anew; PermanentFailure if and only if the last call failed for good, ErrorAfterRetries and StatusAfterRetries only at maxAttempts with the last call's own, Cancelled exactly when its wait was interrupted; each response closed or returned, never both; no stream sent twice; the request left as it was; one wait, of the prescribed length, after each attempt that may be followed by another |
| RetryTransport.NewTransport | go/platform/retry/transport.go:47-65 | at least one attempt is made, and without a test of the status nothing is retried for its status |
| RetryTransport.Transport.EndingUnique | go/platform/retry/transport.go:106-161 | the script leaves no choice: the number of calls and the error of a round trip are determined by it |
| RetryTransport.Transport.TripMeans | go/platform/retry/transport.go:106-161 | the verdicts along a trip mean just that: every call before the last could be repeated, and the last call and the script decide the error |
| RetryTransport.Transport.NonRewindableSentOnce | go/platform/retry/transport.go:107-110 | a body that cannot be rewound is sent at most once |
| RetryTransport.Transport.Attempt | go/platform/retry/transport.go:116-151 | one turn of the loop: goes on exactly after a transient failure or a retryable status with attempts left and the wait not interrupted, ends with the error the outcome calls for otherwise; the response closed unless it is returned, and at most one wait |
| RetryTransport.RewindRequestBody | go/platform/retry/transport.go:77-88 | puts a fresh body in place when the request can make one, and touches nothing otherwise |
| RetryTransport.Transport.OneMoreSent | go/platform/retry/transport.go:106-116 | sending a fresh stream keeps every stream sent at most once |
| Backoff.GuardedIsExact | go/platform/retry/retry.go:66-90 | in wrapping 64-bit arithmetic the guarded delay is min(2^min(max(attempt,0),30) times base, cap) for all positive bases and caps but one pair, for which it is the cap |
| Backoff.ExactMeans | go/platform/retry/retry.go:66-90 | in plain terms: the base, or 100ms for none, doubled per attempt and thirty times at most, up to the cap, or 5s for none |
| Backoff.BackoffMeans | go/platform/retry/retry.go:66-90 | with a modest cap the code computes that delay plus the jitter drawn |
| Backoff.GuardedMonotone | go/platform/retry/retry.go:66-90 | a later attempt never waits less, and never more than the cap |
| Backoff.JitterWithinAFifth | go/platform/retry/retry.go:87-90 | every draw keeps the sum within a fifth above the delay if and only if delay plus largest draw fits 64 bits |
| Backoff.ModestCapNeverOverflows | go/platform/retry/retry.go:66-90 | with a cap of at most five sixths of 2^63-1 nothing overflows, neither the multiplier, nor the guard's sum, nor the product when it is formed, nor the sum with the jitter, and the result is within a fifth above the exact delay |
| Backoff.UnguardedIsExact | go/retry/retry.go:66-78 | the unguarded delay is exact if and only if its product fits or happens to wrap past the cap |
| Backoff.GuardedRefinesUnguarded | go/platform/retry/retry.go:79-86 | wherever the unguarded product fits, both forms agree |
| Backoff.UnguardedCanBeNegative | go/retry/retry.go:66-78 | with base 10s and cap 60s the unguarded delay of attempt 30 is negative, the guarded one 60s |
| Backoff.DefaultSchedule | go/platform/retry/retry.go:92-99 | the documented schedule: 100ms doubling up to attempt 5, then 5s, plus at most a fifth |
| Backoff.SecondsExactWhenTheyFit | go/platform/retry/transport.go:198-210 | a Retry-After in seconds is read exactly if and only if it is at most 9223372036 |
| Backoff.RetryAfterIsHonoured | go/platform/retry/transport.go:184-192 | on 429 and 503 a Retry-After in seconds or as a date is waited out up to 5s, nothing added; any other status or header gets the schedule |
| Backoff.WaitIsCapped | go/platform/retry/transport.go:184-192 | no wait exceeds six seconds; it is non-negative unless a Retry-After overflows, and for 9223372037 seconds it is negative |
| DataDiff.FlattenTo | go/dataquality/datadiff/target.go:63-83 | appending to an accumulator gives the accumulator followed by the preorder list of leaves named by their paths |
| DataDiff.FlattenAll | go/dataquality/datadiff/target.go:92-99 | the leaves of all columns in order |
| DataDiff.LeavesByRoute | go/dataquality/datadiff/target.go:61-99 | flattening lists exactly the childless columns, each once and in document order, under its dotted path and with its own type, mode and position |
| DataDiff.LeafPathsDistinct | go/dataquality/datadiff/target.go:61-83 | with non-empty, dot-free names distinct among siblings, no two leaves of a schema have the same path |
| DataDiff.BadNamesCollide | go/dataquality/datadiff/target.go:64-67 | with an empty name, or with a dot in a name, two leaves can have the same path |
| DataDiff.DiffColumns | go/dataquality/datadiff/diff.go:8-44 | the three lists are the missing and the changed leaves in order, and Match is that all three are empty |
| DataDiff.MissingInOrder | go/dataquality/datadiff/diff.go:17-37 | LeftOnly and RightOnly are exactly the leaves the other side lacks, in their order |
| DataDiff.ChangedInOrder | go/dataquality/datadiff/diff.go:17-37 | TypeDiffs are exactly the left leaves with another type on the right, in their order, the left type on the left |
| DataDiff.IndexColumns | go/dataquality/datadiff/diff.go:46-53 | maps each name to the last column that has it |
| DataDiff.MatchExactly | go/dataquality/datadiff/diff.go:8-44 | for all schemas: Match if and only if both sides give every leaf path the same type and the left gives no path two types |
| DataDiff.MatchIsSameTypes | go/dataquality/datadiff/diff.go:5-8 | for well-named schemas Match is equality of the maps from path to type, and does not depend on which side is left |
| DataDiff.DifferencesExact | go/dataquality/datadiff/diff.go:17-37 | for well-named schemas LeftOnly, RightOnly and TypeDiffs are exactly the differences of the two maps |
| DataDiff.MatchCanBeOneSided | go/dataquality/datadiff/diff.go:12-37 | a schema with two types at one path can match in one direction only, and not even itself |
| PrivacyFilter.Redact | go/discovery/privacyfilter/filter.go:108-139 | with both early exits and the inner break, the result is that of the plain loop over all lines |
| PrivacyFilter.NoPatternNoChange | go/discovery/privacyfilter/filter.go:113-124 | when no pattern occurs in the folded text, the loop over lines would change nothing |
| PrivacyFilter.OccursInSomeLine | go/discovery/privacyfilter/filter.go:113-135 | a pattern without newlines occurs in a text if and only if it occurs in one of its lines |
| PrivacyFilter.RedactedByLine | go/discovery/privacyfilter/filter.go:104-138 | as many lines come out as went in; each is its line unchanged when no pattern occurs in it, else "[REDACTED — contains P]" with the first pattern P that does |
| PrivacyFilter.RedactionIsIdempotent | go/discovery/privacyfilter/filter.go:36-55 | with the default patterns, redacting a redacted text changes nothing |
| PrivacyFilter.MarkerNamesItself | go/discovery/privacyfilter/filter.go:131 | the folded marker of a default pattern contains that pattern and no earlier one, so the line it replaces is left as it is from then on |

## Left out

- Generated code, API clients, OAuth, HTTP middleware, blueprints and subprocess running: foreign calls and plumbing.
- File lock: JSON encoding of records, permissions, error texts, polling durations and the Windows no-op fsync. A
  record is its identity, its stamp and otherwise opaque. A record without a stamp of its own, aged by its
  modification time, is not modelled.
- File lock with reclaim on: a classification of all overlaps; the code does not promise one.
- FileLockCode.Store.Acquire: stated for waits of any finite number of polls and any finite number of short writes; an
  Acquire whose context never ends may wait for ever. A crash of the process itself is a run that stops, which the
  machine covers.
- AsyncRunnerCode.Runner.Submit: a Submit that finds neither a slot nor a closed runner in any finite number of looks
  is reported as still waiting.
- AsyncRunner: List, which only copies, the janitor, which only calls Prune and can hang in it like any caller, the
  order in which a freed slot goes to one of several waiting Submits, and task kinds.
- Sheets: themes, formatting requests, reflection over structs, retries and grid resizing.
- BuildStamp: Get, Short, RequireDeps and the reading of build information.
- SlogHandler: Enabled, the options of NewHandler, project detection, and errors returned by the inner handler.
- RetryTransport: the bytes drained from a body before it is closed, and the text of wrapped errors.
- Backoff.RetryAfterDelay: starts from a header that the standard library has already read as seconds, a date or
  neither.
- Do and DoVal of both retry packages: single loops whose properties are close to the code.
- DataDiff: DiffStats and its tolerances, the Reconciler, SetDiff and ThreeWayDiff.
- PrivacyFilter: shouldSkip and Apply; text is a sequence of code points, so bytes that are not valid UTF-8 are not
  modelled.
