# Verification of jayrun's persistence, timing and lifecycle logic

A Dafny model of the parts of jayrun whose correctness depends on many steps taken together: the transactional
store and the write lane in front of it, timing aggregates, resumable imports, terminal cursors, path segments, the
configuration codec and the lifecycle of the engine supervisor. `dafny verify dfyconfig.toml` checks all of it.

## What is modelled

**The durable store.** `Tables` holds the rows, the hand-maintained counters of the metadata row and `Sound`, what
every committed state satisfies: counters equal row counts and column sums, reference counts equal the contexts that
point there, publications are unique. `Rows` says what one publication or removal does, `Prune` is one retention pass
of at most 128 rows, `Transaction` is one write from admission to commit. `SQLiteBackend` is the backend as a class
whose methods update the tables step by step, with the layout cache, the deferred context totals and the reused
metadata row of the original, proved equal to those functions. The result of `ORDER BY ... LIMIT 1` is the first row
of its rank order (`Totals`). `Persisted` says what one entry, or the sequence of a batch, leaves in the tables and when it is
refused, `Retention` exactly which rows a pass deletes, and `Writes` which batches are published and what then became of
each entry; all three speak of entries and rows, not of the functions that move them.

**Exactly once.** `Ledger` says what a publication may change, `History` follows every run of one store with writes
by anyone, maintenance, attempts that stop before their commit and commits whose acknowledgement is lost or refused, each
with a failure of any class the caller tells apart. `Protocol` adds the lane: batches, retries after failures that are
retried, the maintenance between them, producer rotation, acknowledgements. `Publications` is the combination of adjacent
publications into a batch, `Delivery` the retry loop over the mutable backend, proved to be a run of the protocol.
`LostAnswers` says, over every run, what an acknowledgement is worth.

**The lane's shared state.** `Reservations`, `Barriers` and `Lane` model every region that runs under the lane's
condition as one step: reservations, handoffs, reads, barriers, failures, coalescing, preparation, the end of a batch,
its acknowledgements, settlement, drain. `Acknowledgements` are the callbacks the lane owes and the calls it made.
`LaneRuns` proves what holds over every sequence of steps, `Verdicts` what had failed when a barrier was answered;
`Database` is the object with its fields, whose regions keep all of it. Exact totals, numbers, promises to barriers and
callbacks are kept by every step; the capacity limits are kept apart from them (`Lane.Within`), because one step can
break them.

**Lane and store together.** `Flushing` runs the lane beside the protocol: the batch the lane prepared is the batch that
is offered, and the lane ends it with the answer it got. What a barrier reports is then true of the store's log.

**Paging.** `Paging` is cursor paging over the publication order and the walk that follows the cursors.

**Timing.** `Timing` is Welford's update and the merge of aggregates over real numbers, `Lessons` what a profile says about the
runs it learned. `ProgressHistory` is the
bounded profile cache and the bookkeeping of deltas on their way to the store. `Aggregates` follows the stored row of
one key over every run of the store. `Learning` puts memory, lane and store together: reservations, handoffs and calls of
callbacks are the lane's own steps. `RunTraces`, `CarriedRuns`, `StoredRuns` and `MemoryAndStore` follow every run of a
key from memory through pending deltas and batches into the row. A gap or a discard that follows a lost contribution is a
step of the lane of its own, which may come at once, later or not at all.

**Import, terminal history, segments, codec, supervisor.** `LegacyImport` converts an ordered archive under a
compare-and-swap. `TerminalHistory` is the bounded window with cursors. `Segments` is union-find with path halving and
the marking of a whole graph. `Codec` is the tagged-tree codec of configuration values. `Supervisor` is the start,
failure and shutdown protocol over all interleavings of threads, with failures reported at any time and exceptions
escaping from any shutdown.

Bodies, evidence and encoded snapshots are opaque values with a size, a digest is the value it digests, instants are
microseconds and floats are real numbers. Some large predicates, `Tables.Sound` among them, are stated under a
quantifier whose trigger is a marker (`Look`, `LookAt`, `LookBooks`): their parts enter a proof only where it asks for
them. A marker says nothing about its argument. Proofs `hide` the definitions they do not need.

## Where code and expectation part

* A lane's capacity limits hold as long as a capture settles before its allowance is released. Nothing in `_database.py`
  refuses the other order. `Lane.SettleCaptureWithin` says exactly when the limits survive, and
  `LaneRuns.ReleasedCaptureOverflows` is a sequence of calls that ends with more bytes pending than the limit. It needs
  another thread to release allowance of a reservation during its capture; no caller in the repository does, the recorder
  releases only after its captures (`jayrun/engine/_history.py:628, 630`).
* The constructor of a batch allows 1024 items of a kind while `batch_items` has no upper limit.
  `LaneRuns.BatchesFit` promises a constructible batch up to 1024 items, and `LaneRuns.SingleContextBatches` shows that
  the constructor draws its line there. No run that forms a longer batch is given; `Protocol` says what would follow: its
  publications are acknowledged `False`, nothing is written, and the producer is renewed.
* A publication acknowledged `False` may have been applied. `LostAnswers.WhatAnswersMean`: it was, exactly when some
  attempt on its batch was published and the answer lost, whichever attempt came last. `LostAnswers.FalseButApplied` is a
  run from an empty store whose last attempt never reached the store. `Protocol.ExactlyOnceEndToEnd` promises at most once
  for `False` and exactly once for `True`.
* A failure reported before `start` is not noticed by a `shutdown` that follows: the engine is then stopped with a
  failure. `Supervisor.ForgottenExactly`: that is so exactly when a shutdown before the start met a failure and no report
  came since. When `start` follows instead, the failure ends the start and nothing is lost.
* An exception that leaves a caller's shutdown, or that of a failed start, leaves an engine that is stopping for good, and
  waiters without timeout wait forever. Only the thread that follows a failure report catches it.
  `Supervisor.OrphanedExactly`: a stopping engine has no owner exactly when such an exception escaped.

## Model

| member | source | states |
|---|---|---|
| Tables.TallyPut | jayrun/persistence/_sqlite.py:354-357 | adding or replacing a row moves a counter pair by exactly the row's share |
| Tables.LayoutRefsAdd | jayrun/persistence/_sqlite.py:521-538 | counting one more reference keeps every layout count equal to the contexts that use it |
| Tables.LayoutRefsDrop | jayrun/persistence/_sqlite.py:594-599 | dropping a reference, and the layout with its last one, leaves no unreferenced layout and no dangling reference |
| Tables.SessionRefsDrop | jayrun/persistence/_sqlite.py:592 | removing a context keeps every session count equal to its contexts |
| Tables.UnreferencedSession | jayrun/persistence/_sqlite.py:641-644 | a session with count zero has no stored context, so deleting it breaks no reference |
| Rows.PutSessionSound | jayrun/persistence/_sqlite.py:489-508 | inserting or shutting a session keeps counters, references and publications exact |
| Rows.PutContextSound | jayrun/persistence/_sqlite.py:510-544 | inserting a context with its layout keeps counters, references and publications exact |
| Rows.PutProfileSound | jayrun/persistence/_sqlite.py:574-587 | storing or merging an aggregate keeps them exact |
| Rows.PutCheckpointSound | jayrun/persistence/_sqlite.py:546-556 | replacing an import checkpoint keeps them exact |
| Rows.RemoveContextSound | jayrun/persistence/_sqlite.py:589-599 | any stored context can be removed and the state stays sound |
| Persisted.ContextsStored | jayrun/persistence/_sqlite.py:471-544 | a sequence of contexts is stored exactly if every identity stored or repeated carries the same evidence and every new context has a stored session and a layout nothing contradicts, else a contract error; every new context then has a row with its header, schema, evidence, size and layout, under the next publications in order, its layout is stored, old rows stay and nothing else comes |
| Persisted.SessionStored | jayrun/persistence/_sqlite.py:489-508 | a session is inserted, recognised, shut or refused; a shutdown is recorded with the new evidence and size, and nothing else of a stored session or of another table changes |
| Persisted.ProfileStored | jayrun/persistence/_sqlite.py:574-587 | a delta is stored exactly if it has the stored shape, its merge is countable and fits; its row is the merge, dated now; and which error comes otherwise |
| Persisted.CheckpointStored | jayrun/persistence/_sqlite.py:546-556 | a checkpoint replaces its own row exactly if the true count and size of the ledger stay within the policy |
| Prune.PruneSound | jayrun/persistence/_sqlite.py:601-645 | a retention pass keeps every counter, reference and publication exact |
| Prune.PruneBudget | jayrun/persistence/_sqlite.py:603-645 | a pass deletes at most 128 rows of the four tables and pays for each |
| Prune.PruneRetains | jayrun/persistence/_sqlite.py:604-645 | only expired watermarks go, deleted contexts are a prefix of the time order, no open or referenced session goes, nothing else changes |
| Prune.PruneComplete | jayrun/persistence/_sqlite.py:604-645 | with budget left over, context and profile bounds and age limits hold, no watermark is expired and no idle session is due |
| Prune.PruneContextsPrefix | jayrun/persistence/_sqlite.py:614-622 | the contexts a pass removed all precede the ones it kept |
| Prune.PruneContextsComplete | jayrun/persistence/_sqlite.py:616-620 | the context loop stops with budget left only when nothing is due |
| Retention.ContextsGoWhenDue | jayrun/persistence/_sqlite.py:614-622 | the context loop deletes a context only if it is past its age limit or, with every context not older, exceeds the count or the bytes with their layouts; and every such context while its budget lasts |
| Retention.ProfilesGoWhenDue | jayrun/persistence/_sqlite.py:623-633 | the profile loop deletes a profile only if it was not updated within the age limit or, with all updated later, exceeds the count, bytes or steps; and every such profile while its budget lasts |
| Retention.SessionsGoWhenDue | jayrun/persistence/_sqlite.py:634-645 | the session loop deletes a session only if it was shut or never started, no context of it is stored, and it never started, was shut before the age limit, or exceeds a bound with the sessions kept longer; and every such one while its budget lasts |
| Retention.PassDeletesTheDue | jayrun/persistence/_sqlite.py:601-645 | all of that for a whole pass, expired watermarks included |
| Retention.PassMeetsTheBounds | jayrun/persistence/_sqlite.py:601-645 | with budget left over the rows themselves, counted and summed, are within the bounds, sessions as far as any may be deleted |
| Transaction.WriteOutcomes | jayrun/persistence/_sqlite.py:429-487 | every write leaves the old store with an error, the clocked store with a duplicate receipt, or a publication that passed every ordering check |
| Transaction.WriteKeepsSound | jayrun/persistence/_sqlite.py:386-487 | whatever a write does, the committed state stays sound |
| Transaction.MaintainKeepsSound | jayrun/persistence/_sqlite.py:647-652 | so does maintenance |
| Writes.WriteStores | jayrun/persistence/_sqlite.py:457-485 | after a new receipt every context of the batch is stored as offered, or was due for retention when its content was in; its sessions are recorded, its profiles updated now and its checkpoint replaced, until retention takes them; no other context came, and headers are those of the evidence with the schema of the stored layout |
| Writes.WrittenExactly | jayrun/persistence/_sqlite.py:386-487 | a batch is published exactly if it is admitted, issued within its horizon, next of its producer, continues its import, and can be accommodated |
| Writes.DuplicateExactly | jayrun/persistence/_sqlite.py:434-439 | a duplicate is acknowledged exactly for an admitted batch within its horizon that the watermark covers, with the same content at the watermark itself |
| Writes.RefusedExactly | jayrun/persistence/_sqlite.py:431-456 | otherwise what is out of order, out of its horizon or against its import is a contract error that changes nothing |
| Writes.AdmittedExactly | jayrun/persistence/_sqlite.py:386-427 | nothing is refused before the transaction exactly if items and bytes are within the limits and every entry fits the store and the readers |
| Writes.AdmissionErrors | jayrun/persistence/_sqlite.py:386-412 | a batch too large and a context too large for the store may be retried, a context too large to read may not |
| Writes.CommittedWithinBounds | jayrun/persistence/_sqlite.py:378-384 | what a write publishes and what maintenance commits is within every bound, by the rows themselves |
| Writes.RefusedWhenNothingFits | jayrun/persistence/_sqlite.py:481-484 | a write is refused for the bounds only when its pass ran out of budget, the sessions may not be deleted, or a ledger is full |
| Writes.MaintainedExactly | jayrun/persistence/_sqlite.py:647-652 | maintenance commits its pass exactly if the bounds hold after it, and changes nothing otherwise |
| Writes.EveryRunIsGrounded | jayrun/persistence/_sqlite.py:386-487 | over every run each stored context is the row of an entry of an applied batch, and headers are those of their evidence |
| SQLiteBackend.Backend.Rollback | jayrun/persistence/_sqlite.py:324-343 | a raised error restores the tables as they were |
| SQLiteBackend.Backend.Clock | jayrun/persistence/_sqlite.py:364-367 | the stored clock becomes the later of wall clock and itself |
| SQLiteBackend.Backend.NextPublication | jayrun/persistence/_sqlite.py:359-362 | hands out the next publication number |
| SQLiteBackend.Backend.PutSession | jayrun/persistence/_sqlite.py:489-508 | updates the tables as the session rule says, or fails as it says |
| SQLiteBackend.Backend.AttachLayout | jayrun/persistence/_sqlite.py:521-538 | the in-batch layout memory gives the same answer and the same tables as reading the stored row |
| SQLiteBackend.Backend.PutContext | jayrun/persistence/_sqlite.py:510-544 | inserts a context whose count and bytes are still outside the metadata row; what is stored is said by `Persisted.ContextsStored` |
| SQLiteBackend.Backend.PutContexts | jayrun/persistence/_sqlite.py:471-482 | one deferred metadata update equals updating the totals context by context, for the sequence `Persisted.ContextsStored` speaks of |
| SQLiteBackend.TotalsCommute | jayrun/persistence/_sqlite.py:478-482 | inserting a context neither reads nor disturbs totals that are still to be applied |
| SQLiteBackend.Backend.PutProfile | jayrun/persistence/_sqlite.py:574-587 | stores the delta or its merge, or fails on size, count or step mismatch |
| SQLiteBackend.Backend.PutCheckpoint | jayrun/persistence/_sqlite.py:546-556 | replaces the checkpoint row unless the ledger is full |
| SQLiteBackend.Backend.RemoveContext | jayrun/persistence/_sqlite.py:589-599 | deletes the row, drops its references and deletes a layout at its last one |
| SQLiteBackend.Backend.PruneExpired | jayrun/persistence/_sqlite.py:606-609 | deletes the earliest expired watermarks within the budget |
| SQLiteBackend.Backend.PruneOldContexts | jayrun/persistence/_sqlite.py:612-622 | the loop with the reused metadata row equals the loop that reads it every time |
| SQLiteBackend.Backend.PruneOldProfiles | jayrun/persistence/_sqlite.py:623-633 | the same for profiles, started with the row the context loop ended with |
| SQLiteBackend.Backend.PruneIdleSessions | jayrun/persistence/_sqlite.py:634-645 | the same for sessions |
| SQLiteBackend.Backend.Prune | jayrun/persistence/_sqlite.py:601-645 | the whole pass on one budget |
| SQLiteBackend.Backend.Transact | jayrun/persistence/_sqlite.py:429-487 | one transaction equals its specification, error and table state alike |
| SQLiteBackend.Backend.Write | jayrun/persistence/_sqlite.py:386-487 | a raising write changes nothing, the state stays sound, and the outcome is the one `Writes` characterises |
| SQLiteBackend.Backend.Maintain | jayrun/persistence/_sqlite.py:647-652 | a retention pass of its own, or an error that changes nothing |
| SQLiteBackend.Backend.QueryContexts | jayrun/persistence/_sqlite.py:704-734 | reading one row more than the limit and cutting by bytes gives exactly the specified page |
| Ledger.PublishEffect | jayrun/persistence/_sqlite.py:457-485 | a committed publication advances exactly its own watermark, keeps old contexts or drops them, and changes no other import row |
| History.EveryRunIsConsistent | jayrun/persistence/_sqlite.py:429-487 | over every run, with lost acknowledgements and aborted attempts, the state is sound and the watermarks summarize the applied batches |
| History.NoBatchAppliesTwice | jayrun/persistence/backend.py:180-185 | from an empty store no producer and sequence takes effect twice |
| History.AppliedAtMostOnce | jayrun/persistence/_sqlite.py:434-442 | contiguous sequences make a batch identity unique in the applied batches |
| History.ForgettingIsSafe | jayrun/persistence/_sqlite.py:604-609 | once a watermark was pruned no batch of its producer ever takes effect again, however the wall clock moves |
| Publications.CombinedIncludes | jayrun/persistence/_database.py:913-917 | everything each publication carries is in the batch it is combined into |
| Publications.CombinedSizes | jayrun/persistence/backend.py:219-230 | items and bytes of a combined batch are the sums of its parts |
| Protocol.OfferFits | jayrun/persistence/_database.py:908-931 | the store can refuse the lane's batch for its horizon, its checkpoint or its contents, never for its place or as a conflicting duplicate |
| Protocol.AppliedAsOffered | jayrun/persistence/_database.py:912-931 | what took effect under a publication's batch identity is that batch with its data |
| Protocol.BegunMeans | jayrun/persistence/_database.py:906-918 | a prepared batch is offered next under its producer, or under a new one once half the horizon is over; one that cannot be constructed costs the producer and is acknowledged False, as is one without a prepared publication |
| LostAnswers.WhatAnswersMean | jayrun/persistence/_database.py:908-951 | over every run: a publication told False was applied exactly when some attempt on its batch was published unheard; without one, True means applied and False means not; one without a batch was told False and never applied |
| LostAnswers.FalseButApplied | jayrun/persistence/_database.py:919-931 | a run from an empty store that ends with a publication told False and applied, although its last attempt never reached the store |
| LostAnswers.LossesAre | jayrun/persistence/_database.py:919-931 | the batches published unheard are exactly those some attempt of the run published with its answer lost |
| Protocol.ReachableExactlyOnce | jayrun/persistence/_database.py:908-951 | in a reachable world publications apply at most once, those acknowledged True exactly once |
| Protocol.ExactlyOnceEndToEnd | jayrun/persistence/_database.py:861-951 | over every run of lane and store: at most once, exactly once when acknowledged True, contiguous offers, sound store |
| Delivery.Deliver | jayrun/persistence/_database.py:919-931 | the retry loop is a run of the protocol that answers every publication of its batch: offers with maintenance in between until one is acknowledged, something fails in a class that is not retried, or no attempt is left; committed exactly if the last offer succeeded |
| Paging.PageIsExact | jayrun/persistence/_sqlite.py:704-734 | a page is in order, genuine, at most its limit long and complete up to where it stops |
| Paging.PageIsFull | jayrun/persistence/_sqlite.py:722-734 | a page is within its limit and its bytes, and has a cursor only if there is a next context that exceeds one of them |
| Paging.CursorAccepted | jayrun/persistence/_sqlite.py:672-699 | a cursor is accepted exactly by its own store, for the same filters and scope, at a place the store has reached; where the page then starts |
| Paging.QueryRefused | jayrun/persistence/_sqlite.py:704-708 | a query is a contract error exactly for its limit or its cursor |
| Paging.MatchesExactly | jayrun/persistence/_sqlite.py:713-720 | a context matches exactly if it passes every filter that is set, the time range by its finalization |
| Paging.PageRefused | jayrun/persistence/_sqlite.py:729-730 | with an acceptable cursor a page fails exactly when its first header does not fit |
| Paging.NextPageAccepted | jayrun/persistence/_sqlite.py:690-699 | the store never calls its own cursor foreign, whatever was written or pruned since |
| Paging.RunsKeepContexts | jayrun/persistence/_sqlite.py:386-487 | any run of writes and maintenance leaves old contexts as they were or drops them |
| Paging.WalkEnds | jayrun/persistence/_sqlite.py:731-734 | a walk has no more pages than publications at its start plus two |
| Paging.PageWalk | jayrun/persistence/_sqlite.py:672-734 | in either direction: strictly ordered headers without repeats, none past the first boundary, and at the end every matching context still stored |
| Reservations.ProtectedHeadroom | jayrun/persistence/policy.py:89-90 | while essential reservations and one more fit the protected bytes, that one fits the pending bytes |
| Lane.EssentialsNeverCrowdedOut | jayrun/persistence/_database.py:399-418 | then an essential reservation is granted exactly unless the count, startup or a strict failure forbids it |
| Lane.SettleCaptureWithin | jayrun/persistence/_database.py:451-456 | settling a capture keeps the capacity limits exactly when its allowance was not released meanwhile |
| Lane.DetailRoundTrip | jayrun/persistence/_database.py:420-467 | allowance reserved and released again leaves the lane as it was |
| Lane.ReserveRoundTrip | jayrun/persistence/_database.py:399-418 | capacity reserved and discarded again is free again; only its identity was used up |
| Lane.FailValid | jayrun/persistence/_database.py:377-390 | a recorded failure keeps totals, numbers, promises to barriers and callbacks |
| Lane.AcknowledgeValid | jayrun/persistence/_database.py:939-947 | calling the next callback, which may raise, keeps all of it: once each, with what became of its publication |
| Lane.DrainResolvesEverything | jayrun/persistence/_database.py:972-973 | when the lane drains, every barrier asked for has its verdict, no reader slot is held and every owed callback was called |
| Lane.StartupSucceeds | jayrun/persistence/_database.py:786-798 | startup succeeds exactly if some attempt does and all before it failed in a class that is retried |
| Lane.FinishValid | jayrun/persistence/_database.py:932-936 | ending a batch accounts for each of its numbers and returns its charge exactly, committed or failed |
| Lane.PrepareValid | jayrun/persistence/_database.py:875-905 | a publication that cannot be prepared is lost alone, and the books stay exact |
| Lane.PrepareMeans | jayrun/persistence/_database.py:875-905 | a publication is prepared exactly if it came with content or its builder returned one context, or one profile, within its reservation and the limits, and with that content; a failure is recorded for what is lost and for a reported gap |
| Lane.FinishEndsBatch | jayrun/persistence/_database.py:932-936 | the prepared publications of a batch are committed or lost as a whole, the failure is recorded at the first of them, and exactly its reservations are freed |
| Barriers.WaitingExactly | jayrun/persistence/_database.py:640-651 | a barrier goes on waiting exactly while its numbers are not settled, no failure up to its target is reported to it, and, if it reports nothing, some publication up to it holds its reservation |
| Barriers.AnsweredExactly | jayrun/persistence/_database.py:640-651 | every other barrier is told the first failure or its target, and no verdict given before changes |
| LaneRuns.EveryRunIsValid | jayrun/persistence/_database.py:377-651 | over every sequence of steps, orderly or not: totals are exact, every number is committed, lost or waiting, promises to barriers hold, slots and callbacks are exact |
| LaneRuns.OrderlyRunsStayWithin | jayrun/persistence/_database.py:399-483 | while every capture settles with its allowance still there, the capacity limits hold |
| LaneRuns.StepWithin | jayrun/persistence/_database.py:399-483 | a step keeps the capacity limits exactly when it is not a capture settling more than is left of its allowance |
| LaneRuns.ReservationsAddUp | jayrun/persistence/_database.py:399-483 | over every run pending and detail bytes are the sums over live reservations; within their limits when captures are orderly |
| LaneRuns.BarriersTellTheTruth | jayrun/persistence/_database.py:640-651 | over every run: a reporting barrier that succeeded with target t covers only commits and no failure up to t; reader slots are reads plus barriers |
| LaneRuns.CallbacksAreCalledOnce | jayrun/persistence/_database.py:939-947 | over every run no callback is called twice, each is told whether its publication committed, each owed one was called exactly when its turn came, and all were when the lane is empty |
| LaneRuns.BarrierMeans | jayrun/persistence/_database.py:630-638 | a barrier just asked for waits or is answered, and a success covers everything admitted |
| LaneRuns.KeptHeadroom | jayrun/persistence/_database.py:399-418 | while the protected bytes cover one more essential reservation the pending bytes have room for it |
| LaneRuns.VerdictIsFinal | jayrun/persistence/_database.py:640-651 | a barrier is resolved once |
| Verdicts.VerdictsFitTheirMoment | jayrun/persistence/_database.py:640-651 | over every run a verdict comes with one step and fits what had failed by then: a reporting barrier succeeds only if nothing at all failed up to its target, failures without a number included, and otherwise is told the first failure |
| LaneRuns.CoalescedRun | jayrun/persistence/_database.py:861-871 | a batch takes an adjacent run of publications, none past a read or import, stops only when nothing more may join, and keeps both limits |
| LaneRuns.CoalescedFully | jayrun/persistence/_database.py:861-871 | a batch stops growing only before a read, an import, or a publication that exceeds a limit with it |
| LaneRuns.BatchesFit | jayrun/persistence/_database.py:861-918 | after preparation a batch has an import only alone, at most the items allowed and, with at most 1024 of them, can be constructed; orderly runs keep it within the bytes |
| LaneRuns.SingleContextBatches | jayrun/persistence/backend.py:201-204 | a batch of n single contexts can be constructed exactly for 1 <= n <= 1024 |
| LaneRuns.ReleasedCaptureOverflows | jayrun/persistence/_database.py:433-467 | a sequence of calls, with allowance released before its capture settles, that leaves more bytes pending than the limit |
| Flushing.FlushedIsStored | jayrun/persistence/_database.py:861-951 | over every run of lane and store: what a successful reporting barrier covers, and whatever the lane calls committed, has exactly one entry in the log of the store |
| Flushing.EveryRunIsLinked | jayrun/persistence/_database.py:861-951 | over every such run the lane is valid, the protocol holds, and committed numbers are those acknowledged True |
| Flushing.PreparedMayBegin | jayrun/persistence/_database.py:908-918 | the batch the lane prepared meets every condition under which the protocol offers one |
| Database.Database.OpenStore | jayrun/persistence/_database.py:786-812 | the lane is open after the first success; otherwise the failure is recorded, a tolerant lane goes on without a store if the failure is of a class that is retried, and any other closes |
| Database.Database.SettleBarriers | jayrun/persistence/_database.py:640-651 | exactly the barriers that must wait stay, and every other one is told what became of it |
| Database.Database.RecordFailure | jayrun/persistence/_database.py:377-390 | the first failed number is at most this one, and no reporting barrier that covers it waits any more |
| Database.Database.RecordGap | jayrun/persistence/_database.py:392-397 | a number is spent that can never be committed; books, limits and verdicts given survive |
| Database.Database.Reserve | jayrun/persistence/_database.py:399-418 | the exact condition for a grant, for each refusal and for a gap; with the limits kept and protected bytes to spare, refused only for the count, a failed startup or an earlier failure of a strict lane |
| Database.Database.ReserveDetail | jayrun/persistence/_database.py:420-431 | granted exactly if the reservation is its owner's and the bytes fit both totals, and by exactly those bytes; room for one more essential reservation stays, a refusal changes nothing and a release undoes a grant |
| Database.Database.SettleCapture | jayrun/persistence/_database.py:451-456 | fails exactly for a reservation that is gone and otherwise takes back exactly the excess; the limits survive exactly when the excess is within the allowance held |
| Database.Database.ReleaseDetail | jayrun/persistence/_database.py:458-467 | succeeds exactly within what the owner's reservation has; other reservations and essential bytes stay |
| Database.Database.ReserveCache | jayrun/persistence/_database.py:469-483 | granted exactly on an open lane with a free item and room in both totals, never out of the protected bytes; a refusal changes nothing |
| Database.Database.Discard | jayrun/persistence/_database.py:572-581 | refused exactly for a publication; otherwise the reservation and its charge are gone and no other is touched; with a gap a number is lost |
| Database.Database.Submit | jayrun/persistence/_database.py:583-610 | accepted exactly if the content is valid and fits a batch, the reservation is its owner's, startup did not fail and the content fits the reservation; which error comes in each other case; then queued as it is under the next number |
| Database.Database.Defer | jayrun/persistence/_database.py:485-508 | accepted exactly if the reservation is its owner's, the lane is available, for a profile not closing, and the reservation fits a batch; which error comes otherwise; queued under the next number, a profile's callback owed and not called yet |
| Database.Database.Request | jayrun/persistence/_database.py:612-628 | accepted exactly on an open available lane with a free reader slot; queued reads, the read under way and waiting barriers together stay within the slots |
| Database.Database.AskBarrier | jayrun/persistence/_database.py:630-638 | accepted exactly once the lane opened and a slot is free; the barrier covers what was admitted and waits or has its verdict; a success already given means all of it committed |
| Database.Database.Take | jayrun/persistence/_database.py:834-836 | an idle lane takes the head of its queue, a read to serve or the first publication of a batch, and nothing else; otherwise nothing happens |
| Database.Database.Coalesce | jayrun/persistence/_database.py:861-871 | the loop equals the recursive rule, takes adjacent publications until the next one may not or does not fit to follow, and stays within both limits |
| Database.Database.Prepare | jayrun/persistence/_database.py:874-905 | the next publication is prepared exactly if its content or its builder's is accepted, with that content, and otherwise lost alone; verdicts given, books and limits survive |
| Database.Database.Finish | jayrun/persistence/_database.py:932-936 | the prepared publications are committed or lost as a whole, the release loop frees exactly the reservations of the batch, and each of its numbers is then committed or lost |
| Database.Database.Acknowledge | jayrun/persistence/_database.py:939-947 | a finished batch's next publication is acknowledged; its callback is called, never a second time, with whether it committed; one that raises is recorded |
| Database.Database.SettleBatch | jayrun/persistence/_database.py:948-951 | once all is acknowledged the batch is over: every callback up to the settled number was called and no barrier within it waits; before that nothing happens |
| Database.Database.Drain | jayrun/persistence/_database.py:972-973 | when the lane ends every barrier has its verdict and every owed callback was called |
| Timing.MergeMoments | jayrun/persistence/backend.py:95-104 | a merge adds counts, sums and squares, so it is valid with non-negative deviation |
| Timing.MergeCommutative | jayrun/persistence/backend.py:95-104 | the order of two aggregates does not matter |
| Timing.MergeAssociative | jayrun/persistence/backend.py:95-104 | nor does the grouping of three |
| Timing.StreamedMomentsAreExact | jayrun/engine/progress_history.py:42-55 | the streamed mean and deviation are the exact moments of the completed durations |
| Lessons.RunsAdd | jayrun/engine/progress_history.py:212-221 | learning runs adds to every step exactly the reports on it, observations, completions, skips and failures, their sum and sum of squares, and to the graph its wall times |
| Lessons.LearnedProfile | jayrun/engine/progress_history.py:212-221 | an empty profile that learns runs has for each step and the graph the number of reports of each class and the exact mean and deviation of the completed durations |
| Timing.DeltaIsItsRuns | jayrun/persistence/backend.py:137-142 | merging one delta equals learning its runs |
| Timing.SplitAndMergeIsOneFold | jayrun/engine/progress_history.py:508-532 | however a stream is cut into deltas, merging them gives the single fold |
| Aggregates.ApplyFolds | jayrun/persistence/_sqlite.py:574-587 | whatever one write or maintenance does, the stored aggregate becomes its fold with the deltas the log gained, unless a retention pass drops the row |
| Aggregates.FoldLearns | jayrun/persistence/_sqlite.py:574-587 | the fold of deltas of runs is the profile that learned all those runs |
| Timing.MutableStep.Observe | jayrun/engine/progress_history.py:42-55 | the field-by-field update is the specified one |
| ProgressHistory.TrimmedIs | jayrun/engine/progress_history.py:266-278 | eviction drops a least-recently-used prefix, no more than it must, and never an entry that fits alone at the recent end |
| ProgressHistory.TrimmedExact | jayrun/engine/progress_history.py:266-278 | eviction keeps totals and index exact and surviving profiles unchanged |
| ProgressHistory.Observations | jayrun/engine/progress_history.py:294-353 | accepts exactly the sane report batches and translates each report |
| ProgressHistory.History.ProfileFor | jayrun/engine/progress_history.py:123-142 | the stored profile, marked as used, or empty estimates |
| ProgressHistory.History.CommitContext | jayrun/engine/progress_history.py:144-163 | succeeds exactly on a sane batch that fits the stored profile, and otherwise changes nothing; the returned profile is the stored one and exactly the reports of this run |
| ProgressHistory.History.CommitIteration | jayrun/engine/progress_history.py:165-186 | the same for one iteration, whose reports must cover every step: each step is observed exactly once more |
| ProgressHistory.CachedProfile | jayrun/engine/progress_history.py:212-232 | a cached profile is the profile of the runs it learned since it was admitted |
| ProgressHistory.History.Commit | jayrun/engine/progress_history.py:188-232 | the returned profile is one more run; kept, it is newest in the index and the fold of all its runs since admission, and others are as they were or evicted |
| ProgressHistory.History.Trim | jayrun/engine/progress_history.py:266-278 | evicts while a bound is exceeded |
| ProgressHistory.History.Contribute | jayrun/engine/progress_history.py:461-490 | a run is lost exactly if no delta of its key waits and there is no room or no reservation for one; otherwise the delta of its key, old or new, and no other learns it |
| ProgressHistory.History.Drain | jayrun/engine/progress_history.py:508-537 | every pending delta is handed off under its number as it is, or counted lost when the handoff raises; nothing stays pending, nothing is acknowledged and the books stay exact |
| ProgressHistory.History.Acknowledge | jayrun/engine/progress_history.py:519-529 | the callback subtracts what it was made with, however often it is called; called for a delta in flight, the books stay exact |
| ProgressHistory.AcknowledgedConserved | jayrun/engine/progress_history.py:519-529 | a callback of a delta in flight settles exactly its charge and its runs |
| ProgressHistory.ContributedConserved | jayrun/engine/progress_history.py:461-490 | contributions equal pending plus in flight plus acknowledged plus lost, and bytes stay exact and within the limit |
| ProgressHistory.DrainedConserved | jayrun/engine/progress_history.py:508-537 | a drain forgets no run |
| Learning.EveryHandoffIsCreditedOnce | jayrun/engine/progress_history.py:461-537 | over every run of memory, lane and store: contributions are pending, in flight, acknowledged or lost with exact bytes; a handoff is credited once, exactly when its turn comes in its batch; what is credited as committed has exactly one entry in the log |
| Learning.RunContributed | jayrun/engine/progress_history.py:461-495 | in the engine a run goes to the waiting delta of its key, to a new one exactly if there is room and the lane grants its charge, or is lost |
| Learning.RunLearned | jayrun/engine/progress_history.py:188-232 | and is learned in memory unless its profile is too large to keep |
| Learning.DeltaHandedOver | jayrun/engine/progress_history.py:508-537 | a delta goes to the lane as it is under the next number, with its callback owed, exactly if the lane takes it, and its runs are lost otherwise |
| MemoryAndStore.RunsAreSomewhere | jayrun/engine/progress_history.py:461-537 | over every run, with nothing lost, the runs offered under a key are those of its handoffs in order followed by those that wait, and the stored row is the profile of the runs of the handoffs written so far, count by count and moment by moment |
| MemoryAndStore.MemoryAndStoreAgree | jayrun/engine/progress_history.py:508-532 | over every run from a store without the key: with nothing lost, pending or in flight, a profile memory never gave up is the row of the store |
| LegacyImport.SwapMatches | jayrun/persistence/_sqlite.py:443-456 | passing the compare-and-swap means the importer's state is the durable one |
| LegacyImport.ImportsStayAccurate | jayrun/persistence/legacy.py:325-381 | over every run of importers, rivals and retention: processed counts the rows up to the cursor and equals imported plus skipped, each row was applied once and in order, complete only at the end |
| LegacyImport.CompletedIsFinal | jayrun/persistence/legacy.py:329-330 | a completed import never applies anything again, even after its contexts were pruned |
| LegacyImport.CommitRow | jayrun/persistence/legacy.py:351-381 | one row is committed exactly if it can be converted and its write succeeds; the returned record is then the durable one, one row further |
| LegacyImport.ImportDashboard | jayrun/persistence/legacy.py:351-381 | a returned record is the durable one, complete or advanced by one row per round; an import fails only for another encoding, a malformed row, or its last write |
| TerminalHistory.TerminalHistory.Publish | jayrun/engine/terminal_history.py:122-141 | every publication takes the next number; an eligible summary that fits by itself becomes the last entry after the longest tail of the window that fits with it, any other leaves the window as it was |
| TerminalHistory.TerminalHistory.Read | jayrun/engine/terminal_history.py:143-174 | a page holds exactly the retained summaries between its start and its position, at most as many as asked for, and moves to the end unless it is full; gap exactly when it holds fewer summaries than the numbers it passes |
| TerminalHistory.TerminalHistory.Close | jayrun/engine/terminal_history.py:176-180 | the window is emptied for good |
| TerminalHistory.ChainedReads | jayrun/engine/terminal_history.py:143-174 | chained reads repeat nothing, and report no gap exactly when they returned every publication up to the cursor |
| Segments.Union.Find | jayrun/visualization/_segments.py:17-22 | path halving terminates, returns the root and changes no root |
| Segments.HalveForest | jayrun/visualization/_segments.py:19-21 | pointing a node at its grandparent keeps roots and heights |
| Segments.UnionComponents | jayrun/visualization/_segments.py:24-26 | after a union the roots are the components of one more edge |
| Segments.SameRootIsConnected | jayrun/visualization/_segments.py:17-26 | two nodes have one root exactly when a path of the edges links them |
| Segments.NumberSegments | jayrun/visualization/_segments.py:24-35 | equal segments exactly for path-connected edges, numbered by first edge, groups listing each edge once |
| Segments.NumbersUnique | jayrun/visualization/_segments.py:24-35 | there is only one such numbering, so listing an artifact twice changes nothing |
| Segments.Annotate | jayrun/visualization/_segments.py:13-44 | each artifact's edges carry the number of their component, by first edge, and how many there are; its segments list exactly the edges of each number in order; other edges are left alone |
| Codec.HexRead | jayrun/serialization.py:40-69 | a signed hexadecimal integer is read back |
| Codec.HexadecimalIsExact | jayrun/serialization.py:30-31 | integer texts are exact and charged by their bits, rounded up to digits |
| Codec.EncodesExactly | jayrun/serialization.py:23-52 | encoding succeeds exactly on portable values within depth, nodes and bytes, and charges their cost |
| Codec.CostCounts | jayrun/serialization.py:26-50 | a value costs 16 bytes for every value and key in it, six for every character and one for every hexadecimal digit of an integer |
| Codec.FitsExactly | jayrun/serialization.py:35-52 | a value fits exactly if everything in it is portable and nothing is nested deeper than 64 |
| Codec.DecodesShape | jayrun/serialization.py:55-83 | a value's tree decodes to it within exactly its nodes |
| Codec.AcceptsOnlyShapes | jayrun/serialization.py:55-83 | every accepted tree is the one tree of its value |
| Codec.RoundTrip | jayrun/serialization.py:23-83 | what the encoder accepts decodes to itself with the same nodes to spare |
| Codec.Reencode | jayrun/serialization.py:23-83 | what the decoder accepts encodes to itself unless its value costs too many bytes |
| Codec.PacksExactly | jayrun/serialization.py:108-120 | a list is packed exactly if its keys are different and not negative, its values plain, accepted and fitting, and nodes and bytes suffice for all; the document has every key with the tree of its value, in order |
| Codec.ConfigsRoundTrip | jayrun/serialization.py:108-134 | an encoded list decodes to its keys and values |
| Codec.ConfigsReencode | jayrun/serialization.py:108-134 | a decoded list encodes to the same document within the byte budget |
| Codec.UnpackedKeys | jayrun/serialization.py:128-133 | decoded keys are non-negative and pairwise different |
| Codec.EncodeConfigs | jayrun/serialization.py:108-120 | the loop with its set of seen keys and shrinking budget equals its specification, succeeds exactly on packable lists, and gives the document of the list |
| Codec.DecodeConfigs | jayrun/serialization.py:123-134 | so does the decoding loop |
| Supervisor.Lifecycle | jayrun/engine/supervisor.py:89-499 | over all interleavings, with reports and escapes anywhere: one execution at most, no failure and no owner while running, a failure when failed, waiters exactly while stopping, and then an owner unless its exception escaped |
| Supervisor.OrphanedExactly | jayrun/engine/supervisor.py:363-375 | a stopping engine has no owner exactly when an exception escaped a caller's shutdown or that of a failed start |
| Supervisor.EscapeOrphans | jayrun/engine/supervisor.py:363-375 | a run that ends so |
| Supervisor.LaterRuns | jayrun/engine/supervisor.py:642-663 | the first failure is never overwritten and an engine that began to stop never runs again |
| Supervisor.ForgottenExactly | jayrun/engine/supervisor.py:326-331 | an engine is stopped with a failure exactly when a shutdown before the start met one and no report came since |
| Supervisor.EarlyReportIsForgotten | jayrun/engine/supervisor.py:326-331 | a report and then a shutdown of an engine that never started is such a run |
| Supervisor.StartRefusal | jayrun/engine/supervisor.py:89-98 | no start meets another under way; only an engine that began to stop refuses |
| Supervisor.ClaimMeans | jayrun/engine/supervisor.py:319-357 | the owner is alone; a follower waits for a shutdown under way; Done means stopped; Raise means failed or the runtime's own loop, never a missing runtime |
| Supervisor.ReportMeans | jayrun/engine/supervisor.py:398-413 | after a report the engine neither runs nor counts as stopped, the first failure is kept, and the reporter owns the shutdown exactly if the engine ran |
| Supervisor.StartedMeans | jayrun/engine/supervisor.py:134-143 | a start ends running without failure or owner, or as the only owner of a shutdown |
| Supervisor.StartIsSignalled | jayrun/engine/supervisor.py:101-156 | over all interleavings the start is signalled as over exactly when no thread is in it, whether it ran, failed, or its shutdown was left by an exception |
| Supervisor.ExecutedMeans | jayrun/engine/supervisor.py:494-499 | a finished shutdown leaves no owner, releases waiters, and is failed exactly with a failure |
| Supervisor.AbandonedMeans | jayrun/engine/supervisor.py:427-450 | a shutdown given up leaves a failed engine nobody owns, whose first failure is kept; another shutdown may follow exactly while a runtime is there |
| Supervisor.EngineSupervisor.BeginStart | jayrun/engine/supervisor.py:89-102 | a created engine becomes this thread's to start, a running one returns, refused only once it began to stop; nobody owns a shutdown |
| Supervisor.EngineSupervisor.FinishStart | jayrun/engine/supervisor.py:134-143 | running without failure and owner, or this thread is the only owner of the shutdown and keeps the lifecycle lock |
| Supervisor.EngineSupervisor.ClaimShutdown | jayrun/engine/supervisor.py:319-357 | an owner is alone, a follower's waiters will be released by it, Done and Raise tell the truth about the engine |
| Supervisor.EngineSupervisor.ReportFailure | jayrun/engine/supervisor.py:398-413 | the first failure is kept, the engine no longer runs, and this thread is the only owner exactly if it ran |
| Supervisor.EngineSupervisor.ThreadFailed | jayrun/engine/supervisor.py:427-432 | the shutdown is given up: nobody owns it, waiters are released, another may follow while a runtime is there |
| Supervisor.EngineSupervisor.FinishShutdown | jayrun/engine/supervisor.py:494-499 | nobody owns a shutdown, waiters are released, failed exactly with a failure, which is the one there was |
| Supervisor.EngineSupervisor.ShutdownRaised | jayrun/engine/supervisor.py:445-450 | the same as when the thread could not start, and the lifecycle lock is free |

## Left out

- SQL text, PRAGMAs, schema validation, migration and upgrade, page reclamation, file and journal checks: only the effects on the tables are modelled. File and page statistics in receipts are not.
- Value-limit and redaction checks of records, JSON, base64 and SHA-256: bodies are opaque with sizes, digests and encodings injective. The texts of aggregates and headers enter as size functions.
- IEEE rounding: moments are stated over real numbers, bit equality is not claimed.
- The order among watermarks with equal expiry, which the statement leaves to its index: insertion order is taken.
- Session paging, whose completeness fails because a shutdown gives a session a new publication; single-row reads and profile loading at startup.
- Lifecycle owners, generations and read-only opens of the lane, its failure callback, and which error class a failed read gets.
- The moment between the two regions that end a failed startup, which are one step here; reservations, reads and barriers are refused in it.
- Threads, condition variables, futures and timeouts: every region under a lock is one step, and nothing is claimed about wall-clock liveness.
- Weak references to graphs in the profile cache: only keyed profiles are modelled.
- A drain whose owner was detached: recording the gap then raises and the rest of the drained deltas is not counted. Pending deltas hold live reservations, which keep the lane open, so the model has the owner attached.
- The timing-file format of the importer, the text of issues and evidence, and the conversion of one archive row, which is a parameter.
- The record codec and the JSON envelope with its own size limit. Spellings of integers with underscores or blanks, which Python's parser accepts and the canonical check refuses, are refused by the parser already.
- The coordination of a running shutdown with the runtime loop and its timeouts. Exceptions leave a shutdown between taking it over and its end; one that arrives between two statements of a region under a lock is not modelled.
- A profile callback that raises: `Lane` and `Database` have it, the callback of `ProgressHistory` in `Learning` does not raise.
- Descriptions and details an artifact gets when it has several segments.
- SQLiteBackend.Backend.Prune: requires a sound state, as `Write` and `Maintain` do, where the source would also run on a damaged one; every committed state is sound by `History.EveryRunIsConsistent`.
- ProgressHistory.History.Commit: requires that a timing key's step count is the step count it is called with. Every caller builds the key from the same graph; with another count the source would index a delta of the wrong length.
- ProgressHistory.History.CommitContext: requires the same, for the same reason.
- ProgressHistory.History.CommitIteration: requires the same, for the same reason.
- LegacyImport.ImportDashboard: writes each checkpoint straight to the backend, once; reservation, publication and flush through the lane, and with them a retry, are not part of its loop. `LegacyImport.ImportsStayAccurate` allows lost answers and rivals.
- MemoryAndStore.MemoryAndStoreAgree: takes a store without the key, whose row no retention pass deletes and under which nobody else writes or contributes. With an earlier row the stored aggregate has earlier runs, which memory loads at startup; loading is not modelled.
