# Batch Fabric: a verified model

Batch Fabric is a dynamic-batching scheduler for inference requests. It admits
requests, queues them by a compatibility digest, fills and seals batches under
budgets and weighted fairness, hands batches to workers, and accepts the workers'
reports under epoch and boot fencing. This project models its four hard parts in
Dafny 4.11 and proves what they promise, or exactly when they keep it.

1. **The scheduler and the network around it.** `Scheduler` gives every operation of the
   fabric as a function on its state. `Admission`, `Cancellation`, `Limits`,
   `Joining`, `Sealing`, `Merging`, `Splitting`, `Expiring`, `Handover`, `Reporting`
   and `Local` say what each operation answers and changes on the records themselves,
   without its helpers: both directions of each condition, and what stays. `Engine` is
   the fabric as an object: a class with the fabric's fields, whose methods loop over
   members and candidates and are proved to refine those functions. `Network` puts
   dispatches and honest worker reports in flight around it, to be delivered late,
   repeatedly, in any order or never. `Runs` states what holds of every core run;
   `WideRuns` and `Fences` what still holds when splits, public retries, failing
   executors, reports from drivers and small workers join in. `Service` wraps the
   object so that every sequence of its calls is a core run, with dispatches and
   reports carried as encoded frames. `Departures`, `Smuggling`, `Revival` and
   `Breaches` say exactly where the code leaves the invariants, with runs that get
   there; `Stuck` what an epoch roll leaves behind.
2. **Filling and fairness.** `Choice`, `Fairness`, `Filling` and `FairFill`: the lag
   bound, the order within a tenant, and maximality of one fill; `Wraparound` has a fill
   without the bound. `TickTimes`: deadlines and waiting limits over a tick. `TickEnds`:
   exactly which requests a tick ends.
3. **The byte layer.** `Octets`, `Identity`, `Wire`, `Persistence` and `StateFile` define
   the formats and prove exactly which bytes are accepted; `Layout`, `Saved` and
   `Printed` give them as flat lists of fields; `ByteIO`, `WireIO` and `StateFileIO`
   are the writer and reader objects and the loops that use them. `Snapshot` and
   `Archive` save the scheduler, `Recovery` rebuilds it, `Reload` compares the two,
   `Sizes` measures the file, and `Tangle` and `Overlong` have runs whose state the
   file cannot give back. `Canonical` is the printable form of a descriptor.
4. **SHA-256.** `Sha256Spec` follows FIPS 180-4 (sections 4.1.2, 4.2.2, 5.1.1, 5.2.1,
   5.3.3 and 6.2); `Sha256` is the buffered stream, proved to compute it; `KnownAnswer`
   works out the digest of "abc".

A **core run** consists of submissions, ticks, expiry, cancellation, sealing, merges of
two different batches, dispatches, honest replies, deliveries, local runs whose executor
answers for members only, epoch rolls and registrations. When it ticks, each live worker
takes any number of members, or at least a non-zero `max_requests`; the limits themselves
are arbitrary. A **wide run** drops that and adds splits, public retries of any request,
executors that fail and reports sent by a driver for any members.

`Scheduler` states carry the orders in which unordered containers are walked as an
argument (a `Plan`), so each theorem about a tick holds for every order. Identifiers and
statistics are unbounded naturals; accumulators, fairness counters and completed work wrap
at 32 and 64 bits as in the source.

`dafny verify dfyconfig.toml` checks everything.

## Where the code and its documentation differ

The model follows the code.

- Public retry has no state check, so it can revive a finished request or queue one twice
  (`src/scheduler.cpp:723-747`): `Departures.RetryRevives`, `Revival.RetryMiscounts`. It
  has no size check either, so it can take a batch over budget, exactly for the requests
  that slip past the wrapping test: `Smuggling.RetryBreaksBudget`, `WideRuns.BudgetsHold`.
- A report's members are not checked against the batch it names
  (`src/scheduler.cpp:756-791`): `Departures.ForeignReportExact`. Within core runs the
  honest-worker invariant supplies what the code does not check; `Breaches` has a run
  outside them.
- An executor that fails revives members that were cancelled before the dispatch, and
  leaves the batch running (`src/scheduler.cpp:940-953`):
  `Departures.FailureRevives`, `Breaches.FailureRevivesCancelled`.
- A split of a sealed batch leaves its first half pointing at the superseded batch and its
  child unqueued (`src/scheduler.cpp:448-488`); a split of a forming batch leaves a forming
  batch that no key leads to (`src/scheduler.cpp:494-496`): `SplitMerge.SplitStrandsMembers`,
  `SplitMerge.SplitOrphansChild`.
- The tick's split loop moves on by one place after a split, which has taken that place
  away, so the batch behind one that it splits is not looked at, however long it is
  (`src/scheduler.cpp:652-656`): `Splitting.NeighbourIsPassedOver`.
- `max_merges_per_cycle` is compared with the number of all merges so far
  (`src/scheduler.cpp:646-648`), so it bounds the merges of a lifetime:
  `Merging.LimitIsForGood`.
- The lineage of a batch is saved as count, parents, count, children but read as count,
  count, parents, children (`src/persistence.cpp:156-159`, `src/persistence.cpp:349-361`):
  `StateFile.SaveParses` has the exact condition. Every merge adds a parent, so after
  the first one nothing saved comes back: `Tangle.MergedIsLost`.
- A partially completed batch counts as unfinished for the validator
  (`src/persistence.cpp:389-398`), so the state saved while a retried request is in its
  next batch is refused: `Snapshot.RestorableExact`, `Tangle.RetryIsLost`.
- Save writes files of any length, load refuses those over 83890176 bytes
  (`src/persistence.cpp:219-220`), although each record in them may be within its limits:
  `Snapshot.RestorableExact`, `Overlong.LongIsRefused`.
- `evaluate_compatibility` ignores the tokenizer, the key does not
  (`src/compatibility.cpp:6-25`, `src/identity.cpp:90`): `Compatibility.CompatibleExact`.
- The budget test adds in wrapping 64-bit arithmetic; it is exact if and only if the limit
  is below 2^63: `Totals.AllowsAddExact`, `Totals.WrapBoundIsSharp`.
- A deferred submission is in state waiting but not in the index
  (`src/scheduler.cpp:211-219`); after recovery it is (`src/scheduler.cpp:1090-1092`):
  `Reload.ReloadKeepsInvariant`.

## Model

| member | source | states |
|---|---|---|
| `Runs.AttemptOutcomeIsFinal` | src/scheduler.cpp:750-897 | in every core run an attempt gets at most one terminal outcome: once finished, its record is identical in every later state, however reports are delayed, repeated or reordered |
| `Runs.TerminalRequestIsFinal` | src/scheduler.cpp:573-593 | a request that has reached a terminal state keeps its state and its attempts for the rest of the run |
| `Runs.CountersBalance` | src/scheduler.cpp:813-897 | submitted = number of requests; attempts = submitted + retried; the cancelled, expired and completed counters equal the numbers of requests in those states; completed work is the sum over completed requests mod 2^64 |
| `Runs.UniqueMembership` | src/scheduler.cpp:272-400 | a request is listed by at most one forming/sealed/dispatched/running batch, once, and its record names that batch |
| `Runs.BothSidesAgree` | src/scheduler.cpp:518-571 | a request in a batch state is listed by the batch it names in a matching state; index entries are exactly the eligible requests, once, under their own key; forming batches hold reserved members only |
| `Runs.FormingIsOneToOne` | src/scheduler.cpp:304-400 | forming_by_key_ and the forming batches are in one-to-one correspondence |
| `Runs.AcceptedReportStaysInside` | src/scheduler.cpp:750-811 | an accepted report changes no request outside the members of the batch it names and no other batch, although the code never checks membership: it follows from honest replies |
| `Runs.OneReportPerBatch` | src/scheduler.cpp:777-806 | after a batch has accepted one report it accepts no other, ever |
| `Runs.BoundedLife` | src/scheduler.cpp:832-858 | a request changes state or attempt fewer than 6 * max(1, max_attempts) times; its attempts are numbered 1..n in order and n <= max(1, max_attempts) |
| `Fences.EpochFence` | src/scheduler.cpp:750-756 | on every run, splits, public retries, failing executors, driver reports and small workers included: after an epoch roll a report in flight for a batch stamped earlier is answered stale_epoch at any later time and changes the rejection counter only |
| `Fences.BootFence` | src/scheduler.cpp:757-762 | on every such run: a replaced boot id that is not registered again has no authority, and its reports change the rejection counter only |
| `Fences.StepFrame` | src/scheduler.cpp:1484-1493 | no step but an epoch roll moves the epoch, by one, and no step but a registration touches the worker table |
| `Fences.CoreRunIsWide` | src/scheduler.cpp:750-773 | a core run is a wide run, step by step, so what holds of wide runs holds of it |
| `Stuck.StaysStuck` | src/scheduler.cpp:750-756 | in a core run, a batch that was dispatched before an epoch roll keeps its state and its members for the rest of the run: no report, tick or call closes it |
| `Stuck.StuckMembers` | src/scheduler.cpp:776-797 | and none of its live members is ever completed or failed, whatever is still in flight |
| `Network.RunInv` | app/worker.cpp:52-87 | the inductive invariant of the scheduler with a bag of in-flight dispatches and reports holds in every state of every core run |
| `Network.RunEvolves` | src/scheduler.cpp:595-657 | between any two states of a run, requests, attempts and batches only move forward |
| `Network.NextGood` | app/coordinator.cpp:117-142 | each step (submit, cancel, expire, tick, seal, merge, dispatch, reply, delivery, local run, epoch roll, registration) keeps the network invariant and moves forward |
| `Invariant.SubmitGood` | src/scheduler.cpp:158-236 | submission keeps the whole scheduler invariant, on all five admission paths |
| `Invariant.SealGood` | src/scheduler.cpp:384-400 | sealing keeps it |
| `Invariant.MergeGood` | src/scheduler.cpp:504-539 | merging two different batches keeps it, pointers and queue included |
| `Invariant.CancelGood` | src/scheduler.cpp:676-720 | cancellation keeps it in every state a request can be in |
| `Invariant.CompleteGood` | src/scheduler.cpp:750-811 | an honest report keeps it, whether accepted or turned away |
| `Ticking.TickGood` | src/scheduler.cpp:595-657 | a whole tick keeps it, whatever order the unordered containers are walked in |
| `Ticking.SplitRunIdle` | src/scheduler.cpp:652-656 | when every live worker has no limit, or max_requests is not zero and at most that limit, the automatic split at the end of a tick never happens, whatever the other limits are |
| `WideRuns.WideRunInv` | src/scheduler.cpp:402-502 | the invariant of totals, keys, stamps and screened budgets holds in every state of every run, with splits, public retries of any request, failing executors, driver reports and workers of any size |
| `WideRuns.BudgetsHold` | src/scheduler.cpp:272-293 | as long as no request that slips past the size test has been retried, each batch's exact usage respects every limit below 2^63 (2^31 for the count) on every run |
| `WideRuns.TotalsAndKeysHold` | src/scheduler.cpp:402-417 | on every run, all public retries included, each batch's accumulator equals its members' exact usage reduced to the field widths, and all members have the key of the batch, recomputed from their descriptors, and so has its own descriptor |
| `Smuggling.RetryBreaksBudget` | src/scheduler.cpp:723-747 | the condition of BudgetsHold cannot be dropped: for every budget and every request that slips, has an identity and is not late, submitting a fitting request, submitting it, retrying it and ticking leaves a batch over budget |
| `Smuggling.HundredUnits` | include/batch_fabric/policy.hpp:43-58 | an instance with limits below 2^63: a work limit of 100, 10 units placed, and a retried request of 2^64 - 10 |
| `Totals.SlipsExactly` | include/batch_fabric/policy.hpp:43-58 | with limits below 2^63 a request refused by the size check can be let in beside some fitting request, taking the two over budget, if and only if it slips |
| `Totals.TallyIsUsage` | src/scheduler.cpp:402-417 | the wrapping recount is the exact sum reduced to 32 and 64 bits |
| `Totals.AllowsAddExact` | include/batch_fabric/policy.hpp:43-58 | for amounts within budget and limits below 2^63 the wrapping allows_add decides exactly whether the true sum is within budget |
| `Totals.WrapBoundIsSharp` | include/batch_fabric/policy.hpp:43-58 | the bound is exact: there are amounts that fool the test if and only if the limit is at least 2^63 |
| `Admission.SubmitExact` | src/scheduler.cpp:158-236 | in every state: each of the five answers if and only if, written out on model, revision, deadline, the four sizes against the limits, and the tenant's outstanding work against the cap; with each the record and the attempt with state and outcome byte, the index, the outstanding work and the counter |
| `Admission.CappedIsDeferred` | src/scheduler.cpp:211-219 | in every core run an acceptable request of a tenant at its cap is deferred: state waiting, in no bucket, counted as deferred and not as admitted |
| `Cancellation.CancelExact` | src/scheduler.cpp:676-720 | in every state of a core run: Ok if and only if the request has not ended and its batch, if it is in one, is forming, sealed, dispatched or running; after Ok it and its current attempt are cancelled with outcome 3, it is in no bucket and no forming list, the counter has grown by one, and no other request, attempt or batch has changed |
| `Joining.AdmissibleExact` | src/scheduler.cpp:345-361 | a candidate may join if and only if it is queued or deferred, not late, its tenant below the cap and, counting the batch's members, below its share, and each wrapping sum within its limit |
| `Joining.BeforeExact` | src/scheduler.cpp:362-376 | the order of candidates on the configured numbers: work served across configured weights, then tenant number; within a tenant arrival, then request number |
| `Joining.PlaceExact` | src/scheduler.cpp:272-293 | a candidate that joins is the last member, adds its sizes, leaves its bucket, names the batch, and adds its work to what its tenant has been served and has outstanding; nothing else changes |
| `Joining.FillExact` | src/scheduler.cpp:333-382 | a fill stops when nobody may join, and otherwise takes the first of those who may and goes on without it |
| `Joining.NobodyLeft` | src/scheduler.cpp:333-382 | after the fill of a forming batch of a core run nobody in the bucket may join |
| `Joining.MakeFormingExact` | src/scheduler.cpp:304-331 | a new batch opens under new numbers and the present epoch, is filled, waits for the least limit and counts from its earliest member's arrival |
| `Limits.AllowedWaitIsLeast` | src/scheduler.cpp:254-270 | the waiting limit is the least of the global one, the members' class limits and remaining times, zero for a single member when solo batches seal at once, INT64_MAX when nothing applies |
| `Sealing.TickSealsExactly` | src/formation.cpp:18-66 | of the batches that a tick has filled it seals one if and only if its least limit has run out, or its members' exact usage reaches the limit on requests, input, output or work, or no eligible request of its key is left and it has no member or at least minimum_preferred; the others it leaves as they are |
| `Sealing.SoloIsRipe` | src/scheduler.cpp:254-270 | with seal_solo a batch with a single member is sealed by the tick that judges it |
| `Sealing.WaitsForCompany` | src/formation.cpp:29-66 | without it, a batch below the preferred size and every limit is not sealed before its time is up, even when nobody else is queued |
| `Merging.SealExact` | src/scheduler.cpp:384-400 | a forming batch is sealed, its reserved members are batched, its key is free, it is last in the queue and counted; anything else is refused unchanged |
| `Merging.MergeExact` | src/scheduler.cpp:504-539 | accepted if and only if two different batches of one key, phase and state, sealed or forming, fit together; then the second one's members follow the first one's and name it, the exact totals are wrapped, the second is superseded, out of the queue and a parent |
| `Merging.PairByPair` | src/scheduler.cpp:638-650 | the tick's merge of one key: a pair that has been merged is passed over as a whole, of a pair that cannot be merged only the first, and the total of merges so far bounds it |
| `Merging.LimitIsForGood` | src/scheduler.cpp:646-648 | once as many merges as the limit allows have been made, in whatever ticks, no tick of a core run merges anything |
| `Merging.TickMerges` | src/scheduler.cpp:638-650 | in a core run a tick ends with these merges, over the lists of batches that were sealed when they began; without the switch it ends with its seals |
| `Splitting.SplitExact` | src/scheduler.cpp:419-502 | in every state: accepted if and only if at least two members and not handed over or ended; the halves in order with exact totals wrapped, lineage, state, queue, forming map and the requests' pointers written out for sealed batches and others |
| `Splitting.ScanExact` | src/scheduler.cpp:652-656 | the tick's splits go through the queue place by place and split what is sealed and exceeds the worker limit |
| `Splitting.NeighbourIsPassedOver` | src/scheduler.cpp:652-656 | of two neighbours in the queue that both exceed the limit only the first is split: the split takes its place away and the scan moves on |
| `Expiring.ExpireExact` | src/scheduler.cpp:541-571 | in a core run, late queued requests expire with outcome 4 and late members of forming batches are cancelled with outcome 3, with their attempts; all other requests and attempts stay |
| `Handover.DispatchExact` | src/scheduler.cpp:1297-1340 | the four codes, each if and only if; after Ok the batch names worker and boot id and its batched members are dispatched, and nothing else changes |
| `Handover.DispatchCarries` | src/scheduler.cpp:1323-1335 | in every core run an accepted dispatch puts one message in flight with exactly one entry per member, in order, naming its current attempt, work, input, output and payload, under the stamps and the descriptor of the batch |
| `Compatibility.DescriptorIsTheMembers` | src/scheduler.cpp:402-417 | in every wide run that descriptor has the key of the batch, so without a collision it is the descriptor of each member, whatever has been cancelled, split, merged or retried before |
| `Reporting.EntryExact` | src/scheduler.cpp:776-897 | one entry of a report in every state: when it counts, and for each status what becomes of request, attempt, batch outcome, counters, outstanding work and, on a retryable failure with attempts left, the fresh attempt |
| `Reporting.CompleteExact` | src/scheduler.cpp:750-811 | each code if and only if; a report that is turned away changes at most the rejection counter, an accepted one has its entries applied in turn and closes the batch as completed or partially completed |
| `Reporting.SuccessLeavesResult` | src/scheduler.cpp:823-831 | an accepted success leaves the reported bytes as the result of the attempt |
| `Reporting.RetryExact` | src/scheduler.cpp:723-747 | the code of a public retry, each if and only if, and the fresh attempt it queues |
| `Local.LocalRunExact` | src/scheduler.cpp:900-974 | a local run sets batch and members going and reports each result as a success of its attempt |
| `Local.LocalFailureExact` | src/scheduler.cpp:940-953 | a failing one reports each member's current attempt as a retryable failure, in turn, and leaves the batch running |
| `Choice.PickIsFirst` | src/scheduler.cpp:362-376 | the candidate taken precedes every other by (served over configured weight, tenant, arrival, number; see Joining.BeforeExact), in whatever order the candidates are listed |
| `Fairness.SelectNext` | src/fairness.cpp:47-70 | the loop returns, whatever the order of the candidates, the one of whom no other has been served less for its weight, compared as whole numbers across the configured weights (the default for a tenant without one, one for a zero weight), ties going to the smaller tenant number |
| `Fairness.PreferExact` | src/fairness.cpp:47-70 | the order of preference compares work served across the configured weights, with the tenant number last |
| `FairFill.LagBound` | src/scheduler.cpp:333-382 | at every moment of a fill a tenant already picked is ahead of any tenant that still has an admissible candidate by at most the largest candidate's work over its own weight, in whole numbers across the configured weights, if no service counter wrapped at a placement made so far, the fill is of a batch of a run with nothing smuggled in, and no limit lies between 2^63 and 2^64 - 2 (unless max_requests is 1 or 2) |
| `Wraparound.LagBoundFails` | src/fairness.cpp:47-70 | the condition on the counters cannot be dropped: a fill of three requests in which a service counter wraps and a tenant that has been picked is ahead of a contending one by almost 2^64, with at most 2 units of work a request |
| `FairFill.TenantOrder` | src/scheduler.cpp:362-376 | under the same condition on limits, the members one fill adds for a tenant come in strictly increasing (submitted, id) order, whether counters wrap or not |
| `FairFill.AdmissibleShrinks` | src/scheduler.cpp:345-361 | under the same condition on limits, placing a candidate makes no other candidate admissible that was not, whether counters wrap or not |
| `FairFill.GrowthExact` | include/batch_fabric/policy.hpp:43-58 | that condition is exact: for every other budget there are three fitting requests of which the second, once placed beside the first, lets in the third that the first alone kept out |
| `FairFill.FillAddsPicks` | src/scheduler.cpp:333-382 | the fill appends exactly the successive picks to the member list |
| `FairFill.FillBatchMaximal` | src/scheduler.cpp:333-382 | when the fill stops, no request left in the bucket is admissible and within budget |
| `TickTimes.NoFormingIsOverdue` | src/formation.cpp:15-33 | after a tick no batch left forming has waited as long as the global limit, a member's class limit or a member's remaining deadline |
| `TickTimes.SealedAreFresh` | src/scheduler.cpp:541-571 | at the moment a tick seals, no forming batch has a member whose deadline has passed |
| `TickEnds.TickEndsOnlyLate` | src/scheduler.cpp:541-571 | in any state at all, a tick that visits what its loops visit ends a live request only if its deadline has passed |
| `TickEnds.TickEndsExactly` | src/scheduler.cpp:595-657 | in a core run a tick ends exactly the live requests that are late and queued or in a forming batch |
| `TickEnds.ExpireEndsExactly` | src/scheduler.cpp:541-571 | so does the public expire |
| `TickTimes.MinWaitBinds` | src/scheduler.cpp:254-270 | the allowed wait is at most every limit that applies to a member |
| `SplitMerge.SplitHalves` | src/scheduler.cpp:419-502 | a sealed batch of at least two splits into two sealed halves, in order, under two new numbers, with recounted totals |
| `SplitMerge.SplitThenMerge` | src/scheduler.cpp:504-539 | the halves concatenate to the original and their totals add up; merging them succeeds exactly when merging is enabled and the original passes the budget test, and gives back list and totals |
| `SplitMerge.SplitThenMergeSucceeds` | src/scheduler.cpp:504-516 | with limits below 2^63 and no slipping request retried, the merge of the halves succeeds if and only if merging is enabled |
| `SplitMerge.SplitStrandsMembers` | src/scheduler.cpp:448-488 | after every split of a sealed batch each request of the first half names the superseded batch, and the second half is not in the sealed queue |
| `SplitMerge.SplitOrphansChild` | src/scheduler.cpp:494-496 | after every split of a forming batch the second half is a forming batch that no key of the forming map leads to |
| `Departures.RetryRevives` | src/scheduler.cpp:723-747 | in any state, a public retry with the tick it ends with leaves a terminal request live if and only if attempts are left and its deadline has not passed, and never corrects the counter of completed requests |
| `Departures.RetryQueuesAgain` | src/scheduler.cpp:738-742 | a retried request is listed once in its bucket if and only if it was not queued already |
| `Revival.RetryMiscounts` | src/scheduler.cpp:723-747 | a run for every acceptable request: submit, tick, local success, retry; the counter says one completed request, and none is |
| `Departures.ReportTouchesExactly` | src/scheduler.cpp:776-791 | a report with any list of members and any statuses changes a request if and only if one of its entries acts on it in its turn: current attempt named, attempt unfinished, status known |
| `Departures.ForeignReportExact` | src/scheduler.cpp:750-811 | an accepted report of that generality changes nothing outside the batch it names if and only if every entry that acts names a member of that batch |
| `Breaches.ForeignReportLands` | src/scheduler.cpp:756-791 | a run for every two acceptable requests: submit, tick, dispatch, submit the second, and a driver's report under the first one's batch; it is accepted and completes the second, which no batch lists and the index keeps |
| `Departures.FailureRevives` | src/scheduler.cpp:940-953 | when the executor of a sealed batch fails, each member, cancelled and otherwise finished ones included, becomes eligible again or failed depending on its attempts alone, and no other request changes |
| `Breaches.FailureRevivesCancelled` | src/scheduler.cpp:940-953 | a run for every acceptable request: submit, tick, cancel, failing executor; the request is eligible again while the counter of cancelled requests says one |
| `Engine.Fabric.constructor` | src/scheduler.cpp:85-100 | a new fabric is in the initial state, with the in-process worker registered |
| `Engine.Fabric.Submit` | src/scheduler.cpp:158-236 | the object's fields change exactly as Submit specifies, and the admission decision is Admit's |
| `Engine.Fabric.Place` | src/scheduler.cpp:272-293 | placing a request updates batch, request, index and fairness counters as specified, nothing else |
| `Engine.Fabric.Choose` | src/scheduler.cpp:341-376 | grouping by tenant, selecting a tenant and taking the front of its sorted pool gives the pick of the specification |
| `Engine.Fabric.FillForming` | src/scheduler.cpp:333-382 | the fill loop terminates and refines the recursive fill |
| `Engine.Fabric.MakeForming` | src/scheduler.cpp:304-331 | opens, fills, times and backdates a forming batch as specified |
| `Engine.Fabric.Recount` | src/scheduler.cpp:402-417 | the loop computes the wrapping tally and the descriptor default |
| `Engine.Fabric.ComputeAllowedWait` | src/scheduler.cpp:254-270 | the loop computes the minimum of the limits |
| `Engine.Fabric.Seal` | src/scheduler.cpp:384-400 | seals, moves reserved members and queues the batch as specified |
| `Engine.Fabric.Merge` | src/scheduler.cpp:504-539 | refines the specified merge; equal numbers are turned away |
| `Engine.Fabric.Split` | src/scheduler.cpp:419-502 | refines the specified split, sealed and open |
| `Engine.Fabric.Cancel` | src/scheduler.cpp:676-720 | refines the specified cancellation and returns its code on every path |
| `Engine.Fabric.Expire` | src/scheduler.cpp:541-571 | expires exactly the indexed requests that are late and cancels exactly the late members of forming batches |
| `Engine.Fabric.Tick` | src/scheduler.cpp:595-657 | the tick refines the specified one for a plan that lists exactly the late indexed requests, the late members of forming batches, the keys of the index, of the forming map and of the sealed batches, each once |
| `Engine.Fabric.WorkerLimit` | src/scheduler.cpp:664-673 | the smallest non-zero batch size of a live worker, zero when none is set |
| `Engine.Fabric.PrepareDispatch` | src/scheduler.cpp:1297-1340 | refines the specified dispatch and returns the message for the worker |
| `Engine.Fabric.ApplyOutcome` | src/scheduler.cpp:813-897 | refines the specified outcome for each status, retry included |
| `Engine.Fabric.Complete` | src/scheduler.cpp:750-811 | refines the specified completion with its five checks in order, and returns its code |
| `Engine.Fabric.DispatchAndRun` | src/scheduler.cpp:900-974 | refines the specified local run for an executor that succeeds (for one that fails see the next row) |
| `Engine.Fabric.DispatchAndFail` | src/scheduler.cpp:940-953 | refines the specified local run for an executor that fails, and returns its code |
| `Engine.Fabric.RetryAndTick` | src/scheduler.cpp:723-747 | refines the specified retry; a successful one ends with a tick, a refused one changes nothing further |
| `Engine.Fabric.RollEpoch` | src/scheduler.cpp:1484-1493 | advances the epoch and changes nothing else |
| `Engine.Fabric.RegisterWorker` | src/scheduler.cpp:1160-1174 | records worker, boot id and batch size and changes nothing else |
| `Engine.Fabric.IndexRemove` | src/compatibility.cpp:31-38 | removes the first occurrence and an emptied bucket |
| `Service.ObservedSuffices` | src/scheduler.cpp:541-571 | what the tick's loops visit is enough for the timing results, in every state that satisfies the invariant |
| `Service.Host.Holds` | src/scheduler.cpp:750-811 | every sequence of calls on the object is a run, so the invariant holds of the object |
| `Service.Host.Submit` | src/scheduler.cpp:158-236 | a submission to the object is a step of the run, answered and recorded as Admission.SubmitExact says |
| `Service.Host.Cancel` | src/scheduler.cpp:676-720 | a cancellation is a step of the run, answered and carried out as Cancellation.CancelExact says |
| `Service.Host.Seal` | src/scheduler.cpp:384-400 | a seal is a step of the run, as Merging.SealExact says |
| `Service.Host.Merge` | src/scheduler.cpp:504-539 | a merge is a step of the run, as Merging.MergeExact says |
| `Service.Host.PrepareDispatch` | src/scheduler.cpp:1297-1340 | a dispatch is a step of the run, with the codes and changes of Handover.DispatchExact; it returns a message if and only if it is accepted, in flight, with one entry per member as in Handover.DispatchCarries |
| `Service.Host.Tick` | src/scheduler.cpp:595-657 | a tick on the object is a step of the run, leaves no forming batch that should have been sealed, seals no other, and ends exactly the late requests that were queued or forming |
| `Service.Host.Expire` | src/scheduler.cpp:1342-1350 | the public expire is a step of the run and ends exactly the late requests that were queued, as expired, or forming, as cancelled |
| `Service.Host.Complete` | src/scheduler.cpp:750-811 | delivering a report that is in flight is a step of the run, judged and applied as Reporting.CompleteExact says |
| `Service.Host.DispatchAll` | app/coordinator.cpp:117-142 | offering the sealed batches to one worker is a sequence of dispatch steps, and whatever is sent is in flight |
| `Service.WorkerReply` | app/worker.cpp:52-87 | the worker decodes a dispatch and answers with its epoch, generation, batch and request/attempt pairs, in order, with the output, or with the code and message of the failure, for each member; what it answers can be encoded |
| `Service.Host.Exchange` | app/worker.cpp:52-87 | a dispatch in flight, encoded, decoded by the worker, answered, encoded, decoded and delivered, is a reply and a delivery step of the run, and the reply is honest |
| `ByteIO.ByteWriter.U32` | include/batch_fabric/io.hpp:29-34 | appends the four big-endian bytes |
| `ByteIO.ByteWriter.U64` | include/batch_fabric/io.hpp:35-37 | the shift loop appends the eight big-endian bytes |
| `ByteIO.ByteWriter.String` | include/batch_fabric/io.hpp:48-51 | appends length and bytes |
| `ByteIO.ByteWriter.Descriptor` | src/protocol.cpp:8-26 | appends the canonical layout of a descriptor |
| `ByteIO.ByteReader.U32` | include/batch_fabric/io.hpp:83-91 | reads what the specification reads, or fails with it |
| `ByteIO.ByteReader.U64` | include/batch_fabric/io.hpp:92-98 | the shift loop reads the big-endian value, or fails on overrun |
| `ByteIO.ByteReader.String` | include/batch_fabric/io.hpp:105-112 | reads a bounded string, or fails on the limit or on overrun |
| `ByteIO.ByteReader.Descriptor` | src/protocol.cpp:28-60 | reads a descriptor field by field as specified |
| `Octets.ValueOfBigEndian` | include/batch_fabric/io.hpp:35-37 | reading back the bytes of a number gives the number |
| `Octets.BigEndianOfValue` | include/batch_fabric/io.hpp:92-98 | writing the value of bytes gives the bytes |
| `Octets.ListCanonical` | src/protocol.cpp:156-163 | a list reader built from a strict element reader accepts only what the list writer writes |
| `Identity.DescriptorRoundTrip` | src/protocol.cpp:8-60 | a readable descriptor is read back with the remainder untouched |
| `Identity.DescriptorCanonical` | src/protocol.cpp:28-60 | an accepted descriptor is within limits and its bytes are its encoding |
| `Identity.PreimageInjective` | src/identity.cpp:84-106 | the key preimage determines the descriptor, for every descriptor, although the number of extensions is cut to 32 bits |
| `Compatibility.BuildKey` | src/identity.cpp:84-106 | the key is the SHA-256 digest of the preimage |
| `Wire.SubmitExact` | src/protocol.cpp:221-230 | submissions: for all bytes, decoding gives m if and only if m is within the reader's limits and the bytes are its encoding |
| `Wire.SubmitDelimits` | src/protocol.cpp:97-132 | submissions: every proper prefix and every extension of an encoding is refused |
| `WireIO.WriteSubmit` | src/protocol.cpp:97-132 | submissions: the writer produces the encoding |
| `WireIO.ReadSubmit` | src/protocol.cpp:221-230 | submissions: the reader decides and returns what the specification does |
| `Wire.DispatchExact` | src/protocol.cpp:250-259 | dispatches: for all bytes, decoding gives m if and only if m is within the reader's limits and the bytes are its encoding |
| `Wire.DispatchDelimits` | src/protocol.cpp:134-165 | dispatches: every proper prefix and every extension of an encoding is refused |
| `WireIO.WriteDispatch` | src/protocol.cpp:134-165 | dispatches: the writer produces the encoding |
| `WireIO.ReadDispatch` | src/protocol.cpp:250-259 | dispatches: the reader decides and returns what the specification does |
| `Wire.CompleteExact` | src/protocol.cpp:261-270 | completions: for all bytes, decoding gives m if and only if m is within the reader's limits and the bytes are its encoding |
| `Wire.CompleteDelimits` | src/protocol.cpp:167-202 | completions: every proper prefix and every extension of an encoding is refused |
| `WireIO.WriteComplete` | src/protocol.cpp:167-202 | completions: the writer produces the encoding |
| `WireIO.ReadComplete` | src/protocol.cpp:261-270 | completions: the reader decides and returns what the specification does |
| `Layout.SubmitLayout` | src/protocol.cpp:97-132 | the body of a submission is, field by field, the listed numbers by place value, strings behind their lengths, and the descriptor |
| `Layout.DispatchLayout` | src/protocol.cpp:134-165 | so is that of a dispatch, with its members behind their number |
| `Layout.CompleteLayout` | src/protocol.cpp:167-183 | that of a report |
| `Layout.RegisterLayout` | src/protocol.cpp:62-74 | that of a registration |
| `Layout.KeyLayout` | src/identity.cpp:84-106 | and the bytes that are hashed into the compatibility key |
| `Wire.RegisterExact` | src/protocol.cpp:208-219 | registrations: accepted exactly when the bytes are an encoding whose flag byte is any non-zero byte for true and zero for false |
| `Wire.RegisterDelimits` | src/protocol.cpp:62-95 | registrations: round trip, and prefixes and extensions are refused |
| `WireIO.WriteRegister` | src/protocol.cpp:62-74 | registrations: the writer produces the encoding |
| `WireIO.ReadRegister` | src/protocol.cpp:76-95 | registrations: the reader decides and returns what the specification does |
| `Persistence.LineageDecides` | src/persistence.cpp:156-159 | the saved and the expected order of the lineage give equal bytes only if every parent number equals the number of children |
| `Persistence.SameLineage` | src/persistence.cpp:349-361 | and then they do |
| `Layout.FileLayout` | src/persistence.cpp:90-169 | the saved file is, field by field, magic number, version, counters, table sizes, the three tables and the service record, and the digest of their bytes |
| `Saved.StateLayout` | src/scheduler.cpp:993-1056 | saving a scheduler state writes these fields of its requests, attempts and batches |
| `Saved.StateNumbers` | include/batch_fabric/enums.hpp:59-121 | request and batch states are saved as their places in the enumerations |
| `StateFile.ParseExact` | src/persistence.cpp:228-403 | the validator accepts exactly the images of tables within limits with distinct non-null ids, known members and disjoint non-terminal batches under a true checksum, and returns those tables |
| `StateFile.SaveParses` | src/persistence.cpp:90-169 | what save writes is parsed back unchanged if and only if the runtime is within limits, coherent, and every parent number in a lineage equals the number of children |
| `Sizes.SavedLength` | src/persistence.cpp:90-162 | the length of the file that save writes, as a sum over the records |
| `Sizes.SaveRoundTrip` | src/persistence.cpp:213-226 | what save writes is loaded back unchanged if and only if that holds and the length is at most 83890176 |
| `StateFile.SplitChildIsLost` | src/persistence.cpp:156-159 | a runtime holding a batch with one non-null parent and no children, such as the child of an open split, never round-trips |
| `Archive.BuildPersisted` | src/scheduler.cpp:993-1056 | the loops of build_persisted produce the rows of all three tables, the counters and one fairness record per tenant under its decimal name |
| `Archive.PersistTo` | src/scheduler.cpp:1500-1505 | the file written is the image of those tables |
| `Archive.RecoverFrom` | src/scheduler.cpp:1507-1514 | a file that is short enough and accepted is loaded as specified, any other changes nothing |
| `Snapshot.RestorableExact` | src/scheduler.cpp:993-1056 | a state of a core run, saved, is loaded back unchanged if and only if it is within the reader's limits, no request of a partially completed batch is listed by another unfinished batch, no batch has taken in another, and the file is at most 83890176 bytes long |
| `Reload.LoadedIsBack` | src/scheduler.cpp:1058-1149 | loaded into any object, requests, attempts, batches, forming map, service record and counters are those saved, apart from the fields that are not in the file; index and sealed queue are rebuilt exactly, in another order |
| `Reload.StoullOfName` | src/scheduler.cpp:1139-1147 | std::stoull reads back what std::to_string wrote, for every tenant |
| `Reload.ReloadKeepsInvariant` | src/scheduler.cpp:1058-1149 | saved and loaded, such a state meets the invariants of core runs again if and only if no request was deferred, the statistics included when they are the ones of the saved state |
| `Tangle.MergeMarks` | src/scheduler.cpp:504-539 | every merge that succeeds leaves a batch that has taken in another |
| `Tangle.MergedIsLost` | src/persistence.cpp:156-159 | in a core run no state after the first merge comes back from the file |
| `Tangle.MovedOnIsLost` | src/persistence.cpp:389-398 | nor does one in which a request of a partially completed batch is in another batch |
| `Tangle.RetryIsLost` | src/scheduler.cpp:845-858 | a core run for every request with an identity that is not late, which ends there: submit, tick, register a worker, dispatch, reply with a retryable failure, deliver, tick |
| `Overlong.LongIsRefused` | src/persistence.cpp:219-220 | a core run that meets every condition but the last: so many submissions that the payloads alone exceed the limit on the file, which is then refused |
| `Overlong.EightyOne` | src/persistence.cpp:219-220 | 81 requests with payloads of 1 MiB are enough |
| `StateFileIO.SaveBytes` | src/persistence.cpp:90-169 | the writer loops and the digest produce the specified file |
| `StateFileIO.ParseBytes` | src/persistence.cpp:228-403 | the reader with its interleaved checks, sets and maps decides and returns what the specification does |
| `StateFileIO.CheckDisjoint` | src/persistence.cpp:389-398 | the overlap scan succeeds if and only if no request is in two non-terminal batches |
| `StateFileIO.ReadMembers` | src/persistence.cpp:333-342 | the member loop succeeds if and only if the list is well formed and every member is known |
| `Recovery.RecoveredIndexIsExact` | src/scheduler.cpp:1058-1100 | for every file the validator accepts, the rebuilt index holds exactly the eligible and waiting requests, once each, under keys recomputed from their descriptors |
| `Recovery.RecoveredBatches` | src/scheduler.cpp:1101-1137 | the batches are those of the file, the sealed queue holds the sealed ones once each, and every key with a forming batch is mapped to one |
| `Recovery.LoadInto` | src/scheduler.cpp:1058-1149 | the loading loops refine the specified recovery, std::stoull on the tenant names included |
| `Canonical.UnescapeEscape` | src/identity.cpp:9-28 | escaped text followed by a delimiter can be read back |
| `Canonical.PrintExact` | src/identity.cpp:42-82 | two descriptors print the same if and only if they agree up to enumerators without a name and one empty extension against none |
| `Canonical.DeclaredPrintExact` | src/identity.cpp:42-82 | with declared enumerators the empty list against the list of one empty string is the only confusion |
| `Printed.PrintLayout` | src/identity.cpp:42-82 | the text is, piece by piece, the field names with the escaped strings, the names of the enumerators and the decimal numbers |
| `Canonical.PrintDescriptor` | src/identity.cpp:42-82 | the printer's loops produce the specified text |
| `Canonical.AppendEscaped` | src/identity.cpp:9-28 | the escaping loop appends the specified text |
| `Compatibility.CompatibleExact` | src/compatibility.cpp:6-25 | two descriptors are compatible if and only if they agree apart from the tokenizer, while equal preimages need the tokenizer too |
| `Compatibility.MembersAreCompatible` | src/compatibility.cpp:6-25 | if no two requests collide, the members of any batch of any run, splits and all public retries included, have one descriptor, are pairwise compatible and share a phase |
| `Sha256.Stream.constructor` | src/hash.cpp:27-38 | starts from the initial hash value with nothing absorbed |
| `Sha256.Stream.Transform` | src/hash.cpp:56-83 | the unrolled rounds compute the compression function of section 6.2 of FIPS 180-4 |
| `Sha256.Stream.Update` | src/hash.cpp:40-54 | the buffered state represents everything absorbed so far, for any cut of the input |
| `Sha256.Stream.PadZeros` | src/hash.cpp:85-90 | the zero-padding loop ends, after exactly the padding of section 5.1.1 |
| `Sha256.Stream.Final` | src/hash.cpp:85-103 | for fewer than 2^61 bytes the result is the digest of what was absorbed |
| `Sha256.Stream.DigestOf` | src/hash.cpp:105-109 | one update and final give the digest |
| `Sha256.Stream.DigestOfPieces` | src/hash.cpp:40-103 | however a message is cut into updates, the result is the digest of the whole message |
| `KnownAnswer.DigestOfAbc` | tests/test_core.cpp:80-81 | the digest of "abc" is the one that the standard and the tests give, worked out through all 64 rounds |
| `Sha256Spec.ZeroCountIsSmallest` | src/hash.cpp:85-90 | the number of zero bytes is the smallest that leaves room for the length |
| `Sha256Spec.AbsorbAppend` | src/hash.cpp:40-54 | folding whole blocks in pieces is folding them at once |

## Left out

- Sockets, threads, frames, files, clocks and process control: foreign calls; messages are a set in flight, times are arguments, the state file is its bytes.
- Core runs leave out failing executors and reports sent by a driver connection, which break the membership invariants as written; wide runs have both.
- Executors: only that they return one output per member or fail.
- Recovery as a step of a run: `Reload.ReloadKeepsInvariant` says when the invariant that the theorems about runs start from holds again.
- Events, explain, snapshots, statistics that only feed displays (forming_now, reserved_now, waiting_now, running_now, batches_formed, batches_dispatched) and the list of batches running on a worker: output with no hard property.
- Seal reasons, sealed/dispatched/completed times, member results and the attempt's batch and start time in the scheduler state: written, never read by a decision.
- Fairness.SelectNext: exact rationals stand in for long double, so the branch in which both sides claim to be less served cannot occur.
- 64-bit wrap-around of identifiers, statistics other than completed work, and of time differences.
- The remaining message bodies (submit response, ack, epoch roll, status, cancel): they would only add easy members.
- The order of the checks inside one record of the state file: all refusals are the same error code, so enumerators are checked when the record's fields have been read.
- Conservation of the outstanding-work counters, progress of deferred requests and completion of batches sealed before an epoch roll: the code does not provide them.
- Collision resistance of SHA-256: a hypothesis of `Compatibility.MembersAreCompatible`, on the requests at hand.
- Engine.Fabric.Merge: two equal numbers are turned away, because the source's loop then appends to the list it walks.
- FairFill.LagBound: assumes that no served counter wrapped at a placement made so far, because the code's own comparison is meaningless after a wrap (`Wraparound.LagBoundFails`).
