# Verified model of the prefill/decode cache simulator

This project models the stateful core of the simulator in Dafny and proves properties of it
for every input and every run. Policy hooks may answer anything the code accepts; the two kernel
guarantees that do depend on an answer are proved to hold exactly under a stated condition on it.
All times, credits and work are exact reals.

## What is modelled

Names in parentheses are files of this directory.

- **Decode capacity** (`Timeline`, `DecodeLedger`, `ReservationLengths`). Half-open reservations on a timeline of
  fixed capacity. `Timeline` proves that a finite set of breakpoints decides facts about every
  real instant and that a finite set of candidate starts contains the earliest fit.
  `DecodeLedger` is the ledger object: `reserve`, `available_at`, `activate` and `settle` keep
  "no instant over the peak, no peak over capacity" and the conservation of debt.
  `ReservationLengths` says how long reservations last and which of them a question sees.
- **The causal kernel** (`KernelModel`, `KernelSteps`, `KernelSafety`, `KernelInvariant`,
  `KernelHandlers`, `KernelRuns`, `KernelResults`, `KernelAborts`, `KernelBudget`,
  `KernelTermination`, `KernelRun`, `PrefillPrices`, `KernelTimes`, `KernelReport`,
  `KernelExamples`). One step per popped event of `CausalKernel.run`. Policy hooks are arbitrary
  answers, constrained only by what the kernel checks. `KernelSteps` gives the step function, `KernelSafety` and
  `KernelInvariant` the invariant, `KernelHandlers` its preservation handler by handler,
  `KernelRuns` whole runs, `KernelResults` what safety means for attempts and nodes,
  `KernelAborts` and `KernelBudget` which D node and which index an abort may name,
  `KernelTermination` the measure that ends runs, and `KernelRun` the loop itself, which updates
  its tables in place, asks its hooks through cache snapshots and refines the step function.
  `PrefillPrices` tells the price of a prefill by prompt and caches alone, `KernelTimes` that every
  attempt of every run takes exactly the time its plan, prompt and output account for, and
  `KernelReport` when the metrics accept the records of a run and that these then add up.
  `KernelExamples` has the runs that show why the conditions are there.
- **Cache snapshots** (`CacheSnapshots`). Lazily refreshed immutable views over mutable caches,
  used by the kernel loop.
- **The chain protocol** (`Preemption`, `ChainProtocol`, `ChainOutcomes`, `ChainSelection`,
  `ChainHarness`). One
  logical request across client, selector owner, prefill and decode, with an epoch fence,
  leases, self-aborts, crashes and frames of arbitrary epoch and sequence. `ChainProtocol` has
  every transition as a function on values, including those that move state and then raise;
  `ChainOutcomes` says what the calls answer and what a request consumes over whole runs;
  `ChainHarness` has the objects, which share the fence until a crash replaces it, and proves
  each method to take exactly that step.
- **Node caches** (`EvictionPolicies`, `EvictionOrder`, `ResidencyHistory`, `NodeCache`,
  `CacheBooks`, `LocalNodeCache`, `RecencyStack`, `CacheReplay`, `CacheOnlySimulator`). Four
  eviction policies and the order in which they give up blocks, placement with pins, the books
  kept beside it, the historical residency index, the LRU stack property, and the infinite-cache
  ceiling.
- **Queued replay** (`QueuedReplay`, `QueuedTimes`, `QueuedRuns`, `QueuedSimulator`). Pins,
  in-flight production, duplicate waits and start scheduling on one node, how long its prefills
  take, and that it drains.
- **Arithmetic** (`LeastSquares`, `WorkTaxonomy`, `JainFairness`). The closed-form fit, the work
  taxonomy, and what the values of Jain's index tell.
- **Mirrors of the kernel cache** (`CacheMirror`, `DigestLedger`, `DigestRuns`). The eviction
  policy's recency index and the XOR digest ledger, each against the kernel's own mutation rule
  and over whole runs.
- `OrderedDicts` (insertion-ordered dictionaries), `Lists` and `Options` are shared helpers.

Where the source updates fields in place the model is a class whose methods are proved against
a specification function; the lemmas are about that function.

## What the code does that one might not expect

- An abort's revised record is stored unchecked (m12_kernel.py:764), and the kernel frees whatever
  D node it names. The invariant, the P side, termination and exactly-once completion hold
  whatever it names. That no D node is booked twice holds exactly if every abort frees its own node
  or one not booked beyond that instant (`ApartThroughoutIff`), which the hook can read from its
  view; `ForeignAbortDoubleBooks` is a run in which one does not.
- The kernel also takes the retries spent from that record's index (m12_kernel.py:856). That a
  request gets at most `retry_budget + 1` attempts holds if no abort names an index below the
  budget for an attempt issued at or beyond it (`BudgetThroughoutIff`, `RunAttemptsAreBounded`);
  `AbortsOverspend` exceeds the bound for every budget from 1 on, as far as time allows, and
  `AttemptsRunOut` is the bound that time sets. The shipped policy keeps nodes and index
  (m12_decode.py:591-597).
- A P node that an abort makes up is only noticed at completion, as a missing entry.
- The report of a run takes the index of a record from that revised record too, so the metrics refuse
  a run in which an abort has given an attempt the index of another (`ReportAcceptedIff`).
- A handshake lists as degraded only what the owner asked for, so a capability it never asked for
  counts as available (`NegotiatedMeans`).
- A decode fence is checked to be causal when a prefill finishes, but not when a gated decode
  wakes up; the model does the same. Safety holds for any fence. The loop stops at the horizon,
  so it ends whenever the delays a fence causes have a positive lower bound, and also whenever
  the fence keeps its documented promise to be idempotent (`StableRunsEnd`). An endless run has
  to delay by less and less (`EndlessRunsDelayLessAndLess`), and over exact reals there is one
  (`EndlessRunExists`).
- The census recorder books every mutation in its digest ledger before the kernel decides whether
  to apply it, and the kernel skips the mutation of an attempt that made nothing reusable. So the
  ledger does not always tell the cache: `LedgerTellsKernelIff` gives the exact condition,
  `SkippedAdmissionRun` a run in which it does not, and `CheckSeesOnlySizes` what the recorder's
  own count check can notice. `prefill_reusable` defaults to true (m12_kernel.py:141) and no
  shipped policy clears it, so no shipped policy meets the case.
- A capacity rejection costs a retry even when the budget is 0, so the bound on used retries is
  `max(1, retry_budget)`.
- `max_preemptions` and `max_rounds` are compared as integers; a `max_preemptions` below zero
  permits no self-abort.
- A request longer than an LRU cache leaves its first block there, not its last, because its
  own blocks are protected during placement. So the stack property holds throughout a replay
  exactly when every request fits (`StackHoldsThroughoutIffRequestsFit`), unless a request comes
  back to its first block.
- The LRU-mode eviction policy files its mutation before the kernel decides whether to apply it.
  `TurnMirrorsIffAgreeable` says exactly when index and cache stay in step.
- A duplicate wait that began at instant 0 counts as one that has not begun
  (simulator.py:384).

## Model

| member | source | states |
|---|---|---|
| `Timeline.WindowDominated` | src/prefill_cache_sim/m12_decode.py:206-220 | the occupancy at every real instant of a window is dominated by the occupancy at one of the tested points: the window start or a reservation start inside it |
| `Timeline.BreakpointsDecideWindow` | src/prefill_cache_sim/m12_decode.py:281-295 | testing the finite breakpoints succeeds if and only if the request fits at every real instant of its window |
| `Timeline.PeakBoundsWindow` | src/prefill_cache_sim/m12_decode.py:208-220 | the maximum over the breakpoints bounds the occupancy of the whole window |
| `Timeline.FitSlidesBack` | src/prefill_cache_sim/m12_decode.py:269-297 | a start that fits can be moved back to any instant since which nothing was released |
| `Timeline.CandidatesContainOptimum` | src/prefill_cache_sim/m12_decode.py:269-297 | whenever some real instant fits, a candidate (now, or a release after now) not later than it fits too |
| `Timeline.NoFitBefore` | src/prefill_cache_sim/m12_decode.py:279-296 | if no candidate before the i-th fits, no real instant between now and the i-th candidate fits |
| `Timeline.EarliestFitIsStable` | src/prefill_cache_sim/m12_decode.py:508-540 | asked again before the time it answered, an unchanged timeline answers the same time, so a fence taken from it does not change its mind |
| `Timeline.LastCandidateFits` | src/prefill_cache_sim/m12_decode.py:279-297 | the last candidate always fits, so the final `AssertionError` cannot be reached |
| `DecodeLedger.DecodeCreditLedger.AvailableAt` | src/prefill_cache_sim/m12_decode.py:248-297 | the answer is the earliest of all real instants at or after now at which the width fits for as many work units as it has credits, and for 1e-9 at least; the two errors are exactly negative credits, and positive credits on zero capacity |
| `DecodeLedger.DecodeCreditLedger.NextChunk` | src/prefill_cache_sim/m12_decode.py:203-233 | one turn of the placement loop adds the next greedy chunk at its earliest fit, lasting its own credits (1e-9 at least), and keeps every instant within capacity |
| `DecodeLedger.DecodeCreditLedger.PlaceChunks` | src/prefill_cache_sim/m12_decode.py:200-233 | the loop ends, places exactly the requested credits as a greedy chain of chunks that last their own credits (1e-9 at least), keeps every real instant within capacity, and raises the peak to exactly the busiest instant |
| `DecodeLedger.DecodeCreditLedger.Reserve` | src/prefill_cache_sim/m12_decode.py:186-246 | keeps the ledger invariant; the recorded plan satisfies `Plan` against everything already placed and each of its chunks lasts its own credits (1e-9 at least); the exact error condition; an error changes nothing; the debt grows by the credits less what the key still owed |
| `DecodeLedger.PlanIsUnique` | src/prefill_cache_sim/m12_decode.py:200-243 | `Plan` admits only one chain of chunks, so `Reserve` is fully determined by its contract |
| `DecodeLedger.ChunksLast` | src/prefill_cache_sim/m12_decode.py:205-232 | every chunk a reservation records belongs to its key and lasts as many work units as it has credits, or 1e-9 if it has fewer |
| `ReservationLengths.PlanSizes` | src/prefill_cache_sim/m12_decode.py:204-232 | every chunk but the last takes the whole capacity, the last one what is left, and together they hold exactly the credits |
| `ReservationLengths.IdlePlanEnds` | src/prefill_cache_sim/m12_decode.py:203-233 | on an idle ledger the chunks start at `now`, follow each other without a gap, and end `credits` work units later, however many they are |
| `ReservationLengths.FullLaneIsBusyUntilItsEnd` | src/prefill_cache_sim/m12_decode.py:278-296 | after the full capacity K has been reserved at `now` on an idle ledger, a question for any positive width asked at `now` is answered with `now + K` |
| `ReservationLengths.ExcludedPlanIsUnseen` | src/prefill_cache_sim/m12_decode.py:259-268 | a question that excludes a planned key is answered as if that plan had never been made |
| `ReservationLengths.ExcludedExecutionIsUnseen` | src/prefill_cache_sim/m12_decode.py:259-268 | and one that excludes an executing key as if it were not executing |
| `ReservationLengths.EveryReservationCounts` | src/prefill_cache_sim/m12_decode.py:259-268 | without an exclusion each planned chunk and each execution adds its credits over exactly its own half-open interval |
| `ReservationLengths.PeakIsLeast` | src/prefill_cache_sim/m12_decode.py:214-223 | the recorded peak is the least level that no instant, before or now, exceeded |
| `DecodeLedger.DecodeCreditLedger.Activate` | src/prefill_cache_sim/m12_decode.py:306-372 | keeps the ledger invariant; fails exactly on bad arguments, a key already executing, no room next to what is running, or a refused reservation; a plan becomes an execution, overlapping plans leave the timeline, every debt stays as it was, and the new peak is exactly the larger of the reserved one and the busiest instant of the interval |
| `DecodeLedger.MeasuredExecution` | src/prefill_cache_sim/m12_decode.py:329-343 | the occupancy measured at breakpoints decides whether the execution fits at every instant of its interval |
| `DecodeLedger.ExecutionTimeline` | src/prefill_cache_sim/m12_decode.py:353-372 | dropping overlapped plans and adding the execution keeps every real instant within the new peak |
| `DecodeLedger.KeepClearClears` | src/prefill_cache_sim/m12_decode.py:354-367 | after invalidation no plan holds anything inside the executed interval, and elsewhere occupancy never rises |
| `DecodeLedger.KeepClearKeys` | src/prefill_cache_sim/m12_decode.py:354-367 | exactly the non-overlapping plans survive, unchanged |
| `ReservationLengths.OverlapIsSharedInstant` | src/prefill_cache_sim/m12_decode.py:354-362 | a plan is dropped for an execution of positive length exactly if one of its chunks and the execution share an instant |
| `ReservationLengths.InstantOverlap` | src/prefill_cache_sim/m12_decode.py:354-362 | for an execution of no length, exactly if a chunk strictly contains that instant |
| `DecodeLedger.DecodeCreditLedger.Settle` | src/prefill_cache_sim/m12_decode.py:374-392 | fails exactly for an unknown key; otherwise the key leaves the books, the work is added, and the error moves by work minus debt; conservation is kept |
| `DecodeLedger.DecodeCreditLedger.NeverOverCapacity` | src/prefill_cache_sim/m12_decode.py:147-184 | in every valid state the credits held at any real instant are at most the peak, and the peak is at most capacity |
| `DecodeLedger.TotalPut` | src/prefill_cache_sim/m12_decode.py:244-246 | opening a key changes the outstanding debt by the credits minus what the key already owed |
| `DecodeLedger.RebuildAddsNothing` | src/prefill_cache_sim/m12_decode.py:363-367 | rebuilding an invalidated plan with the credits its key still owes leaves the debts as they are |
| `KernelRun.ValidateWorkload` | src/prefill_cache_sim/m12_kernel.py:977-999 | accepts exactly the workloads with distinct identities, non-decreasing arrivals inside the window and known tiers |
| `KernelModel.PricePrefill` | src/prefill_cache_sim/m12_kernel.py:1028-1053 | the pricing loop charges exactly the tokens after the first block that is neither local nor claimed and present on another node |
| `KernelModel.CoveredIsUnique` | src/prefill_cache_sim/m12_kernel.py:1033-1048 | the covered prefix is determined by its description: usable blocks up to the first unusable one |
| `KernelModel.PricedWithinPrompt` | src/prefill_cache_sim/m12_kernel.py:1049-1053 | a prefill costs between nothing and the maximum work of the prompt, and KV movement is never negative |
| `PrefillPrices.PriceOfPrefill` | src/prefill_cache_sim/m12_kernel.py:1033-1053 | told by prompt and caches alone: prefill work plus the tokens of the longest reusable run of leading blocks, at the prefill rate, is the work of the whole prompt; exactly the reused blocks the node does not hold itself are fetched, in work and in bytes |
| `PrefillPrices.ColdPromptPaysInFull` | src/prefill_cache_sim/m12_kernel.py:1049-1053 | a prompt whose first block cannot be reused pays its maximum and fetches nothing |
| `PrefillPrices.CachedPromptIsFree` | src/prefill_cache_sim/m12_kernel.py:1049-1053 | a prompt all of whose blocks can be reused needs no prefill work |
| `PrefillPrices.OneMoreReusedBlock` | src/prefill_cache_sim/m12_kernel.py:1033-1050 | one more reusable leading block lowers the price by exactly that block |
| `PrefillPrices.OwnBlocksAreNotFetched` | src/prefill_cache_sim/m12_kernel.py:1037-1041 | blocks the node holds itself are never fetched |
| `PrefillPrices.PrefillTakesItsPrice` | src/prefill_cache_sim/m12_kernel.py:569-599 | a prefill started now ends at now plus that price plus the transfer work, in its record, on its node and in its finish event |
| `KernelModel.ElapsedExactly` | src/prefill_cache_sim/m12_kernel.py:1110-1116 | a whole number of tokens is recovered exactly from elapsed work |
| `KernelRuns.InitialIsSafe` | src/prefill_cache_sim/m12_kernel.py:467-509 | the state before the first event satisfies the invariant |
| `KernelRuns.StepKeeps` | src/prefill_cache_sim/m12_kernel.py:511-886 | every event popped within the horizon, whatever the policy answers and whatever an abort names, keeps the invariant and never turns time back |
| `KernelRuns.DuplicateStepKeeps` | src/prefill_cache_sim/m12_kernel.py:679-684 | a duplicate wake-up of an attempt that has started changes nothing but the clock |
| `KernelRuns.EveryRunIsSafe` | src/prefill_cache_sim/m12_kernel.py:467-886 | every state of every run satisfies the invariant, for every policy, and processed event times never decrease |
| `KernelRuns.StepRaisesForPolicyOnly` | src/prefill_cache_sim/m12_kernel.py:511-886 | in a safe state only a refused policy answer or a free decode cost can raise: an abort is always token aligned and partial, and a table entry is missing exactly when an attempt completes whose abort named a P node that does not exist |
| `KernelHandlers.OnArrivalKeeps` | src/prefill_cache_sim/m12_kernel.py:515-551 | an arrival and the plan issued for it keep the invariant |
| `KernelHandlers.OnReadyKeeps` | src/prefill_cache_sim/m12_kernel.py:552-568 | joining the FIFO, and taking a free node at once, keeps the invariant |
| `KernelHandlers.StartPrefillKeeps` | src/prefill_cache_sim/m12_kernel.py:569-599 | a prefill start succeeds in every safe state and keeps the invariant |
| `KernelHandlers.HandOverKeeps` | src/prefill_cache_sim/m12_kernel.py:600-619 | handing a freed P node to the next waiting attempt keeps the invariant and leaves no node idle |
| `KernelHandlers.OnPrefillFinishKeeps` | src/prefill_cache_sim/m12_kernel.py:600-678 | finishing a prefill, with the decode either gated or begun, keeps the invariant |
| `KernelHandlers.OnDecodeStartKeeps` | src/prefill_cache_sim/m12_kernel.py:679-744 | a wake-up either waits again or books the D node after its last booking |
| `KernelHandlers.OnLeaseBoundaryKeeps` | src/prefill_cache_sim/m12_kernel.py:745-814 | an accepted abort, whatever it names, or its absence keeps the invariant; it cuts the booking of the named node and wakes the sleepers there |
| `KernelHandlers.OnCompletionKeeps` | src/prefill_cache_sim/m12_kernel.py:815-886 | a completion, its cache mutation and its retry keep the invariant |
| `KernelResults.ArrivalIssuesOneAttempt` | src/prefill_cache_sim/m12_kernel.py:515-551 | an arrival is accepted exactly with no plan or with one plan that may be issued, which is then on its way, ready at its own arrival |
| `KernelResults.DecodeWaitsForNodeAndFence` | src/prefill_cache_sim/m12_kernel.py:679-708 | a woken decode begins at once exactly if its node is free and its fence allows it, and is otherwise put off to the later of the two; a lease has to end within its output |
| `KernelResults.FinishWaitsForNodeAndFence` | src/prefill_cache_sim/m12_kernel.py:620-678 | the same when a prefill finishes, where a fence in the past is refused |
| `KernelResults.AbortNeedsPartialProgress` | src/prefill_cache_sim/m12_kernel.py:745-813 | an abort is accepted exactly after a positive number of whole tokens short of the full output; without one the attempt completes at its finish |
| `KernelResults.CompletionIssuesRetry` | src/prefill_cache_sim/m12_kernel.py:815-886 | a retry is accepted exactly after an attempt that did not complete, within the budget its record shows, with a plan that may be issued |
| `KernelTimes.EveryAttemptTakesItsTime` | src/prefill_cache_sim/m12_kernel.py:511-886 | in every state of every run each attempt became ready at the later of its issue and the arrival its plan asked for, was prefilled for the price of its prompt, and has decoded, from its start to its finish or to the abort that cut it, exactly its emitted tokens at the decode rate; each stage begins only after the one before |
| `KernelTimes.StepInTime` | src/prefill_cache_sim/m12_kernel.py:511-886 | every step keeps this, whatever the policy answers |
| `KernelTimes.IssuedInTime` | src/prefill_cache_sim/m12_kernel.py:874-886 | a retry becomes ready at the later of now and its own arrival |
| `KernelTimes.AbortMoves` | src/prefill_cache_sim/m12_kernel.py:755-767 | an abort leaves the attempt with exactly the whole tokens it has decoded since its start |
| `KernelTimes.EventsArePoppedInOrder` | src/prefill_cache_sim/m12_kernel.py:456-462 | of two events the earlier is popped, of simultaneous ones completions before lease boundaries, prefill finishes, decode starts, readiness, prefill starts and arrivals, and of one kind the one pushed first |
| `KernelReport.NoRecordIff` | src/prefill_cache_sim/m12_kernel.py:917-924 | an attempt has no record, and the report raises, exactly if it completed in time with another length than the true one |
| `KernelReport.CompletedMeans` | src/prefill_cache_sim/m12_kernel.py:910-929 | an attempt is reported as completed if and only if it completed by the end of the window, then with the true output length, and as meeting its objective if and only if its tier allows the time from arrival to finish |
| `KernelReport.UsefulWorkMeans` | src/prefill_cache_sim/m12_kernel.py:940-951 | nothing of a completed attempt is wasted, and of another one everything but a reusable prefill |
| `KernelReport.ReportAcceptedIff` | src/prefill_cache_sim/m12_metrics.py:276-318 | the metrics accept the records of a run if and only if no abort has given an attempt the index of another attempt of its request |
| `KernelReport.RunReportAddsUp` | src/prefill_cache_sim/m12_kernel.py:888-900 | for every such run the records are consistent, and issued work is waste, missed objectives, winner work and a non-negative remainder, with the credited tokens never above those offered |
| `KernelResults.DecodesNeverOverlap` | src/prefill_cache_sim/m12_kernel.py:623-678 | in a state whose D nodes are apart, two attempts issued for one D node never decode at the same time, including after an abort freed the node early |
| `KernelResults.DecodesStartOnce` | src/prefill_cache_sim/m12_kernel.py:679-744 | all bookings of all D nodes name an attempt at most once |
| `KernelResults.BusyMeansOneHolder` | src/prefill_cache_sim/m12_kernel.py:561-567 | `p_busy` holds exactly when one attempt is scheduled or running there, and no node idles while attempts wait |
| `KernelResults.ProxyIsUnstartedWork` | src/prefill_cache_sim/m12_kernel.py:576-585 | `queued_work` is the maximum prefill work of exactly the ready, unstarted attempts of the node, each counted once |
| `KernelResults.PrefillsInReadyOrder` | src/prefill_cache_sim/m12_kernel.py:560-567 | an attempt ready earlier for the same P node has finished its prefill before a later one starts |
| `KernelResults.PrefillsNeverOverlap` | src/prefill_cache_sim/m12_kernel.py:600-619 | prefills of one P node are disjoint |
| `KernelSafety.FirstIsLeast` | src/prefill_cache_sim/m12_kernel.py:563-563 | the waiting heap pops its front: it is a FIFO |
| `KernelResults.CompletesAtMostOnce` | src/prefill_cache_sim/m12_kernel.py:815-843 | every attempt completes at most once, and only after it decoded |
| `KernelResults.DrainedMeansDone` | src/prefill_cache_sim/m12_kernel.py:511-886 | when the queue is empty every issued attempt has completed: none is lost in a queue, behind a gate or at a lease boundary |
| `KernelResults.AttemptsRunOut` | src/prefill_cache_sim/m12_kernel.py:856-862 | for any policy and whatever its aborts name, a request gets at most one attempt, its retry budget, and as many more as one-token delays fit the window |
| `KernelResults.OvertimeIsDelaysThatFit` | src/prefill_cache_sim/m12_kernel.py:856-862 | those further attempts are exactly the one-token delays that still begin in the window, and none if decoding is free |
| `KernelBudget.AttemptsAreBounded` | src/prefill_cache_sim/m12_kernel.py:856-862 | in a state within the budget a request has at most `retry_budget + 1` attempts |
| `KernelBudget.StepBudgetIff` | src/prefill_cache_sim/m12_kernel.py:745-862 | a step stays within the budget if and only if it is not an abort that names an index below the budget for an attempt issued at or beyond it |
| `KernelBudget.BudgetThroughoutIff` | src/prefill_cache_sim/m12_kernel.py:467-886 | over every run the budget holds throughout if and only if no abort does that |
| `KernelBudget.RunAttemptsAreBounded` | src/prefill_cache_sim/m12_kernel.py:856-862 | in every state of such a run every request has at most `retry_budget + 1` attempts |
| `KernelBudget.OverspentRetryIff` | src/prefill_cache_sim/m12_kernel.py:856-862 | an attempt issued at or beyond the budget is retried, by a plan otherwise in order, if and only if an abort has replaced its index by one below the budget |
| `KernelExamples.AbortsOverspend` | src/prefill_cache_sim/m12_kernel.py:764-764 | the bound fails without that condition: for every budget from 1 on and every n there is a run from the start in which one request gets n + 1 attempts |
| `KernelResults.AbortWakesSleepers` | src/prefill_cache_sim/m12_kernel.py:765-797 | after an abort the D node it names is free at once and every attempt gated behind that node has a wake-up at that very instant |
| `KernelAborts.StepApartIff` | src/prefill_cache_sim/m12_kernel.py:745-767 | a step keeps the bookings of every D node apart if and only if it is not an abort that frees a node other than its own which is booked beyond now |
| `KernelAborts.ApartThroughoutIff` | src/prefill_cache_sim/m12_kernel.py:467-886 | over every run no D node is ever booked twice if and only if no abort does that |
| `KernelAborts.AbortFreesIdleNodeIff` | src/prefill_cache_sim/m12_kernel.py:755-767 | nobody else is decoding on the node an abort frees if it is its own or was not booked beyond now, and only then unless an earlier abort has moved an attempt off that node |
| `KernelExamples.ForeignAbortDoubleBooks` | src/prefill_cache_sim/m12_kernel.py:755-767 | a concrete run of thirteen turns from the start in which an abort names the D node of another running attempt and the retry then decodes there beside it |
| `KernelTermination.StepDescends` | src/prefill_cache_sim/m12_kernel.py:511-886 | whatever an abort names, every step within the horizon lowers the lexicographic measure (stages and retries ahead, wake-ups earlier than their node, a potential, queue size) if a fence that delays lowers the potential |
| `KernelTermination.RegatingDescends` | src/prefill_cache_sim/m12_kernel.py:693-708 | a gated attempt that is put off comes back when the booking ends, so one early wake-up disappears, or when its fence says, so potential is used up |
| `KernelTermination.SomeTurnIsLast` | src/prefill_cache_sim/m12_kernel.py:511-514 | from any safe state and for any policy, some turn is the last or delays a gated decode without lowering the potential |
| `KernelTermination.EveryRunEnds` | src/prefill_cache_sim/m12_kernel.py:467-514 | every run from an accepted workload ends if some potential, a number depending on the attempt, the time and the stages of all attempts, falls with every delay a fence causes; the default fence causes none |
| `KernelTermination.StableRunsEnd` | src/prefill_cache_sim/m12_kernel.py:350-357 | every run ends whose fences do not change their mind: asked again before any attempt has moved on, they name the same time |
| `KernelTermination.EndlessRunsDelayLessAndLess` | src/prefill_cache_sim/m12_kernel.py:686-708 | an endless run would put decodes off by arbitrarily small positive delays |
| `KernelExamples.EndlessRunExists` | src/prefill_cache_sim/m12_kernel.py:686-708 | such a run exists: a fence that answers halfway to the horizon every time is accepted for ever |
| `KernelRun.CausalKernel.Run` | src/prefill_cache_sim/m12_kernel.py:467-886 | for a policy that on its own runs pays for its delays the loop terminates; it is a run of the state machine from the start in which every answer was given to an exact view; without a refused answer it ends safe with every event up to the horizon processed |
| `KernelRun.SpacedPolicyPays` | src/prefill_cache_sim/m12_kernel.py:686-708 | a policy whose delays on its own runs have a positive lower bound pays for them |
| `KernelRun.StablePolicyPays` | src/prefill_cache_sim/m12_decode.py:508-540 | so does one whose fences on its own runs do not change their mind, as a fixed fence per attempt |
| `KernelRun.CausalKernel.RunFor` | src/prefill_cache_sim/m12_kernel.py:467-886 | the first turns of the loop under any policy whatever: a run of the state machine, and safe |
| `KernelRun.PolicyDeterminesRun` | src/prefill_cache_sim/m12_kernel.py:467-886 | two runs of one policy on one workload that wake their sleepers in the same orders are the same run, event by event and state by state |
| `KernelRun.CausalKernel.TakeTurn` | src/prefill_cache_sim/m12_kernel.py:511-886 | one turn of the loop pops the least event and is one legal turn of the state machine with the policy's own answers, or the horizon is passed and nothing changed |
| `KernelRun.CausalKernel.HandleEvent` | src/prefill_cache_sim/m12_kernel.py:511-886 | popping and handling one event in place, with hooks asked through lazily refreshed snapshots, is exactly one step of the state machine with answers to exact views |
| `KernelRun.HooksSeeBeforeAndAfter` | src/prefill_cache_sim/m12_kernel.py:819-855 | at a completion the mutation hook is shown the caches as they were and the retry hook the caches as the step leaves them, with everything else the same |
| `KernelRun.CausalKernel.HandleCompletion` | src/prefill_cache_sim/m12_kernel.py:815-886 | the mutation hook is asked before the caches change and the retry hook after; the tables become those of the completion step and the snapshots stay exact |
| `KernelRun.CausalKernel.WakeAll` | src/prefill_cache_sim/m12_kernel.py:768-797 | wakes exactly the attempts of the node that sleep beyond now, each once |
| `KernelRun.CausalKernel.NextEventInQueue` | src/prefill_cache_sim/m12_kernel.py:512-512 | the popped event is minimal in (time, priority, serial) |
| `CacheSnapshots.CacheSnapshotStore.View` | src/prefill_cache_sim/m12_kernel.py:299-314 | the view equals an eager copy of all node caches, copies only dirty nodes, and never writes to a mapping handed out before |
| `CacheSnapshots.CacheSnapshotStore.Refresh` | src/prefill_cache_sim/m12_kernel.py:301-307 | re-freezing only the dirty nodes yields the whole cache |
| `CacheSnapshots.CacheSnapshotStore.ApplyMutation` | src/prefill_cache_sim/m12_kernel.py:1055-1069 | the in-place mutation computes the new node cache and reports whether anything changed, or raises |
| `CacheSnapshots.CacheSnapshotStore.Complete` | src/prefill_cache_sim/m12_kernel.py:834-843 | invalidating a node only when its mutation reports a change keeps every later view exact |
| `CacheSnapshots.CompletionViews` | src/prefill_cache_sim/m12_kernel.py:822-855 | the mutation hook sees the caches before the completion, the retry hook those after it, and the first view has not changed |
| `CacheSnapshots.ChangesAreReported` | src/prefill_cache_sim/m12_kernel.py:1061-1069 | the change flag never misses a change |
| `CacheSnapshots.CompletedKeysView.Contains` | src/prefill_cache_sim/m12_kernel.py:247-248 | a key is in the lazy union exactly when some node holds it |
| `CacheSnapshots.CompletedKeysView.Iterate` | src/prefill_cache_sim/m12_kernel.py:250-260 | every key of the union comes out exactly once, at the cost of the total size of all nodes |
| `CacheSnapshots.UnionMeans` | src/prefill_cache_sim/m12_kernel.py:247-260 | the union holds a key exactly when some node does |
| `CacheSnapshots.VisitsCoverUnion` | src/prefill_cache_sim/m12_kernel.py:250-260 | a walk visits at least the union, and exactly the union when no two nodes share a key |
| `CacheSnapshots.CopyingCosts` | src/prefill_cache_sim/m12_kernel.py:301-307 | copying costs nothing when no node is dirty and everything when all are |
| `ChainProtocol.WholeRunsDeliverExactlyOnce` | src/prefill_cache_sim/chain/harness.py:647-730 | from the start, whatever arrives: the i-th frame has sequence i, epochs never fall, frame count, delivered, fence sequence and durable ack agree, `attempt == epoch + retry_used`, and the lease, preemption and retry bounds hold |
| `ChainProtocol.EveryRunIsSafe` | src/prefill_cache_sim/chain/harness.py:516-950 | every input sequence from a safe state leads to a safe state that undoes nothing: epochs, frames, legs, terminals and exhaustion only grow, and a fence past the controller's epoch never meets it again |
| `ChainProtocol.StepKeeps` | src/prefill_cache_sim/chain/harness.py:516-950 | every transition, including those that move state and then raise, keeps the invariant |
| `ChainProtocol.DeliverKeeps` | src/prefill_cache_sim/chain/harness.py:647-689 | a frame of any epoch and sequence keeps the stream, the fence and the durable ack in agreement |
| `ChainProtocol.DeliverAnswers` | src/prefill_cache_sim/chain/harness.py:656-689 | an open request accepts exactly the next frame of the fence's epoch |
| `ChainProtocol.EmissionIsDeduplicated` | src/prefill_cache_sim/chain/harness.py:151-161 | of any run of frames a leg emits, exactly those the user still waits for are surfaced, in order |
| `ChainProtocol.SupersededEmissionIsSilent` | src/prefill_cache_sim/chain/harness.py:151-161 | a superseded or orphan leg may emit any run of frames and none is surfaced |
| `ChainProtocol.SupersededLegsStaySilent` | src/prefill_cache_sim/chain/harness.py:691-730 | after any further run, no frame stamped by a leg once superseded is accepted |
| `ChainProtocol.AdmitKeeps` | src/prefill_cache_sim/chain/harness.py:549-598 | admitted legs have strictly increasing epochs and attempt indices; the active one carries the fence's epoch |
| `ChainProtocol.RejectKeeps` | src/prefill_cache_sim/chain/harness.py:600-639 | a rejection keeps `attempt == epoch + retry_used` and the retry bound |
| `ChainProtocol.ExpireKeeps` | src/prefill_cache_sim/chain/harness.py:691-730 | an expiry keeps the invariant even when it fences the leg and then raises |
| `ChainProtocol.SelfAbortKeeps` | src/prefill_cache_sim/chain/harness.py:825-835 | a granted self-abort moves both fences together and leaves every leg below them |
| `ChainProtocol.ControllerNeverObjects` | src/prefill_cache_sim/preemption.py:159-172 | whenever the harness consults the controller, none of its stale-epoch, diverged-authority or stale-store errors can fire |
| `ChainProtocol.CrashKeeps` | src/prefill_cache_sim/chain/harness.py:865-914 | a restart from durable state alone loses no acknowledged frame and fences every earlier leg |
| `ChainOutcomes.ContinuationIsPromptAndFrames` | src/prefill_cache_sim/chain/harness.py:691-730 | a lease that expires in time answers with the prompt plus every frame the user has; it runs out of rounds exactly when the attempt index has reached `max_rounds`, and then fences the leg all the same |
| `ChainOutcomes.RestartResumesBehindFrames` | src/prefill_cache_sim/chain/harness.py:865-914 | a restart answers with the number of frames the user has, keeps budget, failed hosts and waste, and turns the running leg into an orphan; it is refused exactly after the terminal or without a durable ack |
| `ChainOutcomes.RestartForgetsVolatile` | src/prefill_cache_sim/chain/harness.py:865-914 | two clients with the same durable record restart alike, whatever their fences, counters, commits and selections were |
| `ChainOutcomes.DropsAreTold` | src/prefill_cache_sim/chain/harness.py:672-680 | each dropped frame counts under exactly one reason: an epoch that is over, a frame the user has, or one that comes too early |
| `ChainOutcomes.AdmissionIsOwnersChoice` | src/prefill_cache_sim/chain/harness.py:549-598 | a leg is admitted exactly when none is active, a prefill is committed and the owner selected a host (the one the client names, if it names one), and it runs on that host |
| `ChainOutcomes.RefusalCostsRetry` | src/prefill_cache_sim/chain/harness.py:600-639 | a refused admission answers whether an attempt is left, and adds the refusing host, and no other, to the failed ones |
| `ChainOutcomes.RollbackBeforeOutput` | src/prefill_cache_sim/chain/harness.py:524-547 | a prefill can be rolled back exactly until its first frame is out or a leg runs on it |
| `ChainOutcomes.CheckpointEndsLegExactlyWhen` | src/prefill_cache_sim/chain/harness.py:734-844 | the exact conditions under which a checkpoint ends its leg and under which it is refused, in terms of the report, the configuration and the request; otherwise nothing changes |
| `ChainOutcomes.ControllerAcceptsExactlyWhen` | src/prefill_cache_sim/preemption.py:152-191 | the controller objects exactly to a leg of another epoch and, when it would end the leg, to a fence that moved on or a later stored checkpoint |
| `ChainOutcomes.RaisingChangesNothing` | src/prefill_cache_sim/chain/harness.py:516-689 | a call that raises changes nothing |
| `ChainOutcomes.RaisingKeepsLeg` | src/prefill_cache_sim/chain/harness.py:691-914 | but for the lease that ran out of rounds |
| `ChainOutcomes.NegotiatedMeans` | src/prefill_cache_sim/chain/protocol.py:152-171 | a capability is available if and only if both sides speak one version and the instance reported it, or the owner never asked for it |
| `ChainOutcomes.StepCountsFrames` | src/prefill_cache_sim/chain/harness.py:582-585 | the frames of the attempt are those surfaced since the last admission or restart |
| `ChainOutcomes.LegsConsume` | src/prefill_cache_sim/chain/harness.py:549-639 | over every run each leg and each refusal has consumed a prefill commit and a selection of its own |
| `ChainOutcomes.BooksAreTrue` | src/prefill_cache_sim/chain/harness.py:541-541 | over every run waste is the work of the rollbacks that went through, and the failed hosts are those that refused an admission |
| `ChainSelection.SnapshotNamesHostsOnce` | src/prefill_cache_sim/chain/protocol.py:187-197 | a snapshot is well formed exactly when its set of hosts has as many members as its non-empty list, and each has a token count |
| `ChainSelection.BaselineIndex` | src/prefill_cache_sim/chain/protocol.py:279-285 | the baseline is the first candidate not excluded, and is missing exactly when all are |
| `ChainSelection.SelectorIndex` | src/prefill_cache_sim/chain/protocol.py:287-296 | the cache-aware choice has the most cached tokens among the candidates not excluded, ties to the earlier one |
| `ChainSelection.PlacesUnlessRefused` | src/prefill_cache_sim/chain/harness.py:313-376 | a leg is placed if and only if a budget is left, the exclusions are proven, some candidate is not excluded, and required mode finds no fault |
| `ChainSelection.OneBestOneFirst` | src/prefill_cache_sim/chain/protocol.py:279-296 | at most one host is the best and at most one the first |
| `ChainSelection.LegGoesToBestOrFirst` | src/prefill_cache_sim/chain/harness.py:338-376 | with no timeout, no error, a view neither too old nor from a past epoch, an accepted handshake with scores, and a mode that enforces, the selector is applied and the leg goes to a candidate with more cached tokens than every allowed one before it and no fewer than any after; otherwise it goes to the first allowed one |
| `ChainSelection.FaultsFailOpen` | src/prefill_cache_sim/chain/harness.py:387-401 | with a timeout, an error, a view older than allowed or from a past epoch, or a refused handshake, the selector is never applied: required mode raises, and the others place the first allowed candidate with exactly the first of these reasons |
| `ChainSelection.HealthySelectorIsUsed` | src/prefill_cache_sim/chain/harness.py:360-376 | without any of these nothing fails open: shadow mode records the best candidate, the enforcing modes apply it, and off does neither |
| `ChainSelection.WithoutSelectorAsIfOff` | src/prefill_cache_sim/chain/harness.py:338-376 | in off and shadow mode, without negotiated scores, or with a fault, the host and the refusals are those of the switched-off mode, except that required mode refuses a fault |
| `ChainSelection.Answer` | src/prefill_cache_sim/chain/harness.py:329-376 | whatever the mode, a placed leg runs on a candidate that is not excluded, and exclusions come only from failed legs |
| `ChainHarnessObjects.DecodeLeg.Emit` | src/prefill_cache_sim/chain/harness.py:151-161 | the emitting loop is `k` deliveries, advances the leg's own sequence by `k` and counts the accepted ones |
| `ChainHarnessObjects.ChainHarness.DeliverFrame` | src/prefill_cache_sim/chain/harness.py:647-689 | the method on shared objects takes exactly the protocol's delivery step; its errors are exactly finished, never admitted, or a forged epoch |
| `ChainHarnessObjects.ChainHarness.Select` | src/prefill_cache_sim/chain/harness.py:313-452 | selection answers as specified, moves only the placement, and remembers the newest view epoch |
| `ChainHarnessObjects.ChainHarness.AdmitDecode` | src/prefill_cache_sim/chain/harness.py:549-598 | admission takes the protocol's step and creates a leg at the delivered position |
| `ChainHarnessObjects.ChainHarness.RejectDecode` | src/prefill_cache_sim/chain/harness.py:600-639 | rejection takes the protocol's step |
| `ChainHarnessObjects.ChainHarness.ExpireLease` | src/prefill_cache_sim/chain/harness.py:691-730 | expiry takes the protocol's step, including the one that fences and raises |
| `ChainHarnessObjects.ChainHarness.ReportCheckpoint` | src/prefill_cache_sim/chain/harness.py:734-844 | a checkpoint report takes the protocol's step on the aliased fence and controller, and a grant never rewinds the epoch |
| `ChainHarnessObjects.ChainHarness.CrashAndRestart` | src/prefill_cache_sim/chain/harness.py:865-914 | the restart replaces the fence object, leaves the controller with the old one, and takes the protocol's step |
| `ChainHarnessObjects.ChainHarness.Finish` | src/prefill_cache_sim/chain/harness.py:938-950 | at most one terminal, and only ERROR once a budget is gone |
| `Preemption.OutputAuthority.Accept` | src/prefill_cache_sim/preemption.py:127-131 | a frame is accepted exactly when it carries the epoch and the next sequence, and only then does the sequence move |
| `Preemption.OutputAuthority.AdvanceEpoch` | src/prefill_cache_sim/preemption.py:121-125 | the epoch only moves forward and the sequence never moves back |
| `Preemption.R2CheckpointStore.Put` | src/prefill_cache_sim/preemption.py:101-110 | a checkpoint is stored exactly when its (epoch, sequence) is larger than the stored one |
| `Preemption.CooperativePreemptionController.Decide` | src/prefill_cache_sim/preemption.py:193-221 | a self-abort is granted if and only if the planner answers, the quantum is served, the bound is not reached and moving beats keeping by the margin |
| `Preemption.MovingCosts` | src/prefill_cache_sim/preemption.py:212-218 | the value of moving falls by exactly their weights with stall, duplicate risk, checkpoint and recovery work, and rises with the completion value and its probability |
| `Preemption.KeepingCosts` | src/prefill_cache_sim/preemption.py:205-211 | the value of keeping falls with remaining work and interference and rises with the wait, in proportion to the tenant weight |
| `Preemption.ScoresAreSeparate` | src/prefill_cache_sim/preemption.py:205-218 | neither score looks at the inputs of the other, and both are zero for nothing |
| `Preemption.DearerMovesStayKept` | src/prefill_cache_sim/preemption.py:205-221 | a leg not worth moving stays so while moving gets dearer, keeping cheaper and the wait longer |
| `Preemption.CooperativePreemptionController.DecisionSaysWhy` | src/prefill_cache_sim/preemption.py:193-221 | the recorded reason is the first that stopped the move, and the scores are those compared |
| `Preemption.R2CheckpointStore.StoreMovesForward` | src/prefill_cache_sim/preemption.py:101-110 | only a later epoch, or a later frame of the same epoch, gets past a stored checkpoint |
| `Preemption.CooperativePreemptionController.ReportCheckpoint` | src/prefill_cache_sim/preemption.py:152-191 | each of the three errors fires exactly in its case and changes nothing; a grant advances the shared fence and stores the checkpoint |
| `EvictionPolicies.EvictionPolicy.Victims` | src/prefill_cache_sim/eviction.py:31-47 | the walk over the policy's order yields the specified victims |
| `EvictionPolicies.VictimsAreEligible` | src/prefill_cache_sim/eviction.py:31-47 | victims are distinct and resident, and a pinned block is never among them |
| `EvictionPolicies.FirstEligibleComplete` | src/prefill_cache_sim/eviction.py:92-107 | fewer victims than required means nothing else was eligible |
| `EvictionPolicies.PromoteKeeps` | src/prefill_cache_sim/eviction.py:69-78 | promotion with demotion keeps the two segments disjoint and tracks the same blocks |
| `EvictionPolicies.AdmitKeeps` | src/prefill_cache_sim/eviction.py:120-128 | second-hit admission touches only the ghost list |
| `EvictionOrder.FifoIgnoresHits` | src/prefill_cache_sim/eviction.py:17-18 | under FIFO a hit leaves the order of eviction as it is |
| `EvictionOrder.HitMovesToEnd` | src/prefill_cache_sim/eviction.py:53-78 | under LRU, second-hit and segmented LRU alike a hit block becomes the last to be evicted and the others keep their order |
| `EvictionOrder.HitProtects` | src/prefill_cache_sim/eviction.py:69-78 | a hit fills the protected segment up to its capacity and never beyond |
| `EvictionOrder.NewBlockJoins` | src/prefill_cache_sim/eviction.py:20-22 | a new block is the last to be evicted, but under segmented LRU it goes before every protected block |
| `EvictionOrder.BlockLeaves` | src/prefill_cache_sim/eviction.py:84-86 | a block that leaves takes nothing but itself out of the order |
| `EvictionOrder.VictimsComeFirst` | src/prefill_cache_sim/eviction.py:31-47 | no block is evicted while an eligible one stands before it in the order |
| `EvictionOrder.OnlySecondHitRefuses` | src/prefill_cache_sim/eviction.py:120-128 | only second-hit admission refuses, and each refusal buys one admission |
| `EvictionOrder.RememberedWhileFewOthersMiss` | src/prefill_cache_sim/eviction.py:120-128 | a refused block is admitted on its next miss if and only if fewer other blocks than the ghost list holds were refused in between |
| `ResidencyHistory.OpeningTells` | src/prefill_cache_sim/cache.py:146-148 | an insertion opens an interval that is right about every instant, before and after |
| `ResidencyHistory.ClosingTells` | src/prefill_cache_sim/cache.py:168-171 | a removal closes the open interval at its instant, even for a block inserted at that same instant |
| `NodeCache.PlaceKeeps` | src/prefill_cache_sim/cache.py:106-152 | a placement never exceeds capacity and never drops a pinned block or one placed by the same request |
| `NodeCache.RunKeeps` | src/prefill_cache_sim/cache.py:45-160 | every run with non-decreasing times stays within capacity, and policy, residency and history agree |
| `NodeCache.PreviewAtIsHistorical` | src/prefill_cache_sim/cache.py:86-104 | a historical preview at `t` is the ordinary preview of the cache as it stood after all operations at times up to `t` |
| `CacheBooks.LookupCounts` | src/prefill_cache_sim/cache.py:45-61 | a lookup counts one access for each leading resident block and changes neither residency nor history |
| `CacheBooks.LookupReports` | src/prefill_cache_sim/cache.py:62-71 | it reports the leading resident blocks, their tokens, the rest as missed, and as stranded the resident positions behind the first miss |
| `CacheBooks.RegretCountsReturns` | src/prefill_cache_sim/cache.py:50-55 | after any run in time, regret grows exactly when the first miss of a lookup is a block that was resident before |
| `CacheBooks.PollutionCountsVictims` | src/prefill_cache_sim/cache.py:137-145 | pollution grows by the victims looked up at most once since they entered, and every other block keeps its count |
| `CacheBooks.EntersUntouched` | src/prefill_cache_sim/cache.py:146-149 | a block enters without accesses |
| `CacheBooks.PlacementOutcome` | src/prefill_cache_sim/cache.py:118-152 | what becomes of one block: refreshed, refused admission, entered, entered in place of the first spare block in eviction order, or rejected exactly when the cache is full of pinned blocks and the request's own |
| `CacheBooks.PlacementAddsUp` | src/prefill_cache_sim/cache.py:106-160 | every block of a placement is accounted for once |
| `LocalNodeCaches.LocalNodeCache.Lookup` | src/prefill_cache_sim/cache.py:45-71 | the lookup loop touches exactly the leading resident blocks and reports hits, misses, regret and stranded blocks |
| `LocalNodeCaches.LocalNodeCache.Preview` | src/prefill_cache_sim/cache.py:73-84 | the preview counts the leading resident blocks and changes nothing |
| `LocalNodeCaches.LocalNodeCache.PreviewAt` | src/prefill_cache_sim/cache.py:86-104 | the historical preview counts the leading blocks whose intervals cover the instant |
| `LocalNodeCaches.LocalNodeCache.Place` | src/prefill_cache_sim/cache.py:106-160 | the placement loop is the specified placement, with its four counters |
| `RecencyStack.StackStep` | src/prefill_cache_sim/eviction.py:50-56 | moving a block to the top of the whole recency stack and cutting at `c` is one LRU reference on the cut stack |
| `RecencyStack.ReferencedForm` | src/prefill_cache_sim/eviction.py:50-56 | referencing a list of blocks sinks the rest of the stack in order and stacks the list on top |
| `CacheReplay.LruPlaces` | src/prefill_cache_sim/cache.py:117-152 | a placement with room for its request is a run of LRU references: it evicts only the oldest block |
| `CacheReplay.LruIsTopOfStack` | src/prefill_cache_sim/simulator.py:295-306 | when no request has more distinct blocks than the capacity, the LRU list is exactly the `C` most recently referenced distinct blocks, in order |
| `CacheReplay.LruInclusion` | src/prefill_cache_sim/simulator.py:295-306 | a larger LRU cache contains a smaller one at every point of the replay |
| `CacheReplay.LruHitsGrowWithCapacity` | src/prefill_cache_sim/simulator.py:295-306 | more capacity never lowers the prefix hits |
| `CacheReplay.FirstBlockStays` | src/prefill_cache_sim/cache.py:124-152 | after a node has served a request it holds the first block of that request, however long the request is |
| `CacheReplay.BuriedFirstBlockBreaksStack` | src/prefill_cache_sim/cache.py:124-152 | from any replay in which the stack property holds, a request whose first block is followed, after its last mention, by at least C other distinct blocks breaks it |
| `CacheReplay.LongRequestBreaksStack` | src/prefill_cache_sim/cache.py:124-152 | so does a request that names its first block once and has more distinct blocks than the capacity |
| `CacheReplay.StackHoldsThroughoutIffRequestsFit` | src/prefill_cache_sim/simulator.py:295-306 | for requests that name their first block once, whatever else they repeat, the LRU list is the top of the recency stack after every request of the replay if and only if no request has more distinct blocks than the capacity |
| `CacheReplay.RepeatMayKeepStack` | src/prefill_cache_sim/cache.py:124-152 | when a request comes back to its first block that condition is not exact: one with two distinct blocks keeps the stack of a one-block cache |
| `CacheReplay.AnalyzeCeiling` | src/prefill_cache_sim/analyzer.py:68-92 | the analyzer's loop computes the infinite-cache ceiling |
| `CacheReplay.CeilingBoundsHits` | src/prefill_cache_sim/analyzer.py:68-92 | no selector, policies or capacities hit more than the ceiling |
| `CacheReplay.CeilingIsReached` | src/prefill_cache_sim/analyzer.py:68-92 | one node whose capacity covers all distinct blocks reaches the ceiling under any policy that always admits |
| `CacheReplay.SecondHitMissesCeiling` | src/prefill_cache_sim/eviction.py:120-128 | for every capacity and every second-hit policy that tracks nothing, two requests for one block unknown to its ghost list hit nothing, one below the ceiling |
| `CacheReplay.CeilingReachedIffAlwaysAdmits` | src/prefill_cache_sim/analyzer.py:68-92 | on a node of capacity at least 1 that holds nothing, a policy reaches the ceiling on every chronological replay whose distinct blocks fit if and only if it is not second-hit admission |
| `CacheOnlySimulator.RunCacheOnly` | src/prefill_cache_sim/simulator.py:295-329 | the cluster loop over separate cache objects is the replay, and its hits are the replay's hits |
| `CacheOnlySimulator.ServeOn` | src/prefill_cache_sim/simulator.py:302-306 | serving a request on one node leaves every other node alone |
| `QueuedReplay.EveryRunKeeps` | src/prefill_cache_sim/simulator.py:331-519 | in every reachable state of a node the pins count exactly the running requests' hit references and are resident, counters agree with queue and running set, and in dedup-wait mode production is exclusive |
| `QueuedRuns.EventDescends` | src/prefill_cache_sim/simulator.py:331-345 | with simultaneous events in heap order every event but an arrival lowers the measure: requests queued, prefills running, starts not yet parked behind a running producer |
| `QueuedRuns.EndlessRunsKeepArriving` | src/prefill_cache_sim/simulator.py:384-409 | a run of a node goes on for ever only if requests keep arriving: duplicate waits never do it |
| `QueuedRuns.WorkGoesOn` | src/prefill_cache_sim/simulator.py:491-519 | with concurrency at least 1, as long as a request is queued or running some event that is no arrival is next |
| `QueuedRuns.RunConserves` | src/prefill_cache_sim/simulator.py:331-489 | after every run whatever arrived is queued, running or finished, each as often as it arrived |
| `QueuedRuns.DrainedMeansServed` | src/prefill_cache_sim/simulator.py:331-519 | when nothing but arrivals can happen any more, exactly the requests that arrived have finished, each as often as it arrived |
| `QueuedReplay.MissedBlocksAreApart` | src/prefill_cache_sim/simulator.py:377-427 | in dedup-wait mode the missed blocks of two running prefills never overlap and together are the domain of `inflight` |
| `QueuedReplay.PlacementKeepsPins` | src/prefill_cache_sim/simulator.py:453-470 | whatever a placement evicts, no pinned block leaves residency |
| `QueuedReplay.ProducedMore` | src/prefill_cache_sim/simulator.py:425-426 | a prefill whose blocks nobody produces becomes their only producer |
| `QueuedReplay.ProducedWithout` | src/prefill_cache_sim/simulator.py:468-470 | a finished prefill takes exactly its own blocks out of `inflight` |
| `QueuedReplay.ProducersFinishLater` | src/prefill_cache_sim/simulator.py:379-409 | a wait ends exactly when a running producer finishes, and not before now |
| `QueuedReplay.ScheduleFills` | src/prefill_cache_sim/simulator.py:491-519 | scheduling fills the open slots or runs out of unscheduled requests, and loses no queued work |
| `QueuedReplay.BeginKeeps` | src/prefill_cache_sim/simulator.py:411-443 | beginning a prefill keeps the invariant |
| `QueuedReplay.FinishKeeps` | src/prefill_cache_sim/simulator.py:445-489 | finishing a prefill keeps the invariant |
| `QueuedTimes.PrefillTakesItsTokens` | src/prefill_cache_sim/simulator.py:411-427 | a start that need not wait adds one prefill, which takes `prefill_uncached_token_ms` for each token of the blocks behind the leading resident ones |
| `QueuedTimes.MissesTakeTime` | src/prefill_cache_sim/simulator.py:417-417 | a missed block with tokens takes time |
| `QueuedTimes.EveryPrefillWorksOff` | src/prefill_cache_sim/simulator.py:411-443 | in every state of every run each running prefill takes exactly its tokens' time |
| `QueuedTimes.RunsUntilItsFinish` | src/prefill_cache_sim/simulator.py:428-489 | over every run a prefill is on its node at every instant before its finish |
| `QueuedTimes.PrefillsOfOneSlotAreApart` | src/prefill_cache_sim/simulator.py:491-519 | with one slot, of two prefills of a node the earlier is over when the later begins |
| `QueuedTimes.ArrivalQueuesItsTokens` | src/prefill_cache_sim/simulator.py:355-361 | an arrival queues its prompt less the tokens the selector saw cached |
| `QueuedTimes.WaitIsPutOff` | src/prefill_cache_sim/simulator.py:379-409 | a start that waits is put off to the last producer, remembers since when and for how many tokens, and pins what it waits for |
| `QueuedTimes.WaiterLetsGo` | src/prefill_cache_sim/simulator.py:419-422 | a prefill that begins after a wait lets go of its own blocks and of no others |
| `QueuedTimes.FinishPlacesItsBlocks` | src/prefill_cache_sim/simulator.py:453-466 | a finishing prefill places its blocks at its finish, around the pins of the running and of the waiting |
| `QueuedTimes.FinishSparesPins` | src/prefill_cache_sim/simulator.py:455-456 | it evicts neither what others run on nor what they wait for |
| `QueuedSimulator.NodeRuntime.HandleStart` | src/prefill_cache_sim/simulator.py:362-443 | the start handler, on its own dictionaries and cache object, either waits for the last producer or begins |
| `QueuedSimulator.NodeRuntime.HandleFinish` | src/prefill_cache_sim/simulator.py:445-489 | the finish handler places around the pins, releases its own and hands out starts |
| `QueuedSimulator.NodeRuntime.HandOutStarts` | src/prefill_cache_sim/simulator.py:491-519 | the scheduling loop is the specified schedule |
| `QueuedSimulator.NodeRuntime.LastFinish` | src/prefill_cache_sim/simulator.py:379-383 | finds whether producers run, and the last of their finish times |
| `LeastSquares.NormalEquations` | src/prefill_cache_sim/calibration/fit.py:257-292 | the residuals of an accepted fit sum to zero and are orthogonal to tokens and to batch |
| `LeastSquares.FitIsOptimal` | src/prefill_cache_sim/calibration/fit.py:257-292 | no linear model has a smaller squared error |
| `LeastSquares.FitIsUnique` | src/prefill_cache_sim/calibration/fit.py:274-282 | a model with the same squared error is the fit |
| `LeastSquares.CollinearSweepIsRefused` | src/prefill_cache_sim/calibration/fit.py:274-276 | a sweep whose tokens and batch sizes are linearly related is always refused |
| `LeastSquares.GuardExcludesZero` | src/prefill_cache_sim/calibration/fit.py:274-276 | the rank guard leaves only positive determinants |
| `LeastSquares.GuardIsScaleAware` | src/prefill_cache_sim/calibration/fit.py:274-276 | a sweep passes the guard exactly if its determinant exceeds the tolerance, as it is and relative to the spread of tokens and batch |
| `LeastSquares.FitSaysWhy` | src/prefill_cache_sim/calibration/fit.py:244-276 | each refusal has its exact condition, and an accepted fit carries the kind and the number of its observations |
| `LeastSquares.ExactSweepIsRecovered` | src/prefill_cache_sim/calibration/fit.py:257-292 | an accepted sweep without noise gives back the model it came from |
| `WorkTaxonomy.StrictWinners` | src/prefill_cache_sim/m12_metrics.py:321-331 | the grouping loop keeps, per logical request, an eligible attempt with the least (finish, index), and credits exactly the requests that have one |
| `WorkTaxonomy.WinnerFinishesFirst` | src/prefill_cache_sim/m12_metrics.py:321-331 | the attempt credited finished no later than any eligible one of its request, and of those that finished together it has the least index |
| `WorkTaxonomy.RefusalSaysWhy` | src/prefill_cache_sim/m12_metrics.py:276-318 | a record is refused for the first of four reasons, each with its exact condition |
| `WorkTaxonomy.AcceptedMeans` | src/prefill_cache_sim/m12_metrics.py:276-318 | accepted are exactly the lists whose records match their requests and differ in key |
| `WorkTaxonomy.TaxonomyPartitionsWork` | src/prefill_cache_sim/m12_metrics.py:342-368 | issued work is waste plus SLO-missed plus winner work plus a remainder, which is the useful work of the attempts in neither class and never negative |
| `WorkTaxonomy.WinnersAreAttempts` | src/prefill_cache_sim/m12_metrics.py:356-362 | summing over the winners is summing each winning attempt once |
| `WorkTaxonomy.StrictUsefulWithinOffered` | src/prefill_cache_sim/m12_metrics.py:333-341 | strict useful tokens never exceed offered tokens, and there are at most as many winners as requests |
| `WorkTaxonomy.AllWonAllCredited` | src/prefill_cache_sim/m12_metrics.py:333-341 | if every request is won with its own tokens, input and output, all that was offered is credited |
| `WorkTaxonomy.JainBounds` | src/prefill_cache_sim/m12_metrics.py:453-457 | over n non-negative ratios Jain fairness is 0 or lies in [1/n, 1] |
| `JainFairness.OneIffEqualShares` | src/prefill_cache_sim/m12_metrics.py:453-457 | fairness is 1 if and only if somebody is served and all ratios are equal |
| `JainFairness.OneNthIffSingleTenant` | src/prefill_cache_sim/m12_metrics.py:453-457 | it is 1/n if and only if exactly one tenant is served |
| `JainFairness.EqualSharesOfSome` | src/prefill_cache_sim/m12_metrics.py:453-457 | when k of n tenants share alike and the others get nothing it is k/n |
| `JainFairness.ZeroIffNobodyServed` | src/prefill_cache_sim/m12_metrics.py:457-457 | it is 0 if and only if nobody is served |
| `JainFairness.UnitDoesNotMatter` | src/prefill_cache_sim/m12_metrics.py:453-457 | it does not depend on the unit of the ratios |
| `JainFairness.OrderDoesNotMatter` | src/prefill_cache_sim/m12_metrics.py:453-457 | nor on the order of the tenants |
| `CacheMirror.VictimsAreOldest` | src/prefill_cache_sim/m12_eviction.py:354-359 | the index names distinct keys of its own, as many as required or all it has |
| `CacheMirror.LruMutationChooses` | src/prefill_cache_sim/m12_eviction.py:346-373 | with an exact index the policy names its victims if and only if the new keys alone fit the capacity |
| `CacheMirror.KernelAcceptsIffNoOwnVictim` | src/prefill_cache_sim/m12_eviction.py:374-386 | the kernel accepts the mutation, and the index is again exactly the cache, if and only if no victim is one of the request's own keys |
| `CacheMirror.OwnKeyVictimIsRefused` | src/prefill_cache_sim/m12_kernel.py:1055-1069 | a concrete own-key victim that the kernel refuses |
| `CacheMirror.SkippedMutationDiverges` | src/prefill_cache_sim/m12_kernel.py:839-843 | when the kernel skips the mutation of an attempt that made nothing reusable, the index still mirrors the cache if and only if the mutation was empty |
| `CacheMirror.TurnMirrorsIffAgreeable` | src/prefill_cache_sim/m12_eviction.py:338-386 | a hit or completion is accepted and leaves the index mirroring the cache if and only if, before it, the new keys fit, no victim is an own key and, without reusable prefill, no key is new |
| `CacheMirror.EveryRunMirrors` | src/prefill_cache_sim/m12_eviction.py:322-386 | over every run of such turns from an empty node, the policy names victims, the kernel accepts each mutation and the index is the cache after every turn, if and only if every turn meets that condition |
| `CacheMirror.RecentKeysAreNeverVictims` | src/prefill_cache_sim/m12_eviction.py:351-359 | a request that fits the capacity and whose resident keys are the most recently used names none of its own keys |
| `CacheMirror.HitKeepsMirror` | src/prefill_cache_sim/m12_eviction.py:326-329 | a hit changes the order of the index, not its keys |
| `CacheMirror.HitIsMostRecent` | src/prefill_cache_sim/m12_eviction.py:326-329 | it makes its key the most recently used one and leaves the order of the others and the cache as they are |
| `CacheMirror.HitsThenCompletion` | src/prefill_cache_sim/m12_eviction.py:322-386 | a request that fits and hits its resident keys first never evicts a key of its own: its completion is accepted and leaves index and cache in step |
| `CacheMirror.NodeRecency.CacheMutation` | src/prefill_cache_sim/m12_eviction.py:338-386 | the in-place policy takes exactly the specified mutation, or refuses and leaves its index alone |
| `CacheMirror.NodeRecency.OldestResident` | src/prefill_cache_sim/m12_eviction.py:354-359 | the walk finds the oldest resident keys |
| `DigestLedger.FoldIsUnique` | scripts/run_m12_final.py:631-638 | the XOR over a key set does not depend on the order of its listing |
| `DigestLedger.BookedTells` | scripts/run_m12_final.py:620-640 | an entry that told the cache tells the cache the mutation asks for, including keys evicted and readmitted at once |
| `DigestLedger.BookedStays` | scripts/run_m12_final.py:620-640 | booking a mutation leaves an entry as it was if and only if what it adds is what it evicts, up to a collision of size and XOR |
| `DigestLedger.NothingComesOrGoes` | scripts/run_m12_final.py:620-640 | what an eligible mutation adds is what it evicts if and only if it asks for the cache as it is |
| `DigestLedger.CacheDigestLedger.UnknownNodeIsEmpty` | scripts/run_m12_final.py:609-611 | a node that was never booked tells the empty cache |
| `DigestLedger.CacheDigestLedger.Apply` | scripts/run_m12_final.py:620-640 | for any arguments: victims are taken out, new or just evicted keys are put in, duplicates counted once, and no other node changes |
| `DigestLedger.CacheDigestLedger.Observe` | scripts/run_m12_final.py:900-937 | the hook refuses exactly when the count differs from the size of the cache it sees, and otherwise books the mutation before the kernel decides whether to apply it |
| `DigestRuns.TurnAgreesIff` | src/prefill_cache_sim/m12_kernel.py:839-843 | from agreement on every node, a completion leaves every entry telling its cache if and only if the kernel applied the mutation, or the mutation it skipped would have added just what it evicts (or keys that collide with those) |
| `DigestRuns.AgreementPassesCheck` | scripts/run_m12_final.py:912-913 | from agreement the count check never fires: a completion goes through exactly when the kernel accepts it |
| `DigestRuns.CheckSeesOnlySizes` | scripts/run_m12_final.py:912-913 | after a skipped mutation the count check fires at the node's next completion exactly when the numbers of added and evicted keys differ |
| `DigestRuns.LedgerAgreesThroughoutIff` | scripts/run_m12_final.py:900-937 | over every sequence of completions on any number of nodes the ledger tells all caches throughout if and only if every completion that goes through meets that condition |
| `DigestRuns.FreshLedgerAgreesThroughoutIff` | scripts/run_m12_final.py:609-611 | the same from empty caches and a fresh ledger |
| `DigestRuns.OnlyCompletionsTouchCaches` | src/prefill_cache_sim/m12_kernel.py:834-843 | a completion takes the kernel's caches to what its mutation and the skip rule say, and no other event touches them |
| `DigestRuns.LedgerTellsKernelIff` | scripts/run_m12_final.py:900-937 | beside every run of the kernel from its start the ledger tells the kernel's caches after every turn if and only if every completion is applied or skipped in balance |
| `DigestRuns.SkippedAdmissionDiverges` | src/prefill_cache_sim/m12_kernel.py:839-843 | the failing turn: an aborted attempt with nothing reusable whose policy admits its key leaves the ledger counting a key the cache does not hold, and the next completion on the node is refused |
| `KernelExamples.SkippedAdmissionRun` | src/prefill_cache_sim/m12_kernel.py:839-843 | a run of the kernel from the start, of five turns, after which the ledger does not tell the cache |

## Left out

- Float rounding, `math.isclose`, `fsum` grouping tolerance, NaN and infinities: everything is exact reals; `_exact_elapsed_tokens` accepts exactly the whole multiples.
- Telemetry: event logs, transcripts, selection records, observers and counters that no decision reads. The frame, drop, expiry and self-abort counters that the properties mention are kept.
- KernelResults.DecodesNeverOverlap: asks for D nodes that are apart, which is not part of the invariant; `ApartThroughoutIff` says exactly which runs have them.
- KernelBudget.AttemptsAreBounded: asks for a state within the budget; `BudgetThroughoutIff` says exactly which runs stay there, and `AttemptsRunOut` bounds all others.
- KernelAborts.AbortFreesIdleNodeIff: a booking that an abort has moved elsewhere stays on its node, so there the second half speaks of nodes nobody has been moved off.
- KernelTermination.EveryRunEnds: assumes a potential that pays for delays; `EndlessRunExists` shows that some such assumption is needed. Floating-point times, where the number of instants before the horizon is finite, are not modelled.
- KernelTermination.StableRunsEnd: covers a fixed fence per attempt and one taken from an unchanged ledger; that every mode of `DecodeCapacityPolicy`, which may re-reserve inside the hook, is stable is not proved.
- KernelRun.CausalKernel.Run: needs a paying policy for termination only; `RunFor` says the same of the first turns of the loop under any policy.
- KernelRun.CausalKernel.WakeAll: the order in which an abort wakes sleepers is arbitrary, where the source sorts the keys; every property holds for every order.
- KernelRun.CausalKernel.NextEventInQueue: the heap is a finite set with extraction of a minimal event; the heap library is not part of this model.
- Kernel tables kept per node in parallel dictionaries are one record per node, `_Pending` objects are values in a map, and history fields (stages, bookings, ready lists) are added that no decision reads.
- KernelReport.RunReportAddsUp: says nothing of a run in which an attempt completed in time with another length than the request's true one, for which `_materialize` raises.
- Tenants, and of the final report everything but the outcome records and what the work taxonomy makes of them. Of a view's fields the clock, the union of cached keys and the remaining retry budget are left to the event, the snapshot and the attempt they derive from.
- The concrete admission, placement and decode policies behind the kernel's hooks: they appear as arbitrary answers. The census-regret eviction mode, `ClusterCacheCensus`, `choose_eviction_victims` and the cohort estimator.
- CacheMirror.EveryRunMirrors: the periodic census refresh is not a turn; with an exact index its `setdefault` adds no key.
- DigestLedger.CacheDigestLedger.Apply: key digests are an arbitrary function to 256 bits; SHA-256 itself is not part of this model, and what it makes unlikely appears as the collision clauses.
- WorkTaxonomy.TaxonomyPartitionsWork: of an attempt's shape only the input tokens are compared with its request, and the checks on observation window and pool capacity are omitted.
- LeastSquares.FitIsOptimal: the residual quantiles of `ResidualSummary` are omitted.
- CacheReplay.StackHoldsThroughoutIffRequestsFit: the exact condition is for requests that name their first block once; for one that comes back to it, `LruIsTopOfStack` still gives the stack property whenever each request has at most `C` distinct blocks, `BuriedFirstBlockBreaksStack` breaks it when `C` others follow the last mention, and `RepeatMayKeepStack` shows that the cases between are not decided by the number of distinct blocks.
- QueuedReplay.EveryRunKeeps: one node at a time, with the next event any earliest event of that node (`QueuedRuns` adds the heap's order of simultaneous events); request identities are taken to be distinct, wait-time counters are omitted, and nothing is claimed about waiter pins when several waiters share a block.
- Eviction policies are one datatype rather than classes with dynamic dispatch.
- `remove_for_test`, selectors, sizing, lifecycle, transport, calibration labels, gate verdicts, command line and artifact writing.
