# A verified model of the onramp service

The onramp service turns freight rate sheets into normalized, reviewed lanes. An upload becomes a job; four
linked tasks classify, extract, normalize and validate it; an outbox dispatcher posts the outcome; an archive
sweep moves old results to a bucket. This project models the parts whose correctness spans several functions
or several processes, in Dafny 4.11. `dafny verify dfyconfig.toml` checks everything. Automatic
induction is switched off for every lemma: each proof is what its body says.

## Layout

| files | part |
|---|---|
| `Prelude`, `Ordering`, `Counting` | lists, sorting, majorities |
| `Lanes` | the ratesheet entities and the UN/LOCODE shape |
| `OutboxMachine`, `OutboxUntimed`, `OutboxTimed`, `OutboxTight`, `OutboxLiveness`, `OutboxWorker` | the outbox dispatcher |
| `Keys`, `Consensus`, `ConsensusLaws`, `Correction`, `Conformal` | voting and scoring |
| `ExcelScan`, `ExcelExtract`, `Edifact`, `StageTwo` | Stage 2 |
| `Normalizer`, `RulesEngine`, `Stage4`, `Accounting`, `FiveVotes`, `SharedIds`, `LiftedRows` | Stages 3 and 4 |
| `Database` | tables and transactions |
| `PipelineMachine`, `PipelineSafety`, `PipelineSteps`, `PipelineTheorems`, `PipelineLanes`, `PipelineTasks` | the job pipeline, with intake and archive |

**Dispatcher.** Any number of drain ticks run as one machine of atomic steps over shared rows, Redis leases and
one clock; each tick keeps the rows it selected, stale as they may be. The steps are the SELECT, the SET NX,
the end of the handler, the two commits, their failures, and crashes. Two parameters bound the time from SELECT
to lease (`wait`) and from lease to commit (`work`). The main result is that the scheme is safe in every run
that keeps them if and only if wait + work < 30 s. What holds without any bound is proved separately. The drain
loop itself, in its own form, runs among arbitrary steps of the others before each of its awaited calls, any of
which may raise.

**Voting.** Canonical keys are sequences of integers with Python's lexicographic order; `repr` is any injective
quoting. The consensus loop is proved to return a lane exactly when each field has a strict majority, and the
conformal score, computed in 28-digit decimal arithmetic over a finer key, to equal the exact rational.

**Lanes and rows.** The loops over cells, lanes, flags and segments are methods with the source's loops,
each tied to a function of its input; the composition theorems give every extracted lane one fate and every
lifted row one rejection.

**Pipeline.** `Database` gives every transaction as a function from state to state and a class that performs it
statement by statement. `PipelineMachine` interleaves those transactions with everything else: duplicate
submissions, exceptions inside and outside the handlers, process deaths, lost messages, concurrent archive
sweeps with stale candidates, and uploads reported as failed that took place. Each linked task is delivered at
most once. Its parameter `Stages` says what the stages may store; `PipelineLanes` fills it with the proved
behaviour of the real stages.

## Where the code and its documentation differ

- The dispatcher's comment and docstring say a row is given up after six attempts. The SELECT has no filter on
  `attempts`, and a row past the schedule carries a NULL `next_retry_at`, which the SELECT matches: it is
  retried on every tick (`NeverStranded`, `AlwaysDeliverable`).
- A lane without a majority is meant to leave the flags only when its own three votes and two more agree. Lane
  ids are not checked for uniqueness and vote snapshots are stored per id, so the count is made with the votes
  of the last lane that shares the id (`DroppedIff`). The intended property holds, in every correction round,
  if and only if both lanes' votes are, field by field, unanimous or the same up to order
  (`SharedIdIsHarmlessIff`). Two inputs where it fails: a lane vanishes with no correction call
  (`DuplicateIdVanishes`), and a lane is dropped on another lane's votes (`WrongVotesRescue`).
- A row lifted before the model call is meant never to enter `lanes`. The model is shown no cell of it, but
  nothing stops it from citing the row, and the source reference is itself voted on: exactly when is
  `CitedElsewhereIff`, an input is `LiftedRowMayReturn`. A nameless sheet is stored as `Rates`, so its rows
  displace those of a sheet of that name (`LiftedRecord`).
- EDIFACT dates are described as defaults for the deterministic LIN reader as well; the code applies them only
  to lanes the model read. Dates of other clusters and of the trailer also act as defaults (`DateSource`).
- An exception outside the guarded calls (a validation error of a lifted row, a missed total budget of the
  ensemble, any error during classification) records nothing: the job keeps its status for ever
  (`LostChainsStayPut`). The same holds for a request that dies between its commit and the broker, after which
  every resubmission of the file is a duplicate (`OneChainPerHash`, `DuplicateIsHarmless`).

## Model

| member | source | states |
|---|---|---|
| OutboxMachine.BackoffFor | packages/dispatcher/outbox_worker.py:70-74 | a delay exists exactly for the attempt numbers 0..5: 5 s, 30 s, 5 min, 30 min, 2 h, 24 h |
| OutboxMachine.AfterFailure | packages/dispatcher/outbox_worker.py:118-129 | the failure write keeps `delivered_at`, counts from the detached row, and schedules a retry within 5 s to 24 h until the schedule is used up |
| OutboxUntimed.InvStep | packages/dispatcher/outbox_worker.py:95-142 | every step of every tick, in any order and however stale, keeps the untimed invariant of rows, leases and ticks |
| OutboxUntimed.Reachable | packages/dispatcher/outbox_worker.py:77-143 | so every state any number of interleaved, crashing ticks can reach satisfies it |
| OutboxUntimed.LeasesFarApart | packages/dispatcher/outbox_worker.py:45-49 | n acquisitions of one lease later, at least n time-to-lives have passed |
| OutboxUntimed.RunSafety | packages/dispatcher/outbox_worker.py:105-129 | with no timing assumption: lease acquisitions of a row are 30 s apart; attempts never exceed recorded failures; every dispatch that returned is committed, lost or pending; `delivered_at` is set exactly when a delivery was committed, hence only after a dispatch returned |
| OutboxUntimed.DeliveredStays | packages/dispatcher/outbox_worker.py:111-129 | `delivered_at`, once set, survives every later stale write |
| OutboxUntimed.NeverStranded | packages/dispatcher/outbox_worker.py:70-74 | an undelivered row is due now or within 24 h of its last failure; with attempts past the schedule it is due at once |
| OutboxTimed.LeaseIsFresh | packages/dispatcher/outbox_worker.py:97-107 | below the bound, a lease is only ever taken on a row that is unchanged since its SELECT and due |
| OutboxTimed.TimedRun | packages/dispatcher/outbox_worker.py:95-129 | below the bound, every run keeps: attempts = recorded failures, at most one delivered-commit, failures spaced by the schedule |
| OutboxTimed.AtMostOncePlusLost | packages/dispatcher/outbox_worker.py:105-129 | below the bound, successful dispatches of a row number at most one plus those whose delivered-commit was lost or overran |
| OutboxTimed.AttemptsAreFailures | packages/dispatcher/outbox_worker.py:118-129 | below the bound, `attempts` is exactly the number of recorded failures |
| OutboxTimed.NoEarlyDispatch | packages/dispatcher/outbox_worker.py:97-109 | below the bound, no dispatch starts before the k-th failure plus the k-th delay, nor after a delivery |
| OutboxTimed.SeventhFailure | packages/dispatcher/outbox_worker.py:39-42 | below the bound, the seventh recorded failure comes at least 95,735 s after the first |
| OutboxTight.TwiceRun | packages/dispatcher/outbox_worker.py:95-117 | at or above the bound there is a run of two ticks that delivers one row twice and loses nothing |
| OutboxTight.SafeIffBelowTtl | packages/dispatcher/outbox_worker.py:45-49 | the lease scheme is safe in every timely run if and only if wait + work is below 30 seconds |
| OutboxLiveness.AlwaysDeliverable | packages/dispatcher/outbox_worker.py:97-102 | from every reachable state, every undelivered row has a continuation that delivers it: the dispatcher never gives a row up |
| OutboxLiveness.AnyNumberOfAttempts | packages/dispatcher/outbox_worker.py:118-129 | for every n there is a timely run after which a row has failed n times and is still undelivered, past the schedule included |
| OutboxWorker.Cluster.AcquireLock | packages/dispatcher/outbox_worker.py:45-49 | SET NX EX: succeeds exactly when the lease is absent or expired, and then lasts 30 s |
| OutboxWorker.Cluster.TryDeliver | packages/dispatcher/outbox_worker.py:109-117 | the end is that of the handler, or of the delivered-commit if the handler returned: what raises reaches the except branch, what dies ends the tick; a delivery that goes through marks the row |
| OutboxWorker.Cluster.HandleFailure | packages/dispatcher/outbox_worker.py:118-131 | the except branch records one failure from the detached row, or ends the tick |
| OutboxWorker.Cluster.LockRow | packages/dispatcher/outbox_worker.py:105-108 | others may act before SET NX; it gives the lease, skips the row, or raises and ends the tick |
| OutboxWorker.Cluster.ProcessRow | packages/dispatcher/outbox_worker.py:105-138 | one iteration, others acting before each awaited call: it dies exactly when the lock call fails, a call reached dies, or a failure-commit reached does not go through; else the row is counted once, by its lease and its fate; a handler that raises leaves the row with the detached attempts plus one and one more failure |
| OutboxWorker.Cluster.DrainOnce | packages/dispatcher/outbox_worker.py:77-143 | one whole tick, among arbitrary steps of others, is a run of the machine; it finishes exactly when the SELECT answers and no row ends it; its three counters are decided row by row by leases and fates, add up to the rows selected, at most 50, and are its commits |
| Keys.QuoteInjective | packages/ingest/consensus.py:33-49 | quoting a list of keys is injective, as `repr` of a list of strings is |
| Keys.ListKey | packages/ingest/consensus.py:43-44 | two lists have the same canonical key exactly when they are equal as multisets of canonical forms |
| Keys.DictKey | packages/ingest/consensus.py:45-46 | two dumps with the same field names have the same key only if they agree field by field |
| Keys.CanonicalIsExact | packages/ingest/consensus.py:33-49 | off the surcharges field equal keys mean equal values |
| Keys.SurchargesKey | packages/ingest/consensus.py:43-44 | surcharge lists have the same key exactly when they are equal as multisets |
| Ordering.SortForgetsOrder | packages/ingest/consensus.py:43-46 | sorting forgets the order of its input and nothing else |
| Counting.MajorityUnique | packages/ingest/consensus.py:64-79 | at most one value is held by more than half the votes |
| Counting.TopDecides | packages/ingest/consensus.py:64-79 | a strict majority exists exactly when twice the top count exceeds the number of votes |
| Consensus.TallyVotes | packages/ingest/consensus.py:69-76 | the counter holds the number of votes per key, the value map the last vote cast for it |
| Consensus.MostCommon | packages/ingest/consensus.py:77-78 | the key chosen has the top count, and the value kept for it is that of its last vote |
| Consensus.JudgeField | packages/ingest/consensus.py:68-80 | a field has a winner exactly when some key has a strict majority, and its value is that of the last vote with the winning key |
| Consensus.VoteFields | packages/ingest/consensus.py:68-90 | clean exactly when every field has a majority; the agreement map covers exactly the fields up to the first without one |
| Consensus.MajorityConsensus | packages/ingest/consensus.py:52-100 | a lane is returned if and only if every voted field has a strict majority, and then each field is an elected value; no votes is an error |
| ConsensusLaws.OrderDoesNotMatter | packages/ingest/consensus.py:52-100 | verdict, top counts and elected keys are unchanged by permuting the votes and the surcharges inside them |
| ConsensusLaws.ConsensusIsUnique | packages/ingest/consensus.py:68-100 | the votes in their order decide the result altogether |
| ConsensusLaws.CorrectionInventsNothing | packages/ingest/correction.py:145-157 | a five-vote consensus never elects a value no original vote held, and keeps every field unanimous among the first three |
| ConsensusLaws.SettledFieldOverturned | packages/ingest/correction.py:145-157 | a 2-to-1 field, whichever vote dissents, is overturned exactly when both new votes side with the dissenter; no third value can win |
| Correction.ConditionalCorrection | packages/ingest/correction.py:123-157 | nothing happens without review; a failed call or missed budget is an error; otherwise the result is the consensus of three old and two new votes |
| Conformal.TiesToEven | packages/ingest/conformal.py:63-65 | division in the decimal context is the one rounding within half a unit that sends ties to even |
| Conformal.SumError | packages/ingest/conformal.py:63-65 | the 28-digit running sum stays within 255 units per term of the exact sum |
| Conformal.NoTie | packages/ingest/conformal.py:65-67 | for up to five votes 100 S / N is never halfway between two integers, hence at least 1/(2N) away from that |
| Conformal.ScoreIsExact | packages/ingest/conformal.py:63-67 | so the decimal computation rounds to the same thousandth as the exact rational |
| Conformal.ExactIsNearest | packages/ingest/conformal.py:65-67 | for one to five votes there is one nearest thousandth to S / (10 N), less than half a thousandth away, and it is the one computed |
| Conformal.PerFieldAgreement | packages/ingest/conformal.py:44-67 | the score is the thousandth nearest to the average of the ten top counts; 0 without votes |
| Conformal.AgreementIs | packages/ingest/conformal.py:54-64 | S is the sum of the highest value counts of the ten voted fields |
| Conformal.ComputeScore | packages/ingest/conformal.py:70-90 | the same of the clamped score, and it lies in [0, 1] |
| Conformal.InUnitInterval | packages/ingest/conformal.py:81-84 | the clamp never acts |
| Conformal.AcceptanceRule | packages/ingest/conformal.py:93-95 | accepted if and only if 200 S >= 1699 N; for three votes, S >= 26 |
| Conformal.PlainRefinesCanonical | packages/ingest/conformal.py:56-63 | every top count used by the score is at most the consensus top count, with equality off the surcharges |
| Conformal.CleanConsensusScore | packages/ingest/conformal.py:44-67 | a clean three-vote consensus scores at least 0.633 |
| ExcelScan.ScanRow | packages/ingest/excel_extractor.py:190-205 | the first origin-labelled and the first destination-labelled column of a row |
| ExcelScan.IdentifySheet | packages/ingest/excel_extractor.py:183-216 | the topmost row carrying both labels, if any |
| ExcelScan.HeaderIs | packages/ingest/excel_extractor.py:183-216 | the port columns of a sheet are the first cells labelled so in its header row, and no row above carries both labels |
| ExcelScan.IdentifyPortColumns | packages/ingest/excel_extractor.py:159-218 | a column map covers every sheet by its topmost header row, or there is none at all |
| ExcelScan.LiftedIff | packages/ingest/excel_extractor.py:237-260 | a row is lifted exactly when a port cell below its header is ill-shaped |
| ExcelScan.BadIff | packages/ingest/excel_extractor.py:237-255 | a cell lifts its row exactly when it lies strictly below the header, in one of the two port columns, and its text has not the shape |
| ExcelScan.CollectViolators | packages/ingest/excel_extractor.py:237-261 | the dict of violating rows holds, per lifted row and side, its last ill-shaped cell |
| ExcelScan.Recover | packages/ingest/excel_extractor.py:276-284 | the side that was not ill-shaped is the first cell of its column |
| ExcelScan.ScanCells | packages/ingest/excel_extractor.py:221-304 | exactly the cells of lifted rows are removed, the rest keep their order, and one violator per lifted row is emitted in strictly increasing (sheet, row) order, describing its row: each raw code is that of its own side, the anchor is the ill-shaped origin cell if there is one |
| ExcelScan.ViolatorDescribes | packages/ingest/excel_extractor.py:267-302 | from the cells alone: the raw code of a side is the cut text of its last ill-shaped cell, else of its first cell, else a space; the anchor, id and source are those of the row |
| ExcelScan.RescanLiftsNothing | packages/ingest/excel_extractor.py:221-304 | rescanning the survivors lifts nothing |
| ExcelScan.ViolatorIsIllShaped | packages/ingest/excel_extractor.py:267-299 | a reported row carries an ill-shaped code and the coordinate of an ill-shaped cell of that row as its anchor |
| ExcelExtract.ResponseBody.PreScan | packages/ingest/excel_extractor.py:82-124 | ill-shaped lanes are removed from the answer in place and reported one by one, by position, with their own codes, id and source; the rest keep their order; or the call raises and nothing is replaced |
| ExcelExtract.Union | packages/ingest/excel_extractor.py:492-499 | the first violator of every row is kept, in its place, by position, and no other |
| ExcelExtract.Dedup | packages/ingest/excel_extractor.py:492-499 | no (sheet, row) twice, none lost |
| ExcelExtract.EarlierScanWins | packages/ingest/excel_extractor.py:492-499 | the violators of the first scan survive deduplication as they are |
| ExcelExtract.ReadAnswer | packages/ingest/excel_extractor.py:481-520 | the payload or the kind of exception, exactly as the answer determines it |
| ExcelExtract.ExtractExcel | packages/ingest/excel_extractor.py:431-520 | the model never sees a cell of a lifted row; the payload has no flags and no rejections; the lifted rows open its list of violators |
| StageTwo.OneEnd | packages/ingest/excel_extractor.py:431-520 | the staged file and the models decide how its extraction ends, exception kind included |
| StageTwo.EndsInPayload | packages/ingest/excel_extractor.py:431-520 | a payload comes out only of a file it can be read from |
| StageTwo.InterchangeLanes | packages/ingest/edifact_extractor.py:246-297 | the payload of an interchange holds the lanes of its clusters, read or answered for, by position |
| LiftedRows.LiftedRecord | packages/ingest/excel_extractor.py:237-304 | exactly one violator carries a lifted row of an ordinary sheet, and it is the row's own record unless a nameless sheet stored as Rates lifted the same row number |
| LiftedRows.LiftedRowRejectedOnce | packages/ingest/tasks.py:464-519 | from scan through dedup to re-injection: exactly one rejection cites the row, by port_unknown_unlocode, anchored at an ill-shaped cell of it |
| LiftedRows.CitedElsewhereIff | packages/ingest/normalizer.py:249-307 | a stored lane or a lane's rejection cites a row if and only if some final lane had two votes agreeing on a source reference to it |
| LiftedRows.LiftedRowMayReturn | packages/ingest/excel_extractor.py:456-482 | for every lifted row there is an answer and three equal votes with which the stored sheet holds a lane citing it, beside its rejection |
| LiftedRows.WorkbookRowLifted | packages/ingest/excel_extractor.py:159-262 | a workbook with such a row |
| Edifact.ParsedIffWritten | packages/ingest/edifact_extractor.py:79-89 | eight characters are read as a date exactly when they are that date in format 102, or the same with a blank for the leading zero of the day |
| Edifact.StatesIff | packages/ingest/edifact_extractor.py:65-89 | a segment states a date exactly when it is a DTM whose composite splits into the qualifier, a stripped date of eight characters and no other format than 102 |
| Edifact.SplitIs | packages/ingest/edifact_extractor.py:65-78 | joining the parts of a text at colons gives it back, and no part holds a colon |
| Edifact.StripIs | packages/ingest/edifact_extractor.py:72-76 | stripping removes exactly the blank ends of a text |
| Edifact.DtmRoundTrip | packages/ingest/edifact_extractor.py:65-89 | a qualifier and a date of format 102 are read back from components and from plain text, with or without the format code |
| Edifact.LastOfIsLast | packages/ingest/edifact_extractor.py:92-112 | the date kept is stated by a segment, and by none after it |
| Edifact.ExtractInterchangeValidity | packages/ingest/edifact_extractor.py:92-112 | the last readable DTM with qualifier 137 and 36 |
| Edifact.ClusterSegments | packages/ingest/edifact_extractor.py:222-240 | the clusters concatenate to the segments from the first LIN up to the first UNT, each with exactly one LIN, which it starts with |
| Edifact.BodyIs | packages/ingest/edifact_extractor.py:222-240 | the clustered segments are those from the first LIN up to the first UNT, by position, or none if there is no LIN before it |
| Edifact.OneClustering | packages/ingest/edifact_extractor.py:222-240 | there is only one such clustering |
| Edifact.ExtractEdifact | packages/ingest/edifact_extractor.py:200-304 | one lane per cluster that is read or answered for, in order: what the reader makes is kept as it is, what the model answers has only its dates changed; an error exactly when no cluster yields a lane, or when a port code is refused |
| Edifact.LanesOfAt | packages/ingest/edifact_extractor.py:246-297 | lane k comes from the k-th cluster that yields one: the lane of the reader itself, whatever any DTM says, or the answer of the model with the last dates its cluster states, else those of the interchange |
| Edifact.DateSource | packages/ingest/edifact_extractor.py:246-277 | the validity of a model-read lane is its cluster's date, else the trailer's, else that of the last cluster stating one, else the header's, else its own |
| RulesEngine.EvaluateLane | packages/ingest/rules_engine.py:50-124 | the verdict is the least-numbered broken rule, and none exactly when no rule is broken |
| RulesEngine.OneVerdict | packages/ingest/rules_engine.py:50-124 | there is only one such verdict, the one the chain of early returns reaches |
| RulesEngine.RulesJudge | packages/ingest/rules_engine.py:143-163 | the survivors are the lanes that break no rule, in order, and the rejections cite the others one by one: own source, own id, least-numbered broken rule |
| RulesEngine.ApplyHardRules | packages/ingest/rules_engine.py:127-164 | the same of the stored lists: survivors and rejections in input order, earlier rejections kept |
| RulesEngine.StablePartition | packages/ingest/rules_engine.py:143-163 | survivors and rejected lanes interleave back to the input |
| RulesEngine.Idempotent | packages/ingest/rules_engine.py:143-163 | a second run on the same day changes nothing |
| RulesEngine.LaterClock | packages/ingest/rules_engine.py:76-82 | a later day only shrinks the survivors, each newly lost lane citing its past window |
| Normalizer.EnsembleForLane | packages/ingest/normalizer.py:168-186 | a consensus of the three votes, or an error when a call failed or the budget was missed |
| Normalizer.RouteLane | packages/ingest/normalizer.py:252-307 | only lanes without majority are flagged as such, as extracted; only well-shaped unresolved lanes are flagged as voted; final lanes differ from the vote in their canonical ports alone |
| Normalizer.RoutedWellIsRoute | packages/ingest/normalizer.py:252-307 | these conditions leave one route |
| Normalizer.NormalizeLanes | packages/ingest/normalizer.py:232-318 | final lanes and flags are the routes of the lanes in order; fails exactly when some ensemble fails, with the kind of the first that does |
| Normalizer.PersistConsensusVotes | packages/ingest/normalizer.py:189-229 | one snapshot row per lane id, the last result winning |
| Normalizer.LastSnapshotWins | packages/ingest/normalizer.py:206-229 | a lane id is answered by the last result that carries it |
| Stage4.ReinjectionRejectsAll | packages/ingest/tasks.py:464-519 | every lifted row is rejected exactly once, as port_unknown_unlocode with its own source, and none survives |
| Stage4.Reinject | packages/ingest/tasks.py:464-519 | the re-injection appends those records and rule ids |
| Stage4.ScoreLanes | packages/ingest/tasks.py:526-542 | one low-confidence flag per surviving lane with 200 S < 1699 N for its stored votes, that is S <= 25, holding the nearest thousandth, in order, and no other flag |
| Stage4.LowFlagsAreWeak | packages/ingest/tasks.py:526-542 | the flags of the stage, as a list, are those of the weak lanes one by one |
| Stage4.CorrectOne | packages/ingest/tasks.py:547-572 | a flag is dropped exactly when its stored result is clean or the five votes agree on every field; an error exactly when a lane without majority is escalated and a call fails or the round is late |
| Stage4.CorrectFlags | packages/ingest/tasks.py:544-572 | the kept flags in order; an error exactly when some escalated call fails |
| Stage4.Validate | packages/ingest/tasks.py:450-585 | the stored sheet and the audited rule ids |
| Accounting.LaneAccounting | packages/ingest/tasks.py:450-585 | Stages 3 and 4 composed: the stored lists are the in-order projections of one fate per extracted lane, plus one rejection per lifted row and one low-confidence flag per weak survivor; the lifted rows are carried through |
| Accounting.FateIsOwn | packages/ingest/normalizer.py:249-307 | each fate is that of the lane at its own position: survivors and rejections come from its consensus lane, flags from itself or its consensus lane |
| Accounting.FateIsTold | packages/ingest/normalizer.py:249-307 | a survivor is the routed lane and breaks no rule; a rejection cites the routed lane for its least-numbered broken rule; a flag is the routed one |
| Accounting.SnapshotsWellFormed | packages/ingest/normalizer.py:206-229 | stored results hold three votes and ask for review exactly without a lane |
| SharedIds.DroppedIff | packages/ingest/tasks.py:547-572 | in every correction round, a no-majority flag is dropped exactly when the last lane with its id was clean, or that lane's votes and the two calls agree on every field |
| FiveVotes.TellingPair | packages/ingest/correction.py:145-157 | two triples of votes that are neither both unanimous nor permutations are told apart by two further votes |
| FiveVotes.DecidedAlike | packages/ingest/correction.py:145-157 | triples that are, are decided alike by any two further votes |
| SharedIds.SharedIdIsHarmlessIff | packages/ingest/tasks.py:547-572 | that agrees with the lane's own five votes in every round if and only if, field by field, its votes and those of the last lane with its id are both unanimous or permutations |
| SharedIds.RescuedIffFiveVotesAgree | packages/ingest/tasks.py:544-572 | in particular with distinct lane ids |
| SharedIds.DuplicateIdVanishes | packages/ingest/tasks.py:551-585 | two concrete lanes with one id: the first is in none of the stored lists, and no correction is called |
| SharedIds.WrongVotesRescue | packages/ingest/tasks.py:551-572 | two concrete lanes with one id: a flag is dropped although the lane's own five votes agree on no start date |
| Database.Tables.InsertJobIfNew | packages/core/db/repositories.py:16-52 | a new pending job for an unknown hash, the existing job for a known one, nothing on a primary key clash |
| Database.Tables.UpdateJobStatus | packages/core/db/repositories.py:78-89 | status, and completed_at if asked; no such row, no change |
| Database.Tables.InsertOutput | packages/core/db/repositories.py:92-107 | a plain insert with the counts of the payload; refused on a missing job or an existing row |
| Database.Tables.EnqueueOutboxEvent | packages/ingest/outbox.py:27-48 | one row in the caller's transaction |
| Database.Tables.Ingest | apps/api/routes/intake.py:100-119 | the intake transaction commits whole or not at all |
| Database.Tables.CommitFailure | packages/ingest/tasks.py:100-121 | failed status, outbox copy and audit row, or nothing |
| Database.Tables.CommitClassified | packages/ingest/tasks.py:171-186 | extracting status and audit row, or nothing |
| Database.Tables.CommitExtracted | packages/ingest/tasks.py:251-264 | output, normalizing status, outbox copy and audit row, or nothing |
| Database.Tables.CommitNormalized | packages/ingest/tasks.py:322-362 | output overwritten, votes stored, validating status, outbox copy and audit row, or nothing |
| Database.Tables.CommitValidated | packages/ingest/tasks.py:597-685 | output overwritten, completed status, outbox copy, audit row, Slack post and upload, or nothing |
| PipelineSteps.InvStep | packages/ingest/tasks.py:150-699 | every step of intake, tasks, failures, crashes and sweeps keeps the pipeline invariant |
| PipelineSteps.Reachable | packages/ingest/tasks.py:150-699 | so every reachable state satisfies it |
| PipelineTheorems.AuditTrail | packages/ingest/tasks.py:100-121 | the trail is a prefix of classified, extracted, normalized, validated, or such a prefix closed by the matching failure; it determines the status |
| PipelineTheorems.OnlyRejectionsAreSilent | packages/ingest/tasks.py:163-169 | a job fails with an empty trail exactly by a classify rejection |
| PipelineTheorems.OutboxMirrorsTrail | packages/ingest/tasks.py:251-264 | the audit_log notices of the tasks repeat the trail without the classification |
| PipelineTheorems.DeliveriesIffCompleted | packages/ingest/tasks.py:597-685 | one slack_post and one upload_result exactly when completed, to a channel asked for at intake |
| PipelineTheorems.NoEarlyDelivery | packages/ingest/tasks.py:655-685 | any delivery row belongs to a completed job |
| PipelineTheorems.SettledStays | packages/ingest/tasks.py:240-249 | whatever else runs, a chain that is over changes its job no more |
| PipelineTheorems.EndsAreFinal | packages/ingest/tasks.py:110-111 | completed and failed are never left, and the finished payload is never replaced |
| PipelineTheorems.LostChainsStayPut | packages/ingest/tasks.py:199-266 | a chain that died or raised where nothing catches leaves its job in its status for good |
| PipelineTheorems.CountsMatchPayload | packages/core/db/repositories.py:99-107 | stored counts are the lengths of the stored lists |
| PipelineTheorems.InsertNeverClashes | packages/ingest/tasks.py:251-252 | the plain insert of Stage 2 never meets an existing row |
| PipelineTheorems.NothingLost | packages/lifecycle/archive.py:76-91 | a completed payload is in the output row, or in the archive after the configured age; the archive holds nothing else |
| PipelineTheorems.OneChainPerHash | apps/api/routes/intake.py:100-136 | at most one job and one task chain per input hash |
| PipelineTheorems.DuplicateIsHarmless | apps/api/routes/intake.py:100-127 | a duplicate submission adds one notice to the existing job and touches nothing else |
| PipelineLanes.AccountForLanes | packages/ingest/tasks.py:450-617 | the stored sheet is the projection of the fates computed from the job's own consensus results; a lane is missing only if votes dropped its flag; other citations of a row come from votes |
| PipelineLanes.OwnVotesRescue | packages/ingest/tasks.py:544-572 | with distinct ids, lane i is rescued exactly by its own three votes and its two calls |
| PipelineLanes.AccountForRows | packages/ingest/tasks.py:464-519 | every ordinary row lifted from the workbook the job was read from has exactly one rejection among the re-injected ones |
| PipelineLanes.CompletedIsAccounted | packages/ingest/tasks.py:597-617 | in every reachable state a completed job's payload, stored or archived, is so accounted for, from the staged file on: every lane's fate from votes, port table and rules, the low-confidence flags from the stored votes, the lifted rows as extracted |
| PipelineTasks.ClassifyTask | packages/ingest/tasks.py:150-189 | every end of classification, with the state it leaves |
| PipelineTasks.ExtractTask | packages/ingest/tasks.py:199-266 | every end of extraction: committed, recorded or without a trace, exactly as the file, the job and the output table decide |
| PipelineTasks.NormalizeTask | packages/ingest/tasks.py:281-364 | every end of normalization: a late first ensemble leaves no trace, a missing output or any other failure is recorded, else the result is committed |
| PipelineTasks.RecoverChannel | packages/ingest/tasks.py:124-147 | a non-empty channel some intake request asked for, or none did |
| PipelineTasks.ValidateTask | packages/ingest/tasks.py:382-699 | every end of validation: every exception of the body is recorded, and it commits exactly when output, channel, corrections and signing are there |
| PipelineTasks.SubmitIntakeJob | apps/api/routes/intake.py:90-143 | 202, 409, 422 or error, the state each leaves, the ingress notice with its channel, and one chain exactly for 202 |
| PipelineTasks.ArchiveCompletedJobs | packages/lifecycle/archive.py:54-106 | archives exactly the candidates whose upload and deletion went through; a deletion that raises ends the sweep; no payload is lost either way |
| PipelineTasks.ClassifyIsRun | packages/ingest/tasks.py:150-196 | however a classification ends, the state its body leaves is reached by a run of the machine |
| PipelineTasks.ExtractIsRun | packages/ingest/tasks.py:199-273 | however an extraction ends, the state its body leaves is reached by a run of the machine |
| PipelineTasks.NormalizeIsRun | packages/ingest/tasks.py:281-373 | however a normalization ends, the state its body leaves is reached by a run of the machine |
| PipelineTasks.ValidateIsRun | packages/ingest/tasks.py:382-704 | however a validation ends, the state its body leaves is reached by a run of the machine |

## Left out

- Model calls, prompts, retries and timeouts: a call is an arbitrary vote, lane or exception.
- Slack, Cloud Storage, signed URLs, gzip, HMAC, Celery and SQLAlchemy internals: delivery and upload succeed or fail.
- Ambiguous commits: a transaction whose acknowledgement is lost counts as failed or as done, not as both. A commit reported as failed that took place would let the Stage 4 handler mark a completed job failed.
- Broker redelivery: each linked task is delivered at most once.
- Several clocks: all processes read one clock, whose reading may be taken before the step it stamps.
- Fairness of the unordered 50-row SELECT: `AlwaysDeliverable` gives a continuation, not an eventual delivery.
- Port resolution, classification, clarification texts and reference tables: given functions or outcomes.
- Length limits of the payload models, except those of the record for a lifted row.
- `_parse_lid_segment`: the deterministic LIN reader is any function of the head segment; its Decimal and ISO date parsing would only add table lookups.
- Decimal digits outside ASCII in DTM values.
- Stripping and lower-casing of header labels: a given naming function with disjoint label sets.
- Cells without an integer row or column, which the cell builder never produces.
- Confidence rows rewritten at completion: nothing reads them afterwards.
- Result and review routes, apart from the audit notice they add; `/v1/ingest/ratesheet`; health probes; boot validators.
- Human-readable texts: rule descriptions, error messages, path redaction.
- PipelineTasks.ArchiveCompletedJobs: the loop is proved for a sweep that runs alone; concurrent sweeps are in the machine.
- LiftedRows.LiftedRecord: sheet names of 1 to 64 characters; a longer name is cut and may collide with another sheet's.
- Conformal.PerFieldAgreement: the exact value is stated for one to five votes, the numbers the vote model admits.
- PipelineTasks.ValidateTask: votes are read at once, where the code reads one lane at a time; nobody else writes them.
