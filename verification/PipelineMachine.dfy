/**
 The job pipeline as a machine of atomic steps: intake, the four linked tasks, the archive sweeps
 (apps/api/routes/intake.py, packages/ingest/tasks.py, packages/lifecycle/archive.py).

 Any number of requests, tasks and sweeps run at once.  Every transaction of `Database` is one step;
 between two steps anything else may happen, a body may raise, and a process may die.  A linked task is
 delivered at most once, and only after the task before it returned.  `History`, `started` and the age
 of an archived output are history: no step looks at them.
 */
module PipelineMachine {
  import opened Prelude
  import opened Lanes
  import opened Consensus
  import opened Database
  
  type SweepId = nat

  datatype Task = Classify | Extract | Normalize | Validate

  /** Where the one task chain of a job stands. */
  datatype Chain =
    | Received                                                // row committed, request not finished
    | Queued(task: Task)                                      // message with the broker
    | Working(task: Task)                                     // body entered
    | Reading(task: Task, sheet: Ratesheet)                   // stored output read
    | Posting(sheet: Ratesheet, channel: string)              // Stage 4: channel recovered
    | Scoring(sheet: Ratesheet, channel: string, table: VoteTable)  // Stage 4: votes read
    | Failing(task: Task)                                     // exception handler entered
    | Committed(task: Task)                                   // success committed, body not returned
    | Over                                                    // raised, died, or finished

  /** What the stages committed for a job. */
  datatype History = History(extracted: Option<Ratesheet>, normalized: Option<Ratesheet>,
                             results: seq<ConsensusResult>, final: Option<Ratesheet>)

  const NOTHING_YET := History(None, None, [], None)

  /** What the stages may store: a parameter of the machine. */
  datatype Stages = Stages(extraction: Ratesheet -> bool,
                           normalization: (Ratesheet, Ratesheet, seq<ConsensusResult>) -> bool,
                           validation: (Ratesheet, VoteTable, Ratesheet) -> bool)

  datatype Candidate = Candidate(job: JobId, completedAt: Time, payload: Ratesheet)

  /** A sweep: the candidates it still holds, and whether the first one has been uploaded. */
  datatype Sweep = Sweep(todo: seq<Candidate>, uploaded: bool)

  datatype Sys = Sys(stages: Stages, now: Time, age: nat, db: Db, chains: map<JobId, Chain>, started: seq<JobId>,
                     history: map<JobId, History>, sweeps: map<SweepId, Sweep>, blobs: map<JobId, Ratesheet>)

  datatype Event =
    | Advance(to: Time)
    | Submit(newId: JobId, hash: Hash, channel: string)
    | StartChain(job: JobId)
    | Deliver(job: JobId)
    | RejectFormat(job: JobId, stamp: Time)
    | CommitClassify(job: JobId)
    | CommitExtract(job: JobId, payload: Ratesheet)
    | ReadOutput(job: JobId)
    | RecoverChannel(job: JobId, channel: string)
    | LoadVotes(job: JobId)
    | CommitNormalize(job: JobId, payload: Ratesheet, results: seq<ConsensusResult>)
    | CommitValidate(job: JobId, payload: Ratesheet, stamp: Time)
    | Catch(job: JobId)          // the body raises inside its try block
    | RecordFailure(job: JobId, stamp: Time)  // the handler's own transaction
    | Return(job: JobId)
    | Die(job: JobId)            // raised where nothing catches, process or message lost
    | Annotate(job: JobId)       // review and result routes
    | SweepSelect(sweep: SweepId, batch: seq<Candidate>, cutoff: Time)
    | Upload(sweep: SweepId)
    | UploadFail(sweep: SweepId, stored: bool)  // reported as failed; the object may exist all the same
    | Delete(sweep: SweepId)
    | SweepDies(sweep: SweepId)

  // ---------------------------------------------------------------- archive

  /** The sweep's SELECT: completed jobs older than the cutoff that still have an output row, in any order. */
  predicate Archivable(db: Db, c: Candidate, cutoff: Time) {
    && c.job in db.jobs && c.job in db.outputs
    && db.jobs[c.job].status == Completed
    && db.jobs[c.job].completedAt == Some(c.completedAt) && c.completedAt < cutoff
    && db.outputs[c.job].payload == c.payload
  }

  ghost predicate Selected(db: Db, batch: seq<Candidate>, cutoff: Time) {
    && NoDup(batch)
    && forall c :: c in batch <==> Archivable(db, c, cutoff)
  }

  predicate AtHead(s: Sys, k: SweepId, uploaded: bool) {
    k in s.sweeps && s.sweeps[k].todo != [] && s.sweeps[k].uploaded == uploaded
  }

  // ---------------------------------------------------------------- steps

  predicate At(s: Sys, job: JobId, chain: Chain) {
    job in s.db.jobs && job in s.chains && s.chains[job] == chain
  }

  function Next(task: Task): Option<Task> {
    match task
    case Classify => Some(Extract)
    case Extract => Some(Normalize)
    case Normalize => Some(Validate)
    case Validate => None
  }

  /** Stage of the failure row a task's handler writes; classification has no handler. */
  function FailureOf(task: Task): Option<Action> {
    match task
    case Classify => None
    case Extract => Some(ExtractFailed)
    case Normalize => Some(NormalizeFailed)
    case Validate => Some(ValidateFailed)
  }

  /** The chain is inside its task body, before the success transaction. */
  predicate Busy(chain: Chain, task: Task) {
    match chain
    case Working(t) => t == task
    case Reading(t, _) => t == task
    case Posting(_, _) => task == Validate
    case Scoring(_, _, _) => task == Validate
    case _ => false
  }

  predicate Sent(db: Db, job: JobId, notice: Notice) {
    OutboxRow(job, notice) in db.outbox
  }

  ghost predicate Enabled(s: Sys, e: Event) {
    match e
    case Advance(to) => s.now <= to
    case Submit(_, _, _) => forall h :: h in s.db.byHash ==> s.db.byHash[h] in s.db.jobs
    case StartChain(j) => At(s, j, Received)
    case Deliver(j) => j in s.db.jobs && j in s.chains && s.chains[j].Queued?
    case RejectFormat(j, stamp) => At(s, j, Working(Classify)) && stamp <= s.now
    case CommitClassify(j) => At(s, j, Working(Classify))
    case CommitExtract(j, payload) =>
      At(s, j, Working(Extract)) && ExtractTx(s.db, j, payload).Some? && s.stages.extraction(payload)
    case ReadOutput(j) =>
      (At(s, j, Working(Normalize)) || At(s, j, Working(Validate))) && j in s.db.outputs
    case RecoverChannel(j, channel) =>
      && j in s.db.jobs && j in s.chains && s.chains[j].Reading? && s.chains[j].task == Validate
      && channel != "" && Sent(s.db, j, IngressReceived(channel))
    case LoadVotes(j) => j in s.db.jobs && j in s.chains && s.chains[j].Posting?
    case CommitNormalize(j, payload, results) =>
      && j in s.db.jobs && j in s.chains && s.chains[j].Reading? && s.chains[j].task == Normalize
      && s.stages.normalization(s.chains[j].sheet, payload, results)
    case CommitValidate(j, payload, stamp) =>
      && stamp <= s.now && j in s.db.jobs && j in s.chains && s.chains[j].Scoring?
      && s.stages.validation(s.chains[j].sheet, s.chains[j].table, payload)
    case Catch(j) =>
      && j in s.db.jobs && j in s.chains
      && exists task :: FailureOf(task).Some? && Busy(s.chains[j], task)
    case RecordFailure(j, stamp) =>
      stamp <= s.now && j in s.db.jobs && j in s.chains && s.chains[j].Failing? && FailureOf(s.chains[j].task).Some?
    case Return(j) => j in s.db.jobs && j in s.chains && s.chains[j].Committed?
    case Die(j) => j in s.db.jobs && j in s.chains && s.chains[j] != Over
    case Annotate(j) => j in s.db.jobs
    case SweepSelect(k, batch, cutoff) => k !in s.sweeps && cutoff <= s.now - s.age && Selected(s.db, batch, cutoff)
    case Upload(k) => AtHead(s, k, false)
    case UploadFail(k, _) => AtHead(s, k, false)
    case Delete(k) => AtHead(s, k, true)
    case SweepDies(k) => k in s.sweeps
  }

  function TaskOf(chain: Chain): Task {
    if chain.Working? || chain.Reading? then chain.task else Validate
  }

  function HistoryOf(s: Sys, j: JobId): History {
    if j in s.history then s.history[j] else NOTHING_YET
  }

  /** The chain of `j` moves on; nothing else changes. */
  function Moved(s: Sys, j: JobId, chain: Chain): Sys {
    s.(chains := s.chains[j := chain])
  }

  ghost function Apply(s: Sys, e: Event): Sys
    requires Enabled(s, e)
  {
    match e
    case Advance(to) => s.(now := to)
    case Submit(newId, hash, channel) =>
      var tx := IngestTx(s.db, newId, hash, channel);
      if tx.None? then s
      else if !tx.value.created then s.(db := tx.value.db)
      else s.(db := tx.value.db, chains := s.chains[newId := Received], history := s.history[newId := NOTHING_YET])
    case StartChain(j) => Moved(s, j, Queued(Classify)).(started := s.started + [j])
    case Deliver(j) => Moved(s, j, Working(s.chains[j].task))
    case RejectFormat(j, stamp) => Moved(s, j, Over).(db := RejectTx(s.db, j, stamp))
    case CommitClassify(j) => Moved(s, j, Committed(Classify)).(db := ClassifyTx(s.db, j).value)
    case CommitExtract(j, payload) =>
      Moved(s, j, Committed(Extract)).(
        db := ExtractTx(s.db, j, payload).value,
        history := s.history[j := HistoryOf(s, j).(extracted := Some(payload))])
    case ReadOutput(j) => Moved(s, j, Reading(s.chains[j].task, s.db.outputs[j].payload))
    case RecoverChannel(j, channel) => Moved(s, j, Posting(s.chains[j].sheet, channel))
    case LoadVotes(j) => Moved(s, j, Scoring(s.chains[j].sheet, s.chains[j].channel, VotesOf(s.db, j)))
    case CommitNormalize(j, payload, results) =>
      Moved(s, j, Committed(Normalize)).(
        db := NormalizeTx(s.db, j, payload, results).value,
        history := s.history[j := HistoryOf(s, j).(normalized := Some(payload), results := results)])
    case CommitValidate(j, payload, stamp) =>
      Moved(s, j, Committed(Validate)).(
        db := ValidateTx(s.db, j, payload, s.chains[j].channel, stamp).value,
        history := s.history[j := HistoryOf(s, j).(final := Some(payload))])
    case Catch(j) => Moved(s, j, Failing(TaskOf(s.chains[j])))
    case RecordFailure(j, stamp) =>
      Moved(s, j, Over).(db := FailTx(s.db, j, FailureOf(s.chains[j].task).value, stamp).value)
    case Return(j) =>
      var next := Next(s.chains[j].task);
      Moved(s, j, if next.Some? then Queued(next.value) else Over)
    case Die(j) => Moved(s, j, Over)
    case Annotate(j) => s.(db := WithNotice(s.db, j, OperatorNote))
    case SweepSelect(k, batch, _) => s.(sweeps := s.sweeps[k := Sweep(batch, false)])
    case Upload(k) =>
      var c := s.sweeps[k].todo[0];
      s.(blobs := s.blobs[c.job := c.payload], sweeps := s.sweeps[k := s.sweeps[k].(uploaded := true)])
    case UploadFail(k, stored) =>
      var c := s.sweeps[k].todo[0];
      s.(blobs := if stored then s.blobs[c.job := c.payload] else s.blobs,
         sweeps := s.sweeps[k := Sweep(s.sweeps[k].todo[1..], false)])
    case Delete(k) =>
      var c := s.sweeps[k].todo[0];
      s.(db := s.db.(outputs := s.db.outputs - {c.job}),
         sweeps := s.sweeps[k := Sweep(s.sweeps[k].todo[1..], false)])
    case SweepDies(k) => s.(sweeps := s.sweeps - {k})
  }

  function Initial(stages: Stages, now: Time, age: nat): Sys {
    Sys(stages, now, age, EMPTY, map[], [], map[], map[], map[])
  }

  ghost predicate Run(s: Sys, es: seq<Event>)
    decreases |es|
  {
    es == [] || (Enabled(s, es[0]) && Run(Apply(s, es[0]), es[1..]))
  }

  ghost function After(s: Sys, es: seq<Event>): Sys
    requires Run(s, es)
    decreases |es|
  {
    if es == [] then s else After(Apply(s, es[0]), es[1..])
  }

  // ---------------------------------------------------------------- one job's part of the state

  /** Worker audit actions of a job, oldest first. */
  function TrailOf(audit: seq<AuditRow>, j: JobId): seq<Action> {
    if audit == [] then []
    else
      var last := audit[|audit| - 1];
      TrailOf(audit[..|audit| - 1], j) + if last.job == j then [last.action] else []
  }

  /** Outbox rows of a job, oldest first. */
  function NoticesOf(outbox: seq<OutboxRow>, j: JobId): seq<Notice> {
    if outbox == [] then []
    else
      var last := outbox[|outbox| - 1];
      NoticesOf(outbox[..|outbox| - 1], j) + if last.job == j then [last.notice] else []
  }

  /** Of these, the pipeline stages reported as audit_log. */
  function StagesOf(notices: seq<Notice>): seq<Action> {
    if notices == [] then []
    else
      var last := notices[|notices| - 1];
      StagesOf(notices[..|notices| - 1]) + if last.StageDone? then [last.action] else []
  }

  function Posts(notices: seq<Notice>): nat {
    if notices == [] then 0
    else Posts(notices[..|notices| - 1]) + if notices[|notices| - 1].SlackPost? then 1 else 0
  }

  function Uploads(notices: seq<Notice>): nat {
    if notices == [] then 0
    else Uploads(notices[..|notices| - 1]) + if notices[|notices| - 1].UploadResult? then 1 else 0
  }

  const FULL: seq<Action> := [Classified, Extracted, Normalized, Validated]
}
