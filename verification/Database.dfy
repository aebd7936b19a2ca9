/**
 The tables behind the pipeline and its transactions (packages/core/db/repositories.py,
 packages/ingest/outbox.py, the `session.begin()` blocks of packages/ingest/tasks.py and
 apps/api/routes/intake.py).

 `Db` is a state of the database.  Each transaction is a function to the state it commits, None when a
 constraint makes it roll back.  The class below performs the same transactions statement by statement.
 */
module Database {
  import opened Prelude
  import opened Lanes
  import opened Consensus
  import Normalizer

  type JobId = nat
  type Hash = nat
  type Time = int
  type VoteTable = map<string, ConsensusResult>

  datatype Status = Pending | Extracting | Normalizing | Validating | Completed | Failed

  datatype Action =
    | Classified | Extracted | Normalized | Validated
    | ExtractFailed | NormalizeFailed | ValidateFailed
  {
    predicate Failure() {
      ExtractFailed? || NormalizeFailed? || ValidateFailed?
    }
  }

  datatype JobRow = JobRow(hash: Hash, status: Status, completedAt: Option<Time>)

  datatype OutputRow = OutputRow(payload: Ratesheet, laneCount: nat, flaggedCount: nat, rejectedCount: nat)

  /** An outbox row's event type and the part of its payload that matters here. */
  datatype Notice =
    | IngressReceived(channel: string)  // audit_log, from intake
    | StageDone(action: Action)         // audit_log, from a pipeline task
    | OperatorNote                      // audit_log, from the review and result routes
    | SlackPost(channel: string)
    | UploadResult

  datatype OutboxRow = OutboxRow(job: JobId, notice: Notice)

  datatype AuditRow = AuditRow(job: JobId, action: Action)

  /** `byHash` is the UNIQUE index on input_hash. */
  datatype Db = Db(jobs: map<JobId, JobRow>, byHash: map<Hash, JobId>, outputs: map<JobId, OutputRow>,
                   votes: map<JobId, VoteTable>, outbox: seq<OutboxRow>, audit: seq<AuditRow>)

  const EMPTY := Db(map[], map[], map[], map[], [], [])

  // ---------------------------------------------------------------- statements

  function RowFor(payload: Ratesheet): OutputRow {
    OutputRow(payload, |payload.lanes|, |payload.flags|, |payload.rejected|)
  }

  /** UPDATE ... WHERE job_id: without such a row, nothing happens. */
  function WithStatus(db: Db, job: JobId, status: Status, completedAt: Option<Time>): Db {
    if job !in db.jobs then db
    else
      var row := db.jobs[job];
      db.(jobs := db.jobs[job := row.(status := status,
                                      completedAt := if completedAt.Some? then completedAt else row.completedAt)])
  }

  function WithNotice(db: Db, job: JobId, notice: Notice): Db {
    db.(outbox := db.outbox + [OutboxRow(job, notice)])
  }

  function WithAudit(db: Db, job: JobId, action: Action): Db {
    db.(audit := db.audit + [AuditRow(job, action)])
  }

  function WithOutput(db: Db, job: JobId, payload: Ratesheet): Db {
    db.(outputs := db.outputs[job := RowFor(payload)])
  }

  function VotesOf(db: Db, job: JobId): VoteTable {
    if job in db.votes then db.votes[job] else map[]
  }

  /** The common tail of a stage: status, outbox copy, audit row. */
  function Staged(db: Db, job: JobId, status: Status, completedAt: Option<Time>, action: Action): Db {
    WithAudit(WithNotice(WithStatus(db, job, status, completedAt), job, StageDone(action)), job, action)
  }

  // ---------------------------------------------------------------- transactions

  datatype Ingested = Ingested(db: Db, job: JobId, created: bool)

  /** Intake: a new job unless the hash is known, and one ingress notice either way. */
  function IngestTx(db: Db, newId: JobId, hash: Hash, channel: string): Option<Ingested> {
    if hash in db.byHash then
      Some(Ingested(WithNotice(db, db.byHash[hash], IngressReceived(channel)), db.byHash[hash], false))
    else if newId in db.jobs then None
    else
      var inserted := db.(jobs := db.jobs[newId := JobRow(hash, Pending, None)], byHash := db.byHash[hash := newId]);
      Some(Ingested(WithNotice(inserted, newId, IngressReceived(channel)), newId, true))
  }

  /** Unsupported format: the one failure that leaves neither an audit row nor a notice. */
  function RejectTx(db: Db, job: JobId, now: Time): Db {
    WithStatus(db, job, Failed, Some(now))
  }

  /** Every other failure. */
  function FailTx(db: Db, job: JobId, action: Action, now: Time): Option<Db> {
    if job !in db.jobs then None else Some(Staged(db, job, Failed, Some(now), action))
  }

  /** Classification leaves an audit row but no notice. */
  function ClassifyTx(db: Db, job: JobId): Option<Db> {
    if job !in db.jobs then None else Some(WithAudit(WithStatus(db, job, Extracting, None), job, Classified))
  }

  /** A plain INSERT of the output: a second one would violate the primary key. */
  function ExtractTx(db: Db, job: JobId, payload: Ratesheet): Option<Db> {
    if job !in db.jobs || job in db.outputs then None
    else Some(Staged(WithOutput(db, job, payload), job, Normalizing, None, Extracted))
  }

  function NormalizeTx(db: Db, job: JobId, payload: Ratesheet, results: seq<ConsensusResult>): Option<Db> {
    if job !in db.jobs then None
    else
      var stored := WithOutput(db, job, payload);
      var voted := stored.(votes := stored.votes[job := VotesOf(db, job) + Normalizer.Snapshots(results)]);
      Some(Staged(voted, job, Validating, None, Normalized))
  }

  function ValidateTx(db: Db, job: JobId, payload: Ratesheet, channel: string, now: Time): Option<Db> {
    if job !in db.jobs then None
    else
      var staged := Staged(WithOutput(db, job, payload), job, Completed, Some(now), Validated);
      Some(WithNotice(WithNotice(staged, job, SlackPost(channel)), job, UploadResult))
  }

  // ---------------------------------------------------------------- the tables, updated in place

  class Tables {
    var jobs: map<JobId, JobRow>
    var byHash: map<Hash, JobId>
    var outputs: map<JobId, OutputRow>
    var votes: map<JobId, VoteTable>
    var outbox: seq<OutboxRow>
    var audit: seq<AuditRow>

    function State(): Db
      reads this
    {
      Db(jobs, byHash, outputs, votes, outbox, audit)
    }

    constructor ()
      ensures State() == EMPTY
    {
      jobs, byHash, outputs, votes, outbox, audit := map[], map[], map[], map[], [], [];
    }

    /** ROLLBACK. */
    method Restore(saved: Db)
      modifies this
      ensures State() == saved
    {
      jobs, byHash, outputs, votes, outbox, audit :=
        saved.jobs, saved.byHash, saved.outputs, saved.votes, saved.outbox, saved.audit;
    }

    /** INSERT ... ON CONFLICT (input_hash) DO NOTHING, else look the job up; None is a primary key clash. */
    method InsertJobIfNew(newId: JobId, hash: Hash) returns (r: Option<(JobId, bool)>)
      modifies this
      ensures r.None? <==> hash !in old(byHash) && newId in old(jobs)
      ensures r.Some? ==> (r.value.1 <==> hash !in old(byHash))
      ensures r.Some? ==> hash in byHash && byHash[hash] == r.value.0
      ensures r.Some? && r.value.1 ==>
                && r.value.0 == newId
                && State() == old(State()).(jobs := old(jobs)[newId := JobRow(hash, Pending, None)],
                                            byHash := old(byHash)[hash := newId])
      ensures r.None? || !r.value.1 ==> State() == old(State())
    {
      if hash in byHash {
        return Some((byHash[hash], false));
      }
      if newId in jobs {
        return None;
      }
      jobs := jobs[newId := JobRow(hash, Pending, None)];
      byHash := byHash[hash := newId];
      r := Some((newId, true));
    }

    method UpdateJobStatus(job: JobId, status: Status, completedAt: Option<Time>)
      modifies this
      ensures State() == WithStatus(old(State()), job, status, completedAt)
      ensures jobs.Keys == old(jobs).Keys
    {
      if job in jobs {
        var row := jobs[job].(status := status);
        if completedAt.Some? {
          row := row.(completedAt := completedAt);
        }
        jobs := jobs[job := row];
      }
    }

    /** A plain INSERT; it fails on a missing job or an existing row. */
    method InsertOutput(job: JobId, payload: Ratesheet) returns (ok: bool)
      modifies this
      ensures ok <==> job in old(jobs) && job !in old(outputs)
      ensures State() == if ok then WithOutput(old(State()), job, payload) else old(State())
    {
      ok := job in jobs && job !in outputs;
      if ok {
        outputs := outputs[job := OutputRow(payload, |payload.lanes|, |payload.flags|, |payload.rejected|)];
      }
    }

    /** INSERT ... ON CONFLICT (job_id) DO UPDATE. */
    method UpsertOutput(job: JobId, payload: Ratesheet) returns (ok: bool)
      modifies this
      ensures ok <==> job in old(jobs)
      ensures State() == if ok then WithOutput(old(State()), job, payload) else old(State())
    {
      ok := job in jobs;
      if ok {
        outputs := outputs[job := OutputRow(payload, |payload.lanes|, |payload.flags|, |payload.rejected|)];
      }
    }

    /** One INSERT in the caller's transaction; the job must exist. */
    method EnqueueOutboxEvent(job: JobId, notice: Notice) returns (ok: bool)
      modifies this
      ensures ok <==> job in old(jobs)
      ensures State() == if ok then WithNotice(old(State()), job, notice) else old(State())
    {
      ok := job in jobs;
      if ok {
        outbox := outbox + [OutboxRow(job, notice)];
      }
    }

    method AddAuditRow(job: JobId, action: Action) returns (ok: bool)
      modifies this
      ensures ok <==> job in old(jobs)
      ensures State() == if ok then WithAudit(old(State()), job, action) else old(State())
    {
      ok := job in jobs;
      if ok {
        audit := audit + [AuditRow(job, action)];
      }
    }

    /** Status, outbox copy and audit row of one stage. */
    method CloseStage(job: JobId, status: Status, completedAt: Option<Time>, action: Action) returns (ok: bool)
      modifies this
      ensures ok <==> job in old(jobs)
      ensures ok ==> State() == Staged(old(State()), job, status, completedAt, action)
    {
      UpdateJobStatus(job, status, completedAt);
      ok := EnqueueOutboxEvent(job, StageDone(action));
      if ok {
        ok := AddAuditRow(job, action);
      }
    }

    /** The transaction of the intake route. */
    method Ingest(newId: JobId, hash: Hash, channel: string) returns (r: Option<(JobId, bool)>)
      requires forall h :: h in byHash ==> byHash[h] in jobs
      modifies this
      ensures var tx := IngestTx(old(State()), newId, hash, channel);
              && (r.Some? <==> tx.Some?)
              && (r.Some? ==> r.value == (tx.value.job, tx.value.created) && State() == tx.value.db)
              && (r.None? ==> State() == old(State()))
    {
      r := InsertJobIfNew(newId, hash);
      if r.None? {
        return;
      }
      var noticed := EnqueueOutboxEvent(r.value.0, IngressReceived(channel));
    }

    method CommitFailure(job: JobId, action: Action, now: Time) returns (ok: bool)
      modifies this
      ensures var tx := FailTx(old(State()), job, action, now);
              ok == tx.Some? && State() == if ok then tx.value else old(State())
    {
      var saved := State();
      ok := CloseStage(job, Failed, Some(now), action);
      if !ok {
        Restore(saved);
      }
    }

    method CommitReject(job: JobId, now: Time)
      modifies this
      ensures State() == RejectTx(old(State()), job, now)
    {
      UpdateJobStatus(job, Failed, Some(now));
    }

    method CommitClassified(job: JobId) returns (ok: bool)
      modifies this
      ensures var tx := ClassifyTx(old(State()), job);
              ok == tx.Some? && State() == if ok then tx.value else old(State())
    {
      var saved := State();
      UpdateJobStatus(job, Extracting, None);
      ok := AddAuditRow(job, Classified);
      if !ok {
        Restore(saved);
      }
    }

    method CommitExtracted(job: JobId, payload: Ratesheet) returns (ok: bool)
      modifies this
      ensures var tx := ExtractTx(old(State()), job, payload);
              ok == tx.Some? && State() == if ok then tx.value else old(State())
    {
      var saved := State();
      ok := InsertOutput(job, payload);
      if ok {
        ok := CloseStage(job, Normalizing, None, Extracted);
      }
      if !ok {
        Restore(saved);
      }
    }

    method CommitNormalized(job: JobId, payload: Ratesheet, results: seq<ConsensusResult>) returns (ok: bool)
      modifies this
      ensures var tx := NormalizeTx(old(State()), job, payload, results);
              ok == tx.Some? && State() == if ok then tx.value else old(State())
    {
      var saved := State();
      ok := UpsertOutput(job, payload);
      if ok {
        var snapshots := Normalizer.PersistConsensusVotes(results);
        votes := votes[job := (if job in votes then votes[job] else map[]) + snapshots];
        ok := CloseStage(job, Validating, None, Normalized);
      }
      if !ok {
        Restore(saved);
      }
    }

    method CommitValidated(job: JobId, payload: Ratesheet, channel: string, now: Time) returns (ok: bool)
      modifies this
      ensures var tx := ValidateTx(old(State()), job, payload, channel, now);
              ok == tx.Some? && State() == if ok then tx.value else old(State())
    {
      var saved := State();
      ok := UpsertOutput(job, payload);
      if ok {
        ok := CloseStage(job, Completed, Some(now), Validated);
      }
      if ok {
        ok := EnqueueOutboxEvent(job, SlackPost(channel));
      }
      if ok {
        ok := EnqueueOutboxEvent(job, UploadResult);
      }
      if !ok {
        Restore(saved);
      }
    }
  }
}
