/** The invariant of the pipeline machine, job by job, and its preservation by every step. */
module PipelineSafety {
  import opened Prelude
  import opened Lanes
  import opened Consensus
  import opened Database
  import opened PipelineMachine
  import Normalizer

  /** Everything the tables and the chain say about one job. */
  datatype View = View(row: JobRow, chain: Chain, past: History, output: Option<OutputRow>, votes: VoteTable,
                       blob: Option<Ratesheet>, trail: seq<Action>, notices: seq<Notice>, now: Time, age: nat)

  ghost function ViewOf(s: Sys, j: JobId): View
    requires j in s.db.jobs && j in s.chains
  {
    View(s.db.jobs[j], s.chains[j], HistoryOf(s, j),
         if j in s.db.outputs then Some(s.db.outputs[j]) else None,
         VotesOf(s.db, j),
         if j in s.blobs then Some(s.blobs[j]) else None,
         TrailOf(s.db.audit, j), NoticesOf(s.db.outbox, j), s.now, s.age)
  }

  // ---------------------------------------------------------------- the invariant of one job

  /** Number of stages that succeeded. */
  function Reach(trail: seq<Action>): nat {
    if trail != [] && trail[|trail| - 1].Failure() then |trail| - 1 else |trail|
  }

  function StatusAt(k: nat): Status {
    match k
    case 0 => Pending
    case 1 => Extracting
    case 2 => Normalizing
    case 3 => Validating
    case _ => Completed
  }

  /** The row that closes a trail of `k` successes; a classify rejection leaves none. */
  function Closing(k: nat): seq<Action> {
    match k
    case 1 => [ExtractFailed]
    case 2 => [NormalizeFailed]
    case 3 => [ValidateFailed]
    case _ => []
  }

  predicate TrailOk(status: Status, trail: seq<Action>) {
    var k := Reach(trail);
    && k <= 4
    && if status == Failed then k <= 3 && trail == FULL[..k] + Closing(k)
       else trail == FULL[..k] && status == StatusAt(k)
  }

  /** The status a chain that is not over implies. */
  function StatusDuring(chain: Chain): Option<Status> {
    match chain
    case Received => Some(Pending)
    case Queued(t) => Some(Before(t))
    case Working(t) => Some(Before(t))
    case Reading(t, _) => Some(Before(t))
    case Posting(_, _) => Some(Validating)
    case Scoring(_, _, _) => Some(Validating)
    case Failing(t) => Some(Before(t))
    case Committed(t) => Some(match t case Classify => Extracting case Extract => Normalizing
                                      case Normalize => Validating case Validate => Completed)
    case Over => None
  }

  /** The status during a task. */
  function Before(task: Task): Status {
    match task
    case Classify => Pending
    case Extract => Extracting
    case Normalize => Normalizing
    case Validate => Validating
  }

  /** What a body holds in memory is what the stage before it committed. */
  predicate ChainOk(v: View) {
    && (v.chain != Over ==> StatusDuring(v.chain) == Some(v.row.status))
    && match v.chain
       case Reading(t, sheet) => (t == Normalize && v.past.extracted == Some(sheet))
                                 || (t == Validate && v.past.normalized == Some(sheet))
       case Posting(sheet, channel) => v.past.normalized == Some(sheet) && Announced(v.notices, channel)
       case Scoring(sheet, channel, table) =>
         v.past.normalized == Some(sheet) && table == v.votes && Announced(v.notices, channel)
       case Failing(t) => t != Classify
       case _ => true
  }

  /** Some submission of the job asked for this channel. */
  predicate Announced(notices: seq<Notice>, channel: string) {
    channel != "" && IngressReceived(channel) in notices
  }

  /** Every stage but classification is reported once; the deliveries are queued exactly when completed. */
  predicate NoticesOk(v: View) {
    && StagesOf(v.notices) == (if v.trail == [] then [] else v.trail[1..])
    && Posts(v.notices) == Uploads(v.notices) == (if v.row.status == Completed then 1 else 0)
    && forall n :: n in v.notices && n.SlackPost? ==> Announced(v.notices, n.channel)
  }

  predicate PastOk(v: View) {
    var k := Reach(v.trail);
    && (v.past.extracted.Some? <==> k >= 2)
    && (v.past.normalized.Some? <==> k >= 3)
    && (v.past.final.Some? <==> k >= 4)
    && (k < 3 ==> v.past.results == [])
    && v.votes == Normalizer.Snapshots(v.past.results)
  }

  /** The output row holds the latest committed payload; a finished one may be in the archive instead. */
  predicate StoredOk(v: View)
    requires PastOk(v) && Reach(v.trail) <= 4
  {
    var k := Reach(v.trail);
    && (v.blob.Some? ==> k == 4 && v.blob == v.past.final)
    && if k <= 1 then v.output == None
       else if k == 2 then v.output == Some(RowFor(v.past.extracted.value))
       else if k == 3 then v.output == Some(RowFor(v.past.normalized.value))
       else v.output == Some(RowFor(v.past.final.value))
            || (v.output == None && v.blob.Some? && v.row.completedAt.Some? && v.row.completedAt.value + v.age < v.now)
  }

  /** Each committed payload came from the one before it. */
  ghost predicate Derived(h: History, stages: Stages) {
    && (h.extracted.Some? ==> stages.extraction(h.extracted.value))
    && (h.normalized.Some? ==>
          h.extracted.Some? && stages.normalization(h.extracted.value, h.normalized.value, h.results))
    && (h.final.Some? ==>
          h.normalized.Some? && stages.validation(h.normalized.value, Normalizer.Snapshots(h.results), h.final.value))
  }

  predicate ClockOk(row: JobRow, now: Time) {
    && (row.completedAt.Some? <==> row.status == Completed || row.status == Failed)
    && (row.completedAt.Some? ==> row.completedAt.value <= now)
  }

  predicate JobOk(v: View) {
    && TrailOk(v.row.status, v.trail) && ChainOk(v) && NoticesOk(v) && PastOk(v)
    && StoredOk(v) && ClockOk(v.row, v.now)
  }

  // ---------------------------------------------------------------- the invariant of the whole state

  ghost predicate TablesOk(s: Sys) {
    && (forall j :: j in s.chains <==> j in s.db.jobs)
    && (forall j :: j in s.history <==> j in s.db.jobs)
    && (forall j :: j in s.db.outputs ==> j in s.db.jobs)
    && (forall j :: j in s.db.votes ==> j in s.db.jobs)
    && (forall j :: j in s.blobs ==> j in s.db.jobs)
    && (forall r :: r in s.db.outbox ==> r.job in s.db.jobs)
    && (forall r :: r in s.db.audit ==> r.job in s.db.jobs)
  }

  /** The index on the input hash: at most one job per hash. */
  predicate IndexOk(db: Db) {
    && (forall h :: h in db.byHash ==> db.byHash[h] in db.jobs && db.jobs[db.byHash[h]].hash == h)
    && (forall j :: j in db.jobs ==> db.jobs[j].hash in db.byHash && db.byHash[db.jobs[j].hash] == j)
  }

  predicate StartedOk(s: Sys) {
    NoDup(s.started) && forall j :: j in s.started ==> j in s.chains && s.chains[j] != Received
  }

  /** A stale candidate still names a completed job and its final payload. */
  predicate CandidateOk(s: Sys, c: Candidate) {
    && c.job in s.db.jobs && s.db.jobs[c.job].status == Completed
    && s.db.jobs[c.job].completedAt == Some(c.completedAt) && c.completedAt + s.age < s.now
    && HistoryOf(s, c.job).final == Some(c.payload)
  }

  predicate SweepOk(s: Sys, w: Sweep) {
    && (forall c :: c in w.todo ==> CandidateOk(s, c))
    && (w.uploaded ==> w.todo != [] && w.todo[0].job in s.blobs)
  }

  predicate SweepsOk(s: Sys) {
    forall k :: k in s.sweeps ==> SweepOk(s, s.sweeps[k])
  }

  ghost predicate AllDerived(s: Sys) {
    forall j :: j in s.history ==> Derived(s.history[j], s.stages)
  }

  /** Every job satisfies `ok`. */
  ghost predicate AllJobs(s: Sys, ok: View -> bool) {
    forall j :: j in s.db.jobs && j in s.chains ==> ok(ViewOf(s, j))
  }

  ghost predicate Inv(s: Sys) {
    TablesOk(s) && IndexOk(s.db) && StartedOk(s) && SweepsOk(s) && AllDerived(s) && AllJobs(s, JobOk)
  }

  // ---------------------------------------------------------------- projections

  lemma {:induction false} TrailSnoc(audit: seq<AuditRow>, row: AuditRow, j: JobId)
    ensures TrailOf(audit + [row], j) == TrailOf(audit, j) + if row.job == j then [row.action] else []
  {
    assert (audit + [row])[..|audit|] == audit;
  }

  lemma {:induction false} NoticesSnoc(outbox: seq<OutboxRow>, row: OutboxRow, j: JobId)
    ensures NoticesOf(outbox + [row], j) == NoticesOf(outbox, j) + if row.job == j then [row.notice] else []
  {
    assert (outbox + [row])[..|outbox|] == outbox;
  }

  lemma {:induction false} CountsSnoc(notices: seq<Notice>, n: Notice)
    ensures StagesOf(notices + [n]) == StagesOf(notices) + if n.StageDone? then [n.action] else []
    ensures Posts(notices + [n]) == Posts(notices) + if n.SlackPost? then 1 else 0
    ensures Uploads(notices + [n]) == Uploads(notices) + if n.UploadResult? then 1 else 0
  {
    assert (notices + [n])[..|notices|] == notices;
  }

  lemma {:induction false} NoRowsNoTrail(audit: seq<AuditRow>, j: JobId)
    requires forall r :: r in audit ==> r.job != j
    ensures TrailOf(audit, j) == []
  {
    if audit != [] {
      assert audit[|audit| - 1] in audit;
      NoRowsNoTrail(audit[..|audit| - 1], j);
    }
  }

  lemma {:induction false} NoRowsNoNotices(outbox: seq<OutboxRow>, j: JobId)
    requires forall r :: r in outbox ==> r.job != j
    ensures NoticesOf(outbox, j) == []
  {
    if outbox != [] {
      assert outbox[|outbox| - 1] in outbox;
      NoRowsNoNotices(outbox[..|outbox| - 1], j);
    }
  }

  lemma {:induction false} SentIsNoticed(outbox: seq<OutboxRow>, j: JobId, notice: Notice)
    ensures notice in NoticesOf(outbox, j) <==> OutboxRow(j, notice) in outbox
  {
    if outbox != [] {
      var m := |outbox| - 1;
      SentIsNoticed(outbox[..m], j, notice);
      assert outbox == outbox[..m] + [outbox[m]];
    }
  }

  // ---------------------------------------------------------------- frames

  /** Only job `j`'s own part of the state changes, and a completion is not undone. */
  ghost predicate Only(s: Sys, s': Sys, j: JobId) {
    && TablesOk(s) && TablesOk(s') && j in s.db.jobs
    && s'.stages == s.stages && s'.now == s.now && s'.age == s.age && s'.sweeps == s.sweeps && s'.blobs == s.blobs
    && s'.db.byHash == s.db.byHash
    && (forall i :: i in s'.db.jobs <==> i in s.db.jobs)
    && s'.db.jobs[j].hash == s.db.jobs[j].hash
    && (s.db.jobs[j].status == Completed ==>
          s'.db.jobs[j] == s.db.jobs[j] && HistoryOf(s', j).final == HistoryOf(s, j).final)
    && (forall i :: i in s.db.jobs && i != j ==> Alike(s, s', i))
  }

  /** Nothing about job `i` changes. */
  ghost predicate Alike(s: Sys, s': Sys, i: JobId)
    requires i in s.db.jobs ==> i in s'.db.jobs
    requires TablesOk(s) && TablesOk(s')
  {
    i in s.db.jobs ==> ViewOf(s', i) == ViewOf(s, i)
  }

  lemma {:induction false} OnlyKeepsCandidates(s: Sys, s': Sys, j: JobId, c: Candidate)
    requires Only(s, s', j) && CandidateOk(s, c)
    ensures CandidateOk(s', c)
  {
    if c.job != j {
      assert Alike(s, s', c.job);
    }
  }

  lemma {:induction false} OnlyKeepsSweeps(s: Sys, s': Sys, j: JobId)
    requires Only(s, s', j) && SweepsOk(s)
    ensures SweepsOk(s')
  {
    forall k | k in s'.sweeps ensures SweepOk(s', s'.sweeps[k]) {
      assert SweepOk(s, s.sweeps[k]);
      forall c | c in s'.sweeps[k].todo ensures CandidateOk(s', c) {
        OnlyKeepsCandidates(s, s', j, c);
      }
    }
  }

  lemma {:induction false} OnlyKeepsIndex(s: Sys, s': Sys, j: JobId)
    requires Only(s, s', j) && IndexOk(s.db)
    ensures IndexOk(s'.db)
  {
    forall i | i in s.db.jobs ensures s'.db.jobs[i].hash == s.db.jobs[i].hash {
      assert i != j ==> Alike(s, s', i);
    }
  }

  lemma {:induction false} OnlyKeepsDerived(s: Sys, s': Sys, j: JobId)
    requires Only(s, s', j) && AllDerived(s) && Derived(HistoryOf(s', j), s.stages)
    ensures AllDerived(s')
  {
    forall i | i in s'.history ensures Derived(s'.history[i], s'.stages) {
      assert i != j ==> Alike(s, s', i);
      assert s'.history[i] == HistoryOf(s', i) && s.history[i] == HistoryOf(s, i);
    }
  }

  lemma {:induction false} OnlyKeepsJobs(s: Sys, s': Sys, j: JobId, ok: View -> bool)
    requires Only(s, s', j) && AllJobs(s, ok) && ok(ViewOf(s', j))
    ensures AllJobs(s', ok)
  {
    forall i | i in s'.db.jobs && i in s'.chains ensures ok(ViewOf(s', i)) {
      assert i != j ==> Alike(s, s', i);
    }
  }

  /** A step about one job keeps the invariant if it keeps that job's. */
  lemma {:induction false} OnlyKeepsInv(s: Sys, s': Sys, j: JobId)
    requires Inv(s) && Only(s, s', j) && StartedOk(s') && JobOk(ViewOf(s', j))
    requires Derived(HistoryOf(s', j), s.stages)
    ensures Inv(s')
  {
    OnlyKeepsIndex(s, s', j);
    OnlyKeepsSweeps(s, s', j);
    OnlyKeepsDerived(s, s', j);
    OnlyKeepsJobs(s, s', j, JobOk);
  }
}
