/** What holds in every reachable state of the pipeline, and over every run. */
module PipelineTheorems {
  import opened Prelude
  import opened Lanes
  import opened Database
  import opened PipelineMachine
  import opened PipelineSafety
  import opened PipelineSteps

  /** Some reachable state of some installation. */
  ghost predicate CanReach(s: Sys) {
    exists stages, now, age, es :: Run(Initial(stages, now, age), es) && s == After(Initial(stages, now, age), es)
  }

  lemma {:induction false} ReachedInv(s: Sys)
    requires CanReach(s)
    ensures Inv(s)
  {
    var stages, now, age, es :| Run(Initial(stages, now, age), es) && s == After(Initial(stages, now, age), es);
    Reachable(stages, now, age, es);
  }

  lemma {:induction false} ReachedJob(s: Sys, j: JobId)
    requires CanReach(s) && j in s.db.jobs
    ensures j in s.chains && JobOk(ViewOf(s, j))
  {
    ReachedInv(s);
    JobsAreOk(s, j);
  }

  // ---------------------------------------------------------------- trail and status

  /** The status a non-empty trail stands for. */
  function StatusOf(trail: seq<Action>): Status
    requires trail != []
  {
    match trail[|trail| - 1]
    case Classified => Extracting
    case Extracted => Normalizing
    case Normalized => Validating
    case Validated => Completed
    case _ => Failed
  }

  /**
   The audit trail is a prefix of classified, extracted, normalized, validated, or such a prefix closed by
   the failure row of the stage that came next; it determines the status, but for the classify rejection.
   */
  lemma {:induction false} AuditTrail(s: Sys, j: JobId)
    requires CanReach(s) && j in s.db.jobs
    ensures var trail, status := TrailOf(s.db.audit, j), s.db.jobs[j].status;
            && (exists k: nat :: k <= 4 && (trail == FULL[..k] || (1 <= k <= 3 && trail == FULL[..k] + Closing(k))))
            && (if trail == [] then status == Pending || status == Failed else status == StatusOf(trail))
  {
    ReachedJob(s, j);
    TrailShape(s.db.jobs[j].status, ViewOf(s, j).trail);
  }

  lemma {:induction false} TrailShape(status: Status, trail: seq<Action>)
    requires TrailOk(status, trail)
    ensures exists k: nat :: k <= 4 && (trail == FULL[..k] || (1 <= k <= 3 && trail == FULL[..k] + Closing(k)))
    ensures if trail == [] then status == Pending || status == Failed else status == StatusOf(trail)
  {
    var k := Reach(trail);
    assert trail == FULL[..k] || (1 <= k <= 3 && trail == FULL[..k] + Closing(k));
  }

  /** A failure without a trail is a classify rejection, and only that. */
  lemma {:induction false} OnlyRejectionsAreSilent(s: Sys, e: Event, j: JobId)
    requires CanReach(s) && Enabled(s, e) && j in s.db.jobs && s.db.jobs[j].status != Failed
    ensures j in Apply(s, e).db.jobs
    ensures Apply(s, e).db.jobs[j].status == Failed && TrailOf(Apply(s, e).db.audit, j) == [] <==>
              e.RejectFormat? && e.job == j
  {
    ReachedJob(s, j);
    if e.RejectFormat? && e.job == j {
      RejectedTrail(ViewOf(s, j));
    } else if e.RecordFailure? && e.job == j {
      TrailSnoc(s.db.audit, AuditRow(j, FailureOf(s.chains[j].task).value), j);
    } else {
      OthersNeverFail(s, e, j);
    }
  }

  lemma {:induction false} RejectedTrail(v: View)
    requires JobOk(v) && v.chain == Working(Classify)
    ensures v.trail == []
  {
  }

  lemma {:induction false} OthersNeverFail(s: Sys, e: Event, j: JobId)
    requires Enabled(s, e) && j in s.db.jobs && s.db.jobs[j].status != Failed
    requires !(e.RejectFormat? && e.job == j) && !(e.RecordFailure? && e.job == j)
    ensures j in Apply(s, e).db.jobs && Apply(s, e).db.jobs[j].status != Failed
  {
    if Succeeds(e) && e.job == j {
      SuccessStatus(s, e, j);
    } else {
      RowKept(s, e, j);
    }
  }

  /** The success transactions. */
  predicate Succeeds(e: Event) {
    e.CommitClassify? || e.CommitExtract? || e.CommitNormalize? || e.CommitValidate?
  }

  /** The events that write the row of a job. */
  predicate WritesRow(e: Event, j: JobId) {
    (Succeeds(e) || e.RejectFormat? || e.RecordFailure?) && e.job == j
  }

  lemma {:induction false} SuccessStatus(s: Sys, e: Event, j: JobId)
    requires Enabled(s, e) && Succeeds(e) && e.job == j
    ensures j in Apply(s, e).db.jobs && Apply(s, e).db.jobs[j].status != Failed
  {
  }

  /** Every other event leaves the row and the finished payload of job `j` alone. */
  lemma {:induction false} RowKept(s: Sys, e: Event, j: JobId)
    requires Enabled(s, e) && j in s.db.jobs && !WritesRow(e, j)
    ensures j in Apply(s, e).db.jobs && Apply(s, e).db.jobs[j] == s.db.jobs[j]
    ensures HistoryOf(Apply(s, e), j).final == HistoryOf(s, j).final || e.Submit?
  {
    if Succeeds(e) {
      SuccessKeeps(s, e, j);
    } else if e.SweepSelect? || e.Upload? || e.UploadFail? || e.Delete? || e.SweepDies? {
      SweepKeeps(s, e, j);
    } else if Quiet(e) {
      QuietMoves(s, e);
    }
  }

  lemma {:induction false} SuccessKeeps(s: Sys, e: Event, j: JobId)
    requires Enabled(s, e) && j in s.db.jobs && Succeeds(e) && e.job != j
    ensures j in Apply(s, e).db.jobs && Apply(s, e).db.jobs[j] == s.db.jobs[j]
    ensures HistoryOf(Apply(s, e), j) == HistoryOf(s, j)
    ensures j in Apply(s, e).chains <==> j in s.chains
    ensures j in s.chains ==> Apply(s, e).chains[j] == s.chains[j]
  {
  }

  lemma {:induction false} SweepKeeps(s: Sys, e: Event, j: JobId)
    requires Enabled(s, e) && j in s.db.jobs
    requires e.SweepSelect? || e.Upload? || e.UploadFail? || e.Delete? || e.SweepDies?
    ensures Apply(s, e).db.jobs == s.db.jobs && Apply(s, e).chains == s.chains && Apply(s, e).history == s.history
  {
  }

  lemma {:induction false} QuietMoves(s: Sys, e: Event)
    requires Enabled(s, e) && Quiet(e)
    ensures Apply(s, e).db == s.db && Apply(s, e).history == s.history && e.job in Apply(s, e).chains
    ensures Apply(s, e).chains == s.chains[e.job := Apply(s, e).chains[e.job]]
  {
  }

  lemma {:induction false} ClassifiedFirst(status: Status, trail: seq<Action>)
    requires TrailOk(status, trail)
    ensures trail != [] ==> trail[0] == Classified && forall a :: a in trail[1..] ==> a != Classified
  {
    var k := Reach(trail);
    var closing := if status == Failed then Closing(k) else [];
    assert trail == FULL[..k] + closing;
    if k > 0 {
      assert trail[1..] == FULL[..k][1..] + closing;
      assert forall i :: 1 <= i < 4 ==> FULL[i] != Classified;
    }
  }

  /** The outbox repeats the trail for the audit log, without the classification. */
  lemma {:induction false} OutboxMirrorsTrail(s: Sys, j: JobId)
    requires CanReach(s) && j in s.db.jobs
    ensures StagesOf(NoticesOf(s.db.outbox, j)) == Filter(TrailOf(s.db.audit, j), (a: Action) => a != Classified)
  {
    ReachedJob(s, j);
    var v := ViewOf(s, j);
    ClassifiedFirst(v.row.status, v.trail);
    if v.trail != [] {
      FilterAll(v.trail[1..], (a: Action) => a != Classified);
    }
  }

  /** One Slack post and one upload for a completed job, to a channel asked for at intake; otherwise none. */
  lemma {:induction false} DeliveriesIffCompleted(s: Sys, j: JobId)
    requires CanReach(s) && j in s.db.jobs
    ensures var notices := NoticesOf(s.db.outbox, j);
            && Posts(notices) == (if s.db.jobs[j].status == Completed then 1 else 0)
            && Uploads(notices) == Posts(notices)
            && forall n :: n in notices && n.SlackPost? ==> n.channel != "" && IngressReceived(n.channel) in notices
  {
    ReachedJob(s, j);
  }

  /** So no single delivery row can belong to an unfinished or failed job. */
  lemma {:induction false} NoEarlyDelivery(s: Sys, row: OutboxRow)
    requires CanReach(s) && row in s.db.outbox && (row.notice.SlackPost? || row.notice.UploadResult?)
    ensures row.job in s.db.jobs && s.db.jobs[row.job].status == Completed
  {
    ReachedInv(s);
    DeliveriesIffCompleted(s, row.job);
    SentIsNoticed(s.db.outbox, row.job, row.notice);
    CountsAreNotices(NoticesOf(s.db.outbox, row.job), row.notice);
  }

  lemma {:induction false} CountsAreNotices(notices: seq<Notice>, n: Notice)
    requires n in notices
    ensures n.SlackPost? ==> Posts(notices) > 0
    ensures n.UploadResult? ==> Uploads(notices) > 0
  {
    var m := |notices| - 1;
    if notices[m] != n {
      assert notices == notices[..m] + [notices[m]];
      CountsAreNotices(notices[..m], n);
    }
  }

  // ---------------------------------------------------------------- ends are final

  /** Nothing can change the job's row, trail or payload any more. */
  predicate Settled(s: Sys, j: JobId) {
    j in s.db.jobs && j in s.chains && (s.chains[j] == Over || s.chains[j] == Committed(Validate))
  }

  lemma {:induction false} SettledStep(s: Sys, e: Event, j: JobId)
    requires TablesOk(s) && Enabled(s, e) && Settled(s, j)
    ensures Settled(Apply(s, e), j) && Apply(s, e).db.jobs[j] == s.db.jobs[j]
    ensures HistoryOf(Apply(s, e), j).final == HistoryOf(s, j).final
  {
    SettledIsIdle(s, e, j);
    if Succeeds(e) {
      SuccessKeeps(s, e, j);
    } else if e.SweepSelect? || e.Upload? || e.UploadFail? || e.Delete? || e.SweepDies? {
      SweepKeeps(s, e, j);
    } else if Quiet(e) {
      QuietMoves(s, e);
      SettledMoves(s, e, j);
    } else {
      SettledElsewhere(s, e, j);
    }
  }

  /** No transaction of a settled job is enabled. */
  lemma {:induction false} SettledIsIdle(s: Sys, e: Event, j: JobId)
    requires Enabled(s, e) && Settled(s, j)
    ensures !WritesRow(e, j) && !(e.StartChain? && e.job == j)
  {
  }

  lemma {:induction false} SettledMoves(s: Sys, e: Event, j: JobId)
    requires Enabled(s, e) && Settled(s, j) && Quiet(e)
    ensures j in Apply(s, e).chains
    ensures Apply(s, e).chains[j] == Over || Apply(s, e).chains[j] == s.chains[j]
  {
  }

  lemma {:induction false} SettledElsewhere(s: Sys, e: Event, j: JobId)
    requires TablesOk(s) && Enabled(s, e) && Settled(s, j) && !WritesRow(e, j) && !(e.StartChain? && e.job == j)
    requires e.Submit? || e.Advance? || e.Annotate? || e.StartChain? || e.RejectFormat? || e.RecordFailure?
    ensures Settled(Apply(s, e), j) && Apply(s, e).db.jobs[j] == s.db.jobs[j]
    ensures HistoryOf(Apply(s, e), j).final == HistoryOf(s, j).final
  {
  }

  lemma {:induction false} SettledStays(s: Sys, es: seq<Event>, j: JobId)
    requires Inv(s) && Run(s, es) && Settled(s, j)
    ensures Settled(After(s, es), j) && After(s, es).db.jobs[j] == s.db.jobs[j]
    ensures HistoryOf(After(s, es), j).final == HistoryOf(s, j).final
    decreases |es|
  {
    if es != [] {
      SettledStep(s, es[0], j);
      InvStep(s, es[0]);
      SettledStays(Apply(s, es[0]), es[1..], j);
    }
  }

  lemma {:induction false} EndedIsSettled(v: View)
    requires JobOk(v) && (v.row.status == Completed || v.row.status == Failed)
    ensures v.chain == Over || v.chain == Committed(Validate)
  {
  }

  /** Completed and failed are never left, and the finished payload is never replaced. */
  lemma {:induction false} EndsAreFinal(s: Sys, es: seq<Event>, j: JobId)
    requires CanReach(s) && Run(s, es) && j in s.db.jobs
    requires s.db.jobs[j].status == Completed || s.db.jobs[j].status == Failed
    ensures j in After(s, es).db.jobs && After(s, es).db.jobs[j] == s.db.jobs[j]
    ensures HistoryOf(After(s, es), j).final == HistoryOf(s, j).final
  {
    ReachedJob(s, j);
    EndedIsSettled(ViewOf(s, j));
    ReachedInv(s);
    SettledStays(s, es, j);
  }

  /** A chain that raised where nothing catches, or died, leaves its job where it was, for good. */
  lemma {:induction false} LostChainsStayPut(s: Sys, es: seq<Event>, j: JobId)
    requires CanReach(s) && Run(s, es) && j in s.db.jobs && j in s.chains && s.chains[j] == Over
    ensures j in After(s, es).db.jobs && After(s, es).db.jobs[j] == s.db.jobs[j]
  {
    ReachedInv(s);
    SettledStays(s, es, j);
  }

  // ---------------------------------------------------------------- outputs and archive

  lemma {:induction false} OutputsHaveJobs(s: Sys, j: JobId)
    requires CanReach(s) && j in s.db.outputs
    ensures j in s.db.jobs
  {
    ReachedInv(s);
  }

  lemma {:induction false} OutputOk(v: View)
    requires JobOk(v) && v.output.Some?
    ensures v.output == Some(RowFor(v.output.value.payload))
  {
  }

  /** The stored counts are the lengths of the stored lists. */
  lemma {:induction false} CountsMatchPayload(s: Sys, j: JobId)
    requires CanReach(s) && j in s.db.outputs
    ensures var row := s.db.outputs[j];
            && row.laneCount == |row.payload.lanes| && row.flaggedCount == |row.payload.flags|
            && row.rejectedCount == |row.payload.rejected|
  {
    OutputsHaveJobs(s, j);
    ReachedJob(s, j);
    assert ViewOf(s, j).output == Some(s.db.outputs[j]);
    OutputOk(ViewOf(s, j));
  }

  /** The plain INSERT of Stage 2 never meets an existing row. */
  lemma {:induction false} InsertNeverClashes(s: Sys, j: JobId)
    requires CanReach(s) && At(s, j, Working(Extract))
    ensures j !in s.db.outputs
  {
    ReachedJob(s, j);
    var v := ViewOf(s, j);
    OpenTrail(v.row.status, v.trail);
    assert v.output == None;
  }

  /**
   A completed payload is never lost: its output row holds it, or the archive does, and then the job had
   completed more than the configured age ago.  The archive holds nothing else.
   */
  lemma {:induction false} NothingLost(s: Sys, j: JobId)
    requires CanReach(s) && j in s.db.jobs
    ensures s.db.jobs[j].status == Completed ==>
              && HistoryOf(s, j).final.Some?
              && (if j in s.db.outputs then Some(s.db.outputs[j].payload) == HistoryOf(s, j).final
                  else j in s.blobs && s.db.jobs[j].completedAt.Some?
                       && s.db.jobs[j].completedAt.value + s.age < s.now)
    ensures j in s.blobs ==> s.db.jobs[j].status == Completed && Some(s.blobs[j]) == HistoryOf(s, j).final
  {
    ReachedJob(s, j);
    KeptSomewhere(ViewOf(s, j));
  }

  lemma {:induction false} KeptSomewhere(v: View)
    requires JobOk(v)
    ensures v.row.status == Completed ==>
              && v.past.final.Some?
              && (if v.output.Some? then Some(v.output.value.payload) == v.past.final
                  else v.blob.Some? && v.row.completedAt.Some? && v.row.completedAt.value + v.age < v.now)
    ensures v.blob.Some? ==> v.row.status == Completed && v.blob == v.past.final
  {
    if v.row.status == Completed {
      OpenTrail(v.row.status, v.trail);
    }
  }

  // ---------------------------------------------------------------- intake

  lemma {:induction false} IndexIsUnique(db: Db, i: JobId, j: JobId)
    requires IndexOk(db) && i in db.jobs && j in db.jobs && db.jobs[i].hash == db.jobs[j].hash
    ensures i == j
  {
  }

  lemma {:induction false} StartedAreJobs(s: Sys, a: nat)
    requires TablesOk(s) && StartedOk(s) && a < |s.started|
    ensures s.started[a] in s.db.jobs
  {
    assert s.started[a] in s.started;
  }

  /** At most one job per input hash, and at most one chain per job. */
  lemma {:induction false} OneChainPerHash(s: Sys)
    requires CanReach(s)
    ensures forall i, j :: i in s.db.jobs && j in s.db.jobs && s.db.jobs[i].hash == s.db.jobs[j].hash ==> i == j
    ensures forall a, b :: 0 <= a < b < |s.started| ==>
              && s.started[a] in s.db.jobs && s.started[b] in s.db.jobs
              && s.db.jobs[s.started[a]].hash != s.db.jobs[s.started[b]].hash
  {
    ReachedInv(s);
    forall i, j | i in s.db.jobs && j in s.db.jobs && s.db.jobs[i].hash == s.db.jobs[j].hash ensures i == j {
      IndexIsUnique(s.db, i, j);
    }
    forall a | 0 <= a < |s.started| ensures s.started[a] in s.db.jobs {
      StartedAreJobs(s, a);
    }
  }

  /** A duplicate submission adds one notice for the existing job, and touches nothing else. */
  lemma {:induction false} DuplicateIsHarmless(s: Sys, e: Event)
    requires CanReach(s) && e.Submit? && Enabled(s, e)
    requires exists j :: j in s.db.jobs && s.db.jobs[j].hash == e.hash
    ensures exists j :: j in s.db.jobs && s.db.jobs[j].hash == e.hash
                        && Apply(s, e) == s.(db := s.db.(outbox := s.db.outbox + [OutboxRow(j, IngressReceived(e.channel))]))
  {
    ReachedInv(s);
    var j :| j in s.db.jobs && s.db.jobs[j].hash == e.hash;
    assert s.db.byHash[e.hash] == j;
  }
}
