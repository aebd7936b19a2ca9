/** Every step of the pipeline machine keeps the invariant. */
module PipelineSteps {
  import opened Prelude
  import opened Lanes
  import opened Consensus
  import opened Database
  import opened PipelineMachine
  import opened PipelineSafety
  import Normalizer

  // ---------------------------------------------------------------- what a transaction does to every job

  /** What the transaction appends: to the trail and the notices of job `j`, and to nobody else's. */
  ghost predicate Appends(db: Db, db': Db, j: JobId, actions: seq<Action>, notices: seq<Notice>) {
    && (forall i :: TrailOf(db'.audit, i) == TrailOf(db.audit, i) + if i == j then actions else [])
    && (forall i :: NoticesOf(db'.outbox, i) == NoticesOf(db.outbox, i) + if i == j then notices else [])
  }

  lemma {:induction false} StagedAppends(db: Db, j: JobId, status: Status, completedAt: Option<Time>, action: Action)
    ensures Appends(db, Staged(db, j, status, completedAt, action), j, [action], [StageDone(action)])
  {
    forall i ensures TrailOf(db.audit + [AuditRow(j, action)], i) == TrailOf(db.audit, i) + if i == j then [action] else [] {
      TrailSnoc(db.audit, AuditRow(j, action), i);
    }
    forall i
      ensures NoticesOf(db.outbox + [OutboxRow(j, StageDone(action))], i)
           == NoticesOf(db.outbox, i) + if i == j then [StageDone(action)] else []
    {
      NoticesSnoc(db.outbox, OutboxRow(j, StageDone(action)), i);
    }
  }

  lemma {:induction false} NoticeAppends(db: Db, j: JobId, notice: Notice)
    ensures Appends(db, WithNotice(db, j, notice), j, [], [notice])
  {
    forall i ensures NoticesOf(db.outbox + [OutboxRow(j, notice)], i)
                  == NoticesOf(db.outbox, i) + if i == j then [notice] else []
    {
      NoticesSnoc(db.outbox, OutboxRow(j, notice), i);
    }
  }

  lemma {:induction false} AuditAppends(db: Db, j: JobId, action: Action)
    ensures Appends(db, WithAudit(db, j, action), j, [action], [])
  {
    forall i ensures TrailOf(db.audit + [AuditRow(j, action)], i) == TrailOf(db.audit, i) + if i == j then [action] else [] {
      TrailSnoc(db.audit, AuditRow(j, action), i);
    }
  }

  lemma {:induction false} AppendsTwice(a: Db, b: Db, c: Db, j: JobId, actions: seq<Action>, notices: seq<Notice>,
                                        more: seq<Notice>)
    requires Appends(a, b, j, actions, notices) && Appends(b, c, j, [], more)
    ensures Appends(a, c, j, actions, notices + more)
  {
    forall i ensures NoticesOf(c.outbox, i) == NoticesOf(a.outbox, i) + if i == j then notices + more else [] {
      assert NoticesOf(c.outbox, i) == NoticesOf(b.outbox, i) + if i == j then more else [];
    }
  }

  /** A step that changes only what is kept about `j` in every table. */
  ghost predicate Local(s: Sys, s': Sys, j: JobId) {
    && j in s.db.jobs && j in s'.db.jobs && j in s'.chains && j in s'.history
    && s'.stages == s.stages && s'.now == s.now && s'.age == s.age && s'.sweeps == s.sweeps && s'.blobs == s.blobs
    && s'.started == s.started && s'.db.byHash == s.db.byHash
    && s'.db.jobs == s.db.jobs[j := s'.db.jobs[j]]
    && s'.chains == s.chains[j := s'.chains[j]]
    && s'.history == s.history[j := s'.history[j]]
    && (if j in s'.db.outputs then s'.db.outputs == s.db.outputs[j := s'.db.outputs[j]]
        else s'.db.outputs == s.db.outputs)
    && (if j in s'.db.votes then s'.db.votes == s.db.votes[j := s'.db.votes[j]]
        else s'.db.votes == s.db.votes)
    && (forall r :: r in s'.db.outbox ==> r in s.db.outbox || r.job == j)
    && (forall r :: r in s'.db.audit ==> r in s.db.audit || r.job == j)
  }

  lemma {:induction false} LocalTables(s: Sys, s': Sys, j: JobId)
    requires TablesOk(s) && Local(s, s', j)
    ensures TablesOk(s')
  {
  }

  lemma {:induction false} LocalAlike(s: Sys, s': Sys, j: JobId, i: JobId, actions: seq<Action>, notices: seq<Notice>)
    requires TablesOk(s) && TablesOk(s') && Local(s, s', j) && Appends(s.db, s'.db, j, actions, notices)
    requires i in s.db.jobs && i != j
    ensures Alike(s, s', i)
  {
    var v, v' := ViewOf(s, i), ViewOf(s', i);
    assert v'.trail == v.trail && v'.notices == v.notices;
    assert v'.row == v.row && v'.chain == v.chain && v'.past == v.past;
    assert v'.output == v.output;
    assert v'.votes == v.votes;
  }

  lemma {:induction false} LocalOnly(s: Sys, s': Sys, j: JobId, actions: seq<Action>, notices: seq<Notice>)
    requires TablesOk(s) && Local(s, s', j) && Appends(s.db, s'.db, j, actions, notices)
    requires s'.db.jobs[j].hash == s.db.jobs[j].hash
    requires s.db.jobs[j].status == Completed ==>
               s'.db.jobs[j] == s.db.jobs[j] && HistoryOf(s', j).final == HistoryOf(s, j).final
    ensures Only(s, s', j)
    ensures ViewOf(s', j).trail == ViewOf(s, j).trail + actions
    ensures ViewOf(s', j).notices == ViewOf(s, j).notices + notices
  {
    LocalTables(s, s', j);
    forall i | i in s.db.jobs && i != j ensures Alike(s, s', i) {
      LocalAlike(s, s', j, i, actions, notices);
    }
  }

  // ---------------------------------------------------------------- one job, one step

  lemma {:induction false} StageNotices(v: View, v': View, action: Action)
    requires NoticesOk(v) && v.row.status != Completed && v'.row.status != Completed && v.trail != []
    requires v'.trail == v.trail + [action] && v'.notices == v.notices + [StageDone(action)]
    ensures NoticesOk(v')
  {
    CountsSnoc(v.notices, StageDone(action));
  }

  lemma {:induction false} ReachSnoc(trail: seq<Action>, action: Action)
    requires Reach(trail) == |trail|
    ensures Reach(trail + [action]) == if action.Failure() then |trail| else |trail| + 1
  {
  }

  /** A job that has not ended has a trail of successes only. */
  lemma {:induction false} OpenTrail(status: Status, trail: seq<Action>)
    requires TrailOk(status, trail) && status != Failed
    ensures Reach(trail) == |trail| && trail == FULL[..|trail|]
  {
  }

  lemma {:induction false} NextTrail(status: Status, trail: seq<Action>, action: Action, status': Status)
    requires TrailOk(status, trail) && status != Failed && status != Completed
    requires (action == FULL[|trail|] && status' == StatusAt(|trail| + 1))
             || (status' == Failed && [action] == Closing(|trail|))
    ensures TrailOk(status', trail + [action])
    ensures Reach(trail) == |trail|
    ensures Reach(trail + [action]) == if status' == Failed then |trail| else |trail| + 1
  {
    OpenTrail(status, trail);
    ReachSnoc(trail, action);
  }

  lemma {:induction false} RejectJob(v: View, stamp: Time)
    requires JobOk(v) && v.chain == Working(Classify) && stamp <= v.now
    ensures JobOk(v.(chain := Over, row := v.row.(status := Failed, completedAt := Some(stamp))))
  {
  }

  lemma {:induction false} ClassifyJob(v: View)
    requires JobOk(v) && v.chain == Working(Classify)
    ensures JobOk(v.(chain := Committed(Classify), row := v.row.(status := Extracting), trail := v.trail + [Classified]))
  {
    NextTrail(v.row.status, v.trail, Classified, Extracting);
  }

  /** Before extraction a job has one audit row and nothing stored. */
  lemma {:induction false} BeforeExtract(v: View)
    requires JobOk(v) && v.chain == Working(Extract)
    ensures v.row.status == Extracting && v.trail == [Classified] && v.past == NOTHING_YET
    ensures v.output.None? && v.blob.None? && v.votes == map[] && v.row.completedAt.None?
  {
    OpenTrail(v.row.status, v.trail);
  }

  lemma {:induction false} ExtractJob(v: View, payload: Ratesheet)
    requires JobOk(v) && v.chain == Working(Extract)
    ensures v.past.normalized.None?
    ensures JobOk(v.(chain := Committed(Extract), row := v.row.(status := Normalizing),
                     past := v.past.(extracted := Some(payload)), output := Some(RowFor(payload)),
                     trail := v.trail + [Extracted], notices := v.notices + [StageDone(Extracted)]))
  {
    BeforeExtract(v);
    NextTrail(v.row.status, v.trail, Extracted, Normalizing);
    StageNotices(v, v.(row := v.row.(status := Normalizing), trail := v.trail + [Extracted],
                       notices := v.notices + [StageDone(Extracted)]), Extracted);
  }

  lemma {:induction false} NormalizeJob(v: View, payload: Ratesheet, results: seq<ConsensusResult>)
    requires JobOk(v) && v.chain.Reading? && v.chain.task == Normalize
    ensures v.votes == map[] && v.row.status == Normalizing
    ensures v.past.extracted == Some(v.chain.sheet) && v.past.final.None?
    ensures JobOk(v.(chain := Committed(Normalize), row := v.row.(status := Validating),
                     past := v.past.(normalized := Some(payload), results := results),
                     votes := Normalizer.Snapshots(results), output := Some(RowFor(payload)),
                     trail := v.trail + [Normalized], notices := v.notices + [StageDone(Normalized)]))
  {
    NextTrail(v.row.status, v.trail, Normalized, Validating);
    StageNotices(v, v.(row := v.row.(status := Validating), trail := v.trail + [Normalized],
                       notices := v.notices + [StageDone(Normalized)]), Normalized);
  }

  /** The three notices of a completion, at the end of a job's list. */
  function WithFinal(notices: seq<Notice>, channel: string): seq<Notice> {
    notices + [StageDone(Validated), SlackPost(channel), UploadResult]
  }

  lemma {:induction false} FinalCounts(notices: seq<Notice>, channel: string)
    ensures StagesOf(WithFinal(notices, channel)) == StagesOf(notices) + [Validated]
    ensures Posts(WithFinal(notices, channel)) == Posts(notices) + 1
    ensures Uploads(WithFinal(notices, channel)) == Uploads(notices) + 1
  {
    var one := notices + [StageDone(Validated)];
    var two := one + [SlackPost(channel)];
    CountsSnoc(notices, StageDone(Validated));
    CountsSnoc(one, SlackPost(channel));
    CountsSnoc(two, UploadResult);
    assert WithFinal(notices, channel) == two + [UploadResult];
  }

  lemma {:induction false} FinalAnnounced(notices: seq<Notice>, channel: string)
    requires Announced(notices, channel)
    requires forall n :: n in notices && n.SlackPost? ==> Announced(notices, n.channel)
    ensures forall n :: n in WithFinal(notices, channel) && n.SlackPost? ==> Announced(WithFinal(notices, channel), n.channel)
  {
    forall n | n in WithFinal(notices, channel) && n.SlackPost? ensures Announced(WithFinal(notices, channel), n.channel) {
      assert n in notices || n == SlackPost(channel);
      assert Announced(notices, n.channel);
    }
  }

  lemma {:induction false} FinalNotices(v: View, v': View, channel: string)
    requires NoticesOk(v) && v.row.status != Completed && v'.row.status == Completed && v.trail != []
    requires Announced(v.notices, channel) && v'.trail == v.trail + [Validated]
    requires v'.notices == WithFinal(v.notices, channel)
    ensures NoticesOk(v')
  {
    FinalCounts(v.notices, channel);
    FinalAnnounced(v.notices, channel);
  }

  lemma {:induction false} ValidateJob(v: View, payload: Ratesheet, stamp: Time)
    requires JobOk(v) && v.chain.Scoring? && stamp <= v.now
    ensures v.row.status == Validating && v.past.normalized == Some(v.chain.sheet)
    ensures v.chain.table == Normalizer.Snapshots(v.past.results)
    ensures JobOk(v.(chain := Committed(Validate), row := v.row.(status := Completed, completedAt := Some(stamp)),
                     past := v.past.(final := Some(payload)), output := Some(RowFor(payload)),
                     trail := v.trail + [Validated],
                     notices := v.notices + [StageDone(Validated), SlackPost(v.chain.channel), UploadResult]))
  {
    NextTrail(v.row.status, v.trail, Validated, Completed);
    FinalNotices(v, v.(row := v.row.(status := Completed), trail := v.trail + [Validated],
                       notices := v.notices + [StageDone(Validated), SlackPost(v.chain.channel), UploadResult]),
                 v.chain.channel);
  }

  lemma {:induction false} FailJob(v: View, action: Action, stamp: Time)
    requires JobOk(v) && v.chain.Failing? && FailureOf(v.chain.task) == Some(action) && stamp <= v.now
    ensures v.row.status != Completed
    ensures JobOk(v.(chain := Over, row := v.row.(status := Failed, completedAt := Some(stamp)),
                     trail := v.trail + [action], notices := v.notices + [StageDone(action)]))
  {
    NextTrail(v.row.status, v.trail, action, Failed);
    StageNotices(v, v.(row := v.row.(status := Failed), trail := v.trail + [action],
                       notices := v.notices + [StageDone(action)]), action);
  }

  lemma {:induction false} NoteJob(v: View, notice: Notice)
    requires JobOk(v) && (notice.OperatorNote? || notice.IngressReceived?)
    ensures JobOk(v.(notices := v.notices + [notice]))
  {
    var v' := v.(notices := v.notices + [notice]);
    assert NoticesOk(v') by { NoteNotices(v, notice); }
    assert ChainOk(v') by { NoteChain(v, notice); }
  }

  lemma {:induction false} NoteNotices(v: View, notice: Notice)
    requires NoticesOk(v) && (notice.OperatorNote? || notice.IngressReceived?)
    ensures NoticesOk(v.(notices := v.notices + [notice]))
  {
    CountsSnoc(v.notices, notice);
  }

  lemma {:induction false} NoteChain(v: View, notice: Notice)
    requires ChainOk(v)
    ensures ChainOk(v.(notices := v.notices + [notice]))
  {
  }

  lemma {:induction false} MoveJob(v: View, chain: Chain)
    requires JobOk(v) && ChainOk(v.(chain := chain))
    ensures JobOk(v.(chain := chain))
  {
  }

  /** An object of the finished payload appears in the archive bucket, or the output row goes. */
  lemma {:induction false} ArchiveJob(v: View, payload: Ratesheet)
    requires JobOk(v) && v.row.status == Completed && v.past.final == Some(payload)
    ensures JobOk(v.(blob := Some(payload)))
    ensures v.blob.Some? && v.row.completedAt.value + v.age < v.now ==> JobOk(v.(output := None))
  {
  }

  lemma {:induction false} LaterJob(v: View, now: Time)
    requires JobOk(v) && v.now <= now
    ensures JobOk(v.(now := now))
  {
  }

  // ---------------------------------------------------------------- steps of one chain

  /** A step of one chain, with its job's new view known to be fine. */
  lemma {:induction false} ChainStep(s: Sys, s': Sys, j: JobId, actions: seq<Action>, notices: seq<Notice>)
    requires Inv(s) && Local(s, s', j) && Appends(s.db, s'.db, j, actions, notices)
    requires s'.db.jobs[j].hash == s.db.jobs[j].hash
    requires s.db.jobs[j].status == Completed ==>
               s'.db.jobs[j] == s.db.jobs[j] && HistoryOf(s', j).final == HistoryOf(s, j).final
    requires s'.chains[j] == Received ==> s.chains[j] == Received
    requires JobOk(ViewOf(s', j)) && Derived(HistoryOf(s', j), s.stages)
    ensures Inv(s')
  {
    LocalOnly(s, s', j, actions, notices);
    OnlyKeepsInv(s, s', j);
  }

  lemma {:induction false} JobsAreOk(s: Sys, j: JobId)
    requires Inv(s) && j in s.db.jobs
    ensures j in s.chains && JobOk(ViewOf(s, j)) && Derived(HistoryOf(s, j), s.stages)
  {
    assert AllJobs(s, JobOk);
    assert Derived(s.history[j], s.stages);
  }

  lemma {:induction false} RejectView(s: Sys, e: Event)
    requires TablesOk(s) && e.RejectFormat? && Enabled(s, e)
    ensures var s', j := Apply(s, e), e.job;
            && Local(s, s', j) && Appends(s.db, s'.db, j, [], [])
            && ViewOf(s', j) == var v := ViewOf(s, j);
                 v.(chain := Over, row := v.row.(status := Failed, completedAt := Some(e.stamp)))
  {
  }

  lemma {:induction false} RejectInv(s: Sys, e: Event)
    requires Inv(s) && e.RejectFormat? && Enabled(s, e)
    ensures Inv(Apply(s, e))
  {
    JobsAreOk(s, e.job);
    RejectView(s, e);
    RejectJob(ViewOf(s, e.job), e.stamp);
    ChainStep(s, Apply(s, e), e.job, [], []);
  }

  lemma {:induction false} ClassifyView(s: Sys, e: Event)
    requires TablesOk(s) && e.CommitClassify? && Enabled(s, e)
    ensures var s', j := Apply(s, e), e.job;
            && Local(s, s', j) && Appends(s.db, s'.db, j, [Classified], [])
            && ViewOf(s', j) == var v := ViewOf(s, j);
                 v.(chain := Committed(Classify), row := v.row.(status := Extracting), trail := v.trail + [Classified])
  {
    AuditAppends(s.db, e.job, Classified);
  }

  lemma {:induction false} ClassifyInv(s: Sys, e: Event)
    requires Inv(s) && e.CommitClassify? && Enabled(s, e)
    ensures Inv(Apply(s, e))
  {
    JobsAreOk(s, e.job);
    ClassifyView(s, e);
    ClassifyJob(ViewOf(s, e.job));
    ChainStep(s, Apply(s, e), e.job, [Classified], []);
  }

  lemma {:induction false} ExtractView(s: Sys, e: Event)
    requires TablesOk(s) && e.CommitExtract? && Enabled(s, e)
    ensures var s', j := Apply(s, e), e.job;
            && Local(s, s', j) && Appends(s.db, s'.db, j, [Extracted], [StageDone(Extracted)])
            && ViewOf(s', j) == var v := ViewOf(s, j);
                 v.(chain := Committed(Extract), row := v.row.(status := Normalizing),
                    past := v.past.(extracted := Some(e.payload)), output := Some(RowFor(e.payload)),
                    trail := v.trail + [Extracted], notices := v.notices + [StageDone(Extracted)])
  {
    StagedAppends(WithOutput(s.db, e.job, e.payload), e.job, Normalizing, None, Extracted);
  }

  lemma {:induction false} ExtractInv(s: Sys, e: Event)
    requires Inv(s) && e.CommitExtract? && Enabled(s, e)
    ensures Inv(Apply(s, e))
  {
    JobsAreOk(s, e.job);
    ExtractView(s, e);
    ExtractJob(ViewOf(s, e.job), e.payload);
    ChainStep(s, Apply(s, e), e.job, [Extracted], [StageDone(Extracted)]);
  }

  lemma {:induction false} NormalizeView(s: Sys, e: Event)
    requires TablesOk(s) && e.CommitNormalize? && Enabled(s, e) && VotesOf(s.db, e.job) == map[]
    ensures var s', j := Apply(s, e), e.job;
            && Local(s, s', j) && Appends(s.db, s'.db, j, [Normalized], [StageDone(Normalized)])
            && ViewOf(s', j) == var v := ViewOf(s, j);
                 v.(chain := Committed(Normalize), row := v.row.(status := Validating),
                    past := v.past.(normalized := Some(e.payload), results := e.results),
                    votes := Normalizer.Snapshots(e.results), output := Some(RowFor(e.payload)),
                    trail := v.trail + [Normalized], notices := v.notices + [StageDone(Normalized)])
  {
    var snapshots := Normalizer.Snapshots(e.results);
    assert map[] + snapshots == snapshots;
    var stored := WithOutput(s.db, e.job, e.payload);
    StagedAppends(stored.(votes := stored.votes[e.job := VotesOf(s.db, e.job) + snapshots]), e.job, Validating, None,
                  Normalized);
  }

  lemma {:induction false} NormalizeDerived(s: Sys, e: Event)
    requires TablesOk(s) && e.CommitNormalize? && Enabled(s, e)
    requires var v := ViewOf(s, e.job); v.past.extracted == Some(v.chain.sheet) && v.past.final.None?
    requires Derived(HistoryOf(s, e.job), s.stages)
    ensures Derived(HistoryOf(Apply(s, e), e.job), s.stages)
  {
  }

  lemma {:induction false} NormalizeInv(s: Sys, e: Event)
    requires Inv(s) && e.CommitNormalize? && Enabled(s, e)
    ensures Inv(Apply(s, e))
  {
    JobsAreOk(s, e.job);
    NormalizeJob(ViewOf(s, e.job), e.payload, e.results);
    NormalizeView(s, e);
    NormalizeDerived(s, e);
    ChainStep(s, Apply(s, e), e.job, [Normalized], [StageDone(Normalized)]);
  }

  lemma {:induction false} ValidateAppends(db: Db, j: JobId, payload: Ratesheet, channel: string, stamp: Time)
    requires j in db.jobs
    ensures Appends(db, ValidateTx(db, j, payload, channel, stamp).value, j,
                    [Validated], [StageDone(Validated), SlackPost(channel), UploadResult])
  {
    var stored := WithOutput(db, j, payload);
    var staged := Staged(stored, j, Completed, Some(stamp), Validated);
    StagedAppends(stored, j, Completed, Some(stamp), Validated);
    var posted := WithNotice(staged, j, SlackPost(channel));
    NoticeAppends(staged, j, SlackPost(channel));
    NoticeAppends(posted, j, UploadResult);
    AppendsTwice(stored, staged, posted, j, [Validated], [StageDone(Validated)], [SlackPost(channel)]);
    AppendsTwice(stored, posted, WithNotice(posted, j, UploadResult), j, [Validated],
                 [StageDone(Validated)] + [SlackPost(channel)], [UploadResult]);
    assert [StageDone(Validated)] + [SlackPost(channel)] + [UploadResult]
        == [StageDone(Validated), SlackPost(channel), UploadResult];
  }

  lemma {:induction false} ValidateView(s: Sys, e: Event)
    requires TablesOk(s) && e.CommitValidate? && Enabled(s, e)
    ensures var s', j := Apply(s, e), e.job;
            var v := ViewOf(s, j);
            var sent := [StageDone(Validated), SlackPost(v.chain.channel), UploadResult];
            && Local(s, s', j) && Appends(s.db, s'.db, j, [Validated], sent)
            && ViewOf(s', j) ==
                 v.(chain := Committed(Validate), row := v.row.(status := Completed, completedAt := Some(e.stamp)),
                    past := v.past.(final := Some(e.payload)), output := Some(RowFor(e.payload)),
                    trail := v.trail + [Validated], notices := v.notices + sent)
  {
    ValidateAppends(s.db, e.job, e.payload, s.chains[e.job].channel, e.stamp);
    ValidateLocal(s, e);
  }

  lemma {:induction false} ValidateLocal(s: Sys, e: Event)
    requires TablesOk(s) && e.CommitValidate? && Enabled(s, e)
    ensures Local(s, Apply(s, e), e.job)
  {
  }

  lemma {:induction false} ValidateDerived(s: Sys, e: Event)
    requires TablesOk(s) && e.CommitValidate? && Enabled(s, e)
    requires var v := ViewOf(s, e.job);
             v.past.normalized == Some(v.chain.sheet) && v.chain.table == Normalizer.Snapshots(v.past.results)
    requires Derived(HistoryOf(s, e.job), s.stages)
    ensures Derived(HistoryOf(Apply(s, e), e.job), s.stages)
  {
  }

  lemma {:induction false} ValidateInv(s: Sys, e: Event)
    requires Inv(s) && e.CommitValidate? && Enabled(s, e)
    ensures Inv(Apply(s, e))
  {
    JobsAreOk(s, e.job);
    ValidateView(s, e);
    var v := ViewOf(s, e.job);
    ValidateJob(v, e.payload, e.stamp);
    ValidateDerived(s, e);
    ChainStep(s, Apply(s, e), e.job, [Validated], [StageDone(Validated), SlackPost(v.chain.channel), UploadResult]);
  }

  lemma {:induction false} FailView(s: Sys, e: Event, action: Action)
    requires TablesOk(s) && e.RecordFailure? && Enabled(s, e) && FailureOf(s.chains[e.job].task) == Some(action)
    ensures var s', j := Apply(s, e), e.job;
            && Local(s, s', j) && Appends(s.db, s'.db, j, [action], [StageDone(action)])
            && ViewOf(s', j) == var v := ViewOf(s, j);
                 v.(chain := Over, row := v.row.(status := Failed, completedAt := Some(e.stamp)),
                    trail := v.trail + [action], notices := v.notices + [StageDone(action)])
  {
    StagedAppends(s.db, e.job, Failed, Some(e.stamp), action);
  }

  lemma {:induction false} FailInv(s: Sys, e: Event)
    requires Inv(s) && e.RecordFailure? && Enabled(s, e)
    ensures Inv(Apply(s, e))
  {
    JobsAreOk(s, e.job);
    var action, s' := FailStep(s, e);
    ChainStep(s, s', e.job, [action], [StageDone(action)]);
  }

  lemma {:induction false} FailStep(s: Sys, e: Event) returns (action: Action, s': Sys)
    requires TablesOk(s) && e.RecordFailure? && Enabled(s, e)
    requires JobOk(ViewOf(s, e.job)) && Derived(HistoryOf(s, e.job), s.stages)
    ensures s' == Apply(s, e) && Local(s, s', e.job) && Appends(s.db, s'.db, e.job, [action], [StageDone(action)])
    ensures s.db.jobs[e.job].status != Completed && s'.db.jobs[e.job].hash == s.db.jobs[e.job].hash
    ensures s'.chains[e.job] == Over && JobOk(ViewOf(s', e.job)) && Derived(HistoryOf(s', e.job), s.stages)
  {
    action, s' := FailureOf(s.chains[e.job].task).value, Apply(s, e);
    FailView(s, e, action);
    FailJob(ViewOf(s, e.job), action, e.stamp);
    assert ViewOf(s', e.job).row.hash == ViewOf(s, e.job).row.hash;
    assert ViewOf(s', e.job).past == ViewOf(s, e.job).past;
  }

  lemma {:induction false} NoteView(s: Sys, s': Sys, j: JobId, notice: Notice)
    requires TablesOk(s) && j in s.db.jobs && s' == s.(db := WithNotice(s.db, j, notice))
    ensures Local(s, s', j) && Appends(s.db, s'.db, j, [], [notice])
    ensures ViewOf(s', j) == ViewOf(s, j).(notices := ViewOf(s, j).notices + [notice])
  {
    NoticeAppends(s.db, j, notice);
  }

  /** A notice that is neither a stage report nor a delivery. */
  lemma {:induction false} NoteInv(s: Sys, s': Sys, j: JobId, notice: Notice)
    requires Inv(s) && j in s.db.jobs && (notice.OperatorNote? || notice.IngressReceived?)
    requires s' == s.(db := WithNotice(s.db, j, notice))
    ensures Inv(s')
  {
    JobsAreOk(s, j);
    NoteView(s, s', j, notice);
    NoteJob(ViewOf(s, j), notice);
    ChainStep(s, s', j, [], [notice]);
  }

  lemma {:induction false} MoveView(s: Sys, j: JobId, chain: Chain)
    requires TablesOk(s) && j in s.db.jobs
    ensures var s' := Moved(s, j, chain);
            && Local(s, s', j) && Appends(s.db, s'.db, j, [], [])
            && ViewOf(s', j) == ViewOf(s, j).(chain := chain)
  {
  }

  /** The chain moves without touching a table. */
  lemma {:induction false} MoveInv(s: Sys, j: JobId, chain: Chain)
    requires Inv(s) && j in s.db.jobs && chain != Received && ChainOk(ViewOf(s, j).(chain := chain))
    ensures Inv(Moved(s, j, chain))
  {
    JobsAreOk(s, j);
    MoveView(s, j, chain);
    MoveJob(ViewOf(s, j), chain);
    ChainStep(s, Moved(s, j, chain), j, [], []);
  }

  /** What a body reads is what the stage before it stored. */
  lemma {:induction false} ReadChain(v: View)
    requires JobOk(v) && (v.chain == Working(Normalize) || v.chain == Working(Validate)) && v.output.Some?
    ensures ChainOk(v.(chain := Reading(v.chain.task, v.output.value.payload)))
  {
    OpenTrail(v.row.status, v.trail);
  }

  lemma {:induction false} CatchChain(v: View, task: Task)
    requires JobOk(v) && FailureOf(task).Some? && Busy(v.chain, task)
    ensures TaskOf(v.chain) == task && ChainOk(v.(chain := Failing(task)))
  {
  }

  lemma {:induction false} CaughtChain(v: View)
    requires JobOk(v) && exists task :: FailureOf(task).Some? && Busy(v.chain, task)
    ensures ChainOk(v.(chain := Failing(TaskOf(v.chain))))
  {
    var task :| FailureOf(task).Some? && Busy(v.chain, task);
    CatchChain(v, task);
  }

  lemma {:induction false} ReturnChain(v: View)
    requires JobOk(v) && v.chain.Committed?
    ensures ChainOk(v.(chain := if Next(v.chain.task).Some? then Queued(Next(v.chain.task).value) else Over))
  {
  }

  lemma {:induction false} RecoverChain(v: View, channel: string)
    requires JobOk(v) && v.chain.Reading? && v.chain.task == Validate && Announced(v.notices, channel)
    ensures ChainOk(v.(chain := Posting(v.chain.sheet, channel)))
  {
  }

  lemma {:induction false} VotesChain(v: View)
    requires JobOk(v) && v.chain.Posting?
    ensures ChainOk(v.(chain := Scoring(v.chain.sheet, v.chain.channel, v.votes)))
  {
  }

  predicate Quiet(e: Event) {
    e.Deliver? || e.ReadOutput? || e.RecoverChannel? || e.LoadVotes? || e.Catch? || e.Return? || e.Die?
  }

  /** The enabling condition of a quiet event, in terms of its job. */
  ghost predicate QuietReady(v: View, e: Event) {
    match e
    case Deliver(_) => v.chain.Queued?
    case ReadOutput(_) => (v.chain == Working(Normalize) || v.chain == Working(Validate)) && v.output.Some?
    case RecoverChannel(_, channel) => v.chain.Reading? && v.chain.task == Validate && Announced(v.notices, channel)
    case LoadVotes(_) => v.chain.Posting?
    case Catch(_) => exists task :: FailureOf(task).Some? && Busy(v.chain, task)
    case Return(_) => v.chain.Committed?
    case Die(_) => true
    case _ => false
  }

  /** Where a quiet event takes its chain. */
  ghost function QuietNext(v: View, e: Event): Chain
    requires QuietReady(v, e)
  {
    match e
    case Deliver(_) => Working(v.chain.task)
    case ReadOutput(_) => Reading(v.chain.task, v.output.value.payload)
    case RecoverChannel(_, channel) => Posting(v.chain.sheet, channel)
    case LoadVotes(_) => Scoring(v.chain.sheet, v.chain.channel, v.votes)
    case Catch(_) => Failing(TaskOf(v.chain))
    case Return(_) => if Next(v.chain.task).Some? then Queued(Next(v.chain.task).value) else Over
    case _ => Over
  }

  lemma {:induction false} QuietIsReady(s: Sys, e: Event)
    requires TablesOk(s) && Quiet(e) && Enabled(s, e)
    ensures e.job in s.db.jobs && QuietReady(ViewOf(s, e.job), e)
  {
    if e.RecoverChannel? {
      SentIsNoticed(s.db.outbox, e.job, IngressReceived(e.channel));
    }
  }

  lemma {:induction false} QuietMove(s: Sys, e: Event)
    requires TablesOk(s) && Quiet(e) && Enabled(s, e) && e.job in s.db.jobs && QuietReady(ViewOf(s, e.job), e)
    ensures Apply(s, e) == Moved(s, e.job, QuietNext(ViewOf(s, e.job), e))
  {
  }

  lemma {:induction false} QuietChain(v: View, e: Event)
    requires JobOk(v) && QuietReady(v, e)
    ensures QuietNext(v, e) != Received && ChainOk(v.(chain := QuietNext(v, e)))
  {
    match e
    case ReadOutput(_) => ReadChain(v);
    case RecoverChannel(_, channel) => RecoverChain(v, channel);
    case LoadVotes(_) => VotesChain(v);
    case Catch(_) => CaughtChain(v);
    case Return(_) => ReturnChain(v);
    case _ =>
  }

  lemma {:induction false} QuietStep(s: Sys, e: Event) returns (chain: Chain)
    requires TablesOk(s) && Quiet(e) && Enabled(s, e) && e.job in s.db.jobs && JobOk(ViewOf(s, e.job))
    ensures Apply(s, e) == Moved(s, e.job, chain) && chain != Received && ChainOk(ViewOf(s, e.job).(chain := chain))
  {
    QuietIsReady(s, e);
    QuietMove(s, e);
    QuietChain(ViewOf(s, e.job), e);
    chain := QuietNext(ViewOf(s, e.job), e);
  }

  lemma {:induction false} QuietJob(s: Sys, e: Event)
    requires Quiet(e) && Enabled(s, e)
    ensures e.job in s.db.jobs
  {
  }

  lemma {:induction false} QuietInv(s: Sys, e: Event)
    requires Inv(s) && Quiet(e) && Enabled(s, e)
    ensures Inv(Apply(s, e))
  {
    QuietJob(s, e);
    JobsAreOk(s, e.job);
    var chain := QuietStep(s, e);
    MoveInv(s, e.job, chain);
  }

  lemma {:induction false} StartedOnce(s: Sys, s': Sys, j: JobId)
    requires StartedOk(s) && j !in s.started && j in s.chains && s.chains[j] != Received
    requires s'.chains == s.chains && s'.started == s.started + [j]
    ensures StartedOk(s')
  {
  }

  lemma {:induction false} StartedBefore(s: Sys, j: JobId)
    requires StartedOk(s) && Enabled(s, StartChain(j))
    ensures j !in s.started
  {
  }

  lemma {:induction false} StartChainOk(v: View)
    requires JobOk(v) && v.chain == Received
    ensures ChainOk(v.(chain := Queued(Classify)))
  {
  }

  lemma {:induction false} StartedFrame(s: Sys, s': Sys, j: JobId)
    requires Inv(s) && j !in s.started && j in s.chains && s.chains[j] != Received
    requires s' == s.(started := s.started + [j])
    ensures Inv(s')
  {
    StartedOnce(s, s', j);
    SameJobs(s, s', JobOk);
    StartedSweeps(s, s');
  }

  lemma {:induction false} StartedSweeps(s: Sys, s': Sys)
    requires SweepsOk(s) && s' == s.(started := s'.started)
    ensures SweepsOk(s')
  {
    assert forall c :: CandidateOk(s, c) ==> CandidateOk(s', c);
    SameCandidates(s, s');
  }

  /** The request hands its job to the broker, once. */
  lemma {:induction false} StartInv(s: Sys, e: Event)
    requires Inv(s) && e.StartChain? && Enabled(s, e)
    ensures Inv(Apply(s, e))
  {
    var moved := Moved(s, e.job, Queued(Classify));
    JobsAreOk(s, e.job);
    StartedBefore(s, e.job);
    StartChainOk(ViewOf(s, e.job));
    MoveInv(s, e.job, Queued(Classify));
    StartedFrame(moved, Apply(s, e), e.job);
  }

  // ---------------------------------------------------------------- intake

  lemma {:induction false} NewJobView(s: Sys, e: Event)
    requires TablesOk(s) && e.Submit? && Enabled(s, e) && e.hash !in s.db.byHash && e.newId !in s.db.jobs
    ensures var s' := Apply(s, e);
            ViewOf(s', e.newId) == View(JobRow(e.hash, Pending, None), Received, NOTHING_YET, None, map[], None, [],
                                        [IngressReceived(e.channel)], s.now, s.age)
  {
    NewJobRows(s, e.newId, IngressReceived(e.channel));
    var v := ViewOf(Apply(s, e), e.newId);
    assert v.output.None? && v.blob.None? && v.votes == map[];
    assert v.row == JobRow(e.hash, Pending, None) && v.chain == Received && v.past == NOTHING_YET;
  }

  lemma {:induction false} NewJobRows(s: Sys, j: JobId, notice: Notice)
    requires TablesOk(s) && j !in s.db.jobs
    ensures TrailOf(s.db.audit, j) == []
    ensures NoticesOf(s.db.outbox + [OutboxRow(j, notice)], j) == [notice]
  {
    NoRowsNoTrail(s.db.audit, j);
    NoRowsNoNotices(s.db.outbox, j);
    NoticesSnoc(s.db.outbox, OutboxRow(j, notice), j);
  }

  lemma {:induction false} NewJobAlike(s: Sys, e: Event, i: JobId)
    requires TablesOk(s) && e.Submit? && Enabled(s, e) && e.hash !in s.db.byHash && e.newId !in s.db.jobs
    requires i in s.db.jobs
    ensures i in Apply(s, e).db.jobs && i in Apply(s, e).chains && ViewOf(Apply(s, e), i) == ViewOf(s, i)
  {
    NoticesSnoc(s.db.outbox, OutboxRow(e.newId, IngressReceived(e.channel)), i);
  }

  lemma {:induction false} NewJobOk(hash: Hash, channel: string, now: Time, age: nat)
    ensures JobOk(View(JobRow(hash, Pending, None), Received, NOTHING_YET, None, map[], None, [],
                       [IngressReceived(channel)], now, age))
  {
    CountsSnoc([], IngressReceived(channel));
    assert [] + [IngressReceived(channel)] == [IngressReceived(channel)];
  }

  lemma {:induction false} NewJobSweeps(s: Sys, e: Event)
    requires TablesOk(s) && SweepsOk(s)
    requires e.Submit? && Enabled(s, e) && e.hash !in s.db.byHash && e.newId !in s.db.jobs
    ensures SweepsOk(Apply(s, e))
  {
    var s' := Apply(s, e);
    assert forall c :: CandidateOk(s, c) ==> CandidateOk(s', c);
    SameCandidates(s, s');
  }

  lemma {:induction false} NewJobIndex(s: Sys, e: Event)
    requires IndexOk(s.db)
    requires e.Submit? && Enabled(s, e) && e.hash !in s.db.byHash && e.newId !in s.db.jobs
    ensures IndexOk(Apply(s, e).db)
  {
  }

  lemma {:induction false} NewJobTables(s: Sys, e: Event)
    requires TablesOk(s)
    requires e.Submit? && Enabled(s, e) && e.hash !in s.db.byHash && e.newId !in s.db.jobs
    ensures TablesOk(Apply(s, e))
  {
  }

  lemma {:induction false} NewJobFrame(s: Sys, e: Event)
    requires TablesOk(s) && StartedOk(s) && AllDerived(s)
    requires e.Submit? && Enabled(s, e) && e.hash !in s.db.byHash && e.newId !in s.db.jobs
    ensures StartedOk(Apply(s, e)) && AllDerived(Apply(s, e))
  {
  }

  lemma {:induction false} NewJobJobs(s: Sys, e: Event, ok: View -> bool)
    requires TablesOk(s) && AllJobs(s, ok)
    requires e.Submit? && Enabled(s, e) && e.hash !in s.db.byHash && e.newId !in s.db.jobs
    requires e.newId in Apply(s, e).db.jobs && e.newId in Apply(s, e).chains
    requires ok(ViewOf(Apply(s, e), e.newId))
    ensures AllJobs(Apply(s, e), ok)
  {
    var s' := Apply(s, e);
    forall i | i in s'.db.jobs && i in s'.chains ensures ok(ViewOf(s', i)) {
      if i != e.newId {
        NewJobAlike(s, e, i);
      }
    }
  }

  lemma {:induction false} NewJobInv(s: Sys, e: Event)
    requires Inv(s) && e.Submit? && Enabled(s, e) && e.hash !in s.db.byHash && e.newId !in s.db.jobs
    ensures Inv(Apply(s, e))
  {
    NewJobTables(s, e);
    NewJobFrame(s, e);
    NewJobIndex(s, e);
    NewJobSweeps(s, e);
    NewJobView(s, e);
    NewJobOk(e.hash, e.channel, s.now, s.age);
    NewJobJobs(s, e, JobOk);
  }

  lemma {:induction false} SubmitInv(s: Sys, e: Event)
    requires Inv(s) && e.Submit? && Enabled(s, e)
    ensures Inv(Apply(s, e))
  {
    if e.hash in s.db.byHash {
      NoteInv(s, Apply(s, e), s.db.byHash[e.hash], IngressReceived(e.channel));
    } else if e.newId !in s.db.jobs {
      NewJobInv(s, e);
    }
  }

  // ---------------------------------------------------------------- archive and clock

  /** Candidates stay what they are, uploads stay uploaded. */
  lemma {:induction false} SameCandidates(s: Sys, s': Sys)
    requires SweepsOk(s) && s'.sweeps == s.sweeps && (forall j :: j in s.blobs ==> j in s'.blobs)
    requires forall c :: CandidateOk(s, c) ==> CandidateOk(s', c)
    ensures SweepsOk(s')
  {
    forall k | k in s'.sweeps ensures SweepOk(s', s'.sweeps[k]) {
      assert SweepOk(s, s.sweeps[k]);
    }
  }

  lemma {:induction false} SameJobs(s: Sys, s': Sys, ok: View -> bool)
    requires TablesOk(s) && AllJobs(s, ok) && s'.db == s.db && s'.chains == s.chains && s'.history == s.history
    requires s'.blobs == s.blobs && s'.now == s.now && s'.age == s.age
    ensures TablesOk(s') && AllJobs(s', ok)
  {
    forall j | j in s'.db.jobs && j in s'.chains ensures ok(ViewOf(s', j)) {
      assert ViewOf(s', j) == ViewOf(s, j);
    }
  }

  /** Steps of a sweep keep every table but the outputs and the bucket. */
  ghost predicate Archives(s: Sys, s': Sys, j: JobId) {
    && s'.stages == s.stages && s'.now == s.now && s'.age == s.age
    && s'.chains == s.chains && s'.started == s.started && s'.history == s.history
    && s'.db == s.db.(outputs := s'.db.outputs)
    && (s'.db.outputs == s.db.outputs || s'.db.outputs == s.db.outputs - {j})
    && (s'.blobs == s.blobs || (j in s'.blobs && s'.blobs == s.blobs[j := s'.blobs[j]]))
  }

  lemma {:induction false} ArchivesAlike(s: Sys, s': Sys, j: JobId, i: JobId)
    requires TablesOk(s) && Archives(s, s', j) && i in s.db.jobs && i != j
    ensures ViewOf(s', i) == ViewOf(s, i)
  {
    var v, v' := ViewOf(s, i), ViewOf(s', i);
    assert v'.output == v.output && v'.blob == v.blob && v'.votes == v.votes;
  }

  lemma {:induction false} ArchivesJobs(s: Sys, s': Sys, j: JobId, ok: View -> bool)
    requires TablesOk(s) && AllJobs(s, ok) && Archives(s, s', j) && j in s.db.jobs && ok(ViewOf(s', j))
    ensures AllJobs(s', ok)
  {
    forall i | i in s'.db.jobs && i in s'.chains ensures ok(ViewOf(s', i)) {
      if i != j {
        ArchivesAlike(s, s', j, i);
      }
    }
  }

  lemma {:induction false} ArchivesTables(s: Sys, s': Sys, j: JobId)
    requires TablesOk(s) && Archives(s, s', j) && j in s.db.jobs
    ensures TablesOk(s')
  {
  }

  lemma {:induction false} ArchivesInv(s: Sys, s': Sys, j: JobId)
    requires Inv(s) && Archives(s, s', j) && j in s.db.jobs && JobOk(ViewOf(s', j)) && SweepsOk(s')
    ensures Inv(s')
  {
    ArchivesTables(s, s', j);
    ArchivesJobs(s, s', j, JobOk);
  }

  /** The sweeps after a step of sweep `k` that uploads, or drops its first candidate. */
  lemma {:induction false} SweepsAfter(s: Sys, s': Sys, k: SweepId)
    requires SweepsOk(s) && k in s.sweeps && s.sweeps[k].todo != []
    requires forall c :: CandidateOk(s, c) ==> CandidateOk(s', c)
    requires forall j :: j in s.blobs ==> j in s'.blobs
    requires k in s'.sweeps && s'.sweeps == s.sweeps[k := s'.sweeps[k]]
    requires s'.sweeps[k] == Sweep(s.sweeps[k].todo[1..], false)
             || (s'.sweeps[k] == Sweep(s.sweeps[k].todo, true) && s.sweeps[k].todo[0].job in s'.blobs)
    ensures SweepsOk(s')
  {
    forall i | i in s'.sweeps ensures SweepOk(s', s'.sweeps[i]) {
      assert SweepOk(s, s.sweeps[i]);
      assert forall c :: c in s'.sweeps[i].todo ==> c in s.sweeps[i].todo;
    }
  }

  lemma {:induction false} SweepArchives(s: Sys, e: Event, c: Candidate)
    requires TablesOk(s) && Enabled(s, e) && (e.Upload? || e.UploadFail? || e.Delete?)
    requires c == s.sweeps[e.sweep].todo[0] && c.job in s.db.jobs
    ensures Archives(s, Apply(s, e), c.job)
  {
  }

  /** What a step of a sweep does to the job of its first candidate. */
  function Swept(v: View, e: Event, c: Candidate): View {
    if e.Delete? then v.(output := None)
    else if e.Upload? || (e.UploadFail? && e.stored) then v.(blob := Some(c.payload))
    else v
  }

  lemma {:induction false} SweepView(s: Sys, e: Event, c: Candidate)
    requires TablesOk(s) && Enabled(s, e) && (e.Upload? || e.UploadFail? || e.Delete?)
    requires c == s.sweeps[e.sweep].todo[0] && c.job in s.db.jobs
    ensures ViewOf(Apply(s, e), c.job) == Swept(ViewOf(s, c.job), e, c)
  {
    var v, v' := ViewOf(s, c.job), ViewOf(Apply(s, e), c.job);
    assert v'.row == v.row && v'.chain == v.chain && v'.past == v.past && v'.votes == v.votes;
    assert v'.output == (if e.Delete? then None else v.output);
  }

  /** The first candidate of an enabled step of a sweep. */
  lemma {:induction false} HeadCandidate(s: Sys, e: Event) returns (c: Candidate)
    requires SweepsOk(s) && Enabled(s, e) && (e.Upload? || e.UploadFail? || e.Delete?)
    ensures c == s.sweeps[e.sweep].todo[0] && CandidateOk(s, c)
    ensures e.Delete? ==> c.job in s.blobs
  {
    c := s.sweeps[e.sweep].todo[0];
    assert SweepOk(s, s.sweeps[e.sweep]);
  }

  lemma {:induction false} SweepStepSweeps(s: Sys, e: Event)
    requires SweepsOk(s) && Enabled(s, e) && (e.Upload? || e.UploadFail? || e.Delete?)
    ensures SweepsOk(Apply(s, e))
  {
    var s' := Apply(s, e);
    assert forall d :: CandidateOk(s, d) ==> CandidateOk(s', d);
    SweepsAfter(s, s', e.sweep);
  }

  lemma {:induction false} SweepStepJob(s: Sys, e: Event, c: Candidate)
    requires TablesOk(s) && Enabled(s, e) && (e.Upload? || e.UploadFail? || e.Delete?)
    requires c == s.sweeps[e.sweep].todo[0] && CandidateOk(s, c) && (e.Delete? ==> c.job in s.blobs)
    requires JobOk(ViewOf(s, c.job))
    ensures JobOk(ViewOf(Apply(s, e), c.job))
  {
    SweepView(s, e, c);
    ArchiveJob(ViewOf(s, c.job), c.payload);
  }

  lemma {:induction false} SweepStepTo(s: Sys, e: Event, c: Candidate) returns (s': Sys)
    requires TablesOk(s) && SweepsOk(s) && Enabled(s, e) && (e.Upload? || e.UploadFail? || e.Delete?)
    requires c == s.sweeps[e.sweep].todo[0] && CandidateOk(s, c) && (e.Delete? ==> c.job in s.blobs)
    requires JobOk(ViewOf(s, c.job))
    ensures s' == Apply(s, e) && Archives(s, s', c.job) && SweepsOk(s') && JobOk(ViewOf(s', c.job))
  {
    s' := Apply(s, e);
    SweepArchives(s, e, c);
    SweepStepJob(s, e, c);
    SweepStepSweeps(s, e);
  }

  lemma {:induction false} SweepStepInv(s: Sys, e: Event)
    requires Inv(s) && Enabled(s, e) && (e.Upload? || e.UploadFail? || e.Delete?)
    ensures Inv(Apply(s, e))
  {
    var c := HeadCandidate(s, e);
    JobsAreOk(s, c.job);
    var s' := SweepStepTo(s, e, c);
    ArchivesInv(s, s', c.job);
  }

  /** What the SELECT of a sweep returns is a final payload. */
  lemma {:induction false} SelectedIsFinal(s: Sys, c: Candidate, cutoff: Time)
    requires TablesOk(s) && Archivable(s.db, c, cutoff) && cutoff <= s.now - s.age && JobOk(ViewOf(s, c.job))
    ensures CandidateOk(s, c)
  {
    var v := ViewOf(s, c.job);
    assert v.output == Some(s.db.outputs[c.job]) && v.row.status == Completed;
  }

  lemma {:induction false} SweepSelectSweeps(s: Sys, e: Event)
    requires SweepsOk(s) && e.SweepSelect? && Enabled(s, e) && forall c :: c in e.batch ==> CandidateOk(s, c)
    ensures SweepsOk(Apply(s, e))
  {
    var s' := Apply(s, e);
    assert forall c :: CandidateOk(s, c) ==> CandidateOk(s', c);
    forall k | k in s'.sweeps ensures SweepOk(s', s'.sweeps[k]) {
      if k != e.sweep {
        assert SweepOk(s, s.sweeps[k]);
      }
    }
  }

  lemma {:induction false} SweepSelectInv(s: Sys, e: Event)
    requires Inv(s) && e.SweepSelect? && Enabled(s, e)
    ensures Inv(Apply(s, e))
  {
    SelectedAreFinal(s, e.batch, e.cutoff);
    SweepSelectSweeps(s, e);
    SameJobs(s, Apply(s, e), JobOk);
  }

  lemma {:induction false} SelectedAreFinal(s: Sys, batch: seq<Candidate>, cutoff: Time)
    requires TablesOk(s) && AllJobs(s, JobOk) && Selected(s.db, batch, cutoff) && cutoff <= s.now - s.age
    ensures forall c :: c in batch ==> CandidateOk(s, c)
  {
    forall c | c in batch ensures CandidateOk(s, c) {
      assert Archivable(s.db, c, cutoff);
      SelectedIsFinal(s, c, cutoff);
    }
  }

  lemma {:induction false} SweepDiesSweeps(s: Sys, k: SweepId)
    requires SweepsOk(s) && k in s.sweeps
    ensures SweepsOk(s.(sweeps := s.sweeps - {k}))
  {
    var s' := s.(sweeps := s.sweeps - {k});
    assert forall c :: CandidateOk(s, c) ==> CandidateOk(s', c);
    forall i | i in s'.sweeps ensures SweepOk(s', s'.sweeps[i]) {
      assert SweepOk(s, s.sweeps[i]);
    }
  }

  lemma {:induction false} SweepDiesInv(s: Sys, e: Event)
    requires Inv(s) && e.SweepDies? && Enabled(s, e)
    ensures Inv(Apply(s, e))
  {
    SweepDiesSweeps(s, e.sweep);
    FewerSweeps(s, s.(sweeps := s.sweeps - {e.sweep}));
  }

  lemma {:induction false} FewerSweeps(s: Sys, s': Sys)
    requires Inv(s) && s' == s.(sweeps := s'.sweeps) && SweepsOk(s')
    ensures Inv(s')
  {
    SameJobs(s, s', JobOk);
  }

  lemma {:induction false} AdvanceSweeps(s: Sys, to: Time)
    requires SweepsOk(s) && s.now <= to
    ensures SweepsOk(Apply(s, Advance(to)))
  {
    var s' := Apply(s, Advance(to));
    assert forall c :: CandidateOk(s, c) ==> CandidateOk(s', c);
    SameCandidates(s, s');
  }

  lemma {:induction false} AdvanceJob(s: Sys, to: Time, j: JobId)
    requires TablesOk(s) && s.now <= to && j in s.db.jobs && JobOk(ViewOf(s, j))
    ensures JobOk(ViewOf(Apply(s, Advance(to)), j))
  {
    LaterJob(ViewOf(s, j), to);
    assert ViewOf(Apply(s, Advance(to)), j) == ViewOf(s, j).(now := to);
  }

  lemma {:induction false} AdvanceInv(s: Sys, e: Event)
    requires Inv(s) && e.Advance? && Enabled(s, e)
    ensures Inv(Apply(s, e))
  {
    var s' := Apply(s, e);
    AdvanceSweeps(s, e.to);
    forall j | j in s'.db.jobs && j in s'.chains ensures JobOk(ViewOf(s', j)) {
      JobsAreOk(s, j);
      AdvanceJob(s, e.to, j);
    }
  }

  // ---------------------------------------------------------------- all steps, all runs

  lemma {:induction false} SuccessInv(s: Sys, e: Event)
    requires Inv(s) && Enabled(s, e) && (e.CommitClassify? || e.CommitExtract? || e.CommitNormalize? || e.CommitValidate?)
    ensures Inv(Apply(s, e))
  {
    if e.CommitClassify? {
      ClassifyInv(s, e);
    } else if e.CommitExtract? {
      ExtractInv(s, e);
    } else if e.CommitNormalize? {
      NormalizeInv(s, e);
    } else {
      ValidateInv(s, e);
    }
  }

  lemma {:induction false} SweepInv(s: Sys, e: Event)
    requires Inv(s) && Enabled(s, e)
    requires e.SweepSelect? || e.Upload? || e.UploadFail? || e.Delete? || e.SweepDies?
    ensures Inv(Apply(s, e))
  {
    if e.SweepSelect? {
      SweepSelectInv(s, e);
    } else if e.SweepDies? {
      SweepDiesInv(s, e);
    } else {
      SweepStepInv(s, e);
    }
  }

  lemma {:induction false} OuterInv(s: Sys, e: Event)
    requires Inv(s) && Enabled(s, e) && (e.Advance? || e.Submit? || e.Annotate?)
    ensures Inv(Apply(s, e))
  {
    if e.Advance? {
      AdvanceInv(s, e);
    } else if e.Submit? {
      SubmitInv(s, e);
    } else {
      AnnotateInv(s, e);
    }
  }

  lemma {:induction false} AnnotateInv(s: Sys, e: Event)
    requires Inv(s) && e.Annotate? && Enabled(s, e)
    ensures Inv(Apply(s, e))
  {
    NoteInv(s, Apply(s, e), e.job, OperatorNote);
  }

  lemma {:induction false} EdgeInv(s: Sys, e: Event)
    requires Inv(s) && Enabled(s, e) && (e.StartChain? || e.RejectFormat? || e.RecordFailure?)
    ensures Inv(Apply(s, e))
  {
    if e.StartChain? {
      StartInv(s, e);
    } else if e.RejectFormat? {
      RejectInv(s, e);
    } else {
      FailInv(s, e);
    }
  }

  lemma {:induction false} InvStep(s: Sys, e: Event)
    requires Inv(s) && Enabled(s, e)
    ensures Inv(Apply(s, e))
  {
    if e.CommitClassify? || e.CommitExtract? || e.CommitNormalize? || e.CommitValidate? {
      SuccessInv(s, e);
    } else if e.SweepSelect? || e.Upload? || e.UploadFail? || e.Delete? || e.SweepDies? {
      SweepInv(s, e);
    } else if e.StartChain? || e.RejectFormat? || e.RecordFailure? {
      EdgeInv(s, e);
    } else if e.Advance? || e.Submit? || e.Annotate? {
      OuterInv(s, e);
    } else {
      QuietInv(s, e);
    }
  }

  lemma {:induction false} InvRun(s: Sys, es: seq<Event>)
    requires Inv(s) && Run(s, es)
    ensures Inv(After(s, es))
    decreases |es|
  {
    if es != [] {
      InvStep(s, es[0]);
      InvRun(Apply(s, es[0]), es[1..]);
    }
  }

  /** Every state a fresh installation can reach. */
  lemma {:induction false} Reachable(stages: Stages, now: Time, age: nat, es: seq<Event>)
    requires Run(Initial(stages, now, age), es)
    ensures Inv(After(Initial(stages, now, age), es))
  {
    InvRun(Initial(stages, now, age), es);
  }
}
