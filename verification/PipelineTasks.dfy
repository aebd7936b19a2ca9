/**
 The task bodies, the intake route and the archive sweep in their own imperative form, over the tables
 (packages/ingest/tasks.py, apps/api/routes/intake.py, packages/lifecycle/archive.py).  Each is proved to
 leave exactly the state its transactions commit; `PipelineMachine` says what may happen in between.
 */
module PipelineTasks {
  import opened Prelude
  import opened Lanes
  import opened Consensus
  import opened Database
  import opened PipelineMachine
  import opened PipelineSafety
  import opened StageTwo
  import opened PipelineLanes
  import ExcelScan
  import ExcelExtract
  import Edifact
  import Normalizer
  import Stage4

  datatype Format = Excel | EdifactMessage | Unsupported

  // ---------------------------------------------------------------- Stage 1

  /** Every end of classification: accepted, rejected, or raised; `detected` is None if the classifier raises. */
  ghost predicate ClassifyLeaves(before: Db, after: Db, job: JobId, detected: Option<Format>, now: Time,
                                 r: Result<Format, Raised>) {
    if detected.None? then r == Err(Unrecorded) && after == before
    else if detected.value == Unsupported then r == Err(Recorded) && after == RejectTx(before, job, now)
    else if job !in before.jobs then r == Err(Unrecorded) && after == before
    else r == Ok(detected.value) && Some(after) == ClassifyTx(before, job)
  }

  method ClassifyTask(db: Tables, job: JobId, detected: Option<Format>, now: Time) returns (r: Result<Format, Raised>)
    modifies db
    ensures ClassifyLeaves(old(db.State()), db.State(), job, detected, now, r)
  {
    if detected.None? {
      return Err(Unrecorded);
    }
    if detected.value == Unsupported {
      db.CommitReject(job, now);
      return Err(Recorded);
    }
    var ok := db.CommitClassified(job);
    r := if ok then Ok(detected.value) else Err(Unrecorded);
  }

  // ---------------------------------------------------------------- Stage 2

  /** The extraction inside the try block: ExcelTooLargeError and ExtractionError are Recorded. */
  method ExtractPayload(upload: Upload) returns (r: Result<Ratesheet, Raised>)
    ensures EndsIn(upload, r)
  {
    match upload
    case Oversized =>
      r := Err(Recorded);
    case Unreadable =>
      r := Err(Unrecorded);
    case Workbook(cells, names, model) =>
      var payload, columns, rows, pre, shown := ExcelExtract.ExtractExcel(cells, names, model);
      assert ExcelExtract.Scanned(cells, names, columns, rows, pre, shown);
      match payload {
        case Ok(sheet) => r := Ok(sheet);
        case Err(error) => r := Err(if error.Uncaught? then Unrecorded else Recorded);
      }
      assert r == AnswerOutcome(pre, model(shown));
    case Interchange(segments, read, flash) =>
      var payload, clusters := Edifact.ExtractEdifact(segments, read, flash);
      match payload {
        case Ok(sheet) => r := Ok(sheet);
        case Err(error) => r := Err(if error.Uncaught? then Unrecorded else Recorded);
      }
      assert r == SegmentsOutcome(clusters, upload);
  }

  /** Every end of extraction. */
  ghost predicate ExtractLeaves(before: Db, after: Db, job: JobId, end: Result<Ratesheet, Raised>, now: Time,
                                r: Result<Ratesheet, Raised>) {
    if job !in before.jobs then r == Err(Unrecorded) && after == before
    else if end.Err? && end.error == Recorded
    then r == end && Some(after) == FailTx(before, job, ExtractFailed, now)
    else if end.Err? || job in before.outputs then r == Err(Unrecorded) && after == before
    else r == end && Some(after) == ExtractTx(before, job, end.value)
  }

  method ExtractTask(db: Tables, job: JobId, upload: Upload, now: Time) returns (r: Result<Ratesheet, Raised>)
    modifies db
    ensures exists end :: EndsIn(upload, end) && ExtractLeaves(old(db.State()), db.State(), job, end, now, r)
  {
    var payload := ExtractPayload(upload);
    if job !in db.jobs {
      return Err(Unrecorded);
    }
    if payload.Err? {
      if payload.error == Recorded {
        var recorded := db.CommitFailure(job, ExtractFailed, now);
      }
      return payload;
    }
    var ok := db.CommitExtracted(job, payload.value);
    r := if ok then payload else Err(Unrecorded);
  }

  // ---------------------------------------------------------------- Stage 3

  /** The failure handler: record, then re-raise; if even that fails, nothing is recorded. */
  method RecordAndRaise(db: Tables, job: JobId, action: Action, now: Time) returns (raised: Raised)
    modifies db
    ensures raised == if job in old(db.jobs) then Recorded else Unrecorded
    ensures raised == Recorded ==> Some(db.State()) == FailTx(old(db.State()), job, action, now)
    ensures raised == Unrecorded ==> db.State() == old(db.State())
  {
    var ok := db.CommitFailure(job, action, now);
    raised := if ok then Recorded else Unrecorded;
  }

  /** The first ensemble that did not answer was too late for the total budget: nothing catches that. */
  ghost predicate OutOfTime(count: nat, ensembles: nat -> Normalizer.Ensemble) {
    exists n: nat :: Normalizer.FirstSilent(count, ensembles, n) && !ensembles(n).inTime
  }

  ghost predicate AllAnswered(count: nat, ensembles: nat -> Normalizer.Ensemble) {
    forall i: nat :: i < count ==> Normalizer.Answered(ensembles(i))
  }

  /** Every end of normalization. */
  ghost predicate NormalizeLeaves(before: Db, after: Db, job: JobId, ensembles: nat -> Normalizer.Ensemble,
                                  resolve: Normalizer.Resolver, now: Time,
                                  r: Result<(Ratesheet, seq<ConsensusResult>), Raised>) {
    if job !in before.jobs || (job in before.outputs && OutOfTime(|before.outputs[job].payload.lanes|, ensembles))
    then r == Err(Unrecorded) && after == before
    else if job !in before.outputs || !AllAnswered(|before.outputs[job].payload.lanes|, ensembles)
    then r == Err(Recorded) && Some(after) == FailTx(before, job, NormalizeFailed, now)
    else r.Ok? && NormalizedBy(before.outputs[job].payload, r.value.0, r.value.1, ensembles, resolve)
         && Some(after) == NormalizeTx(before, job, r.value.0, r.value.1)
  }

  method NormalizeTask(db: Tables, job: JobId, ensembles: nat -> Normalizer.Ensemble, resolve: Normalizer.Resolver,
                       now: Time)
    returns (r: Result<(Ratesheet, seq<ConsensusResult>), Raised>)
    modifies db
    ensures NormalizeLeaves(old(db.State()), db.State(), job, ensembles, resolve, now, r)
  {
    if job !in db.outputs {
      var raised := RecordAndRaise(db, job, NormalizeFailed, now);
      return Err(raised);
    }
    var normalized := Normalizer.NormalizeLanes(db.outputs[job].payload, ensembles, resolve);
    if normalized.Err? {
      OneFirstSilent(|db.outputs[job].payload.lanes|, ensembles, normalized.error.TimedOut?);
      if normalized.error.TimedOut? {
        return Err(Unrecorded);
      }
      var raised := RecordAndRaise(db, job, NormalizeFailed, now);
      return Err(raised);
    }
    assert !OutOfTime(|db.outputs[job].payload.lanes|, ensembles);
    var ok := db.CommitNormalized(job, normalized.value.0, normalized.value.1);
    r := if ok then Ok(normalized.value) else Err(Unrecorded);
  }

  lemma {:induction false} FirstOnce(count: nat, ensembles: nat -> Normalizer.Ensemble, m: nat, n: nat)
    requires Normalizer.FirstSilent(count, ensembles, m) && Normalizer.FirstSilent(count, ensembles, n)
    ensures m == n
  {
  }

  lemma {:induction false} OneFirstSilent(count: nat, ensembles: nat -> Normalizer.Ensemble, late: bool)
    requires exists n: nat :: Normalizer.FirstSilent(count, ensembles, n) && (ensembles(n).inTime <==> !late)
    ensures OutOfTime(count, ensembles) <==> late
    ensures !AllAnswered(count, ensembles)
  {
    var n: nat :| Normalizer.FirstSilent(count, ensembles, n) && (ensembles(n).inTime <==> !late);
    forall m: nat | Normalizer.FirstSilent(count, ensembles, m) ensures m == n {
      FirstOnce(count, ensembles, m, n);
    }
  }

  // ---------------------------------------------------------------- Stage 4

  /** A channel some intake request of the job asked for; None if none did. */
  method RecoverChannel(db: Tables, job: JobId) returns (channel: Option<string>)
    ensures channel.Some? ==> channel.value != "" && Sent(db.State(), job, IngressReceived(channel.value))
    ensures channel.None? ==> forall c :: Sent(db.State(), job, IngressReceived(c)) ==> c == ""
  {
    for i := 0 to |db.outbox|
      invariant forall k :: 0 <= k < i && db.outbox[k].job == job && db.outbox[k].notice.IngressReceived? ==>
                  db.outbox[k].notice.channel == ""
    {
      var row := db.outbox[i];
      if row.job == job && row.notice.IngressReceived? && row.notice.channel != "" {
        return Some(row.notice.channel);
      }
    }
    channel := None;
  }

  /** The correction calls that the stage makes all answer. */
  ghost predicate Corrected(sheet: Ratesheet, table: VoteTable, rounds: Stage4.Rounds) {
    forall i: nat :: i < |sheet.flags| ==> !(Stage4.Escalates(sheet.flags[i], table) && Stage4.RoundFails(rounds(i)))
  }

  /** The body of the try block gets to its commit. */
  ghost predicate Validates(before: Db, job: JobId, rounds: Stage4.Rounds, signed: bool) {
    && job in before.jobs && job in before.outputs && signed
    && (exists c :: c != "" && Sent(before, job, IngressReceived(c)))
    && Corrected(before.outputs[job].payload, VotesOf(before, job), rounds)
  }

  /** What it commits. */
  ghost predicate Stored4(before: Db, after: Db, job: JobId, rounds: Stage4.Rounds, today: Date, now: Time,
                             sheet: Ratesheet, channel: string)
    requires job in before.outputs && Stage4.WellFormed(VotesOf(before, job))
  {
    && sheet == Stage4.Validated(before.outputs[job].payload, VotesOf(before, job), rounds, today)
    && channel != "" && Sent(before, job, IngressReceived(channel))
    && Some(after) == ValidateTx(before, job, sheet, channel, now)
  }

  /** Every end of validation. */
  ghost predicate ValidateLeaves(before: Db, after: Db, job: JobId, rounds: Stage4.Rounds, today: Date, signed: bool,
                                 now: Time, r: Result<(Ratesheet, string), Raised>)
    requires Stage4.WellFormed(VotesOf(before, job))
  {
    if job !in before.jobs then r == Err(Unrecorded) && after == before
    else if !Validates(before, job, rounds, signed)
    then r == Err(Recorded) && Some(after) == FailTx(before, job, ValidateFailed, now)
    else r.Ok? && Stored4(before, after, job, rounds, today, now, r.value.0, r.value.1)
  }

  /** `signed` says whether clarification texts and the signed URL were obtained. */
  method ValidateTask(db: Tables, job: JobId, rounds: Stage4.Rounds, today: Date, tomorrow: Date, signed: bool,
                      now: Time)
    returns (r: Result<(Ratesheet, string), Raised>)
    requires Stage4.WellFormed(VotesOf(db.State(), job))
    requires job in db.outputs ==> forall v :: v in db.outputs[job].payload.shapeViolating ==> ExcelExtract.IllShaped(v)
    modifies db
    ensures ValidateLeaves(old(db.State()), db.State(), job, rounds, today, signed, now, r)
  {
    var done := TryValidate(db, job, rounds, today, tomorrow, signed, now);
    if done.None? {
      var raised := RecordAndRaise(db, job, ValidateFailed, now);
      return Err(raised);
    }
    r := Ok(done.value);
  }

  /** The body of the try block; None stands for any exception, after which the tables are as before. */
  method TryValidate(db: Tables, job: JobId, rounds: Stage4.Rounds, today: Date, tomorrow: Date, signed: bool,
                     now: Time)
    returns (r: Option<(Ratesheet, string)>)
    requires Stage4.WellFormed(VotesOf(db.State(), job))
    requires job in db.outputs ==> forall v :: v in db.outputs[job].payload.shapeViolating ==> ExcelExtract.IllShaped(v)
    modifies db
    ensures r.Some? <==> Validates(old(db.State()), job, rounds, signed)
    ensures r.Some? ==> Stored4(old(db.State()), db.State(), job, rounds, today, now, r.value.0, r.value.1)
    ensures r.None? ==> db.State() == old(db.State())
  {
    if job !in db.outputs || job !in db.jobs {
      return None;
    }
    var channel := RecoverChannel(db, job);
    if channel.None? {
      return None;
    }
    var table := if job in db.votes then db.votes[job] else map[];
    var validated, violations := Stage4.Validate(db.outputs[job].payload, table, rounds, today, tomorrow);
    if validated.Err? || !signed {
      return None;
    }
    var ok := db.CommitValidated(job, validated.value, channel.value, now);
    r := if ok then Some((validated.value, channel.value)) else None;
  }

  // ---------------------------------------------------------------- intake

  /** The broker's queue of task chains. */
  class Broker {
    var queue: seq<JobId>

    constructor ()
      ensures queue == []
    {
      queue := [];
    }

    method ApplyAsync(job: JobId)
      modifies this
      ensures queue == old(queue) + [job]
    {
      queue := queue + [job];
    }
  }

  datatype Response = Accepted(job: JobId) | Conflict(job: JobId) | TooLarge | ServerError

  const MAX_UPLOAD_BYTES: nat := 25 * 1024 * 1024

  /** `staged` says whether the upload could be written to the staging directory. */
  method SubmitIntakeJob(db: Tables, broker: Broker, newId: JobId, hash: Hash, size: nat, channel: string, staged: bool)
    returns (response: Response)
    requires IndexOk(db.State())
    modifies db, broker
    ensures IndexOk(db.State())
    ensures response.TooLarge? <==> size > MAX_UPLOAD_BYTES
    ensures response.TooLarge? ==> db.State() == old(db.State())
    ensures !response.TooLarge? ==>
              var tx := IngestTx(old(db.State()), newId, hash, channel);
              db.State() == if tx.Some? then tx.value.db else old(db.State())
    ensures response.Conflict? <==> size <= MAX_UPLOAD_BYTES && KnownHash(old(db.State()), hash)
    ensures response.Conflict? ==> response.job in old(db.jobs) && old(db.jobs)[response.job].hash == hash
    ensures broker.queue == old(broker.queue) + if response.Accepted? then [response.job] else []
    ensures response.Accepted? <==> && size <= MAX_UPLOAD_BYTES && staged && newId !in old(db.jobs)
                                    && !KnownHash(old(db.State()), hash)
    ensures response.Accepted? ==> response.job == newId && db.jobs[newId] == JobRow(hash, Pending, None)
    ensures response.Accepted? || response.Conflict? ==>
              db.outbox == old(db.outbox) + [OutboxRow(response.job, IngressReceived(channel))]
  {
    if size > MAX_UPLOAD_BYTES {
      return TooLarge;
    }
    var r := db.Ingest(newId, hash, channel);
    if r.None? {
      return ServerError;
    }
    var (job, created) := r.value;
    if !created {
      return Conflict(job);
    }
    if !staged {
      return ServerError;
    }
    broker.ApplyAsync(job);
    response := Accepted(job);
  }

  ghost predicate KnownHash(db: Db, hash: Hash) {
    exists j :: j in db.jobs && db.jobs[j].hash == hash
  }

  // ---------------------------------------------------------------- archive

  /** The archive bucket. */
  class Bucket {
    var blobs: map<JobId, Ratesheet>

    constructor ()
      ensures blobs == map[]
    {
      blobs := map[];
    }
  }

  /** The candidates that were archived, in order. */
  function Archived(rows: seq<Candidate>, turns: nat -> Turn): (kept: seq<Candidate>)
    ensures forall c :: c in kept ==> c in rows
  {
    if rows == [] then []
    else
      var m := |rows| - 1;
      assert rows == rows[..m] + [rows[m]];
      Archived(rows[..m], turns) + if turns(m) == Archives then [rows[m]] else []
  }

  predicate Holds(rows: seq<Candidate>, j: JobId) {
    exists c :: c in rows && c.job == j
  }

  /** A job's payload before the sweep is in the table or in the bucket after it. */
  ghost predicate Conserved(before: Db, after: Db, blobs: map<JobId, Ratesheet>) {
    forall j :: j in before.outputs ==>
      if j in after.outputs then after.outputs[j] == before.outputs[j]
      else j in blobs && blobs[j] == before.outputs[j].payload
  }

  /** What the sweep has done once it is through with `archived`. */
  ghost predicate Swept(before: Db, outputs: map<JobId, OutputRow>, blobs: map<JobId, Ratesheet>,
                        blobs': map<JobId, Ratesheet>, archived: seq<Candidate>)
  {
    && (forall j :: j in outputs <==> j in before.outputs && !Holds(archived, j))
    && (forall j :: j in outputs ==> outputs[j] == before.outputs[j])
    && (forall c :: c in archived ==> c.job in blobs' && blobs'[c.job] == c.payload)
    && (forall j :: !Holds(archived, j) ==> (j in blobs' <==> j in blobs) && (j in blobs' ==> blobs'[j] == blobs[j]))
  }

  lemma {:induction false} SweptNext(before: Db, outputs: map<JobId, OutputRow>, blobs: map<JobId, Ratesheet>,
                                     blobs': map<JobId, Ratesheet>, archived: seq<Candidate>, c: Candidate)
    requires Swept(before, outputs, blobs, blobs', archived)
    requires forall d :: d in archived && d.job == c.job ==> d.payload == c.payload
    ensures Swept(before, outputs - {c.job}, blobs, blobs'[c.job := c.payload], archived + [c])
  {
    HoldsNext(archived, c);
  }

  lemma {:induction false} SweptConserves(before: Db, after: Db, blobs: map<JobId, Ratesheet>,
                                          blobs': map<JobId, Ratesheet>, archived: seq<Candidate>, cutoff: Time)
    requires Swept(before, after.outputs, blobs, blobs', archived)
    requires forall c :: c in archived ==> Archivable(before, c, cutoff)
    ensures Conserved(before, after, blobs')
  {
    forall j | j in before.outputs && j !in after.outputs ensures j in blobs' && blobs'[j] == before.outputs[j].payload {
      var c :| c in archived && c.job == j;
    }
  }

  /** What becomes of one candidate: the upload fails, the deletion raises, or both go through. */
  datatype Turn = UploadFails | DeleteRaises | Archives

  /** The turn that ends the sweep, if one does. */
  predicate StopsAt(rows: seq<Candidate>, turns: nat -> Turn, n: nat) {
    n < |rows| && turns(n) == DeleteRaises && forall m: nat :: m < n ==> turns(m) != DeleteRaises
  }

  /**
   One sweep, running alone: upload, then delete; a failed upload skips the row, a failed deletion ends the
   sweep with the row still there and its object uploaded.
   */
  method ArchiveCompletedJobs(db: Tables, bucket: Bucket, rows: seq<Candidate>, cutoff: Time, turns: nat -> Turn)
    returns (archived: seq<Candidate>, raised: bool)
    requires Selected(db.State(), rows, cutoff)
    modifies db, bucket
    ensures SweepEnds(old(db.State()), db.outputs, old(bucket.blobs), bucket.blobs, rows, turns, archived, raised)
    ensures db.State() == old(db.State()).(outputs := db.outputs)
    ensures Conserved(old(db.State()), db.State(), bucket.blobs)
  {
    archived, raised := [], false;
    ghost var before, blobs := db.State(), bucket.blobs;
    for n := 0 to |rows|
      invariant !raised && db.State() == before.(outputs := db.outputs)
      invariant Sweeping(before, db.outputs, blobs, bucket.blobs, rows, turns, archived, n, cutoff)
    {
      var c := rows[n];
      SweepStep(before, db.outputs, blobs, bucket.blobs, rows, turns, archived, n, cutoff);
      if turns(n) == UploadFails {
        continue;
      }
      bucket.blobs := bucket.blobs[c.job := c.payload];
      if turns(n) == DeleteRaises {
        raised := true;
        return;
      }
      db.outputs := db.outputs - {c.job};
      archived := archived + [c];
    }
    SweepThrough(before, db.outputs, blobs, bucket.blobs, rows, turns, archived, cutoff);
  }

  /** The sweep after its first `n` candidates. */
  ghost predicate Sweeping(before: Db, outputs: map<JobId, OutputRow>, blobs: map<JobId, Ratesheet>,
                           blobs': map<JobId, Ratesheet>, rows: seq<Candidate>, turns: nat -> Turn,
                           archived: seq<Candidate>, n: nat, cutoff: Time)
  {
    && n <= |rows| && archived == Archived(rows[..n], turns)
    && (forall m: nat :: m < n ==> turns(m) != DeleteRaises)
    && (forall c :: c in rows ==> Archivable(before, c, cutoff))
    && (forall c :: c in archived ==> c in rows)
    && Swept(before, outputs, blobs, blobs', archived)
  }

  /** One candidate more, for each of its three turns. */
  lemma {:induction false} SweepStep(before: Db, outputs: map<JobId, OutputRow>, blobs: map<JobId, Ratesheet>,
                                     blobs': map<JobId, Ratesheet>, rows: seq<Candidate>, turns: nat -> Turn,
                                     archived: seq<Candidate>, n: nat, cutoff: Time)
    requires n < |rows| && Sweeping(before, outputs, blobs, blobs', rows, turns, archived, n, cutoff)
    ensures turns(n) == UploadFails ==> Sweeping(before, outputs, blobs, blobs', rows, turns, archived, n + 1, cutoff)
    ensures turns(n) == Archives ==>
              Sweeping(before, outputs - {rows[n].job}, blobs, blobs'[rows[n].job := rows[n].payload], rows, turns,
                       archived + [rows[n]], n + 1, cutoff)
    ensures turns(n) == DeleteRaises ==>
              && SweepEnds(before, outputs, blobs, blobs'[rows[n].job := rows[n].payload], rows, turns, archived, true)
              && Conserved(before, before.(outputs := outputs), blobs'[rows[n].job := rows[n].payload])
  {
    if turns(n) == Archives {
      SweepArchived(before, outputs, blobs, blobs', rows, turns, archived, n, cutoff);
    } else if turns(n) == DeleteRaises {
      SweepHalted(before, outputs, blobs, blobs', rows, turns, archived, n, cutoff);
    } else {
      assert rows[..n + 1][..n] == rows[..n];
    }
  }

  lemma {:induction false} SweepArchived(before: Db, outputs: map<JobId, OutputRow>, blobs: map<JobId, Ratesheet>,
                                         blobs': map<JobId, Ratesheet>, rows: seq<Candidate>, turns: nat -> Turn,
                                         archived: seq<Candidate>, n: nat, cutoff: Time)
    requires n < |rows| && Sweeping(before, outputs, blobs, blobs', rows, turns, archived, n, cutoff)
    requires turns(n) == Archives
    ensures Sweeping(before, outputs - {rows[n].job}, blobs, blobs'[rows[n].job := rows[n].payload], rows, turns,
                     archived + [rows[n]], n + 1, cutoff)
  {
    assert rows[..n + 1][..n] == rows[..n];
    SamePayload(before, rows, archived, rows[n], cutoff);
    SweptNext(before, outputs, blobs, blobs', archived, rows[n]);
  }

  lemma {:induction false} SamePayload(before: Db, rows: seq<Candidate>, archived: seq<Candidate>, c: Candidate,
                                       cutoff: Time)
    requires (forall d :: d in rows ==> Archivable(before, d, cutoff)) && (forall d :: d in archived ==> d in rows) && c in rows
    ensures forall d :: d in archived && d.job == c.job ==> d.payload == c.payload
  {
    assert Archivable(before, c, cutoff);
  }

  lemma {:induction false} SweepHalted(before: Db, outputs: map<JobId, OutputRow>, blobs: map<JobId, Ratesheet>,
                                       blobs': map<JobId, Ratesheet>, rows: seq<Candidate>, turns: nat -> Turn,
                                       archived: seq<Candidate>, n: nat, cutoff: Time)
    requires n < |rows| && Sweeping(before, outputs, blobs, blobs', rows, turns, archived, n, cutoff)
    requires turns(n) == DeleteRaises
    ensures SweepEnds(before, outputs, blobs, blobs'[rows[n].job := rows[n].payload], rows, turns, archived, true)
    ensures Conserved(before, before.(outputs := outputs), blobs'[rows[n].job := rows[n].payload])
  {
    var c := rows[n];
    SamePayload(before, rows, archived, c, cutoff);
    SweptHalf(before, outputs, blobs, blobs', rows, turns, archived, n);
    SweptConserves(before, before.(outputs := outputs), blobs[c.job := c.payload], blobs'[c.job := c.payload], archived, cutoff);
  }

  lemma {:induction false} SweepThrough(before: Db, outputs: map<JobId, OutputRow>, blobs: map<JobId, Ratesheet>,
                                        blobs': map<JobId, Ratesheet>, rows: seq<Candidate>, turns: nat -> Turn,
                                        archived: seq<Candidate>, cutoff: Time)
    requires Sweeping(before, outputs, blobs, blobs', rows, turns, archived, |rows|, cutoff)
    ensures SweepEnds(before, outputs, blobs, blobs', rows, turns, archived, false)
    ensures Conserved(before, before.(outputs := outputs), blobs')
  {
    assert rows[..|rows|] == rows;
    SweptConserves(before, before.(outputs := outputs), blobs, blobs', archived, cutoff);
  }

  /** How a sweep can end: through all its candidates, or at the first whose deletion raises. */
  ghost predicate SweepEnds(before: Db, outputs: map<JobId, OutputRow>, blobs: map<JobId, Ratesheet>,
                            blobs': map<JobId, Ratesheet>, rows: seq<Candidate>, turns: nat -> Turn,
                            archived: seq<Candidate>, raised: bool)
  {
    if raised then
      exists n: nat :: StopsAt(rows, turns, n) && archived == Archived(rows[..n], turns)
                       && Swept(before, outputs, blobs[rows[n].job := rows[n].payload], blobs', archived)
    else
      && archived == Archived(rows, turns) && (forall n: nat :: !StopsAt(rows, turns, n))
      && Swept(before, outputs, blobs, blobs', archived)
  }

  lemma {:induction false} SweptHalf(before: Db, outputs: map<JobId, OutputRow>, blobs: map<JobId, Ratesheet>,
                                     blobs': map<JobId, Ratesheet>, rows: seq<Candidate>, turns: nat -> Turn,
                                     archived: seq<Candidate>, n: nat)
    requires StopsAt(rows, turns, n) && archived == Archived(rows[..n], turns)
    requires Swept(before, outputs, blobs, blobs', archived)
    requires forall d :: d in archived && d.job == rows[n].job ==> d.payload == rows[n].payload
    ensures var c := rows[n];
            && Swept(before, outputs, blobs[c.job := c.payload], blobs'[c.job := c.payload], archived)
            && SweepEnds(before, outputs, blobs, blobs'[c.job := c.payload], rows, turns, archived, true)
  {
  }

  lemma {:induction false} HoldsNext(rows: seq<Candidate>, c: Candidate)
    ensures forall j :: Holds(rows + [c], j) <==> Holds(rows, j) || j == c.job
  {
    forall j ensures Holds(rows + [c], j) <==> Holds(rows, j) || j == c.job {
      assert c in rows + [c];
      if Holds(rows, j) {
        var d :| d in rows && d.job == j;
        assert d in rows + [c];
      }
    }
  }

  // ---------------------------------------------------------------- a body running alone is a run of the machine

  lemma {:induction false} RunConcat(s: Sys, es: seq<Event>, fs: seq<Event>)
    requires Run(s, es) && Run(After(s, es), fs)
    ensures Run(s, es + fs) && After(s, es + fs) == After(After(s, es), fs)
    decreases |es|
  {
    if es == [] {
      assert es + fs == fs;
    } else {
      assert (es + fs)[1..] == es[1..] + fs;
      RunConcat(Apply(s, es[0]), es[1..], fs);
    }
  }

  lemma {:induction false} TwoSteps(s: Sys, e: Event, f: Event)
    requires Enabled(s, e) && Enabled(Apply(s, e), f)
    ensures Run(s, [e, f]) && After(s, [e, f]) == Apply(Apply(s, e), f)
  {
    var s1, s2 := Apply(s, e), Apply(Apply(s, e), f);
    assert [e, f][1..] == [f] && [f][1..] == [];
    assert Run(s2, []) && After(s2, []) == s2;
    assert Run(s1, [f]) && After(s1, [f]) == After(s2, []);
  }

  lemma {:induction false} DeliverAlone(s: Sys, j: JobId, task: Task) returns (s1: Sys)
    requires At(s, j, Queued(task))
    ensures Run(s, [Deliver(j)]) && s1 == After(s, [Deliver(j)]) && s1 == Moved(s, j, Working(task))
  {
    s1 := Apply(s, Deliver(j));
    assert [Deliver(j)][1..] == [];
    assert Run(s1, []) && After(s1, []) == s1;
  }

  /** The body of Stages 3 and 4 starts by reading the stored output. */
  lemma {:induction false} ReadAlone(s: Sys, j: JobId, task: Task)
    requires (task == Normalize || task == Validate) && At(s, j, Queued(task)) && j in s.db.outputs
    ensures Run(s, [Deliver(j), ReadOutput(j)])
    ensures After(s, [Deliver(j), ReadOutput(j)]) == Moved(s, j, Reading(task, s.db.outputs[j].payload))
  {
    TwoSteps(s, Deliver(j), ReadOutput(j));
    assert s.chains[j := Working(task)][j := Reading(task, s.db.outputs[j].payload)]
        == s.chains[j := Reading(task, s.db.outputs[j].payload)];
  }

  /** Any body can die or raise uncaught as soon as it is entered: no table changes. */
  lemma {:induction false} DieAlone(s: Sys, j: JobId, task: Task)
    requires At(s, j, Queued(task))
    ensures Run(s, [Deliver(j), Die(j)]) && After(s, [Deliver(j), Die(j)]).db == s.db
    ensures At(After(s, [Deliver(j), Die(j)]), j, Over)
  {
    TwoSteps(s, Deliver(j), Die(j));
  }

  /** Or raise inside its try block, and have the handler record the failure. */
  lemma {:induction false} FailAlone(s: Sys, j: JobId, task: Task, action: Action)
    requires At(s, j, Queued(task)) && FailureOf(task) == Some(action)
    ensures var es := [Deliver(j), Catch(j)] + [RecordFailure(j, s.now)];
            Run(s, es) && Some(After(s, es).db) == FailTx(s.db, j, action, s.now) && At(After(s, es), j, Over)
  {
    CaughtAlone(s, j, task);
    var s2, record := Moved(s, j, Failing(task)), RecordFailure(j, s.now);
    assert [record][1..] == [];
    assert Run(Apply(s2, record), []) && After(Apply(s2, record), []) == Apply(s2, record);
    RunConcat(s, [Deliver(j), Catch(j)], [record]);
  }

  lemma {:induction false} CaughtAlone(s: Sys, j: JobId, task: Task)
    requires At(s, j, Queued(task)) && FailureOf(task).Some?
    ensures Run(s, [Deliver(j), Catch(j)]) && After(s, [Deliver(j), Catch(j)]) == Moved(s, j, Failing(task))
  {
    var s1 := Moved(s, j, Working(task));
    assert Apply(s, Deliver(j)) == s1;
    assert Busy(s1.chains[j], task);
    TwoSteps(s, Deliver(j), Catch(j));
    assert s.chains[j := Working(task)][j := Failing(task)] == s.chains[j := Failing(task)];
  }

  lemma {:induction false} RejectAlone(s: Sys, j: JobId)
    requires At(s, j, Queued(Classify))
    ensures var es := [Deliver(j), RejectFormat(j, s.now)];
            Run(s, es) && After(s, es).db == RejectTx(s.db, j, s.now) && At(After(s, es), j, Over)
  {
    TwoSteps(s, Deliver(j), RejectFormat(j, s.now));
  }

  lemma {:induction false} ClassifyAlone(s: Sys, j: JobId)
    requires At(s, j, Queued(Classify))
    ensures var es := [Deliver(j)] + [CommitClassify(j), Return(j)];
            Run(s, es) && Some(After(s, es).db) == ClassifyTx(s.db, j) && At(After(s, es), j, Queued(Extract))
  {
    var s1 := DeliverAlone(s, j, Classify);
    TwoSteps(s1, CommitClassify(j), Return(j));
    RunConcat(s, [Deliver(j)], [CommitClassify(j), Return(j)]);
  }

  lemma {:induction false} ExtractFinish(s: Sys, j: JobId, payload: Ratesheet)
    requires At(s, j, Working(Extract)) && j !in s.db.outputs && s.stages.extraction(payload)
    ensures var es := [CommitExtract(j, payload), Return(j)];
            Run(s, es) && Some(After(s, es).db) == ExtractTx(s.db, j, payload) && At(After(s, es), j, Queued(Normalize))
  {
    TwoSteps(s, CommitExtract(j, payload), Return(j));
  }

  lemma {:induction false} ExtractAlone(s: Sys, j: JobId, payload: Ratesheet)
    requires At(s, j, Queued(Extract)) && j !in s.db.outputs && s.stages.extraction(payload)
    ensures var es := [Deliver(j)] + [CommitExtract(j, payload), Return(j)];
            Run(s, es) && Some(After(s, es).db) == ExtractTx(s.db, j, payload) && At(After(s, es), j, Queued(Normalize))
  {
    var s1 := DeliverAlone(s, j, Extract);
    ExtractFinish(s1, j, payload);
    RunConcat(s, [Deliver(j)], [CommitExtract(j, payload), Return(j)]);
  }

  lemma {:induction false} NormalizeFinish(s: Sys, j: JobId, payload: Ratesheet, results: seq<ConsensusResult>)
    requires j in s.db.jobs && j in s.chains && s.chains[j].Reading? && s.chains[j].task == Normalize
    requires s.stages.normalization(s.chains[j].sheet, payload, results)
    ensures var es := [CommitNormalize(j, payload, results), Return(j)];
            && Run(s, es) && Some(After(s, es).db) == NormalizeTx(s.db, j, payload, results)
            && At(After(s, es), j, Queued(Validate))
  {
    TwoSteps(s, CommitNormalize(j, payload, results), Return(j));
  }

  lemma {:induction false} NormalizeAlone(s: Sys, j: JobId, payload: Ratesheet, results: seq<ConsensusResult>)
    requires At(s, j, Queued(Normalize)) && j in s.db.outputs
    requires s.stages.normalization(s.db.outputs[j].payload, payload, results)
    ensures var es := [Deliver(j), ReadOutput(j)] + [CommitNormalize(j, payload, results), Return(j)];
            && Run(s, es) && Some(After(s, es).db) == NormalizeTx(s.db, j, payload, results)
            && At(After(s, es), j, Queued(Validate))
  {
    var s2, commit := Moved(s, j, Reading(Normalize, s.db.outputs[j].payload)), CommitNormalize(j, payload, results);
    ReadAlone(s, j, Normalize);
    NormalizeFinish(s2, j, payload, results);
    RunConcat(s, [Deliver(j), ReadOutput(j)], [commit, Return(j)]);
  }

  /** Stage 4 between reading the output and committing: the channel, then the votes. */
  lemma {:induction false} PrepareAlone(s: Sys, j: JobId, sheet: Ratesheet, channel: string)
    requires At(s, j, Reading(Validate, sheet)) && channel != "" && Sent(s.db, j, IngressReceived(channel))
    ensures Run(s, [Event.RecoverChannel(j, channel), LoadVotes(j)])
    ensures After(s, [Event.RecoverChannel(j, channel), LoadVotes(j)]) == Moved(s, j, Scoring(sheet, channel, VotesOf(s.db, j)))
  {
    TwoSteps(s, Event.RecoverChannel(j, channel), LoadVotes(j));
    assert s.chains[j := Posting(sheet, channel)][j := Scoring(sheet, channel, VotesOf(s.db, j))]
        == s.chains[j := Scoring(sheet, channel, VotesOf(s.db, j))];
  }

  lemma {:induction false} ValidateFinish(s: Sys, j: JobId, payload: Ratesheet)
    requires j in s.db.jobs && j in s.chains && s.chains[j].Scoring?
    requires s.stages.validation(s.chains[j].sheet, s.chains[j].table, payload)
    ensures var es := [CommitValidate(j, payload, s.now), Return(j)];
            && Run(s, es) && Some(After(s, es).db) == ValidateTx(s.db, j, payload, s.chains[j].channel, s.now)
            && At(After(s, es), j, Over)
  {
    var s1 := Apply(s, CommitValidate(j, payload, s.now));
    assert s1.chains == s.chains[j := Committed(Validate)] && j in s1.db.jobs;
    TwoSteps(s, CommitValidate(j, payload, s.now), Return(j));
  }

  lemma {:induction false} ValidateAlone(s: Sys, j: JobId, payload: Ratesheet, channel: string)
    requires At(s, j, Queued(Validate)) && j in s.db.outputs
    requires channel != "" && Sent(s.db, j, IngressReceived(channel))
    requires s.stages.validation(s.db.outputs[j].payload, VotesOf(s.db, j), payload)
    ensures var es := [Deliver(j), ReadOutput(j)] + [Event.RecoverChannel(j, channel), LoadVotes(j)]
                      + [CommitValidate(j, payload, s.now), Return(j)];
            && Run(s, es) && Some(After(s, es).db) == ValidateTx(s.db, j, payload, channel, s.now)
            && At(After(s, es), j, Over)
  {
    var sheet, commit := s.db.outputs[j].payload, CommitValidate(j, payload, s.now);
    var s2 := Moved(s, j, Reading(Validate, sheet));
    ReadAlone(s, j, Validate);
    PrepareAlone(s2, j, sheet, channel);
    var s4 := Moved(s2, j, Scoring(sheet, channel, VotesOf(s.db, j)));
    ValidateFinish(s4, j, payload);
    RunConcat(s, [Deliver(j), ReadOutput(j)], [Event.RecoverChannel(j, channel), LoadVotes(j)]);
    RunConcat(s, [Deliver(j), ReadOutput(j)] + [Event.RecoverChannel(j, channel), LoadVotes(j)], [commit, Return(j)]);
  }

  /** Some run leads from the queued task to this state of the tables, with the chain where it belongs. */
  ghost predicate Reaches(s: Sys, after: Db, j: JobId, chain: Chain) {
    exists es :: Run(s, es) && After(s, es).db == after && At(After(s, es), j, chain)
  }

  /**
   However classification ends, with a format, a rejection or an exception: what the task body leaves is what
   a run of the machine reaches.
   */
  lemma {:induction false} ClassifyIsRun(s: Sys, j: JobId, detected: Option<Format>, after: Db,
                                         r: Result<Format, Raised>)
    requires At(s, j, Queued(Classify)) && ClassifyLeaves(s.db, after, j, detected, s.now, r)
    ensures Reaches(s, after, j, if r.Ok? then Queued(Extract) else Over)
  {
    if r.Ok? {
      ClassifyAlone(s, j);
    } else if r.error == Recorded {
      RejectAlone(s, j);
    } else {
      DieAlone(s, j, Classify);
    }
  }

  lemma {:induction false} PayloadIsRead(upload: Upload, payload: Ratesheet)
    requires EndsIn(upload, Ok(payload))
    ensures ONRAMP.extraction(payload)
  {
    EndsInPayload(upload, payload);
    assert ReadFromSome(payload);
  }

  lemma {:induction false} ExtractReaches(s: Sys, j: JobId, after: Db, payload: Ratesheet)
    requires At(s, j, Queued(Extract)) && s.stages.extraction(payload) && Some(after) == ExtractTx(s.db, j, payload)
    ensures Reaches(s, after, j, Queued(Normalize))
  {
    ExtractAlone(s, j, payload);
  }

  lemma {:induction false} ExtractIsRun(s: Sys, j: JobId, upload: Upload, end: Result<Ratesheet, Raised>, after: Db,
                                        r: Result<Ratesheet, Raised>)
    requires At(s, j, Queued(Extract)) && s.stages == ONRAMP
    requires EndsIn(upload, end) && ExtractLeaves(s.db, after, j, end, s.now, r)
    ensures Reaches(s, after, j, if r.Ok? then Queued(Normalize) else Over)
  {
    if r.Ok? {
      PayloadIsRead(upload, r.value);
      ExtractReaches(s, j, after, r.value);
    } else if r.error == Recorded {
      FailAlone(s, j, Extract, ExtractFailed);
    } else {
      DieAlone(s, j, Extract);
    }
  }

  lemma {:induction false} NormalizeReaches(s: Sys, j: JobId, after: Db, payload: Ratesheet,
                                            results: seq<ConsensusResult>)
    requires At(s, j, Queued(Normalize)) && j in s.db.outputs
    requires s.stages.normalization(s.db.outputs[j].payload, payload, results)
    requires Some(after) == NormalizeTx(s.db, j, payload, results)
    ensures Reaches(s, after, j, Queued(Validate))
  {
    NormalizeAlone(s, j, payload, results);
  }

  lemma {:induction false} NormalizeIsRun(s: Sys, j: JobId, ensembles: nat -> Normalizer.Ensemble,
                                          resolve: Normalizer.Resolver, after: Db,
                                          r: Result<(Ratesheet, seq<ConsensusResult>), Raised>)
    requires At(s, j, Queued(Normalize)) && s.stages == ONRAMP
    requires NormalizeLeaves(s.db, after, j, ensembles, resolve, s.now, r)
    ensures Reaches(s, after, j, if r.Ok? then Queued(Validate) else Over)
  {
    if r.Ok? {
      assert Normalization(s.db.outputs[j].payload, r.value.0, r.value.1);
      NormalizeReaches(s, j, after, r.value.0, r.value.1);
    } else if r.error == Recorded {
      FailAlone(s, j, Normalize, NormalizeFailed);
    } else {
      DieAlone(s, j, Normalize);
    }
  }

  lemma {:induction false} ValidateReaches(s: Sys, j: JobId, after: Db, payload: Ratesheet, channel: string)
    requires At(s, j, Queued(Validate)) && j in s.db.outputs
    requires channel != "" && Sent(s.db, j, IngressReceived(channel))
    requires s.stages.validation(s.db.outputs[j].payload, VotesOf(s.db, j), payload)
    requires Some(after) == ValidateTx(s.db, j, payload, channel, s.now)
    ensures Reaches(s, after, j, Over)
  {
    ValidateAlone(s, j, payload, channel);
  }

  lemma {:induction false} ValidateIsRun(s: Sys, j: JobId, rounds: Stage4.Rounds, today: Date, signed: bool, after: Db,
                                         r: Result<(Ratesheet, string), Raised>)
    requires At(s, j, Queued(Validate)) && s.stages == ONRAMP && Stage4.WellFormed(VotesOf(s.db, j))
    requires ValidateLeaves(s.db, after, j, rounds, today, signed, s.now, r)
    ensures Reaches(s, after, j, Over)
  {
    if r.Ok? {
      assert ValidatedBy(s.db.outputs[j].payload, VotesOf(s.db, j), r.value.0, rounds, today);
      assert Validation(s.db.outputs[j].payload, VotesOf(s.db, j), r.value.0);
      ValidateReaches(s, j, after, r.value.0, r.value.1);
    } else {
      FailAlone(s, j, Validate, ValidateFailed);
    }
  }
}
