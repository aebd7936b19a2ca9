/**
 The outbox dispatcher as a machine of atomic steps (packages/dispatcher/outbox_worker.py).

 Any number of drain ticks run at once.  Each tick owns a program counter and the detached rows
 it selected; the rows, the Redis leases and the clock are shared.  Nothing re-reads a row after
 its lease is taken, the lease is never released, and the failure write stores values computed
 from the detached row.  `Log` is history only: no step looks at it.
 */
module OutboxMachine {
  import opened Prelude

  /** Microseconds. */
  type Time = int
  type RowId = nat
  type TickId = nat

  const SECOND: Time := 1_000_000
  const MINUTE: Time := 60 * SECOND
  const HOUR: Time := 60 * MINUTE
  const LOCK_TTL: Time := 30 * SECOND
  const BATCH_SIZE: nat := 50
  const MAX_ATTEMPTS: nat := 6
  const DAY: Time := 86_400 * SECOND

  /** The retry delay for a 0-based attempt number; None once the schedule is used up. */
  function BackoffFor(attempts: int): (delay: Option<Time>)
    ensures delay.Some? <==> 0 <= attempts < MAX_ATTEMPTS
    ensures delay.Some? ==> 5 * SECOND <= delay.value <= DAY
    ensures delay.Some? ==> delay.value == match attempts
                                           case 0 => 5 * SECOND case 1 => 30 * SECOND case 2 => 5 * MINUTE
                                           case 3 => 30 * MINUTE case 4 => 2 * HOUR case _ => 24 * HOUR
  {
    if attempts < 0 || attempts >= MAX_ATTEMPTS then None
    else Some([5, 30, 300, 1800, 7200, 86_400][attempts] * SECOND)
  }

  datatype Row = Row(deliveredAt: Option<Time>, attempts: nat, nextRetryAt: Option<Time>)

  const NEW_ROW := Row(None, 0, None)

  /** A detached ORM row: the values as they were when the SELECT ran. */
  datatype Snap = Snap(id: RowId, row: Row)

  datatype Lease = Lease(owner: TickId, expiresAt: Time)

  datatype Phase =
    | Starting      // `now` taken, SELECT not yet run
    | Looping       // about to try the lease of todo[0]
    | Dispatching   // lease of todo[0] held, handler running
    | Returned      // handler returned, delivered-commit pending
    | Raised        // in the except branch, failure-commit pending
    | Stopped       // loop finished, or the process died
  {
    /** Between taking the lease of todo[0] and committing its outcome. */
    predicate Holding() {
      Dispatching? || Returned? || Raised?
    }
  }

  datatype Tick = Tick(phase: Phase, startedAt: Time, selectedAt: Time, todo: seq<Snap>,
                       lockedAt: Time, sinceAt: Time)

  /** What has happened to one row so far. */
  datatype Log = Log(acquired: seq<Time>,  // lease acquisitions
                     oks: nat,             // dispatches that returned
                     lost: nat,            // of those, delivered-commit lost to a crash or DB error
                     commits: nat,         // of those, delivered-commit done
                     failures: seq<Time>)  // recorded failures, by their time stamp

  const NEW_LOG := Log([], 0, 0, 0, [])

  datatype Sys = Sys(now: Time, rows: map<RowId, Row>, leases: map<RowId, Lease>,
                     ticks: map<TickId, Tick>, log: map<RowId, Log>)

  datatype Event =
    | Insert(row: RowId)
    | Advance(to: Time)
    | Start(tick: TickId)
    | Select(tick: TickId, batch: seq<RowId>)
    | TryLock(tick: TickId)
    | DispatchOk(tick: TickId)
    | DispatchFail(tick: TickId)
    | CommitDelivered(tick: TickId, stamp: Time)
    | CommitError(tick: TickId)
    | RecordFailure(tick: TickId, stamp: Time)
    | Finish(tick: TickId)
    | Crash(tick: TickId)

  /** The WHERE clause of the SELECT: there is no filter on `attempts`. */
  predicate Due(row: Row, now: Time) {
    && row.deliveredAt.None?
    && (row.nextRetryAt.None? || row.nextRetryAt.value <= now)
  }

  /** A possible result of the SELECT: no ORDER BY, LIMIT 50. */
  predicate Selectable(rows: map<RowId, Row>, batch: seq<RowId>, now: Time) {
    && NoDup(batch)
    && (forall r :: r in batch ==> r in rows && Due(rows[r], now))
    && |batch| <= BATCH_SIZE
    && (|batch| < BATCH_SIZE ==> forall r :: r in rows && Due(rows[r], now) ==> r in batch)
  }

  function Snapshot(rows: map<RowId, Row>, batch: seq<RowId>): (todo: seq<Snap>)
    requires forall r :: r in batch ==> r in rows
    ensures |todo| == |batch|
    ensures forall i :: 0 <= i < |todo| ==> todo[i] == Snap(batch[i], rows[batch[i]])
  {
    seq(|batch|, i requires 0 <= i < |batch| => Snap(batch[i], rows[batch[i]]))
  }

  predicate InPhase(s: Sys, k: TickId, phase: Phase) {
    && k in s.ticks
    && s.ticks[k].phase == phase
    && (phase.Holding() ==> s.ticks[k].todo != [] && s.ticks[k].todo[0].id in s.rows)
  }

  /** SET key value NX succeeds when the key is absent, that is never set or expired. */
  predicate LeaseFree(s: Sys, r: RowId) {
    r !in s.leases || s.leases[r].expiresAt <= s.now
  }

  predicate Enabled(s: Sys, e: Event) {
    match e
    case Insert(r) => r !in s.rows
    case Advance(t) => s.now <= t
    case Start(k) => k !in s.ticks
    case Select(k, batch) => InPhase(s, k, Starting) && Selectable(s.rows, batch, s.ticks[k].startedAt)
    case TryLock(k) => InPhase(s, k, Looping) && s.ticks[k].todo != []
    case DispatchOk(k) => InPhase(s, k, Dispatching)
    case DispatchFail(k) => InPhase(s, k, Dispatching)
    case CommitDelivered(k, stamp) => InPhase(s, k, Returned) && s.ticks[k].sinceAt <= stamp <= s.now
    case CommitError(k) => InPhase(s, k, Returned)
    case RecordFailure(k, stamp) => InPhase(s, k, Raised) && s.ticks[k].sinceAt <= stamp <= s.now
    case Finish(k) => InPhase(s, k, Looping) && s.ticks[k].todo == []
    case Crash(k) => k in s.ticks && s.ticks[k].phase != Stopped
  }

  function LogOf(s: Sys, r: RowId): Log {
    if r in s.log then s.log[r] else NEW_LOG
  }

  /** The row as the failure branch writes it: every value comes from the detached row. */
  function AfterFailure(current: Row, detached: Row, stamp: Time): (row: Row)
    ensures row.deliveredAt == current.deliveredAt
    ensures row.attempts == detached.attempts + 1
    ensures row.nextRetryAt.Some? <==> detached.attempts < MAX_ATTEMPTS
    ensures row.nextRetryAt.Some? ==> stamp + 5 * SECOND <= row.nextRetryAt.value <= stamp + DAY
  {
    var attempts := detached.attempts + 1;
    var delay := BackoffFor(attempts - 1);
    Row(current.deliveredAt, attempts, if delay.Some? then Some(stamp + delay.value) else None)
  }

  function Apply(s: Sys, e: Event): Sys
    requires Enabled(s, e)
  {
    match e
    case Insert(r) =>
      s.(rows := s.rows[r := NEW_ROW], log := s.log[r := NEW_LOG])
    case Advance(t) =>
      s.(now := t)
    case Start(k) =>
      s.(ticks := s.ticks[k := Tick(Starting, s.now, s.now, [], s.now, s.now)])
    case Select(k, batch) =>
      s.(ticks := s.ticks[k := s.ticks[k].(phase := Looping, selectedAt := s.now,
                                           todo := Snapshot(s.rows, batch))])
    case TryLock(k) =>
      var t := s.ticks[k];
      var r := t.todo[0].id;
      if LeaseFree(s, r) then
        s.(leases := s.leases[r := Lease(k, s.now + LOCK_TTL)],
           ticks := s.ticks[k := t.(phase := Dispatching, lockedAt := s.now)],
           log := s.log[r := LogOf(s, r).(acquired := LogOf(s, r).acquired + [s.now])])
      else
        s.(ticks := s.ticks[k := t.(todo := t.todo[1..])])
    case DispatchOk(k) =>
      var t := s.ticks[k];
      var r := t.todo[0].id;
      s.(ticks := s.ticks[k := t.(phase := Returned, sinceAt := s.now)],
         log := s.log[r := LogOf(s, r).(oks := LogOf(s, r).oks + 1)])
    case DispatchFail(k) =>
      s.(ticks := s.ticks[k := s.ticks[k].(phase := Raised, sinceAt := s.now)])
    case CommitDelivered(k, stamp) =>
      var t := s.ticks[k];
      var r := t.todo[0].id;
      s.(rows := s.rows[r := s.rows[r].(deliveredAt := Some(stamp), nextRetryAt := None)],
         ticks := s.ticks[k := t.(phase := Looping, todo := t.todo[1..])],
         log := s.log[r := LogOf(s, r).(commits := LogOf(s, r).commits + 1)])
    case CommitError(k) =>
      var t := s.ticks[k];
      var r := t.todo[0].id;
      s.(ticks := s.ticks[k := t.(phase := Raised, sinceAt := s.now)],
         log := s.log[r := LogOf(s, r).(lost := LogOf(s, r).lost + 1)])
    case RecordFailure(k, stamp) =>
      var t := s.ticks[k];
      var r := t.todo[0].id;
      s.(rows := s.rows[r := AfterFailure(s.rows[r], t.todo[0].row, stamp)],
         ticks := s.ticks[k := t.(phase := Looping, todo := t.todo[1..])],
         log := s.log[r := LogOf(s, r).(failures := LogOf(s, r).failures + [stamp])])
    case Finish(k) =>
      s.(ticks := s.ticks[k := s.ticks[k].(phase := Stopped)])
    case Crash(k) =>
      var t := s.ticks[k];
      var dead := s.(ticks := s.ticks[k := t.(phase := Stopped)]);
      if InPhase(s, k, Returned) then
        var r := t.todo[0].id;
        dead.(log := s.log[r := LogOf(s, r).(lost := LogOf(s, r).lost + 1)])
      else
        dead
  }

  ghost function Initial(now: Time): Sys {
    Sys(now, map[], map[], map[], map[])
  }

  /** `es` can be executed from `s`, one event after the other. */
  ghost predicate Run(s: Sys, es: seq<Event>)
    decreases |es|
  {
    es == [] || (Enabled(s, es[0]) && Run(Apply(s, es[0]), es[1..]))
  }

  ghost function After(s: Sys, es: seq<Event>): Sys
    requires Run(s, es)
    decreases |es|
  {
    if es == [] then s else After(Apply(s, es[0]), es[1..])
  }

  /**
   The timing assumption.  `wait` bounds the time from a SELECT to the lease of a row it returned,
   `work` the time from a lease to the commit of its outcome.  A tick may still hang or die: the
   bound constrains only leases that are taken and commits that happen.
   */
  ghost predicate Timely(s: Sys, e: Event, wait: Time, work: Time)
    requires Enabled(s, e)
  {
    match e
    case TryLock(k) => LeaseFree(s, s.ticks[k].todo[0].id) ==> s.now <= s.ticks[k].selectedAt + wait
    case CommitDelivered(k, _) => s.now <= s.ticks[k].lockedAt + work
    case RecordFailure(k, _) => s.now <= s.ticks[k].lockedAt + work
    case _ => true
  }

  ghost predicate TimelyRun(s: Sys, es: seq<Event>, wait: Time, work: Time)
    decreases |es|
  {
    es == [] || (Enabled(s, es[0]) && Timely(s, es[0], wait, work)
                 && TimelyRun(Apply(s, es[0]), es[1..], wait, work))
  }

  lemma {:induction false} TimelyRunIsRun(s: Sys, es: seq<Event>, wait: Time, work: Time)
    requires TimelyRun(s, es, wait, work)
    ensures Run(s, es)
    decreases |es|
  {
    if es != [] {
      TimelyRunIsRun(Apply(s, es[0]), es[1..], wait, work);
    }
  }

  lemma {:induction false} RunConcat(s: Sys, es: seq<Event>, fs: seq<Event>)
    requires Run(s, es) && Run(After(s, es), fs)
    ensures Run(s, es + fs) && After(s, es + fs) == After(After(s, es), fs)
    decreases |es|
  {
    if es == [] {
      assert es + fs == fs;
    } else {
      assert (es + fs)[1..] == es[1..] + fs;
      RunConcat(Apply(s, es[0]), es[1..], fs);
    }
  }

  /** A timely run grows at its end. */
  lemma {:induction false} Extend(s: Sys, es: seq<Event>, e: Event, wait: Time, work: Time)
    requires TimelyRun(s, es, wait, work) && Run(s, es)
    requires Enabled(After(s, es), e) && Timely(After(s, es), e, wait, work)
    ensures TimelyRun(s, es + [e], wait, work) && Run(s, es + [e])
    ensures After(s, es + [e]) == Apply(After(s, es), e)
    decreases |es|
  {
    if es == [] {
      assert [] + [e] == [e];
    } else {
      assert (es + [e])[1..] == es[1..] + [e];
      Extend(Apply(s, es[0]), es[1..], e, wait, work);
    }
  }

  /** Handlers that returned for row `r` and whose delivered-commit is still pending. */
  function InFlight(s: Sys, r: RowId): set<TickId> {
    set k | k in s.ticks && s.ticks[k].phase == Returned && s.ticks[k].todo != [] && s.ticks[k].todo[0].id == r
  }

  /** Those among them that can no longer commit within `work`. */
  function Overdue(s: Sys, r: RowId, work: Time): set<TickId> {
    set k | k in InFlight(s, r) && s.ticks[k].lockedAt + work < s.now
  }
}
