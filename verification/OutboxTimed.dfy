/**
 The lease scheme under a timing assumption: if the longest wait from SELECT to lease plus the longest
 time from lease to commit stays below the lease's time-to-live, stale detached rows do no harm.
 */
module OutboxTimed {
  import opened Prelude
  import opened OutboxMachine
  import opened OutboxUntimed

  ghost predicate Bounds(wait: Time, work: Time) {
    0 <= wait && 0 <= work && wait + work < LOCK_TTL
  }

  /** A row not yet leased: unchanged since the SELECT, or leased too recently to be leased in time. */
  ghost predicate WaitingOk(s: Sys, t: Tick, sn: Snap, work: Time) {
    || (sn.id in s.rows && s.rows[sn.id] == sn.row)
    || (sn.id in s.leases && t.selectedAt + LOCK_TTL <= s.leases[sn.id].expiresAt + work)
  }

  /** A leased row: while its outcome can still be committed, nobody else has touched it. */
  ghost predicate HeldOk(s: Sys, k: TickId, t: Tick, sn: Snap, work: Time) {
    && sn.id in s.leases
    && t.lockedAt + LOCK_TTL <= s.leases[sn.id].expiresAt
    && (s.now <= t.lockedAt + work ==>
          sn.id in s.rows && s.rows[sn.id] == sn.row && s.leases[sn.id] == Lease(k, t.lockedAt + LOCK_TTL))
  }

  ghost predicate TickTimed(s: Sys, k: TickId, t: Tick, work: Time) {
    && (t.phase.Holding() ==> t.todo != [] && HeldOk(s, k, t, t.todo[0], work))
    && (t.phase != Stopped ==>
          forall i :: (if t.phase.Holding() then 1 else 0) <= i < |t.todo| ==> WaitingOk(s, t, t.todo[i], work))
  }

  /** Each failure waits for the retry delay the previous one scheduled. */
  ghost predicate Paced(failures: seq<Time>) {
    forall i, j :: 0 <= i && j == i + 1 && j < |failures| && i < MAX_ATTEMPTS ==>
      failures[i] + BackoffFor(i).value <= failures[j]
  }

  ghost predicate RowTimed(row: Row, log: Log) {
    && row.attempts == |log.failures|
    && log.commits <= 1
    && Paced(log.failures)
  }

  ghost predicate Timed(s: Sys, work: Time) {
    && (forall r :: r in s.rows ==> r in s.log && RowTimed(s.rows[r], s.log[r]))
    && (forall k :: k in s.ticks ==> TickTimed(s, k, s.ticks[k], work))
  }

  /** Ticks that do not move and whose rows are untouched, while the clock and leases only grow. */
  lemma {:induction false} TickKept(s: Sys, s': Sys, k: TickId, t: Tick, work: Time)
    requires TickTimed(s, k, t, work) && s.now <= s'.now
    requires s.leases.Keys <= s'.leases.Keys
    requires forall r :: r in s.rows ==> r in s'.rows
    requires forall i :: 0 <= i < |t.todo| ==>
               (var r := t.todo[i].id;
                && (r in s.leases ==> s.leases[r].expiresAt <= s'.leases[r].expiresAt)
                && (r in s.rows && s'.rows[r] != s.rows[r] ==> WaitingOk(s', t, t.todo[i], work)))
    requires t.phase.Holding() && s'.now <= t.lockedAt + work ==>
               (var r := t.todo[0].id;
                && (r in s.rows ==> s'.rows[r] == s.rows[r])
                && (r in s.leases ==> s'.leases[r] == s.leases[r]))
    ensures TickTimed(s', k, t, work)
  {
    forall i | (if t.phase.Holding() then 1 else 0) <= i < |t.todo| && t.phase != Stopped
      ensures WaitingOk(s', t, t.todo[i], work)
    {
      assert WaitingOk(s, t, t.todo[i], work);
    }
  }

  /** Whoever can still commit an outcome of row `r` is the owner of its lease. */
  lemma {:induction false} LiveOwner(s: Sys, k: TickId, work: Time)
    requires k in s.ticks && TickTimed(s, k, s.ticks[k], work)
    requires s.ticks[k].phase.Holding() && s.now <= s.ticks[k].lockedAt + work
    ensures var r := s.ticks[k].todo[0].id;
            r in s.rows && s.rows[r] == s.ticks[k].todo[0].row && r in s.leases && s.leases[r].owner == k
  {
  }

  /** A lease taken in time is taken on the row as the SELECT saw it. */
  lemma {:induction false} LeaseIsFresh(s: Sys, k: TickId, wait: Time, work: Time)
    requires Bounds(wait, work) && Inv(s) && Timed(s, work)
    requires Enabled(s, TryLock(k)) && Timely(s, TryLock(k), wait, work) && LeaseFree(s, s.ticks[k].todo[0].id)
    ensures var sn := s.ticks[k].todo[0];
            sn.id in s.rows && s.rows[sn.id] == sn.row && Due(s.rows[sn.id], s.now)
  {
    Head(s, k);
    var t := s.ticks[k];
    assert TickTimed(s, k, t, work);
    assert WaitingOk(s, t, t.todo[0], work);
  }

  lemma {:induction false} TryLockTimed(s: Sys, k: TickId, wait: Time, work: Time)
    requires Bounds(wait, work) && Inv(s) && Timed(s, work)
    requires Enabled(s, TryLock(k)) && Timely(s, TryLock(k), wait, work) && LeaseFree(s, s.ticks[k].todo[0].id)
    ensures forall j :: j in Apply(s, TryLock(k)).ticks ==>
              TickTimed(Apply(s, TryLock(k)), j, Apply(s, TryLock(k)).ticks[j], work)
  {
    var s', r := Apply(s, TryLock(k)), s.ticks[k].todo[0].id;
    LeaseIsFresh(s, k, wait, work);
    forall j | j in s'.ticks ensures TickTimed(s', j, s'.ticks[j], work) {
      assert TickTimed(s, j, s.ticks[j], work);
      if j != k {
        LockOthers(s, k, j, work);
      } else {
        LockOwn(s, k, work);
      }
    }
  }

  lemma {:induction false} LockOthers(s: Sys, k: TickId, j: TickId, work: Time)
    requires Enabled(s, TryLock(k)) && LeaseFree(s, s.ticks[k].todo[0].id) && work < LOCK_TTL
    requires j in s.ticks && j != k && TickTimed(s, j, s.ticks[j], work)
    ensures TickTimed(Apply(s, TryLock(k)), j, s.ticks[j], work)
  {
    TickKept(s, Apply(s, TryLock(k)), j, s.ticks[j], work);
  }

  lemma {:induction false} LockOwn(s: Sys, k: TickId, work: Time)
    requires Enabled(s, TryLock(k)) && LeaseFree(s, s.ticks[k].todo[0].id) && 0 <= work < LOCK_TTL
    requires TickTimed(s, k, s.ticks[k], work)
    requires var sn := s.ticks[k].todo[0]; sn.id in s.rows && s.rows[sn.id] == sn.row
    ensures TickTimed(Apply(s, TryLock(k)), k, Apply(s, TryLock(k)).ticks[k], work)
  {
    var s' := Apply(s, TryLock(k));
    TickKept(s, s', k, s.ticks[k], work);
    assert HeldOk(s', k, s'.ticks[k], s'.ticks[k].todo[0], work);
  }

  /** A tick that selected row `r` before its outcome was committed can no longer lease it in time. */
  lemma {:induction false} TooLate(s: Sys, s': Sys, k: TickId, t: Tick, i: nat, work: Time)
    requires k in s.ticks && TickTimed(s, k, s.ticks[k], work) && s.ticks[k].phase.Holding()
    requires s.now <= s.ticks[k].lockedAt + work && s'.leases == s.leases
    requires i < |t.todo| && t.todo[i].id == s.ticks[k].todo[0].id && t.selectedAt <= s.now
    ensures WaitingOk(s', t, t.todo[i], work)
  {
  }

  lemma {:induction false} CommitOthers(s: Sys, e: Event, j: TickId, wait: Time, work: Time)
    requires Bounds(wait, work) && Enabled(s, e) && Timely(s, e, wait, work) && (e.CommitDelivered? || e.RecordFailure?)
    requires TickTimed(s, e.tick, s.ticks[e.tick], work)
    requires j in s.ticks && j != e.tick && TickTimed(s, j, s.ticks[j], work) && s.ticks[j].selectedAt <= s.now
    ensures TickTimed(Apply(s, e), j, s.ticks[j], work)
  {
    var s', k := Apply(s, e), e.tick;
    var r, t := s.ticks[k].todo[0].id, s.ticks[j];
    LiveOwner(s, k, work);
    forall i | 0 <= i < |t.todo| && t.todo[i].id == r ensures WaitingOk(s', t, t.todo[i], work) {
      TooLate(s, s', k, t, i, work);
    }
    TickKept(s, s', j, t, work);
  }

  lemma {:induction false} CommitOwn(s: Sys, e: Event, wait: Time, work: Time)
    requires Bounds(wait, work) && Inv(s) && Timed(s, work)
    requires Enabled(s, e) && Timely(s, e, wait, work) && (e.CommitDelivered? || e.RecordFailure?)
    ensures TickTimed(Apply(s, e), e.tick, Apply(s, e).ticks[e.tick], work)
  {
    var s', k := Apply(s, e), e.tick;
    var r, t, t' := s.ticks[k].todo[0].id, s.ticks[k], s'.ticks[k];
    assert TickOk(s, t) && TickTimed(s, k, t, work);
    forall i | 0 <= i < |t'.todo| ensures WaitingOk(s', t', t'.todo[i], work) {
      assert t'.todo[i] == t.todo[i + 1] && WaitingOk(s, t, t.todo[i + 1], work);
      if t'.todo[i].id == r {
        TooLate(s, s', k, t', i, work);
      }
    }
  }

  /** A recorded failure counts once, and comes no earlier than the previous one allowed. */
  lemma {:induction false} CommitRows(s: Sys, e: Event, wait: Time, work: Time)
    requires Bounds(wait, work) && Inv(s) && Timed(s, work)
    requires Enabled(s, e) && Timely(s, e, wait, work) && (e.CommitDelivered? || e.RecordFailure?)
    ensures var s', r := Apply(s, e), s.ticks[e.tick].todo[0].id;
            r in s'.rows && r in s'.log && RowTimed(s'.rows[r], s'.log[r])
  {
    var s', k := Apply(s, e), e.tick;
    var t := s.ticks[k];
    assert TickTimed(s, k, t, work);
    LiveOwner(s, k, work);
    Head(s, k);
    if e.RecordFailure? {
      assert RowTimed(s.rows[t.todo[0].id], s.log[t.todo[0].id]);
      FailurePaced(s.rows[t.todo[0].id], s.log[t.todo[0].id], e.stamp);
    }
  }

  lemma {:induction false} FailurePaced(row: Row, log: Log, stamp: Time)
    requires RowTimed(row, log) && RetryOk(row, log.failures)
    requires row.nextRetryAt.Some? ==> row.nextRetryAt.value <= stamp
    ensures RowTimed(AfterFailure(row, row, stamp), log.(failures := log.failures + [stamp]))
  {
  }

  /** Events that neither take a lease nor write a row. */
  ghost predicate Quiet(s: Sys, e: Event)
    requires Enabled(s, e)
  {
    !e.CommitDelivered? && !e.RecordFailure? && !(e.TryLock? && LeaseFree(s, s.ticks[e.tick].todo[0].id))
  }

  /** A lease that is not free: the tick moves on to the next row of its batch. */
  lemma {:induction false} SkipOwn(s: Sys, k: TickId, work: Time)
    requires Enabled(s, TryLock(k)) && !LeaseFree(s, s.ticks[k].todo[0].id)
    requires TickTimed(s, k, s.ticks[k], work)
    ensures TickTimed(Apply(s, TryLock(k)), k, Apply(s, TryLock(k)).ticks[k], work)
  {
    var s', t := Apply(s, TryLock(k)), s.ticks[k];
    forall i | 0 <= i < |t.todo| - 1 ensures WaitingOk(s', s'.ticks[k], t.todo[1..][i], work) {
      assert WaitingOk(s, t, t.todo[i + 1], work);
    }
  }

  lemma {:induction false} QuietOwn(s: Sys, e: Event, work: Time)
    requires Enabled(s, e) && Quiet(s, e) && !e.Insert? && !e.Advance?
    requires e.tick in s.ticks ==> TickTimed(s, e.tick, s.ticks[e.tick], work)
    ensures TickTimed(Apply(s, e), e.tick, Apply(s, e).ticks[e.tick], work)
  {
    var s', k := Apply(s, e), e.tick;
    if k in s.ticks {
      if e.TryLock? {
        SkipOwn(s, k, work);
      } else if !e.Select? {
        TickKept(s, s', k, s.ticks[k], work);
      }
    }
  }

  lemma {:induction false} QuietOthers(s: Sys, e: Event, j: TickId, work: Time)
    requires Inv(s) && Timed(s, work) && Enabled(s, e) && Quiet(s, e)
    requires j in s.ticks && (e.Insert? || e.Advance? || j != e.tick)
    ensures j in Apply(s, e).ticks && Apply(s, e).ticks[j] == s.ticks[j]
    ensures TickTimed(Apply(s, e), j, s.ticks[j], work)
  {
    TickKept(s, Apply(s, e), j, s.ticks[j], work);
  }

  lemma {:induction false} TimedTicks(s: Sys, e: Event, wait: Time, work: Time)
    requires Bounds(wait, work) && Inv(s) && Timed(s, work)
    requires Enabled(s, e) && Timely(s, e, wait, work)
    ensures forall j :: j in Apply(s, e).ticks ==> TickTimed(Apply(s, e), j, Apply(s, e).ticks[j], work)
  {
    var s' := Apply(s, e);
    if e.TryLock? && LeaseFree(s, s.ticks[e.tick].todo[0].id) {
      TryLockTimed(s, e.tick, wait, work);
    } else {
      forall j | j in s'.ticks ensures TickTimed(s', j, s'.ticks[j], work) {
        if Quiet(s, e) {
          if j in s.ticks && (e.Insert? || e.Advance? || j != e.tick) {
            QuietOthers(s, e, j, work);
          } else {
            QuietOwn(s, e, work);
          }
        } else if j == e.tick {
          CommitOwn(s, e, wait, work);
        } else {
          assert TickOk(s, s.ticks[j]);
          CommitOthers(s, e, j, wait, work);
        }
      }
    }
  }

  lemma {:induction false} TimedRows(s: Sys, e: Event, wait: Time, work: Time)
    requires Bounds(wait, work) && Inv(s) && Timed(s, work)
    requires Enabled(s, e) && Timely(s, e, wait, work)
    ensures forall r :: r in Apply(s, e).rows ==> r in Apply(s, e).log && RowTimed(Apply(s, e).rows[r], Apply(s, e).log[r])
  {
    var s' := Apply(s, e);
    if e.CommitDelivered? || e.RecordFailure? {
      CommitRows(s, e, wait, work);
    }
    forall r | r in s'.rows ensures r in s'.log && RowTimed(s'.rows[r], s'.log[r]) {
      if !((e.CommitDelivered? || e.RecordFailure?) && r == s.ticks[e.tick].todo[0].id) {
        RowsKept(s, e, r);
      }
    }
  }

  /** A row whose outcome is not committed by this step keeps its counters. */
  lemma {:induction false} RowsKept(s: Sys, e: Event, r: RowId)
    requires Enabled(s, e) && r in Apply(s, e).rows && (r in s.rows ==> r in s.log && RowTimed(s.rows[r], s.log[r]))
    requires !((e.CommitDelivered? || e.RecordFailure?) && r == s.ticks[e.tick].todo[0].id)
    ensures r in Apply(s, e).log && RowTimed(Apply(s, e).rows[r], Apply(s, e).log[r])
  {
  }

  lemma {:induction false} TimedRun(s: Sys, es: seq<Event>, wait: Time, work: Time)
    requires Bounds(wait, work) && Inv(s) && Timed(s, work) && TimelyRun(s, es, wait, work)
    ensures Run(s, es) && Inv(After(s, es)) && Timed(After(s, es), work)
    decreases |es|
  {
    if es != [] {
      InvStep(s, es[0]);
      TimedTicks(s, es[0], wait, work);
      TimedRows(s, es[0], wait, work);
      TimedRun(Apply(s, es[0]), es[1..], wait, work);
    }
  }

  /** Handlers of row `r` whose delivered-commit can still come in time: at most one, on an undelivered row. */
  lemma {:induction false} OneLiveHandler(s: Sys, r: RowId, work: Time)
    requires Inv(s) && Timed(s, work) && r in s.rows
    ensures r in s.log
    ensures |InFlight(s, r) - Overdue(s, r, work)| + s.log[r].commits <= 1
  {
    var live := InFlight(s, r) - Overdue(s, r, work);
    assert RowTimed(s.rows[r], s.log[r]);
    assert RowOk(s, r);
    forall k | k in live ensures r in s.leases && k == s.leases[r].owner && s.log[r].commits == 0 {
      assert TickOk(s, s.ticks[k]) && SnapOk(s, s.ticks[k], s.ticks[k].todo[0]);
      LiveOwner(s, k, work);
    }
    if live == {} {
      assert |live| == 0;
    } else {
      assert live == {s.leases[r].owner};
    }
  }

  /**
   Safety of the lease scheme.  In every interleaving that respects the bounds, successful dispatches
   of a row number at most one plus those whose delivered-commit was lost, where a handler that has
   overrun `work` counts as lost.
   */
  lemma {:induction false} AtMostOncePlusLost(start: Time, es: seq<Event>, r: RowId, wait: Time, work: Time)
    requires Bounds(wait, work) && TimelyRun(Initial(start), es, wait, work)
    ensures Run(Initial(start), es)
    ensures var s := After(Initial(start), es);
            r in s.rows ==> r in s.log && s.log[r].oks <= 1 + s.log[r].lost + |Overdue(s, r, work)|
  {
    TimedRun(Initial(start), es, wait, work);
    var s := After(Initial(start), es);
    if r in s.rows {
      OneLiveHandler(s, r, work);
      assert RowOk(s, r);
      var live, late := InFlight(s, r) - Overdue(s, r, work), Overdue(s, r, work);
      assert InFlight(s, r) == live + late;
    }
  }

  /** Under the bounds no stale write is ever made: attempts is exactly the number of recorded failures. */
  lemma {:induction false} AttemptsAreFailures(start: Time, es: seq<Event>, r: RowId, wait: Time, work: Time)
    requires Bounds(wait, work) && TimelyRun(Initial(start), es, wait, work)
    ensures Run(Initial(start), es)
    ensures var s := After(Initial(start), es);
            r in s.rows ==> r in s.log && s.rows[r].attempts == |s.log[r].failures|
  {
    TimedRun(Initial(start), es, wait, work);
    var s := After(Initial(start), es);
    if r in s.rows {
      assert RowTimed(s.rows[r], s.log[r]);
    }
  }

  /** No dispatch of a row starts before its last failure plus the scheduled delay, nor after delivery. */
  lemma {:induction false} NoEarlyDispatch(start: Time, es: seq<Event>, k: TickId, wait: Time, work: Time)
    requires Bounds(wait, work) && TimelyRun(Initial(start), es, wait, work)
    ensures Run(Initial(start), es)
    ensures var s := After(Initial(start), es);
            Enabled(s, TryLock(k)) && Timely(s, TryLock(k), wait, work) && LeaseFree(s, s.ticks[k].todo[0].id) ==>
              var r := s.ticks[k].todo[0].id;
              && r in s.rows && r in s.log
              && s.rows[r].deliveredAt.None? && s.log[r].commits == 0
              && var n := |s.log[r].failures|;
                 (0 < n <= MAX_ATTEMPTS ==> s.log[r].failures[n - 1] + BackoffFor(n - 1).value <= s.now)
  {
    TimedRun(Initial(start), es, wait, work);
    var s := After(Initial(start), es);
    if Enabled(s, TryLock(k)) && Timely(s, TryLock(k), wait, work) && LeaseFree(s, s.ticks[k].todo[0].id) {
      LeaseIsFresh(s, k, wait, work);
      var r := s.ticks[k].todo[0].id;
      assert RowOk(s, r) && RowTimed(s.rows[r], s.log[r]);
    }
  }

  /** The whole schedule: 5 + 30 + 300 + 1800 + 7200 + 86400 seconds lie between failures one and seven. */
  lemma {:induction false} SeventhFailure(start: Time, es: seq<Event>, r: RowId, wait: Time, work: Time)
    requires Bounds(wait, work) && TimelyRun(Initial(start), es, wait, work)
    ensures Run(Initial(start), es)
    ensures var s := After(Initial(start), es);
            r in s.rows ==> r in s.log && (|s.log[r].failures| > 6 ==>
                                            s.log[r].failures[0] + 95_735 * SECOND <= s.log[r].failures[6])
  {
    TimedRun(Initial(start), es, wait, work);
    var s := After(Initial(start), es);
    if r in s.rows {
      assert RowTimed(s.rows[r], s.log[r]);
      if |s.log[r].failures| > 6 {
        SixDelays(s.log[r].failures);
      }
    }
  }

  lemma {:induction false} SixDelays(f: seq<Time>)
    requires Paced(f) && |f| > 6
    ensures f[0] + 95_735 * SECOND <= f[6]
  {
    assert f[0] + 5 * SECOND <= f[1] && f[1] + 30 * SECOND <= f[2] && f[2] + 300 * SECOND <= f[3];
    assert f[3] + 1800 * SECOND <= f[4] && f[4] + 7200 * SECOND <= f[5] && f[5] + 86_400 * SECOND <= f[6];
  }
}
