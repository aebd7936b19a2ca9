/**
 What every run of the dispatcher keeps, with no timing assumption: any number of ticks, arbitrarily
 stale detached rows, crashes anywhere.
 */
module OutboxUntimed {
  import opened Prelude
  import opened OutboxMachine

  ghost predicate SnapOk(s: Sys, t: Tick, sn: Snap) {
    && sn.id in s.rows
    && sn.row.deliveredAt.None?
    && (sn.row.nextRetryAt.Some? ==> sn.row.nextRetryAt.value <= t.startedAt)
    && sn.row.attempts <= |LogOf(s, sn.id).failures|
  }

  ghost predicate TickOk(s: Sys, t: Tick) {
    && t.startedAt <= t.selectedAt <= s.now
    && t.sinceAt <= s.now
    && (forall i :: 0 <= i < |t.todo| ==> SnapOk(s, t, t.todo[i]))
    && (t.phase == Starting ==> t.todo == [])
    && (t.phase.Holding() ==> t.todo != [] && t.selectedAt <= t.lockedAt <= s.now)
    && (t.phase.Returned? || t.phase.Raised? ==> t.lockedAt <= t.sinceAt)
  }

  /** The retry time the last failure write left behind. */
  ghost predicate RetryOk(row: Row, failures: seq<Time>) {
    if failures == [] then row.attempts == 0 && row.nextRetryAt.None?
    else
      && row.attempts > 0
      && var delay := BackoffFor(row.attempts - 1);
         row.nextRetryAt == if delay.Some? then Some(failures[|failures| - 1] + delay.value) else None
  }

  ghost predicate Spaced(acquired: seq<Time>) {
    forall i, j :: 0 <= i < j < |acquired| ==> acquired[i] + LOCK_TTL <= acquired[j]
  }

  ghost predicate LeaseOk(s: Sys, r: RowId)
    requires r in s.log
  {
    var acquired := s.log[r].acquired;
    && Spaced(acquired)
    && (r in s.leases <==> acquired != [])
    && (acquired != [] ==> acquired[|acquired| - 1] <= s.now
                           && s.leases[r].expiresAt == acquired[|acquired| - 1] + LOCK_TTL)
  }

  ghost predicate RowOk(s: Sys, r: RowId) {
    && r in s.rows && r in s.log
    && RowCore(s.rows[r], s.log[r], s.now)
    && s.log[r].oks == s.log[r].lost + s.log[r].commits + |InFlight(s, r)|
    && LeaseOk(s, r)
  }

  ghost predicate Inv(s: Sys) {
    && s.rows.Keys == s.log.Keys
    && s.leases.Keys <= s.rows.Keys
    && (forall r :: r in s.rows ==> RowOk(s, r))
    && (forall k :: k in s.ticks ==> TickOk(s, s.ticks[k]))
  }

  /** The part of RowOk that does not look at ticks. */
  ghost predicate RowCore(row: Row, log: Log, now: Time) {
    && row.attempts <= |log.failures|
    && (forall i :: 0 <= i < |log.failures| ==> log.failures[i] <= now)
    && (row.deliveredAt.None? ==> RetryOk(row, log.failures) && log.commits == 0)
    && (row.deliveredAt.Some? ==> log.commits > 0 && row.deliveredAt.value <= now)
  }

  function Pending(t: Tick): nat {
    if t.phase == Returned then 1 else 0
  }

  /** `s'` differs from `s` in tick `k` and in what is known about row `r`, and nowhere else. */
  ghost predicate Updates(s: Sys, s': Sys, k: TickId, r: RowId) {
    && k in s.ticks && r in s.rows && r in s.log
    && s'.now == s.now
    && s'.ticks.Keys == s.ticks.Keys && s'.rows.Keys == s.rows.Keys && s'.log.Keys == s.log.Keys
    && s'.leases.Keys <= s.leases.Keys + {r} && s.leases.Keys <= s'.leases.Keys
    && (forall j :: j in s.ticks && j != k ==> s'.ticks[j] == s.ticks[j])
    && (forall q :: q in s.rows && q != r ==> s'.rows[q] == s.rows[q])
    && (forall q :: q in s.log && q != r ==> s'.log[q] == s.log[q])
    && (forall q :: q in s.leases && q != r ==> s'.leases[q] == s.leases[q])
  }

  /** Pending delivered-commits as a function of the ticks alone. */
  lemma {:induction false} InFlightUpdate(s: Sys, s': Sys, k: TickId, r: RowId)
    requires Updates(s, s', k, r)
    requires s.ticks[k].todo != [] && s.ticks[k].todo[0].id == r
    requires s'.ticks[k].phase == Returned ==> s'.ticks[k].todo == s.ticks[k].todo
    ensures |InFlight(s', r)| + Pending(s.ticks[k]) == |InFlight(s, r)| + Pending(s'.ticks[k])
  {
    var before, after := InFlight(s, r), InFlight(s', r);
    assert before - {k} == after - {k} by {
      forall j | j != k ensures j in before <==> j in after {}
    }
    assert k in before <==> Pending(s.ticks[k]) == 1;
    assert k in after <==> Pending(s'.ticks[k]) == 1;
    Without(before, k);
    Without(after, k);
  }

  lemma {:induction false} Without(ks: set<TickId>, k: TickId)
    ensures |ks| == |ks - {k}| + (if k in ks then 1 else 0)
  {
    if k in ks {
      assert ks == ks - {k} + {k};
    } else {
      assert ks == ks - {k};
    }
  }

  lemma {:induction false} InFlightElsewhere(s: Sys, s': Sys, k: TickId, r: RowId, q: RowId)
    requires Updates(s, s', k, r) && q != r
    requires s.ticks[k].todo != [] && s.ticks[k].todo[0].id == r
    requires s'.ticks[k].phase == Returned ==> s'.ticks[k].todo == s.ticks[k].todo
    ensures InFlight(s', q) == InFlight(s, q)
  {
    forall j ensures j in InFlight(s', q) <==> j in InFlight(s, q) {
      if j != k {} 
    }
  }

  lemma {:induction false} UpdateRows(s: Sys, s': Sys, k: TickId, r: RowId, q: RowId)
    requires Updates(s, s', k, r) && q != r && q in s.rows && RowOk(s, q)
    requires InFlight(s', q) == InFlight(s, q)
    ensures RowOk(s', q)
  {
    assert s'.rows[q] == s.rows[q] && s'.log[q] == s.log[q];
    assert q in s'.leases <==> q in s.leases;
  }

  lemma {:induction false} UpdateTicks(s: Sys, s': Sys, k: TickId, r: RowId)
    requires Updates(s, s', k, r)
    requires |s.log[r].failures| <= |s'.log[r].failures|
    requires forall j :: j in s.ticks ==> TickOk(s, s.ticks[j])
    requires TickOk(s', s'.ticks[k])
    ensures forall j :: j in s'.ticks ==> TickOk(s', s'.ticks[j])
  {
    forall j | j in s'.ticks ensures TickOk(s', s'.ticks[j]) {
      if j != k {
        TickFrame(s, s', s.ticks[j]);
      }
    }
  }

  /** Every event of a tick about the row at the head of its batch has this shape. */
  lemma {:induction false} UpdateKeepsInv(s: Sys, s': Sys, k: TickId, r: RowId)
    requires Inv(s) && Updates(s, s', k, r)
    requires s.ticks[k].todo != [] && s.ticks[k].todo[0].id == r
    requires s'.ticks[k].phase == Returned ==> s'.ticks[k].todo == s.ticks[k].todo
    requires |s.log[r].failures| <= |s'.log[r].failures|
    requires TickOk(s', s'.ticks[k])
    requires RowCore(s'.rows[r], s'.log[r], s.now) && LeaseOk(s', r)
    requires s'.log[r].oks - s'.log[r].lost - s'.log[r].commits - Pending(s'.ticks[k])
          == s.log[r].oks - s.log[r].lost - s.log[r].commits - Pending(s.ticks[k])
    ensures Inv(s')
  {
    UpdateTicks(s, s', k, r);
    InFlightUpdate(s, s', k, r);
    forall q | q in s'.rows ensures RowOk(s', q) {
      assert RowOk(s, q);
      if q != r {
        InFlightElsewhere(s, s', k, r, q);
        UpdateRows(s, s', k, r, q);
      }
    }
  }

  /** A tick that does not move stays well-formed while rows and histories grow. */
  lemma {:induction false} TickFrame(s: Sys, s': Sys, t: Tick)
    requires TickOk(s, t) && s.now <= s'.now
    requires forall r :: r in s.rows ==> r in s'.rows && |LogOf(s, r).failures| <= |LogOf(s', r).failures|
    ensures TickOk(s', t)
  {
    forall i | 0 <= i < |t.todo| ensures SnapOk(s', t, t.todo[i]) {
      assert SnapOk(s, t, t.todo[i]);
    }
  }

  /** The head of a batch that is not yet processed is a row of the table. */
  lemma {:induction false} Head(s: Sys, k: TickId)
    requires Inv(s) && k in s.ticks && s.ticks[k].todo != []
    ensures var r := s.ticks[k].todo[0].id;
            && r in s.rows && r in s.log && RowOk(s, r) && RowCore(s.rows[r], s.log[r], s.now)
            && TickOk(s, s.ticks[k]) && SnapOk(s, s.ticks[k], s.ticks[k].todo[0])
  {
    assert TickOk(s, s.ticks[k]);
    assert SnapOk(s, s.ticks[k], s.ticks[k].todo[0]);
  }

  predicate AboutHead(e: Event) {
    e.TryLock? || e.DispatchOk? || e.DispatchFail? || e.CommitDelivered? || e.CommitError? || e.RecordFailure?
  }

  lemma {:induction false} HeadEventUpdates(s: Sys, e: Event)
    requires Enabled(s, e) && (AboutHead(e) || (e.Crash? && InPhase(s, e.tick, Returned)))
    requires s.ticks[e.tick].todo[0].id in s.rows && s.rows.Keys == s.log.Keys
    ensures Updates(s, Apply(s, e), e.tick, s.ticks[e.tick].todo[0].id)
  {
  }

  /** The tick after an event: it keeps its batch or drops the head of it. */
  lemma {:induction false} TickMoves(s: Sys, t: Tick, t': Tick)
    requires TickOk(s, t)
    requires t'.startedAt == t.startedAt && t'.selectedAt == t.selectedAt && t.phase != Starting
    requires t'.todo == t.todo || (t.todo != [] && t'.todo == t.todo[1..] && t'.phase == Looping)
    requires t'.phase != Starting && t'.sinceAt <= s.now
    requires t'.phase.Holding() ==> t'.todo != [] && t.selectedAt <= t'.lockedAt <= s.now
    requires t'.phase.Returned? || t'.phase.Raised? ==> t'.lockedAt <= t'.sinceAt
    ensures TickOk(s, t')
  {
    forall i | 0 <= i < |t'.todo| ensures SnapOk(s, t', t'.todo[i]) {
      var j := if t'.todo == t.todo then i else i + 1;
      assert SnapOk(s, t, t.todo[j]);
    }
  }

  lemma {:induction false} HeadEventTick(s: Sys, e: Event)
    requires Enabled(s, e) && (AboutHead(e) || (e.Crash? && InPhase(s, e.tick, Returned)))
    requires s.ticks[e.tick].todo[0].id in s.rows && s.rows.Keys == s.log.Keys
    requires TickOk(s, s.ticks[e.tick])
    ensures TickOk(Apply(s, e), Apply(s, e).ticks[e.tick])
  {
    var s', k := Apply(s, e), e.tick;
    HeadEventUpdates(s, e);
    TickFrame(s, s', s.ticks[k]);
    TickMoves(s', s.ticks[k], s'.ticks[k]);
  }

  lemma {:induction false} LeaseKept(s: Sys, s': Sys, r: RowId)
    requires r in s.log && r in s'.log && s'.log[r].acquired == s.log[r].acquired
    requires s'.leases == s.leases && s'.now == s.now && LeaseOk(s, r)
    ensures LeaseOk(s', r)
  {
  }

  /** A lease is only ever granted once the previous one of the row has expired. */
  lemma {:induction false} LeaseGranted(s: Sys, k: TickId)
    requires Inv(s) && Enabled(s, TryLock(k)) && s.ticks[k].todo[0].id in s.log
    requires LeaseFree(s, s.ticks[k].todo[0].id) && LeaseOk(s, s.ticks[k].todo[0].id)
    ensures LeaseOk(Apply(s, TryLock(k)), s.ticks[k].todo[0].id)
  {
    var s', r := Apply(s, TryLock(k)), s.ticks[k].todo[0].id;
    assert s'.log[r].acquired == s.log[r].acquired + [s.now];
  }

  /** The failure write, computed from a detached row that may be stale. */
  lemma {:induction false} FailureRow(current: Row, detached: Row, log: Log, stamp: Time, now: Time)
    requires RowCore(current, log, now) && detached.attempts <= |log.failures| && stamp <= now
    ensures RowCore(AfterFailure(current, detached, stamp), log.(failures := log.failures + [stamp]), now)
  {
  }

  lemma {:induction false} HeadEventRow(s: Sys, e: Event)
    requires Enabled(s, e) && (AboutHead(e) || (e.Crash? && InPhase(s, e.tick, Returned)))
    requires var r := s.ticks[e.tick].todo[0].id;
             && r in s.rows && r in s.log && RowCore(s.rows[r], s.log[r], s.now)
             && SnapOk(s, s.ticks[e.tick], s.ticks[e.tick].todo[0])
    ensures var s', r := Apply(s, e), s.ticks[e.tick].todo[0].id;
            && r in s'.rows && r in s'.log
            && RowCore(s'.rows[r], s'.log[r], s.now)
            && |s.log[r].failures| <= |s'.log[r].failures|
            && s'.log[r].oks - s'.log[r].lost - s'.log[r].commits - Pending(s'.ticks[e.tick])
            == s.log[r].oks - s.log[r].lost - s.log[r].commits - Pending(s.ticks[e.tick])
  {
    var r := s.ticks[e.tick].todo[0].id;
    if e.RecordFailure? {
      FailureRow(s.rows[r], s.ticks[e.tick].todo[0].row, s.log[r], e.stamp, s.now);
    }
  }

  lemma {:induction false} HeadEventInv(s: Sys, e: Event)
    requires Inv(s) && Enabled(s, e) && (AboutHead(e) || (e.Crash? && InPhase(s, e.tick, Returned)))
    ensures Inv(Apply(s, e))
  {
    var s', k := Apply(s, e), e.tick;
    Head(s, k);
    var r := s.ticks[k].todo[0].id;
    HeadEventUpdates(s, e);
    HeadEventTick(s, e);
    HeadEventRow(s, e);
    if e.TryLock? && LeaseFree(s, r) {
      LeaseGranted(s, k);
    } else {
      LeaseKept(s, s', r);
    }
    UpdateKeepsInv(s, s', k, r);
  }

  /** Events that move one tick and leave rows, leases and histories alone. */
  lemma {:induction false} TickOnly(s: Sys, s': Sys, k: TickId)
    requires Inv(s) && s'.rows == s.rows && s'.leases == s.leases && s'.log == s.log && s'.now == s.now
    requires k in s'.ticks && s'.ticks == s.ticks[k := s'.ticks[k]] && TickOk(s', s'.ticks[k])
    requires s'.ticks[k].phase != Returned && (k in s.ticks ==> s.ticks[k].phase != Returned)
    ensures Inv(s')
  {
    forall r ensures InFlight(s', r) == InFlight(s, r) {}
    forall r | r in s'.rows ensures RowOk(s', r) {
      assert RowOk(s, r);
    }
    forall j | j in s'.ticks ensures TickOk(s', s'.ticks[j]) {
      if j != k {
        TickFrame(s, s', s.ticks[j]);
      }
    }
  }

  lemma {:induction false} SelectTick(s: Sys, k: TickId, batch: seq<RowId>)
    requires Inv(s) && Enabled(s, Select(k, batch))
    ensures TickOk(Apply(s, Select(k, batch)), Apply(s, Select(k, batch)).ticks[k])
  {
    var s' := Apply(s, Select(k, batch));
    var t := s'.ticks[k];
    assert TickOk(s, s.ticks[k]);
    forall i | 0 <= i < |t.todo| ensures SnapOk(s', t, t.todo[i]) {
      var r := batch[i];
      assert r in batch;
      assert RowCore(s.rows[r], s.log[r], s.now) by { assert RowOk(s, r); }
      assert t.todo[i] == Snap(r, s.rows[r]);
    }
  }

  lemma {:induction false} CrashTick(s: Sys, k: TickId)
    requires Inv(s) && Enabled(s, Crash(k)) && s.ticks[k].phase != Returned
    ensures Inv(Apply(s, Crash(k)))
  {
    var s' := Apply(s, Crash(k));
    TickFrame(s, s', s.ticks[k]);
    TickOnly(s, s', k);
  }

  lemma {:induction false} UnknownRowIdle(s: Sys, r: RowId)
    requires Inv(s) && r !in s.rows
    ensures InFlight(s, r) == {}
  {
    forall k | k in s.ticks ensures k !in InFlight(s, r) {
      assert TickOk(s, s.ticks[k]);
      if s.ticks[k].todo != [] {
        assert SnapOk(s, s.ticks[k], s.ticks[k].todo[0]);
      }
    }
  }

  lemma {:induction false} InsertInv(s: Sys, r: RowId)
    requires Inv(s) && Enabled(s, Insert(r))
    ensures Inv(Apply(s, Insert(r)))
  {
    var s' := Apply(s, Insert(r));
    forall q ensures InFlight(s', q) == InFlight(s, q) {}
    forall k | k in s.ticks ensures TickOk(s', s'.ticks[k]) {
      TickFrame(s, s', s.ticks[k]);
    }
    UnknownRowIdle(s, r);
    forall q | q in s'.rows ensures RowOk(s', q) {
      if q != r {
        assert RowOk(s, q);
        InsertRow(s, r, q);
      }
    }
  }

  lemma {:induction false} InsertRow(s: Sys, r: RowId, q: RowId)
    requires Enabled(s, Insert(r)) && q in s.rows && RowOk(s, q)
    requires InFlight(Apply(s, Insert(r)), q) == InFlight(s, q)
    ensures RowOk(Apply(s, Insert(r)), q)
  {
  }

  lemma {:induction false} AdvanceInv(s: Sys, t: Time)
    requires Inv(s) && s.now <= t
    ensures Inv(Apply(s, Advance(t)))
  {
    var s' := Apply(s, Advance(t));
    forall k | k in s'.ticks ensures TickOk(s', s'.ticks[k]) {
      TickFrame(s, s', s.ticks[k]);
    }
    forall r | r in s'.rows ensures RowOk(s', r) {
      assert RowOk(s, r);
      assert InFlight(s', r) == InFlight(s, r);
    }
  }

  lemma {:induction false} InvStep(s: Sys, e: Event)
    requires Inv(s) && Enabled(s, e)
    ensures Inv(Apply(s, e))
  {
    match e
    case Insert(r) => InsertInv(s, r);
    case Advance(t) => AdvanceInv(s, t);
    case Start(k) => TickOnly(s, Apply(s, e), k);
    case Select(k, batch) =>
      SelectTick(s, k, batch);
      TickOnly(s, Apply(s, e), k);
    case Finish(k) =>
      TickFrame(s, Apply(s, e), s.ticks[k]);
      TickOnly(s, Apply(s, e), k);
    case Crash(k) =>
      if s.ticks[k].phase == Returned {
        assert TickOk(s, s.ticks[k]);
        Head(s, k);
        HeadEventInv(s, e);
      } else {
        CrashTick(s, k);
      }
    case _ => HeadEventInv(s, e);
  }

  /** Every reachable state satisfies the invariant. */
  lemma {:induction false} InvRun(s: Sys, es: seq<Event>)
    requires Inv(s) && Run(s, es)
    ensures Inv(After(s, es))
    decreases |es|
  {
    if es != [] {
      InvStep(s, es[0]);
      InvRun(Apply(s, es[0]), es[1..]);
    }
  }

  /** Every state a fresh dispatcher can reach. */
  lemma {:induction false} Reachable(start: Time, es: seq<Event>)
    requires Run(Initial(start), es)
    ensures Inv(After(Initial(start), es))
  {
    InvRun(Initial(start), es);
  }

  /** n leases later at least n time-to-lives have passed. */
  lemma {:induction false} LeasesFarApart(acquired: seq<Time>, i: nat, j: nat)
    requires Spaced(acquired) && i <= j < |acquired|
    ensures acquired[i] + LOCK_TTL * (j - i) <= acquired[j]
  {
    if i < j {
      LeasesFarApart(acquired, i, j - 1);
    }
  }

  /**
   Lease spacing, stale attempts, and conservation of dispatches: a dispatch that returned is
   committed, lost, or still pending, never anything else.
   */
  lemma {:induction false} RunSafety(start: Time, es: seq<Event>, r: RowId)
    requires Run(Initial(start), es) && r in After(Initial(start), es).rows
    ensures var s := After(Initial(start), es);
            && r in s.log
            && (forall i, j :: 0 <= i < j < |s.log[r].acquired| ==>
                  s.log[r].acquired[i] + LOCK_TTL * (j - i) <= s.log[r].acquired[j])
            && s.rows[r].attempts <= |s.log[r].failures|
            && s.log[r].oks == s.log[r].lost + s.log[r].commits + |InFlight(s, r)|
            && (s.rows[r].deliveredAt.Some? <==> s.log[r].commits > 0)
            && (s.rows[r].deliveredAt.Some? ==> s.log[r].oks > 0)
  {
    Reachable(start, es);
    var s := After(Initial(start), es);
    assert RowOk(s, r);
    forall i, j | 0 <= i < j < |s.log[r].acquired|
      ensures s.log[r].acquired[i] + LOCK_TTL * (j - i) <= s.log[r].acquired[j]
    {
      LeasesFarApart(s.log[r].acquired, i, j);
    }
  }

  /** Once set, delivered_at is never cleared, whatever stale tick writes afterwards. */
  lemma {:induction false} DeliveredStays(s: Sys, es: seq<Event>, r: RowId)
    requires Run(s, es) && r in s.rows && s.rows[r].deliveredAt.Some?
    ensures r in After(s, es).rows && After(s, es).rows[r].deliveredAt.Some?
    decreases |es|
  {
    if es != [] {
      DeliveredStays(Apply(s, es[0]), es[1..], r);
    }
  }

  /**
   No undelivered row is parked: it is due now, or it comes due within 24 hours of its last failure.
   A row whose schedule is used up carries NULL and is due at once, although the comment in the
   source says the dispatcher gives up.
   */
  lemma {:induction false} NeverStranded(start: Time, es: seq<Event>, r: RowId)
    requires Run(Initial(start), es) && r in After(Initial(start), es).rows
    requires After(Initial(start), es).rows[r].deliveredAt.None?
    ensures var s := After(Initial(start), es);
            && r in s.log
            && (Due(s.rows[r], s.now)
                || (s.log[r].failures != []
                    && s.rows[r].nextRetryAt.Some?
                    && s.now < s.rows[r].nextRetryAt.value <= s.log[r].failures[|s.log[r].failures| - 1] + DAY))
            && (s.rows[r].attempts == 0 || s.rows[r].attempts > MAX_ATTEMPTS ==> Due(s.rows[r], s.now))
  {
    Reachable(start, es);
    assert RowOk(After(Initial(start), es), r);
  }
}
