/**
 The drain loop itself, in its own imperative form, running among any number of other ticks.
 Between two of its atomic steps the environment may perform any enabled steps of other ticks.
 */
module OutboxWorker {
  import opened Prelude
  import opened OutboxMachine
  import opened OutboxUntimed
  import opened OutboxLiveness

  /** What becomes of one awaited call; chosen by the outside world. */
  datatype Luck = Goes | Raises | Dies

  /** The awaited calls made for one row of the batch: SET NX, handler, delivered-commit, failure-commit. */
  datatype Fate = Fate(lock: Luck, handler: Luck, delivery: Luck, failure: Luck)

  /** SET NX succeeded, found the key set, or raised. */
  datatype Lock = Ours | Taken | Broken

  /** The delivery of a leased row is committed. */
  predicate Delivers(fate: Fate) {
    fate.handler == Goes && fate.delivery == Goes
  }

  /** The try block raises: the handler does, or the delivered-commit after it. */
  predicate Fails(fate: Fate) {
    fate.handler == Raises || (fate.handler == Goes && fate.delivery == Raises)
  }

  /** A leased row ends the tick: a call that is reached dies, or the failure-commit that is reached does not go through. */
  predicate Fatal(fate: Fate) {
    !Delivers(fate) && !(Fails(fate) && fate.failure == Goes)
  }

  predicate EndsTick(lock: Lock, fate: Fate) {
    lock == Broken || (lock == Ours && Fatal(fate))
  }

  /** What the first rows of the batch count for, by what became of their locks and calls. */
  function CountersOf(locks: seq<Lock>, fates: nat -> Fate): (c: Counters)
    ensures c.delivered + c.failed + c.skipped == |locks|
  {
    if locks == [] then Counters(0, 0, 0)
    else
      var i := |locks| - 1;
      Counted(CountersOf(locks[..i], fates), locks[i], fates(i))
  }

  /** Every lock so far was answered as its fate says, and no row ended the tick. */
  ghost predicate Lived(locks: seq<Lock>, fates: nat -> Fate) {
    forall j: nat :: j < |locks| ==> (locks[j] == Broken <==> fates(j).lock != Goes) && !EndsTick(locks[j], fates(j))
  }

  lemma {:induction false} LivedNext(locks: seq<Lock>, lock: Lock, fates: nat -> Fate)
    requires Lived(locks, fates) && (lock == Broken <==> fates(|locks|).lock != Goes)
    ensures var all := locks + [lock];
            && (forall j: nat :: j < |all| ==> (all[j] == Broken <==> fates(j).lock != Goes))
            && (EndsTick(lock, fates(|locks|)) <==> exists j: nat :: j < |all| && EndsTick(all[j], fates(j)))
            && (!EndsTick(lock, fates(|locks|)) <==> Lived(all, fates))
  {
    var all := locks + [lock];
    assert all[|locks|] == lock;
  }

  lemma {:induction false} CountersNext(locks: seq<Lock>, lock: Lock, fates: nat -> Fate)
    ensures CountersOf(locks + [lock], fates) == Counted(CountersOf(locks, fates), lock, fates(|locks|))
  {
    assert (locks + [lock])[..|locks|] == locks;
  }

  function Counted(c: Counters, lock: Lock, fate: Fate): Counters {
    if lock != Ours then c.(skipped := c.skipped + 1)
    else if Delivers(fate) then c.(delivered := c.delivered + 1)
    else c.(failed := c.failed + 1)
  }

  datatype Counters = Counters(delivered: nat, failed: nat, skipped: nat)

  datatype Outcome = Finished(counters: Counters) | Died

  predicate OwnedBy(e: Event, k: TickId) {
    !e.Insert? && !e.Advance? && e.tick == k
  }

  /** The events of tick `k` that its counters report. */
  ghost function Tally(es: seq<Event>, k: TickId): (c: Counters)
    decreases |es|
  {
    if es == [] then Counters(0, 0, 0)
    else
      var c, e := Tally(es[..|es| - 1], k), es[|es| - 1];
      if !OwnedBy(e, k) then c
      else if e.CommitDelivered? then c.(delivered := c.delivered + 1)
      else if e.RecordFailure? then c.(failed := c.failed + 1)
      else c
  }

  lemma {:induction false} TallySnoc(es: seq<Event>, e: Event, k: TickId)
    ensures Tally(es + [e], k) ==
            var c := Tally(es, k);
            if OwnedBy(e, k) && e.CommitDelivered? then c.(delivered := c.delivered + 1)
            else if OwnedBy(e, k) && e.RecordFailure? then c.(failed := c.failed + 1)
            else c
  {
    assert (es + [e])[..|es + [e]| - 1] == es;
  }

  /** A tick that is not there has not done anything. */
  lemma {:induction false} NotThereYet(s: Sys, es: seq<Event>, k: TickId)
    requires Run(s, es) && k !in After(s, es).ticks
    ensures k !in s.ticks && forall i :: 0 <= i < |es| ==> !OwnedBy(es[i], k)
    decreases |es|
  {
    if es != [] {
      NotThereYet(Apply(s, es[0]), es[1..], k);
      StartsInTicks(s, es[0], k);
      forall i | 0 <= i < |es| ensures !OwnedBy(es[i], k) {
        assert i > 0 ==> es[i] == es[1..][i - 1];
      }
    }
  }

  lemma {:induction false} StartsInTicks(s: Sys, e: Event, k: TickId)
    requires Enabled(s, e) && k !in Apply(s, e).ticks
    ensures k !in s.ticks && !OwnedBy(e, k)
  {
  }

  lemma {:induction false} NothingTallied(es: seq<Event>, k: TickId)
    requires forall i :: 0 <= i < |es| ==> !OwnedBy(es[i], k)
    ensures Tally(es, k) == Counters(0, 0, 0)
  {
    if es != [] {
      NothingTallied(es[..|es| - 1], k);
    }
  }

  lemma {:induction false} Unheard(start: Time, es: seq<Event>, k: TickId)
    requires Run(Initial(start), es) && k !in After(Initial(start), es).ticks
    ensures Tally(es, k) == Counters(0, 0, 0)
  {
    NotThereYet(Initial(start), es, k);
    NothingTallied(es, k);
  }

  /** How the database picks the rows of an unordered, limited SELECT. */
  type Chooser = (map<RowId, Row>, Time) -> seq<RowId>

  ghost predicate Chooses(database: Chooser) {
    forall rows, now :: Selectable(rows, database(rows, now), now)
  }

  /** There is such a database. */
  lemma {:induction false} SomeChooser()
    ensures exists database :: Chooses(database)
  {
    ghost var database: Chooser := (rows, now) => Pick(rows, now);
    assert Chooses(database);
  }

  ghost function Pick(rows: map<RowId, Row>, now: Time): (batch: seq<RowId>)
    ensures Selectable(rows, batch, now)
  {
    SomeBatch(rows, now);
    var batch :| Selectable(rows, batch, now);
    batch
  }

  lemma {:induction false} SomeBatch(rows: map<RowId, Row>, now: Time)
    ensures exists batch :: Selectable(rows, batch, now)
  {
    if r :| r in rows && Due(rows[r], now) {
      var batch := BatchWithFirst(rows, r, now);
    } else {
      assert Selectable(rows, [], now);
    }
  }

  /** The row has just been marked delivered. */
  predicate MarkedDelivered(s: Sys, r: RowId) {
    r in s.rows && s.rows[r].deliveredAt == Some(s.now) && s.rows[r].nextRetryAt == None
  }

  /** A failure has just been recorded, by the values of the detached row. */
  predicate FailureRecorded(s: Sys, sn: Snap) {
    && sn.id in s.rows && sn.id in s.log && s.log[sn.id].failures != []
    && s.log[sn.id].failures[|s.log[sn.id].failures| - 1] == s.now
    && s.rows[sn.id].attempts == sn.row.attempts + 1
    && s.rows[sn.id].nextRetryAt ==
         if sn.row.attempts < 6 then Some(s.now + BackoffFor(sn.row.attempts).value) else None
  }

  /** Nobody touches another tick's program counter or batch. */
  lemma {:induction false} OthersStep(s: Sys, e: Event, me: TickId)
    requires Enabled(s, e) && !OwnedBy(e, me)
    ensures var s' := Apply(s, e);
            && s.now <= s'.now
            && (me in s'.ticks <==> me in s.ticks)
            && (me in s.ticks ==> s'.ticks[me] == s.ticks[me])
  {
  }

  /** In a reachable state the head of a batch is a row of the table. */
  lemma {:induction false} HeadInTable(start: Time, es: seq<Event>, me: TickId)
    requires Run(Initial(start), es)
    ensures var s := After(Initial(start), es);
            me in s.ticks ==>
              && s.ticks[me].startedAt <= s.now && s.ticks[me].sinceAt <= s.now
              && (s.ticks[me].todo != [] ==> s.ticks[me].todo[0].id in s.rows)
  {
    Reachable(start, es);
    var s := After(Initial(start), es);
    if me in s.ticks {
      assert TickOk(s, s.ticks[me]);
      if s.ticks[me].todo != [] {
        Head(s, me);
      }
    }
  }

  class Cluster {
    var s: Sys
    ghost var trace: seq<Event>
    ghost const start: Time

    /** The cluster's state is what its trace leads to. */
    ghost predicate Valid()
      reads this
    {
      && Run(Initial(start), trace)
      && After(Initial(start), trace) == s
    }

    constructor (now: Time)
      ensures Valid() && s == Initial(now) && trace == []
    {
      s := Sys(now, map[], map[], map[], map[]);
      start := now;
      trace := [];
    }

    /** One atomic step of anybody. */
    method Fire(e: Event)
      requires Valid() && Enabled(s, e)
      modifies this
      ensures Valid() && s == Apply(old(s), e) && trace == old(trace) + [e]
    {
      RunConcat(Initial(start), trace, [e]);
      assert Run(s, [e]) && After(s, [e]) == Apply(s, e);
      trace := trace + [e];
      s := Apply(s, e);
    }

    /** A burst of steps by everybody but tick `me`; steps that are not enabled do not happen. */
    method Others(es: seq<Event>, me: TickId)
      requires Valid()
      modifies this
      ensures Valid() && old(s.now) <= s.now
      ensures me in s.ticks <==> me in old(s.ticks)
      ensures me in s.ticks ==> s.ticks[me] == old(s.ticks)[me]
      ensures old(trace) <= trace && Tally(trace, me) == Tally(old(trace), me)
      ensures forall i :: |old(trace)| <= i < |trace| ==> !OwnedBy(trace[i], me)
    {
      for i := 0 to |es|
        invariant Valid() && old(s.now) <= s.now
        invariant me in s.ticks <==> me in old(s.ticks)
        invariant me in s.ticks ==> s.ticks[me] == old(s.ticks)[me]
        invariant old(trace) <= trace && Tally(trace, me) == Tally(old(trace), me)
        invariant forall i :: |old(trace)| <= i < |trace| ==> !OwnedBy(trace[i], me)
      {
        if !OwnedBy(es[i], me) && Enabled(s, es[i]) {
          TallySnoc(trace, es[i], me);
          OthersStep(s, es[i], me);
          Fire(es[i]);
        }
      }
    }

    /** SET key value NX EX 30 for the row at the head of the batch. */
    method AcquireLock(me: TickId) returns (acquired: bool)
      requires Valid() && Enabled(s, TryLock(me))
      modifies this
      ensures Valid() && s == Apply(old(s), TryLock(me)) && trace == old(trace) + [TryLock(me)]
      ensures acquired <==> InPhase(s, me, Dispatching)
      ensures acquired <==> LeaseFree(old(s), old(s).ticks[me].todo[0].id)
      ensures acquired ==> s.leases[old(s).ticks[me].todo[0].id] == Lease(me, s.now + 30 * SECOND)
      ensures !acquired ==> s.leases == old(s).leases && s.ticks[me].phase == Looping
                            && s.ticks[me].todo == old(s).ticks[me].todo[1..]
    {
      HeadInTable(start, trace, me);
      acquired := LeaseFree(s, s.ticks[me].todo[0].id);
      Fire(TryLock(me));
    }

    /** Fire, with the bookkeeping of tick `me`'s own counters. */
    method Step(e: Event, me: TickId)
      requires Valid() && Enabled(s, e)
      modifies this
      ensures Valid() && s == Apply(old(s), e) && trace == old(trace) + [e]
      ensures var c := Tally(old(trace), me);
              Tally(trace, me) == if OwnedBy(e, me) && e.CommitDelivered? then c.(delivered := c.delivered + 1)
                                  else if OwnedBy(e, me) && e.RecordFailure? then c.(failed := c.failed + 1)
                                  else c
    {
      TallySnoc(trace, e, me);
      Fire(e);
    }

    /** The try block: run the handler, then commit the delivery in a transaction of its own. */
    method TryDeliver(me: TickId, fate: Fate, others: nat -> seq<Event>) returns (end: Luck)
      requires Valid() && InPhase(s, me, Dispatching)
      modifies this
      ensures Valid() && me in s.ticks && old(trace) <= trace
      ensures end == if fate.handler == Goes then fate.delivery else fate.handler
      ensures end == Goes ==> MarkedDelivered(s, old(s).ticks[me].todo[0].id)
      ensures match end
              case Goes => s.ticks[me].phase == Looping && s.ticks[me].todo == old(s).ticks[me].todo[1..]
              case Raises => s.ticks[me].phase == Raised && s.ticks[me].todo == old(s).ticks[me].todo
              case Dies => s.ticks[me].phase == Stopped
      ensures var c := Tally(old(trace), me);
              Tally(trace, me) == if end == Goes then c.(delivered := c.delivered + 1) else c
    {
      Others(others(1), me);
      HeadInTable(start, trace, me);
      if fate.handler == Dies {
        Step(Crash(me), me);
        return Dies;
      }
      if fate.handler == Raises {
        Step(DispatchFail(me), me);
        return Raises;
      }
      Step(DispatchOk(me), me);
      end := Commit(me, fate, others);
    }

    method Commit(me: TickId, fate: Fate, others: nat -> seq<Event>) returns (end: Luck)
      requires Valid() && InPhase(s, me, Returned)
      modifies this
      ensures Valid() && me in s.ticks && old(trace) <= trace && end == fate.delivery
      ensures end == Goes ==> MarkedDelivered(s, old(s).ticks[me].todo[0].id)
      ensures match end
              case Goes => s.ticks[me].phase == Looping && s.ticks[me].todo == old(s).ticks[me].todo[1..]
              case Raises => s.ticks[me].phase == Raised && s.ticks[me].todo == old(s).ticks[me].todo
              case Dies => s.ticks[me].phase == Stopped
      ensures var c := Tally(old(trace), me);
              Tally(trace, me) == if end == Goes then c.(delivered := c.delivered + 1) else c
    {
      Others(others(2), me);
      HeadInTable(start, trace, me);
      end := fate.delivery;
      match end
      case Goes => Step(CommitDelivered(me, s.now), me);
      case Raises => Step(CommitError(me), me);
      case Dies => Step(Crash(me), me);
    }

    /** The except branch: record the failure, computed from the detached row. */
    method HandleFailure(me: TickId, fate: Fate, others: nat -> seq<Event>) returns (recorded: bool)
      requires Valid() && InPhase(s, me, Raised)
      modifies this
      ensures Valid() && me in s.ticks && old(trace) <= trace
      ensures recorded <==> fate.failure == Goes
      ensures recorded ==> s.ticks[me].phase == Looping && s.ticks[me].todo == old(s).ticks[me].todo[1..]
      ensures recorded ==> FailureRecorded(s, old(s).ticks[me].todo[0]) && trace[|trace| - 1] == RecordFailure(me, s.now)
      ensures !recorded ==> s.ticks[me].phase == Stopped
      ensures var c := Tally(old(trace), me);
              Tally(trace, me) == if recorded then c.(failed := c.failed + 1) else c
    {
      Others(others(3), me);
      HeadInTable(start, trace, me);
      recorded := fate.failure == Goes;
      if recorded {
        Step(RecordFailure(me, s.now), me);
      } else {
        // An error here is not caught inside the loop: the tick ends.
        Step(Crash(me), me);
      }
    }

    /** SET NX for the row at the head of the batch; awaited outside the try block, an error ends the tick. */
    method LockRow(me: TickId, fate: Fate, others: nat -> seq<Event>) returns (lock: Lock)
      requires Valid() && InPhase(s, me, Looping) && s.ticks[me].todo != []
      modifies this
      ensures Valid() && me in s.ticks && old(trace) <= trace && Tally(trace, me) == Tally(old(trace), me)
      ensures lock == Broken <==> fate.lock != Goes
      ensures match lock
              case Broken => s.ticks[me].phase == Stopped
              case Taken => InPhase(s, me, Looping) && s.ticks[me].todo == old(s).ticks[me].todo[1..]
              case Ours => InPhase(s, me, Dispatching) && s.ticks[me].todo == old(s).ticks[me].todo
    {
      Others(others(0), me);
      HeadInTable(start, trace, me);
      if fate.lock != Goes {
        Step(Crash(me), me);
        return Broken;
      }
      TallySnoc(trace, TryLock(me), me);
      var acquired := AcquireLock(me);
      lock := if acquired then Ours else Taken;
    }

    /** The loop body for one row of the batch. */
    method ProcessRow(me: TickId, fate: Fate, others: nat -> seq<Event>, c: Counters)
      returns (done: Outcome, ghost lock: Lock)
      requires Valid() && InPhase(s, me, Looping) && s.ticks[me].todo != []
      modifies this
      ensures Valid() && me in s.ticks && old(trace) <= trace
      ensures lock == Broken <==> fate.lock != Goes
      ensures done.Died? <==> EndsTick(lock, fate)
      ensures done.Died? <==> s.ticks[me].phase == Stopped
      ensures done.Finished? ==>
                && s.ticks[me].phase == Looping && s.ticks[me].todo == old(s).ticks[me].todo[1..]
                && done.counters == Counted(c, lock, fate)
                && Tally(trace, me).delivered + c.delivered == Tally(old(trace), me).delivered + done.counters.delivered
                && Tally(trace, me).failed + c.failed == Tally(old(trace), me).failed + done.counters.failed
      ensures lock == Ours && Delivers(fate) ==> MarkedDelivered(s, old(s).ticks[me].todo[0].id)
      ensures lock == Ours && Fails(fate) && fate.failure == Goes ==> FailureRecorded(s, old(s).ticks[me].todo[0])
    {
      var taken := LockRow(me, fate, others);
      lock := taken;
      if taken == Broken {
        return Died, lock;
      }
      if taken == Taken {
        return Finished(c.(skipped := c.skipped + 1)), lock;
      }
      var end := TryDeliver(me, fate, others);
      if end == Goes {
        return Finished(c.(delivered := c.delivered + 1)), lock;
      }
      if end == Dies {
        return Died, lock;
      }
      HeadInTable(start, trace, me);
      var recorded := HandleFailure(me, fate, others);
      if !recorded {
        return Died, lock;
      }
      done := Finished(c.(failed := c.failed + 1));
    }

    /** The SELECT of one beat tick: `now` is taken first, the database answers later, or not at all. */
    method SelectBatch(me: TickId, database: Chooser, answer: Luck, others: seq<Event>)
      returns (ghost selected: seq<RowId>)
      requires Valid() && me !in s.ticks && Chooses(database)
      modifies this
      ensures Valid() && old(trace) <= trace && me in s.ticks
      ensures answer == Goes ==> InPhase(s, me, Looping) && |s.ticks[me].todo| == |selected| <= BATCH_SIZE
      ensures answer == Goes ==> Select(me, selected) in trace
      ensures answer != Goes ==> s.ticks[me].phase == Stopped
      ensures Tally(trace, me) == Counters(0, 0, 0)
    {
      Unheard(start, trace, me);
      Step(Start(me), me);
      Others(others, me);
      if answer != Goes {
        Step(Crash(me), me);
        return [];
      }
      var batch := database(s.rows, s.ticks[me].startedAt);
      assert Selectable(s.rows, batch, s.ticks[me].startedAt);
      selected := batch;
      Step(Select(me, batch), me);
    }

    /** The for loop over the selected rows. */
    method Loop(me: TickId, fates: nat -> Fate, others: (nat, nat) -> seq<Event>)
      returns (outcome: Outcome, ghost locks: seq<Lock>)
      requires Valid() && InPhase(s, me, Looping)
      requires Tally(trace, me) == Counters(0, 0, 0)
      modifies this
      ensures Valid() && old(trace) <= trace && me in s.ticks
      ensures |locks| <= |old(s).ticks[me].todo|
      ensures forall i: nat :: i < |locks| ==> (locks[i] == Broken <==> fates(i).lock != Goes)
      ensures outcome.Died? <==> exists i: nat :: i < |locks| && EndsTick(locks[i], fates(i))
      ensures outcome.Died? ==> s.ticks[me].phase == Stopped
      ensures outcome.Finished? ==>
                && InPhase(s, me, Looping) && s.ticks[me].todo == []
                && |locks| == |old(s).ticks[me].todo|
                && outcome.counters == CountersOf(locks, fates)
                && outcome.counters.delivered == Tally(trace, me).delivered
                && outcome.counters.failed == Tally(trace, me).failed
    {
      var c := Counters(0, 0, 0);
      locks := [];
      var i: nat := 0;
      while s.ticks[me].todo != []
        invariant Valid() && InPhase(s, me, Looping) && old(trace) <= trace
        invariant |locks| == i && c == CountersOf(locks, fates)
        invariant c.delivered == Tally(trace, me).delivered && c.failed == Tally(trace, me).failed
        invariant i + |s.ticks[me].todo| == |old(s).ticks[me].todo|
        invariant Lived(locks, fates)
        decreases |s.ticks[me].todo|
      {
        ghost var lock;
        var done;
        done, lock := ProcessRow(me, fates(i), (j: nat) => others(i, j), c);
        CountersNext(locks, lock, fates);
        LivedNext(locks, lock, fates);
        locks := locks + [lock];
        if done.Died? {
          return Died, locks;
        }
        c := done.counters;
        i := i + 1;
      }
      outcome := Finished(c);
    }

    /**
     One beat tick.  `database` chooses the batch, `answer` says whether the SELECT returns, `fates` what
     becomes of each row, and `others(i, j)` what everybody else does before the j-th awaited call for row
     i.  Whatever they are, the tick is a run of the machine.  It finishes exactly if the SELECT answers and
     no row it gets to ends it, and then its counters say how many of the selected rows were delivered,
     failed, and were skipped because somebody else held the lease.
     */
    method DrainOnce(me: TickId, database: Chooser, answer: Luck, fates: nat -> Fate,
                     meanwhile: seq<Event>, others: (nat, nat) -> seq<Event>)
      returns (outcome: Outcome, ghost selected: seq<RowId>, ghost locks: seq<Lock>)
      requires Valid() && me !in s.ticks && Chooses(database)
      modifies this
      ensures Valid() && old(trace) <= trace
      ensures me in s.ticks && s.ticks[me].phase == Stopped
      ensures answer == Goes ==> Select(me, selected) in trace && |selected| <= 50 && |locks| <= |selected|
      ensures forall i: nat :: i < |locks| ==> (locks[i] == Broken <==> fates(i).lock != Goes)
      ensures outcome.Died? <==> answer != Goes || exists i: nat :: i < |locks| && EndsTick(locks[i], fates(i))
      ensures outcome.Finished? ==>
                && |locks| == |selected|
                && outcome.counters == CountersOf(locks, fates)
                && outcome.counters.delivered == Tally(trace, me).delivered
                && outcome.counters.failed == Tally(trace, me).failed
    {
      locks := [];
      selected := SelectBatch(me, database, answer, meanwhile);
      if answer != Goes {
        return Died, selected, locks;
      }
      outcome, locks := Loop(me, fates, others);
      if outcome.Finished? {
        Step(Finish(me), me);
      }
    }
  }
}
