/** The timing condition is exact: as soon as wait + work reaches the lease's time-to-live, it fails. */
module OutboxTight {
  import opened Prelude
  import opened OutboxMachine
  import opened OutboxUntimed
  import opened OutboxTimed

  /** One row is dispatched at most once, apart from dispatches whose commit was lost. */
  ghost predicate SafeRun(es: seq<Event>, wait: Time, work: Time) {
    TimelyRun(Initial(0), es, wait, work) ==>
      && Run(Initial(0), es)
      && var s := After(Initial(0), es);
         forall r :: r in s.rows ==> r in s.log && s.log[r].oks <= 1 + s.log[r].lost + |Overdue(s, r, work)|
  }

  /** The SELECT of the one pending row. */
  lemma {:induction false} SelectOne(s: Sys, k: TickId)
    requires s.rows == map[0 := NEW_ROW] && InPhase(s, k, Starting)
    ensures Enabled(s, Select(k, [0]))
    ensures Apply(s, Select(k, [0])) ==
            s.(ticks := s.ticks[k := s.ticks[k].(phase := Looping, selectedAt := s.now, todo := [Snap(0, NEW_ROW)])])
  {
    assert Snapshot(s.rows, [0]) == [Snap(0, NEW_ROW)];
  }

  /** Tick 0 selects the row, leases it and has its handler return, all at time 0. */
  function Dispatched(): (es: seq<Event>) {
    [Insert(0)] + [Start(0)] + [Select(0, [0])] + [TryLock(0)] + [DispatchOk(0)]
  }

  const HELD := Tick(Returned, 0, 0, [Snap(0, NEW_ROW)], 0, 0)

  lemma {:induction false} DispatchedRun(wait: Time, work: Time)
    requires 0 <= wait && 0 <= work
    ensures TimelyRun(Initial(0), Dispatched(), wait, work) && Run(Initial(0), Dispatched())
    ensures After(Initial(0), Dispatched()) ==
            Sys(0, map[0 := NEW_ROW], map[0 := Lease(0, LOCK_TTL)], map[0 := HELD], map[0 := Log([0], 1, 0, 0, [])])
  {
    var s := Initial(0);
    var es := [Insert(0)];
    assert [] + es == es;
    Extend(s, [], Insert(0), wait, work);
    Extend(s, es, Start(0), wait, work);
    es := es + [Start(0)];
    SelectOne(After(s, es), 0);
    Extend(s, es, Select(0, [0]), wait, work);
    es := es + [Select(0, [0])];
    assert After(s, es) ==
      Sys(0, map[0 := NEW_ROW], map[], map[0 := Tick(Looping, 0, 0, [Snap(0, NEW_ROW)], 0, 0)], map[0 := NEW_LOG]);
    Extend(s, es, TryLock(0), wait, work);
    es := es + [TryLock(0)];
    assert NEW_LOG.acquired + [0] == [0];
    assert After(s, es) ==
      Sys(0, map[0 := NEW_ROW], map[0 := Lease(0, LOCK_TTL)],
          map[0 := Tick(Dispatching, 0, 0, [Snap(0, NEW_ROW)], 0, 0)], map[0 := Log([0], 0, 0, 0, [])]);
    Extend(s, es, DispatchOk(0), wait, work);
  }

  /** Tick 1 selects the row at `at`, just before tick 0 commits its delivery. */
  function Overlap(at: Time): (es: seq<Event>) {
    Dispatched() + [Advance(at)] + [Start(1)] + [Select(1, [0])] + [CommitDelivered(0, at)]
  }

  lemma {:induction false} OverlapSelect(at: Time, wait: Time, work: Time)
    requires 0 <= at && 0 <= wait && 0 <= work
    ensures var es := Dispatched() + [Advance(at)] + [Start(1)] + [Select(1, [0])];
            && TimelyRun(Initial(0), es, wait, work) && Run(Initial(0), es)
            && After(Initial(0), es) ==
               Sys(at, map[0 := NEW_ROW], map[0 := Lease(0, LOCK_TTL)],
                   map[0 := HELD, 1 := Tick(Looping, at, at, [Snap(0, NEW_ROW)], at, at)], map[0 := Log([0], 1, 0, 0, [])])
  {
    DispatchedRun(wait, work);
    var s := Initial(0);
    var es := Dispatched();
    Extend(s, es, Advance(at), wait, work);
    es := es + [Advance(at)];
    Extend(s, es, Start(1), wait, work);
    es := es + [Start(1)];
    SelectOne(After(s, es), 1);
    Extend(s, es, Select(1, [0]), wait, work);
  }

  lemma {:induction false} OverlapRun(at: Time, wait: Time, work: Time)
    requires 0 <= at <= work && 0 <= wait
    ensures TimelyRun(Initial(0), Overlap(at), wait, work) && Run(Initial(0), Overlap(at))
    ensures After(Initial(0), Overlap(at)) ==
            Sys(at, map[0 := Row(Some(at), 0, None)], map[0 := Lease(0, LOCK_TTL)],
                map[0 := HELD.(phase := Looping, todo := []), 1 := Tick(Looping, at, at, [Snap(0, NEW_ROW)], at, at)],
                map[0 := Log([0], 1, 0, 1, [])])
  {
    OverlapSelect(at, wait, work);
    var s := Initial(0);
    var es := Dispatched() + [Advance(at)] + [Start(1)] + [Select(1, [0])];
    assert HELD.todo[1..] == [];
    Extend(s, es, CommitDelivered(0, at), wait, work);
  }

  /** Tick 1 finds the lease expired and dispatches the row it still believes undelivered. */
  function Twice(at: Time): (es: seq<Event>) {
    Overlap(at) + [Advance(LOCK_TTL)] + [TryLock(1)] + [DispatchOk(1)] + [CommitDelivered(1, LOCK_TTL)]
  }

  lemma {:induction false} TwiceRun(at: Time, wait: Time, work: Time)
    requires 0 <= at <= work && at <= LOCK_TTL <= at + wait
    ensures TimelyRun(Initial(0), Twice(at), wait, work) && Run(Initial(0), Twice(at))
    ensures var s := After(Initial(0), Twice(at));
            0 in s.rows && 0 in s.log && s.log[0].oks == 2 && s.log[0].lost == 0 && Overdue(s, 0, work) == {}
  {
    OverlapRun(at, wait, work);
    var s := Initial(0);
    var es := Overlap(at);
    Extend(s, es, Advance(LOCK_TTL), wait, work);
    es := es + [Advance(LOCK_TTL)];
    Extend(s, es, TryLock(1), wait, work);
    es := es + [TryLock(1)];
    Extend(s, es, DispatchOk(1), wait, work);
    es := es + [DispatchOk(1)];
    Extend(s, es, CommitDelivered(1, LOCK_TTL), wait, work);
  }

  /**
   The exact timing condition.  The dispatcher never repeats a delivered row, in any interleaving that
   keeps the bounds, if and only if the longest SELECT-to-lease wait plus the longest lease-to-commit
   time is strictly below the time-to-live of the lease.
   */
  lemma {:induction false} SafeIffBelowTtl(wait: Time, work: Time)
    requires 0 <= wait && 0 <= work
    ensures (forall es :: SafeRun(es, wait, work)) <==> wait + work < 30 * SECOND
  {
    if wait + work < LOCK_TTL {
      forall es ensures SafeRun(es, wait, work) {
        if TimelyRun(Initial(0), es, wait, work) {
          TimelyRunIsRun(Initial(0), es, wait, work);
          forall r | r in After(Initial(0), es).rows
            ensures r in After(Initial(0), es).log
            ensures After(Initial(0), es).log[r].oks
                    <= 1 + After(Initial(0), es).log[r].lost + |Overdue(After(Initial(0), es), r, work)|
          {
            AtMostOncePlusLost(0, es, r, wait, work);
          }
        }
      }
    } else {
      var at := if wait < LOCK_TTL then LOCK_TTL - wait else 0;
      TwiceRun(at, wait, work);
      assert !SafeRun(Twice(at), wait, work);
    }
  }
}
