/** From every reachable state, every undelivered row can still be delivered, its schedule exhausted or not. */
module OutboxLiveness {
  import opened Prelude
  import opened OutboxMachine
  import opened OutboxUntimed

  /** Any finite set of row ids can be listed. */
  lemma {:induction false} Enumerate(ids: set<RowId>) returns (s: seq<RowId>)
    ensures NoDup(s) && forall q :: q in s <==> q in ids
  {
    if ids == {} {
      s := [];
    } else {
      var x :| x in ids;
      var rest := Enumerate(ids - {x});
      s := [x] + rest;
    }
  }

  /** There is always an unused tick id. */
  lemma {:induction false} FreshTick(ks: set<TickId>) returns (k: TickId)
    ensures forall j :: j in ks ==> j < k
  {
    if ks == {} {
      k := 0;
    } else {
      var x :| x in ks;
      var rest := FreshTick(ks - {x});
      k := if rest <= x then x + 1 else rest;
      assert forall j :: j in ks ==> j == x || j in ks - {x};
    }
  }

  /** The database may return any due row first. */
  lemma {:induction false} BatchWithFirst(rows: map<RowId, Row>, r: RowId, now: Time) returns (batch: seq<RowId>)
    requires r in rows && Due(rows[r], now)
    ensures Selectable(rows, batch, now) && batch != [] && batch[0] == r
  {
    var due := set q | q in rows && Due(rows[q], now);
    var rest := Enumerate(due - {r});
    var all := [r] + rest;
    assert forall q :: q in all <==> q in due;
    assert forall q :: q in due ==> q in rows && Due(rows[q], now);
    batch := if |all| <= BATCH_SIZE then all else all[..BATCH_SIZE];
    assert forall q :: q in batch ==> q in all;
  }

  /** When the row is due and its lease has expired. */
  function Ripe(s: Sys, r: RowId): (t: Time)
    requires r in s.rows
    ensures t >= s.now
    ensures s.rows[r].nextRetryAt.Some? ==> t >= s.rows[r].nextRetryAt.value
    ensures r in s.leases ==> t >= s.leases[r].expiresAt
  {
    var a := if s.rows[r].nextRetryAt.Some? && s.rows[r].nextRetryAt.value > s.now then s.rows[r].nextRetryAt.value else s.now;
    if r in s.leases && s.leases[r].expiresAt > a then s.leases[r].expiresAt else a
  }

  lemma {:induction false} SelectFirst(s: Sys, r: RowId, k: TickId) returns (es: seq<Event>)
    requires r in s.rows && s.rows[r].deliveredAt.None? && k !in s.ticks
    ensures TimelyRun(s, es, 0, 0) && Run(s, es)
    ensures var s' := After(s, es);
            && s'.now == Ripe(s, r) && s'.rows == s.rows && s'.leases == s.leases
            && InPhase(s', k, Looping) && s'.ticks[k].selectedAt == s'.now
            && s'.ticks[k].todo != [] && s'.ticks[k].todo[0] == Snap(r, s.rows[r])
  {
    var t := Ripe(s, r);
    es := [Advance(t)];
    assert [] + es == es;
    Extend(s, [], Advance(t), 0, 0);
    Extend(s, es, Start(k), 0, 0);
    es := es + [Start(k)];
    var batch := BatchWithFirst(s.rows, r, t);
    Extend(s, es, Select(k, batch), 0, 0);
    es := es + [Select(k, batch)];
  }

  /**
   Nothing gives up: whatever has happened, and however often the row has failed, there is a
   continuation that delivers it, even one that keeps every timing bound.
   */
  lemma {:induction false} AlwaysDeliverable(start: Time, es: seq<Event>, r: RowId)
    requires Run(Initial(start), es) && r in After(Initial(start), es).rows
    requires After(Initial(start), es).rows[r].deliveredAt.None?
    ensures exists fs :: TimelyRun(After(Initial(start), es), fs, 0, 0) && Run(After(Initial(start), es), fs)
                         && r in After(After(Initial(start), es), fs).rows
                         && After(After(Initial(start), es), fs).rows[r].deliveredAt.Some?
  {
    var s := After(Initial(start), es);
    var k := FreshTick(s.ticks.Keys);
    var fs := SelectFirst(s, r, k);
    var t := Ripe(s, r);
    Extend(s, fs, TryLock(k), 0, 0);
    fs := fs + [TryLock(k)];
    Extend(s, fs, DispatchOk(k), 0, 0);
    fs := fs + [DispatchOk(k)];
    Extend(s, fs, CommitDelivered(k, t), 0, 0);
    fs := fs + [CommitDelivered(k, t)];
  }

  lemma {:induction false} TimelyConcat(s: Sys, es: seq<Event>, fs: seq<Event>, wait: Time, work: Time)
    requires TimelyRun(s, es, wait, work) && Run(s, es) && TimelyRun(After(s, es), fs, wait, work) && Run(After(s, es), fs)
    ensures TimelyRun(s, es + fs, wait, work) && Run(s, es + fs) && After(s, es + fs) == After(After(s, es), fs)
    decreases |es|
  {
    if es == [] {
      assert es + fs == fs;
    } else {
      assert (es + fs)[1..] == es[1..] + fs;
      TimelyConcat(Apply(s, es[0]), es[1..], fs, wait, work);
    }
  }

  /** One more failed attempt at a row, by a tick of its own. */
  lemma {:induction false} OneMoreFailure(s: Sys, r: RowId) returns (es: seq<Event>)
    requires r in s.rows && s.rows[r].deliveredAt.None?
    ensures TimelyRun(s, es, 0, 0) && Run(s, es)
    ensures var s' := After(s, es);
            r in s'.rows && s'.rows[r].deliveredAt.None? && s'.rows[r].attempts == s.rows[r].attempts + 1
  {
    var k := FreshTick(s.ticks.Keys);
    es := SelectFirst(s, r, k);
    var t := Ripe(s, r);
    Extend(s, es, TryLock(k), 0, 0);
    es := es + [TryLock(k)];
    Extend(s, es, DispatchFail(k), 0, 0);
    es := es + [DispatchFail(k)];
    Extend(s, es, RecordFailure(k, t), 0, 0);
    es := es + [RecordFailure(k, t)];
  }

  /**
   Nothing bounds the attempts: for every n there is a run, keeping every timing bound, after which a row
   has failed n times and is still undelivered.
   */
  lemma {:induction false} AnyNumberOfAttempts(start: Time, n: nat) returns (es: seq<Event>)
    ensures TimelyRun(Initial(start), es, 0, 0) && Run(Initial(start), es)
    ensures var s := After(Initial(start), es);
            0 in s.rows && s.rows[0].deliveredAt.None? && s.rows[0].attempts == n
  {
    if n == 0 {
      es := [Insert(0)];
      assert [] + es == es;
      Extend(Initial(start), [], Insert(0), 0, 0);
    } else {
      es := AnyNumberOfAttempts(start, n - 1);
      var more := OneMoreFailure(After(Initial(start), es), 0);
      TimelyConcat(Initial(start), es, more, 0, 0);
      es := es + more;
    }
  }
}
