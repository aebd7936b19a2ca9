/** Where every extracted lane ends up, across Stages 3 and 4. */
module Accounting {
  import opened Prelude
  import opened Lanes
  import opened Keys
  import opened Counting
  import opened Consensus
  import opened Correction
  import opened RulesEngine
  import opened Normalizer
  import opened Stage4

  /** The end of one extracted lane. */
  datatype Fate =
    | Surviving(lane: LaneRecord)
    | RuleRejected(record: RejectionRecord)
    | KeptFlag(flag: FlaggedLane)
    | Rescued(flag: FlaggedLane)

  /** The fate of a routed lane whose flag, if it has one, is number `k` in the list of flags. */
  ghost function FateOf(route: Routed, k: nat, table: VoteTable, rounds: Rounds, today: Date): Fate {
    match route
    case Final(lane) => if Passes(lane, today) then Surviving(lane) else RuleRejected(Cite(lane, today))
    case Flag(flag) => if Dropped(flag, table, rounds(k)) then Rescued(flag) else KeptFlag(flag)
  }

  /** The fates of all lanes, in order; `first` flags precede those of the routed lanes. */
  ghost function Fates(routes: seq<Routed>, first: nat, table: VoteTable, rounds: Rounds, today: Date): (fates: seq<Fate>)
    ensures |fates| == |routes|
  {
    if routes == [] then []
    else
      var m := |routes| - 1;
      Fates(routes[..m], first, table, rounds, today)
      + [FateOf(routes[m], first + |Flags(routes[..m])|, table, rounds, today)]
  }

  /** Fate i is the fate of lane i. */
  lemma {:induction false} FateAt(routes: seq<Routed>, first: nat, table: VoteTable, rounds: Rounds, today: Date,
                                  i: nat)
    requires i < |routes|
    ensures Fates(routes, first, table, rounds, today)[i]
         == FateOf(routes[i], first + |Flags(routes[..i])|, table, rounds, today)
  {
    var m := |routes| - 1;
    if i < m {
      FateAt(routes[..m], first, table, rounds, today, i);
      assert routes[..m][..i] == routes[..i];
    }
  }

  ghost function SurvivingLanes(fates: seq<Fate>): seq<LaneRecord> {
    if fates == [] then []
    else
      var last := fates[|fates| - 1];
      SurvivingLanes(fates[..|fates| - 1]) + if last.Surviving? then [last.lane] else []
  }

  ghost function RejectRecords(fates: seq<Fate>): seq<RejectionRecord> {
    if fates == [] then []
    else
      var last := fates[|fates| - 1];
      RejectRecords(fates[..|fates| - 1]) + if last.RuleRejected? then [last.record] else []
  }

  ghost function KeptFlags(fates: seq<Fate>): seq<FlaggedLane> {
    if fates == [] then []
    else
      var last := fates[|fates| - 1];
      KeptFlags(fates[..|fates| - 1]) + if last.KeptFlag? then [last.flag] else []
  }

  ghost function RescuedCount(fates: seq<Fate>): nat {
    if fates == [] then 0
    else RescuedCount(fates[..|fates| - 1]) + if fates[|fates| - 1].Rescued? then 1 else 0
  }

  /** Every lane has exactly one fate. */
  lemma {:induction false} FatesAddUp(fates: seq<Fate>)
    ensures |SurvivingLanes(fates)| + |RejectRecords(fates)| + |KeptFlags(fates)| + RescuedCount(fates) == |fates|
  {
    if fates != [] {
      FatesAddUp(fates[..|fates| - 1]);
    }
  }

  lemma {:induction false} FatesSnoc(fates: seq<Fate>, last: Fate)
    ensures SurvivingLanes(fates + [last]) == SurvivingLanes(fates) + if last.Surviving? then [last.lane] else []
    ensures RejectRecords(fates + [last]) == RejectRecords(fates) + if last.RuleRejected? then [last.record] else []
    ensures KeptFlags(fates + [last]) == KeptFlags(fates) + if last.KeptFlag? then [last.flag] else []
  {
    assert (fates + [last])[..|fates|] == fates;
  }

  /** The rules split the finals exactly as the fates say. */
  lemma {:induction false} FinalsSplit(routes: seq<Routed>, first: nat, table: VoteTable, rounds: Rounds, today: Date)
    ensures Survivors(Finals(routes), today) == SurvivingLanes(Fates(routes, first, table, rounds, today))
    ensures Rejections(Finals(routes), today) == RejectRecords(Fates(routes, first, table, rounds, today))
  {
    if routes != [] {
      var m := |routes| - 1;
      FinalsSplit(routes[..m], first, table, rounds, today);
      var fates := Fates(routes[..m], first, table, rounds, today);
      FatesSnoc(fates, FateOf(routes[m], first + |Flags(routes[..m])|, table, rounds, today));
      if routes[m].Final? {
        FinalsStep(Finals(routes[..m]), routes[m].lane, today);
      } else {
        assert Finals(routes) == Finals(routes[..m]);
      }
    }
  }

  lemma {:induction false} FinalsStep(lanes: seq<LaneRecord>, lane: LaneRecord, today: Date)
    ensures Survivors(lanes + [lane], today) == Survivors(lanes, today) + if Passes(lane, today) then [lane] else []
    ensures Rejections(lanes + [lane], today)
         == Rejections(lanes, today) + if !Passes(lane, today) then [Cite(lane, today)] else []
  {
    var all := lanes + [lane];
    assert all[..|lanes|] == lanes && all[..|lanes| + 1] == all;
    SurvivorsNext(all, |lanes|, today);
    RejectionsNext(all, |lanes|, today);
  }

  // The correction loop and the fates, whatever drops a flag and whatever a fate is.

  ghost function KeptBy(flags: seq<FlaggedLane>, drop: (FlaggedLane, nat) -> bool): seq<FlaggedLane> {
    if flags == [] then []
    else
      var m := |flags| - 1;
      KeptBy(flags[..m], drop) + if drop(flags[m], m) then [] else [flags[m]]
  }

  lemma {:induction false} KeptIsKeptBy(flags: seq<FlaggedLane>, table: VoteTable, rounds: Rounds,
                                        drop: (FlaggedLane, nat) -> bool)
    requires forall f, k :: drop(f, k) <==> Dropped(f, table, rounds(k))
    ensures Kept(flags, table, rounds) == KeptBy(flags, drop)
  {
    if flags != [] {
      KeptIsKeptBy(flags[..|flags| - 1], table, rounds, drop);
    }
  }

  ghost function FatesBy(routes: seq<Routed>, first: nat, fate: (Routed, nat) -> Fate): seq<Fate> {
    if routes == [] then []
    else
      var m := |routes| - 1;
      FatesBy(routes[..m], first, fate) + [fate(routes[m], first + |Flags(routes[..m])|)]
  }

  lemma {:induction false} FatesAreFatesBy(routes: seq<Routed>, first: nat, table: VoteTable, rounds: Rounds,
                                           today: Date, fate: (Routed, nat) -> Fate)
    requires forall r, k :: fate(r, k) == FateOf(r, k, table, rounds, today)
    ensures Fates(routes, first, table, rounds, today) == FatesBy(routes, first, fate)
  {
    if routes != [] {
      FatesAreFatesBy(routes[..|routes| - 1], first, table, rounds, today, fate);
    }
  }

  /** What a fate leaves among the flags. */
  function KeptPart(fate: Fate): seq<FlaggedLane> {
    if fate.KeptFlag? then [fate.flag] else []
  }

  function FlagPart(route: Routed): seq<FlaggedLane> {
    if route.Flag? then [route.flag] else []
  }

  /** The fate of a route leaves its flag exactly if nothing drops it. */
  ghost predicate Agrees(route: Routed, k: nat, drop: (FlaggedLane, nat) -> bool, fate: (Routed, nat) -> Fate) {
    KeptPart(fate(route, k)) == if route.Flag? && drop(route.flag, k) then [] else FlagPart(route)
  }

  lemma {:induction false} KeptByNext(flags: seq<FlaggedLane>, route: Routed, drop: (FlaggedLane, nat) -> bool,
                                      fate: (Routed, nat) -> Fate)
    requires Agrees(route, |flags|, drop, fate)
    ensures KeptBy(flags + FlagPart(route), drop) == KeptBy(flags, drop) + KeptPart(fate(route, |flags|))
  {
    if route.Flag? {
      assert (flags + [route.flag])[..|flags|] == flags;
    } else {
      assert flags + [] == flags;
    }
  }

  lemma {:induction false} KeptFlagsSnoc(fates: seq<Fate>, last: Fate)
    ensures KeptFlags(fates + [last]) == KeptFlags(fates) + KeptPart(last)
  {
    assert (fates + [last])[..|fates|] == fates;
  }

  lemma {:induction false} FlagsSplitBy(flags: seq<FlaggedLane>, routes: seq<Routed>, drop: (FlaggedLane, nat) -> bool,
                                        fate: (Routed, nat) -> Fate)
    requires forall r, k :: Agrees(r, k, drop, fate)
    ensures KeptBy(flags + Flags(routes), drop) == KeptBy(flags, drop) + KeptFlags(FatesBy(routes, |flags|, fate))
  {
    if routes == [] {
      assert flags + Flags(routes) == flags;
    } else {
      var m := |routes| - 1;
      var before := flags + Flags(routes[..m]);
      FlagsSplitBy(flags, routes[..m], drop, fate);
      assert Agrees(routes[m], |before|, drop, fate);
      KeptByNext(before, routes[m], drop, fate);
      FlagsNext(flags, routes);
      FatesByNext(flags, routes, fate);
      Glue(KeptBy(flags, drop), KeptFlags(FatesBy(routes[..m], |flags|, fate)), KeptPart(fate(routes[m], |before|)));
    }
  }

  lemma {:induction false} FlagsNext(flags: seq<FlaggedLane>, routes: seq<Routed>)
    requires routes != []
    ensures var m := |routes| - 1; flags + Flags(routes) == flags + Flags(routes[..m]) + FlagPart(routes[m])
  {
  }

  lemma {:induction false} FatesByNext(flags: seq<FlaggedLane>, routes: seq<Routed>, fate: (Routed, nat) -> Fate)
    requires routes != []
    ensures var m := |routes| - 1;
            KeptFlags(FatesBy(routes, |flags|, fate))
            == KeptFlags(FatesBy(routes[..m], |flags|, fate)) + KeptPart(fate(routes[m], |flags + Flags(routes[..m])|))
  {
    var fates, last := FatesBySnoc(flags, routes, fate);
    KeptFlagsSnoc(fates, last);
  }

  lemma {:induction false} FatesBySnoc(flags: seq<FlaggedLane>, routes: seq<Routed>, fate: (Routed, nat) -> Fate)
    returns (fates: seq<Fate>, last: Fate)
    requires routes != []
    ensures fates == FatesBy(routes[..|routes| - 1], |flags|, fate)
    ensures last == fate(routes[|routes| - 1], |flags + Flags(routes[..|routes| - 1])|)
    ensures FatesBy(routes, |flags|, fate) == fates + [last]
  {
    var m := |routes| - 1;
    fates, last := FatesBy(routes[..m], |flags|, fate), fate(routes[m], |flags| + |Flags(routes[..m])|);
    assert |flags + Flags(routes[..m])| == |flags| + |Flags(routes[..m])|;
  }

  lemma {:induction false} Glue<T>(a: seq<T>, b: seq<T>, c: seq<T>)
    ensures a + b + c == a + (b + c)
  {
  }

  lemma {:induction false} FateAgrees(route: Routed, k: nat, table: VoteTable, rounds: Rounds, today: Date)
    ensures KeptPart(FateOf(route, k, table, rounds, today))
         == if route.Flag? && Dropped(route.flag, table, rounds(k)) then [] else FlagPart(route)
  {
  }

  /** The correction loop keeps exactly the flags whose fate is to be kept. */
  lemma {:induction false} FlagsSplit(flags: seq<FlaggedLane>, routes: seq<Routed>, table: VoteTable, rounds: Rounds,
                                      today: Date)
    ensures Kept(flags + Flags(routes), table, rounds)
         == Kept(flags, table, rounds) + KeptFlags(Fates(routes, |flags|, table, rounds, today))
  {
    var drop := (f: FlaggedLane, k: nat) => Dropped(f, table, rounds(k));
    var fate := (r: Routed, k: nat) => FateOf(r, k, table, rounds, today);
    forall r, k ensures Agrees(r, k, drop, fate) {
      FateAgrees(r, k, table, rounds, today);
    }
    FlagsSplitBy(flags, routes, drop, fate);
    KeptIsKeptBy(flags + Flags(routes), table, rounds, drop);
    KeptIsKeptBy(flags, table, rounds, drop);
    FatesAreFatesBy(routes, |flags|, table, rounds, today, fate);
  }

  /**
   End-to-end accounting.  Stages 3 and 4 composed: the stored lists are the in-order projections of one
   fate per extracted lane; rejections also hold one record per lifted row; and the only other flags name
   surviving lanes, as low-confidence.
   */
  lemma {:induction false} LaneAccounting(extraction: Ratesheet, results: seq<ConsensusResult>, resolve: Resolver,
                                          table: VoteTable, rounds: Rounds, today: Date)
    requires |results| == |extraction.lanes| && WellFormed(table)
    ensures var routes := Routes(extraction.lanes, results, resolve);
            var normalized := extraction.(lanes := Finals(routes), flags := extraction.flags + Flags(routes));
            var final := Validated(normalized, table, rounds, today);
            var fates := Fates(routes, |extraction.flags|, table, rounds, today);
            && |fates| == |extraction.lanes|
            && final.lanes == SurvivingLanes(fates)
            && final.rejected == extraction.rejected + RejectRecords(fates) + Reinjected(extraction.shapeViolating)
            && final.flags == Kept(extraction.flags, table, rounds) + KeptFlags(fates) + LowFlags(final.lanes, table)
            && |SurvivingLanes(fates)| + |RejectRecords(fates)| + |KeptFlags(fates)| + RescuedCount(fates)
               == |extraction.lanes|
            && WeakFlags(final.lanes, table, LowFlags(final.lanes, table))
            && final.shapeViolating == extraction.shapeViolating
  {
    var routes := Routes(extraction.lanes, results, resolve);
    var fates := Fates(routes, |extraction.flags|, table, rounds, today);
    FinalsSplit(routes, |extraction.flags|, table, rounds, today);
    FlagsSplit(extraction.flags, routes, table, rounds, today);
    FatesAddUp(fates);
    LowFlagsAreWeak(Survivors(Finals(routes), today), table);
  }

  predicate SameButPorts(a: LaneRecord, b: LaneRecord) {
    a.(origin := b.origin, destination := b.destination) == b
  }

  /** The fate follows from the lane, its consensus and the port table alone, but for which flags are dropped. */
  ghost predicate FateTold(lane: LaneRecord, c: ConsensusResult, resolve: Resolver, today: Date, fate: Fate) {
    match fate
    case Surviving(l) => RoutedWell(lane, c, resolve, Final(l)) && Lawful(l, today)
    case RuleRejected(r) => exists l :: RoutedWell(lane, c, resolve, Final(l)) && CitesLeast(r, l, today)
    case KeptFlag(f) => RoutedWell(lane, c, resolve, Flag(f))
    case Rescued(f) => f.reason == NoMajority && RoutedWell(lane, c, resolve, Flag(f))
  }

  /** Each fate is about the lane at its own position. */
  lemma {:induction false} FateIsOwn(lane: LaneRecord, c: ConsensusResult, resolve: Resolver, k: nat, table: VoteTable,
                                     rounds: Rounds, today: Date)
    requires c.laneId == lane.laneId && (c.lane.Some? ==> c.lane.value.laneId == lane.laneId)
    ensures match FateOf(Route(lane, c, resolve), k, table, rounds, today)
            case Surviving(l) => l.laneId == lane.laneId && c.lane.Some? && SameButPorts(l, c.lane.value) && Passes(l, today)
            case RuleRejected(r) => r.laneId == lane.laneId && c.lane.Some? && r.source == c.lane.value.source
            case KeptFlag(f) => if c.lane.None? then f == FlaggedLane(lane, NoMajority, None)
                                else f == FlaggedLane(c.lane.value, PortUnresolved, None)
            case Rescued(f) => f == FlaggedLane(lane, NoMajority, None) && c.lane.None?
  {
  }

  lemma {:induction false} FateIsTold(lane: LaneRecord, c: ConsensusResult, resolve: Resolver, k: nat, table: VoteTable,
                                      rounds: Rounds, today: Date)
    ensures FateTold(lane, c, resolve, today, FateOf(Route(lane, c, resolve), k, table, rounds, today))
  {
    RoutedWellIsRoute(lane, c, resolve, Route(lane, c, resolve));
    if Route(lane, c, resolve).Final? {
      VerdictIsLeast(Route(lane, c, resolve).lane, today);
    }
  }

  /** The table written by Stage 3 is well formed. */
  lemma {:induction false} SnapshotsWellFormed(lanes: seq<LaneRecord>, ensembles: nat -> Ensemble,
                                               results: seq<ConsensusResult>)
    requires Polled(lanes, ensembles, results)
    ensures WellFormed(Snapshots(results))
  {
    var table := Snapshots(results);
    forall id | id in table ensures |table[id].votes| == 3 && (table[id].requiresReview <==> table[id].lane.None?) {
      SnapshotsAreResults(results, id);
      var i :| 0 <= i < |results| && results[i].laneId == id && table[id] == results[i];
      assert IsConsensus(lanes[i].laneId, VotesOf(ensembles(i)), results[i]);
    }
  }
}
