/** Stage 3: three votes per lane, then port resolution (packages/ingest/normalizer.py). */
module Normalizer {
  import opened Prelude
  import opened Lanes
  import opened Consensus
  import opened Correction

  /** Port resolution is a lookup: the canonical code of an alias, if it has one. */
  type Resolver = string -> Option<PortCode>

  /** The three parallel model calls for one lane, and whether they met the total budget. */
  datatype Ensemble = Ensemble(calls: seq<Call>, inTime: bool)

  datatype NormalizeFailure =
    | EnsembleError  // recorded by the task
    | TimedOut       // not caught by the task

  ghost predicate Answered(e: Ensemble) {
    e.inTime && |e.calls| == 3 && forall i :: 0 <= i < 3 ==> e.calls[i].Some?
  }

  ghost function VotesOf(e: Ensemble): seq<Vote>
    requires Answered(e)
  {
    [e.calls[0].value, e.calls[1].value, e.calls[2].value]
  }

  /** The result is the consensus of the ensemble's votes. */
  ghost predicate PolledLane(lane: LaneRecord, e: Ensemble, result: ConsensusResult) {
    Answered(e) && IsConsensus(lane.laneId, VotesOf(e), result)
  }

  method EnsembleForLane(lane: LaneRecord, e: Ensemble) returns (r: Result<ConsensusResult, NormalizeFailure>)
    ensures r.Ok? <==> Answered(e)
    ensures r.Ok? ==> PolledLane(lane, e, r.value)
    ensures r.Err? ==> r.error == if e.inTime then EnsembleError else TimedOut
  {
    if !e.inTime {
      return Err(TimedOut);
    }
    var votes: seq<Vote> := [];
    for i := 0 to |e.calls|
      invariant |votes| == i
      invariant forall j :: 0 <= j < i ==> e.calls[j] == Some(votes[j])
    {
      if e.calls[i].None? {
        return Err(EnsembleError);
      }
      votes := votes + [e.calls[i].value];
    }
    if |votes| != 3 {
      return Err(EnsembleError);
    }
    assert votes == VotesOf(e);
    var consensus := MajorityConsensus(lane.laneId, votes);
    r := Ok(consensus.value);
  }

  /** Where Stage 3 sends one lane. */
  datatype Routed = Final(lane: LaneRecord) | Flag(flag: FlaggedLane)

  function Route(lane: LaneRecord, consensus: ConsensusResult, resolve: Resolver): Routed {
    if consensus.lane.None? then Flag(FlaggedLane(lane, NoMajority, None))
    else
      var resolved := consensus.lane.value;
      var origin, destination := resolve(resolved.origin.code), resolve(resolved.destination.code);
      if origin.None? || destination.None? then
        if !UnlocodeShape(resolved.origin.code) || !UnlocodeShape(resolved.destination.code) then Final(resolved)
        else Flag(FlaggedLane(resolved, PortUnresolved, None))
      else
        Final(resolved.(origin := origin.value, destination := destination.value))
  }

  function Routes(lanes: seq<LaneRecord>, results: seq<ConsensusResult>, resolve: Resolver): (routes: seq<Routed>)
    requires |results| == |lanes|
    ensures |routes| == |lanes| && forall i :: 0 <= i < |lanes| ==> routes[i] == Route(lanes[i], results[i], resolve)
  {
    seq(|lanes|, i requires 0 <= i < |lanes| => Route(lanes[i], results[i], resolve))
  }

  function Finals(routes: seq<Routed>): seq<LaneRecord> {
    if routes == [] then []
    else
      var last := routes[|routes| - 1];
      Finals(routes[..|routes| - 1]) + if last.Final? then [last.lane] else []
  }

  function Flags(routes: seq<Routed>): seq<FlaggedLane> {
    if routes == [] then []
    else
      var last := routes[|routes| - 1];
      Flags(routes[..|routes| - 1]) + if last.Flag? then [last.flag] else []
  }

  lemma {:induction false} RoutesSnoc(routes: seq<Routed>, last: Routed)
    ensures Finals(routes + [last]) == Finals(routes) + if last.Final? then [last.lane] else []
    ensures Flags(routes + [last]) == Flags(routes) + if last.Flag? then [last.flag] else []
  {
    assert (routes + [last])[..|routes|] == routes;
  }

  /** The consensus results match the lanes and the ensembles' votes, one by one. */
  ghost predicate Polled(lanes: seq<LaneRecord>, ensembles: nat -> Ensemble, results: seq<ConsensusResult>) {
    |results| <= |lanes| && forall i: nat :: i < |results| ==> PolledLane(lanes[i], ensembles(i), results[i])
  }

  lemma {:induction false} PolledNext(lanes: seq<LaneRecord>, ensembles: nat -> Ensemble, results: seq<ConsensusResult>,
                                      c: ConsensusResult)
    requires Polled(lanes, ensembles, results) && |results| < |lanes|
    requires PolledLane(lanes[|results|], ensembles(|results|), c)
    ensures Polled(lanes, ensembles, results + [c])
  {
    forall i: nat | i < |results + [c]| ensures PolledLane(lanes[i], ensembles(i), (results + [c])[i]) {
      assert i < |results| ==> PolledLane(lanes[i], ensembles(i), results[i]);
    }
  }

  lemma {:induction false} RoutesNext(lanes: seq<LaneRecord>, results: seq<ConsensusResult>, resolve: Resolver,
                                      c: ConsensusResult)
    requires |results| < |lanes|
    ensures var n, last := |results|, Route(lanes[|results|], c, resolve);
            && Finals(Routes(lanes[..n + 1], results + [c], resolve))
               == Finals(Routes(lanes[..n], results, resolve)) + (if last.Final? then [last.lane] else [])
            && Flags(Routes(lanes[..n + 1], results + [c], resolve))
               == Flags(Routes(lanes[..n], results, resolve)) + (if last.Flag? then [last.flag] else [])
  {
    var n := |results|;
    RoutesSnoc(Routes(lanes[..n], results, resolve), Route(lanes[n], c, resolve));
    assert Routes(lanes[..n + 1], results + [c], resolve)
        == Routes(lanes[..n], results, resolve) + [Route(lanes[n], c, resolve)];
  }

  /** Both ports of a lane have a canonical code. */
  predicate Resolved(lane: LaneRecord, resolve: Resolver) {
    resolve(lane.origin.code).Some? && resolve(lane.destination.code).Some?
  }

  predicate ShapesGood(lane: LaneRecord) {
    UnlocodeShape(lane.origin.code) && UnlocodeShape(lane.destination.code)
  }

  /**
   Which lane goes where.  Only a lane without majority is flagged as such, as it was extracted; of the
   consensus lanes only those with well-shaped ports the table does not know are flagged, as voted; final
   lanes differ from what was voted in their ports alone, which then are the canonical ones.
   */
  predicate RoutedWell(lane: LaneRecord, consensus: ConsensusResult, resolve: Resolver, route: Routed) {
    && (route == Flag(FlaggedLane(lane, NoMajority, None)) <==> consensus.lane.None?)
    && (consensus.lane.Some? ==>
          var voted := consensus.lane.value;
          && (route == Flag(FlaggedLane(voted, PortUnresolved, None)) <==> !Resolved(voted, resolve) && ShapesGood(voted))
          && (route.Flag? ==> !Resolved(voted, resolve) && ShapesGood(voted))
          && (route.Final? ==>
                && route.lane.(origin := voted.origin, destination := voted.destination) == voted
                && (if Resolved(voted, resolve)
                    then Some(route.lane.origin) == resolve(voted.origin.code)
                         && Some(route.lane.destination) == resolve(voted.destination.code)
                    else route.lane == voted)))
  }

  lemma {:induction false} RoutedWellIsRoute(lane: LaneRecord, consensus: ConsensusResult, resolve: Resolver,
                                             route: Routed)
    ensures RoutedWell(lane, consensus, resolve, route) <==> route == Route(lane, consensus, resolve)
  {
  }

  /** The branches of the loop body: port resolution on the consensus lane. */
  method RouteLane(lane: LaneRecord, consensus: ConsensusResult, resolve: Resolver) returns (route: Routed)
    ensures RoutedWell(lane, consensus, resolve, route)
  {
    if consensus.lane.None? {
      return Flag(FlaggedLane(lane, NoMajority, None));
    }
    var resolved := consensus.lane.value;
    var origin := resolve(resolved.origin.code);
    var destination := resolve(resolved.destination.code);
    if origin.None? || destination.None? {
      if !UnlocodeShape(resolved.origin.code) || !UnlocodeShape(resolved.destination.code) {
        return Final(resolved);
      }
      return Flag(FlaggedLane(resolved, PortUnresolved, None));
    }
    route := Final(resolved.(origin := origin.value, destination := destination.value));
  }

  /** Ensemble `n` is the first of `count` that does not answer. */
  ghost predicate FirstSilent(count: nat, ensembles: nat -> Ensemble, n: nat) {
    n < count && !Answered(ensembles(n)) && forall i: nat :: i < n ==> Answered(ensembles(i))
  }

  /** The loop's lists hold the routes of the lanes polled so far. */
  predicate RoutedSoFar(extraction: Ratesheet, results: seq<ConsensusResult>, resolve: Resolver,
                        finals: seq<LaneRecord>, flags: seq<FlaggedLane>)
    requires |results| <= |extraction.lanes|
  {
    var routes := Routes(extraction.lanes[..|results|], results, resolve);
    finals == Finals(routes) && flags == extraction.flags + Flags(routes)
  }

  lemma {:induction false} RoutedNext(extraction: Ratesheet, results: seq<ConsensusResult>, resolve: Resolver,
                                      finals: seq<LaneRecord>, flags: seq<FlaggedLane>, c: ConsensusResult,
                                      route: Routed)
    requires |results| < |extraction.lanes| && RoutedSoFar(extraction, results, resolve, finals, flags)
    requires RoutedWell(extraction.lanes[|results|], c, resolve, route)
    ensures RoutedSoFar(extraction, results + [c], resolve, finals + (if route.Final? then [route.lane] else []),
                        flags + (if route.Flag? then [route.flag] else []))
  {
    RoutedWellIsRoute(extraction.lanes[|results|], c, resolve, route);
    RoutesNext(extraction.lanes, results, resolve, c);
  }

  method NormalizeLanes(extraction: Ratesheet, ensembles: nat -> Ensemble, resolve: Resolver)
    returns (r: Result<(Ratesheet, seq<ConsensusResult>), NormalizeFailure>)
    ensures r.Ok? <==> forall i: nat :: i < |extraction.lanes| ==> Answered(ensembles(i))
    ensures r.Err? ==> exists n: nat :: FirstSilent(|extraction.lanes|, ensembles, n)
                                        && r.error == if ensembles(n).inTime then EnsembleError else TimedOut
    ensures r.Ok? ==>
              var (updated, results) := r.value;
              && |results| == |extraction.lanes| && Polled(extraction.lanes, ensembles, results)
              && var routes := Routes(extraction.lanes, results, resolve);
                 updated == extraction.(lanes := Finals(routes), flags := extraction.flags + Flags(routes))
  {
    var lanes := extraction.lanes;
    var results: seq<ConsensusResult> := [];
    var finalLanes: seq<LaneRecord> := [];
    var flags := extraction.flags;
    for n := 0 to |lanes|
      invariant |results| == n && Polled(lanes, ensembles, results)
      invariant RoutedSoFar(extraction, results, resolve, finalLanes, flags)
    {
      var consensus := EnsembleForLane(lanes[n], ensembles(n));
      if consensus.Err? {
        assert forall i: nat :: i < n ==> PolledLane(lanes[i], ensembles(i), results[i]);
        assert FirstSilent(|lanes|, ensembles, n);
        return Err(consensus.error);
      }
      PolledNext(lanes, ensembles, results, consensus.value);
      var route := RouteLane(lanes[n], consensus.value, resolve);
      RoutedNext(extraction, results, resolve, finalLanes, flags, consensus.value, route);
      results := results + [consensus.value];
      match route
      case Final(lane) => finalLanes := finalLanes + [lane];
      case Flag(flag) => flags := flags + [flag];
    }
    assert lanes[..|lanes|] == lanes;
    r := Ok((extraction.(lanes := finalLanes, flags := flags), results));
  }

  /** The vote snapshots table: one row per lane id, a later result overwriting an earlier one. */
  function Snapshots(results: seq<ConsensusResult>): map<string, ConsensusResult> {
    if results == [] then map[]
    else Snapshots(results[..|results| - 1])[results[|results| - 1].laneId := results[|results| - 1]]
  }

  method PersistConsensusVotes(results: seq<ConsensusResult>) returns (table: map<string, ConsensusResult>)
    ensures table == Snapshots(results)
  {
    table := map[];
    for n := 0 to |results|
      invariant table == Snapshots(results[..n])
    {
      assert results[..n + 1][..n] == results[..n];
      table := table[results[n].laneId := results[n]];
    }
    assert results[..|results|] == results;
  }

  /** A lane id is answered by the last result that carries it. */
  lemma {:induction false} LastSnapshotWins(results: seq<ConsensusResult>, i: nat)
    requires i < |results| && forall j :: i < j < |results| ==> results[j].laneId != results[i].laneId
    ensures results[i].laneId in Snapshots(results) && Snapshots(results)[results[i].laneId] == results[i]
  {
    var m := |results| - 1;
    if i < m {
      LastSnapshotWins(results[..m], i);
    }
  }

  lemma {:induction false} SnapshotsAreResults(results: seq<ConsensusResult>, id: string)
    requires id in Snapshots(results)
    ensures exists i :: 0 <= i < |results| && results[i].laneId == id && Snapshots(results)[id] == results[i]
  {
    var m := |results| - 1;
    if results[m].laneId != id {
      SnapshotsAreResults(results[..m], id);
    }
  }
}
