/**
 Stage 4 on a ratesheet (packages/ingest/tasks.py, _validate): hard rules, re-injection of the lifted
 rows, conformal scoring, and the correction of lanes without a majority.
 */
module Stage4 {
  import opened Prelude
  import opened Lanes
  import opened Keys
  import opened Consensus
  import opened Correction
  import opened Conformal
  import opened RulesEngine
  import Counting
  import ExcelExtract

  type VoteTable = map<string, ConsensusResult>

  /** Rows of the vote table are consensus results of three votes. */
  ghost predicate WellFormed(table: VoteTable) {
    forall id :: id in table ==> |table[id].votes| == 3 && (table[id].requiresReview <==> table[id].lane.None?)
  }

  // ---------------------------------------------------------------- re-injection

  /** The sentinel lane that carries a lifted row through the rules. */
  function Carrier(v: ShapeViolatingLane, today: Date, tomorrow: Date): LaneRecord {
    LaneRecord(v.laneId, PortCode(v.rawOrigin), PortCode(v.rawDestination), "40HC", None,
               Decimal(false, 1, 0), [], None, today, tomorrow, v.source)
  }

  function Carriers(vs: seq<ShapeViolatingLane>, today: Date, tomorrow: Date): (lanes: seq<LaneRecord>)
    ensures |lanes| == |vs| && forall i :: 0 <= i < |vs| ==> lanes[i] == Carrier(vs[i], today, tomorrow)
  {
    seq(|vs|, i requires 0 <= i < |vs| => Carrier(vs[i], today, tomorrow))
  }

  /** One port_unknown_unlocode record per lifted row, citing the row's own source. */
  function Reinjected(vs: seq<ShapeViolatingLane>): (r: seq<RejectionRecord>)
    ensures |r| == |vs|
    ensures forall i :: 0 <= i < |vs| ==> r[i] == RejectionRecord(vs[i].source, vs[i].laneId, PortUnknownUnlocode)
  {
    seq(|vs|, i requires 0 <= i < |vs| => RejectionRecord(vs[i].source, vs[i].laneId, PortUnknownUnlocode))
  }

  /** Every lifted row is rejected exactly once, by the port rule, and none survives. */
  lemma {:induction false} ReinjectionRejectsAll(vs: seq<ShapeViolatingLane>, today: Date, tomorrow: Date, clock: Date)
    requires forall v :: v in vs ==> ExcelExtract.IllShaped(v)
    ensures Survivors(Carriers(vs, today, tomorrow), clock) == []
    ensures Rejections(Carriers(vs, today, tomorrow), clock) == Reinjected(vs)
  {
    var lanes := Carriers(vs, today, tomorrow);
    forall l | l in lanes ensures Evaluate(l, clock) == Some(PortUnknownUnlocode) {
      var i :| 0 <= i < |lanes| && lanes[i] == l;
      assert vs[i] in vs;
    }
    FilterNone(lanes, (l: LaneRecord) => Passes(l, clock));
    FilterAll(lanes, (l: LaneRecord) => !Passes(l, clock));
    assert Losers(lanes, clock) == lanes;
    forall i | 0 <= i < |vs| ensures Rejections(lanes, clock)[i] == Reinjected(vs)[i] {
      assert lanes[i] in lanes;
    }
  }

  // ---------------------------------------------------------------- scoring

  function Confidence(votes: seq<Vote>): nat
    requires |votes| == 3
  {
    ExactThousandths(Agreement(votes), 3)
  }

  /** The low-confidence flag of a lane, if its stored votes score below the threshold. */
  ghost function LowFlag(lane: LaneRecord, table: VoteTable): seq<FlaggedLane>
    requires WellFormed(table)
  {
    if lane.laneId in table && !Accepts(Confidence(table[lane.laneId].votes))
    then [FlaggedLane(lane, LowConfidence, Some(Confidence(table[lane.laneId].votes)))]
    else []
  }

  ghost function LowFlags(lanes: seq<LaneRecord>, table: VoteTable): (flags: seq<FlaggedLane>)
    requires WellFormed(table)
    ensures forall f :: f in flags ==> f.lane in lanes && f.reason == LowConfidence
    ensures |flags| <= |lanes|
  {
    if lanes == [] then []
    else
      var m := |lanes| - 1;
      assert lanes == lanes[..m] + [lanes[m]];
      LowFlags(lanes[..m], table) + LowFlag(lanes[m], table)
  }

  /** The lane's stored votes agree too little: 200 S < 1699 N with three votes, that is S <= 25. */
  predicate Weak(lane: LaneRecord, table: VoteTable) {
    lane.laneId in table && 200 * Agreement(table[lane.laneId].votes) < 1699 * 3
  }

  /** The low-confidence flag of a weak lane, with the nearest thousandth of its agreement. */
  predicate IsWeakFlag(flag: FlaggedLane, lane: LaneRecord, table: VoteTable)
    requires lane.laneId in table
  {
    && flag.lane == lane && flag.reason == LowConfidence && flag.confidence.Some?
    && Nearest(flag.confidence.value, Agreement(table[lane.laneId].votes), 3)
  }

  /** One flag for each weak lane, in the order of the lanes, and for no other. */
  ghost predicate WeakFlags(lanes: seq<LaneRecord>, table: VoteTable, flags: seq<FlaggedLane>) {
    var weak := Filter(lanes, (l: LaneRecord) => Weak(l, table));
    && |flags| == |weak|
    && forall i :: 0 <= i < |weak| ==> weak[i].laneId in table && IsWeakFlag(flags[i], weak[i], table)
  }

  lemma {:induction false} LowIffWeak(lane: LaneRecord, table: VoteTable)
    requires WellFormed(table)
    ensures Weak(lane, table) <==> LowFlag(lane, table) != []
    ensures Weak(lane, table) ==> |LowFlag(lane, table)| == 1 && IsWeakFlag(LowFlag(lane, table)[0], lane, table)
  {
    if lane.laneId in table {
      var s := Agreement(table[lane.laneId].votes);
      AcceptanceRule(s, 3);
      ExactIsNearest(s, 3);
    }
  }

  lemma {:induction false} LowFlagsAreWeak(lanes: seq<LaneRecord>, table: VoteTable)
    requires WellFormed(table)
    ensures WeakFlags(lanes, table, LowFlags(lanes, table))
  {
    if lanes != [] {
      var m := |lanes| - 1;
      LowFlagsAreWeak(lanes[..m], table);
      var more := LowPart(lanes[m], table);
      WeakNext(lanes, table, LowFlags(lanes[..m], table), more, LowFlags(lanes, table));
    }
  }

  lemma {:induction false} LowPart(lane: LaneRecord, table: VoteTable) returns (more: seq<FlaggedLane>)
    requires WellFormed(table)
    ensures more == LowFlag(lane, table)
    ensures if Weak(lane, table) then |more| == 1 && IsWeakFlag(more[0], lane, table) else more == []
  {
    LowIffWeak(lane, table);
    more := LowFlag(lane, table);
  }

  lemma {:induction false} WeakNext(lanes: seq<LaneRecord>, table: VoteTable, flags: seq<FlaggedLane>,
                                    more: seq<FlaggedLane>, all: seq<FlaggedLane>)
    requires lanes != [] && all == flags + more
    requires var lane := lanes[|lanes| - 1];
             && WeakFlags(lanes[..|lanes| - 1], table, flags)
             && if Weak(lane, table) then |more| == 1 && IsWeakFlag(more[0], lane, table) else more == []
    ensures WeakFlags(lanes, table, all)
  {
    var m, lane, weak := |lanes| - 1, lanes[|lanes| - 1], (l: LaneRecord) => Weak(l, table);
    assert lanes[..m] + [lane] == lanes;
    FilterAppend(lanes[..m], [lane], weak);
    var before, after := Filter(lanes[..m], weak), Filter(lanes, weak);
    assert after == before + if Weak(lane, table) then [lane] else [];
    forall i | 0 <= i < |after| ensures after[i].laneId in table && IsWeakFlag(all[i], after[i], table) {
      if i < |before| {
        assert all[i] == flags[i] && after[i] == before[i];
      }
    }
  }

  method ScoreLanes(lanes: seq<LaneRecord>, table: VoteTable) returns (low: seq<FlaggedLane>)
    requires WellFormed(table)
    ensures low == LowFlags(lanes, table)
    ensures WeakFlags(lanes, table, low)
  {
    LowFlagsAreWeak(lanes, table);
    low := [];
    for n := 0 to |lanes|
      invariant low == LowFlags(lanes[..n], table)
    {
      var lane := lanes[n];
      assert lanes[..n + 1][..n] == lanes[..n];
      if lane.laneId in table {
        var confidence := ComputeScore(table[lane.laneId].votes);
        if !Accepts(confidence) {
          low := low + [FlaggedLane(lane, LowConfidence, Some(confidence))];
        }
      }
    }
    assert lanes[..|lanes|] == lanes;
  }

  // ---------------------------------------------------------------- correction

  /** The two correction calls made for one flag, if any, and whether they met the total budget. */
  datatype Round = Round(calls: seq<Call>, inTime: bool)

  type Rounds = nat -> Round

  ghost predicate EveryFieldElected(votes: seq<Vote>) {
    forall f :: Counting.HasMajority(KeysBy(votes, f, FieldKey))
  }

  /** The flag asks for a correction and its stored result is still open. */
  predicate Escalates(flag: FlaggedLane, table: VoteTable) {
    flag.reason == NoMajority && flag.lane.laneId in table && table[flag.lane.laneId].requiresReview
  }

  ghost predicate RoundFails(round: Round) {
    !round.inTime || |round.calls| != 2 || round.calls[0].None? || round.calls[1].None?
  }

  /** A no-majority flag is dropped when its stored result is clean, or the five votes together are. */
  ghost predicate Dropped(flag: FlaggedLane, table: VoteTable, round: Round) {
    && flag.reason == NoMajority
    && flag.lane.laneId in table
    && var prior := table[flag.lane.laneId];
       if !prior.requiresReview then true
       else !RoundFails(round) && EveryFieldElected(prior.votes + [round.calls[0].value, round.calls[1].value])
  }

  /** The flags that survive correction, in order; `rounds(i)` belongs to flag i. */
  ghost function Kept(flags: seq<FlaggedLane>, table: VoteTable, rounds: Rounds): (kept: seq<FlaggedLane>)
    ensures forall f :: f in kept ==> f in flags
  {
    if flags == [] then []
    else
      var m := |flags| - 1;
      assert flags == flags[..m] + [flags[m]];
      Kept(flags[..m], table, rounds) + if Dropped(flags[m], table, rounds(m)) then [] else [flags[m]]
  }

  /** One iteration of the correction loop. */
  method CorrectOne(flag: FlaggedLane, table: VoteTable, round: Round)
    returns (r: Result<bool, CorrectionError>)
    requires WellFormed(table)
    ensures r.Err? <==> Escalates(flag, table) && RoundFails(round)
    ensures r.Err? <==>
              && flag.reason == NoMajority && flag.lane.laneId in table && table[flag.lane.laneId].lane.None?
              && !(round.inTime && |round.calls| == 2 && round.calls[0].Some? && round.calls[1].Some?)
    ensures r.Ok? ==> (r.value <==> !Dropped(flag, table, round))
  {
    if flag.reason != NoMajority || flag.lane.laneId !in table {
      return Ok(true);
    }
    if |round.calls| != 2 {
      return if table[flag.lane.laneId].requiresReview then Err(CallFailed) else Ok(false);
    }
    var prior := table[flag.lane.laneId];
    var corrected := ConditionalCorrection(prior, round.calls, round.inTime);
    if corrected.Err? {
      return Err(corrected.error);
    }
    r := Ok(corrected.value.lane.None?);
  }

  method CorrectFlags(flags: seq<FlaggedLane>, table: VoteTable, rounds: Rounds)
    returns (r: Result<seq<FlaggedLane>, CorrectionError>)
    requires WellFormed(table)
    ensures r.Err? <==> exists i: nat :: i < |flags| && Escalates(flags[i], table) && RoundFails(rounds(i))
    ensures r.Ok? ==> r.value == Kept(flags, table, rounds)
  {
    var surviving: seq<FlaggedLane> := [];
    for n := 0 to |flags|
      invariant surviving == Kept(flags[..n], table, rounds)
      invariant forall i: nat :: i < n ==> !(Escalates(flags[i], table) && RoundFails(rounds(i)))
    {
      var keep := CorrectOne(flags[n], table, rounds(n));
      if keep.Err? {
        return Err(keep.error);
      }
      assert flags[..n + 1][..n] == flags[..n];
      if keep.value {
        surviving := surviving + [flags[n]];
      }
    }
    assert flags[..|flags|] == flags;
    r := Ok(surviving);
  }

  // ---------------------------------------------------------------- the whole stage

  /** What Stage 4 stores, as a function of what it read. */
  ghost function Validated(sheet: Ratesheet, table: VoteTable, rounds: Rounds, today: Date): Ratesheet
    requires WellFormed(table)
  {
    var lanes := Survivors(sheet.lanes, today);
    Ratesheet(lanes,
              Kept(sheet.flags, table, rounds) + LowFlags(lanes, table),
              sheet.rejected + Rejections(sheet.lanes, today) + Reinjected(sheet.shapeViolating),
              sheet.shapeViolating)
  }

  /** Run the lifted rows through the rules and append what they are cited for. */
  method Reinject(lifted: seq<ShapeViolatingLane>, today: Date, tomorrow: Date)
    returns (rejected: seq<RejectionRecord>, violations: seq<RuleId>)
    requires forall v :: v in lifted ==> ExcelExtract.IllShaped(v)
    ensures rejected == Reinjected(lifted) && violations == RulesCited(Reinjected(lifted))
  {
    if lifted == [] {
      return [], [];
    }
    var synthetic := Ratesheet(Carriers(lifted, today, tomorrow), [], [], []);
    var validated, cited := ApplyHardRules(synthetic, today);
    ReinjectionRejectsAll(lifted, today, tomorrow, today);
    assert [] + Reinjected(lifted) == Reinjected(lifted);
    rejected, violations := validated.rejected, cited;
  }

  /** Stage 4: the stored sheet, and the rule ids of the audit entry. */
  method Validate(sheet: Ratesheet, table: VoteTable, rounds: Rounds, today: Date, tomorrow: Date)
    returns (r: Result<Ratesheet, CorrectionError>, violations: seq<RuleId>)
    requires WellFormed(table)
    requires forall v :: v in sheet.shapeViolating ==> ExcelExtract.IllShaped(v)
    ensures r.Err? <==> exists i: nat :: i < |sheet.flags| && Escalates(sheet.flags[i], table) && RoundFails(rounds(i))
    ensures r.Ok? ==> r.value == Validated(sheet, table, rounds, today)
    ensures violations == RulesCited(Rejections(sheet.lanes, today)) + RulesCited(Reinjected(sheet.shapeViolating))
  {
    var validated, cited := ApplyHardRules(sheet, today);
    var rejected, citedAgain := Reinject(sheet.shapeViolating, today, tomorrow);
    violations := cited + citedAgain;
    var low := ScoreLanes(validated.lanes, table);
    var surviving := CorrectFlags(validated.flags, table, rounds);
    if surviving.Err? {
      r := Err(surviving.error);
      return;
    }
    r := Ok(validated.(rejected := validated.rejected + rejected, flags := surviving.value + low));
  }
}
