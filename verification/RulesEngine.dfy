/** Stage 4 hard rules R1..R7, first violation wins (packages/ingest/rules_engine.py). */
module RulesEngine {
  import opened Prelude
  import opened Lanes

  const EQUIPMENT_TYPES: set<string> := {"20GP", "40GP", "40HC", "20RF", "40RF", "OOG", "BULK"}
  const SURCHARGE_BASES: set<string> := {"container", "shipment", "bl", "teu"}

  /** What each rule forbids, on its own. */
  predicate Breaks(lane: LaneRecord, rule: RuleId, today: Date) {
    match rule
    case PortUnknownUnlocode => !UnlocodeShape(lane.origin.code) || !UnlocodeShape(lane.destination.code)
    case NegativeBaseRate => !lane.baseRateUsd.Positive()
    case ValidityInThePast => lane.validityEnd < today
    case ValidityInverted => lane.validityStart > lane.validityEnd
    case TransitOutOfRange => lane.transitDays.Some? && !(1 <= lane.transitDays.value <= 120)
    case EquipmentUnknown => lane.equipmentType !in EQUIPMENT_TYPES
    case SurchargeBasisUnknown => exists s :: s in lane.surcharges && s.appliesPer !in SURCHARGE_BASES
  }

  /** R1..R7. */
  function Number(rule: RuleId): (n: nat)
    ensures 1 <= n <= 7
  {
    match rule
    case PortUnknownUnlocode => 1 case NegativeBaseRate => 2 case ValidityInThePast => 3
    case ValidityInverted => 4 case TransitOutOfRange => 5 case EquipmentUnknown => 6
    case SurchargeBasisUnknown => 7
  }

  method UnknownBasis(surcharges: seq<Surcharge>) returns (found: bool)
    ensures found <==> exists s :: s in surcharges && s.appliesPer !in SURCHARGE_BASES
  {
    for i := 0 to |surcharges|
      invariant forall j :: 0 <= j < i ==> surcharges[j].appliesPer in SURCHARGE_BASES
    {
      if surcharges[i].appliesPer !in SURCHARGE_BASES {
        return true;
      }
    }
    found := false;
  }

  /** The chain of early returns. */
  function Evaluate(lane: LaneRecord, today: Date): Option<RuleId> {
    if !UnlocodeShape(lane.origin.code) then Some(PortUnknownUnlocode)
    else if !UnlocodeShape(lane.destination.code) then Some(PortUnknownUnlocode)
    else if !lane.baseRateUsd.Positive() then Some(NegativeBaseRate)
    else if lane.validityEnd < today then Some(ValidityInThePast)
    else if lane.validityStart > lane.validityEnd then Some(ValidityInverted)
    else if lane.transitDays.Some? && !(1 <= lane.transitDays.value <= 120) then Some(TransitOutOfRange)
    else if lane.equipmentType !in EQUIPMENT_TYPES then Some(EquipmentUnknown)
    else if exists s :: s in lane.surcharges && s.appliesPer !in SURCHARGE_BASES then Some(SurchargeBasisUnknown)
    else None
  }

  /** The least-numbered broken rule, or none if no rule is broken. */
  ghost predicate LeastBroken(lane: LaneRecord, today: Date, violation: Option<RuleId>) {
    && (violation.None? ==> forall q :: !Breaks(lane, q, today))
    && (violation.Some? ==> Breaks(lane, violation.value, today)
                            && forall q :: Number(q) < Number(violation.value) ==> !Breaks(lane, q, today))
  }

  method EvaluateLane(lane: LaneRecord, today: Date) returns (violation: Option<RuleId>)
    ensures LeastBroken(lane, today, violation)
  {
    if !UnlocodeShape(lane.origin.code) {
      return Some(PortUnknownUnlocode);
    }
    if !UnlocodeShape(lane.destination.code) {
      return Some(PortUnknownUnlocode);
    }
    if !lane.baseRateUsd.Positive() {
      return Some(NegativeBaseRate);
    }
    if lane.validityEnd < today {
      return Some(ValidityInThePast);
    }
    if lane.validityStart > lane.validityEnd {
      return Some(ValidityInverted);
    }
    if lane.transitDays.Some? && !(1 <= lane.transitDays.value <= 120) {
      return Some(TransitOutOfRange);
    }
    if lane.equipmentType !in EQUIPMENT_TYPES {
      return Some(EquipmentUnknown);
    }
    var unknown := UnknownBasis(lane.surcharges);
    return if unknown then Some(SurchargeBasisUnknown) else None;
  }

  /** A lane is cited for its least-numbered broken rule, and passes only if it breaks none. */
  lemma {:induction false} LeastBrokenRule(lane: LaneRecord, today: Date, rule: RuleId)
    ensures Evaluate(lane, today) == Some(rule) <==>
              Breaks(lane, rule, today) && forall q :: Number(q) < Number(rule) ==> !Breaks(lane, q, today)
    ensures Evaluate(lane, today).None? <==> forall q :: !Breaks(lane, q, today)
  {
    var v := Evaluate(lane, today);
    if v.Some? {
      assert Breaks(lane, v.value, today);
      assert forall q :: Number(q) < Number(v.value) ==> !Breaks(lane, q, today);
    } else {
      assert forall q :: !Breaks(lane, q, today);
    }
  }

  /** There is only one such verdict. */
  lemma {:induction false} OneVerdict(lane: LaneRecord, today: Date, violation: Option<RuleId>)
    requires LeastBroken(lane, today, violation)
    ensures violation == Evaluate(lane, today)
  {
    if violation.Some? {
      LeastBrokenRule(lane, today, violation.value);
    } else {
      LeastBrokenRule(lane, today, PortUnknownUnlocode);
    }
  }

  lemma {:induction false} VerdictIsLeast(lane: LaneRecord, today: Date)
    ensures LeastBroken(lane, today, Evaluate(lane, today))
  {
    LeastBrokenRule(lane, today, if Evaluate(lane, today).Some? then Evaluate(lane, today).value else PortUnknownUnlocode);
  }

  predicate Passes(lane: LaneRecord, today: Date) {
    Evaluate(lane, today).None?
  }

  function Survivors(lanes: seq<LaneRecord>, today: Date): seq<LaneRecord> {
    Filter(lanes, (l: LaneRecord) => Passes(l, today))
  }

  function Losers(lanes: seq<LaneRecord>, today: Date): seq<LaneRecord> {
    Filter(lanes, (l: LaneRecord) => !Passes(l, today))
  }

  function Cite(lane: LaneRecord, today: Date): (r: RejectionRecord)
    requires !Passes(lane, today)
  {
    RejectionRecord(lane.source, lane.laneId, Evaluate(lane, today).value)
  }

  /** The records of rejected lanes, in order. */
  function Records(losers: seq<LaneRecord>, today: Date): (r: seq<RejectionRecord>)
    requires forall l :: l in losers ==> !Passes(l, today)
    ensures |r| == |losers| && forall i :: 0 <= i < |losers| ==> r[i] == Cite(losers[i], today)
  {
    if losers == [] then [] else Records(losers[..|losers| - 1], today) + [Cite(losers[|losers| - 1], today)]
  }

  function Rejections(lanes: seq<LaneRecord>, today: Date): seq<RejectionRecord> {
    Records(Losers(lanes, today), today)
  }

  function RulesCited(records: seq<RejectionRecord>): (r: seq<RuleId>)
    ensures |r| == |records| && forall i :: 0 <= i < |records| ==> r[i] == records[i].rule
  {
    seq(|records|, i requires 0 <= i < |records| => records[i].rule)
  }

  /** The lane breaks no rule. */
  ghost predicate Lawful(lane: LaneRecord, today: Date) {
    forall rule :: !Breaks(lane, rule, today)
  }

  /** The record names the lane, its own source, and its least-numbered broken rule. */
  ghost predicate CitesLeast(record: RejectionRecord, lane: LaneRecord, today: Date) {
    record.source == lane.source && record.laneId == lane.laneId && LeastBroken(lane, today, Some(record.rule))
  }

  /** `kept` are the lanes that break no rule, in order; `records` cite the others, one by one, in order. */
  ghost predicate Judged(lanes: seq<LaneRecord>, today: Date, kept: seq<LaneRecord>, records: seq<RejectionRecord>) {
    var lawful, broken := (l: LaneRecord) => Lawful(l, today), (l: LaneRecord) => !Lawful(l, today);
    && kept == Filter(lanes, lawful)
    && |records| == |Filter(lanes, broken)|
    && forall i :: 0 <= i < |records| ==> CitesLeast(records[i], Filter(lanes, broken)[i], today)
  }

  lemma {:induction false} RulesJudge(lanes: seq<LaneRecord>, today: Date)
    ensures Judged(lanes, today, Survivors(lanes, today), Rejections(lanes, today))
  {
    forall l: LaneRecord ensures Passes(l, today) <==> Lawful(l, today) {
      VerdictIsLeast(l, today);
    }
    SameFilter(lanes, (l: LaneRecord) => Passes(l, today), (l: LaneRecord) => Lawful(l, today));
    SameFilter(lanes, (l: LaneRecord) => !Passes(l, today), (l: LaneRecord) => !Lawful(l, today));
    var losers := Losers(lanes, today);
    forall i | 0 <= i < |losers| ensures CitesLeast(Rejections(lanes, today)[i], losers[i], today) {
      assert losers[i] in losers;
      VerdictIsLeast(losers[i], today);
    }
  }

  lemma {:induction false} TailJudged(lanes: seq<LaneRecord>, today: Date, prior: seq<RejectionRecord>)
    ensures var all := prior + Rejections(lanes, today);
            && prior <= all && all[|prior|..] == Rejections(lanes, today)
            && Judged(lanes, today, Survivors(lanes, today), all[|prior|..])
  {
    RulesJudge(lanes, today);
  }

  lemma {:induction false} SurvivorsNext(lanes: seq<LaneRecord>, n: nat, today: Date)
    requires n < |lanes|
    ensures Survivors(lanes[..n + 1], today)
         == Survivors(lanes[..n], today) + if Passes(lanes[n], today) then [lanes[n]] else []
  {
    FilterNext(lanes, n, (l: LaneRecord) => Passes(l, today));
  }

  lemma {:induction false} LosersNext(lanes: seq<LaneRecord>, n: nat, today: Date)
    requires n < |lanes|
    ensures Losers(lanes[..n + 1], today)
         == Losers(lanes[..n], today) + if !Passes(lanes[n], today) then [lanes[n]] else []
  {
    FilterNext(lanes, n, (l: LaneRecord) => !Passes(l, today));
  }

  lemma {:induction false} RejectionsNext(lanes: seq<LaneRecord>, n: nat, today: Date)
    requires n < |lanes|
    ensures Rejections(lanes[..n + 1], today)
         == Rejections(lanes[..n], today) + if !Passes(lanes[n], today) then [Cite(lanes[n], today)] else []
  {
    LosersNext(lanes, n, today);
    var before := Losers(lanes[..n], today);
    if !Passes(lanes[n], today) {
      assert (before + [lanes[n]])[..|before|] == before;
    } else {
      assert before + [] == before;
    }
  }

  /** Rejected lanes leave `lanes` and are appended to the rejections, everything in input order. */
  method ApplyHardRules(rs: Ratesheet, today: Date) returns (updated: Ratesheet, violations: seq<RuleId>)
    ensures updated == rs.(lanes := Survivors(rs.lanes, today),
                           rejected := rs.rejected + Rejections(rs.lanes, today))
    ensures violations == RulesCited(Rejections(rs.lanes, today))
    ensures rs.rejected <= updated.rejected
            && Judged(rs.lanes, today, updated.lanes, updated.rejected[|rs.rejected|..])
  {
    var surviving: seq<LaneRecord> := [];
    var rejected := rs.rejected;
    violations := [];
    for n := 0 to |rs.lanes|
      invariant surviving == Survivors(rs.lanes[..n], today)
      invariant rejected == rs.rejected + Rejections(rs.lanes[..n], today)
      invariant violations == RulesCited(Rejections(rs.lanes[..n], today))
    {
      var lane := rs.lanes[n];
      var violation := EvaluateLane(lane, today);
      OneVerdict(lane, today, violation);
      SurvivorsNext(rs.lanes, n, today);
      RejectionsNext(rs.lanes, n, today);
      if violation.None? {
        surviving := surviving + [lane];
      } else {
        rejected := rejected + [RejectionRecord(lane.source, lane.laneId, violation.value)];
        violations := violations + [violation.value];
      }
    }
    assert rs.lanes[..|rs.lanes|] == rs.lanes;
    updated := rs.(lanes := surviving, rejected := rejected);
    TailJudged(rs.lanes, today, rs.rejected);
  }

  /** A stable partition: survivors and losers interleave back to exactly the input. */
  lemma {:induction false} StablePartition(lanes: seq<LaneRecord>, today: Date)
    ensures Weave(Mask(lanes, (l: LaneRecord) => Passes(l, today)), Survivors(lanes, today), Losers(lanes, today)) == lanes
    ensures |Survivors(lanes, today)| + |Rejections(lanes, today)| == |lanes|
  {
    WeaveFilters(lanes, (l: LaneRecord) => Passes(l, today), (l: LaneRecord) => !Passes(l, today));
  }

  /** Running the rules again on the same day changes nothing. */
  lemma {:induction false} Idempotent(lanes: seq<LaneRecord>, today: Date)
    ensures Survivors(Survivors(lanes, today), today) == Survivors(lanes, today)
    ensures Rejections(Survivors(lanes, today), today) == []
  {
    FilterTwice(lanes, (l: LaneRecord) => Passes(l, today), (l: LaneRecord) => Passes(l, today));
    FilterNone(Survivors(lanes, today), (l: LaneRecord) => !Passes(l, today));
  }

  /** A later day turns a verdict only by making the validity window past. */
  lemma {:induction false} LaterVerdict(lane: LaneRecord, today: Date, later: Date)
    requires today <= later
    ensures Passes(lane, later) ==> Passes(lane, today)
    ensures !Passes(lane, later) && Evaluate(lane, today) != Evaluate(lane, later) ==>
              Evaluate(lane, later) == Some(ValidityInThePast)
  {
  }

  /** A later clock only shrinks the survivors; every newly lost lane is cited for its past window. */
  lemma {:induction false} LaterClock(lanes: seq<LaneRecord>, today: Date, later: Date)
    requires today <= later
    ensures Survivors(Survivors(lanes, today), later) == Survivors(lanes, later)
    ensures forall v :: v in Rejections(Survivors(lanes, today), later) ==> v.rule == ValidityInThePast
  {
    forall l: LaneRecord ensures Passes(l, later) ==> Passes(l, today) {
      LaterVerdict(l, today, later);
    }
    FilterTwice(lanes, (l: LaneRecord) => Passes(l, today), (l: LaneRecord) => Passes(l, later));
    var losers := Losers(Survivors(lanes, today), later);
    forall l | l in losers ensures Cite(l, later).rule == ValidityInThePast {
      assert l in Survivors(lanes, today);
      LaterVerdict(l, today, later);
    }
  }
}
