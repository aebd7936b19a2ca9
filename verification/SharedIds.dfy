/**
 Lanes that share an id.  Lane ids are not checked for uniqueness and the vote table has one row per id, so
 the correction of a flagged lane runs on the votes of the last lane with its id.
 */
module SharedIds {
  import opened Prelude
  import opened Lanes
  import opened Keys
  import opened Counting
  import opened FiveVotes
  import opened Consensus
  import opened Conformal
  import opened RulesEngine
  import opened Normalizer
  import opened Stage4
  import ConsensusLaws

  ghost predicate DistinctIds(lanes: seq<LaneRecord>) {
    forall i, j :: 0 <= i < j < |lanes| ==> lanes[i].laneId != lanes[j].laneId
  }

  /** The last lane with the id of lane `i`. */
  function LastOfId(lanes: seq<LaneRecord>, i: nat): (last: nat)
    requires i < |lanes|
    ensures i <= last < |lanes| && lanes[last].laneId == lanes[i].laneId
    ensures forall j :: last < j < |lanes| ==> lanes[j].laneId != lanes[i].laneId
    decreases |lanes|
  {
    var m := |lanes| - 1;
    if lanes[m].laneId == lanes[i].laneId then m else LastOfId(lanes[..m], i)
  }

  ghost function Calls(round: Round): seq<Vote>
    requires !RoundFails(round)
  {
    [round.calls[0].value, round.calls[1].value]
  }

  /** Both correction calls answered, and with them these three votes have a majority on every field. */
  ghost predicate FiveAgree(votes: seq<Vote>, round: Round) {
    !RoundFails(round) && EveryFieldElected(votes + Calls(round))
  }

  /** What the correction loop looks at: the stored result of the last lane with the flag's id. */
  lemma {:induction false} StoredIsLast(lanes: seq<LaneRecord>, ensembles: nat -> Ensemble,
                                        results: seq<ConsensusResult>, i: nat)
    requires Polled(lanes, ensembles, results) && |results| == |lanes| && i < |lanes|
    ensures var last, table := LastOfId(lanes, i), Snapshots(results);
            && lanes[i].laneId in table && table[lanes[i].laneId] == results[last]
            && results[last].votes == VotesOf(ensembles(last))
            && (results[last].requiresReview <==> results[last].lane.None?)
  {
    var last := LastOfId(lanes, i);
    forall j | last <= j < |results| ensures results[j].laneId == lanes[j].laneId {
      assert IsConsensus(lanes[j].laneId, VotesOf(ensembles(j)), results[j]);
    }
    LastSnapshotWins(results, last);
    assert IsConsensus(lanes[last].laneId, VotesOf(ensembles(last)), results[last]);
  }

  /**
   The exact fate of a no-majority flag, for every correction round: it is dropped when the last lane
   with its id was clean, or when that lane's votes and the two calls together agree on every field.
   */
  lemma {:induction false} DroppedIff(lanes: seq<LaneRecord>, ensembles: nat -> Ensemble, results: seq<ConsensusResult>,
                                      i: nat, round: Round)
    requires Polled(lanes, ensembles, results) && |results| == |lanes| && i < |lanes|
    ensures var last := LastOfId(lanes, i);
            Dropped(FlaggedLane(lanes[i], NoMajority, None), Snapshots(results), round) <==>
              results[last].lane.Some? || FiveAgree(VotesOf(ensembles(last)), round)
  {
    StoredIsLast(lanes, ensembles, results, i);
  }

  // ---------------------------------------------------------------- when the right lane is judged

  /** The two lanes' votes are interchangeable on every field. */
  ghost predicate SameElectorate(votes: seq<Vote>, votes': seq<Vote>)
    requires |votes| == 3 && |votes'| == 3
  {
    Matched(votes, votes', FieldKey)
  }

  ghost predicate Matched<K(!new)>(votes: seq<Vote>, votes': seq<Vote>, key: KeyOf<K>)
    requires |votes| == 3 && |votes'| == 3
  {
    forall f :: Interchangeable(KeysBy(votes, f, key), KeysBy(votes', f, key))
  }

  ghost predicate AllElected<K(!new)>(votes: seq<Vote>, key: KeyOf<K>) {
    forall f :: HasMajority(KeysBy(votes, f, key))
  }

  lemma {:induction false} KeysOfFive<K>(votes: seq<Vote>, w1: Vote, w2: Vote, f: Field, key: KeyOf<K>)
    ensures KeysBy(votes + [w1, w2], f, key) == KeysBy(votes, f, key) + [key(w1.lane, f), key(w2.lane, f)]
  {
  }

  lemma {:induction false} MatchedAlike<K(!new)>(votes: seq<Vote>, votes': seq<Vote>, w1: Vote, w2: Vote, key: KeyOf<K>)
    requires |votes| == 3 && |votes'| == 3 && Matched(votes, votes', key)
    ensures AllElected(votes + [w1, w2], key) <==> AllElected(votes' + [w1, w2], key)
  {
    forall f ensures HasMajority(KeysBy(votes + [w1, w2], f, key)) <==> HasMajority(KeysBy(votes' + [w1, w2], f, key)) {
      KeysOfFive(votes, w1, w2, f, key);
      KeysOfFive(votes', w1, w2, f, key);
      DecidedAlike(KeysBy(votes, f, key), KeysBy(votes', f, key), key(w1.lane, f), key(w2.lane, f));
    }
  }

  /** `lane` with one field taken from another lane. */
  function WithField(lane: LaneRecord, f: Field, from: LaneRecord): LaneRecord {
    match f
    case OriginPort => lane.(origin := from.origin)
    case DestinationPort => lane.(destination := from.destination)
    case EquipmentType => lane.(equipmentType := from.equipmentType)
    case CommodityCode => lane.(commodityCode := from.commodityCode)
    case BaseRateUsd => lane.(baseRateUsd := from.baseRateUsd)
    case TransitTimeDays => lane.(transitDays := from.transitDays)
    case ValidityStart => lane.(validityStart := from.validityStart)
    case ValidityEnd => lane.(validityEnd := from.validityEnd)
    case Surcharges => lane.(surcharges := from.surcharges)
    case SourceRowReference => lane.(source := from.source)
  }

  lemma {:induction false} WithFieldValue(lane: LaneRecord, f: Field, from: LaneRecord, g: Field)
    ensures FieldValue(WithField(lane, f, from), g) == FieldValue(if g == f then from else lane, g)
  {
  }

  /** The key of a field depends on that field alone. */
  ghost predicate FieldWise<K(!new)>(key: KeyOf<K>) {
    forall lane, f, from, g :: key(WithField(lane, f, from), g) == key(if g == f then from else lane, g)
  }

  lemma {:induction false} FieldKeyIsFieldWise()
    ensures FieldWise(FieldKey)
  {
    forall lane, f, from, g ensures FieldKey(WithField(lane, f, from), g) == FieldKey(if g == f then from else lane, g) {
      WithFieldValue(lane, f, from, g);
    }
  }

  /** Three valid lanes that differ on every field. */
  function Probe(n: nat): LaneRecord
    requires n < 3
  {
    LaneRecord("probe", PortCode(["CNSHA", "NLRTM", "SGSIN"][n]), PortCode(["CNSHA", "NLRTM", "SGSIN"][n]),
               ["20GP", "40GP", "40HC"][n], Some(["100", "200", "300"][n]), Decimal(false, n + 1, 0),
               [[], [Surcharge("BAF", Decimal(false, 1, 0), "teu")],
                [Surcharge("BAF", Decimal(false, 1, 0), "teu"), Surcharge("BAF", Decimal(false, 1, 0), "teu")]][n],
               Some(n + 1), 20260101 + n, 20270101 + n, SourceRow("Rates", n + 1, "A1"))
  }

  lemma {:induction false} ProbesDiffer(m: nat, n: nat, f: Field)
    requires m < n < 3
    ensures FieldKey(Probe(m), f) != FieldKey(Probe(n), f)
  {
    if f == Surcharges {
      SurchargesKey(Probe(m).surcharges, Probe(n).surcharges);
      assert |multiset(Probe(m).surcharges)| == |Probe(m).surcharges|;
      assert |multiset(Probe(n).surcharges)| == |Probe(n).surcharges|;
    } else if FieldKey(Probe(m), f) == FieldKey(Probe(n), f) {
      CanonicalIsExact(Probe(m), Probe(n), f);
      ProbeValues(m, n, f);
    }
  }

  lemma {:induction false} ProbeValues(m: nat, n: nat, f: Field)
    requires m < n < 3 && f != Surcharges
    ensures FieldValue(Probe(m), f) != FieldValue(Probe(n), f)
  {
    match f
    case OriginPort => assert PortFields(Probe(m).origin)[0] != PortFields(Probe(n).origin)[0];
    case DestinationPort => assert PortFields(Probe(m).destination)[0] != PortFields(Probe(n).destination)[0];
    case SourceRowReference => assert SourceFields(Probe(m).source)[1] != SourceFields(Probe(n).source)[1];
    case _ =>
  }

  /** Some lane at hand carries key `k` on field `f`. */
  lemma {:induction false} Carrier<K(!new)>(votes: seq<Vote>, votes': seq<Vote>, probes: seq<LaneRecord>, f: Field,
                                            key: KeyOf<K>, k: K)
    returns (lane: LaneRecord)
    requires |probes| == 3
    requires k in KeysBy(votes, f, key) + KeysBy(votes', f, key)
                  + [key(probes[0], f), key(probes[1], f), key(probes[2], f)]
    ensures key(lane, f) == k
  {
    if i :| 0 <= i < |votes| && KeysBy(votes, f, key)[i] == k {
      lane := votes[i].lane;
    } else if i :| 0 <= i < |votes'| && KeysBy(votes', f, key)[i] == k {
      lane := votes'[i].lane;
    } else {
      lane := if key(probes[0], f) == k then probes[0] else if key(probes[1], f) == k then probes[1] else probes[2];
    }
  }

  /** Two calls that repeat one old vote, but for field `f`. */
  lemma {:induction false} BackedByOld<K(!new)>(votes: seq<Vote>, f: Field, a: LaneRecord, b: LaneRecord, key: KeyOf<K>)
    requires |votes| == 3 && FieldWise(key)
    requires Carries(KeysBy(votes, f, key), key(a, f), key(b, f))
    ensures var w1, w2 := Vote(WithField(votes[0].lane, f, a)), Vote(WithField(votes[0].lane, f, b));
            AllElected(votes + [w1, w2], key)
  {
    var w1, w2 := Vote(WithField(votes[0].lane, f, a)), Vote(WithField(votes[0].lane, f, b));
    forall g ensures HasMajority(KeysBy(votes + [w1, w2], g, key)) {
      KeysOfFive(votes, w1, w2, g, key);
      MajorityOfFive(KeysBy(votes, g, key), key(w1.lane, g), key(w2.lane, g));
    }
  }

  lemma {:induction false} NotBacked<K(!new)>(votes: seq<Vote>, base: LaneRecord, f: Field, a: LaneRecord,
                                              b: LaneRecord, key: KeyOf<K>)
    requires |votes| == 3 && FieldWise(key)
    requires !Carries(KeysBy(votes, f, key), key(a, f), key(b, f))
    ensures !AllElected(votes + [Vote(WithField(base, f, a)), Vote(WithField(base, f, b))], key)
  {
    var w1, w2 := Vote(WithField(base, f, a)), Vote(WithField(base, f, b));
    KeysOfFive(votes, w1, w2, f, key);
    MajorityOfFive(KeysBy(votes, f, key), key(w1.lane, f), key(w2.lane, f));
  }

  /** Unmatched votes are told apart by two calls. */
  lemma {:induction false} TellingCalls<K(!new)>(votes: seq<Vote>, votes': seq<Vote>, probes: seq<LaneRecord>, f: Field,
                                                 key: KeyOf<K>)
    returns (w1: Vote, w2: Vote)
    requires |votes| == 3 && |votes'| == 3 && |probes| == 3 && FieldWise(key)
    requires AllDifferent([key(probes[0], f), key(probes[1], f), key(probes[2], f)])
    requires !Interchangeable(KeysBy(votes, f, key), KeysBy(votes', f, key))
    ensures AllElected(votes + [w1, w2], key) != AllElected(votes' + [w1, w2], key)
  {
    var ks, ks' := KeysBy(votes, f, key), KeysBy(votes', f, key);
    var a, b := TellingPair(ks, ks', [key(probes[0], f), key(probes[1], f), key(probes[2], f)]);
    var la := Carrier(votes, votes', probes, f, key, a);
    var lb := Carrier(votes, votes', probes, f, key, b);
    var base := if Carries(ks, a, b) then votes[0].lane else votes'[0].lane;
    w1, w2 := Vote(WithField(base, f, la)), Vote(WithField(base, f, lb));
    if Carries(ks, a, b) {
      BackedByOld(votes, f, la, lb, key);
      NotBacked(votes', base, f, la, lb, key);
    } else {
      BackedByOld(votes', f, la, lb, key);
      NotBacked(votes, base, f, la, lb, key);
    }
  }

  lemma {:induction false} TellingRound(votes: seq<Vote>, votes': seq<Vote>) returns (round: Round)
    requires |votes| == 3 && |votes'| == 3 && !SameElectorate(votes, votes')
    ensures FiveAgree(votes, round) != FiveAgree(votes', round)
  {
    var f :| !Interchangeable(KeysBy(votes, f, FieldKey), KeysBy(votes', f, FieldKey));
    FieldKeyIsFieldWise();
    ProbesDiffer(0, 1, f);
    ProbesDiffer(0, 2, f);
    ProbesDiffer(1, 2, f);
    var w1, w2 := TellingCalls(votes, votes', [Probe(0), Probe(1), Probe(2)], f, FieldKey);
    round := Round([Some(w1), Some(w2)], true);
    RoundVerdict(votes, round, w1, w2);
    RoundVerdict(votes', round, w1, w2);
  }

  lemma {:induction false} RoundVerdict(votes: seq<Vote>, round: Round, w1: Vote, w2: Vote)
    requires round == Round([Some(w1), Some(w2)], true)
    ensures FiveAgree(votes, round) <==> AllElected(votes + [w1, w2], FieldKey)
  {
  }

  lemma {:induction false} SameElectorateSameVerdict(votes: seq<Vote>, votes': seq<Vote>, round: Round)
    requires |votes| == 3 && |votes'| == 3 && SameElectorate(votes, votes')
    ensures FiveAgree(votes, round) <==> FiveAgree(votes', round)
  {
    if !RoundFails(round) {
      MatchedAlike(votes, votes', round.calls[0].value, round.calls[1].value, FieldKey);
    }
  }

  /** A lane matched with one that has no majority has none either. */
  lemma {:induction false} NoMajorityShared<K(!new)>(id: string, votes: seq<Vote>, r: ConsensusResult, id': string,
                                                     votes': seq<Vote>, r': ConsensusResult, key: KeyOf<K>)
    requires |votes| == 3 && |votes'| == 3 && Matched(votes, votes', key)
    requires IsConsensusBy(id, votes, r, key) && IsConsensusBy(id', votes', r', key) && r.lane.None?
    ensures r'.lane.None?
  {
    var f :| !HasMajority(KeysBy(votes, f, key));
    var ks, ks' := KeysBy(votes, f, key), KeysBy(votes', f, key);
    if Unanimous(ks) {
      ConsensusLaws.CountThree(ks, ks[0]);
      assert Majority(ks, ks[0]);
    } else {
      TopPermuted(ks, ks');
    }
  }

  /**
   Exactly when sharing an id does no harm.  The flag of a lane without a majority is dropped, in every
   correction round, exactly by the agreement of its own five votes if and only if, field by field, its
   stored votes and those of the last lane with its id are both unanimous or the same up to order.
   */
  lemma {:induction false} SharedIdIsHarmlessIff(lanes: seq<LaneRecord>, ensembles: nat -> Ensemble,
                                                 results: seq<ConsensusResult>, i: nat)
    requires Polled(lanes, ensembles, results) && |results| == |lanes| && i < |lanes| && results[i].lane.None?
    ensures (forall round :: Dropped(FlaggedLane(lanes[i], NoMajority, None), Snapshots(results), round) <==>
                             FiveAgree(VotesOf(ensembles(i)), round))
            <==> SameElectorate(VotesOf(ensembles(i)), VotesOf(ensembles(LastOfId(lanes, i))))
  {
    var last := LastOfId(lanes, i);
    var own, stored := VotesOf(ensembles(i)), VotesOf(ensembles(last));
    VerdictsIff(own, stored, results[last].lane.Some?);
    if SameElectorate(own, stored) {
      SharedVerdict(lanes, ensembles, results, i);
    }
    forall round ensures Dropped(FlaggedLane(lanes[i], NoMajority, None), Snapshots(results), round) <==>
                           Decided(stored, results[last].lane.Some?, round)
    {
      DroppedIff(lanes, ensembles, results, i, round);
    }
  }

  /** What becomes of a flag judged by these votes, of a lane that may have been clean. */
  ghost predicate Decided(stored: seq<Vote>, clean: bool, round: Round) {
    clean || FiveAgree(stored, round)
  }

  lemma {:induction false} VerdictsIff(own: seq<Vote>, stored: seq<Vote>, clean: bool)
    requires |own| == 3 && |stored| == 3
    ensures (forall round :: Decided(stored, clean, round) <==> FiveAgree(own, round)) <==> !clean && SameElectorate(own, stored)
  {
    if clean {
      var none := Round([], false);
      assert Decided(stored, clean, none) && !FiveAgree(own, none);
    } else if SameElectorate(own, stored) {
      forall round ensures Decided(stored, clean, round) <==> FiveAgree(own, round) {
        SameElectorateSameVerdict(own, stored, round);
      }
    } else {
      var round := TellingRound(own, stored);
      assert Decided(stored, clean, round) != FiveAgree(own, round);
    }
  }

  lemma {:induction false} SharedVerdict(lanes: seq<LaneRecord>, ensembles: nat -> Ensemble,
                                         results: seq<ConsensusResult>, i: nat)
    requires Polled(lanes, ensembles, results) && |results| == |lanes| && i < |lanes| && results[i].lane.None?
    requires SameElectorate(VotesOf(ensembles(i)), VotesOf(ensembles(LastOfId(lanes, i))))
    ensures results[LastOfId(lanes, i)].lane.None?
  {
    var last := LastOfId(lanes, i);
    NoMajorityShared(lanes[i].laneId, VotesOf(ensembles(i)), results[i],
                     lanes[last].laneId, VotesOf(ensembles(last)), results[last], FieldKey);
  }

  /** In particular with distinct lane ids. */
  lemma {:induction false} RescuedIffFiveVotesAgree(lanes: seq<LaneRecord>, ensembles: nat -> Ensemble,
                                                    results: seq<ConsensusResult>, i: nat, round: Round)
    requires Polled(lanes, ensembles, results) && |results| == |lanes| && DistinctIds(lanes)
    requires i < |lanes| && results[i].lane.None?
    ensures Dropped(FlaggedLane(lanes[i], NoMajority, None), Snapshots(results), round) <==>
              FiveAgree(VotesOf(ensembles(i)), round)
  {
    assert LastOfId(lanes, i) == i;
    DroppedIff(lanes, ensembles, results, i, round);
  }

  // ---------------------------------------------------------------- two inputs where sharing does harm

  /** A lane named row-2 from the given row, whose validity starts on the given day. */
  function Sample(start: Date, row: int): LaneRecord {
    LaneRecord("row-2", PortCode("CNSHA"), PortCode("NLRTM"), "40HC", None, Decimal(false, 1200, 0), [], Some(30),
               start, 20270101, SourceRow("Rates", row, "A2"))
  }

  /** Three votes on a sample that differ in the start date alone. */
  function Starts(a: Date, b: Date, c: Date): (votes: seq<Vote>)
    ensures |votes| == 3
  {
    [Vote(Sample(a, 3)), Vote(Sample(b, 3)), Vote(Sample(c, 3))]
  }

  lemma {:induction false} SampleKeys(a: Date, b: Date)
    requires a != b
    ensures FieldKey(Sample(a, 3), ValidityStart) != FieldKey(Sample(b, 3), ValidityStart)
  {
    if FieldKey(Sample(a, 3), ValidityStart) == FieldKey(Sample(b, 3), ValidityStart) {
      CanonicalIsExact(Sample(a, 3), Sample(b, 3), ValidityStart);
    }
  }

  lemma {:induction false} SplitVote<K(!new)>(id: string, votes: seq<Vote>, r: ConsensusResult, f: Field, key: KeyOf<K>)
    requires |votes| == 3 && IsConsensusBy(id, votes, r, key)
    requires AllDifferent([key(votes[0].lane, f), key(votes[1].lane, f), key(votes[2].lane, f)])
    ensures r.lane.None?
  {
    var ks := KeysBy(votes, f, key);
    if x :| Majority(ks, x) {
      ConsensusLaws.CountThree(ks, x);
    }
  }

  lemma {:induction false} UnanimousMajority<K(!new)>(ks: seq<K>)
    requires |ks| == 3 && Unanimous(ks)
    ensures HasMajority(ks)
  {
    ConsensusLaws.CountThree(ks, ks[0]);
    assert Majority(ks, ks[0]);
  }

  lemma {:induction false} AllUnanimous<K(!new)>(v: Vote, key: KeyOf<K>)
    ensures forall f :: HasMajority(KeysBy([v, v, v], f, key))
  {
    forall f ensures HasMajority(KeysBy([v, v, v], f, key)) {
      UnanimousMajority(KeysBy([v, v, v], f, key));
    }
  }

  lemma {:induction false} CleanIff<K(!new)>(id: string, votes: seq<Vote>, r: ConsensusResult, key: KeyOf<K>)
    requires IsConsensusBy(id, votes, r, key)
    ensures r.lane.Some? <==> forall f :: HasMajority(KeysBy(votes, f, key))
    ensures r.laneId == id && (r.lane.Some? ==> r.lane.value.laneId == id)
  {
  }

  lemma {:induction false} UnanimousClean<K(!new)>(id: string, v: Vote, r: ConsensusResult, key: KeyOf<K>)
    requires IsConsensusBy(id, [v, v, v], r, key)
    ensures r.laneId == id && r.lane.Some? && r.lane.value.laneId == id
  {
    AllUnanimous(v, key);
    CleanIff(id, [v, v, v], r, key);
  }

  lemma {:induction false} UnanimousField<K(!new)>(id: string, v: Vote, r: ConsensusResult, f: Field, key: KeyOf<K>)
    requires IsConsensusBy(id, [v, v, v], r, key) && r.lane.Some?
    ensures FieldValue(r.lane.value, f) == FieldValue(v.lane, f)
  {
    ElectedAlone(v, r.lane.value, f, key);
  }

  lemma {:induction false} ElectedAlone<K(!new)>(v: Vote, lane: LaneRecord, f: Field, key: KeyOf<K>)
    requires Elected([v, v, v], lane, f, key)
    ensures FieldValue(lane, f) == FieldValue(v.lane, f)
  {
  }

  /** Three equal votes elect their lane. */
  lemma {:induction false} UnanimousLane(id: string, v: Vote, r: ConsensusResult)
    requires IsConsensus(id, [v, v, v], r)
    ensures r.lane == Some(v.lane.(laneId := id))
  {
    UnanimousClean(id, v, r, FieldKey);
    var lane := v.lane.(laneId := id);
    forall f ensures FieldValue(r.lane.value, f) == FieldValue(lane, f) {
      UnanimousField(id, v, r, f, FieldKey);
      OnlyTheId(v.lane, id, f);
    }
    SameFieldsSameLane(r.lane.value, lane);
  }

  lemma {:induction false} OnlyTheId(lane: LaneRecord, id: string, f: Field)
    ensures FieldValue(lane.(laneId := id), f) == FieldValue(lane, f)
  {
  }

  /** And score at the top. */
  lemma {:induction false} UnanimousAccepted(v: Vote)
    ensures Accepts(Confidence([v, v, v]))
  {
    var votes := [v, v, v];
    var tops := TopsBy(votes, FieldValue, |VOTED_FIELDS|);
    forall i | 0 <= i < |tops| ensures 3 <= tops[i] {
      TopAt(votes, i);
      UnanimousPlain(v, VOTED_FIELDS[i]);
    }
    SumAtLeast(tops, 3);
    TopsBounds(votes);
    AcceptanceRule(Agreement(votes), 3);
  }

  lemma {:induction false} UnanimousPlain(v: Vote, f: Field)
    ensures PlainTop([v, v, v], f) >= 3
  {
    UnanimousTop(KeysBy([v, v, v], f, FieldValue));
  }

  lemma {:induction false} UnanimousTop<K(!new)>(ks: seq<K>)
    requires |ks| == 3 && Unanimous(ks)
    ensures TopCount(ks) >= 3
  {
    ConsensusLaws.CountThree(ks, ks[0]);
    assert ks[0] in ks;
  }

  /** A port table that knows every code as it stands. */
  function Verbatim(): Resolver {
    (code: string) => Some(PortCode(code))
  }

  /** The two extracted lanes: the same id, different rows. */
  function Pair(): seq<LaneRecord> {
    [Sample(20260401, 2), Sample(20260101, 3)]
  }

  lemma {:induction false} PairVerdicts(first: ConsensusResult, second: ConsensusResult)
    requires IsConsensus("row-2", Starts(20260101, 20260201, 20260301), first)
    requires IsConsensus("row-2", Starts(20260101, 20260101, 20260101), second)
    ensures first.laneId == second.laneId == "row-2" && first.lane.None? && second.lane == Some(Sample(20260101, 3))
    ensures second.votes == Starts(20260101, 20260101, 20260101) && !second.requiresReview
  {
    SampleKeys(20260101, 20260201);
    SampleKeys(20260101, 20260301);
    SampleKeys(20260201, 20260301);
    SplitVote("row-2", Starts(20260101, 20260201, 20260301), first, ValidityStart, FieldKey);
    UnanimousLane("row-2", Vote(Sample(20260101, 3)), second);
  }

  lemma {:induction false} SampleRoutes(first: ConsensusResult, second: ConsensusResult)
    requires first.lane.None? && second.lane == Some(Sample(20260101, 3))
    ensures Route(Sample(20260401, 2), first, Verbatim()) == Flag(FlaggedLane(Sample(20260401, 2), NoMajority, None))
    ensures Route(Sample(20260101, 3), second, Verbatim()) == Final(Sample(20260101, 3))
  {
    var lane := Sample(20260101, 3);
    assert lane.(origin := PortCode(lane.origin.code), destination := PortCode(lane.destination.code)) == lane;
  }

  lemma {:induction false} PairRoutes(first: ConsensusResult, second: ConsensusResult)
    requires first.lane.None? && second.lane == Some(Sample(20260101, 3))
    ensures var routes := Routes(Pair(), [first, second], Verbatim());
            && Finals(routes) == [Sample(20260101, 3)]
            && Flags(routes) == [FlaggedLane(Sample(20260401, 2), NoMajority, None)]
  {
    var flag, lane := FlaggedLane(Sample(20260401, 2), NoMajority, None), Sample(20260101, 3);
    SampleRoutes(first, second);
    var routes := Routes(Pair(), [first, second], Verbatim());
    TwoRoutes(routes, flag, lane);
  }

  lemma {:induction false} TwoRoutes(routes: seq<Routed>, flag: FlaggedLane, lane: LaneRecord)
    requires |routes| == 2 && routes[0] == Flag(flag) && routes[1] == Final(lane)
    ensures Finals(routes) == [lane] && Flags(routes) == [flag]
  {
    assert routes == [] + [Flag(flag)] + [Final(lane)];
    RoutesSnoc([], Flag(flag));
    RoutesSnoc([] + [Flag(flag)], Final(lane));
  }

  lemma {:induction false} SamplePasses(today: Date)
    requires today <= 20270101
    ensures Passes(Sample(20260101, 3), today)
  {
    var code1, code2 := "CNSHA", "NLRTM";
    assert UnlocodeShape(code1) && UnlocodeShape(code2);
    assert "40HC" in EQUIPMENT_TYPES;
  }

  /**
   Two extracted lanes named row-2: the votes on the first agree on no start date, those on the second are
   unanimous.  The first lane's flag is dropped, no correction is called, and what is stored knows only the
   second lane: no flag, no rejection, and no lane of the first one's row.
   */
  lemma {:induction false} DuplicateIdVanishes(first: ConsensusResult, second: ConsensusResult, rounds: Rounds,
                                               today: Date)
    requires IsConsensus("row-2", Starts(20260101, 20260201, 20260301), first)
    requires IsConsensus("row-2", Starts(20260101, 20260101, 20260101), second)
    requires today <= 20270101
    ensures var routes, table := Routes(Pair(), [first, second], Verbatim()), Snapshots([first, second]);
            && !Escalates(FlaggedLane(Sample(20260401, 2), NoMajority, None), table)
            && WellFormed(table)
            && Validated(Ratesheet(Finals(routes), Flags(routes), [], []), table, rounds, today)
               == Ratesheet([Sample(20260101, 3)], [], [], [])
  {
    PairVerdicts(first, second);
    PairEnd(first, second, rounds, today);
  }

  lemma {:induction false} PairEnd(first: ConsensusResult, second: ConsensusResult, rounds: Rounds, today: Date)
    requires first.laneId == second.laneId == "row-2" && first.lane.None? && second.lane == Some(Sample(20260101, 3))
    requires second.votes == Starts(20260101, 20260101, 20260101) && !second.requiresReview
    requires today <= 20270101
    ensures var routes, table := Routes(Pair(), [first, second], Verbatim()), Snapshots([first, second]);
            && !Escalates(FlaggedLane(Sample(20260401, 2), NoMajority, None), table)
            && WellFormed(table)
            && Validated(Ratesheet(Finals(routes), Flags(routes), [], []), table, rounds, today)
               == Ratesheet([Sample(20260101, 3)], [], [], [])
  {
    PairRoutes(first, second);
    SamplePasses(today);
    PairTable(first, second);
    PairStored(Snapshots([first, second]), second, rounds, today);
  }

  lemma {:induction false} PairTable(first: ConsensusResult, second: ConsensusResult)
    requires first.laneId == second.laneId
    ensures Snapshots([first, second]) == map[second.laneId := second]
  {
    assert [first, second][..1] == [first] && [first][..0] == [];
    assert Snapshots([first]) == map[first.laneId := first];
  }

  lemma {:induction false} PairStored(table: VoteTable, second: ConsensusResult, rounds: Rounds, today: Date)
    requires table == map["row-2" := second] && WellFormed(table) && second.lane.Some?
    requires second.votes == Starts(20260101, 20260101, 20260101) && Passes(Sample(20260101, 3), today)
    ensures Validated(Ratesheet([Sample(20260101, 3)], [FlaggedLane(Sample(20260401, 2), NoMajority, None)], [], []),
                      table, rounds, today)
         == Ratesheet([Sample(20260101, 3)], [], [], [])
  {
    var lane, flag := Sample(20260101, 3), FlaggedLane(Sample(20260401, 2), NoMajority, None);
    FilterAll([lane], (l: LaneRecord) => Passes(l, today));
    FilterNone([lane], (l: LaneRecord) => !Passes(l, today));
    UnanimousAccepted(Vote(lane));
    assert LowFlags([lane], table) == [] by {
      assert [lane][..0] == [] && LowFlag(lane, table) == [];
    }
    assert Kept([flag], table, rounds) == [] by {
      assert [flag][..0] == [] && Dropped(flag, table, rounds(0));
    }
  }

  /**
   Two extracted lanes named row-2, neither with a majority.  Both correction calls answer 2026-04-01, a
   date the second lane's votes know and the first lane's do not: the first lane's own five votes agree on
   no start date, yet its flag is dropped, because the second lane's votes were put to the count.
   */
  lemma {:induction false} WrongVotesRescue(first: ConsensusResult, second: ConsensusResult)
    requires IsConsensus("row-2", Starts(20260101, 20260201, 20260301), first)
    requires IsConsensus("row-2", Starts(20260401, 20260501, 20260601), second)
    ensures var round := Round([Some(Vote(Sample(20260401, 3))), Some(Vote(Sample(20260401, 3)))], true);
            && first.lane.None? && second.lane.None?
            && !FiveAgree(Starts(20260101, 20260201, 20260301), round)
            && Dropped(FlaggedLane(Sample(20260401, 2), NoMajority, None), Snapshots([first, second]), round)
  {
    var call := Vote(Sample(20260401, 3));
    WrongVerdicts(first, second);
    WrongRound(Starts(20260101, 20260201, 20260301), call, false);
    WrongRound(Starts(20260401, 20260501, 20260601), call, true);
    PairTable(first, second);
    PairDropped(first, second, Round([Some(call), Some(call)], true));
  }

  lemma {:induction false} WrongRound(votes: seq<Vote>, call: Vote, agrees: bool)
    requires AllElected(votes + [call, call], FieldKey) == agrees
    ensures FiveAgree(votes, Round([Some(call), Some(call)], true)) == agrees
  {
    RoundVerdict(votes, Round([Some(call), Some(call)], true), call, call);
  }

  lemma {:induction false} WrongVerdicts(first: ConsensusResult, second: ConsensusResult)
    requires IsConsensus("row-2", Starts(20260101, 20260201, 20260301), first)
    requires IsConsensus("row-2", Starts(20260401, 20260501, 20260601), second)
    ensures var call := Vote(Sample(20260401, 3));
            && first.laneId == second.laneId == "row-2" && first.lane.None? && second.lane.None?
            && second.votes == Starts(20260401, 20260501, 20260601)
            && !AllElected(Starts(20260101, 20260201, 20260301) + [call, call], FieldKey)
            && AllElected(Starts(20260401, 20260501, 20260601) + [call, call], FieldKey)
  {
    StartsDiffer(20260101, 20260201, 20260301);
    StartsDiffer(20260401, 20260501, 20260601);
    NotAmongStarts(20260101, 20260201, 20260301, 20260401);
    FieldKeyIsFieldWise();
    OneKnowsTheCall("row-2", Starts(20260101, 20260201, 20260301), first, Starts(20260401, 20260501, 20260601), second,
                    Vote(Sample(20260401, 3)), ValidityStart, FieldKey);
  }

  lemma {:induction false} NotAmongStarts(a: Date, b: Date, c: Date, d: Date)
    requires d != a && d != b && d != c
    ensures FieldKey(Sample(d, 3), ValidityStart) !in KeysBy(Starts(a, b, c), ValidityStart, FieldKey)
  {
    SampleKeys(d, a);
    SampleKeys(d, b);
    SampleKeys(d, c);
  }

  lemma {:induction false} StartsDiffer(a: Date, b: Date, c: Date)
    requires a != b && a != c && b != c
    ensures AllDifferent(KeysBy(Starts(a, b, c), ValidityStart, FieldKey))
  {
    SampleKeys(a, b);
    SampleKeys(a, c);
    SampleKeys(b, c);
  }

  /** Two split votes on a field, and a call repeated twice that only the second one's votes contain. */
  lemma {:induction false} OneKnowsTheCall<K(!new)>(id: string, own: seq<Vote>, first: ConsensusResult,
                                                    stored: seq<Vote>, second: ConsensusResult, call: Vote, f: Field,
                                                    key: KeyOf<K>)
    requires |own| == 3 && |stored| == 3 && IsConsensusBy(id, own, first, key) && IsConsensusBy(id, stored, second, key)
    requires FieldWise(key) && stored[0] == call && WithField(call.lane, f, call.lane) == call.lane
    requires AllDifferent(KeysBy(own, f, key)) && AllDifferent(KeysBy(stored, f, key))
    requires key(call.lane, f) !in KeysBy(own, f, key)
    ensures first.laneId == id && second.laneId == id && first.lane.None? && second.lane.None? && second.votes == stored
    ensures !AllElected(own + [call, call], key) && AllElected(stored + [call, call], key)
  {
    SplitVote(id, own, first, f, key);
    SplitVote(id, stored, second, f, key);
    NotBacked(own, call.lane, f, call.lane, call.lane, key);
    assert key(call.lane, f) == KeysBy(stored, f, key)[0];
    BackedByOld(stored, f, call.lane, call.lane, key);
  }

  lemma {:induction false} PairDropped(first: ConsensusResult, second: ConsensusResult, round: Round)
    requires Snapshots([first, second]) == map["row-2" := second] && FiveAgree(second.votes, round)
    ensures Dropped(FlaggedLane(Sample(20260401, 2), NoMajority, None), Snapshots([first, second]), round)
  {
  }
}
