/** Strict per-field majority over the ensemble's votes (packages/ingest/consensus.py). */
module Consensus {
  import opened Prelude
  import opened Lanes
  import opened Keys
  import opened Counting

  datatype ConsensusResult = ConsensusResult(laneId: string, lane: Option<LaneRecord>, votes: seq<Vote>,
                                             agreement: map<Field, nat>, requiresReview: bool)

  /** ValueError for no votes; the result model itself admits three to five. */
  datatype VoteError = NoVotes | VoteCountRejected

  /** The key under which a lane's field value is counted. */
  type KeyOf<!K> = (LaneRecord, Field) -> K

  function KeysBy<K>(votes: seq<Vote>, f: Field, key: KeyOf<K>): (ks: seq<K>)
    ensures |ks| == |votes| && forall i :: 0 <= i < |votes| ==> ks[i] == key(votes[i].lane, f)
  {
    seq(|votes|, i requires 0 <= i < |votes| => key(votes[i].lane, f))
  }

  /** The field's key was cast by more than half of the votes, and its value is that of the last of these. */
  ghost predicate Elected<K(!new)>(votes: seq<Vote>, lane: LaneRecord, f: Field, key: KeyOf<K>) {
    && Majority(KeysBy(votes, f, key), key(lane, f))
    && exists i: nat :: LastCast(KeysBy(votes, f, key), |votes|, key(lane, f), i)
                        && FieldValue(lane, f) == FieldValue(votes[i].lane, f)
  }

  /** Fields are voted on in order, up to and including the first one without a majority. */
  ghost predicate Judged<K(!new)>(votes: seq<Vote>, f: Field, key: KeyOf<K>) {
    forall g :: Position(g) < Position(f) ==> HasMajority(KeysBy(votes, g, key))
  }

  /** What a consensus is, in terms of the votes alone. */
  ghost predicate IsConsensusBy<K(!new)>(laneId: string, votes: seq<Vote>, r: ConsensusResult, key: KeyOf<K>) {
    && r.laneId == laneId && r.votes == votes
    && (r.requiresReview <==> r.lane.None?)
    && (r.lane.Some? <==> forall f :: HasMajority(KeysBy(votes, f, key)))
    && (r.lane.Some? ==> r.lane.value.laneId == laneId && forall f :: Elected(votes, r.lane.value, f, key))
    && (forall f :: f in r.agreement <==> Judged(votes, f, key))
    && (forall f :: f in r.agreement ==> r.agreement[f] == TopCount(KeysBy(votes, f, key)))
  }

  ghost predicate IsConsensus(laneId: string, votes: seq<Vote>, r: ConsensusResult) {
    IsConsensusBy(laneId, votes, r, FieldKey)
  }

  /** `counter` counts the first `n` keys. */
  ghost predicate Counts<K(!new)>(counter: map<K, nat>, ks: seq<K>, n: nat)
    requires n <= |ks|
  {
    forall k :: (k in counter <==> k in ks[..n]) && (k in counter ==> counter[k] == Count(ks[..n], k))
  }

  lemma {:induction false} CountsNext<K(!new)>(counter: map<K, nat>, ks: seq<K>, n: nat)
    requires n < |ks| && Counts(counter, ks, n)
    ensures Counts(counter[ks[n] := (if ks[n] in counter then counter[ks[n]] else 0) + 1], ks, n + 1)
  {
    assert ks[..n + 1] == ks[..n] + [ks[n]];
    var counter' := counter[ks[n] := (if ks[n] in counter then counter[ks[n]] else 0) + 1];
    forall k
      ensures k in counter' <==> k in ks[..n + 1]
      ensures k in counter' ==> counter'[k] == Count(ks[..n + 1], k)
    {
      CountAppend(ks[..n], [ks[n]], k);
    }
  }

  /** `i` is where key `k` was cast last among the first `n`. */
  ghost predicate LastCast<K>(ks: seq<K>, n: nat, k: K, i: nat)
    requires n <= |ks|
  {
    i < n && ks[i] == k && forall j :: i < j < n ==> ks[j] != k
  }

  ghost predicate KeepsLast<K(!new)>(kept: map<K, nat>, ks: seq<K>, n: nat)
    requires n <= |ks|
  {
    forall k :: k in ks[..n] ==> k in kept && LastCast(ks, n, k, kept[k])
  }

  lemma {:induction false} KeepsLastNext<K(!new)>(kept: map<K, nat>, ks: seq<K>, n: nat)
    requires n < |ks| && KeepsLast(kept, ks, n)
    ensures KeepsLast(kept[ks[n] := n], ks, n + 1)
  {
    assert ks[..n + 1] == ks[..n] + [ks[n]];
  }

  /** One pass over the votes: how often each key was cast, and which vote cast it last. */
  method TallyVotes<K(==,!new)>(ks: seq<K>) returns (counter: map<K, nat>, canonToVote: map<K, nat>)
    ensures Counts(counter, ks, |ks|) && KeepsLast(canonToVote, ks, |ks|)
  {
    counter, canonToVote := map[], map[];
    for n := 0 to |ks|
      invariant Counts(counter, ks, n) && KeepsLast(canonToVote, ks, n)
    {
      CountsNext(counter, ks, n);
      KeepsLastNext(canonToVote, ks, n);
      counter := counter[ks[n] := (if ks[n] in counter then counter[ks[n]] else 0) + 1];
      canonToVote := canonToVote[ks[n] := n];
    }
  }

  lemma {:induction false} TalliedAll<K(!new)>(counter: map<K, nat>, kept: map<K, nat>, ks: seq<K>)
    requires Counts(counter, ks, |ks|) && KeepsLast(kept, ks, |ks|)
    ensures forall i :: 0 <= i < |ks| ==> ks[i] in counter && counter[ks[i]] == Count(ks, ks[i])
    ensures forall i :: 0 <= i < |ks| ==> ks[i] in kept && LastCast(ks, |ks|, ks[i], kept[ks[i]])
  {
    assert ks[..|ks|] == ks;
  }

  lemma {:induction false} BestIsTop<K(!new)>(ks: seq<K>, counter: map<K, nat>, best: nat)
    requires best < |ks|
    requires forall i :: 0 <= i < |ks| ==> ks[i] in counter && counter[ks[i]] == Count(ks, ks[i])
    requires forall i :: 0 <= i < |ks| ==> counter[ks[i]] <= counter[ks[best]]
    ensures counter[ks[best]] == Count(ks, ks[best]) == TopCount(ks)
  {
    var top := TopCount(ks);
    var x :| x in ks && Count(ks, x) == top;
    var i :| 0 <= i < |ks| && ks[i] == x;
    assert counter[ks[i]] <= counter[ks[best]];
  }

  /** The first ballot whose key has the highest count. */
  method Leader<K(==,!new)>(ks: seq<K>, counter: map<K, nat>) returns (best: nat)
    requires ks != [] && forall i :: 0 <= i < |ks| ==> ks[i] in counter
    ensures best < |ks| && forall i :: 0 <= i < |ks| ==> counter[ks[i]] <= counter[ks[best]]
    ensures forall i :: 0 <= i < best ==> counter[ks[i]] < counter[ks[best]]
  {
    best := 0;
    for n := 1 to |ks|
      invariant 0 <= best < n
      invariant forall i :: 0 <= i < n ==> counter[ks[i]] <= counter[ks[best]]
      invariant forall i :: 0 <= i < best ==> counter[ks[i]] < counter[ks[best]]
    {
      if counter[ks[n]] > counter[ks[best]] {
        best := n;
      }
    }
  }

  /** `Counter.most_common(1)[0]` and the vote kept for its key.  (Ties never reach a majority.) */
  method MostCommon<K(==,!new)>(ks: seq<K>) returns (topKey: K, topCount: nat, vote: nat)
    requires ks != []
    ensures topCount == TopCount(ks) == Count(ks, topKey)
    ensures LastCast(ks, |ks|, topKey, vote)
  {
    var counter, canonToVote := TallyVotes(ks);
    TalliedAll(counter, canonToVote, ks);
    var best := Leader(ks, counter);
    topKey, topCount, vote := ks[best], counter[ks[best]], canonToVote[ks[best]];
    BestIsTop(ks, counter, best);
  }

  /** The loop body for one field: its top count, and the value that won it, if any did. */
  method JudgeField<K(==,!new)>(votes: seq<Vote>, f: Field, key: KeyOf<K>)
    returns (topCount: nat, winner: Option<LaneRecord>)
    requires votes != []
    ensures topCount == TopCount(KeysBy(votes, f, key))
    ensures winner.Some? <==> HasMajority(KeysBy(votes, f, key))
    ensures winner.Some? ==> Elected(votes, winner.value, f, key)
  {
    var majorityThreshold := |votes| / 2 + 1;
    var topKey, count, vote := MostCommon(KeysBy(votes, f, key));
    TopDecides(KeysBy(votes, f, key));
    topCount := count;
    winner := if topCount >= majorityThreshold then Some(votes[vote].lane) else None;
  }

  /** The lane assembled field by field from the votes that carried each field. */
  function Assemble(laneId: string, selected: map<Field, LaneRecord>): (lane: LaneRecord)
    requires forall f :: f in selected
    ensures lane.laneId == laneId
    ensures forall f :: FieldValue(lane, f) == FieldValue(selected[f], f)
  {
    LaneRecord(laneId, selected[OriginPort].origin, selected[DestinationPort].destination,
               selected[EquipmentType].equipmentType, selected[CommodityCode].commodityCode,
               selected[BaseRateUsd].baseRateUsd, selected[Surcharges].surcharges,
               selected[TransitTimeDays].transitDays, selected[ValidityStart].validityStart,
               selected[ValidityEnd].validityEnd, selected[SourceRowReference].source)
  }

  lemma {:induction false} AssembledElected(votes: seq<Vote>, laneId: string, selected: map<Field, LaneRecord>)
    requires forall f :: f in selected && Elected(votes, selected[f], f, FieldKey)
    ensures forall f :: Elected(votes, Assemble(laneId, selected), f, FieldKey)
  {
    var lane := Assemble(laneId, selected);
    forall f ensures Elected(votes, lane, f, FieldKey) {
      assert FieldValue(lane, f) == FieldValue(selected[f], f);
      assert FieldKey(lane, f) == FieldKey(selected[f], f);
    }
  }

  /** The state of the vote after the fields in `done`: who won each, and with how many votes. */
  ghost predicate Settled<V(!new)>(wins: (V, Field) -> bool, top: Field -> nat, done: set<Field>,
                                   selected: map<Field, V>, agreement: map<Field, nat>)
  {
    && (forall f :: f in agreement <==> f in done)
    && (forall f :: f in done ==> agreement[f] == top(f))
    && (forall f :: f in done ==> f in selected && wins(selected[f], f))
  }

  lemma {:induction false} SettledNext<V(!new)>(wins: (V, Field) -> bool, top: Field -> nat, done: set<Field>,
                                                selected: map<Field, V>, agreement: map<Field, nat>, field: Field,
                                                winner: V)
    requires Settled(wins, top, done, selected, agreement) && wins(winner, field)
    ensures Settled(wins, top, done + {field}, selected[field := winner], agreement[field := top(field)])
  {
  }

  /** `done` are the fields before position `n`. */
  ghost predicate UpTo(done: set<Field>, n: nat) {
    forall f :: f in done <==> Position(f) < n
  }

  lemma {:induction false} UpToNext(done: set<Field>, field: Field)
    requires UpTo(done, Position(field))
    ensures UpTo(done + {field}, Position(field) + 1)
  {
    forall f | Position(f) == Position(field) ensures f == field {
      assert VOTED_FIELDS[Position(f)] == f && VOTED_FIELDS[Position(field)] == field;
    }
  }

  /** The vote stops at `field`: exactly the fields up to it have been judged. */
  lemma {:induction false} SplitAt<K(!new)>(votes: seq<Vote>, key: KeyOf<K>, done: set<Field>, field: Field)
    requires UpTo(done, Position(field)) && forall g :: g in done ==> HasMajority(KeysBy(votes, g, key))
    requires !HasMajority(KeysBy(votes, field, key))
    ensures forall f :: f in done || f == field <==> Judged(votes, f, key)
  {
    UpToNext(done, field);
    forall f ensures f in done || f == field <==> Judged(votes, f, key) {
      if f in done {
        assert Position(f) < Position(field);
      } else if f != field {
        assert Position(field) < Position(f);
      }
    }
  }

  lemma {:induction false} ElectedHasMajority<K(!new)>(votes: seq<Vote>, lane: LaneRecord, f: Field, key: KeyOf<K>)
    requires Elected(votes, lane, f, key)
    ensures HasMajority(KeysBy(votes, f, key))
  {
  }

  lemma {:induction false} DoneHaveMajority<K(!new)>(votes: seq<Vote>, key: KeyOf<K>, done: set<Field>,
                                                     selected: map<Field, LaneRecord>,
                                                     wins: (LaneRecord, Field) -> bool)
    requires forall f :: f in done ==> f in selected && wins(selected[f], f)
    requires wins == ((lane: LaneRecord, f: Field) => Elected(votes, lane, f, key))
    ensures forall f :: f in done ==> Elected(votes, selected[f], f, key) && HasMajority(KeysBy(votes, f, key))
  {
    forall f | f in done ensures Elected(votes, selected[f], f, key) && HasMajority(KeysBy(votes, f, key)) {
      assert wins(selected[f], f);
      ElectedHasMajority(votes, selected[f], f, key);
    }
  }

  /** The loop over the voted fields, left early at the first field without a majority. */
  method VoteFields<K(==,!new)>(votes: seq<Vote>, key: KeyOf<K>)
    returns (selected: map<Field, LaneRecord>, agreement: map<Field, nat>, clean: bool)
    requires votes != []
    ensures clean <==> forall f :: HasMajority(KeysBy(votes, f, key))
    ensures clean ==> forall f :: f in selected && Elected(votes, selected[f], f, key)
    ensures forall f :: f in agreement <==> Judged(votes, f, key)
    ensures forall f :: f in agreement ==> agreement[f] == TopCount(KeysBy(votes, f, key))
  {
    selected, agreement, clean := map[], map[], true;
    ghost var done: set<Field> := {};
    ghost var wins := (lane: LaneRecord, f: Field) => Elected(votes, lane, f, key);
    ghost var top := (f: Field) => TopCount(KeysBy(votes, f, key));
    for n := 0 to |VOTED_FIELDS|
      invariant clean && UpTo(done, n) && Settled(wins, top, done, selected, agreement)
    {
      var field := VOTED_FIELDS[n];
      assert Position(field) == n;
      var topCount, winner := JudgeField(votes, field, key);
      if winner.None? {
        // No majority on this field: the whole lane is flagged.
        DoneHaveMajority(votes, key, done, selected, wins);
        SplitAt(votes, key, done, field);
        agreement, clean := agreement[field := topCount], false;
        return;
      }
      SettledNext(wins, top, done, selected, agreement, field, winner.value);
      UpToNext(done, field);
      agreement := agreement[field := topCount];
      selected := selected[field := winner.value];
      done := done + {field};
    }
    assert forall f :: f in done by {
      assert forall f :: Position(f) < |VOTED_FIELDS|;
    }
    DoneHaveMajority(votes, key, done, selected, wins);
  }

  method MajorityConsensus(laneId: string, votes: seq<Vote>) returns (r: Result<ConsensusResult, VoteError>)
    ensures votes == [] ==> r == Err(NoVotes)
    ensures votes != [] && !(3 <= |votes| <= 5) ==> r == Err(VoteCountRejected)
    ensures 3 <= |votes| <= 5 ==> r.Ok? && IsConsensus(laneId, votes, r.value)
  {
    if votes == [] {
      return Err(NoVotes);
    }
    var selected, agreement, clean := VoteFields(votes, FieldKey);
    if !(3 <= |votes| <= 5) {
      return Err(VoteCountRejected);
    }
    if clean {
      AssembledElected(votes, laneId, selected);
      return Ok(ConsensusResult(laneId, Some(Assemble(laneId, selected)), votes, agreement, false));
    }
    return Ok(ConsensusResult(laneId, None, votes, agreement, true));
  }
}
