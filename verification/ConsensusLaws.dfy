/** Laws of the majority vote: uniqueness, anonymity, and what a second round of two votes can change. */
module ConsensusLaws {
  import opened Prelude
  import opened Lanes
  import opened Keys
  import opened Counting
  import opened Consensus

  /** A vote up to its lane id and the order of its surcharges. */
  datatype Ballot = Ballot(lane: LaneRecord, charges: multiset<Surcharge>)

  function BallotOf(v: Vote): Ballot {
    Ballot(v.lane.(laneId := "", surcharges := []), multiset(v.lane.surcharges))
  }

  lemma {:induction false} BallotDecides(v: Vote, w: Vote, f: Field)
    requires BallotOf(v) == BallotOf(w)
    ensures FieldKey(v.lane, f) == FieldKey(w.lane, f)
  {
    var a, b := v.lane.(laneId := "", surcharges := []), w.lane.(laneId := "", surcharges := []);
    assert a == b;
    if f == Surcharges {
      SurchargesKey(v.lane.surcharges, w.lane.surcharges);
    } else {
      assert FieldValue(v.lane, f) == FieldValue(a, f) && FieldValue(w.lane, f) == FieldValue(b, f);
    }
  }

  lemma {:induction false} KeysAreMapped(votes: seq<Vote>, f: Field)
    ensures KeysBy(votes, f, FieldKey) == Map(votes, (v: Vote) => FieldKey(v.lane, f))
  {
  }

  /** The keys cast on a field, as a multiset, depend on the ballots alone. */
  lemma {:induction false} SameBallotsSameKeys(votes: seq<Vote>, votes': seq<Vote>, f: Field)
    requires multiset(Map(votes, BallotOf)) == multiset(Map(votes', BallotOf))
    ensures multiset(KeysBy(votes, f, FieldKey)) == multiset(KeysBy(votes', f, FieldKey))
  {
    var g := (v: Vote) => FieldKey(v.lane, f);
    forall v, w | BallotOf(v) == BallotOf(w) ensures g(v) == g(w) {
      BallotDecides(v, w, f);
    }
    MapPermuted(votes, votes', BallotOf, g);
    KeysAreMapped(votes, f);
    KeysAreMapped(votes', f);
  }

  /** Verdict and top counts: what a result's agreement map says about the keys. */
  lemma {:induction false} SameAgreement<K(!new)>(votes: seq<Vote>, votes': seq<Vote>, key: KeyOf<K>,
                                                  agreement: map<Field, nat>, agreement': map<Field, nat>)
    requires forall f :: f in agreement <==> Judged(votes, f, key)
    requires forall f :: f in agreement ==> agreement[f] == TopCount(KeysBy(votes, f, key))
    requires forall f :: f in agreement' <==> Judged(votes', f, key)
    requires forall f :: f in agreement' ==> agreement'[f] == TopCount(KeysBy(votes', f, key))
    requires forall f :: HasMajority(KeysBy(votes, f, key)) <==> HasMajority(KeysBy(votes', f, key))
    requires forall f :: TopCount(KeysBy(votes, f, key)) == TopCount(KeysBy(votes', f, key))
    ensures agreement == agreement'
  {
    forall f ensures Judged(votes, f, key) <==> Judged(votes', f, key) {}
    assert forall f :: f in agreement <==> f in agreement';
  }

  lemma {:induction false} SameWinner<K(!new)>(ks: seq<K>, ks': seq<K>, x: K, y: K)
    requires multiset(ks) == multiset(ks') && Majority(ks, x) && Majority(ks', y)
    ensures x == y
  {
    CountPermuted(ks, ks', y);
    MajorityUnique(ks, x, y);
  }

  /** Results on ballots that carry the same keys agree: verdict, top counts and elected keys. */
  lemma {:induction false} SameKeysSameResult<K(!new)>(id: string, votes: seq<Vote>, r: ConsensusResult, id': string,
                                                       votes': seq<Vote>, r': ConsensusResult, key: KeyOf<K>)
    requires IsConsensusBy(id, votes, r, key) && IsConsensusBy(id', votes', r', key)
    requires forall f :: multiset(KeysBy(votes, f, key)) == multiset(KeysBy(votes', f, key))
    ensures r.lane.Some? <==> r'.lane.Some?
    ensures r.agreement == r'.agreement
    ensures r.lane.Some? && r'.lane.Some? ==> forall f :: key(r.lane.value, f) == key(r'.lane.value, f)
  {
    forall f
      ensures HasMajority(KeysBy(votes, f, key)) <==> HasMajority(KeysBy(votes', f, key))
      ensures TopCount(KeysBy(votes, f, key)) == TopCount(KeysBy(votes', f, key))
    {
      TopPermuted(KeysBy(votes, f, key), KeysBy(votes', f, key));
    }
    SameAgreement(votes, votes', key, r.agreement, r'.agreement);
    if r.lane.Some? && r'.lane.Some? {
      SameLaneKeys(votes, votes', r.lane.value, r'.lane.value, key);
    }
  }

  lemma {:induction false} SameLaneKeys<K(!new)>(votes: seq<Vote>, votes': seq<Vote>, a: LaneRecord, b: LaneRecord,
                                                 key: KeyOf<K>)
    requires forall f :: Elected(votes, a, f, key)
    requires forall f :: Elected(votes', b, f, key)
    requires forall f :: multiset(KeysBy(votes, f, key)) == multiset(KeysBy(votes', f, key))
    ensures forall f :: key(a, f) == key(b, f)
  {
    forall f ensures key(a, f) == key(b, f) {
      assert Elected(votes, a, f, key) && Elected(votes', b, f, key);
      SameWinner(KeysBy(votes, f, key), KeysBy(votes', f, key), key(a, f), key(b, f));
    }
  }

  /**
   Anonymity and determinism: the verdict, the recorded top counts and every elected key are the same
   for any order of the votes and any order of the surcharges inside them.
   */
  lemma {:induction false} OrderDoesNotMatter(id: string, votes: seq<Vote>, r: ConsensusResult, id': string,
                                              votes': seq<Vote>, r': ConsensusResult)
    requires IsConsensus(id, votes, r) && IsConsensus(id', votes', r')
    requires multiset(Map(votes, BallotOf)) == multiset(Map(votes', BallotOf))
    ensures r.lane.Some? <==> r'.lane.Some?
    ensures r.agreement == r'.agreement
    ensures r.lane.Some? && r'.lane.Some? ==> forall f :: FieldKey(r.lane.value, f) == FieldKey(r'.lane.value, f)
  {
    forall f ensures multiset(KeysBy(votes, f, FieldKey)) == multiset(KeysBy(votes', f, FieldKey)) {
      SameBallotsSameKeys(votes, votes', f);
    }
    SameKeysSameResult(id, votes, r, id', votes', r', FieldKey);
  }

  lemma {:induction false} ElectedOnce<K(!new)>(votes: seq<Vote>, a: LaneRecord, b: LaneRecord, f: Field, key: KeyOf<K>)
    requires Elected(votes, a, f, key) && Elected(votes, b, f, key)
    ensures FieldValue(a, f) == FieldValue(b, f)
  {
    var ks := KeysBy(votes, f, key);
    MajorityUnique(ks, key(a, f), key(b, f));
    var i: nat :| LastCast(ks, |votes|, key(a, f), i) && FieldValue(a, f) == FieldValue(votes[i].lane, f);
    var j: nat :| LastCast(ks, |votes|, key(b, f), j) && FieldValue(b, f) == FieldValue(votes[j].lane, f);
    assert i == j;
  }

  lemma {:induction false} SameElected<K(!new)>(id: string, votes: seq<Vote>, r: ConsensusResult, r': ConsensusResult,
                                                key: KeyOf<K>)
    requires IsConsensusBy(id, votes, r, key) && IsConsensusBy(id, votes, r', key)
    ensures r.lane.Some? <==> r'.lane.Some?
    ensures r.lane.Some? ==> r.lane.value.laneId == r'.lane.value.laneId
                             && forall f :: FieldValue(r.lane.value, f) == FieldValue(r'.lane.value, f)
  {
    if r.lane.Some? {
      forall f ensures FieldValue(r.lane.value, f) == FieldValue(r'.lane.value, f) {
        ElectedOnce(votes, r.lane.value, r'.lane.value, f, key);
      }
    }
  }

  /** The votes in their order decide the result altogether, down to the order of the surcharges. */
  lemma {:induction false} ConsensusIsUnique(id: string, votes: seq<Vote>, r: ConsensusResult, r': ConsensusResult)
    requires IsConsensus(id, votes, r) && IsConsensus(id, votes, r')
    ensures r == r'
  {
    SameElected(id, votes, r, r', FieldKey);
    SameKeysSameResult(id, votes, r, id, votes, r', FieldKey);
    if r.lane.Some? {
      SameFieldsSameLane(r.lane.value, r'.lane.value);
    }
  }

  /** How a key's five-vote count splits over the two rounds. */
  lemma {:induction false} Rounds<K>(first: seq<Vote>, second: seq<Vote>, f: Field, key: KeyOf<K>, k: K)
    requires |first| == 3 && |second| == 2
    ensures Count(KeysBy(first + second, f, key), k) == Count(KeysBy(first, f, key), k) + Count(KeysBy(second, f, key), k)
    ensures Majority(KeysBy(first + second, f, key), k) <==>
              Count(KeysBy(first, f, key), k) + Count(KeysBy(second, f, key), k) >= 3
  {
    assert KeysBy(first + second, f, key) == KeysBy(first, f, key) + KeysBy(second, f, key);
    CountAppend(KeysBy(first, f, key), KeysBy(second, f, key), k);
  }

  lemma {:induction false} InventsNothing<K(!new)>(id: string, first: seq<Vote>, second: seq<Vote>, r: ConsensusResult,
                                                   f: Field, key: KeyOf<K>)
    requires |first| == 3 && |second| == 2 && IsConsensusBy(id, first + second, r, key) && r.lane.Some?
    ensures exists i :: 0 <= i < 3 && key(first[i].lane, f) == key(r.lane.value, f)
  {
    var k := key(r.lane.value, f);
    var ks := KeysBy(first, f, key);
    assert Elected(first + second, r.lane.value, f, key);
    Rounds(first, second, f, key, k);
    assert k in ks;
    var i :| 0 <= i < |ks| && ks[i] == k;
    assert key(first[i].lane, f) == k;
  }

  /**
   The correction round invents nothing: every field of a five-vote consensus carries a key that one of
   the three original votes cast.  A field the original three agreed on keeps its key.
   */
  lemma {:induction false} CorrectionInventsNothing(id: string, first: seq<Vote>, second: seq<Vote>, r: ConsensusResult,
                                                    f: Field)
    requires |first| == 3 && |second| == 2 && IsConsensus(id, first + second, r) && r.lane.Some?
    ensures exists i :: 0 <= i < 3 && FieldKey(first[i].lane, f) == FieldKey(r.lane.value, f)
    ensures FieldKey(first[0].lane, f) == FieldKey(first[1].lane, f) == FieldKey(first[2].lane, f) ==>
              FieldKey(r.lane.value, f) == FieldKey(first[0].lane, f)
  {
    InventsNothing(id, first, second, r, f, FieldKey);
  }

  lemma {:induction false} CountThree<K>(ks: seq<K>, k: K)
    requires |ks| == 3
    ensures Count(ks, k) == (if ks[0] == k then 1 else 0) + (if ks[1] == k then 1 else 0) + (if ks[2] == k then 1 else 0)
  {
    assert Count(ks[1..], k) == (if ks[1] == k then 1 else 0) + Count(ks[1..][1..], k);
    assert Count(ks[1..][1..], k) == (if ks[2] == k then 1 else 0) + Count(ks[1..][1..][1..], k);
  }

  /**
   A field the first round had already settled two against one, vote `d` dissenting, is not safe from the
   second: the dissenting value replaces it exactly when both new votes side with the dissenter.
   */
  lemma {:induction false} SettledFieldOverturned<K(!new)>(first: seq<Vote>, second: seq<Vote>, f: Field, key: KeyOf<K>,
                                                           d: nat, settled: K)
    requires |first| == 3 && |second| == 2 && d < 3
    requires forall i :: 0 <= i < 3 ==> (key(first[i].lane, f) == settled <==> i != d)
    ensures Majority(KeysBy(first, f, key), settled)
    ensures Majority(KeysBy(first + second, f, key), key(first[d].lane, f)) <==>
              key(second[0].lane, f) == key(second[1].lane, f) == key(first[d].lane, f)
    ensures forall k :: Majority(KeysBy(first + second, f, key), k) ==> k == settled || k == key(first[d].lane, f)
  {
    var ks, ks2 := KeysBy(first, f, key), KeysBy(second, f, key);
    var dissent := key(first[d].lane, f);
    CountThree(ks, settled);
    CountThree(ks, dissent);
    Rounds(first, second, f, key, dissent);
    CountTwo(ks2, dissent);
    forall k | Majority(KeysBy(first + second, f, key), k) ensures k == settled || k == dissent {
      Rounds(first, second, f, key, k);
      CountThree(ks, k);
    }
  }

  lemma {:induction false} CountTwo<K>(ks: seq<K>, k: K)
    requires |ks| == 2
    ensures Count(ks, k) == (if ks[0] == k then 1 else 0) + (if ks[1] == k then 1 else 0)
  {
    assert Count(ks[1..], k) == (if ks[1] == k then 1 else 0) + Count(ks[1..][1..], k);
  }
}
