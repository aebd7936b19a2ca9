/** The conditional second round of two votes (packages/ingest/correction.py). */
module Correction {
  import opened Prelude
  import opened Lanes
  import opened Keys
  import opened Consensus

  /** One model call: a vote, or an exception. */
  type Call = Option<Vote>

  datatype CorrectionError = BudgetExceeded | CallFailed | NotFiveVotes

  /**
   Escalate a lane without a majority to five votes.  `calls` are the two model calls in order;
   `inTime` says whether both answered within the total budget.
   */
  method ConditionalCorrection(prior: ConsensusResult, calls: seq<Call>, inTime: bool)
    returns (r: Result<ConsensusResult, CorrectionError>)
    requires |calls| == 2
    ensures !prior.requiresReview ==> r == Ok(prior)
    ensures prior.requiresReview && !inTime ==> r == Err(BudgetExceeded)
    ensures prior.requiresReview && inTime && (calls[0].None? || calls[1].None?) ==> r == Err(CallFailed)
    ensures prior.requiresReview && inTime && calls[0].Some? && calls[1].Some? ==>
              if |prior.votes| == 3
              then r.Ok? && IsConsensus(prior.laneId, prior.votes + [calls[0].value, calls[1].value], r.value)
              else r == Err(NotFiveVotes)
  {
    if !prior.requiresReview {
      return Ok(prior);
    }
    if !inTime {
      return Err(BudgetExceeded);
    }
    var newVotes: seq<Vote> := [];
    for i := 0 to 2
      invariant |newVotes| == i
      invariant forall j :: 0 <= j < i ==> calls[j].Some? && newVotes[j] == calls[j].value
    {
      if calls[i].None? {
        return Err(CallFailed);
      }
      newVotes := newVotes + [calls[i].value];
    }
    assert newVotes == [calls[0].value, calls[1].value];
    var combined := prior.votes + newVotes;
    if |combined| != 5 {
      return Err(NotFiveVotes);
    }
    var result := MajorityConsensus(prior.laneId, combined);
    r := Ok(result.value);
  }
}
