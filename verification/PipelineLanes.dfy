/** The pipeline machine with the real stages: lane accounting from the staged file to the stored result. */
module PipelineLanes {
  import opened Prelude
  import opened Lanes
  import opened Consensus
  import opened Database
  import opened PipelineMachine
  import opened PipelineSafety
  import opened PipelineSteps
  import opened PipelineTheorems
  import opened Accounting
  import opened SharedIds
  import opened LiftedRows
  import opened StageTwo
  import ExcelScan
  import ExcelExtract
  import Normalizer
  import RulesEngine
  import Stage4

  ghost predicate NormalizedBy(from: Ratesheet, to: Ratesheet, results: seq<ConsensusResult>,
                               ensembles: nat -> Normalizer.Ensemble, resolve: Normalizer.Resolver) {
    && |results| == |from.lanes| && Normalizer.Polled(from.lanes, ensembles, results)
    && var routes := Normalizer.Routes(from.lanes, results, resolve);
       to == from.(lanes := Normalizer.Finals(routes), flags := from.flags + Normalizer.Flags(routes))
  }

  /** A Stage 3 payload for some ensembles and some port table. */
  ghost predicate Normalization(from: Ratesheet, to: Ratesheet, results: seq<ConsensusResult>) {
    exists ensembles, resolve :: NormalizedBy(from, to, results, ensembles, resolve)
  }

  ghost predicate ValidatedBy(from: Ratesheet, table: VoteTable, to: Ratesheet, rounds: Stage4.Rounds, today: Date) {
    Stage4.WellFormed(table) && to == Stage4.Validated(from, table, rounds, today)
  }

  /** A Stage 4 payload for some correction rounds and some day. */
  ghost predicate Validation(from: Ratesheet, table: VoteTable, to: Ratesheet) {
    exists rounds, today :: ValidatedBy(from, table, to, rounds, today)
  }

  /** A Stage 2 payload of some staged file. */
  ghost predicate ReadFromSome(sheet: Ratesheet) {
    exists upload :: ReadFrom(upload, sheet)
  }

  ghost const ONRAMP := Stages((sheet: Ratesheet) => ReadFromSome(sheet),
                               (from: Ratesheet, to: Ratesheet, results: seq<ConsensusResult>) =>
                                 Normalization(from, to, results),
                               (from: Ratesheet, table: VoteTable, to: Ratesheet) => Validation(from, table, to))

  // ---------------------------------------------------------------- what a stored sheet owes its extraction

  /** What happened to the lanes of an extraction: the ensembles, the port table, the corrections, the day. */
  datatype Story = Story(ensembles: nat -> Normalizer.Ensemble, resolve: Normalizer.Resolver, rounds: Stage4.Rounds,
                         today: Date)

  ghost function FatesIn(extracted: Ratesheet, results: seq<ConsensusResult>, story: Story): seq<Fate>
    requires |results| == |extracted.lanes|
  {
    Fates(Normalizer.Routes(extracted.lanes, results, story.resolve), 0, Normalizer.Snapshots(results),
          story.rounds, story.today)
  }

  /** The correction round offered to lane `i`, should it be flagged. */
  ghost function RoundOf(extracted: Ratesheet, results: seq<ConsensusResult>, story: Story, i: nat): Stage4.Round
    requires |results| == |extracted.lanes| && i < |results|
  {
    story.rounds(|Normalizer.Flags(Normalizer.Routes(extracted.lanes, results, story.resolve)[..i])|)
  }

  /** The stored lists are the projections of the fates of the extracted lanes. */
  ghost predicate Projected(extracted: Ratesheet, results: seq<ConsensusResult>, final: Ratesheet, story: Story)
    requires |results| == |extracted.lanes| && Stage4.WellFormed(Normalizer.Snapshots(results))
  {
    var fates := FatesIn(extracted, results, story);
    && |fates| == |extracted.lanes|
    && final.lanes == SurvivingLanes(fates)
    && final.rejected == RejectRecords(fates) + Stage4.Reinjected(extracted.shapeViolating)
    && (exists low :: final.flags == KeptFlags(fates) + low
                      && Stage4.WeakFlags(final.lanes, Normalizer.Snapshots(results), low))
    && final.shapeViolating == extracted.shapeViolating
    && |SurvivingLanes(fates)| + |RejectRecords(fates)| + |KeptFlags(fates)| + RescuedCount(fates) == |extracted.lanes|
  }

  /** A lane is missing from the stored lists only if its flag was dropped, and that is decided by votes. */
  ghost predicate RescueEarned(extracted: Ratesheet, results: seq<ConsensusResult>, story: Story, i: nat)
    requires |results| == |extracted.lanes| && i < |results| && Normalizer.Polled(extracted.lanes, story.ensembles, results)
    requires |FatesIn(extracted, results, story)| == |results|
  {
    var last := LastOfId(extracted.lanes, i);
    var round := RoundOf(extracted, results, story, i);
    FatesIn(extracted, results, story)[i].Rescued? <==>
      results[i].lane.None?
      && (results[last].lane.Some? || FiveAgree(Normalizer.VotesOf(story.ensembles(last)), round))
  }

  /** The fate of lane `i` follows from votes, port table and rules. */
  ghost predicate FateEarned(extracted: Ratesheet, results: seq<ConsensusResult>, story: Story, i: nat)
    requires |results| == |extracted.lanes| && i < |results| && Normalizer.Polled(extracted.lanes, story.ensembles, results)
    requires |FatesIn(extracted, results, story)| == |results|
  {
    && RescueEarned(extracted, results, story, i)
    && FateTold(extracted.lanes[i], results[i], story.resolve, story.today, FatesIn(extracted, results, story)[i])
  }

  ghost predicate AccountedBy(extracted: Ratesheet, results: seq<ConsensusResult>, final: Ratesheet, story: Story) {
    && |results| == |extracted.lanes| && Normalizer.Polled(extracted.lanes, story.ensembles, results)
    && Stage4.WellFormed(Normalizer.Snapshots(results))
    && Projected(extracted, results, final, story)
    && (forall i :: 0 <= i < |results| ==> FateEarned(extracted, results, story, i))
    && (forall row :: CitedElsewhere(final.lanes, RejectRecords(FatesIn(extracted, results, story)), row) <==>
                        exists j :: 0 <= j < |results| && VotedOnto(extracted.lanes, results, story.resolve, j, row))
  }

  /** The stored sheet accounts for every lane of the extraction, given the consensus results of the job. */
  ghost predicate Accounted(extracted: Ratesheet, results: seq<ConsensusResult>, final: Ratesheet) {
    exists story :: AccountedBy(extracted, results, final, story)
  }

  /** The part of the rejections that is about lifted rows. */
  function LiftedPart(extracted: Ratesheet, final: Ratesheet): seq<RejectionRecord> {
    var n := |final.rejected| - |extracted.shapeViolating|;
    if n < 0 then [] else final.rejected[n..]
  }

  /** Every row the scan lifted from the workbook has one rejection, citing an ill-shaped cell of the row. */
  ghost predicate LiftedAccountedBy(upload: Upload, extracted: Ratesheet, final: Ratesheet,
                                    columns: Option<ExcelScan.ColumnMap>, rows: seq<ExcelScan.RowId>,
                                    pre: seq<ShapeViolatingLane>, shown: seq<ExcelScan.Cell>)
    requires upload.Workbook?
  {
    && ReadAs(upload, extracted, columns, rows, pre, shown)
    && (columns.Some? ==>
          forall i :: 0 <= i < |rows| && Ordinary(rows[i]) && !Shadowed(rows, rows[i]) ==>
            RejectedOnce(upload.cells, columns.value, rows[i], LiftedPart(extracted, final)))
  }

  ghost predicate LiftedAccounted(upload: Upload, extracted: Ratesheet, final: Ratesheet) {
    && ReadFrom(upload, extracted)
    && (upload.Workbook? ==>
          exists columns, rows, pre, shown :: LiftedAccountedBy(upload, extracted, final, columns, rows, pre, shown))
  }

  // ---------------------------------------------------------------- Stages 3 and 4 owe that

  lemma {:induction false} ProjectedByStages(extracted: Ratesheet, results: seq<ConsensusResult>, final: Ratesheet,
                                             story: Story)
    requires Extraction(extracted) && |results| == |extracted.lanes| && Stage4.WellFormed(Normalizer.Snapshots(results))
    requires var routes := Normalizer.Routes(extracted.lanes, results, story.resolve);
             final == Stage4.Validated(extracted.(lanes := Normalizer.Finals(routes),
                                                  flags := extracted.flags + Normalizer.Flags(routes)),
                                       Normalizer.Snapshots(results), story.rounds, story.today)
    ensures Projected(extracted, results, final, story)
    ensures var finals := Normalizer.Finals(Normalizer.Routes(extracted.lanes, results, story.resolve));
            && final.lanes == RulesEngine.Survivors(finals, story.today)
            && RejectRecords(FatesIn(extracted, results, story)) == RulesEngine.Rejections(finals, story.today)
  {
    var fates, kept := SplitLanes(extracted, results, final, story.resolve, Normalizer.Snapshots(results), story.rounds,
                                  story.today);
    assert kept == [];
    assert extracted.rejected + RejectRecords(fates) == RejectRecords(fates);
    assert kept + KeptFlags(fates) == KeptFlags(fates);
    FinalsSplit(Normalizer.Routes(extracted.lanes, results, story.resolve), 0, Normalizer.Snapshots(results),
                story.rounds, story.today);
  }

  lemma {:induction false} SplitLanes(extracted: Ratesheet, results: seq<ConsensusResult>, final: Ratesheet,
                                      resolve: Normalizer.Resolver, table: VoteTable, rounds: Stage4.Rounds,
                                      today: Date)
    returns (fates: seq<Fate>, kept: seq<FlaggedLane>)
    requires |results| == |extracted.lanes| && Stage4.WellFormed(table)
    requires var routes := Normalizer.Routes(extracted.lanes, results, resolve);
             final == Stage4.Validated(extracted.(lanes := Normalizer.Finals(routes),
                                                  flags := extracted.flags + Normalizer.Flags(routes)),
                                       table, rounds, today)
    ensures |fates| == |extracted.lanes|
    ensures fates == Fates(Normalizer.Routes(extracted.lanes, results, resolve), |extracted.flags|, table, rounds, today)
    ensures final.lanes == SurvivingLanes(fates)
    ensures final.rejected == extracted.rejected + RejectRecords(fates) + Stage4.Reinjected(extracted.shapeViolating)
    ensures kept == Stage4.Kept(extracted.flags, table, rounds)
    ensures final.flags == kept + KeptFlags(fates) + Stage4.LowFlags(final.lanes, table)
    ensures Stage4.WeakFlags(final.lanes, table, Stage4.LowFlags(final.lanes, table))
    ensures final.shapeViolating == extracted.shapeViolating
    ensures |SurvivingLanes(fates)| + |RejectRecords(fates)| + |KeptFlags(fates)| + RescuedCount(fates) == |extracted.lanes|
  {
    fates := Fates(Normalizer.Routes(extracted.lanes, results, resolve), |extracted.flags|, table, rounds, today);
    kept := Stage4.Kept(extracted.flags, table, rounds);
    LaneAccounting(extracted, results, resolve, table, rounds, today);
  }

  /** The fate of lane `i`, in the terms of its own and its namesake's votes. */
  lemma {:induction false} RescueIsEarned(extracted: Ratesheet, results: seq<ConsensusResult>, story: Story, i: nat)
    requires |results| == |extracted.lanes| && i < |results| && Normalizer.Polled(extracted.lanes, story.ensembles, results)
    ensures |FatesIn(extracted, results, story)| == |results|
    ensures RescueEarned(extracted, results, story, i)
  {
    RescueFate(extracted, results, story, i);
    DroppedIff(extracted.lanes, story.ensembles, results, i, RoundOf(extracted, results, story, i));
  }

  lemma {:induction false} FateIsEarned(extracted: Ratesheet, results: seq<ConsensusResult>, story: Story, i: nat)
    requires |results| == |extracted.lanes| && i < |results| && Normalizer.Polled(extracted.lanes, story.ensembles, results)
    ensures |FatesIn(extracted, results, story)| == |results| && FateEarned(extracted, results, story, i)
  {
    RescueIsEarned(extracted, results, story, i);
    FateInTold(extracted, results, story, i);
  }

  lemma {:induction false} RescueFate(extracted: Ratesheet, results: seq<ConsensusResult>, story: Story, i: nat)
    requires |results| == |extracted.lanes| && i < |results|
    ensures |FatesIn(extracted, results, story)| == |results|
    ensures FatesIn(extracted, results, story)[i].Rescued? <==>
              results[i].lane.None?
              && Stage4.Dropped(FlaggedLane(extracted.lanes[i], NoMajority, None), Normalizer.Snapshots(results),
                                RoundOf(extracted, results, story, i))
  {
    var routes, table := Normalizer.Routes(extracted.lanes, results, story.resolve), Normalizer.Snapshots(results);
    FateAt(routes, 0, table, story.rounds, story.today, i);
    RescuedIsDropped(extracted.lanes[i], results[i], story.resolve, |Normalizer.Flags(routes[..i])|, table,
                     story.rounds, story.today);
  }

  lemma {:induction false} FateInTold(extracted: Ratesheet, results: seq<ConsensusResult>, story: Story, i: nat)
    requires |results| == |extracted.lanes| && i < |results|
    ensures |FatesIn(extracted, results, story)| == |results|
    ensures FateTold(extracted.lanes[i], results[i], story.resolve, story.today, FatesIn(extracted, results, story)[i])
  {
    var routes, table := Normalizer.Routes(extracted.lanes, results, story.resolve), Normalizer.Snapshots(results);
    FateAt(routes, 0, table, story.rounds, story.today, i);
    FateIsTold(extracted.lanes[i], results[i], story.resolve, |Normalizer.Flags(routes[..i])|, table, story.rounds,
               story.today);
  }

  lemma {:induction false} RescuedIsDropped(lane: LaneRecord, c: ConsensusResult, resolve: Normalizer.Resolver, k: nat,
                                            table: VoteTable, rounds: Stage4.Rounds, today: Date)
    ensures FateOf(Normalizer.Route(lane, c, resolve), k, table, rounds, today).Rescued? <==>
              c.lane.None? && Stage4.Dropped(FlaggedLane(lane, NoMajority, None), table, rounds(k))
  {
  }

  lemma {:induction false} AccountForLanes(extracted: Ratesheet, normalized: Ratesheet, results: seq<ConsensusResult>,
                                           final: Ratesheet)
    requires Extraction(extracted) && Normalization(extracted, normalized, results)
    requires Validation(normalized, Normalizer.Snapshots(results), final)
    ensures Accounted(extracted, results, final)
  {
    var ensembles, resolve :| NormalizedBy(extracted, normalized, results, ensembles, resolve);
    var rounds, today :| ValidatedBy(normalized, Normalizer.Snapshots(results), final, rounds, today);
    var story := Story(ensembles, resolve, rounds, today);
    ProjectedByStages(extracted, results, final, story);
    AccountForStory(extracted, results, final, story);
  }

  lemma {:induction false} AccountForStory(extracted: Ratesheet, results: seq<ConsensusResult>, final: Ratesheet,
                                           story: Story)
    requires |results| == |extracted.lanes| && Normalizer.Polled(extracted.lanes, story.ensembles, results)
    requires Stage4.WellFormed(Normalizer.Snapshots(results)) && Projected(extracted, results, final, story)
    requires var finals := Normalizer.Finals(Normalizer.Routes(extracted.lanes, results, story.resolve));
             && final.lanes == RulesEngine.Survivors(finals, story.today)
             && RejectRecords(FatesIn(extracted, results, story)) == RulesEngine.Rejections(finals, story.today)
    ensures AccountedBy(extracted, results, final, story)
  {
    forall i | 0 <= i < |results| ensures FateEarned(extracted, results, story, i) {
      FateIsEarned(extracted, results, story, i);
    }
    forall row
      ensures CitedElsewhere(final.lanes, RejectRecords(FatesIn(extracted, results, story)), row) <==>
                exists j :: 0 <= j < |results| && VotedOnto(extracted.lanes, results, story.resolve, j, row)
    {
      CitedElsewhereIff(extracted.lanes, story.ensembles, results, story.resolve, story.today, row);
    }
  }

  /** With distinct lane ids, a lane is rescued exactly by its own five votes. */
  lemma {:induction false} OwnVotesRescue(extracted: Ratesheet, results: seq<ConsensusResult>, final: Ratesheet,
                                          story: Story, i: nat)
    requires AccountedBy(extracted, results, final, story) && DistinctIds(extracted.lanes) && i < |results|
    ensures FatesIn(extracted, results, story)[i].Rescued? <==>
              results[i].lane.None?
              && FiveAgree(Normalizer.VotesOf(story.ensembles(i)), RoundOf(extracted, results, story, i))
  {
    assert FateEarned(extracted, results, story, i);
    assert LastOfId(extracted.lanes, i) == i;
  }

  lemma {:induction false} LiftedPartIs(extracted: Ratesheet, results: seq<ConsensusResult>, final: Ratesheet)
    requires Accounted(extracted, results, final)
    ensures LiftedPart(extracted, final) == Stage4.Reinjected(extracted.shapeViolating)
  {
    var story :| AccountedBy(extracted, results, final, story);
    LastPart(RejectRecords(FatesIn(extracted, results, story)), Stage4.Reinjected(extracted.shapeViolating));
  }

  lemma {:induction false} LastPart<T>(a: seq<T>, b: seq<T>)
    ensures (a + b)[|a + b| - |b|..] == b
  {
  }

  lemma {:induction false} AccountForRows(upload: Upload, extracted: Ratesheet, results: seq<ConsensusResult>,
                                          final: Ratesheet)
    requires ReadFrom(upload, extracted) && Accounted(extracted, results, final)
    ensures LiftedAccounted(upload, extracted, final)
  {
    LiftedPartIs(extracted, results, final);
    if upload.Workbook? {
      var columns, rows, pre, shown :| ReadAs(upload, extracted, columns, rows, pre, shown);
      if columns.Some? {
        RowsRejected(upload.cells, columns.value, rows, pre, ExcelExtract.Lift(upload.model(shown).value, "Rates"));
      }
      assert LiftedAccountedBy(upload, extracted, final, columns, rows, pre, shown);
    }
  }

  lemma {:induction false} RowsRejected(cells: seq<ExcelScan.Cell>, columns: ExcelScan.ColumnMap,
                                        rows: seq<ExcelScan.RowId>, pre: seq<ShapeViolatingLane>,
                                        post: seq<ShapeViolatingLane>)
    requires ExcelScan.ViolatorsOf(cells, columns, pre, rows)
    ensures forall i :: 0 <= i < |rows| && Ordinary(rows[i]) && !Shadowed(rows, rows[i]) ==>
              RejectedOnce(cells, columns, rows[i], Stage4.Reinjected(ExcelExtract.Dedup(pre + post)))
  {
    forall i | 0 <= i < |rows| && Ordinary(rows[i]) && !Shadowed(rows, rows[i])
      ensures RejectedOnce(cells, columns, rows[i], Stage4.Reinjected(ExcelExtract.Dedup(pre + post)))
    {
      LiftedRowRejectedOnce(cells, columns, rows, pre, post, i);
    }
  }

  // ---------------------------------------------------------------- every run

  /** What is stored for a completed job, seen from the file it was read from. */
  ghost predicate FullyAccounted(h: History, payload: Ratesheet) {
    && h.extracted.Some? && Accounted(h.extracted.value, h.results, payload)
    && exists upload :: LiftedAccounted(upload, h.extracted.value, payload)
  }

  lemma {:induction false} DerivedIsAccounted(h: History)
    requires Derived(h, ONRAMP) && h.final.Some?
    ensures FullyAccounted(h, h.final.value)
  {
    var extracted, normalized, final := h.extracted.value, h.normalized.value, h.final.value;
    assert ReadFromSome(extracted) && Normalization(extracted, normalized, h.results);
    assert Validation(normalized, Normalizer.Snapshots(h.results), final);
    var upload :| ReadFrom(upload, extracted);
    ReadIsExtraction(upload, extracted);
    AccountForLanes(extracted, normalized, h.results, final);
    AccountForRows(upload, extracted, h.results, final);
  }

  /**
   The whole pipeline.  In every reachable state, whatever else runs, a completed job's payload, in the
   output table or in the archive, accounts for every lane and every lifted row of the staged file.
   */
  lemma {:induction false} CompletedIsAccounted(now: Time, age: nat, es: seq<Event>, j: JobId)
    requires Run(Initial(ONRAMP, now, age), es)
    requires j in After(Initial(ONRAMP, now, age), es).db.jobs
    requires After(Initial(ONRAMP, now, age), es).db.jobs[j].status == Completed
    ensures var s := After(Initial(ONRAMP, now, age), es);
            && (j in s.db.outputs || j in s.blobs)
            && (j in s.db.outputs ==> FullyAccounted(HistoryOf(s, j), s.db.outputs[j].payload))
            && (j in s.blobs ==> FullyAccounted(HistoryOf(s, j), s.blobs[j]))
  {
    var s := After(Initial(ONRAMP, now, age), es);
    StagesStay(Initial(ONRAMP, now, age), es);
    assert CanReach(s);
    StoredIsAccounted(s, j);
  }

  lemma {:induction false} StoredIsAccounted(s: Sys, j: JobId)
    requires CanReach(s) && s.stages == ONRAMP && j in s.db.jobs && s.db.jobs[j].status == Completed
    ensures j in s.db.outputs || j in s.blobs
    ensures j in s.db.outputs ==> FullyAccounted(HistoryOf(s, j), s.db.outputs[j].payload)
    ensures j in s.blobs ==> FullyAccounted(HistoryOf(s, j), s.blobs[j])
  {
    NothingLost(s, j);
    HistoryIsDerived(s, j);
    DerivedIsAccounted(HistoryOf(s, j));
  }

  lemma {:induction false} HistoryIsDerived(s: Sys, j: JobId)
    requires CanReach(s) && j in s.db.jobs
    ensures Derived(HistoryOf(s, j), s.stages)
  {
    ReachedInv(s);
    JobsAreOk(s, j);
  }

  lemma {:induction false} StagesStay(s: Sys, es: seq<Event>)
    requires Run(s, es)
    ensures After(s, es).stages == s.stages
    decreases |es|
  {
    if es != [] {
      StagesStay(Apply(s, es[0]), es[1..]);
    }
  }
}
