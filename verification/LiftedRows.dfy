/**
 What becomes of a row that the scan before the model call lifts out of the workbook, through all stages to
 the stored sheet (packages/ingest/excel_extractor.py, packages/ingest/tasks.py).
 */
module LiftedRows {
  import opened Prelude
  import opened Lanes
  import opened Ordering
  import opened Keys
  import opened Counting
  import opened Consensus
  import opened RulesEngine
  import opened ExcelScan
  import opened ExcelExtract
  import opened Normalizer
  import opened Stage4
  import opened Accounting
  import ConsensusLaws
  import SharedIds

  predicate Cites(source: SourceRow, row: RowId) {
    source.sheetName == row.0 && source.rowNumber == row.1
  }

  // ---------------------------------------------------------------- one record per row

  /** The first record of a row survives deduplication, and no other of that row. */
  lemma {:induction false} DedupKeepsFirst(vs: seq<ShapeViolatingLane>, i: nat)
    requires i < |vs| && forall j :: 0 <= j < i ==> RowOf(vs[j]) != RowOf(vs[i])
    ensures vs[i] in Dedup(vs)
    ensures forall v :: v in Dedup(vs) && RowOf(v) == RowOf(vs[i]) ==> v == vs[i]
    decreases |vs|
  {
    var m := |vs| - 1;
    if i < m {
      DedupKeepsFirst(vs[..m], i);
    } else {
      forall row | row in RowsOf(Dedup(vs[..m])) ensures row != RowOf(vs[m]) {
        var j :| 0 <= j < m && RowsOf(vs[..m])[j] == row;
      }
    }
    OnlyOne(Dedup(vs), vs[i]);
  }

  lemma {:induction false} OnePlace<T>(s: seq<T>, l: nat, k: nat)
    requires NoDup(s) && l < |s| && k < |s| && s[l] == s[k]
    ensures l == k
  {
  }

  lemma {:induction false} OnlyOne(kept: seq<ShapeViolatingLane>, v: ShapeViolatingLane)
    requires NoDup(RowsOf(kept)) && v in kept
    ensures forall w :: w in kept && RowOf(w) == RowOf(v) ==> w == v
  {
    var k :| 0 <= k < |kept| && kept[k] == v;
    forall w | w in kept && RowOf(w) == RowOf(v) ensures w == v {
      var l :| 0 <= l < |kept| && kept[l] == w;
      OnePlace(RowsOf(kept), l, k);
    }
  }

  lemma {:induction false} PrefixLeq(a: seq<int>, b: seq<int>)
    requires a <= b
    ensures Leq(a, b)
  {
    if a != [] {
      PrefixLeq(a[1..], b[1..]);
    }
  }

  /** The sheet name as the source reference stores it. */
  function Stored(sheet: string): string {
    if sheet == "" then "Rates" else Take64(sheet)
  }

  predicate Ordinary(row: RowId) {
    1 <= |row.0| <= 64
  }

  /** A nameless sheet is stored as Rates, and sorts before a sheet of that name. */
  predicate Shadowed(rows: seq<RowId>, row: RowId) {
    row.0 == "Rates" && ("", row.1) in rows
  }

  /** A longer name that is cut to the row's sheet name sorts after it. */
  lemma {:induction false} CutSortsAfter(longer: string, sheet: string)
    requires |longer| > 64 && Take64(longer) == sheet
    ensures !Leq(Chars(longer), Chars(sheet))
  {
    assert Chars(sheet) <= Chars(longer);
    assert |Chars(longer)| > |Chars(sheet)|;
    PrefixLeq(Chars(sheet), Chars(longer));
    if Leq(Chars(longer), Chars(sheet)) {
      Antisymmetric(Chars(longer), Chars(sheet));
    }
  }

  /** Of two lifted rows stored alike, the earlier is the nameless sheet's. */
  lemma {:induction false} StoredAlike(rows: seq<RowId>, j: nat, i: nat)
    requires Increasing(rows) && j < i < |rows| && Ordinary(rows[i])
    requires Stored(rows[j].0) == rows[i].0 && rows[j].1 == rows[i].1
    ensures rows[j].0 == "" && rows[i].0 == "Rates"
  {
    assert TupleLeq(rows[j].0, rows[j].1, rows[i].0, rows[i].1) && rows[i] != rows[j];
    if |rows[j].0| > 64 {
      CutSortsAfter(rows[j].0, rows[i].0);
    }
  }

  lemma {:induction false} ViolatorRow(cells: seq<Cell>, columns: ColumnMap, row: RowId)
    requires row.0 in columns && Lifted(cells, columns, row.0, row.1)
    ensures RowOf(Violator(cells, columns, row.0, row.1)) == (Stored(row.0), row.1)
  {
  }

  /** The record of a row that is not shadowed is the first of its row, among everything that is reported. */
  lemma {:induction false} FirstOfRow(cells: seq<Cell>, columns: ColumnMap, rows: seq<RowId>,
                                      pre: seq<ShapeViolatingLane>, post: seq<ShapeViolatingLane>, i: nat)
    requires ViolatorsOf(cells, columns, pre, rows) && i < |rows| && Ordinary(rows[i]) && !Shadowed(rows, rows[i])
    ensures i < |pre + post| && (pre + post)[i] == pre[i] && RowOf(pre[i]) == rows[i]
    ensures forall j :: 0 <= j < i ==> RowOf((pre + post)[j]) != RowOf((pre + post)[i])
  {
    assert rows[i] in rows;
    ViolatorRow(cells, columns, rows[i]);
    forall j | 0 <= j < i ensures RowOf((pre + post)[j]) != RowOf((pre + post)[i]) {
      assert rows[j] in rows;
      ViolatorRow(cells, columns, rows[j]);
      if RowOf(pre[j]) == RowOf(pre[i]) {
        StoredAlike(rows, j, i);
      }
    }
  }

  /** The records of a shadowed row and of the nameless sheet's row differ. */
  lemma {:induction false} ShadowIsAnother(cells: seq<Cell>, columns: ColumnMap, row: nat)
    requires "" in columns && Lifted(cells, columns, "", row) && "Rates" in columns && Lifted(cells, columns, "Rates", row)
    ensures Violator(cells, columns, "", row) != Violator(cells, columns, "Rates", row)
    ensures RowOf(Violator(cells, columns, "", row)) == RowOf(Violator(cells, columns, "Rates", row)) == ("Rates", row)
  {
    var a, b := "shape_violator_" + "" + "_" + Digits(row), "shape_violator_" + "Rates" + "_" + Digits(row);
    assert a[15] == '_' && b[15] == 'R';
    assert Take64(a)[15] == a[15] && Take64(b)[15] == b[15];
  }

  /** The nameless sheet's row comes first of those stored as ("Rates", row). */
  lemma {:induction false} FirstOfShadow(cells: seq<Cell>, columns: ColumnMap, rows: seq<RowId>,
                                         pre: seq<ShapeViolatingLane>, post: seq<ShapeViolatingLane>, i: nat)
    returns (j: nat)
    requires ViolatorsOf(cells, columns, pre, rows) && i < |rows| && Ordinary(rows[i]) && Shadowed(rows, rows[i])
    ensures j < |pre| && RowOf(pre[j]) == rows[i] && pre[j] != pre[i]
    ensures forall k :: 0 <= k < j ==> RowOf((pre + post)[k]) != RowOf((pre + post)[j])
  {
    assert rows[i] in rows;
    j :| 0 <= j < |rows| && rows[j] == ("", rows[i].1);
    ShadowIsAnother(cells, columns, rows[i].1);
    forall k | 0 <= k < j ensures RowOf((pre + post)[k]) != RowOf((pre + post)[j]) {
      assert rows[k] in rows;
      assert TupleLeq(rows[k].0, rows[k].1, rows[j].0, rows[j].1) && rows[k] != rows[j];
      ViolatorRow(cells, columns, rows[k]);
      NothingBeforeEmpty(rows[k].0);
    }
  }

  lemma {:induction false} NothingBeforeEmpty(s: string)
    ensures Leq(Chars(s), Chars("")) <==> s == ""
  {
  }

  /**
   Exactly one record of the payload carries a lifted row of an ordinary sheet, and it is the row's own record
   unless the row is shadowed.
   */
  lemma {:induction false} LiftedRecord(cells: seq<Cell>, columns: ColumnMap, rows: seq<RowId>,
                                        pre: seq<ShapeViolatingLane>, post: seq<ShapeViolatingLane>, i: nat)
    requires ViolatorsOf(cells, columns, pre, rows) && i < |rows| && Ordinary(rows[i])
    ensures exists k :: 0 <= k < |Dedup(pre + post)| && OnlyRecord(Dedup(pre + post), k, rows[i])
    ensures pre[i] in Dedup(pre + post) <==> !Shadowed(rows, rows[i])
  {
    var all := pre + post;
    var first: nat;
    if Shadowed(rows, rows[i]) {
      first := FirstOfShadow(cells, columns, rows, pre, post, i);
      assert rows[i] in rows;
      ViolatorRow(cells, columns, rows[i]);
    } else {
      first := i;
      FirstOfRow(cells, columns, rows, pre, post, i);
    }
    DedupKeepsFirst(all, first);
    assert all[first] == pre[first] && all[i] == pre[i];
    var k :| 0 <= k < |Dedup(all)| && Dedup(all)[k] == all[first];
    RecordAt(Dedup(all), k, rows[i]);
  }

  /** Record `k` cites the row, and no other does. */
  predicate OnlyRecord(vs: seq<ShapeViolatingLane>, k: nat, row: RowId) {
    k < |vs| && RowOf(vs[k]) == row && forall l :: 0 <= l < |vs| && RowOf(vs[l]) == row ==> l == k
  }

  lemma {:induction false} RecordAt(vs: seq<ShapeViolatingLane>, k: nat, row: RowId)
    requires NoDup(RowsOf(vs)) && k < |vs| && RowOf(vs[k]) == row
    ensures OnlyRecord(vs, k, row)
  {
    forall l | 0 <= l < |vs| && RowOf(vs[l]) == row ensures l == k {
      OnePlace(RowsOf(vs), l, k);
    }
  }

  // ---------------------------------------------------------------- in the stored sheet

  /** The reference names an ill-shaped cell of the row. */
  predicate Anchored(cells: seq<Cell>, columns: ColumnMap, row: RowId, reference: string) {
    exists c :: c in cells && OnRow(c, row.0, row.1) && Bad(c, columns) && (c.coord != "" ==> reference == c.coord)
  }

  /** Exactly one of the records is about the row: by the port rule, citing an ill-shaped cell of that row. */
  ghost predicate RejectedOnce(cells: seq<Cell>, columns: ColumnMap, row: RowId, records: seq<RejectionRecord>) {
    exists k :: 0 <= k < |records| && TheRecord(cells, columns, row, records, k)
  }

  predicate TheRecord(cells: seq<Cell>, columns: ColumnMap, row: RowId, records: seq<RejectionRecord>, k: nat) {
    && k < |records| && Cites(records[k].source, row) && records[k].rule == PortUnknownUnlocode
    && Anchored(cells, columns, row, records[k].source.cellReference)
    && forall l :: 0 <= l < |records| && Cites(records[l].source, row) ==> l == k
  }

  /** From the scan to the re-injection. */
  lemma {:induction false} LiftedRowRejectedOnce(cells: seq<Cell>, columns: ColumnMap, rows: seq<RowId>,
                                                 pre: seq<ShapeViolatingLane>, post: seq<ShapeViolatingLane>, i: nat)
    requires ViolatorsOf(cells, columns, pre, rows) && i < |rows| && Ordinary(rows[i]) && !Shadowed(rows, rows[i])
    ensures RejectedOnce(cells, columns, rows[i], Reinjected(Dedup(pre + post)))
  {
    var vs := Dedup(pre + post);
    LiftedRecord(cells, columns, rows, pre, post, i);
    var k :| 0 <= k < |vs| && OnlyRecord(vs, k, rows[i]);
    FirstOfRow(cells, columns, rows, pre, post, i);
    var l :| 0 <= l < |vs| && vs[l] == pre[i];
    assert l == k;
    assert rows[i] in rows;
    ViolatorIsIllShaped(cells, columns, rows[i].0, rows[i].1);
    var records := Reinjected(vs);
    forall m | 0 <= m < |records| && Cites(records[m].source, rows[i]) ensures m == k {
      assert RowOf(vs[m]) == rows[i];
    }
    assert TheRecord(cells, columns, rows[i], records, k);
  }

  // ---------------------------------------------------------------- the row elsewhere in the sheet

  /** Two of the votes agree on a source reference, and it cites the row. */
  predicate TwoVotesCite(votes: seq<Vote>, row: RowId) {
    exists a, b :: 0 <= a < b < |votes| && votes[a].lane.source == votes[b].lane.source && Cites(votes[a].lane.source, row)
  }

  lemma {:induction false} SourceKey(a: LaneRecord, b: LaneRecord)
    ensures FieldKey(a, SourceRowReference) == FieldKey(b, SourceRowReference) <==> a.source == b.source
  {
    if FieldKey(a, SourceRowReference) == FieldKey(b, SourceRowReference) {
      CanonicalIsExact(a, b, SourceRowReference);
      SameSource(a, b);
    }
  }

  lemma {:induction false} TwoOfThree<K(!new)>(ks: seq<K>, k: K)
    requires |ks| == 3
    ensures Majority(ks, k) <==> exists a, b :: 0 <= a < b < 3 && ks[a] == k && ks[b] == k
  {
    ConsensusLaws.CountThree(ks, k);
    if Majority(ks, k) {
      assert (ks[0] == k && ks[1] == k) || (ks[0] == k && ks[2] == k) || (ks[1] == k && ks[2] == k);
    }
  }

  lemma {:induction false} WinningKey<K(!new)>(id: string, votes: seq<Vote>, r: ConsensusResult, f: Field,
                                               key: KeyOf<K>)
    requires IsConsensusBy(id, votes, r, key) && r.lane.Some?
    ensures Majority(KeysBy(votes, f, key), key(r.lane.value, f))
  {
    assert Elected(votes, r.lane.value, f, key);
  }

  /** The source of a consensus lane is the one that two of the three votes gave. */
  lemma {:induction false} ElectedSource(id: string, votes: seq<Vote>, r: ConsensusResult, row: RowId)
    requires |votes| == 3 && IsConsensus(id, votes, r) && r.lane.Some?
    ensures Cites(r.lane.value.source, row) <==> TwoVotesCite(votes, row)
  {
    WinningKey(id, votes, r, SourceRowReference, FieldKey);
    SourceWins(votes, r.lane.value, row);
  }

  lemma {:induction false} SourceWins(votes: seq<Vote>, lane: LaneRecord, row: RowId)
    requires |votes| == 3
    requires Majority(KeysBy(votes, SourceRowReference, FieldKey), FieldKey(lane, SourceRowReference))
    ensures Cites(lane.source, row) <==> TwoVotesCite(votes, row)
  {
    var ks, won := KeysBy(votes, SourceRowReference, FieldKey), FieldKey(lane, SourceRowReference);
    TwoOfThree(ks, won);
    var a, b :| 0 <= a < b < 3 && ks[a] == won && ks[b] == won;
    SourceKey(votes[a].lane, lane);
    SourceKey(votes[b].lane, lane);
    if c, d :| 0 <= c < d < |votes| && votes[c].lane.source == votes[d].lane.source && Cites(votes[c].lane.source, row) {
      SourceKey(votes[c].lane, votes[d].lane);
      TwoOfThree(ks, ks[c]);
      MajorityUnique(ks, ks[c], won);
      SourceKey(votes[c].lane, lane);
    }
  }

  lemma {:induction false} FinalsAre(routes: seq<Routed>, lane: LaneRecord)
    ensures lane in Finals(routes) <==> exists j :: 0 <= j < |routes| && routes[j] == Final(lane)
  {
    if routes != [] {
      var m := |routes| - 1;
      FinalsAre(routes[..m], lane);
      if j :| 0 <= j < |routes| && routes[j] == Final(lane) {
        assert j < m ==> routes[..m][j] == Final(lane);
      }
      if j :| 0 <= j < m && routes[..m][j] == Final(lane) {
        assert routes[j] == Final(lane);
      }
    }
  }

  /** Some stored lane, or some lane's own rejection, cites the row. */
  predicate CitedElsewhere(lanes: seq<LaneRecord>, records: seq<RejectionRecord>, row: RowId) {
    (exists l :: l in lanes && Cites(l.source, row)) || (exists r :: r in records && Cites(r.source, row))
  }

  /** The rules pass on the sources of the lanes they split. */
  lemma {:induction false} SplitCites(lanes: seq<LaneRecord>, today: Date, row: RowId)
    ensures CitedElsewhere(Survivors(lanes, today), Rejections(lanes, today), row) <==>
              exists l :: l in lanes && Cites(l.source, row)
  {
    var losers, records := Losers(lanes, today), Rejections(lanes, today);
    if l :| l in lanes && Cites(l.source, row) {
      if Passes(l, today) {
        assert l in Survivors(lanes, today);
      } else {
        var i :| 0 <= i < |losers| && losers[i] == l;
        assert records[i] in records && records[i].source == l.source;
      }
    }
    if r :| r in records && Cites(r.source, row) {
      var i :| 0 <= i < |records| && records[i] == r;
      assert losers[i] in losers && losers[i].source == r.source;
    }
  }

  /** Lane `j` is final, and two of its votes cite the row. */
  predicate VotedOnto(lanes: seq<LaneRecord>, results: seq<ConsensusResult>, resolve: Resolver, j: nat, row: RowId)
    requires |results| == |lanes|
  {
    j < |lanes| && Route(lanes[j], results[j], resolve).Final? && TwoVotesCite(results[j].votes, row)
  }

  lemma {:induction false} FinalCites(lane: LaneRecord, e: Ensemble, result: ConsensusResult, resolve: Resolver,
                                      row: RowId)
    requires PolledLane(lane, e, result) && Route(lane, result, resolve).Final?
    ensures Cites(Route(lane, result, resolve).lane.source, row) <==> TwoVotesCite(result.votes, row)
  {
    ElectedSource(lane.laneId, VotesOf(e), result, row);
    SameVotes(lane.laneId, VotesOf(e), result, FieldKey);
  }

  lemma {:induction false} SameVotes<K(!new)>(id: string, votes: seq<Vote>, r: ConsensusResult, key: KeyOf<K>)
    requires IsConsensusBy(id, votes, r, key)
    ensures r.votes == votes
  {
  }

  /**
   Exactly when a row turns up outside its own record.  A stored lane or a lane's rejection cites a row if
   and only if some final lane had two votes that agree on a source reference to it.
   */
  lemma {:induction false} CitedElsewhereIff(lanes: seq<LaneRecord>, ensembles: nat -> Ensemble,
                                             results: seq<ConsensusResult>, resolve: Resolver, today: Date, row: RowId)
    requires Polled(lanes, ensembles, results) && |results| == |lanes|
    ensures var finals := Finals(Routes(lanes, results, resolve));
            CitedElsewhere(Survivors(finals, today), Rejections(finals, today), row) <==>
              exists j :: 0 <= j < |lanes| && VotedOnto(lanes, results, resolve, j, row)
  {
    var routes := Routes(lanes, results, resolve);
    SplitCites(Finals(routes), today, row);
    if l :| l in Finals(routes) && Cites(l.source, row) {
      FinalsAre(routes, l);
      var j :| 0 <= j < |routes| && routes[j] == Final(l);
      assert PolledLane(lanes[j], ensembles(j), results[j]);
      FinalCites(lanes[j], ensembles(j), results[j], resolve, row);
      assert VotedOnto(lanes, results, resolve, j, row);
    }
    if j :| 0 <= j < |lanes| && VotedOnto(lanes, results, resolve, j, row) {
      assert PolledLane(lanes[j], ensembles(j), results[j]);
      FinalCites(lanes[j], ensembles(j), results[j], resolve, row);
      assert routes[j] == Final(routes[j].lane);
      FinalsAre(routes, routes[j].lane);
    }
  }

  // ---------------------------------------------------------------- a lifted row that comes back

  /** A lane the model may invent for a row it was never shown. */
  function Invented(row: RowId): LaneRecord {
    LaneRecord("row-2", PortCode("CNSHA"), PortCode("NLRTM"), "40HC", None, Decimal(false, 1200, 0), [], Some(30),
               20260101, 20270101, SourceRow(row.0, row.1, "A2"))
  }

  function Answer(row: RowId): (answer: seq<RawLane>)
    ensures |answer| == 1
  {
    [RawLane("row-2", Str("CNSHA"), Str("NLRTM"), Some(Invented(row).source), Some(Invented(row)))]
  }

  lemma {:induction false} AnswerReadable(row: RowId)
    ensures Readable(Answer(row)) && Lift(Answer(row), "Rates") == []
    ensures Filter(Answer(row), WellShaped) == Answer(row) && ParsedLanes(Answer(row)) == [Invented(row)]
  {
    var answer := Answer(row);
    assert UnlocodeShape("CNSHA") && UnlocodeShape("NLRTM");
    assert forall l :: l in answer ==> WellShaped(l) && Parsed(l);
    FilterAll(answer, WellShaped);
    assert answer[..0] == [] && WellShaped(answer[0]);
    assert answer[1..] == [];
  }

  lemma {:induction false} InventedFinal(row: RowId, result: ConsensusResult)
    requires result.lane == Some(Invented(row))
    ensures Finals(Routes([Invented(row)], [result], SharedIds.Verbatim())) == [Invented(row)]
    ensures Flags(Routes([Invented(row)], [result], SharedIds.Verbatim())) == []
  {
    var lane := Invented(row);
    assert lane.(origin := PortCode(lane.origin.code), destination := PortCode(lane.destination.code)) == lane;
    assert Routes([lane], [result], SharedIds.Verbatim()) == [] + [Final(lane)];
    RoutesSnoc([], Final(lane));
  }

  lemma {:induction false} InventedPasses(row: RowId, today: Date)
    requires today <= 20270101
    ensures Passes(Invented(row), today)
  {
    assert UnlocodeShape("CNSHA") && UnlocodeShape("NLRTM") && "40HC" in EQUIPMENT_TYPES;
  }

  /**
   Lifting a row out of the prompt does not keep it out of `lanes`.  For every scanned workbook and every row
   lifted from it there is an answer of the model, and three equal votes, with which the stored sheet holds
   a lane citing that row, next to the row's rejection.
   */
  lemma {:induction false} LiftedRowMayReturn(cells: seq<Cell>, columns: ColumnMap, rows: seq<RowId>,
                                              pre: seq<ShapeViolatingLane>, i: nat, result: ConsensusResult,
                                              table: VoteTable, rounds: Rounds, today: Date)
    requires ViolatorsOf(cells, columns, pre, rows) && i < |rows| && Ordinary(rows[i]) && !Shadowed(rows, rows[i])
    requires IsConsensus("row-2", [Vote(Invented(rows[i])), Vote(Invented(rows[i])), Vote(Invented(rows[i]))], result)
    requires WellFormed(table) && today <= 20270101
    ensures Readable(Answer(rows[i]))
    ensures var extracted := PayloadOf(pre, Answer(rows[i]));
            && extracted.lanes == [Invented(rows[i])]
            && var routes := Routes(extracted.lanes, [result], SharedIds.Verbatim());
               var final := Validated(extracted.(lanes := Finals(routes), flags := Flags(routes)), table, rounds, today);
               && Invented(rows[i]) in final.lanes && Cites(Invented(rows[i]).source, rows[i])
               && final.rejected == Reinjected(extracted.shapeViolating)
               && RejectedOnce(cells, columns, rows[i], final.rejected)
  {
    var lane := Invented(rows[i]);
    AnswerReadable(rows[i]);
    SharedIds.UnanimousLane("row-2", Vote(lane), result);
    InventedFinal(rows[i], result);
    InventedPasses(rows[i], today);
    FilterAll([lane], (l: LaneRecord) => Passes(l, today));
    FilterNone([lane], (l: LaneRecord) => !Passes(l, today));
    LiftedRowRejectedOnce(cells, columns, rows, pre, [], i);
    var records := Reinjected(Dedup(pre + []));
    assert [] + [] + records == records;
  }

  /** A workbook with such a row: a header, and a row whose origin is no UN/LOCODE. */
  function Workbook(): seq<Cell> {
    [Cell("Rates", 1, 1, "A1", CellValue.Text("origin")), Cell("Rates", 1, 2, "B1", CellValue.Text("destination")),
     Cell("Rates", 2, 1, "A2", CellValue.Text("Shanghai")), Cell("Rates", 2, 2, "B2", CellValue.Text("NLRTM"))]
  }

  lemma {:induction false} WorkbookRowLifted(names: string -> Label)
    requires names("origin") == OriginLabel && names("destination") == DestinationLabel
    ensures Identified(Workbook(), "Rates", names, Slots(1, 2, 1))
    ensures Lifted(Workbook(), map["Rates" := Slots(1, 2, 1)], "Rates", 2)
  {
    var cells, columns := Workbook(), map["Rates" := Slots(1, 2, 1)];
    var bad := cells[2];
    assert !UnlocodeShape("Shanghai") by { assert |"Shanghai"| == 8; }
    assert bad in cells && OnRow(bad, "Rates", 2) && Bad(bad, columns);
    LiftedIff(cells, columns, "Rates", 2);
    WorkbookHeader(names);
  }

  lemma {:induction false} WorkbookHeader(names: string -> Label)
    requires names("origin") == OriginLabel && names("destination") == DestinationLabel
    ensures Identified(Workbook(), "Rates", names, Slots(1, 2, 1))
  {
    var cells := Workbook();
    var one, two, three := cells[..1], cells[..2], cells[..3];
    assert cells[..3] == three && three[..2] == two && two[..1] == one && one[..0] == [];
    assert FirstLabelled(one, "Rates", 1, names, OriginLabel) == Some(1);
    assert FirstLabelled(two, "Rates", 1, names, OriginLabel) == Some(1);
    assert FirstLabelled(one, "Rates", 1, names, DestinationLabel) == None;
    assert FirstLabelled(two, "Rates", 1, names, DestinationLabel) == Some(2);
    assert FirstLabelled(three, "Rates", 1, names, DestinationLabel) == Some(2);
    if HeaderAt(cells, "Rates", 0, names).Some? {
      LabelNeedsRow(cells, "Rates", 0, names, OriginLabel);
    }
  }
}
