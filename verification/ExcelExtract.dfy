/**
 From a workbook's cells to the Stage 2 payload (packages/ingest/excel_extractor.py): the scan before the
 model call, the scan of the model's answer, and their union by source row.
 */
module ExcelExtract {
  import opened Prelude
  import opened Lanes
  import opened Ordering
  import opened ExcelScan

  /** `str` of a JSON value that is not a string: a number, bool, null, list or object. */
  type NonCode = s: string | !UnlocodeShape(s) witness ""

  datatype JsonCode = Str(s: string) | NonStr(shown: NonCode)

  /**
   One element of `body["lanes"]`.  `laneId` is "" when missing or falsy; `source` is None when missing
   or malformed; `parsed` is what schema validation makes of the lane, None if it is rejected.
   */
  datatype RawLane = RawLane(laneId: string, origin: JsonCode, destination: JsonCode,
                             source: Option<SourceRow>, parsed: Option<LaneRecord>)

  datatype ExtractFailure =
    | ModelFailed      // timeout or no text, raised as ExtractionError: the task records the failure
    | SchemaViolation  // raised as ExtractionError: the task records the failure
    | Uncaught         // any other exception, such as one of the violator model: nothing records it

  function CodeText(c: JsonCode): string {
    match c
    case Str(s) => s
    case NonStr(shown) => shown
  }

  predicate WellShaped(lane: RawLane) {
    lane.origin.Str? && lane.destination.Str? && UnlocodeShape(lane.origin.s) && UnlocodeShape(lane.destination.s)
  }

  predicate IllShaped(v: ShapeViolatingLane) {
    !UnlocodeShape(v.rawOrigin) || !UnlocodeShape(v.rawDestination)
  }

  /** The length limits of the violator model. */
  predicate Admissible(v: ShapeViolatingLane) {
    1 <= |v.laneId| <= 64 && 1 <= |v.rawOrigin| <= 64 && 1 <= |v.rawDestination| <= 64
  }

  /** The record for the ill-shaped lane at index `idx`; its own reference, else a positional one. */
  function LiftOne(lane: RawLane, sheetName: string, idx: nat): ShapeViolatingLane {
    ShapeViolatingLane(
      if lane.laneId != "" then lane.laneId else "shape_violator_" + Digits(idx),
      CodeText(lane.origin), CodeText(lane.destination),
      if lane.source.Some? then lane.source.value
      else SourceRow(if sheetName == "" then "Rates" else Take64(sheetName), idx + 2, "A" + Digits(idx + 2)))
  }

  /** The lifted lanes in order. */
  function Lift(lanes: seq<RawLane>, sheetName: string): (vs: seq<ShapeViolatingLane>)
    ensures forall v :: v in vs ==> IllShaped(v)
  {
    if lanes == [] then []
    else
      var idx := |lanes| - 1;
      Lift(lanes[..idx], sheetName) + if WellShaped(lanes[idx]) then [] else [LiftOne(lanes[idx], sheetName, idx)]
  }

  /** Both codes are strings of the UN/LOCODE shape; what is no string never has it. */
  predicate GoodCodes(lane: RawLane) {
    UnlocodeShape(CodeText(lane.origin)) && UnlocodeShape(CodeText(lane.destination))
  }

  /** The record of the lane at index `idx`: its own codes, and its own id and reference where it has them. */
  predicate IsLifted(lane: RawLane, idx: nat, sheetName: string, v: ShapeViolatingLane) {
    && v.rawOrigin == CodeText(lane.origin) && v.rawDestination == CodeText(lane.destination)
    && v.laneId == (if lane.laneId != "" then lane.laneId else "shape_violator_" + Digits(idx))
    && (lane.source.Some? ==> v.source == lane.source.value)
    && (lane.source.None? ==>
          v.source == SourceRow(if sheetName == "" then "Rates" else Take64(sheetName), idx + 2, "A" + Digits(idx + 2)))
  }

  /** The records are those of the lanes `at`, in order, and these are all with an ill-shaped code. */
  ghost predicate LiftedAt(lanes: seq<RawLane>, sheetName: string, at: seq<nat>, vs: seq<ShapeViolatingLane>) {
    && |at| == |vs| && (forall i, j :: 0 <= i < j < |at| ==> at[i] < at[j])
    && (forall n: nat :: n in at <==> n < |lanes| && !GoodCodes(lanes[n]))
    && forall k :: 0 <= k < |at| ==> at[k] in at && IsLifted(lanes[at[k]], at[k], sheetName, vs[k])
  }

  lemma {:induction false} LiftAt(lanes: seq<RawLane>, sheetName: string) returns (at: seq<nat>)
    ensures LiftedAt(lanes, sheetName, at, Lift(lanes, sheetName))
  {
    if lanes == [] {
      at := [];
    } else {
      var m := |lanes| - 1;
      at := LiftAt(lanes[..m], sheetName);
      var v := LiftNext(lanes, sheetName);
      at := LiftAtNext(lanes, sheetName, at, Lift(lanes[..m], sheetName), v, Lift(lanes, sheetName));
    }
  }

  lemma {:induction false} LiftNext(lanes: seq<RawLane>, sheetName: string) returns (v: ShapeViolatingLane)
    requires lanes != []
    ensures var m := |lanes| - 1;
            && IsLifted(lanes[m], m, sheetName, v)
            && Lift(lanes, sheetName) ==
                 if GoodCodes(lanes[m]) then Lift(lanes[..m], sheetName) else Lift(lanes[..m], sheetName) + [v]
  {
    v := LiftOne(lanes[|lanes| - 1], sheetName, |lanes| - 1);
  }

  lemma {:induction false} LiftAtNext(lanes: seq<RawLane>, sheetName: string, before: seq<nat>,
                                      vs: seq<ShapeViolatingLane>, v: ShapeViolatingLane, all: seq<ShapeViolatingLane>)
    returns (at: seq<nat>)
    requires lanes != []
    requires var m := |lanes| - 1;
             && LiftedAt(lanes[..m], sheetName, before, vs) && IsLifted(lanes[m], m, sheetName, v)
             && all == if GoodCodes(lanes[m]) then vs else vs + [v]
    ensures LiftedAt(lanes, sheetName, at, all)
  {
    var m := |lanes| - 1;
    at := before;
    if !GoodCodes(lanes[m]) {
      at := before + [m];
    }
    forall k | 0 <= k < |at| ensures at[k] in at && IsLifted(lanes[at[k]], at[k], sheetName, all[k]) {
      if k < |before| {
        assert before[k] in before && IsLifted(lanes[..m][before[k]], before[k], sheetName, vs[k]);
      }
    }
    forall n: nat ensures n in at <==> n < |lanes| && !GoodCodes(lanes[n]) {
      assert n in at <==> n in before || (n == m && !GoodCodes(lanes[m]));
      assert n in before <==> n < m && !GoodCodes(lanes[..m][n]);
    }
    forall i, j | 0 <= i < j < |at| ensures at[i] < at[j] {
      assert before[i] in before;
    }
  }

  class ResponseBody {
    var lanes: seq<RawLane>

    constructor (lanes: seq<RawLane>)
      ensures this.lanes == lanes
    {
      this.lanes := lanes;
    }

    /**
     Lift ill-shaped lanes out of `lanes`, in place.  A lane whose record the violator model refuses (an
     empty code, say) raises before anything is replaced.
     */
    method PreScan(sheetName: string) returns (r: Result<seq<ShapeViolatingLane>, ExtractFailure>)
      modifies this
      ensures r.Ok? <==> forall v :: v in Lift(old(lanes), sheetName) ==> Admissible(v)
      ensures r.Ok? ==> r.value == Lift(old(lanes), sheetName) && lanes == Filter(old(lanes), WellShaped)
      ensures r.Ok? ==> lanes == Filter(old(lanes), GoodCodes) && exists at :: LiftedAt(old(lanes), sheetName, at, r.value)
      ensures r.Err? ==> r.error == Uncaught && lanes == old(lanes)
    {
      var surviving: seq<RawLane> := [];
      var violating: seq<ShapeViolatingLane> := [];
      for idx := 0 to |lanes|
        invariant lanes == old(lanes)
        invariant surviving == Filter(lanes[..idx], WellShaped)
        invariant violating == Lift(lanes[..idx], sheetName)
        invariant forall v :: v in violating ==> Admissible(v)
      {
        FilterNext(lanes, idx, WellShaped);
        assert lanes[..idx + 1][..idx] == lanes[..idx];
        if WellShaped(lanes[idx]) {
          surviving := surviving + [lanes[idx]];
        } else {
          var v := LiftOne(lanes[idx], sheetName, idx);
          if !Admissible(v) {
            LiftPrefix(lanes, idx + 1, sheetName, v);
            return Err(Uncaught);
          }
          violating := violating + [v];
        }
      }
      assert lanes[..|lanes|] == lanes;
      PreScanned(lanes, sheetName);
      lanes := surviving;
      r := Ok(violating);
    }
  }

  lemma {:induction false} PreScanned(lanes: seq<RawLane>, sheetName: string)
    ensures Filter(lanes, WellShaped) == Filter(lanes, GoodCodes)
    ensures exists at :: LiftedAt(lanes, sheetName, at, Lift(lanes, sheetName))
  {
    SameFilter(lanes, WellShaped, GoodCodes);
    var at := LiftAt(lanes, sheetName);
  }

  lemma {:induction false} LiftPrefix(lanes: seq<RawLane>, n: nat, sheetName: string, v: ShapeViolatingLane)
    requires n <= |lanes| && v in Lift(lanes[..n], sheetName)
    ensures v in Lift(lanes, sheetName)
    decreases |lanes| - n
  {
    if n == |lanes| {
      assert lanes[..n] == lanes;
    } else {
      assert lanes[..n + 1][..n] == lanes[..n];
      LiftPrefix(lanes, n + 1, sheetName, v);
    }
  }

  // ---------------------------------------------------------------- union of both scans

  function RowOf(v: ShapeViolatingLane): (string, int) {
    (v.source.sheetName, v.source.rowNumber)
  }

  function RowsOf(vs: seq<ShapeViolatingLane>): (rows: seq<(string, int)>)
    ensures |rows| == |vs| && forall i :: 0 <= i < |vs| ==> rows[i] == RowOf(vs[i])
  {
    seq(|vs|, i requires 0 <= i < |vs| => RowOf(vs[i]))
  }

  /** Keep the first violator of every (sheet, row). */
  function Dedup(vs: seq<ShapeViolatingLane>): (kept: seq<ShapeViolatingLane>)
    ensures NoDup(RowsOf(kept))
    ensures forall row :: row in RowsOf(kept) <==> row in RowsOf(vs)
    ensures forall v :: v in kept ==> v in vs
  {
    if vs == [] then []
    else
      var v := vs[|vs| - 1];
      var kept := Dedup(vs[..|vs| - 1]);
      assert vs == vs[..|vs| - 1] + [v];
      assert RowsOf(vs) == RowsOf(vs[..|vs| - 1]) + [RowOf(v)];
      if RowOf(v) in RowsOf(kept) then kept
      else
        assert RowsOf(kept + [v]) == RowsOf(kept) + [RowOf(v)];
        kept + [v]
  }

  method Union(pre: seq<ShapeViolatingLane>, post: seq<ShapeViolatingLane>) returns (all: seq<ShapeViolatingLane>)
    ensures all == Dedup(pre + post)
    ensures exists at :: FirstsAt(pre + post, at, all)
  {
    var vs := pre + post;
    var seen: set<(string, int)> := {};
    all := [];
    for n := 0 to |vs|
      invariant all == Dedup(vs[..n])
      invariant forall row :: row in seen <==> row in RowsOf(all)
    {
      var key := RowOf(vs[n]);
      assert vs[..n + 1][..n] == vs[..n];
      if key !in seen {
        assert RowsOf(all + [vs[n]]) == RowsOf(all) + [key];
        seen := seen + {key};
        all := all + [vs[n]];
      }
    }
    assert vs[..|vs|] == vs;
    ghost var at := DedupKeepsFirsts(vs);
  }

  /** No earlier violator is of the same row. */
  predicate FirstOfItsRow(vs: seq<ShapeViolatingLane>, n: nat)
    requires n < |vs|
  {
    forall m: nat :: m < n ==> RowOf(vs[m]) != RowOf(vs[n])
  }

  /** The kept violators are those at the positions `at`, in order, and these are the first of their rows. */
  ghost predicate FirstsAt(vs: seq<ShapeViolatingLane>, at: seq<nat>, kept: seq<ShapeViolatingLane>) {
    && |at| == |kept| && (forall i, j :: 0 <= i < j < |at| ==> at[i] < at[j])
    && (forall n: nat :: n in at <==> n < |vs| && FirstOfItsRow(vs, n))
    && forall k :: 0 <= k < |at| ==> at[k] in at && at[k] < |vs| && kept[k] == vs[at[k]]
  }

  /** Exactly the first violator of every row is kept, in its place. */
  lemma {:induction false} DedupKeepsFirsts(vs: seq<ShapeViolatingLane>) returns (at: seq<nat>)
    ensures FirstsAt(vs, at, Dedup(vs))
  {
    at := [];
    if vs != [] {
      at := DedupKeepsFirsts(vs[..|vs| - 1]);
      at := FirstsNext(vs, at);
    }
  }

  lemma {:induction false} FirstsNext(vs: seq<ShapeViolatingLane>, before: seq<nat>) returns (at: seq<nat>)
    requires vs != [] && FirstsAt(vs[..|vs| - 1], before, Dedup(vs[..|vs| - 1]))
    ensures FirstsAt(vs, at, Dedup(vs))
  {
    var m := |vs| - 1;
    LastIsFirst(vs);
    at := before;
    if FirstOfItsRow(vs, m) {
      at := before + [m];
    }
    forall n: nat ensures n in at <==> n < |vs| && FirstOfItsRow(vs, n) {
      assert n < m ==> (FirstOfItsRow(vs[..m], n) <==> FirstOfItsRow(vs, n));
      assert n in before ==> n < m;
    }
    forall k | 0 <= k < |at| ensures at[k] in at && at[k] < |vs| && Dedup(vs)[k] == vs[at[k]] {
      assert k < |before| ==> before[k] in before && before[k] < m;
    }
    forall i, j | 0 <= i < j < |at| ensures at[i] < at[j] {
      assert before[i] in before;
    }
  }

  lemma {:induction false} LastIsFirst(vs: seq<ShapeViolatingLane>)
    requires vs != []
    ensures var m := |vs| - 1;
            Dedup(vs) == Dedup(vs[..m]) + if FirstOfItsRow(vs, m) then [vs[m]] else []
  {
    var m := |vs| - 1;
    var rows := RowsOf(vs[..m]);
    assert FirstOfItsRow(vs, m) <==> RowOf(vs[m]) !in rows by {
      if RowOf(vs[m]) in rows {
        var i :| 0 <= i < |rows| && rows[i] == RowOf(vs[m]);
        assert RowOf(vs[..m][i]) == RowOf(vs[i]);
      }
      forall i: nat | i < m && RowOf(vs[i]) == RowOf(vs[m]) ensures RowOf(vs[m]) in rows {
        assert rows[i] == RowOf(vs[..m][i]);
      }
    }
  }

  /** A list without repeated rows is not changed. */
  lemma {:induction false} DedupOfDistinct(vs: seq<ShapeViolatingLane>)
    requires NoDup(RowsOf(vs))
    ensures Dedup(vs) == vs
  {
    if vs != [] {
      var m := |vs| - 1;
      assert RowsOf(vs) == RowsOf(vs[..m]) + [RowOf(vs[m])];
      DedupOfDistinct(vs[..m]);
      assert forall i :: 0 <= i < m ==> RowsOf(vs)[i] != RowsOf(vs)[m];
      assert vs == vs[..m] + [vs[m]];
    }
  }

  /** A list without repeated rows survives deduplication, whatever follows it: the earlier scan wins. */
  lemma {:induction false} EarlierScanWins(pre: seq<ShapeViolatingLane>, post: seq<ShapeViolatingLane>)
    requires NoDup(RowsOf(pre))
    ensures pre <= Dedup(pre + post)
    decreases |post|
  {
    if post == [] {
      assert pre + post == pre;
      DedupOfDistinct(pre);
    } else {
      var m := |post| - 1;
      assert (pre + post)[..|pre + post| - 1] == pre + post[..m];
      EarlierScanWins(pre, post[..m]);
    }
  }

  // ---------------------------------------------------------------- the whole extraction

  predicate Parsed(lane: RawLane) {
    lane.parsed.Some?
  }

  function ParsedLanes(lanes: seq<RawLane>): (r: seq<LaneRecord>)
    requires forall l :: l in lanes ==> Parsed(l)
    ensures |r| == |lanes| && forall i :: 0 <= i < |lanes| ==> Some(r[i]) == lanes[i].parsed
  {
    if lanes == [] then []
    else
      assert lanes[0] in lanes && Parsed(lanes[0]);
      [lanes[0].parsed.value] + ParsedLanes(lanes[1..])
  }

  /** The model's answer passes both gates: every lifted record is admissible, every other lane parses. */
  predicate Readable(answer: seq<RawLane>) {
    && (forall v :: v in Lift(answer, "Rates") ==> Admissible(v))
    && (forall l :: l in Filter(answer, WellShaped) ==> Parsed(l))
  }

  /** From the model's answer to the payload: `pre` are the violators lifted before the call. */
  method ReadAnswer(answer: seq<RawLane>, pre: seq<ShapeViolatingLane>) returns (r: Result<Ratesheet, ExtractFailure>)
    ensures r.Ok? <==> Readable(answer)
    ensures r.Ok? ==>
              r.value == PayloadOf(pre, answer)
    ensures r.Err? ==>
              r.error == if forall v :: v in Lift(answer, "Rates") ==> Admissible(v) then SchemaViolation else Uncaught
  {
    var body := new ResponseBody(answer);
    var post := body.PreScan("Rates");
    if post.Err? {
      return Err(Uncaught);
    }
    var all := Union(pre, post.value);
    if exists l :: l in body.lanes && !Parsed(l) {
      return Err(SchemaViolation);
    }
    r := Ok(Ratesheet(ParsedLanes(body.lanes), [], [], all));
  }

  /** `shown` is left for the model, `pre` the records of the lifted `rows`. */
  ghost predicate Scanned(cells: seq<Cell>, names: string -> Label, columns: Option<ColumnMap>, rows: seq<RowId>,
                          pre: seq<ShapeViolatingLane>, shown: seq<Cell>)
  {
    && PortColumns(cells, names, columns)
    && (columns.None? ==> shown == cells && pre == [] && rows == [])
    && (columns.Some? ==> shown == Filter(cells, Survives(cells, columns.value)) && ViolatorsOf(cells, columns.value, pre, rows))
  }

  /** The payload of a readable answer. */
  function PayloadOf(pre: seq<ShapeViolatingLane>, answer: seq<RawLane>): Ratesheet
    requires forall l :: l in Filter(answer, WellShaped) ==> Parsed(l)
  {
    Ratesheet(ParsedLanes(Filter(answer, WellShaped)), [], [], Dedup(pre + Lift(answer, "Rates")))
  }

  /** The scan before the model call, if the workbook's port columns are found. */
  method PreLlmScan(cells: seq<Cell>, names: string -> Label)
    returns (shown: seq<Cell>, pre: seq<ShapeViolatingLane>, ghost columns: Option<ColumnMap>, ghost rows: seq<RowId>)
    ensures Scanned(cells, names, columns, rows, pre, shown)
  {
    var columnMap := IdentifyPortColumns(cells, names);
    columns := columnMap;
    shown, pre, rows := cells, [], [];
    if columnMap.Some? {
      shown, pre, rows := ScanCells(cells, columnMap.value);
    }
  }

  /**
   Stage 2 for a workbook.  `model` is the language model: any function of the cells it is shown, to lanes
   or to an exception.  The answer is a payload with no flags and no rejections; if the workbook's port
   columns were found, the model is shown no cell of a lifted row, and the lifted rows open the list of
   shape violators.
   */
  method ExtractExcel(cells: seq<Cell>, names: string -> Label,
                      model: seq<Cell> -> Result<seq<RawLane>, ExtractFailure>)
    returns (r: Result<Ratesheet, ExtractFailure>, ghost columns: Option<ColumnMap>, ghost rows: seq<RowId>,
             ghost pre: seq<ShapeViolatingLane>, ghost shown: seq<Cell>)
    ensures Scanned(cells, names, columns, rows, pre, shown)
    ensures model(shown).Err? ==> r == Err(model(shown).error)
    ensures model(shown).Ok? ==> (r.Ok? <==> Readable(model(shown).value))
    ensures model(shown).Ok? && r.Err? ==>
              r.error == if forall v :: v in Lift(model(shown).value, "Rates") ==> Admissible(v) then SchemaViolation
                         else Uncaught
    ensures r.Ok? ==>
              && model(shown).Ok?
              && r.value == PayloadOf(pre, model(shown).value)
              && (forall v :: v in r.value.shapeViolating ==> IllShaped(v))
    ensures r.Ok? && (forall row :: row in rows ==> 1 <= |row.0| <= 64) ==> pre <= r.value.shapeViolating
  {
    var seen, lifted;
    seen, lifted, columns, rows := PreLlmScan(cells, names);
    pre, shown := lifted, seen;
    if columns.Some? {
      ScanRowsDistinct(cells, columns.value, pre, rows);
    }
    var response := model(seen);
    if response.Err? {
      return Err(response.error), columns, rows, pre, shown;
    }
    if forall row :: row in rows ==> 1 <= |row.0| <= 64 {
      EarlierScanWins(pre, Lift(response.value, "Rates"));
    }
    r := ReadAnswer(response.value, lifted);
  }

  /** What the first scan reports is ill-shaped and, for ordinary sheet names, one record per row. */
  lemma {:induction false} ScanRowsDistinct(cells: seq<Cell>, columns: ColumnMap, violators: seq<ShapeViolatingLane>,
                                            rows: seq<RowId>)
    requires ViolatorsOf(cells, columns, violators, rows)
    ensures forall v :: v in violators ==> IllShaped(v)
    ensures (forall row :: row in rows ==> 1 <= |row.0| <= 64) ==> NoDup(RowsOf(violators))
  {
    forall i | 0 <= i < |rows|
      ensures IllShaped(violators[i])
      ensures 1 <= |rows[i].0| <= 64 ==> RowOf(violators[i]) == (rows[i].0, rows[i].1)
    {
      assert rows[i] in rows;
      ViolatorIsIllShaped(cells, columns, rows[i].0, rows[i].1);
    }
  }
}
