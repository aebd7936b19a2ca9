/** What Stage 2 may commit: the payload that a reader makes of a staged file. */
module StageTwo {
  import opened Prelude
  import opened Lanes
  import opened Ordering
  import opened ExcelScan
  import opened ExcelExtract
  import Edifact

  /** The staged file, with the models that will read it. */
  datatype Upload =
    | Oversized
    | Workbook(cells: seq<Cell>, names: string -> Label, model: seq<Cell> -> Result<seq<RawLane>, ExtractFailure>)
    | Interchange(segments: seq<Edifact.Segment>, read: Edifact.LinReader, flash: Edifact.Flash)
    | Unreadable

  /** The payload is what the file's reader makes of it. */
  ghost predicate ReadFrom(upload: Upload, payload: Ratesheet) {
    match upload
    case Workbook(_, _, _) => exists columns, rows, pre, shown :: ReadAs(upload, payload, columns, rows, pre, shown)
    case Interchange(segments, read, flash) =>
      exists clusters :: Edifact.Clustered(Edifact.Body(segments), clusters)
                         && payload == Ratesheet(Edifact.LanesOf(clusters, segments, read, flash), [], [], [])
    case _ => false
  }

  /** The workbook was scanned, the model asked about the rest, and its answer read. */
  ghost predicate ReadAs(upload: Upload, payload: Ratesheet, columns: Option<ColumnMap>, rows: seq<RowId>,
                         pre: seq<ShapeViolatingLane>, shown: seq<Cell>)
    requires upload.Workbook?
  {
    && Scanned(upload.cells, upload.names, columns, rows, pre, shown)
    && upload.model(shown).Ok? && Readable(upload.model(shown).value)
    && payload == PayloadOf(pre, upload.model(shown).value)
  }

  /** A payload starts without flags and rejections, and reports only ill-shaped rows. */
  ghost predicate Extraction(sheet: Ratesheet) {
    && sheet.flags == [] && sheet.rejected == []
    && forall v :: v in sheet.shapeViolating ==> IllShaped(v)
  }

  lemma {:induction false} ReadIsExtraction(upload: Upload, payload: Ratesheet)
    requires ReadFrom(upload, payload)
    ensures Extraction(payload)
  {
    if upload.Workbook? {
      var columns, rows, pre, shown :| ReadAs(upload, payload, columns, rows, pre, shown);
      if columns.Some? {
        ScanRowsDistinct(upload.cells, columns.value, pre, rows);
      }
    }
  }

  /** The lanes of an interchange, by the positions of the clusters they come from. */
  lemma {:induction false} InterchangeLanes(upload: Upload, payload: Ratesheet)
    requires upload.Interchange? && ReadFrom(upload, payload)
    ensures exists clusters, at :: Edifact.Clustered(Edifact.Body(upload.segments), clusters)
              && Edifact.LanesAt(clusters, upload.segments, upload.read, upload.flash, at, payload.lanes)
  {
    var clusters :| Edifact.Clustered(Edifact.Body(upload.segments), clusters)
                    && payload == Ratesheet(Edifact.LanesOf(clusters, upload.segments, upload.read, upload.flash), [], [], []);
    var at := Edifact.LanesOfAt(clusters, upload.segments, upload.read, upload.flash);
  }

  // ---------------------------------------------------------------- the outcome, exceptions included

  /** How a body ends when it raises: with its failure transaction committed, or without a trace. */
  datatype Raised = Recorded | Unrecorded

  /** ExtractionError is recorded, any other exception is not. */
  function KindOf(error: ExtractFailure): Raised {
    if error.Uncaught? then Unrecorded else Recorded
  }

  function AnswerOutcome(pre: seq<ShapeViolatingLane>, response: Result<seq<RawLane>, ExtractFailure>):
    Result<Ratesheet, Raised>
  {
    if response.Err? then Err(KindOf(response.error))
    else if exists v :: v in Lift(response.value, "Rates") && !Admissible(v) then Err(Unrecorded)
    else if exists l :: l in Filter(response.value, WellShaped) && !Parsed(l) then Err(Recorded)
    else Ok(PayloadOf(pre, response.value))
  }

  ghost function SegmentsOutcome(clusters: seq<seq<Edifact.Segment>>, upload: Upload): Result<Ratesheet, Raised>
    requires upload.Interchange? && forall c :: c in clusters ==> Edifact.OneLin(c)
  {
    var lanes := Edifact.LanesOf(clusters, upload.segments, upload.read, upload.flash);
    if Edifact.SomeInvalid(clusters, upload.read) then Err(Unrecorded)
    else if lanes == [] then Err(Recorded)
    else Ok(Ratesheet(lanes, [], [], []))
  }

  /** What the extraction of a staged file ends in. */
  ghost predicate EndsIn(upload: Upload, r: Result<Ratesheet, Raised>) {
    match upload
    case Oversized => r == Err(Recorded)
    case Unreadable => r == Err(Unrecorded)
    case Workbook(cells, names, model) =>
      exists columns, rows, pre, shown ::
        Scanned(cells, names, columns, rows, pre, shown) && r == AnswerOutcome(pre, model(shown))
    case Interchange(segments, _, _) =>
      exists clusters :: Edifact.Clustered(Edifact.Body(segments), clusters) && r == SegmentsOutcome(clusters, upload)
  }

  /** A payload comes out exactly of a file it can be read from, but for an interchange without lanes. */
  lemma {:induction false} EndsInPayload(upload: Upload, payload: Ratesheet)
    ensures EndsIn(upload, Ok(payload)) ==> ReadFrom(upload, payload)
  {
    if EndsIn(upload, Ok(payload)) && upload.Workbook? {
      var columns, rows, pre, shown :| Scanned(upload.cells, upload.names, columns, rows, pre, shown)
                                       && Ok(payload) == AnswerOutcome(pre, upload.model(shown));
      assert ReadAs(upload, payload, columns, rows, pre, shown);
    }
  }

  // ---------------------------------------------------------------- there is only one

  lemma {:induction false} OneHeader(cells: seq<Cell>, sheet: string, names: string -> Label, a: Slots, b: Slots)
    requires Identified(cells, sheet, names, a) && Identified(cells, sheet, names, b)
    ensures a == b
  {
  }

  lemma {:induction false} OneMap(cells: seq<Cell>, names: string -> Label, a: Option<ColumnMap>, b: Option<ColumnMap>)
    requires PortColumns(cells, names, a) && PortColumns(cells, names, b)
    ensures a == b
  {
    if a.Some? && b.Some? {
      assert a.value.Keys == b.value.Keys;
      forall s | s in a.value ensures a.value[s] == b.value[s] {
        OneHeader(cells, s, names, a.value[s], b.value[s]);
      }
      assert a.value == b.value;
    } else if a.Some? {
      MapExcludesNone(cells, names, a.value, b);
    } else if b.Some? {
      MapExcludesNone(cells, names, b.value, a);
    }
  }

  lemma {:induction false} HeaderIsThere(cells: seq<Cell>, sheet: string, names: string -> Label, slots: Slots)
    requires Identified(cells, sheet, names, slots)
    ensures !(forall r: nat :: HeaderAt(cells, sheet, r, names).None?)
  {
    assert HeaderAt(cells, sheet, slots.headerRow, names).Some?;
  }

  lemma {:induction false} MapExcludesNone(cells: seq<Cell>, names: string -> Label, a: ColumnMap, b: Option<ColumnMap>)
    requires PortColumns(cells, names, Some(a)) && PortColumns(cells, names, b)
    ensures b.Some?
  {
    if b.None? {
      var i :| 0 <= i < |cells| && forall r: nat :: HeaderAt(cells, cells[i].sheet, r, names).None?;
      HeaderIsThere(cells, cells[i].sheet, names, a[cells[i].sheet]);
    }
  }

  /** A set of rows is listed in one increasing order. */
  lemma {:induction false} OneOrder(a: seq<RowId>, b: seq<RowId>)
    requires Increasing(a) && Increasing(b) && forall row: RowId :: row in a <==> row in b
    ensures a == b
  {
    if a == [] || b == [] {
      BothEmpty(a, b);
    } else {
      SameFirst(a, b);
      forall row: RowId ensures row in a[1..] <==> row in b[1..] {
        InTail(a, row);
        InTail(b, row);
      }
      OneOrder(a[1..], b[1..]);
    }
  }

  lemma {:induction false} BothEmpty(a: seq<RowId>, b: seq<RowId>)
    requires (a == [] || b == []) && forall row: RowId :: row in a <==> row in b
    ensures a == b
  {
    if a != [] {
      FirstIsShared(a, b);
    }
    if b != [] {
      FirstIsShared(b, a);
    }
  }

  lemma {:induction false} FirstIsShared(a: seq<RowId>, b: seq<RowId>)
    requires a != [] && forall row: RowId :: row in a <==> row in b
    ensures b != []
  {
    assert a[0] in a;
  }

  lemma {:induction false} InTail(a: seq<RowId>, row: RowId)
    requires Increasing(a) && a != []
    ensures row in a[1..] <==> row in a && row != a[0]
  {
    assert a == [a[0]] + a[1..];
  }

  lemma {:induction false} SameFirst(a: seq<RowId>, b: seq<RowId>)
    requires Increasing(a) && Increasing(b) && a != [] && b != [] && forall row: RowId :: row in a <==> row in b
    ensures a[0] == b[0]
  {
    assert a[0] in b && b[0] in a;
    var i :| 0 <= i < |b| && b[i] == a[0];
    var j :| 0 <= j < |a| && a[j] == b[0];
    if i > 0 && j > 0 {
      assert TupleLeq(b[0].0, b[0].1, b[i].0, b[i].1) && TupleLeq(a[0].0, a[0].1, a[j].0, a[j].1);
      TupleAntisymmetric(a[0], b[0]);
    }
  }

  lemma {:induction false} TupleAntisymmetric(p: RowId, q: RowId)
    requires TupleLeq(p.0, p.1, q.0, q.1) && TupleLeq(q.0, q.1, p.0, p.1)
    ensures p == q
  {
    if p.0 != q.0 {
      Antisymmetric(Chars(p.0), Chars(q.0));
      CharsInjective(p.0, q.0);
    }
  }

  lemma {:induction false} OneScan(upload: Upload, c: Option<ColumnMap>, r: seq<RowId>, p: seq<ShapeViolatingLane>,
                                   s: seq<Cell>, c': Option<ColumnMap>, r': seq<RowId>, p': seq<ShapeViolatingLane>,
                                   s': seq<Cell>)
    requires upload.Workbook?
    requires Scanned(upload.cells, upload.names, c, r, p, s) && Scanned(upload.cells, upload.names, c', r', p', s')
    ensures c == c' && r == r' && p == p' && s == s'
  {
    OneMap(upload.cells, upload.names, c, c');
    if c.Some? {
      OneOrder(r, r');
    }
  }

  /** The staged file and the models decide how its extraction ends. */
  lemma {:induction false} OneEnd(upload: Upload, a: Result<Ratesheet, Raised>, b: Result<Ratesheet, Raised>)
    requires EndsIn(upload, a) && EndsIn(upload, b)
    ensures a == b
  {
    if upload.Workbook? {
      var c, r, p, s :| Scanned(upload.cells, upload.names, c, r, p, s) && a == AnswerOutcome(p, upload.model(s));
      var c', r', p', s' :| Scanned(upload.cells, upload.names, c', r', p', s') && b == AnswerOutcome(p', upload.model(s'));
      OneScan(upload, c, r, p, s, c', r', p', s');
    } else if upload.Interchange? {
      var body := Edifact.Body(upload.segments);
      var x :| Edifact.Clustered(body, x) && a == SegmentsOutcome(x, upload);
      var y :| Edifact.Clustered(body, y) && b == SegmentsOutcome(y, upload);
      Edifact.OneClustering(body, x, y);
    }
  }
}
