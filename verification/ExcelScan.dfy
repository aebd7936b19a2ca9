/**
 The shape scans of the Excel extractor (packages/ingest/excel_extractor.py): header detection, the
 deterministic scan before the model call, the scan of the model's answer, and the union of both.
 */
module ExcelScan {
  import opened Prelude
  import opened Lanes
  import opened Ordering

  /** A cell value; None never leaves the cell builder, but the scans allow for it. */
  datatype CellValue = Text(s: string) | Other(shown: string) | Blank

  datatype Cell = Cell(sheet: string, row: nat, col: int, coord: string, value: CellValue)

  /** What a header cell announces, after stripping and lower-casing; the label sets are disjoint. */
  datatype Label = OriginLabel | DestinationLabel | NoLabel

  datatype Slots = Slots(originCol: int, destinationCol: int, headerRow: nat)

  type ColumnMap = map<string, Slots>

  /** `str(value)`. */
  function Shown(v: CellValue): string {
    match v
    case Text(s) => s
    case Other(shown) => shown
    case Blank => "None"
  }

  // ---------------------------------------------------------------- header detection

  function LabelOf(cell: Cell, names: string -> Label): Label {
    if cell.value.Text? then names(cell.value.s) else NoLabel
  }

  /** Column of the first cell of a sheet row that carries label `want`. */
  function FirstLabelled(cells: seq<Cell>, sheet: string, row: nat, names: string -> Label, want: Label): Option<int> {
    if cells == [] then None
    else
      var earlier := FirstLabelled(cells[..|cells| - 1], sheet, row, names, want);
      var cell := cells[|cells| - 1];
      if earlier.Some? then earlier
      else if cell.sheet == sheet && cell.row == row && LabelOf(cell, names) == want then Some(cell.col)
      else None
  }

  /** The port columns a row announces, when it carries both labels. */
  function HeaderAt(cells: seq<Cell>, sheet: string, row: nat, names: string -> Label): Option<Slots> {
    var o := FirstLabelled(cells, sheet, row, names, OriginLabel);
    var d := FirstLabelled(cells, sheet, row, names, DestinationLabel);
    if o.Some? && d.Some? then Some(Slots(o.value, d.value, row)) else None
  }

  /** `slots` describes the topmost header row of the sheet. */
  ghost predicate Identified(cells: seq<Cell>, sheet: string, names: string -> Label, slots: Slots) {
    && HeaderAt(cells, sheet, slots.headerRow, names) == Some(slots)
    && forall r: nat :: r < slots.headerRow ==> HeaderAt(cells, sheet, r, names).None?
  }

  lemma {:induction false} LabelNeedsRow(cells: seq<Cell>, sheet: string, row: nat, names: string -> Label, want: Label)
    requires FirstLabelled(cells, sheet, row, names, want).Some?
    ensures exists i :: 0 <= i < |cells| && cells[i].sheet == sheet && cells[i].row == row
  {
    if FirstLabelled(cells[..|cells| - 1], sheet, row, names, want).Some? {
      LabelNeedsRow(cells[..|cells| - 1], sheet, row, names, want);
    } else {
      assert cells[|cells| - 1].sheet == sheet;
    }
  }

  /** One row: first origin-labelled and first destination-labelled column. */
  method ScanRow(cells: seq<Cell>, sheet: string, row: nat, names: string -> Label) returns (slots: Option<Slots>)
    ensures slots == HeaderAt(cells, sheet, row, names)
  {
    var originCol: Option<int>, destCol: Option<int> := None, None;
    for i := 0 to |cells|
      invariant originCol == FirstLabelled(cells[..i], sheet, row, names, OriginLabel)
      invariant destCol == FirstLabelled(cells[..i], sheet, row, names, DestinationLabel)
    {
      var cell := cells[i];
      assert cells[..i + 1][..i] == cells[..i];
      if cell.sheet == sheet && cell.row == row && cell.value.Text? {
        if originCol.None? && names(cell.value.s) == OriginLabel {
          originCol := Some(cell.col);
        } else if destCol.None? && names(cell.value.s) == DestinationLabel {
          destCol := Some(cell.col);
        }
      }
    }
    assert cells[..|cells|] == cells;
    slots := if originCol.Some? && destCol.Some? then Some(Slots(originCol.value, destCol.value, row)) else None;
  }

  /** One sheet: its rows in ascending order, up to the first header row (rows without cells announce nothing). */
  method IdentifySheet(cells: seq<Cell>, sheet: string, names: string -> Label) returns (identified: Option<Slots>)
    ensures identified.Some? ==> Identified(cells, sheet, names, identified.value)
    ensures identified.None? ==> forall r: nat :: HeaderAt(cells, sheet, r, names).None?
  {
    var last := 0;
    for i := 0 to |cells|
      invariant 0 <= last
      invariant forall j :: 0 <= j < i && cells[j].sheet == sheet ==> cells[j].row <= last
    {
      if cells[i].sheet == sheet && cells[i].row > last {
        last := cells[i].row;
      }
    }
    for row := 0 to last + 1
      invariant forall r: nat :: r < row ==> HeaderAt(cells, sheet, r, names).None?
    {
      var slots := ScanRow(cells, sheet, row, names);
      if slots.Some? {
        return slots;
      }
    }
    forall r: nat ensures HeaderAt(cells, sheet, r, names).None? {
      if HeaderAt(cells, sheet, r, names).Some? {
        LabelNeedsRow(cells, sheet, r, names, OriginLabel);
      }
    }
    identified := None;
  }

  /**
   All or nothing: a column map covers every sheet present, each by its topmost row carrying both
   labels; if any sheet has no such row, or there are no cells, there is no map at all.
   */
  ghost predicate PortColumns(cells: seq<Cell>, names: string -> Label, columns: Option<ColumnMap>) {
    && (columns.Some? ==>
          && cells != []
          && (forall s :: s in columns.value <==> exists i :: 0 <= i < |cells| && cells[i].sheet == s)
          && (forall s :: s in columns.value ==> Identified(cells, s, names, columns.value[s])))
    && (columns.None? ==>
          || cells == []
          || exists i :: 0 <= i < |cells| && forall r: nat :: HeaderAt(cells, cells[i].sheet, r, names).None?)
  }

  method IdentifyPortColumns(cells: seq<Cell>, names: string -> Label) returns (columns: Option<ColumnMap>)
    ensures PortColumns(cells, names, columns)
  {
    if cells == [] {
      return None;
    }
    var columnMap: ColumnMap := map[];
    for n := 0 to |cells|
      invariant forall s :: s in columnMap <==> exists i :: 0 <= i < n && cells[i].sheet == s
      invariant forall s :: s in columnMap ==> Identified(cells, s, names, columnMap[s])
    {
      if cells[n].sheet !in columnMap {
        var identified := IdentifySheet(cells, cells[n].sheet, names);
        if identified.None? {
          return None;
        }
        columnMap := columnMap[cells[n].sheet := identified.value];
      }
    }
    columns := Some(columnMap);
  }

  // ---------------------------------------------------------------- scan before the model call

  datatype Side = Origin | Destination

  /** Which port column, if any, a cell below its sheet's header lies in. */
  function Role(cell: Cell, columns: ColumnMap): Option<Side> {
    if cell.sheet !in columns then None
    else
      var slots := columns[cell.sheet];
      if cell.row <= slots.headerRow then None
      else if cell.col == slots.originCol then Some(Origin)
      else if cell.col == slots.destinationCol then Some(Destination)
      else None
  }

  /** A port cell whose text is not UN/LOCODE-shaped. */
  predicate Bad(cell: Cell, columns: ColumnMap) {
    Role(cell, columns).Some? && !UnlocodeShape(if cell.value.Blank? then "" else Shown(cell.value))
  }

  predicate OnRow(cell: Cell, sheet: string, row: nat) {
    cell.sheet == sheet && cell.row == row
  }

  /** The last ill-shaped cell of one side of a row: later cells overwrite earlier ones. */
  function LastBad(cells: seq<Cell>, columns: ColumnMap, sheet: string, row: nat, side: Side): (c: Option<Cell>)
    ensures c.Some? ==> c.value in cells && OnRow(c.value, sheet, row) && Bad(c.value, columns)
                        && Role(c.value, columns) == Some(side)
    ensures c.None? ==> forall x :: x in cells && OnRow(x, sheet, row) && Bad(x, columns) ==> Role(x, columns) != Some(side)
  {
    if cells == [] then None
    else
      var cell := cells[|cells| - 1];
      assert cells == cells[..|cells| - 1] + [cell];
      if OnRow(cell, sheet, row) && Bad(cell, columns) && Role(cell, columns) == Some(side) then Some(cell)
      else LastBad(cells[..|cells| - 1], columns, sheet, row, side)
  }

  /** A row is lifted when it holds an ill-shaped port cell. */
  predicate Lifted(cells: seq<Cell>, columns: ColumnMap, sheet: string, row: nat) {
    LastBad(cells, columns, sheet, row, Origin).Some? || LastBad(cells, columns, sheet, row, Destination).Some?
  }

  lemma {:induction false} LiftedIff(cells: seq<Cell>, columns: ColumnMap, sheet: string, row: nat)
    ensures Lifted(cells, columns, sheet, row) <==> exists c :: c in cells && OnRow(c, sheet, row) && Bad(c, columns)
  {
    if c :| c in cells && OnRow(c, sheet, row) && Bad(c, columns) {
      var side := Role(c, columns).value;
      assert LastBad(cells, columns, sheet, row, side).Some?;
    }
  }

  /** First cell of a row in a given column. */
  function FirstAt(cells: seq<Cell>, sheet: string, row: nat, col: int): Option<Cell> {
    if cells == [] then None
    else
      var earlier := FirstAt(cells[..|cells| - 1], sheet, row, col);
      var cell := cells[|cells| - 1];
      if earlier.Some? then earlier
      else if OnRow(cell, sheet, row) && cell.col == col then Some(cell)
      else None
  }

  function Take64(s: string): (t: string)
    ensures |t| <= 64 && t <= s
  {
    if |s| <= 64 then s else s[..64]
  }

  /** `(value or " ")[:64]` of the cell's text. */
  function RawCode(cell: Option<Cell>): (code: string)
    ensures 1 <= |code| <= 64
  {
    var value := if cell.Some? then Shown(cell.value.value) else "";
    Take64(if value == "" then " " else value)
  }

  function Digits(n: nat): string {
    if n < 10 then [(n + '0' as int) as char] else Digits(n / 10) + [(n % 10 + '0' as int) as char]
  }

  /** The number a string of decimal digits stands for. */
  function Reading(s: string): (n: nat)
    requires forall i :: 0 <= i < |s| ==> '0' <= s[i] <= '9'
  {
    if s == "" then 0 else 10 * Reading(s[..|s| - 1]) + (s[|s| - 1] as int - '0' as int)
  }

  /** `str` of a natural number: its digits, without a leading zero. */
  lemma {:induction false} DigitsRead(n: nat)
    ensures Digits(n) != "" && (forall i :: 0 <= i < |Digits(n)| ==> '0' <= Digits(n)[i] <= '9') && Reading(Digits(n)) == n
    ensures Digits(n)[0] == '0' ==> n == 0
  {
    if n < 10 {
      assert Digits(n)[..0] == "";
    } else {
      DigitsRead(n / 10);
      assert Digits(n)[..|Digits(n)| - 1] == Digits(n / 10);
    }
  }

  /** What is reported for a lifted row. */
  function Violator(cells: seq<Cell>, columns: ColumnMap, sheet: string, row: nat): (v: ShapeViolatingLane)
    requires sheet in columns && Lifted(cells, columns, sheet, row)
  {
    var badOrigin := LastBad(cells, columns, sheet, row, Origin);
    var badDestination := LastBad(cells, columns, sheet, row, Destination);
    var anchor := if badOrigin.Some? then badOrigin.value else badDestination.value;
    var origin := if badOrigin.Some? then badOrigin else FirstAt(cells, sheet, row, columns[sheet].originCol);
    var destination := if badDestination.Some? then badDestination
                       else FirstAt(cells, sheet, row, columns[sheet].destinationCol);
    ShapeViolatingLane(
      Take64("shape_violator_" + sheet + "_" + Digits(row)), RawCode(origin), RawCode(destination),
      SourceRow(if sheet == "" then "Rates" else Take64(sheet), row,
                if anchor.coord != "" then anchor.coord else "A" + Digits(row)))
  }

  type RowId = (string, nat)

  /** The ill-shaped cells seen so far of one row, by side. */
  datatype RowCells = RowCells(origin: Option<Cell>, destination: Option<Cell>)

  function RowCellsOf(cells: seq<Cell>, columns: ColumnMap, row: RowId): RowCells {
    RowCells(LastBad(cells, columns, row.0, row.1, Origin), LastBad(cells, columns, row.0, row.1, Destination))
  }

  /** The dict of violating rows after some cells. */
  ghost predicate Collected(cells: seq<Cell>, columns: ColumnMap, rows: map<RowId, RowCells>) {
    && (forall row :: row in rows ==> row.0 in columns && rows[row] == RowCellsOf(cells, columns, row))
    && (forall row: RowId :: row in rows <==> Lifted(cells, columns, row.0, row.1))
  }

  /** `keys` lists the keys of a dict, once each. */
  ghost predicate KeysOf(rows: map<RowId, RowCells>, keys: seq<RowId>) {
    NoDup(keys) && forall row :: row in keys <==> row in rows
  }

  lemma {:induction false} LastBadSnoc(cells: seq<Cell>, cell: Cell, columns: ColumnMap, sheet: string, row: nat,
                                       side: Side)
    ensures LastBad(cells + [cell], columns, sheet, row, side) ==
              if OnRow(cell, sheet, row) && Bad(cell, columns) && Role(cell, columns) == Some(side) then Some(cell)
              else LastBad(cells, columns, sheet, row, side)
  {
    assert (cells + [cell])[..|cells|] == cells;
  }

  /** How one more cell changes the collected rows. */
  lemma {:induction false} RowCellsSnoc(cells: seq<Cell>, cell: Cell, columns: ColumnMap, row: RowId)
    ensures !(Bad(cell, columns) && OnRow(cell, row.0, row.1)) ==>
              RowCellsOf(cells + [cell], columns, row) == RowCellsOf(cells, columns, row)
    ensures Bad(cell, columns) && OnRow(cell, row.0, row.1) && Role(cell, columns) == Some(Origin) ==>
              RowCellsOf(cells + [cell], columns, row) == RowCellsOf(cells, columns, row).(origin := Some(cell))
    ensures Bad(cell, columns) && OnRow(cell, row.0, row.1) && Role(cell, columns) == Some(Destination) ==>
              RowCellsOf(cells + [cell], columns, row) == RowCellsOf(cells, columns, row).(destination := Some(cell))
  {
    LastBadSnoc(cells, cell, columns, row.0, row.1, Origin);
    LastBadSnoc(cells, cell, columns, row.0, row.1, Destination);
  }

  /** One pass of the first loop: `slot[role] = cell` in the row's entry, which is created if need be. */
  function Put(rows: map<RowId, RowCells>, cell: Cell, side: Side): map<RowId, RowCells> {
    var row := (cell.sheet, cell.row);
    var slot := if row in rows then rows[row] else RowCells(None, None);
    rows[row := if side == Origin then slot.(origin := Some(cell)) else slot.(destination := Some(cell))]
  }

  lemma {:induction false} CollectedSkip(cells: seq<Cell>, cell: Cell, columns: ColumnMap, rows: map<RowId, RowCells>)
    requires Collected(cells, columns, rows) && !Bad(cell, columns)
    ensures Collected(cells + [cell], columns, rows)
  {
    forall row: RowId ensures RowCellsOf(cells + [cell], columns, row) == RowCellsOf(cells, columns, row) {
      RowCellsSnoc(cells, cell, columns, row);
    }
  }

  lemma {:induction false} CollectedPut(cells: seq<Cell>, cell: Cell, columns: ColumnMap, rows: map<RowId, RowCells>)
    requires Collected(cells, columns, rows) && Bad(cell, columns)
    ensures Collected(cells + [cell], columns, Put(rows, cell, Role(cell, columns).value))
  {
    var row, rows' := (cell.sheet, cell.row), Put(rows, cell, Role(cell, columns).value);
    CollectedHere(cells, cell, columns, rows);
    forall other: RowId | other != row
      ensures RowCellsOf(cells + [cell], columns, other) == RowCellsOf(cells, columns, other)
    {
      RowCellsSnoc(cells, cell, columns, other);
    }
  }

  /** The entry of the cell's own row. */
  lemma {:induction false} CollectedHere(cells: seq<Cell>, cell: Cell, columns: ColumnMap, rows: map<RowId, RowCells>)
    requires Collected(cells, columns, rows) && Bad(cell, columns)
    ensures var row, rows' := (cell.sheet, cell.row), Put(rows, cell, Role(cell, columns).value);
            row in rows' && RowCellsOf(cells + [cell], columns, row) == rows'[row]
            && (rows'[row].origin.Some? || rows'[row].destination.Some?)
  {
    var row := (cell.sheet, cell.row);
    assert row !in rows ==> RowCellsOf(cells, columns, row) == RowCells(None, None);
    RowCellsSnoc(cells, cell, columns, row);
  }

  lemma {:induction false} KeysPut(rows: map<RowId, RowCells>, keys: seq<RowId>, cell: Cell, side: Side)
    requires KeysOf(rows, keys)
    ensures KeysOf(Put(rows, cell, side), NextKeys(rows, keys, cell))
  {
  }

  function NextKeys(rows: map<RowId, RowCells>, keys: seq<RowId>, cell: Cell): seq<RowId> {
    if (cell.sheet, cell.row) in rows then keys else keys + [(cell.sheet, cell.row)]
  }

  /** First loop: collect the violating rows. */
  method CollectViolators(cells: seq<Cell>, columns: ColumnMap) returns (rows: map<RowId, RowCells>, keys: seq<RowId>)
    ensures Collected(cells, columns, rows) && KeysOf(rows, keys)
  {
    rows, keys := map[], [];
    assert Collected([], columns, rows);
    for n := 0 to |cells|
      invariant Collected(cells[..n], columns, rows)
      invariant KeysOf(rows, keys)
    {
      var cell := cells[n];
      assert cells[..n + 1] == cells[..n] + [cell];
      if Bad(cell, columns) {
        var side := Role(cell, columns).value;
        CollectedPut(cells[..n], cell, columns, rows);
        KeysPut(rows, keys, cell, side);
        keys := NextKeys(rows, keys, cell);
        rows := Put(rows, cell, side);
      } else {
        CollectedSkip(cells[..n], cell, columns, rows);
      }
    }
    assert cells[..|cells|] == cells;
  }

  lemma {:induction false} FirstAtSnoc(cells: seq<Cell>, cell: Cell, sheet: string, row: nat, col: int)
    ensures FirstAt(cells + [cell], sheet, row, col) ==
              if FirstAt(cells, sheet, row, col).Some? then FirstAt(cells, sheet, row, col)
              else if OnRow(cell, sheet, row) && cell.col == col then Some(cell) else None
  {
    assert (cells + [cell])[..|cells|] == cells;
  }

  /** The recovery loop: fill in the side of the row that was not ill-shaped. */
  method Recover(cells: seq<Cell>, slots: Slots, row: RowId, bad: RowCells) returns (full: RowCells)
    requires bad.origin.Some? || bad.destination.Some?
    ensures full.origin == if bad.origin.Some? then bad.origin else FirstAt(cells, row.0, row.1, slots.originCol)
    ensures full.destination == if bad.destination.Some? then bad.destination
                                else FirstAt(cells, row.0, row.1, slots.destinationCol)
  {
    full := bad;
    for n := 0 to |cells|
      invariant full.origin == if bad.origin.Some? then bad.origin else FirstAt(cells[..n], row.0, row.1, slots.originCol)
      invariant full.destination == if bad.destination.Some? then bad.destination
                                    else FirstAt(cells[..n], row.0, row.1, slots.destinationCol)
    {
      var cell := cells[n];
      assert cells[..n + 1] == cells[..n] + [cell];
      FirstAtSnoc(cells[..n], cell, row.0, row.1, slots.originCol);
      FirstAtSnoc(cells[..n], cell, row.0, row.1, slots.destinationCol);
      if OnRow(cell, row.0, row.1) {
        if full.origin.None? && cell.col == slots.originCol {
          full := full.(origin := Some(cell));
        } else if full.destination.None? && cell.col == slots.destinationCol {
          full := full.(destination := Some(cell));
        }
      }
    }
    assert cells[..|cells|] == cells;
  }

  /** The body of the second loop: anchor, recovered sides, and the record of the row. */
  method Report(cells: seq<Cell>, columns: ColumnMap, row: RowId, bad: RowCells) returns (violator: ShapeViolatingLane)
    requires row.0 in columns && bad == RowCellsOf(cells, columns, row) && Lifted(cells, columns, row.0, row.1)
    ensures violator == Violator(cells, columns, row.0, row.1)
  {
    var anchor := if bad.origin.Some? then bad.origin.value else bad.destination.value;
    var full := Recover(cells, columns[row.0], row, bad);
    violator := ShapeViolatingLane(
      Take64("shape_violator_" + row.0 + "_" + Digits(row.1)), RawCode(full.origin), RawCode(full.destination),
      SourceRow(if row.0 == "" then "Rates" else Take64(row.0), row.1,
                if anchor.coord != "" then anchor.coord else "A" + Digits(row.1)));
  }

  function Survives(cells: seq<Cell>, columns: ColumnMap): Cell -> bool {
    (c: Cell) => !Lifted(cells, columns, c.sheet, c.row)
  }

  /** Distinct rows in strictly increasing (sheet, row) order. */
  ghost predicate Increasing(rows: seq<RowId>) {
    forall i, j :: 0 <= i < j < |rows| ==> TupleLeq(rows[i].0, rows[i].1, rows[j].0, rows[j].1) && rows[i] != rows[j]
  }

  ghost predicate ViolatorsOf(cells: seq<Cell>, columns: ColumnMap, violators: seq<ShapeViolatingLane>,
                              rows: seq<RowId>) {
    && |violators| == |rows| && Increasing(rows)
    && (forall row: RowId :: row in rows <==> Lifted(cells, columns, row.0, row.1))
    && (forall row :: row in rows ==> row.0 in columns)
    && (forall i :: 0 <= i < |rows| ==> violators[i] == Violator(cells, columns, rows[i].0, rows[i].1))
  }

  /**
   The scan: exactly the cells of rows holding an ill-shaped port cell are removed, the others stay in
   order, and each such row is reported once, in strictly increasing (sheet, row) order.
   */
  method ScanCells(cells: seq<Cell>, columns: ColumnMap)
    returns (surviving: seq<Cell>, violators: seq<ShapeViolatingLane>, ghost rows: seq<RowId>)
    ensures surviving == Filter(cells, Survives(cells, columns))
    ensures ViolatorsOf(cells, columns, violators, rows)
    ensures forall i :: 0 <= i < |rows| ==>
              (rows[i].0 in columns && Describes(cells, columns[rows[i].0], rows[i].0, rows[i].1, violators[i]))
  {
    var violatingRows, keys := CollectViolators(cells, columns);
    var sorted := SortBy(keys, RowKeyOf);
    SortedRows(keys);
    rows := sorted;
    violators := [];
    for n := 0 to |sorted|
      invariant |violators| == n
      invariant forall i :: 0 <= i < n ==> sorted[i].0 in columns && Lifted(cells, columns, sorted[i].0, sorted[i].1)
                                           && violators[i] == Violator(cells, columns, sorted[i].0, sorted[i].1)
    {
      var row := sorted[n];
      assert row in sorted && row in violatingRows;
      var violator := Report(cells, columns, row, violatingRows[row]);
      violators := violators + [violator];
    }
    surviving := Filter(cells, (c: Cell) => (c.sheet, c.row) !in violatingRows);
    SameFilter(cells, (c: Cell) => (c.sheet, c.row) !in violatingRows, Survives(cells, columns));
    forall i | 0 <= i < |rows|
      ensures rows[i].0 in columns && Describes(cells, columns[rows[i].0], rows[i].0, rows[i].1, violators[i])
    {
      ViolatorDescribes(cells, columns, rows[i].0, rows[i].1);
    }
  }

  /** Scanning what a scan left lifts nothing: the scan is idempotent. */
  lemma {:induction false} RescanLiftsNothing(cells: seq<Cell>, columns: ColumnMap, sheet: string, row: nat)
    ensures !Lifted(Filter(cells, Survives(cells, columns)), columns, sheet, row)
  {
    var left := Filter(cells, Survives(cells, columns));
    if Lifted(left, columns, sheet, row) {
      LiftedIff(left, columns, sheet, row);
      var c :| c in left && OnRow(c, sheet, row) && Bad(c, columns);
      LiftedIff(cells, columns, sheet, row);
    }
  }

  lemma {:induction false} RawCodeStaysBad(cell: Cell, columns: ColumnMap)
    requires Bad(cell, columns)
    ensures !UnlocodeShape(RawCode(Some(cell)))
  {
  }

  /**
   What a scan reports always fails the port rule: one of the two raw codes is ill-shaped, even after
   padding and truncation, and the cited cell is an ill-shaped port cell of that very row.
   */
  lemma {:induction false} ViolatorIsIllShaped(cells: seq<Cell>, columns: ColumnMap, sheet: string, row: nat)
    requires sheet in columns && Lifted(cells, columns, sheet, row)
    ensures var v := Violator(cells, columns, sheet, row);
            && (!UnlocodeShape(v.rawOrigin) || !UnlocodeShape(v.rawDestination))
            && exists c :: c in cells && OnRow(c, sheet, row) && Bad(c, columns)
                           && (c.coord != "" ==> v.source.cellReference == c.coord)
    ensures 1 <= |sheet| <= 64 ==> Violator(cells, columns, sheet, row).source.sheetName == sheet
    ensures Violator(cells, columns, sheet, row).source.rowNumber == row
  {
    var badOrigin := LastBad(cells, columns, sheet, row, Origin);
    var badDestination := LastBad(cells, columns, sheet, row, Destination);
    if badOrigin.Some? {
      RawCodeStaysBad(badOrigin.value, columns);
    } else {
      RawCodeStaysBad(badDestination.value, columns);
    }
  }

  // ---------------------------------------------------------------- what is reported, from the cells alone

  predicate Labelled(cell: Cell, sheet: string, row: nat, names: string -> Label, want: Label) {
    cell.sheet == sheet && cell.row == row && cell.value.Text? && names(cell.value.s) == want
  }

  /** The column is that of the first cell of the row that carries the label. */
  ghost predicate FirstColumn(cells: seq<Cell>, sheet: string, row: nat, names: string -> Label, want: Label, col: int) {
    exists i :: 0 <= i < |cells| && Labelled(cells[i], sheet, row, names, want) && cells[i].col == col
                && forall j :: 0 <= j < i ==> !Labelled(cells[j], sheet, row, names, want)
  }

  lemma {:induction false} FirstLabelledIs(cells: seq<Cell>, sheet: string, row: nat, names: string -> Label,
                                           want: Label)
    requires want != NoLabel
    ensures var col := FirstLabelled(cells, sheet, row, names, want);
            if col.Some? then FirstColumn(cells, sheet, row, names, want, col.value)
            else forall i :: 0 <= i < |cells| ==> !Labelled(cells[i], sheet, row, names, want)
  {
    if cells != [] {
      var m := |cells| - 1;
      FirstLabelledIs(cells[..m], sheet, row, names, want);
      var earlier := FirstLabelled(cells[..m], sheet, row, names, want);
      if earlier.Some? {
        var i :| 0 <= i < m && Labelled(cells[..m][i], sheet, row, names, want) && cells[..m][i].col == earlier.value
                 && forall j :: 0 <= j < i ==> !Labelled(cells[..m][j], sheet, row, names, want);
        assert forall j :: 0 <= j < i ==> cells[..m][j] == cells[j];
        assert Labelled(cells[i], sheet, row, names, want);
      } else {
        assert forall j :: 0 <= j < m ==> cells[..m][j] == cells[j];
        assert Labelled(cells[m], sheet, row, names, want) ==> FirstColumn(cells, sheet, row, names, want, cells[m].col);
      }
    }
  }

  /** The columns of a sheet are those its topmost complete row labels first. */
  lemma {:induction false} HeaderIs(cells: seq<Cell>, sheet: string, names: string -> Label, slots: Slots)
    requires Identified(cells, sheet, names, slots)
    ensures FirstColumn(cells, sheet, slots.headerRow, names, OriginLabel, slots.originCol)
    ensures FirstColumn(cells, sheet, slots.headerRow, names, DestinationLabel, slots.destinationCol)
    ensures forall r: nat, i, j :: r < slots.headerRow && 0 <= i < |cells| && 0 <= j < |cells| ==>
              !(Labelled(cells[i], sheet, r, names, OriginLabel) && Labelled(cells[j], sheet, r, names, DestinationLabel))
  {
    FirstLabelledIs(cells, sheet, slots.headerRow, names, OriginLabel);
    FirstLabelledIs(cells, sheet, slots.headerRow, names, DestinationLabel);
    forall r: nat, i, j | r < slots.headerRow && 0 <= i < |cells| && 0 <= j < |cells|
      ensures !(Labelled(cells[i], sheet, r, names, OriginLabel) && Labelled(cells[j], sheet, r, names, DestinationLabel))
    {
      FirstLabelledIs(cells, sheet, r, names, OriginLabel);
      FirstLabelledIs(cells, sheet, r, names, DestinationLabel);
      assert HeaderAt(cells, sheet, r, names).None?;
    }
  }

  /** A cell lifts its row exactly when it stands below the header, in one of the two port columns, with an ill shape. */
  lemma {:induction false} BadIff(cell: Cell, columns: ColumnMap)
    ensures Bad(cell, columns) <==>
              && cell.sheet in columns && cell.row > columns[cell.sheet].headerRow
              && (cell.col == columns[cell.sheet].originCol || cell.col == columns[cell.sheet].destinationCol)
              && IllText(cell)
  {
  }

  predicate IllText(cell: Cell) {
    cell.value.Blank? || !UnlocodeShape(Shown(cell.value))
  }

  predicate InColumn(cell: Cell, sheet: string, row: nat, col: int) {
    cell.sheet == sheet && cell.row == row && cell.col == col
  }

  /** Cell `i` is the last ill-shaped one of its row in the column. */
  predicate LastIllAt(cells: seq<Cell>, i: nat, sheet: string, row: nat, col: int) {
    && i < |cells| && InColumn(cells[i], sheet, row, col) && IllText(cells[i])
    && forall j :: i < j < |cells| && InColumn(cells[j], sheet, row, col) ==> !IllText(cells[j])
  }

  /** Cell `i` is the first of its row in the column. */
  predicate FirstInColumn(cells: seq<Cell>, i: nat, sheet: string, row: nat, col: int) {
    && i < |cells| && InColumn(cells[i], sheet, row, col)
    && forall j :: 0 <= j < i ==> !InColumn(cells[j], sheet, row, col)
  }

  ghost predicate HasIll(cells: seq<Cell>, sheet: string, row: nat, col: int) {
    exists i :: 0 <= i < |cells| && InColumn(cells[i], sheet, row, col) && IllText(cells[i])
  }

  /** The text of a cell as a raw code: a space for none, at most 64 characters. */
  predicate CodeOf(cell: Cell, code: string) {
    var text := Shown(cell.value);
    if text == "" then code == " " else code == text[..if |text| <= 64 then |text| else 64]
  }

  /** The raw code of one side: of its last ill-shaped cell if there is one, else of its first cell, else a space. */
  ghost predicate SideCode(cells: seq<Cell>, sheet: string, row: nat, col: int, ill: bool, code: string) {
    if ill && HasIll(cells, sheet, row, col) then
      exists i: nat :: LastIllAt(cells, i, sheet, row, col) && CodeOf(cells[i], code)
    else if exists i :: 0 <= i < |cells| && InColumn(cells[i], sheet, row, col) then
      exists i: nat :: FirstInColumn(cells, i, sheet, row, col) && CodeOf(cells[i], code)
    else code == " "
  }

  /** The reference cites the cell, by its coordinate if it has one, else by its row. */
  predicate CitesCell(cell: Cell, reference: string) {
    reference == if cell.coord != "" then cell.coord else "A" + Digits(cell.row)
  }

  /**
   What a record says about its row: each raw code is that of its own side, and the anchor is the ill-shaped
   origin cell if there is one, else the ill-shaped destination cell.  (Were both labels found in one column,
   it would be the origin's.)
   */
  ghost predicate Describes(cells: seq<Cell>, slots: Slots, sheet: string, row: nat, v: ShapeViolatingLane) {
    && SideCode(cells, sheet, row, slots.originCol, true, v.rawOrigin)
    && SideCode(cells, sheet, row, slots.destinationCol, slots.destinationCol != slots.originCol, v.rawDestination)
    && (exists i: nat :: LastIllAt(cells, i, sheet, row,
                                   if HasIll(cells, sheet, row, slots.originCol) then slots.originCol else slots.destinationCol)
                         && CitesCell(cells[i], v.source.cellReference))
    && v.laneId == Take64("shape_violator_" + sheet + "_" + Digits(row))
    && v.source.sheetName == (if sheet == "" then "Rates" else Take64(sheet)) && v.source.rowNumber == row
  }

  lemma {:induction false} LastBadStep(cells: seq<Cell>, columns: ColumnMap, sheet: string, row: nat, side: Side, col: int)
    requires cells != [] && sheet in columns && row > columns[sheet].headerRow
    requires forall c :: OnRow(c, sheet, row) ==> (Role(c, columns) == Some(side) <==> c.col == col)
    ensures var cell := cells[|cells| - 1];
            LastBad(cells, columns, sheet, row, side) ==
              if InColumn(cell, sheet, row, col) && IllText(cell) then Some(cell)
              else LastBad(cells[..|cells| - 1], columns, sheet, row, side)
  {
    BadIff(cells[|cells| - 1], columns);
  }

  /** The last ill-shaped cell of a side, by its position. */
  lemma {:induction false} LastBadAt(cells: seq<Cell>, columns: ColumnMap, sheet: string, row: nat, side: Side,
                                     col: int)
    requires sheet in columns && row > columns[sheet].headerRow
    requires forall c :: OnRow(c, sheet, row) ==> (Role(c, columns) == Some(side) <==> c.col == col)
    ensures var c := LastBad(cells, columns, sheet, row, side);
            && (c.Some? <==> HasIll(cells, sheet, row, col))
            && (c.Some? ==> exists i: nat :: LastIllAt(cells, i, sheet, row, col) && cells[i] == c.value)
  {
    if cells != [] {
      var m := |cells| - 1;
      LastBadAt(cells[..m], columns, sheet, row, side, col);
      LastBadStep(cells, columns, sheet, row, side, col);
      assert forall j :: 0 <= j < m ==> cells[..m][j] == cells[j];
      var c := LastBad(cells, columns, sheet, row, side);
      if InColumn(cells[m], sheet, row, col) && IllText(cells[m]) {
        assert LastIllAt(cells, m, sheet, row, col);
      } else if c.Some? {
        var i: nat :| LastIllAt(cells[..m], i, sheet, row, col) && cells[..m][i] == c.value;
        assert LastIllAt(cells, i, sheet, row, col);
      }
    }
  }

  lemma {:induction false} FirstAtIs(cells: seq<Cell>, sheet: string, row: nat, col: int)
    ensures var c := FirstAt(cells, sheet, row, col);
            && (c.Some? <==> exists i :: 0 <= i < |cells| && InColumn(cells[i], sheet, row, col))
            && (c.Some? ==> exists i: nat :: FirstInColumn(cells, i, sheet, row, col) && cells[i] == c.value)
  {
    if cells != [] {
      var m := |cells| - 1;
      FirstAtIs(cells[..m], sheet, row, col);
      assert forall j :: 0 <= j < m ==> cells[..m][j] == cells[j];
      var earlier := FirstAt(cells[..m], sheet, row, col);
      if earlier.Some? {
        var i: nat :| FirstInColumn(cells[..m], i, sheet, row, col) && cells[..m][i] == earlier.value;
        assert FirstInColumn(cells, i, sheet, row, col);
      } else if InColumn(cells[m], sheet, row, col) {
        assert FirstInColumn(cells, m, sheet, row, col);
      }
    }
  }

  lemma {:induction false} CodeIs(cell: Cell)
    ensures CodeOf(cell, RawCode(Some(cell))) && RawCode(None) == " "
  {
  }

  lemma {:induction false} SideCodeIs(cells: seq<Cell>, columns: ColumnMap, sheet: string, row: nat, side: Side,
                                      col: int, ill: bool)
    requires sheet in columns && row > columns[sheet].headerRow
    requires if ill then forall c :: OnRow(c, sheet, row) ==> (Role(c, columns) == Some(side) <==> c.col == col)
             else LastBad(cells, columns, sheet, row, side).None?
    ensures var bad := LastBad(cells, columns, sheet, row, side);
            SideCode(cells, sheet, row, col, ill, RawCode(if bad.Some? then bad else FirstAt(cells, sheet, row, col)))
  {
    var bad := LastBad(cells, columns, sheet, row, side);
    if ill {
      LastBadAt(cells, columns, sheet, row, side, col);
    }
    FirstAtIs(cells, sheet, row, col);
    var cell := if bad.Some? then bad else FirstAt(cells, sheet, row, col);
    if cell.Some? {
      CodeIs(cell.value);
    }
  }

  /** Every record describes its row. */
  lemma {:induction false} ViolatorDescribes(cells: seq<Cell>, columns: ColumnMap, sheet: string, row: nat)
    requires sheet in columns && Lifted(cells, columns, sheet, row)
    ensures Describes(cells, columns[sheet], sheet, row, Violator(cells, columns, sheet, row))
  {
    var slots := columns[sheet];
    LiftedIff(cells, columns, sheet, row);
    var other := slots.destinationCol != slots.originCol;
    SideCodeIs(cells, columns, sheet, row, Origin, slots.originCol, true);
    SideCodeIs(cells, columns, sheet, row, Destination, slots.destinationCol, other);
    LastBadAt(cells, columns, sheet, row, Origin, slots.originCol);
    if other {
      LastBadAt(cells, columns, sheet, row, Destination, slots.destinationCol);
    }
  }
}
