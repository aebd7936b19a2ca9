/** The ratesheet entities (packages/core/models/ratesheet.py, normalization.py). */
module Lanes {
  import opened Prelude

  /** A finite decimal as written: sign, digits and exponent (1.0 and 1.00 are different values here). */
  datatype Decimal = Decimal(negative: bool, digits: nat, exponent: int) {
    predicate Positive() {
      !negative && digits > 0
    }
  }

  /** A calendar date as the number CCYYMMDD, which orders dates as the calendar does. */
  type Date = int

  datatype PortCode = PortCode(code: string)

  datatype Surcharge = Surcharge(code: string, amountUsd: Decimal, appliesPer: string)

  datatype SourceRow = SourceRow(sheetName: string, rowNumber: int, cellReference: string)

  datatype LaneRecord = LaneRecord(
    laneId: string,
    origin: PortCode,
    destination: PortCode,
    equipmentType: string,
    commodityCode: Option<string>,
    baseRateUsd: Decimal,
    surcharges: seq<Surcharge>,
    transitDays: Option<int>,
    validityStart: Date,
    validityEnd: Date,
    source: SourceRow)

  datatype FlagReason = LowConfidence | NoMajority | AmbiguousField | PortUnresolved | HardRule

  /** `confidence` is in thousandths. */
  datatype FlaggedLane = FlaggedLane(lane: LaneRecord, reason: FlagReason, confidence: Option<nat>)

  datatype RuleId =
    | PortUnknownUnlocode
    | NegativeBaseRate
    | ValidityInThePast
    | ValidityInverted
    | TransitOutOfRange
    | EquipmentUnknown
    | SurchargeBasisUnknown

  datatype RejectionRecord = RejectionRecord(source: SourceRow, laneId: string, rule: RuleId)

  datatype ShapeViolatingLane = ShapeViolatingLane(laneId: string, rawOrigin: string, rawDestination: string,
                                                   source: SourceRow)

  datatype Ratesheet = Ratesheet(lanes: seq<LaneRecord>, flags: seq<FlaggedLane>,
                                 rejected: seq<RejectionRecord>, shapeViolating: seq<ShapeViolatingLane>)

  datatype Vote = Vote(lane: LaneRecord)

  predicate Upper(c: char) {
    'A' <= c <= 'Z'
  }

  predicate UpperOrDigit(c: char) {
    Upper(c) || '0' <= c <= '9'
  }

  /** `^[A-Z]{2}[A-Z0-9]{3}$` as `re.match` reads it: `$` also matches before one trailing newline. */
  predicate UnlocodeShape(code: string) {
    && (|code| == 5 || (|code| == 6 && code[5] == '\n'))
    && Upper(code[0]) && Upper(code[1])
    && UpperOrDigit(code[2]) && UpperOrDigit(code[3]) && UpperOrDigit(code[4])
  }
}
