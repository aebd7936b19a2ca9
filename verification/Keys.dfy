/**
 The two equality keys under which field values are counted: the canonical key of consensus.py and the
 plain key of conformal.py.  A Python `repr` is modelled as an injective encoding into code points.
 */
module Keys {
  import opened Prelude
  import opened Lanes
  import opened Ordering

  /** A string key. */
  type Key = seq<int>

  /** The Python values the ten voted fields can hold. */
  datatype Value =
    | Null
    | Int(i: int)
    | Text(s: string)
    | Dec(d: Decimal)
    | Day(date: Date)
    | List(items: seq<Value>)
    | Dict(entries: seq<(string, Value)>)
    | Model(dump: Value)   // a Pydantic model; `dump` is its model_dump(mode="json")

  /** repr of a list of strings: injective, whatever the strings contain. */
  function Quote(items: seq<Key>): Key {
    if items == [] then [] else [|items[0]|] + items[0] + Quote(items[1..])
  }

  lemma {:induction false} QuoteInjective(a: seq<Key>, b: seq<Key>)
    requires Quote(a) == Quote(b)
    ensures a == b
  {
    if a != [] && b != [] {
      var n, m := |a[0]|, |b[0]|;
      assert Quote(a)[0] == n && Quote(b)[0] == m;
      assert Quote(a)[1..n + 1] == a[0] && Quote(b)[1..n + 1] == b[0];
      assert Quote(a)[n + 1..] == Quote(a[1..]) && Quote(b)[n + 1..] == Quote(b[1..]);
      QuoteInjective(a[1..], b[1..]);
      assert a == [a[0]] + a[1..] && b == [b[0]] + b[1..];
    }
  }

  /** `_canonical`: lists and dicts are compared as sorted, so as multisets of canonical forms. */
  function Canonical(v: Value): Key
    decreases v
  {
    match v
    case Null => [0]
    case Int(i) => [1, i]
    case Text(s) => [2] + Chars(s)
    case Dec(d) => [3, if d.negative then 1 else 0, d.digits, d.exponent]
    case Day(date) => [4, date]
    case List(items) =>
      [5] + Quote(Sort(seq(|items|, i requires 0 <= i < |items| => Canonical(items[i]))))
    case Dict(entries) =>
      [6] + Quote(Sort(seq(|entries|, i requires 0 <= i < |entries| =>
                             Quote([Chars(entries[i].0), Canonical(entries[i].1)]))))
    case Model(dump) => [7] + Canonical(dump)
  }

  function Canonicals(items: seq<Value>): (ks: seq<Key>)
    ensures |ks| == |items| && forall i :: 0 <= i < |items| ==> ks[i] == Canonical(items[i])
  {
    seq(|items|, i requires 0 <= i < |items| => Canonical(items[i]))
  }

  function Pairs(entries: seq<(string, Value)>): (ks: seq<Key>)
    ensures |ks| == |entries|
    ensures forall i :: 0 <= i < |entries| ==> ks[i] == Quote([Chars(entries[i].0), Canonical(entries[i].1)])
  {
    seq(|entries|, i requires 0 <= i < |entries| => Quote([Chars(entries[i].0), Canonical(entries[i].1)]))
  }

  lemma {:induction false} ListKey(a: seq<Value>, b: seq<Value>)
    ensures Canonical(List(a)) == Canonical(List(b)) <==> multiset(Canonicals(a)) == multiset(Canonicals(b))
  {
    assert Canonical(List(a)) == [5] + Quote(Sort(Canonicals(a))) by {
      assert seq(|a|, i requires 0 <= i < |a| => Canonical(a[i])) == Canonicals(a);
    }
    assert Canonical(List(b)) == [5] + Quote(Sort(Canonicals(b))) by {
      assert seq(|b|, i requires 0 <= i < |b| => Canonical(b[i])) == Canonicals(b);
    }
    SortForgetsOrder(Canonicals(a), Canonicals(b));
    if Canonical(List(a)) == Canonical(List(b)) {
      assert Quote(Sort(Canonicals(a))) == Canonical(List(a))[1..];
      assert Quote(Sort(Canonicals(b))) == Canonical(List(b))[1..];
      QuoteInjective(Sort(Canonicals(a)), Sort(Canonicals(b)));
    }
  }

  /** Two dumps with the same distinct field names agree field by field when their keys agree. */
  lemma {:induction false} DictKey(a: seq<(string, Value)>, b: seq<(string, Value)>)
    requires |a| == |b| && forall i :: 0 <= i < |a| ==> a[i].0 == b[i].0
    requires forall i, j :: 0 <= i < j < |a| ==> a[i].0 != a[j].0
    requires Canonical(Dict(a)) == Canonical(Dict(b))
    ensures forall i :: 0 <= i < |a| ==> Canonical(a[i].1) == Canonical(b[i].1)
  {
    assert Canonical(Dict(a))[1..] == Quote(Sort(Pairs(a)));
    assert Canonical(Dict(b))[1..] == Quote(Sort(Pairs(b)));
    QuoteInjective(Sort(Pairs(a)), Sort(Pairs(b)));
    SortForgetsOrder(Pairs(a), Pairs(b));
    forall i | 0 <= i < |a| ensures Canonical(a[i].1) == Canonical(b[i].1) {
      assert Pairs(a)[i] in multiset(Pairs(b));
      var j :| 0 <= j < |b| && Pairs(b)[j] == Pairs(a)[i];
      QuoteInjective([Chars(a[i].0), Canonical(a[i].1)], [Chars(b[j].0), Canonical(b[j].1)]);
      assert [Chars(a[i].0), Canonical(a[i].1)][0] == [Chars(b[j].0), Canonical(b[j].1)][0];
      assert [Chars(a[i].0), Canonical(a[i].1)][1] == [Chars(b[j].0), Canonical(b[j].1)][1];
      CharsInjective(a[i].0, b[j].0);
    }
  }

  /** Atoms: None, int, str, Decimal and date. */
  predicate Atom(v: Value) {
    v.Null? || v.Int? || v.Text? || v.Dec? || v.Day?
  }

  lemma {:induction false} AtomKey(v: Value, w: Value)
    requires Atom(v) && Atom(w) && Canonical(v) == Canonical(w)
    ensures v == w
  {
    var k := Canonical(v);
    assert k[0] == Canonical(w)[0];
    if v.Text? && w.Text? {
      assert Chars(v.s) == k[1..] && Chars(w.s) == k[1..];
      CharsInjective(v.s, w.s);
    } else if v.Dec? && w.Dec? {
      assert k[1] == (if w.d.negative then 1 else 0) && k[2] == w.d.digits && k[3] == w.d.exponent;
    } else if !v.Null? && !w.Null? {
      assert k[1] == Canonical(w)[1];
    }
  }

  /** A model whose dump is a flat dict: ports, surcharges, source rows. */
  lemma {:induction false} FlatModelKey(a: seq<(string, Value)>, b: seq<(string, Value)>)
    requires |a| == |b| && forall i :: 0 <= i < |a| ==> a[i].0 == b[i].0 && Atom(a[i].1) && Atom(b[i].1)
    requires forall i, j :: 0 <= i < j < |a| ==> a[i].0 != a[j].0
    requires Canonical(Model(Dict(a))) == Canonical(Model(Dict(b)))
    ensures a == b
  {
    assert Canonical(Model(Dict(a)))[1..] == Canonical(Dict(a));
    assert Canonical(Model(Dict(b)))[1..] == Canonical(Dict(b));
    DictKey(a, b);
    forall i | 0 <= i < |a| ensures a[i] == b[i] {
      AtomKey(a[i].1, b[i].1);
    }
  }

  datatype Field =
    | OriginPort | DestinationPort | EquipmentType | CommodityCode | BaseRateUsd
    | TransitTimeDays | ValidityStart | ValidityEnd | Surcharges | SourceRowReference

  const VOTED_FIELDS: seq<Field> :=
    [OriginPort, DestinationPort, EquipmentType, CommodityCode, BaseRateUsd,
     TransitTimeDays, ValidityStart, ValidityEnd, Surcharges, SourceRowReference]

  /** Where a field stands in the voting order; every field is voted on. */
  function Position(f: Field): (n: nat)
    ensures n < |VOTED_FIELDS| && VOTED_FIELDS[n] == f
  {
    match f
    case OriginPort => 0 case DestinationPort => 1 case EquipmentType => 2 case CommodityCode => 3
    case BaseRateUsd => 4 case TransitTimeDays => 5 case ValidityStart => 6 case ValidityEnd => 7
    case Surcharges => 8 case SourceRowReference => 9
  }

  function PortFields(p: PortCode): seq<(string, Value)> {
    [("code", Text(p.code))]
  }

  function SurchargeFields(s: Surcharge): seq<(string, Value)> {
    [("code", Text(s.code)), ("amount_usd", Dec(s.amountUsd)), ("applies_per", Text(s.appliesPer))]
  }

  function SourceFields(r: SourceRow): seq<(string, Value)> {
    [("sheet_name", Text(r.sheetName)), ("row_number", Int(r.rowNumber)), ("cell_reference", Text(r.cellReference))]
  }

  function SurchargeValues(ss: seq<Surcharge>): (vs: seq<Value>)
    ensures |vs| == |ss| && forall i :: 0 <= i < |ss| ==> vs[i] == Model(Dict(SurchargeFields(ss[i])))
  {
    seq(|ss|, i requires 0 <= i < |ss| => Model(Dict(SurchargeFields(ss[i]))))
  }

  /** `getattr(vote.lane, field)`. */
  function FieldValue(lane: LaneRecord, f: Field): Value {
    match f
    case OriginPort => Model(Dict(PortFields(lane.origin)))
    case DestinationPort => Model(Dict(PortFields(lane.destination)))
    case EquipmentType => Text(lane.equipmentType)
    case CommodityCode => if lane.commodityCode.Some? then Text(lane.commodityCode.value) else Null
    case BaseRateUsd => Dec(lane.baseRateUsd)
    case TransitTimeDays => if lane.transitDays.Some? then Int(lane.transitDays.value) else Null
    case ValidityStart => Day(lane.validityStart)
    case ValidityEnd => Day(lane.validityEnd)
    case Surcharges => List(SurchargeValues(lane.surcharges))
    case SourceRowReference => Model(Dict(SourceFields(lane.source)))
  }

  function FieldKey(lane: LaneRecord, f: Field): Key {
    Canonical(FieldValue(lane, f))
  }

  /** Off the surcharges field the canonical key tells any two values apart. */
  lemma {:induction false} CanonicalIsExact(a: LaneRecord, b: LaneRecord, f: Field)
    requires f != Surcharges && FieldKey(a, f) == FieldKey(b, f)
    ensures FieldValue(a, f) == FieldValue(b, f)
  {
    match f
    case OriginPort => FlatModelKey(PortFields(a.origin), PortFields(b.origin));
    case DestinationPort => FlatModelKey(PortFields(a.destination), PortFields(b.destination));
    case SourceRowReference => FlatModelKey(SourceFields(a.source), SourceFields(b.source));
    case _ => AtomKey(FieldValue(a, f), FieldValue(b, f));
  }

  lemma {:induction false} SurchargeKey(s: Surcharge, t: Surcharge)
    ensures Canonical(Model(Dict(SurchargeFields(s)))) == Canonical(Model(Dict(SurchargeFields(t)))) <==> s == t
  {
    if Canonical(Model(Dict(SurchargeFields(s)))) == Canonical(Model(Dict(SurchargeFields(t)))) {
      FlatModelKey(SurchargeFields(s), SurchargeFields(t));
      assert SurchargeFields(s)[0] == SurchargeFields(t)[0];
      assert SurchargeFields(s)[1] == SurchargeFields(t)[1];
      assert SurchargeFields(s)[2] == SurchargeFields(t)[2];
    }
  }

  lemma {:induction false} Unfold<T>(s: seq<T>)
    requires s != []
    ensures multiset(s) == multiset{s[0]} + multiset(s[1..])
  {
    assert s == [s[0]] + s[1..];
  }

  lemma {:induction false} SurchargeMultisets(ss: seq<Surcharge>, s: Surcharge)
    ensures multiset(Canonicals(SurchargeValues(ss)))[Canonical(Model(Dict(SurchargeFields(s))))] == multiset(ss)[s]
  {
    if ss != [] {
      SurchargeMultisets(ss[1..], s);
      SurchargeKey(ss[0], s);
      Unfold(ss);
      var ks, rest := Canonicals(SurchargeValues(ss)), Canonicals(SurchargeValues(ss[1..]));
      assert ks[1..] == rest;
      Unfold(ks);
    }
  }

  /** Two surcharge lists have one canonical key exactly when they hold the same surcharges. */
  lemma {:induction false} SurchargesKey(ss: seq<Surcharge>, ts: seq<Surcharge>)
    ensures Canonical(List(SurchargeValues(ss))) == Canonical(List(SurchargeValues(ts))) <==> multiset(ss) == multiset(ts)
  {
    var a, b := Canonicals(SurchargeValues(ss)), Canonicals(SurchargeValues(ts));
    ListKey(SurchargeValues(ss), SurchargeValues(ts));
    if multiset(a) == multiset(b) {
      forall s ensures multiset(ss)[s] == multiset(ts)[s] {
        SurchargeMultisets(ss, s);
        SurchargeMultisets(ts, s);
      }
    }
    if multiset(ss) == multiset(ts) {
      forall k ensures multiset(a)[k] == multiset(b)[k] {
        KeyMultiset(ss, ts, k);
      }
    }
  }

  lemma {:induction false} KeyMultiset(ss: seq<Surcharge>, ts: seq<Surcharge>, k: Key)
    requires multiset(ss) == multiset(ts)
    ensures multiset(Canonicals(SurchargeValues(ss)))[k] == multiset(Canonicals(SurchargeValues(ts)))[k]
  {
    var a, b := Canonicals(SurchargeValues(ss)), Canonicals(SurchargeValues(ts));
    if k in a {
      var i :| 0 <= i < |ss| && a[i] == k;
      SurchargeMultisets(ss, ss[i]);
      SurchargeMultisets(ts, ss[i]);
    } else if k in b {
      var i :| 0 <= i < |ts| && b[i] == k;
      SurchargeMultisets(ss, ts[i]);
      SurchargeMultisets(ts, ts[i]);
    }
  }

  /** A lane is its id and its voted fields. */
  lemma {:induction false} SameFieldsSameLane(a: LaneRecord, b: LaneRecord)
    requires a.laneId == b.laneId && forall f :: FieldValue(a, f) == FieldValue(b, f)
    ensures a == b
  {
    assert a.origin == b.origin by {
      assert FieldValue(a, OriginPort) == FieldValue(b, OriginPort);
      assert PortFields(a.origin)[0] == PortFields(b.origin)[0];
    }
    assert a.destination == b.destination by {
      assert FieldValue(a, DestinationPort) == FieldValue(b, DestinationPort);
      assert PortFields(a.destination)[0] == PortFields(b.destination)[0];
    }
    SameSource(a, b);
    assert FieldValue(a, Surcharges) == FieldValue(b, Surcharges);
    SameSurcharges(a.surcharges, b.surcharges);
    assert FieldValue(a, EquipmentType) == FieldValue(b, EquipmentType);
    assert FieldValue(a, CommodityCode) == FieldValue(b, CommodityCode);
    assert FieldValue(a, BaseRateUsd) == FieldValue(b, BaseRateUsd);
    assert FieldValue(a, TransitTimeDays) == FieldValue(b, TransitTimeDays);
    assert FieldValue(a, ValidityStart) == FieldValue(b, ValidityStart);
    assert FieldValue(a, ValidityEnd) == FieldValue(b, ValidityEnd);
  }

  lemma {:induction false} SameSource(a: LaneRecord, b: LaneRecord)
    requires FieldValue(a, SourceRowReference) == FieldValue(b, SourceRowReference)
    ensures a.source == b.source
  {
    assert SourceFields(a.source)[0] == SourceFields(b.source)[0];
    assert SourceFields(a.source)[1] == SourceFields(b.source)[1];
    assert SourceFields(a.source)[2] == SourceFields(b.source)[2];
  }

  lemma {:induction false} SameSurcharges(ss: seq<Surcharge>, ts: seq<Surcharge>)
    requires SurchargeValues(ss) == SurchargeValues(ts)
    ensures ss == ts
  {
    assert |ss| == |ts|;
    forall i | 0 <= i < |ss| ensures ss[i] == ts[i] {
      assert SurchargeValues(ss)[i] == SurchargeValues(ts)[i];
      assert SurchargeFields(ss[i])[0] == SurchargeFields(ts[i])[0];
      assert SurchargeFields(ss[i])[1] == SurchargeFields(ts[i])[1];
      assert SurchargeFields(ss[i])[2] == SurchargeFields(ts[i])[2];
    }
  }
}
