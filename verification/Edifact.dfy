/** The EDIFACT branch of Stage 2 (packages/ingest/edifact_extractor.py). */
module Edifact {
  import opened Prelude
  import opened Lanes

  /** An element as the tokenizer delivers it: components, or plain text. */
  datatype Element = Composite(parts: seq<string>) | Plain(text: string)

  datatype Segment = Segment(tag: string, elements: seq<Element>)

  const START_QUALIFIER := "137"
  const END_QUALIFIER := "36"

  // ---------------------------------------------------------------- format 102

  /** What `str.strip` removes. */
  predicate Blank(c: char) {
    || '\t' <= c <= '\r' || '\U{1c}' <= c <= ' ' || c == '\U{85}' || c == '\U{a0}' || c == '\U{1680}'
    || '\U{2000}' <= c <= '\U{200a}' || c == '\U{2028}' || c == '\U{2029}' || c == '\U{202f}' || c == '\U{205f}'
    || c == '\U{3000}'
  }

  function StripLeft(s: string): string {
    if s != "" && Blank(s[0]) then StripLeft(s[1..]) else s
  }

  function StripRight(s: string): string {
    if s != "" && Blank(s[|s| - 1]) then StripRight(s[..|s| - 1]) else s
  }

  function Strip(s: string): string {
    StripRight(StripLeft(s))
  }

  predicate Digit(c: char) {
    '0' <= c <= '9'
  }

  function DigitValue(c: char): (d: nat)
    requires Digit(c)
    ensures d < 10
  {
    c as int - '0' as int
  }

  function DigitChar(d: nat): (c: char)
    requires d < 10
    ensures Digit(c) && DigitValue(c) == d
  {
    (d + '0' as int) as char
  }

  function Two(a: char, b: char): nat
    requires Digit(a) && Digit(b)
  {
    10 * DigitValue(a) + DigitValue(b)
  }

  /** A number below 100 in two digits. */
  function Pair(n: nat): (s: string)
    requires n < 100
    ensures |s| == 2 && Digit(s[0]) && Digit(s[1]) && Two(s[0], s[1]) == n
  {
    [DigitChar(n / 10), DigitChar(n % 10)]
  }

  lemma {:induction false} PairIsOnly(a: char, b: char)
    requires Digit(a) && Digit(b)
    ensures Two(a, b) < 100 && Pair(Two(a, b)) == [a, b]
  {
  }

  function Leap(year: nat): bool {
    year % 4 == 0 && (year % 100 != 0 || year % 400 == 0)
  }

  function DaysIn(year: nat, month: nat): (days: nat)
    ensures 28 <= days <= 31
  {
    if month == 2 then if Leap(year) then 29 else 28
    else if month == 4 || month == 6 || month == 9 || month == 11 then 30
    else 31
  }

  predicate OnCalendar(year: nat, month: nat, day: nat) {
    1 <= year <= 9999 && 1 <= month <= 12 && 1 <= day <= DaysIn(year, month)
  }

  function DateOf(year: nat, month: nat, day: nat): Date {
    10000 * year + 100 * month + day
  }

  /** `%d` on two characters: two digits, or a blank and a digit. */
  function DayOf(a: char, b: char): Option<nat> {
    if Digit(b) && Digit(a) then Some(Two(a, b))
    else if Digit(b) && a == ' ' then Some(DigitValue(b))
    else None
  }

  /** `datetime.strptime(value, "%Y%m%d").date()` on eight characters; None when it raises. */
  function ParseDate(value: string): Option<Date>
    requires |value| == 8
  {
    if !(forall i :: 0 <= i < 6 ==> Digit(value[i])) then None
    else
      var year := 100 * Two(value[0], value[1]) + Two(value[2], value[3]);
      var month := Two(value[4], value[5]);
      var day := DayOf(value[6], value[7]);
      if day.Some? && OnCalendar(year, month, day.value) then Some(DateOf(year, month, day.value)) else None
  }

  /** CCYYMMDD, as format 102 of composite C507 writes a date. */
  function Format102(year: nat, month: nat, day: nat): (s: string)
    requires OnCalendar(year, month, day)
    ensures |s| == 8
  {
    Pair(year / 100) + Pair(year % 100) + Pair(month) + Pair(day)
  }

  /** Different dates have different numbers, and the numbers order dates as the calendar does. */
  lemma {:induction false} DatesInOrder(y: nat, m: nat, d: nat, y': nat, m': nat, d': nat)
    requires OnCalendar(y, m, d) && OnCalendar(y', m', d')
    ensures DateOf(y, m, d) < DateOf(y', m', d') <==> y < y' || (y == y' && (m < m' || (m == m' && d < d')))
  {
  }

  lemma {:induction false} WrittenDate(year: nat, month: nat, day: nat)
    requires OnCalendar(year, month, day)
    ensures ParseDate(Format102(year, month, day)) == Some(DateOf(year, month, day))
  {
    var century, rest, mm, dd := Pair(year / 100), Pair(year % 100), Pair(month), Pair(day);
    assert Format102(year, month, day)
        == [century[0], century[1], rest[0], rest[1], mm[0], mm[1], dd[0], dd[1]];
  }

  /** A one-digit day may also be written with a blank. */
  function Padded(s: string): string
    requires |s| == 8
  {
    if s[6] == '0' then s[..6] + [' ', s[7]] else s
  }

  lemma {:induction false} PaddedDate(s: string)
    requires |s| == 8 && ParseDate(s).Some?
    ensures ParseDate(Padded(s)) == ParseDate(s)
  {
    var padded := Padded(s);
    assert padded[..6] == s[..6] && padded[7] == s[7];
    assert forall i :: 0 <= i < 6 ==> padded[i] == padded[..6][i] == s[i];
  }

  /**
   The parser reads a value as a date exactly when the value is that date in format 102, or the same with
   the leading zero of the day replaced by a blank.
   */
  lemma {:induction false} ParsedIffWritten(value: string, year: nat, month: nat, day: nat)
    requires |value| == 8 && OnCalendar(year, month, day)
    ensures ParseDate(value) == Some(DateOf(year, month, day)) <==>
              value == Format102(year, month, day) || value == Padded(Format102(year, month, day))
  {
    var s := Format102(year, month, day);
    WrittenDate(year, month, day);
    PaddedDate(s);
    if ParseDate(value) == Some(DateOf(year, month, day)) {
      ReadDigits(value, year, month, day);
    }
  }

  /** The parts a value was read as are the parts it is written from. */
  lemma {:induction false} ReadDigits(value: string, year: nat, month: nat, day: nat)
    requires |value| == 8 && OnCalendar(year, month, day)
    requires ParseDate(value) == Some(DateOf(year, month, day))
    ensures value == Format102(year, month, day) || value == Padded(Format102(year, month, day))
  {
    var century, rest, m := Two(value[0], value[1]), Two(value[2], value[3]), Two(value[4], value[5]);
    var d := DayOf(value[6], value[7]).value;
    OneDate(100 * century + rest, m, d, year, month, day);
    PairIsOnly(value[0], value[1]);
    PairIsOnly(value[2], value[3]);
    PairIsOnly(value[4], value[5]);
    assert year / 100 == century && year % 100 == rest;
    assert Format102(year, month, day) == value[..6] + Pair(day);
    DayDigits(value, day);
  }

  lemma {:induction false} DayDigits(value: string, day: nat)
    requires |value| == 8 && day < 100 && DayOf(value[6], value[7]) == Some(day)
    ensures value == value[..6] + Pair(day) || value == Padded(value[..6] + Pair(day))
  {
    if value[6] == ' ' {
      PairIsOnly('0', value[7]);
    } else {
      PairIsOnly(value[6], value[7]);
    }
  }

  lemma {:induction false} OneDate(y: nat, m: nat, d: nat, y': nat, m': nat, d': nat)
    requires OnCalendar(y, m, d) && OnCalendar(y', m', d') && DateOf(y, m, d) == DateOf(y', m', d')
    ensures y == y' && m == m' && d == d'
  {
    DatesInOrder(y, m, d, y', m', d');
    DatesInOrder(y', m', d', y, m, d);
  }

  // ---------------------------------------------------------------- DTM segments

  /** `text.split(":")`. */
  function SplitColon(s: string): (parts: seq<string>)
    ensures |parts| >= 1
  {
    if s == "" then [""]
    else
      var rest := SplitColon(s[1..]);
      if s[0] == ':' then [""] + rest else [[s[0]] + rest[0]] + rest[1..]
  }

  function JoinColon(parts: seq<string>): string
    requires |parts| >= 1
  {
    if |parts| == 1 then parts[0] else parts[0] + ":" + JoinColon(parts[1..])
  }

  /** Components without a colon survive being written as plain text. */
  lemma {:induction false} SplitJoined(parts: seq<string>)
    requires |parts| >= 1 && forall p :: p in parts ==> ':' !in p
    ensures SplitColon(JoinColon(parts)) == parts
    decreases |parts|, |parts[0]|
  {
    var s := JoinColon(parts);
    if parts[0] == "" {
      if |parts| > 1 {
        SplitJoined(parts[1..]);
        assert s[1..] == JoinColon(parts[1..]);
      }
    } else {
      var shorter := [parts[0][1..]] + parts[1..];
      assert parts[0] in parts && s[0] == parts[0][0] && s[0] in parts[0];
      SplitJoined(shorter);
      assert shorter[1..] == parts[1..];
      assert s[1..] == JoinColon(shorter);
      assert [s[0]] + shorter[0] == parts[0];
      assert [parts[0]] + parts[1..] == parts;
    }
  }

  function Components(e: Element): seq<string> {
    match e
    case Composite(parts) => parts
    case Plain(text) => SplitColon(text)
  }

  /** (qualifier, date) of a DTM segment's elements. */
  function ParseDtm(elements: seq<Element>): (Option<string>, Option<Date>) {
    if elements == [] then (None, None)
    else
      var parts := Components(elements[0]);
      if |parts| < 2 then (None, None)
      else
        var value := Strip(parts[1]);
        if |parts| >= 3 && Strip(parts[2]) != "102" then (Some(Strip(parts[0])), None)
        else if |value| != 8 then (Some(Strip(parts[0])), None)
        else (Some(Strip(parts[0])), ParseDate(value))
  }

  /** What is left has no blank at either end, and only blanks were taken off. */
  lemma {:induction false} StripIs(s: string)
    ensures exists i, j :: 0 <= i <= j <= |s| && StrippedTo(s, i, j)
  {
    var i := BlankLeft(s);
    var j := BlankRight(s[i..]);
    assert s[i..][..j] == s[i..i + j];
    assert StrippedTo(s, i, i + j);
  }

  predicate StrippedTo(s: string, i: nat, j: nat)
    requires i <= j <= |s|
  {
    && Strip(s) == s[i..j] && (forall k :: 0 <= k < i ==> Blank(s[k])) && (forall k :: j <= k < |s| ==> Blank(s[k]))
    && (i < j ==> !Blank(s[i]) && !Blank(s[j - 1]))
  }

  lemma {:induction false} BlankLeft(s: string) returns (i: nat)
    ensures i <= |s| && StripLeft(s) == s[i..] && (forall k :: 0 <= k < i ==> Blank(s[k])) && (i < |s| ==> !Blank(s[i]))
  {
    if s != "" && Blank(s[0]) {
      i := BlankLeft(s[1..]);
      assert forall k :: 1 <= k < i + 1 ==> s[k] == s[1..][k - 1];
      assert s[1..][i..] == s[i + 1..];
      i := i + 1;
    } else {
      i := 0;
    }
  }

  lemma {:induction false} BlankRight(s: string) returns (j: nat)
    ensures j <= |s| && StripRight(s) == s[..j] && (forall k :: j <= k < |s| ==> Blank(s[k])) && (0 < j ==> !Blank(s[j - 1]))
  {
    if s != "" && Blank(s[|s| - 1]) {
      j := BlankRight(s[..|s| - 1]);
      assert forall k :: 0 <= k < |s| - 1 ==> s[k] == s[..|s| - 1][k];
      assert s[..|s| - 1][..j] == s[..j];
    } else {
      j := |s|;
      assert s[..j] == s;
    }
  }

  /** Splitting takes out exactly the colons. */
  lemma {:induction false} SplitIs(s: string)
    ensures JoinColon(SplitColon(s)) == s && forall p :: p in SplitColon(s) ==> ':' !in p
  {
    if s != "" {
      SplitIs(s[1..]);
      var rest := SplitColon(s[1..]);
      assert s == [s[0]] + s[1..];
      if s[0] == ':' {
        assert ([""] + rest)[1..] == rest;
      } else {
        var parts := [[s[0]] + rest[0]] + rest[1..];
        assert parts[1..] == rest[1..] && SplitColon(s) == parts;
        assert rest[0] in rest && forall p :: p in rest[1..] ==> p in rest;
        if |parts| > 1 {
          assert JoinColon(parts) == [s[0]] + (rest[0] + ":" + JoinColon(rest[1..]));
        }
      }
    }
  }

  lemma {:induction false} StripTidy(s: string)
    requires s != "" && !Blank(s[0]) && !Blank(s[|s| - 1])
    ensures Strip(s) == s
  {
  }

  /**
   Round trip for DTM: a qualifier and a date written in format 102, as components or as plain text, are
   read back, with or without the format code.
   */
  lemma {:induction false} DtmRoundTrip(qualifier: string, year: nat, month: nat, day: nat, plain: bool, explicit: bool)
    requires qualifier == START_QUALIFIER || qualifier == END_QUALIFIER
    requires OnCalendar(year, month, day)
    ensures var parts := [qualifier, Format102(year, month, day)] + if explicit then ["102"] else [];
            var e := if plain then Plain(JoinColon(parts)) else Composite(parts);
            ParseDtm([e]) == (Some(qualifier), Some(DateOf(year, month, day)))
  {
    var value := Format102(year, month, day);
    var parts := [qualifier, value] + if explicit then ["102"] else [];
    WrittenDate(year, month, day);
    StripTidy(qualifier);
    StripTidy(value);
    StripTidy("102");
    assert forall p :: p in parts ==> ':' !in p;
    if plain {
      SplitJoined(parts);
    }
    assert Components(if plain then Plain(JoinColon(parts)) else Composite(parts)) == parts;
  }

  // ---------------------------------------------------------------- validity dates

  /** The date a segment states for a qualifier, if it is a readable DTM with that qualifier. */
  function States(seg: Segment, qualifier: string): Option<Date> {
    if seg.tag != "DTM" then None
    else
      var (q, d) := ParseDtm(seg.elements);
      if q == Some(qualifier) then d else None
  }

  /**
   Exactly which segments state a date for a qualifier: a DTM whose first element has the stripped qualifier,
   the date in format 102 (a blank may stand for the leading zero of the day), and no other format code.
   */
  lemma {:induction false} StatesIff(seg: Segment, qualifier: string, year: nat, month: nat, day: nat)
    requires OnCalendar(year, month, day)
    ensures States(seg, qualifier) == Some(DateOf(year, month, day)) <==>
              && seg.tag == "DTM" && seg.elements != []
              && var parts := Components(seg.elements[0]);
                 && |parts| >= 2 && Strip(parts[0]) == qualifier && (|parts| >= 3 ==> Strip(parts[2]) == "102")
                 && (Strip(parts[1]) == Format102(year, month, day) || Strip(parts[1]) == Padded(Format102(year, month, day)))
  {
    if seg.tag == "DTM" && seg.elements != [] && |Components(seg.elements[0])| >= 2 {
      var value := Strip(Components(seg.elements[0])[1]);
      if |value| == 8 {
        ParsedIffWritten(value, year, month, day);
      }
    }
  }

  /** The last value `f` finds. */
  function LastOf<S, T>(s: seq<S>, f: S -> Option<T>): Option<T> {
    if s == [] then None
    else if f(s[|s| - 1]).Some? then f(s[|s| - 1])
    else LastOf(s[..|s| - 1], f)
  }

  /** `r` is found somewhere, and nothing is found after it. */
  ghost predicate IsLast<S(!new), T(!new)>(s: seq<S>, f: S -> Option<T>, r: Option<T>) {
    if r.None? then forall x :: x in s ==> f(x).None?
    else exists i :: 0 <= i < |s| && f(s[i]) == r && forall x :: x in s[i + 1..] ==> f(x).None?
  }

  lemma {:induction false} LastOfIsLast<S(!new), T(!new)>(s: seq<S>, f: S -> Option<T>)
    ensures IsLast(s, f, LastOf(s, f))
  {
    if s != [] {
      var m := |s| - 1;
      LastOfIsLast(s[..m], f);
      assert s == s[..m] + [s[m]];
      var r := LastOf(s, f);
      if f(s[m]).Some? {
        assert s[m + 1..] == [];
      } else if r.Some? {
        var i :| 0 <= i < m && f(s[..m][i]) == r && forall x :: x in s[..m][i + 1..] ==> f(x).None?;
        assert s[i + 1..] == s[..m][i + 1..] + [s[m]];
      }
    }
  }

  lemma {:induction false} LastOfAppend<S, T>(a: seq<S>, b: seq<S>, f: S -> Option<T>)
    ensures LastOf(a + b, f) == if LastOf(b, f).Some? then LastOf(b, f) else LastOf(a, f)
  {
    if b == [] {
      assert a + b == a;
    } else {
      var m := |b| - 1;
      assert (a + b)[..|a + b| - 1] == a + b[..m];
      LastOfAppend(a, b[..m], f);
    }
  }

  /** The last date stated for a qualifier. */
  function LastDate(segments: seq<Segment>, qualifier: string): Option<Date> {
    LastOf(segments, (seg: Segment) => States(seg, qualifier))
  }

  method ExtractInterchangeValidity(segments: seq<Segment>) returns (start: Option<Date>, end: Option<Date>)
    ensures start == LastDate(segments, START_QUALIFIER)
    ensures end == LastDate(segments, END_QUALIFIER)
  {
    start, end := None, None;
    for n := 0 to |segments|
      invariant start == LastDate(segments[..n], START_QUALIFIER)
      invariant end == LastDate(segments[..n], END_QUALIFIER)
    {
      var seg := segments[n];
      assert segments[..n + 1][..n] == segments[..n];
      if seg.tag != "DTM" {
        continue;
      }
      var (qualifier, parsed) := ParseDtm(seg.elements);
      if parsed.None? {
        continue;
      }
      if qualifier == Some(END_QUALIFIER) {
        end := parsed;
      } else if qualifier == Some(START_QUALIFIER) {
        start := parsed;
      }
    }
    assert segments[..|segments|] == segments;
  }

  // ---------------------------------------------------------------- clustering

  /** Index of the first segment with this tag; the length if there is none. */
  function First(segments: seq<Segment>, tag: string): (n: nat)
    ensures n <= |segments|
    ensures n < |segments| ==> segments[n].tag == tag
    ensures forall i :: 0 <= i < n ==> segments[i].tag != tag
  {
    if segments == [] || segments[0].tag == tag then 0 else 1 + First(segments[1..], tag)
  }

  /** The segments from the first LIN up to the first UNT; none if UNT comes first. */
  function Body(segments: seq<Segment>): seq<Segment> {
    var upToUnt := segments[..First(segments, "UNT")];
    upToUnt[First(upToUnt, "LIN")..]
  }

  /** The body by its positions: from the first LIN before the first UNT, up to that UNT. */
  lemma {:induction false} BodyIs(segments: seq<Segment>)
    ensures exists i, j :: 0 <= i <= j <= |segments| && Body(segments) == segments[i..j]
              && (forall k :: 0 <= k < j ==> segments[k].tag != "UNT") && (j < |segments| ==> segments[j].tag == "UNT")
              && (forall k :: 0 <= k < i ==> segments[k].tag != "LIN") && (i < j ==> segments[i].tag == "LIN")
  {
    var j := First(segments, "UNT");
    var i := First(segments[..j], "LIN");
    assert Body(segments) == segments[i..j];
    assert forall k :: 0 <= k < i ==> segments[..j][k] == segments[k];
  }

  function Flatten(clusters: seq<seq<Segment>>): seq<Segment> {
    if clusters == [] then [] else Flatten(clusters[..|clusters| - 1]) + clusters[|clusters| - 1]
  }

  /** Starts with a LIN and has no other. */
  predicate OneLin(cluster: seq<Segment>) {
    cluster != [] && cluster[0].tag == "LIN" && forall i :: 1 <= i < |cluster| ==> cluster[i].tag != "LIN"
  }

  predicate Clustered(segments: seq<Segment>, clusters: seq<seq<Segment>>) {
    Flatten(clusters) == segments && forall c :: c in clusters ==> OneLin(c)
  }

  lemma {:induction false} FlattenEmpty(clusters: seq<seq<Segment>>)
    requires forall c :: c in clusters ==> OneLin(c)
    ensures Flatten(clusters) == [] <==> clusters == []
  {
    if clusters != [] {
      assert OneLin(clusters[|clusters| - 1]);
    }
  }

  /** There is only one way to cut a list into such clusters. */
  lemma {:induction false} OneClustering(segments: seq<Segment>, a: seq<seq<Segment>>, b: seq<seq<Segment>>)
    requires Clustered(segments, a) && Clustered(segments, b)
    ensures a == b
    decreases |a|
  {
    if a == [] || b == [] {
      FlattenEmpty(a);
      FlattenEmpty(b);
    } else {
      var m, n := |a| - 1, |b| - 1;
      assert OneLin(a[m]) && OneLin(b[n]);
      LastCut(segments, Flatten(a[..m]), a[m], Flatten(b[..n]), b[n]);
      OneClustering(Flatten(a[..m]), a[..m], b[..n]);
      assert a == a[..m] + [a[m]] && b == b[..n] + [b[n]];
    }
  }

  lemma {:induction false} LastLin(before: seq<Segment>, last: seq<Segment>, k: nat)
    requires OneLin(last) && k < |before + last| && (before + last)[k].tag == "LIN"
    ensures k <= |before|
  {
  }

  /** The last cluster starts at the last LIN. */
  lemma {:induction false} LastCut(segments: seq<Segment>, before: seq<Segment>, last: seq<Segment>,
                                   before': seq<Segment>, last': seq<Segment>)
    requires before + last == segments == before' + last'
    requires OneLin(last) && OneLin(last')
    ensures before == before' && last == last'
  {
    var i, i' := |before|, |before'|;
    LastLin(before, last, i');
    LastLin(before', last', i);
    assert before == segments[..i] && before' == segments[..i'];
    assert last == segments[i..] && last' == segments[i'..];
  }

  lemma {:induction false} FlattenSnoc(clusters: seq<seq<Segment>>, c: seq<Segment>)
    ensures Flatten(clusters + [c]) == Flatten(clusters) + c
  {
    assert (clusters + [c])[..|clusters|] == clusters;
  }

  /** Close the current cluster, if one is open. */
  function Closed(clusters: seq<seq<Segment>>, current: seq<Segment>): seq<seq<Segment>> {
    if current == [] then clusters else clusters + [current]
  }

  /** How far the loop is: what it holds are the clusters of the segments read so far. */
  predicate Progress(read: seq<Segment>, clusters: seq<seq<Segment>>, current: seq<Segment>) {
    && (forall s :: s in read ==> s.tag != "UNT")
    && Clustered(read[First(read, "LIN")..], Closed(clusters, current))
    && (current == [] ==> clusters == [] && First(read, "LIN") == |read|)
  }

  lemma {:induction false} FirstSnoc(read: seq<Segment>, seg: Segment, tag: string)
    ensures First(read + [seg], tag) ==
            if First(read, tag) < |read| || seg.tag == tag then First(read, tag) else |read| + 1
  {
    if read != [] && read[0].tag != tag {
      assert (read + [seg])[1..] == read[1..] + [seg];
      FirstSnoc(read[1..], seg, tag);
    }
  }

  lemma {:induction false} FirstAt(segments: seq<Segment>, n: nat, tag: string)
    requires n <= |segments| && (forall s :: s in segments[..n] ==> s.tag != tag)
    requires n < |segments| ==> segments[n].tag == tag
    ensures First(segments, tag) == n
  {
    assert forall i :: 0 <= i < n ==> segments[i] in segments[..n];
  }

  lemma {:induction false} ProgressAtLin(read: seq<Segment>, clusters: seq<seq<Segment>>, current: seq<Segment>,
                                         seg: Segment)
    requires Progress(read, clusters, current) && seg.tag == "LIN"
    ensures Progress(read + [seg], Closed(clusters, current), [seg])
  {
    FirstSnoc(read, seg, "LIN");
    var i, closed := First(read, "LIN"), Closed(clusters, current);
    FlattenSnoc(closed, [seg]);
    assert (read + [seg])[i..] == read[i..] + [seg];
    assert forall c :: c in closed + [[seg]] ==> c in closed || c == [seg];
  }

  lemma {:induction false} ProgressBefore(read: seq<Segment>, seg: Segment)
    requires Progress(read, [], []) && seg.tag != "LIN" && seg.tag != "UNT"
    ensures Progress(read + [seg], [], [])
  {
    FirstSnoc(read, seg, "LIN");
  }

  lemma {:induction false} ProgressInside(read: seq<Segment>, clusters: seq<seq<Segment>>, current: seq<Segment>,
                                          seg: Segment)
    requires Progress(read, clusters, current) && current != [] && seg.tag != "LIN" && seg.tag != "UNT"
    ensures Progress(read + [seg], clusters, current + [seg])
  {
    FirstSnoc(read, seg, "LIN");
    var i := First(read, "LIN");
    assert current in clusters + [current] && OneLin(current);
    FlattenSnoc(clusters, current);
    FlattenSnoc(clusters, current + [seg]);
    assert i < |read| by {
      assert Flatten(clusters) + current == read[i..];
    }
    assert (read + [seg])[i..] == Flatten(clusters) + (current + [seg]) by {
      assert (read + [seg])[i..] == read[i..] + [seg];
    }
    forall c | c in clusters + [current + [seg]] ensures OneLin(c) {
      assert c in clusters ==> c in clusters + [current];
    }
  }

  lemma {:induction false} ProgressStep(read: seq<Segment>, clusters: seq<seq<Segment>>, current: seq<Segment>,
                                        seg: Segment)
    requires Progress(read, clusters, current) && seg.tag != "UNT"
    ensures seg.tag == "LIN" ==> Progress(read + [seg], Closed(clusters, current), [seg])
    ensures seg.tag != "LIN" ==> Progress(read + [seg], clusters, if current == [] then [] else current + [seg])
  {
    if seg.tag == "LIN" {
      ProgressAtLin(read, clusters, current, seg);
    } else if current == [] {
      ProgressBefore(read, seg);
    } else {
      ProgressInside(read, clusters, current, seg);
    }
  }

  /** From one LIN to the next LIN, the first UNT, or the end. */
  method ClusterSegments(segments: seq<Segment>) returns (clusters: seq<seq<Segment>>)
    ensures Clustered(Body(segments), clusters)
  {
    clusters := [];
    var current: seq<Segment> := [];
    ghost var stop := |segments|;
    for n := 0 to |segments|
      invariant Progress(segments[..n], clusters, current) && stop == |segments|
    {
      var seg := segments[n];
      assert segments[..n + 1] == segments[..n] + [seg];
      if seg.tag == "UNT" {
        stop := n;
        break;
      }
      ProgressStep(segments[..n], clusters, current, seg);
      if seg.tag == "LIN" {
        if current != [] {
          clusters := clusters + [current];
        }
        current := [seg];
      } else if current != [] {
        current := current + [seg];
      }
    }
    assert segments[..|segments|] == segments;
    FirstAt(segments, stop, "UNT");
    if current != [] {
      clusters := clusters + [current];
    }
  }

  // ---------------------------------------------------------------- lanes

  /** What the deterministic reader makes of a LIN segment, and the model of a cluster it cannot read. */
  datatype LinReading = Lane(lane: LaneRecord) | Unreadable | Invalid

  type LinReader = (seq<Element>, nat) -> LinReading
  type Flash = (seq<Segment>, nat) -> Option<LaneRecord>

  datatype EdifactFailure =
    | NoLanes   // raised as ExtractionError: the task records the failure
    | Uncaught  // the lane model refuses a port code: nothing records it

  /** The cluster's own date, else the interchange's, else the lane's. */
  function Effective(cluster: Option<Date>, interchange: Option<Date>, own: Date): Date {
    if cluster.Some? then cluster.value else if interchange.Some? then interchange.value else own
  }

  /** A lane from the model, with its validity overridden. */
  function Dated(lane: LaneRecord, cluster: seq<Segment>, segments: seq<Segment>): LaneRecord {
    lane.(validityStart := Effective(LastDate(cluster, START_QUALIFIER), LastDate(segments, START_QUALIFIER), lane.validityStart),
          validityEnd := Effective(LastDate(cluster, END_QUALIFIER), LastDate(segments, END_QUALIFIER), lane.validityEnd))
  }

  /** The lane of cluster number `idx` (from 1), if any.  Stated dates never touch a lane the reader read. */
  function LaneOf(cluster: seq<Segment>, idx: nat, segments: seq<Segment>, read: LinReader, flash: Flash): Option<LaneRecord>
    requires cluster != []
  {
    match read(cluster[0].elements, idx)
    case Lane(lane) => Some(lane)
    case _ =>
      var answer := flash(cluster, idx);
      if answer.Some? then Some(Dated(answer.value, cluster, segments)) else None
  }

  function LanesOf(clusters: seq<seq<Segment>>, segments: seq<Segment>, read: LinReader, flash: Flash): (lanes: seq<LaneRecord>)
    requires forall c :: c in clusters ==> OneLin(c)
    ensures |lanes| <= |clusters|
  {
    if clusters == [] then []
    else
      var m := |clusters| - 1;
      assert clusters[m] in clusters && OneLin(clusters[m]);
      assert forall c :: c in clusters[..m] ==> c in clusters;
      var lane := LaneOf(clusters[m], m + 1, segments, read, flash);
      LanesOf(clusters[..m], segments, read, flash) + if lane.Some? then [lane.value] else []
  }

  // What the payload holds, by positions.

  /** The last date any of the segments states for the qualifier. */
  ghost predicate LastSaid(segments: seq<Segment>, qualifier: string, d: Date) {
    exists i :: 0 <= i < |segments| && States(segments[i], qualifier) == Some(d)
                && forall j :: i < j < |segments| ==> States(segments[j], qualifier).None?
  }

  ghost predicate Silent(segments: seq<Segment>, qualifier: string) {
    forall i :: 0 <= i < |segments| ==> States(segments[i], qualifier).None?
  }

  /** The last date of the cluster, else the last of the interchange, else the lane's own. */
  ghost predicate DateFor(cluster: seq<Segment>, segments: seq<Segment>, qualifier: string, own: Date, d: Date) {
    || LastSaid(cluster, qualifier, d)
    || (Silent(cluster, qualifier) && LastSaid(segments, qualifier, d))
    || (Silent(cluster, qualifier) && Silent(segments, qualifier) && d == own)
  }

  /** The model's answer with its two dates, and nothing else, replaced by those dates. */
  ghost predicate AnswerDated(lane: LaneRecord, answer: LaneRecord, cluster: seq<Segment>, segments: seq<Segment>) {
    && lane.(validityStart := answer.validityStart, validityEnd := answer.validityEnd) == answer
    && DateFor(cluster, segments, "137", answer.validityStart, lane.validityStart)
    && DateFor(cluster, segments, "36", answer.validityEnd, lane.validityEnd)
  }

  /** Cluster number `n` (from 0) is read, or answered for. */
  predicate Yields(clusters: seq<seq<Segment>>, n: nat, read: LinReader, flash: Flash) {
    n < |clusters| && clusters[n] != []
    && (read(clusters[n][0].elements, n + 1).Lane? || flash(clusters[n], n + 1).Some?)
  }

  /** What cluster `n` yields: the lane the reader read, as it is, else the dated answer of the model. */
  ghost predicate Yielded(clusters: seq<seq<Segment>>, n: nat, segments: seq<Segment>, read: LinReader, flash: Flash,
                          lane: LaneRecord)
    requires Yields(clusters, n, read, flash)
  {
    var lin := read(clusters[n][0].elements, n + 1);
    if lin.Lane? then lane == lin.lane else AnswerDated(lane, flash(clusters[n], n + 1).value, clusters[n], segments)
  }

  /** The lanes are those of the clusters `at`, in order, and these are all that yield one. */
  ghost predicate LanesAt(clusters: seq<seq<Segment>>, segments: seq<Segment>, read: LinReader, flash: Flash,
                          at: seq<nat>, lanes: seq<LaneRecord>) {
    && |at| == |lanes| && (forall i, j :: 0 <= i < j < |at| ==> at[i] < at[j])
    && (forall n: nat :: n in at <==> Yields(clusters, n, read, flash))
    && forall k :: 0 <= k < |at| ==> at[k] in at && Yielded(clusters, at[k], segments, read, flash, lanes[k])
  }

  lemma {:induction false} LastDateSaid(segments: seq<Segment>, qualifier: string)
    ensures var d := LastDate(segments, qualifier);
            if d.Some? then LastSaid(segments, qualifier, d.value) else Silent(segments, qualifier)
  {
    LastOfIsLast(segments, (seg: Segment) => States(seg, qualifier));
    if LastDate(segments, qualifier).Some? {
      var i :| 0 <= i < |segments| && States(segments[i], qualifier) == LastDate(segments, qualifier)
               && forall seg :: seg in segments[i + 1..] ==> States(seg, qualifier).None?;
      assert forall j :: i < j < |segments| ==> segments[j] in segments[i + 1..];
    } else {
      assert forall i :: 0 <= i < |segments| ==> segments[i] in segments;
    }
  }

  lemma {:induction false} DatedAnswer(answer: LaneRecord, cluster: seq<Segment>, segments: seq<Segment>)
    ensures AnswerDated(Dated(answer, cluster, segments), answer, cluster, segments)
  {
    LastDateSaid(cluster, "137");
    LastDateSaid(cluster, "36");
    LastDateSaid(segments, "137");
    LastDateSaid(segments, "36");
  }

  lemma {:induction false} LanesNext(clusters: seq<seq<Segment>>, n: nat, segments: seq<Segment>, read: LinReader,
                                     flash: Flash)
    requires n < |clusters| && forall c :: c in clusters ==> OneLin(c)
    ensures OneLin(clusters[n]) && forall c :: c in clusters[..n + 1] ==> OneLin(c)
    ensures LanesOf(clusters[..n + 1], segments, read, flash) ==
            LanesOf(clusters[..n], segments, read, flash)
            + match read(clusters[n][0].elements, n + 1)
              case Lane(lane) => [lane]
              case _ =>
                var answer := flash(clusters[n], n + 1);
                if answer.Some? then [Dated(answer.value, clusters[n], segments)] else []
  {
    assert clusters[..n + 1][..n] == clusters[..n];
  }

  lemma {:induction false} LanesWhere(clusters: seq<seq<Segment>>, segments: seq<Segment>, read: LinReader,
                                      flash: Flash)
    requires forall c :: c in clusters ==> OneLin(c)
    ensures exists at :: LanesAt(clusters, segments, read, flash, at, LanesOf(clusters, segments, read, flash))
    ensures LanesOf(clusters, segments, read, flash) == [] <==> forall n: nat :: !Yields(clusters, n, read, flash)
  {
    var at := LanesOfAt(clusters, segments, read, flash);
    assert at != [] ==> at[0] in at;
    assert at == [] ==> forall n: nat :: n !in at;
  }

  lemma {:induction false} LanesOfAt(clusters: seq<seq<Segment>>, segments: seq<Segment>, read: LinReader, flash: Flash)
    returns (at: seq<nat>)
    requires forall c :: c in clusters ==> OneLin(c)
    ensures LanesAt(clusters, segments, read, flash, at, LanesOf(clusters, segments, read, flash))
  {
    if clusters == [] {
      at := [];
    } else {
      var m := |clusters| - 1;
      assert clusters[m] in clusters && OneLin(clusters[m]);
      assert forall c :: c in clusters[..m] ==> c in clusters;
      var before := LanesOfAt(clusters[..m], segments, read, flash);
      var lane := LaneOf(clusters[m], m + 1, segments, read, flash);
      at := if lane.Some? then before + [m] else before;
      LaneYields(clusters, m, segments, read, flash);
      AtNext(clusters, segments, read, flash, before, LanesOf(clusters[..m], segments, read, flash), lane);
    }
  }

  lemma {:induction false} LaneYields(clusters: seq<seq<Segment>>, n: nat, segments: seq<Segment>, read: LinReader,
                                      flash: Flash)
    requires n < |clusters| && clusters[n] != []
    ensures var lane := LaneOf(clusters[n], n + 1, segments, read, flash);
            && (lane.Some? <==> Yields(clusters, n, read, flash))
            && (lane.Some? ==> Yielded(clusters, n, segments, read, flash, lane.value))
  {
    var answer := flash(clusters[n], n + 1);
    if answer.Some? {
      DatedAnswer(answer.value, clusters[n], segments);
    }
  }

  lemma {:induction false} SamePrefix(clusters: seq<seq<Segment>>, m: nat, n: nat, segments: seq<Segment>,
                                      read: LinReader, flash: Flash)
    requires n < m <= |clusters|
    ensures Yields(clusters[..m], n, read, flash) <==> Yields(clusters, n, read, flash)
    ensures Yields(clusters, n, read, flash) ==>
              forall lane :: Yielded(clusters[..m], n, segments, read, flash, lane) <==>
                             Yielded(clusters, n, segments, read, flash, lane)
  {
    assert clusters[..m][n] == clusters[n];
  }

  lemma {:induction false} PositionsNext(clusters: seq<seq<Segment>>, read: LinReader, flash: Flash, before: seq<nat>)
    requires clusters != [] && forall n: nat :: n in before <==> Yields(clusters[..|clusters| - 1], n, read, flash)
    ensures var m := |clusters| - 1;
            forall n: nat :: n in (if Yields(clusters, m, read, flash) then before + [m] else before) <==>
                             Yields(clusters, n, read, flash)
  {
    var m := |clusters| - 1;
    var at := if Yields(clusters, m, read, flash) then before + [m] else before;
    forall n: nat ensures n in at <==> Yields(clusters, n, read, flash) {
      if n < m {
        SamePrefix(clusters, m, n, [], read, flash);
      } else {
        assert n !in before;
      }
    }
  }

  lemma {:induction false} AtNext(clusters: seq<seq<Segment>>, segments: seq<Segment>, read: LinReader, flash: Flash,
                                  before: seq<nat>, lanes: seq<LaneRecord>, lane: Option<LaneRecord>)
    requires clusters != [] && LanesAt(clusters[..|clusters| - 1], segments, read, flash, before, lanes)
    requires lane.Some? <==> Yields(clusters, |clusters| - 1, read, flash)
    requires lane.Some? ==> Yielded(clusters, |clusters| - 1, segments, read, flash, lane.value)
    ensures LanesAt(clusters, segments, read, flash, if lane.Some? then before + [|clusters| - 1] else before,
                    if lane.Some? then lanes + [lane.value] else lanes)
  {
    var m := |clusters| - 1;
    PositionsNext(clusters, read, flash, before);
    forall k | 0 <= k < |before|
      ensures before[k] < m && before[k] in before && Yields(clusters, before[k], read, flash)
      ensures Yielded(clusters, before[k], segments, read, flash, lanes[k])
    {
      assert before[k] in before;
      SamePrefix(clusters, m, before[k], segments, read, flash);
    }
  }

  predicate InvalidAt(cluster: seq<Segment>, idx: nat, read: LinReader) {
    cluster != [] && read(cluster[0].elements, idx).Invalid?
  }

  ghost predicate SomeInvalid(clusters: seq<seq<Segment>>, read: LinReader)
  {
    exists n: nat :: n < |clusters| && InvalidAt(clusters[n], n + 1, read)
  }

  /**
   One lane per cluster that is read or answered for: a lane the reader makes is kept as it is, the model's
   gets the dates of its cluster, else those of the interchange.
   */
  method ReadClusters(clusters: seq<seq<Segment>>, segments: seq<Segment>, start: Option<Date>, end: Option<Date>,
                      read: LinReader, flash: Flash)
    returns (r: Option<seq<LaneRecord>>)
    requires forall c :: c in clusters ==> OneLin(c)
    requires start == LastDate(segments, START_QUALIFIER) && end == LastDate(segments, END_QUALIFIER)
    ensures r.None? <==> SomeInvalid(clusters, read)
    ensures r.Some? ==> r.value == LanesOf(clusters, segments, read, flash)
  {
    var lanes := [];
    for n := 0 to |clusters|
      invariant forall c :: c in clusters[..n] ==> OneLin(c)
      invariant lanes == LanesOf(clusters[..n], segments, read, flash)
      invariant forall i: nat :: i < n ==> !InvalidAt(clusters[i], i + 1, read)
    {
      var cluster := clusters[n];
      LanesNext(clusters, n, segments, read, flash);
      var clusterStart, clusterEnd := ExtractInterchangeValidity(cluster);
      var lin := read(cluster[0].elements, n + 1);
      if lin.Invalid? {
        return None;
      }
      if lin.Lane? {
        lanes := lanes + [lin.lane];
        continue;
      }
      var answer := flash(cluster, n + 1);
      if answer.Some? {
        var lane := answer.value;
        var effectiveStart := if clusterStart.Some? then clusterStart else start;
        var effectiveEnd := if clusterEnd.Some? then clusterEnd else end;
        if effectiveStart.Some? {
          lane := lane.(validityStart := effectiveStart.value);
        }
        if effectiveEnd.Some? {
          lane := lane.(validityEnd := effectiveEnd.value);
        }
        assert lane == Dated(answer.value, cluster, segments);
        lanes := lanes + [lane];
      }
    }
    assert clusters[..|clusters|] == clusters;
    r := Some(lanes);
  }

  method ExtractEdifact(segments: seq<Segment>, read: LinReader, flash: Flash)
    returns (r: Result<Ratesheet, EdifactFailure>, ghost clusters: seq<seq<Segment>>)
    ensures Clustered(Body(segments), clusters)
    ensures r == Err(Uncaught) <==> SomeInvalid(clusters, read)
    ensures r == Err(NoLanes) <==> !SomeInvalid(clusters, read) && LanesOf(clusters, segments, read, flash) == []
    ensures r.Ok? ==> r.value == Ratesheet(LanesOf(clusters, segments, read, flash), [], [], [])
    ensures r == Err(NoLanes) <==> !SomeInvalid(clusters, read) && forall n: nat :: !Yields(clusters, n, read, flash)
    ensures r.Ok? ==> exists at :: LanesAt(clusters, segments, read, flash, at, r.value.lanes)
  {
    var start, end := ExtractInterchangeValidity(segments);
    var cut := ClusterSegments(segments);
    clusters := cut;
    var answered := ReadClusters(cut, segments, start, end, read, flash);
    if answered.None? {
      return Err(Uncaught), clusters;
    }
    var lanes := answered.value;
    LanesWhere(cut, segments, read, flash);
    if lanes == [] {
      return Err(NoLanes), clusters;
    }
    r := Ok(Ratesheet(lanes, [], [], []));
  }

  /**
   Where the validity of a model-read lane comes from: the last date of its own cluster; else the last of
   the whole interchange, which is the trailer's, else the clusters', else the header's; else its own.
   */
  lemma {:induction false} DateSource(lane: LaneRecord, cluster: seq<Segment>, segments: seq<Segment>,
                                      clusters: seq<seq<Segment>>, qualifier: string)
    requires Clustered(Body(segments), clusters) && cluster in clusters
    requires qualifier == START_QUALIFIER || qualifier == END_QUALIFIER
    ensures var unt := First(segments, "UNT");
            var lin := First(segments[..unt], "LIN");
            var dated := Dated(lane, cluster, segments);
            var inCluster := LastDate(cluster, qualifier);
            var trailer := LastDate(segments[unt..], qualifier);
            var body := LastDate(Flatten(clusters), qualifier);
            var header := LastDate(segments[..lin], qualifier);
            (if qualifier == START_QUALIFIER then dated.validityStart else dated.validityEnd) ==
              if inCluster.Some? then inCluster.value
              else if trailer.Some? then trailer.value
              else if body.Some? then body.value
              else if header.Some? then header.value
              else if qualifier == START_QUALIFIER then lane.validityStart
              else lane.validityEnd
  {
    var unt := First(segments, "UNT");
    var lin := First(segments[..unt], "LIN");
    assert segments == segments[..unt] + segments[unt..];
    LastOfAppend(segments[..unt], segments[unt..], (seg: Segment) => States(seg, qualifier));
    assert segments[..unt] == segments[..lin] + Body(segments);
    LastOfAppend(segments[..lin], Body(segments), (seg: Segment) => States(seg, qualifier));
  }
}
