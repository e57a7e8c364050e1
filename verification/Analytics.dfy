/**
 The catalogue-growth projection in its two forms, in memory and in Postgres, and the report over it
 (internal/adapters/outbound/analyticsstore). Times are nanoseconds since the epoch.
 */
module Analytics {
  import opened Shared

  datatype Kind = Defined | Revised | Deactivated

  /** One call of an Apply method. */
  datatype Delivery = Delivery(id: nat, kind: Kind, at: int)

  datatype Row = Row(defined: nat, revised: nat, deactivated: nat)

  const NO_ROW := Row(0, 0, 0)

  /** `t.UTC().Truncate(24 * time.Hour)`, as a day number. */
  function Day(at: int): int { at / NANOS_PER_DAY }

  function Counter(r: Row, kind: Kind): nat {
    match kind
    case Defined => r.defined
    case Revised => r.revised
    case Deactivated => r.deactivated
  }

  function Add(a: Row, b: Row): Row { Row(a.defined + b.defined, a.revised + b.revised, a.deactivated + b.deactivated) }

  function Delta(kind: Kind): Row {
    match kind
    case Defined => Row(1, 0, 0)
    case Revised => Row(0, 1, 0)
    case Deactivated => Row(0, 0, 1)
  }

  function RowAt(rows: map<int, Row>, day: int): Row { if day in rows then rows[day] else NO_ROW }

  // ---- what both stores hold after a sequence of deliveries ----

  datatype Tally = Tally(seen: set<nat>, rows: map<int, Row>)

  function Applied(t: Tally, d: Delivery): Tally {
    if d.id in t.seen then t
    else Tally(t.seen + {d.id}, t.rows[Day(d.at) := Add(RowAt(t.rows, Day(d.at)), Delta(d.kind))])
  }

  function Project(ds: seq<Delivery>): Tally {
    if ds == [] then Tally({}, map[]) else Applied(Project(ds[..|ds| - 1]), ds[|ds| - 1])
  }

  /** The i-th delivery is the first of its event. */
  ghost predicate IsFirst(ds: seq<Delivery>, i: nat) {
    i < |ds| && forall j :: 0 <= j < i ==> ds[j].id != ds[i].id
  }

  function Ids(ds: seq<Delivery>): set<nat> { set i | 0 <= i < |ds| :: ds[i].id }

  predicate Within(d: Delivery, kind: Kind, from: int, upto: int) { d.kind == kind && from <= Day(d.at) < upto }

  /** The events whose first delivery was of this kind and fell on a day in [from, upto). */
  ghost function FirstIds(ds: seq<Delivery>, kind: Kind, from: int, upto: int): set<nat> {
    set i | 0 <= i < |ds| && IsFirst(ds, i) && Within(ds[i], kind, from, upto) :: ds[i].id
  }

  lemma IdsGrow(ds: seq<Delivery>, d: Delivery)
    ensures Ids(ds + [d]) == Ids(ds) + {d.id}
    ensures IsFirst(ds + [d], |ds|) <==> d.id !in Ids(ds)
  {
    var all := ds + [d];
    assert all[|ds|] == d && forall j :: 0 <= j < |ds| ==> all[j] == ds[j];
    forall x ensures x in Ids(all) <==> x in Ids(ds) || x == d.id {
      if x in Ids(ds) { var i :| 0 <= i < |ds| && ds[i].id == x; assert all[i].id == x; }
    }
  }

  lemma StillFirst(ds: seq<Delivery>, d: Delivery, i: nat)
    requires i < |ds|
    ensures IsFirst(ds + [d], i) <==> IsFirst(ds, i)
  {
    var all := ds + [d];
    assert forall j :: 0 <= j <= i ==> all[j] == ds[j];
  }

  lemma FirstIdsGrow(ds: seq<Delivery>, d: Delivery, kind: Kind, from: int, upto: int)
    ensures FirstIds(ds + [d], kind, from, upto)
         == FirstIds(ds, kind, from, upto) + (if d.id !in Ids(ds) && Within(d, kind, from, upto) then {d.id} else {})
    ensures FirstIds(ds, kind, from, upto) <= Ids(ds)
  {
    hide Within, IsFirst, Ids;
    var all, before, after := ds + [d], FirstIds(ds, kind, from, upto), FirstIds(ds + [d], kind, from, upto);
    IdsGrow(ds, d);
    forall i | 0 <= i < |ds| ensures all[i] == ds[i] && (IsFirst(all, i) <==> IsFirst(ds, i)) { StillFirst(ds, d, i); }
    assert all[|ds|] == d;
    forall x | x in before ensures x in after && x in Ids(ds) {
      var i :| 0 <= i < |ds| && IsFirst(ds, i) && Within(ds[i], kind, from, upto) && ds[i].id == x;
      assert IsFirst(all, i) && Within(all[i], kind, from, upto);
      IsAnId(ds, i);
    }
    forall x | x in after && x !in before ensures x == d.id && d.id !in Ids(ds) && Within(d, kind, from, upto) {
      var i :| 0 <= i < |all| && IsFirst(all, i) && Within(all[i], kind, from, upto) && all[i].id == x;
    }
  }

  lemma IsAnId(ds: seq<Delivery>, i: nat)
    requires i < |ds|
    ensures ds[i].id in Ids(ds)
  {}

  /**
   After any sequence of deliveries, with repeats and in any order, each day's counter is the number of
   distinct events whose first delivery had that kind and day, and exactly the delivered events are seen.
   */
  lemma {:induction false} CountersCountFirstDeliveries(ds: seq<Delivery>, kind: Kind, day: int)
    ensures Counter(RowAt(Project(ds).rows, day), kind) == |FirstIds(ds, kind, day, day + 1)|
    ensures Project(ds).seen == Ids(ds)
  {
    hide Day, IsFirst, FirstIds, Within, RowAt, Counter;
    if ds == [] {
      NoneFirst(kind, day, day + 1);
      NoneCounted(kind, day);
    } else {
      var t, d := ds[..|ds| - 1], ds[|ds| - 1];
      assert ds == t + [d] && Project(ds) == Applied(Project(t), d);
      hide Project;
      CountersCountFirstDeliveries(t, kind, day);
      FirstIdsGrow(t, d, kind, day, day + 1);
      IdsGrow(t, d);
      AppliedCounter(Project(t), d, kind, day);
    }
  }

  lemma NoneFirst(kind: Kind, from: int, upto: int)
    ensures FirstIds([], kind, from, upto) == {}
  {}

  lemma NoneCounted(kind: Kind, day: int)
    ensures Counter(RowAt(map[], day), kind) == 0
  {}

  lemma AppliedCounter(t: Tally, d: Delivery, kind: Kind, day: int)
    ensures Counter(RowAt(Applied(t, d).rows, day), kind)
         == Counter(RowAt(t.rows, day), kind) + (if d.id !in t.seen && Within(d, kind, day, day + 1) then 1 else 0)
  {
    hide Day;
  }

  /** Column by column: a day's row holds how many distinct events were first delivered as that kind on that day. */
  lemma ColumnsCountFirstDeliveries(ds: seq<Delivery>, day: int)
    ensures var rows := Project(ds).rows;
            var row := if day in rows then rows[day] else Row(0, 0, 0);
            && row.defined == |set i | 0 <= i < |ds| && IsFirst(ds, i) && ds[i].kind == Defined && ds[i].at / NANOS_PER_DAY == day :: ds[i].id|
            && row.revised == |set i | 0 <= i < |ds| && IsFirst(ds, i) && ds[i].kind == Revised && ds[i].at / NANOS_PER_DAY == day :: ds[i].id|
            && row.deactivated == |set i | 0 <= i < |ds| && IsFirst(ds, i) && ds[i].kind == Deactivated && ds[i].at / NANOS_PER_DAY == day :: ds[i].id|
    ensures Project(ds).seen == set i | 0 <= i < |ds| :: ds[i].id
  {
    hide IsFirst, Project;
    CountersCountFirstDeliveries(ds, Defined, day);
    CountersCountFirstDeliveries(ds, Revised, day);
    CountersCountFirstDeliveries(ds, Deactivated, day);
    OnDay(ds, Defined, day);
    OnDay(ds, Revised, day);
    OnDay(ds, Deactivated, day);
  }

  lemma OnDay(ds: seq<Delivery>, kind: Kind, day: int)
    ensures FirstIds(ds, kind, day, day + 1)
         == set i | 0 <= i < |ds| && IsFirst(ds, i) && ds[i].kind == kind && ds[i].at / NANOS_PER_DAY == day :: ds[i].id
  {
    hide IsFirst;
  }

  // ---- summing rows ----

  datatype ReportRow = ReportRow(day: int, row: Row)

  function Sum(rows: seq<ReportRow>, kind: Kind): nat {
    if rows == [] then 0 else Sum(rows[..|rows| - 1], kind) + Counter(rows[|rows| - 1].row, kind)
  }

  /** `out` lists, once each and in any order, the rows of the days in [from, upto). */
  ghost predicate Reports(rows: map<int, Row>, from: int, upto: int, out: seq<ReportRow>) {
    && (forall i, j :: 0 <= i < j < |out| ==> out[i].day != out[j].day)
    && (forall i :: 0 <= i < |out| ==> from <= out[i].day < upto && out[i].day in rows && out[i].row == rows[out[i].day])
    && (forall day :: from <= day < upto && day in rows ==> exists i :: 0 <= i < |out| && out[i].day == day)
  }

  /** The events of the listed days. */
  ghost function Listed(ds: seq<Delivery>, kind: Kind, out: seq<ReportRow>): set<nat> {
    if out == [] then {}
    else Listed(ds, kind, out[..|out| - 1]) + FirstIds(ds, kind, out[|out| - 1].day, out[|out| - 1].day + 1)
  }

  lemma FirstIsUnique(ds: seq<Delivery>, i: nat, j: nat)
    requires IsFirst(ds, i) && IsFirst(ds, j) && ds[i].id == ds[j].id
    ensures i == j
  {}

  lemma OneDayEach(ds: seq<Delivery>, x: nat, kind: Kind, kind': Kind, day: int, from: int, upto: int)
    requires x in FirstIds(ds, kind, day, day + 1) && x in FirstIds(ds, kind', from, upto)
    ensures kind == kind' && from <= day < upto
  {
    hide IsFirst, Day;
    var i :| 0 <= i < |ds| && IsFirst(ds, i) && Within(ds[i], kind, day, day + 1) && ds[i].id == x;
    var j :| 0 <= j < |ds| && IsFirst(ds, j) && Within(ds[j], kind', from, upto) && ds[j].id == x;
    FirstIsUnique(ds, i, j);
  }

  lemma {:induction false} InListed(ds: seq<Delivery>, kind: Kind, out: seq<ReportRow>, x: nat)
    ensures x in Listed(ds, kind, out) <==> exists k :: 0 <= k < |out| && x in FirstIds(ds, kind, out[k].day, out[k].day + 1)
  {
    hide FirstIds;
    if out != [] {
      var t := out[..|out| - 1];
      InListed(ds, kind, t, x);
      if k :| 0 <= k < |t| && x in FirstIds(ds, kind, t[k].day, t[k].day + 1) { assert out[k] == t[k]; }
    }
  }

  lemma {:induction false} SumIsListed(ds: seq<Delivery>, kind: Kind, out: seq<ReportRow>)
    requires forall i, j :: 0 <= i < j < |out| ==> out[i].day != out[j].day
    requires forall i :: 0 <= i < |out| ==> out[i].row == RowAt(Project(ds).rows, out[i].day)
    ensures Sum(out, kind) == |Listed(ds, kind, out)|
  {
    hide FirstIds, Project, RowAt;
    if out != [] {
      var t, last := out[..|out| - 1], out[|out| - 1];
      SumIsListed(ds, kind, t);
      CountersCountFirstDeliveries(ds, kind, last.day);
      var more := FirstIds(ds, kind, last.day, last.day + 1);
      forall x | x in Listed(ds, kind, t) ensures x !in more {
        InListed(ds, kind, t, x);
        var k :| 0 <= k < |t| && x in FirstIds(ds, kind, t[k].day, t[k].day + 1);
        if x in more { OneDayEach(ds, x, kind, kind, last.day, t[k].day, t[k].day + 1); }
      }
      CountUnion(Listed(ds, kind, t), more);
    }
  }

  lemma CountUnion(a: set<nat>, b: set<nat>)
    requires forall x :: x in a ==> x !in b
    ensures |a + b| == |a| + |b|
  {
    assert a !! b;
  }

  /** A day with an event has a row. */
  lemma DayHasRow(ds: seq<Delivery>, kind: Kind, x: nat, day: int)
    requires x in FirstIds(ds, kind, day, day + 1)
    ensures day in Project(ds).rows
  {
    hide FirstIds, Project;
    CountersCountFirstDeliveries(ds, kind, day);
    assert FirstIds(ds, kind, day, day + 1) != {};
  }

  lemma ListedIsRange(ds: seq<Delivery>, kind: Kind, from: int, upto: int, out: seq<ReportRow>)
    requires Reports(Project(ds).rows, from, upto, out)
    ensures Listed(ds, kind, out) == FirstIds(ds, kind, from, upto)
  {
    hide FirstIds, Project, Listed;
    forall x ensures x in Listed(ds, kind, out) <==> x in FirstIds(ds, kind, from, upto) {
      InListed(ds, kind, out, x);
      if k :| 0 <= k < |out| && x in FirstIds(ds, kind, out[k].day, out[k].day + 1) {
        WidenRange(ds, kind, x, out[k].day, from, upto);
      }
      if x in FirstIds(ds, kind, from, upto) {
        var day := DayOf(ds, kind, x, from, upto);
        DayHasRow(ds, kind, x, day);
        var k :| 0 <= k < |out| && out[k].day == day;
      }
    }
  }

  lemma WidenRange(ds: seq<Delivery>, kind: Kind, x: nat, day: int, from: int, upto: int)
    requires from <= day < upto && x in FirstIds(ds, kind, day, day + 1)
    ensures x in FirstIds(ds, kind, from, upto)
  {
    hide Day, IsFirst;
  }

  lemma DayOf(ds: seq<Delivery>, kind: Kind, x: nat, from: int, upto: int) returns (day: int)
    requires x in FirstIds(ds, kind, from, upto)
    ensures from <= day < upto && x in FirstIds(ds, kind, day, day + 1)
  {
    hide Day, IsFirst;
    var i :| 0 <= i < |ds| && IsFirst(ds, i) && Within(ds[i], kind, from, upto) && ds[i].id == x;
    day := Day(ds[i].at);
    assert Within(ds[i], kind, day, day + 1);
  }

  /** The first day that starts no earlier than `t`. */
  function CeilDay(t: int): int { -((-t) / NANOS_PER_DAY) }

  lemma CeilDayMeans(t: int, day: int)
    ensures t <= day * NANOS_PER_DAY <==> CeilDay(t) <= day
  {}

  /** The events of one kind whose first delivery carried a time in [from, to). */
  ghost function EventsBetween(ds: seq<Delivery>, kind: Kind, from: int, to: int): set<nat> {
    set i | 0 <= i < |ds| && IsFirst(ds, i) && ds[i].kind == kind && from <= ds[i].at < to :: ds[i].id
  }

  /**
   Summing a counter over the rows of a query counts the distinct events with from <= time < to, both
   bounds moved up to the start of a day; for bounds on day boundaries that is the range asked for.
   */
  lemma QueryCountsEvents(ds: seq<Delivery>, kind: Kind, from: int, to: int, out: seq<ReportRow>)
    requires Reports(Project(ds).rows, CeilDay(from), CeilDay(to), out)
    ensures Sum(out, kind) == |EventsBetween(ds, kind, CeilDay(from) * NANOS_PER_DAY, CeilDay(to) * NANOS_PER_DAY)|
    ensures from % NANOS_PER_DAY == 0 && to % NANOS_PER_DAY == 0 ==> Sum(out, kind) == |EventsBetween(ds, kind, from, to)|
  {
    hide Sum, Listed, IsFirst, Project;
    SumIsListed(ds, kind, out);
    ListedIsRange(ds, kind, CeilDay(from), CeilDay(to), out);
    SameRange(ds, kind, CeilDay(from), CeilDay(to));
    hide FirstIds, EventsBetween;
    AlignedCeil(from);
    AlignedCeil(to);
  }

  lemma AlignedCeil(t: int)
    ensures t % NANOS_PER_DAY == 0 ==> CeilDay(t) * NANOS_PER_DAY == t
  {}

  lemma SameRange(ds: seq<Delivery>, kind: Kind, from: int, upto: int)
    ensures FirstIds(ds, kind, from, upto) == EventsBetween(ds, kind, from * NANOS_PER_DAY, upto * NANOS_PER_DAY)
  {
    forall d: Delivery ensures Within(d, kind, from, upto) <==> d.kind == kind && from * NANOS_PER_DAY <= d.at < upto * NANOS_PER_DAY {
      DayBounds(d.at, from);
      DayBounds(d.at, upto);
    }
    hide Within, IsFirst;
  }

  lemma DayBounds(at: int, day: int)
    ensures day <= Day(at) <==> day * NANOS_PER_DAY <= at
  {}

  /** Over all days the three counters sum to the size of the processed set. */
  lemma CountersSumToProcessed(ds: seq<Delivery>, from: int, upto: int, out: seq<ReportRow>)
    requires Reports(Project(ds).rows, from, upto, out)
    requires forall i :: 0 <= i < |ds| ==> from <= Day(ds[i].at) < upto
    ensures Sum(out, Defined) + Sum(out, Revised) + Sum(out, Deactivated) == |Project(ds).seen|
  {
    hide FirstIds, Project, Sum, Listed, Day, Reports, Ids;
    SumIs(ds, Defined, from, upto, out);
    SumIs(ds, Revised, from, upto, out);
    SumIs(ds, Deactivated, from, upto, out);
    CountersCountFirstDeliveries(ds, Defined, 0);
    var a, b, c := FirstIds(ds, Defined, from, upto), FirstIds(ds, Revised, from, upto), FirstIds(ds, Deactivated, from, upto);
    forall x ensures x in Ids(ds) <==> x in a || x in b || x in c { OneKind(ds, x, from, upto); }
    forall x ensures !(x in a && x in b) && !(x in a + b && x in c) { OneKind(ds, x, from, upto); }
    assert Ids(ds) == a + b + c;
    CountUnion(a, b);
    CountUnion(a + b, c);
  }

  lemma SumIs(ds: seq<Delivery>, kind: Kind, from: int, upto: int, out: seq<ReportRow>)
    requires Reports(Project(ds).rows, from, upto, out)
    ensures Sum(out, kind) == |FirstIds(ds, kind, from, upto)|
  {
    hide FirstIds, Project, Sum, Listed, Day;
    SumIsListed(ds, kind, out);
    ListedIsRange(ds, kind, from, upto, out);
  }

  /** Every event has exactly one kind. */
  lemma OneKind(ds: seq<Delivery>, x: nat, from: int, upto: int)
    requires forall i :: 0 <= i < |ds| ==> from <= Day(ds[i].at) < upto
    ensures x in Ids(ds) <==> exists kind :: x in FirstIds(ds, kind, from, upto)
    ensures forall kind, kind' :: x in FirstIds(ds, kind, from, upto) && x in FirstIds(ds, kind', from, upto) ==> kind == kind'
  {
    hide FirstIds, Day, Ids;
    if x in Ids(ds) { FirstOf(ds, x, from, upto); }
    if kind :| x in FirstIds(ds, kind, from, upto) { FirstIdsGrow(ds, Delivery(x, kind, 0), kind, from, upto); }
    forall kind, kind' | x in FirstIds(ds, kind, from, upto) && x in FirstIds(ds, kind', from, upto) ensures kind == kind' {
      var day := DayOf(ds, kind, x, from, upto);
      OneDayEach(ds, x, kind, kind', day, from, upto);
    }
  }

  lemma FirstOf(ds: seq<Delivery>, x: nat, from: int, upto: int)
    requires x in Ids(ds) && forall i :: 0 <= i < |ds| ==> from <= Day(ds[i].at) < upto
    ensures exists kind :: x in FirstIds(ds, kind, from, upto)
  {
    var i := FirstIndex(ds, x);
    assert x in FirstIds(ds, ds[i].kind, from, upto) by { hide Day; }
  }

  lemma {:induction false} FirstIndex(ds: seq<Delivery>, x: nat) returns (i: nat)
    requires x in Ids(ds)
    ensures IsFirst(ds, i) && ds[i].id == x
  {
    var t, d := ds[..|ds| - 1], ds[|ds| - 1];
    assert ds == t + [d];
    IdsGrow(t, d);
    if x in Ids(t) {
      i := FirstIndex(t, x);
      StillFirst(t, d, i);
    } else {
      i := |ds| - 1;
    }
  }

  // ---- order and repetition ----

  /** Redeliveries of an event carry the same kind and time. */
  ghost predicate Consistent(ds: seq<Delivery>) {
    forall i, j :: 0 <= i < |ds| && 0 <= j < |ds| && ds[i].id == ds[j].id ==> ds[i] == ds[j]
  }

  lemma {:induction false} RowsAreNonZero(ds: seq<Delivery>, day: int)
    ensures day in Project(ds).rows ==> Project(ds).rows[day] != NO_ROW
  {
    hide Day;
    if ds != [] { RowsAreNonZero(ds[..|ds| - 1], day); }
  }

  lemma FirstIdsOfSame(a: seq<Delivery>, b: seq<Delivery>, kind: Kind, from: int, upto: int)
    requires Consistent(b) && forall d :: d in a ==> d in b
    ensures FirstIds(a, kind, from, upto) <= FirstIds(b, kind, from, upto)
  {
    forall x | x in FirstIds(a, kind, from, upto) ensures x in FirstIds(b, kind, from, upto) {
      hide Within;
      var i :| 0 <= i < |a| && IsFirst(a, i) && Within(a[i], kind, from, upto) && a[i].id == x;
      assert a[i] in b;
      var k :| 0 <= k < |b| && b[k] == a[i];
      IsAnId(b, k);
      var j := FirstIndex(b, x);
      assert b[j] == b[k];
    }
  }

  /** Neither the order of deliveries nor how often each is repeated shows in the stores. */
  lemma ProjectionIgnoresOrderAndRepeats(a: seq<Delivery>, b: seq<Delivery>)
    requires Consistent(a) && Consistent(b) && forall d :: d in a <==> d in b
    ensures Project(a) == Project(b)
  {
    hide Project, FirstIds, Consistent, RowAt;
    var ra, rb := Project(a).rows, Project(b).rows;
    forall day ensures RowAt(ra, day) == RowAt(rb, day) {
      forall kind ensures Counter(RowAt(ra, day), kind) == Counter(RowAt(rb, day), kind) {
        CountersCountFirstDeliveries(a, kind, day);
        CountersCountFirstDeliveries(b, kind, day);
        FirstIdsOfSame(a, b, kind, day, day + 1);
        FirstIdsOfSame(b, a, kind, day, day + 1);
        assert FirstIds(a, kind, day, day + 1) == FirstIds(b, kind, day, day + 1);
      }
      SameCounters(RowAt(ra, day), RowAt(rb, day));
    }
    forall day ensures (day in ra <==> day in rb) && (day in ra ==> ra[day] == rb[day]) {
      RowsAreNonZero(a, day);
      RowsAreNonZero(b, day);
      SameRowAt(ra, rb, day);
    }
    assert ra == rb;
    CountersCountFirstDeliveries(a, Defined, 0);
    CountersCountFirstDeliveries(b, Defined, 0);
    SameIds(a, b);
  }

  lemma SameRowAt(ra: map<int, Row>, rb: map<int, Row>, day: int)
    requires RowAt(ra, day) == RowAt(rb, day)
    requires day in ra ==> ra[day] != NO_ROW
    requires day in rb ==> rb[day] != NO_ROW
    ensures (day in ra <==> day in rb) && (day in ra ==> ra[day] == rb[day])
  {}

  lemma SameCounters(x: Row, y: Row)
    requires forall kind :: Counter(x, kind) == Counter(y, kind)
    ensures x == y
  {
    assert Counter(x, Defined) == Counter(y, Defined) && Counter(x, Revised) == Counter(y, Revised);
    assert Counter(x, Deactivated) == Counter(y, Deactivated);
  }

  lemma SameIds(a: seq<Delivery>, b: seq<Delivery>)
    requires forall d :: d in a <==> d in b
    ensures Ids(a) == Ids(b)
  {
    forall x ensures x in Ids(a) <==> x in Ids(b) {
      if x in Ids(a) {
        var i :| 0 <= i < |a| && a[i].id == x;
        assert a[i] in b;
      }
      if x in Ids(b) {
        var i :| 0 <= i < |b| && b[i].id == x;
        assert b[i] in a;
      }
    }
  }
}
