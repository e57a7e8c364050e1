/** The projection's two implementations and the consumer's dedupe gate, as the code updates them. */
module AnalyticsStores {
  import opened Shared
  import opened Analytics

  lemma ProjectSnoc(ds: seq<Delivery>, d: Delivery)
    ensures Project(ds + [d]) == Applied(Project(ds), d)
  {
    assert (ds + [d])[..|ds|] == ds;
  }

  /** A delivery of an event already applied changes nothing: a retry after a lost acknowledgement is safe. */
  lemma RedeliveryChangesNothing(ds: seq<Delivery>, d: Delivery)
    requires d.id in Ids(ds)
    ensures Project(ds + [d]) == Project(ds)
  {
    ProjectSnoc(ds, d);
    CountersCountFirstDeliveries(ds, d.kind, 0);
  }

  /** The increment each Apply method hands to `mutate`. */
  function Increment(r: Row, kind: Kind): (n: Row)
    ensures forall k :: Counter(n, k) == Counter(r, k) + (if k == kind then 1 else 0)
  {
    match kind
    case Defined => r.(defined := r.defined + 1)
    case Revised => r.(revised := r.revised + 1)
    case Deactivated => r.(deactivated := r.deactivated + 1)
  }

  lemma IncrementAddsDelta(r: Row, kind: Kind)
    ensures Increment(r, kind) == Add(r, Delta(kind))
  {}

  lemma AppliedIncrement(t: Tally, d: Delivery, rows: map<int, Row>)
    requires d.id !in t.seen && rows == t.rows[Day(d.at) := Increment(RowAt(t.rows, Day(d.at)), d.kind)]
    ensures Applied(t, d) == Tally(t.seen + {d.id}, rows)
  {
    hide Day, Increment, Add, Delta, RowAt;
    IncrementAddsDelta(RowAt(t.rows, Day(d.at)), d.kind);
  }

  /** The day's row gained `delta`, column by column; no other day's row moved. */
  ghost predicate Moved(rows: map<int, Row>, n: map<int, Row>, day: int, delta: Row) {
    && (forall x :: x != day ==> (x in n <==> x in rows) && (x in n ==> n[x] == rows[x]))
    && var was, now := if day in rows then rows[day] else Row(0, 0, 0), if day in n then n[day] else Row(0, 0, 0);
    && now.defined == was.defined + delta.defined && now.revised == was.revised + delta.revised
    && now.deactivated == was.deactivated + delta.deactivated
  }

  lemma AppliedMoves(t: Tally, d: Delivery, day: int)
    requires day == Day(d.at)
    ensures var n := Applied(t, d);
            && n.seen == t.seen + {d.id}
            && Moved(t.rows, n.rows, day, if d.id in t.seen then Row(0, 0, 0) else if d.kind.Defined? then Row(1, 0, 0) else if d.kind.Revised? then Row(0, 1, 0) else Row(0, 0, 1))
  {
    hide Day, Moved;
    if d.id in t.seen {
      assert t.seen + {d.id} == t.seen;
      StaysPut(t.rows, day);
    } else {
      Gains(t.rows, day, Delta(d.kind));
    }
  }

  lemma StaysPut(rows: map<int, Row>, day: int)
    ensures Moved(rows, rows, day, Row(0, 0, 0))
  {}

  lemma Gains(rows: map<int, Row>, day: int, delta: Row)
    ensures Moved(rows, rows[day := Add(RowAt(rows, day), delta)], day, delta)
  {}

  /** What one delivery does to the tables, column by column. */
  lemma OneApply(ds: seq<Delivery>, id: nat, kind: Kind, at: int)
    ensures var t, n := Project(ds), Project(ds + [Delivery(id, kind, at)]);
            && n.seen == t.seen + {id}
            && Moved(t.rows, n.rows, at / NANOS_PER_DAY, if id in t.seen then Row(0, 0, 0) else if kind.Defined? then Row(1, 0, 0) else if kind.Revised? then Row(0, 1, 0) else Row(0, 0, 1))
  {
    hide Project, Moved, Applied;
    ProjectSnoc(ds, Delivery(id, kind, at));
    AppliedMoves(Project(ds), Delivery(id, kind, at), at / NANOS_PER_DAY);
  }

  lemma Duplicate(t: Tally, d: Delivery)
    requires d.id in t.seen
    ensures Applied(t, d) == t
  {}

  /** A nonempty key set has a next key to iterate over. */
  lemma HasDay(days: set<int>)
    ensures days == {} || exists day :: day in days
  {
    assert (forall day :: day !in days) ==> days == {};
  }

  class MemoryStore {
    var seen: set<nat>
    var rows: map<int, Row>
    ghost var deliveries: seq<Delivery>

    ghost predicate Valid()
      reads this
    {
      Tally(seen, rows) == Project(deliveries)
    }

    constructor ()
      ensures Valid() && deliveries == []
    {
      seen, rows, deliveries := {}, map[], [];
    }

    method FirstApply(id: nat) returns (first: bool)
      modifies this`seen
      ensures first <==> id !in old(seen)
      ensures seen == old(seen) + {id}
    {
      if id in seen { return false; }
      seen := seen + {id};
      return true;
    }

    /** The day's row, created empty when missing. */
    method RowFor(at: int) returns (day: int)
      modifies this`rows
      ensures day == Day(at) && day in rows && rows[day] == RowAt(old(rows), day) && rows == old(rows)[day := rows[day]]
    {
      day := Day(at);
      if day !in rows { rows := rows[day := NO_ROW]; }
    }

    /** The shared body of the Apply methods. */
    method Mutate(id: nat, at: int, kind: Kind)
      requires Valid()
      modifies this
      ensures Valid() && deliveries == old(deliveries) + [Delivery(id, kind, at)]
      ensures id in old(seen) ==> seen == old(seen) && rows == old(rows)
    {
      hide Day, Project, Increment, Applied, RowAt;
      ghost var was := Tally(seen, rows);
      ProjectSnoc(deliveries, Delivery(id, kind, at));
      deliveries := deliveries + [Delivery(id, kind, at)];
      var first := FirstApply(id);
      if !first {
        Duplicate(was, Delivery(id, kind, at));
        return;
      }
      var day := RowFor(at);
      var r := rows[day];
      rows := rows[day := Increment(r, kind)];
      AppliedIncrement(was, Delivery(id, kind, at), rows);
    }

    method ApplyProcessPathCreated(id: nat, at: int)
      requires Valid()
      modifies this
      ensures Valid() && deliveries == old(deliveries) + [Delivery(id, Defined, at)] && seen == old(seen) + {id}
      ensures Moved(old(rows), rows, at / NANOS_PER_DAY, if id in old(seen) then Row(0, 0, 0) else Row(1, 0, 0))
    {
      hide Moved, Project;
      OneApply(deliveries, id, Defined, at);
      Mutate(id, at, Defined);
    }

    method ApplyProcessPathUpdated(id: nat, at: int)
      requires Valid()
      modifies this
      ensures Valid() && deliveries == old(deliveries) + [Delivery(id, Revised, at)] && seen == old(seen) + {id}
      ensures Moved(old(rows), rows, at / NANOS_PER_DAY, if id in old(seen) then Row(0, 0, 0) else Row(0, 1, 0))
    {
      hide Moved, Project;
      OneApply(deliveries, id, Revised, at);
      Mutate(id, at, Revised);
    }

    method ApplyProcessPathDeactivated(id: nat, at: int)
      requires Valid()
      modifies this
      ensures Valid() && deliveries == old(deliveries) + [Delivery(id, Deactivated, at)] && seen == old(seen) + {id}
      ensures Moved(old(rows), rows, at / NANOS_PER_DAY, if id in old(seen) then Row(0, 0, 0) else Row(0, 0, 1))
    {
      hide Moved, Project;
      OneApply(deliveries, id, Deactivated, at);
      Mutate(id, at, Deactivated);
    }

    /** The rows with `from` <= bucket < `to`, in no particular order. */
    method Query(from: int, to: int) returns (out: seq<ReportRow>)
      requires Valid()
      ensures Reports(rows, CeilDay(from), CeilDay(to), out)
      ensures forall day :: day in rows && from <= day * NANOS_PER_DAY < to <==> exists i :: 0 <= i < |out| && out[i].day == day
      ensures forall i :: 0 <= i < |out| ==> out[i].day in rows && out[i].row == rows[out[i].day]
      ensures forall kind :: Sum(out, kind) == |EventsBetween(deliveries, kind, CeilDay(from) * NANOS_PER_DAY, CeilDay(to) * NANOS_PER_DAY)|
    {
      hide CeilDay, Project;
      out := [];
      var table := rows;
      var rest := table.Keys;
      while rest != {}
        invariant rest <= table.Keys
        invariant forall i, j :: 0 <= i < j < |out| ==> out[i].day != out[j].day
        invariant forall i :: 0 <= i < |out| ==>
          CeilDay(from) <= out[i].day < CeilDay(to) && out[i].day in table.Keys - rest && out[i].row == table[out[i].day]
        invariant forall day :: day in table && day !in rest && CeilDay(from) <= day < CeilDay(to) ==>
          exists i :: 0 <= i < |out| && out[i].day == day
        decreases rest
      {
        HasDay(rest);
        var day :| day in rest;
        rest := rest - {day};
        CeilDayMeans(from, day);
        CeilDayMeans(to, day);
        if day * NANOS_PER_DAY < from || !(day * NANOS_PER_DAY < to) { continue; }
        ghost var was := out;
        out := out + [ReportRow(day, table[day])];
        assert out[|was|].day == day && forall i :: 0 <= i < |was| ==> out[i] == was[i];
      }
      forall day ensures day in rows && from <= day * NANOS_PER_DAY < to <==> exists i :: 0 <= i < |out| && out[i].day == day {
        CeilDayMeans(from, day);
        CeilDayMeans(to, day);
      }
      forall kind ensures Sum(out, kind) == |EventsBetween(deliveries, kind, CeilDay(from) * NANOS_PER_DAY, CeilDay(to) * NANOS_PER_DAY)| {
        QueryCountsEvents(deliveries, kind, from, to, out);
      }
    }
  }

  /** An error of the database, or of a commit whose acknowledgement was lost. */
  class PostgresProjection {
    const calm: bool
    var processed: set<nat>
    var rollup: map<int, Row>
    ghost var deliveries: seq<Delivery>   // those whose transaction committed

    ghost predicate Valid()
      reads this
    {
      Tally(processed, rollup) == Project(deliveries)
    }

    constructor (calm: bool)
      ensures Valid() && deliveries == [] && this.calm == calm
    {
      this.calm, processed, rollup, deliveries := calm, {}, map[], [];
    }

    method Strikes() returns (fault: bool)
      ensures calm ==> !fault
    {
      fault := *;
      if calm { fault := false; }
    }

    /** INSERT the day's row, or add the delta to it. */
    method UpsertRollup(rows: map<int, Row>, at: int, delta: Row) returns (n: map<int, Row>)
      ensures n == rows[Day(at) := Add(RowAt(rows, Day(at)), delta)]
    {
      hide Day;
      var bucket := Day(at);
      if bucket in rows { n := rows[bucket := Add(rows[bucket], delta)]; } else { n := rows[bucket := delta]; }
    }

    /** One transaction: claim the event, then count it if the claim is new. On error it took effect whole or not at all. */
    method Apply(id: nat, at: int, kind: Kind) returns (ok: bool)
      requires Valid()
      modifies this
      ensures Valid()
      ensures deliveries == old(deliveries) + [Delivery(id, kind, at)] || (!ok && deliveries == old(deliveries))
      ensures calm ==> ok
    {
      hide Day, Project, Add, Delta;
      ghost var d := Delivery(id, kind, at);
      var fault := Strikes();
      if fault { return false; }
      var claimed, counted := processed + {id}, rollup;
      if id !in processed {
        var refused := Strikes();
        if refused { return false; }
        counted := UpsertRollup(rollup, at, Delta(kind));
      }
      var lost := Strikes();
      var undone := Strikes();
      if undone { return false; }
      ProjectSnoc(deliveries, d);
      assert id in processed ==> claimed == processed;
      processed, rollup, deliveries := claimed, counted, deliveries + [d];
      return !lost;
    }

    method ApplyProcessPathCreated(id: nat, at: int) returns (ok: bool)
      requires Valid()
      modifies this
      ensures Valid() && (calm ==> ok)
      ensures (processed == old(processed) + {id} && Moved(old(rollup), rollup, at / NANOS_PER_DAY, if id in old(processed) then Row(0, 0, 0) else Row(1, 0, 0)))
              || (!ok && processed == old(processed) && rollup == old(rollup))
    {
      hide Moved, Project;
      OneApply(deliveries, id, Defined, at);
      ok := Apply(id, at, Defined);
    }

    method ApplyProcessPathUpdated(id: nat, at: int) returns (ok: bool)
      requires Valid()
      modifies this
      ensures Valid() && (calm ==> ok)
      ensures (processed == old(processed) + {id} && Moved(old(rollup), rollup, at / NANOS_PER_DAY, if id in old(processed) then Row(0, 0, 0) else Row(0, 1, 0)))
              || (!ok && processed == old(processed) && rollup == old(rollup))
    {
      hide Moved, Project;
      OneApply(deliveries, id, Revised, at);
      ok := Apply(id, at, Revised);
    }

    method ApplyProcessPathDeactivated(id: nat, at: int) returns (ok: bool)
      requires Valid()
      modifies this
      ensures Valid() && (calm ==> ok)
      ensures (processed == old(processed) + {id} && Moved(old(rollup), rollup, at / NANOS_PER_DAY, if id in old(processed) then Row(0, 0, 0) else Row(0, 0, 1)))
              || (!ok && processed == old(processed) && rollup == old(rollup))
    {
      hide Moved, Project;
      OneApply(deliveries, id, Deactivated, at);
      ok := Apply(id, at, Deactivated);
    }
  }

  /**
   After the same deliveries, in whatever order and however often each was repeated on either side, the
   Postgres form and the in-memory form hold the same rows and ids.
   */
  lemma FormsAgree(m: MemoryStore, p: PostgresProjection)
    requires m.Valid() && p.Valid()
    requires forall i, j :: 0 <= i < j < |m.deliveries| && m.deliveries[i].id == m.deliveries[j].id ==> m.deliveries[i] == m.deliveries[j]
    requires forall i, j :: 0 <= i < j < |p.deliveries| && p.deliveries[i].id == p.deliveries[j].id ==> p.deliveries[i] == p.deliveries[j]
    requires forall d :: d in m.deliveries <==> d in p.deliveries
    ensures m.rows == p.rollup && m.seen == p.processed
  {
    assert Consistent(m.deliveries) && Consistent(p.deliveries);
    hide Project, Consistent;
    ProjectionIgnoresOrderAndRepeats(m.deliveries, p.deliveries);
  }

  class ConsumedEventsRepo {
    const calm: bool
    var consumed: set<nat>

    constructor (calm: bool)
      ensures consumed == {} && this.calm == calm
    {
      this.calm, consumed := calm, {};
    }

    /** INSERT … ON CONFLICT DO NOTHING outside any transaction; an error may hide that it took effect. */
    method MarkProcessed(id: nat) returns (isNew: Option<bool>)
      modifies this
      ensures isNew.Some? ==> consumed == old(consumed) + {id} && isNew.value == (id !in old(consumed))
      ensures isNew.None? ==> consumed == old(consumed) || consumed == old(consumed) + {id}
      ensures calm ==> isNew.Some?
    {
      var fails, undone := *, *;
      if calm { fails := false; }
      if fails && undone { return None; }
      var unseen := id !in consumed;
      consumed := consumed + {id};
      return if fails then None else Some(unseen);
    }
  }
}
