/**
 ProcessPathRepo over its table: the upsert, the load, and the duration column
 (internal/adapters/outbound/postgres/process_path_repo.go, migrations/0001, 0004, 0005).
 */
module PathStore {
  import opened Shared
  import opened ProcessPaths
  import opened Catalogue

  /** The INTERVAL wire form. `micros` is 64 bits wide, `days` and `months` are 32. */
  datatype Interval = Interval(micros: int, days: int, months: int, valid: bool)

  function DurationToInterval(d: int): Interval { Interval(TruncDiv(d, NANOS_PER_MICRO), 0, 0, true) }

  /** Each product and sum is a 64-bit one. */
  function DurationOf(iv: Interval): int {
    if !iv.valid then 0
    else Wrap64(Wrap64(Wrap64(iv.micros * NANOS_PER_MICRO) + Wrap64(iv.days * NANOS_PER_DAY))
                + Wrap64(iv.months * Wrap64(30 * NANOS_PER_DAY)))
  }

  /** A register's value differs from the true one by whole turns. */
  lemma WholeTurns(x: int) returns (q: int)
    ensures Wrap64(x) == x + q * 0x1_0000_0000_0000_0000 && InInt64(Wrap64(x))
  {
    q := -((x - INT64_MIN) / 0x1_0000_0000_0000_0000);
  }

  lemma TurnsAway(q: int)
    ensures q * 0x1_0000_0000_0000_0000 % 0x1_0000_0000_0000_0000 == 0
  {}

  /** The sum of a microsecond, a 24-hour and a 30-day component, in 64 bits. */
  lemma DurationIsModular(iv: Interval)
    ensures iv.valid ==> InInt64(DurationOf(iv))
    ensures iv.valid ==>
      (DurationOf(iv) - (iv.micros * 1000 + iv.days * 86_400_000_000_000 + iv.months * 2_592_000_000_000_000)) % 0x1_0000_0000_0000_0000 == 0
  {
    if iv.valid {
      var month := 30 * NANOS_PER_DAY;
      Wrap64Fits(month);
      hide Wrap64;
      var a := WholeTurns(iv.micros * NANOS_PER_MICRO);
      var b := WholeTurns(iv.days * NANOS_PER_DAY);
      var c := WholeTurns(Wrap64(iv.micros * NANOS_PER_MICRO) + Wrap64(iv.days * NANOS_PER_DAY));
      var d := WholeTurns(iv.months * month);
      var e := WholeTurns(Wrap64(Wrap64(iv.micros * NANOS_PER_MICRO) + Wrap64(iv.days * NANOS_PER_DAY)) + Wrap64(iv.months * month));
      TurnsAway(a + b + c + d + e);
    }
  }

  method IntervalToDuration(iv: Interval) returns (d: int)
    ensures d == DurationOf(iv)
    ensures iv.valid && iv.days == 0 && iv.months == 0 && InInt64(iv.micros * NANOS_PER_MICRO) ==> d == iv.micros * NANOS_PER_MICRO
    ensures !iv.valid ==> d == 0
    ensures iv.valid ==> -0x8000_0000_0000_0000 <= d < 0x8000_0000_0000_0000
    ensures iv.valid ==>
      (d - (iv.micros * 1000 + iv.days * 86_400_000_000_000 + iv.months * 2_592_000_000_000_000)) % 0x1_0000_0000_0000_0000 == 0
  {
    DurationIsModular(iv);
    if !iv.valid { return 0; }
    if iv.days == 0 && iv.months == 0 && InInt64(iv.micros * NANOS_PER_MICRO) { DurationOfMicros(iv.micros); }
    hide Wrap64;
    d := Wrap64(iv.micros * NANOS_PER_MICRO);
    d := Wrap64(d + Wrap64(iv.days * NANOS_PER_DAY));
    d := Wrap64(d + Wrap64(iv.months * Wrap64(30 * NANOS_PER_DAY)));
  }

  lemma Wrap64Fits(x: int)
    ensures InInt64(x) ==> Wrap64(x) == x
  {}

  /** Truncation toward zero. */
  lemma WholeMicrosBounds(d: int)
    ensures var e := WholeMicros(d); if d >= 0 then 0 <= d - e < NANOS_PER_MICRO else 0 <= e - d < NANOS_PER_MICRO
    ensures if d >= 0 then WholeMicros(d) >= 0 else WholeMicros(d) <= 0
    ensures WholeMicros(d) == d <==> d % NANOS_PER_MICRO == 0
  {}

  lemma DurationOfMicros(m: int)
    requires InInt64(m * NANOS_PER_MICRO)
    ensures DurationOf(Interval(m, 0, 0, true)) == m * NANOS_PER_MICRO
  {
    hide Wrap64;
    Wrap64Fits(m * NANOS_PER_MICRO);
    Wrap64Fits(0);
    assert 0 * Wrap64(30 * NANOS_PER_DAY) == 0;
  }

  /**
   Through the column and back, any 64-bit duration loses its sub-microsecond part toward zero, with no
   overflow, and a second trip loses nothing.
   */
  lemma DurationRoundTrip(d: int)
    requires InInt64(d)
    ensures var e := DurationOf(DurationToInterval(d));
            && e == WholeMicros(d) && InInt64(e) && (if d >= 0 then 0 <= d - e < NANOS_PER_MICRO else 0 <= e - d < NANOS_PER_MICRO)
            && DurationOf(DurationToInterval(e)) == e
            && (e == d <==> d % NANOS_PER_MICRO == 0)
            && e % 1000 == 0 && -1000 < e - d < 1000
  {
    hide DurationOf;
    var e := WholeMicros(d);
    WholeMicrosBounds(d);
    WholeMicrosTwice(d);
    DurationOfMicros(TruncDiv(d, NANOS_PER_MICRO));
    DurationOfMicros(TruncDiv(e, NANOS_PER_MICRO));
  }

  /** NULL, not the empty string, for a role that is not declared. */
  function RoleToColumn(role: string): Option<string> { if role == "" then None else Some(role) }

  function RoleFromColumn(column: Option<string>): string { if column.Some? then column.value else "" }

  function StatusToColumn(s: Status): string { if s.Active? then "ACTIVE" else "DEACTIVATED" }

  datatype PathRow = PathRow(
    matchPrefix: string, direct: bool, capabilities: seq<string>, role: Option<string>, cycleTime: Interval,
    eligibility: Eligibility, status: string, createdAt: int, updatedAt: int)

  /** The VALUES of the insert, as the columns keep them. */
  function RowOf(p: Path): PathRow {
    PathRow(p.def.matchPrefix, p.def.direct, p.def.capabilities, RoleToColumn(p.def.role), DurationToInterval(p.def.cycleTime),
            p.def.eligibility, StatusToColumn(p.status), ColumnTime(p.createdAt), ColumnTime(p.updatedAt))
  }

  /** `scanProcessPath`. */
  function PathOf(id: string, row: PathRow): Path {
    Path(id, Definition(row.matchPrefix, row.direct, row.capabilities, RoleFromColumn(row.role), DurationOf(row.cycleTime), row.eligibility),
         if row.status == "ACTIVE" then Active else Deactivated, row.createdAt, row.updatedAt)
  }

  class ProcessPathRepo {
    var rows: map<string, PathRow>

    /** The table as its loads present it. */
    function Contents(): map<string, Path>
      reads this
    {
      map id | id in rows :: PathOf(id, rows[id])
    }

    constructor ()
      ensures Contents() == map[]
    {
      rows := map[];
    }

    /** INSERT … ON CONFLICT (id) DO UPDATE, leaving `direct`, the role and `created_at` of an existing row alone. */
    method Save(p: Path)
      requires InInt64(p.def.cycleTime)
      modifies this
      ensures Contents() == old(Contents())[p.id := StoredPath(if p.id in old(Contents()) then Some(old(Contents())[p.id]) else None, p)]
      ensures p.id in rows && rows == old(rows)[p.id := rows[p.id]]
      ensures var row := rows[p.id];
              && row.matchPrefix == p.def.matchPrefix && row.capabilities == p.def.capabilities && row.eligibility == p.def.eligibility
              && row.status == (if p.status == Active then "ACTIVE" else "DEACTIVATED")
              && row.cycleTime.valid && row.cycleTime.days == 0 && row.cycleTime.months == 0
              && -1000 < p.def.cycleTime - row.cycleTime.micros * 1000 < 1000
              && if p.id in old(rows) then (row.direct, row.role, row.createdAt) == (old(rows)[p.id].direct, old(rows)[p.id].role, old(rows)[p.id].createdAt)
                 else row.direct == p.def.direct && row.role == (if p.def.role == "" then None else Some(p.def.role))
    {
      DurationRoundTrip(p.def.cycleTime);
      var x := RowOf(p);
      if p.id in rows {
        x := rows[p.id].(matchPrefix := x.matchPrefix, capabilities := x.capabilities, cycleTime := x.cycleTime,
                         eligibility := x.eligibility, status := x.status, updatedAt := x.updatedAt);
      }
      rows := rows[p.id := x];
      assert PathOf(p.id, x) == StoredPath(if p.id in old(Contents()) then Some(old(Contents())[p.id]) else None, p);
    }

    method FindByID(id: string) returns (found: Option<Path>)
      ensures found == if id in Contents() then Some(Contents()[id]) else None
    {
      if id !in rows { return None; }
      return Some(PathOf(id, rows[id]));
    }
  }

  /**
   Save and reload keep every field of a new path but the sub-microsecond parts, and doing it again keeps
   everything; revising an existing path keeps its immutable columns whatever the saved value says.
   */
  lemma SaveAndReload(existing: Option<Path>, p: Path)
    requires InInt64(p.def.cycleTime) && (existing.Some? ==> existing.value.id == p.id)
    ensures var q := StoredPath(existing, p);
            && q.def == p.def.(cycleTime := q.def.cycleTime, direct := q.def.direct, role := q.def.role) && q.status == p.status && q.id == p.id
            && q.def.cycleTime == DurationOf(DurationToInterval(p.def.cycleTime))
            && 0 <= p.updatedAt - q.updatedAt < 1000 && q.updatedAt % 1000 == 0
            && (existing.None? ==> q.def.direct == p.def.direct && q.def.role == p.def.role
                                   && 0 <= p.createdAt - q.createdAt < 1000 && q.createdAt % 1000 == 0)
            && q.def.matchPrefix == p.def.matchPrefix && q.def.capabilities == p.def.capabilities && q.def.eligibility == p.def.eligibility
            && (existing.Some? ==> q.def.direct == existing.value.def.direct && q.def.role == existing.value.def.role
                                   && q.createdAt == existing.value.createdAt)
            && StoredPath(Some(q), q) == q && StoredPath(None, q).def == q.def
  {
    hide DurationOf, WholeMicros;
    DurationRoundTrip(p.def.cycleTime);
    WholeMicrosTwice(p.def.cycleTime);
  }

  /** After a reload, the revision that repeats the saved definition reports no change exactly for whole microseconds. */
  lemma RevisionAfterReload(env: Env, p: Path, now: int)
    requires p.status == Active && DefinitionFault(env, p.def).None? && InInt64(p.def.cycleTime)
    ensures var q := StoredPath(None, p);
            var rev := Revision(p.def.matchPrefix, p.def.capabilities, p.def.cycleTime, p.def.eligibility);
            && RevisedPath(env, q, rev, now).Ok?
            && (RevisedPath(env, q, rev, now).value == q && Revised(q.def, rev) == q.def <==> p.def.cycleTime % NANOS_PER_MICRO == 0)
            && Revised(q.def, rev) == p.def
  {
    DurationRoundTrip(p.def.cycleTime);
  }
}
