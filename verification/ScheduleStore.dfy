/**
 CPTScheduleRepo over its two tables: wholesale replacement of a site's cutoffs, and the ordered load
 (internal/adapters/outbound/postgres/cpt_schedule_repo.go, migrations/0005).
 */
module ScheduleStore {
  import opened Shared
  import opened CptSchedules
  import opened Catalogue

  datatype Header = Header(timezone: string, createdAt: int, updatedAt: int)

  /** A cutoff's columns beside its primary key (site, cpt_id). */
  datatype CutoffRow = CutoffRow(localTime: string, daysOfWeek: seq<string>, shipMethod: string, eligiblePathIds: seq<string>)

  function RowOf(c: Cutoff): CutoffRow { CutoffRow(c.localTime, c.daysOfWeek, c.shipMethod, c.eligiblePathIds) }

  function CutoffOf(cptId: string, r: CutoffRow): Cutoff {
    Cutoff(cptId, r.localTime, r.daysOfWeek, r.shipMethod, r.eligiblePathIds)
  }

  type Rows = map<(string, string), CutoffRow>

  ghost predicate HasRow(rows: Rows, site: string, c: Cutoff) {
    (site, c.cptId) in rows && rows[(site, c.cptId)] == RowOf(c)
  }

  /** The rows of `site` are exactly the schedule's cutoffs, listed in cptId order. */
  ghost predicate Lists(before: (string, string) -> bool, rows: Rows, site: string, cutoffs: seq<Cutoff>) {
    && Ascending(before, CptIds(cutoffs))
    && (forall c :: c in cutoffs <==> HasRow(rows, site, c))
  }

  ghost predicate Holds(before: (string, string) -> bool, headers: map<string, Header>, rows: Rows, site: string, s: Schedule) {
    && s.siteId == site && site in headers && headers[site] == Header(s.timezone, s.createdAt, s.updatedAt)
    && Lists(before, rows, site, s.cutoffs)
  }

  /** The tables hold exactly these schedules. */
  ghost predicate Presents(before: (string, string) -> bool, headers: map<string, Header>, rows: Rows, contents: map<string, Schedule>) {
    && headers.Keys == contents.Keys
    && (forall site :: site in contents ==> Holds(before, headers, rows, site, contents[site]))
    && (forall k :: k in rows ==> k.0 in headers)
  }

  class CPTScheduleRepo {
    const before: (string, string) -> bool
    var headers: map<string, Header>
    var rows: Rows
    ghost var contents: map<string, Schedule>   // the tables as loads present them

    ghost predicate Valid()
      reads this
    {
      TotalOrder(before) && Presents(before, headers, rows, contents)
    }

    constructor (before: (string, string) -> bool)
      requires TotalOrder(before)
      ensures Valid() && contents == map[]
    {
      this.before := before;
      headers, rows, contents := map[], map[], map[];
    }

    /**
     Upsert the header, delete the site's cutoffs, insert the new ones. A repeated cptId violates the
     primary key; the transaction then rolls back.
     */
    method Save(env: Env, s: Schedule) returns (ok: bool)
      requires Valid() && env.before == before
      modifies this
      ensures Valid() && (ok <==> DistinctIds(s.cutoffs))
      ensures ok ==>
        contents == old(contents)[s.siteId := StoredSchedule(env, if s.siteId in old(contents) then Some(old(contents)[s.siteId]) else None, s)]
      ensures !ok ==> contents == old(contents)
    {
      hide TotalOrder, DistinctIds, Presents, Replaced, StoredSchedule;
      ghost var was := contents;
      HeaderPresents(before, headers, rows, contents);
      var headersBefore, rowsBefore := headers, rows;
      var site := s.siteId;
      var createdAt := if site in headers then headers[site].createdAt else ColumnTime(s.createdAt);
      headers := headers[site := Header(s.timezone, createdAt, ColumnTime(s.updatedAt))];
      rows := map k | k in rows && k.0 != site :: rows[k];
      NoneYet(s.cutoffs);
      NoneBut(rowsBefore, rows, site);
      for i := 0 to |s.cutoffs|
        invariant headers == headersBefore[site := Header(s.timezone, createdAt, ColumnTime(s.updatedAt))]
        invariant Replaced(rowsBefore, rows, site, s.cutoffs[..i]) && DistinctIds(s.cutoffs[..i])
        invariant contents == was
      {
        var c := s.cutoffs[i];
        OneMore(rowsBefore, rows, site, s.cutoffs, i);
        if (site, c.cptId) in rows {
          headers, rows := headersBefore, rowsBefore;
          return false;
        }
        rows := rows[(site, c.cptId) := RowOf(c)];
      }
      assert s.cutoffs[..|s.cutoffs|] == s.cutoffs;
      ghost var existing := if site in was then Some(was[site]) else None;
      contents := was[site := StoredSchedule(env, existing, s)];
      SavedPresents(env, headersBefore, headers, rowsBefore, rows, was, s, createdAt);
      return true;
    }

    /** The header, then the cutoffs ORDER BY cpt_id, each revalidated by `NewCutoff`. */
    method FindBySiteID(site: string) returns (r: Result<Option<Schedule>, ScheduleError>)
      requires Valid()
      ensures site !in contents ==> r == Ok(None)
      ensures site in contents ==> if WellMade(contents[site].cutoffs) then r == Ok(Some(contents[site])) else r.Err?
    {
      hide Ascending, TotalOrder, CutoffFault, Lists;
      if site !in headers { return Ok(None); }
      assert Holds(before, headers, rows, site, contents[site]);
      var h := headers[site];
      var ids := ListAscending(before, set k | k in rows && k.0 == site :: k.1);
      ghost var kept := contents[site].cutoffs;
      SameListing(before, rows, site, kept, ids);
      var cutoffs: seq<Cutoff> := [];
      for i := 0 to |ids|
        invariant cutoffs == kept[..i] && WellMade(kept[..i])
      {
        var row := rows[(site, ids[i])];
        assert kept[i] in kept && kept[i] == CutoffOf(ids[i], row);
        var c := NewCutoff(ids[i], row.localTime, row.daysOfWeek, row.shipMethod, row.eligiblePathIds);
        if c.Err? { return Err(c.error); }
        cutoffs := cutoffs + [c.value];
      }
      assert kept[..|ids|] == kept;
      return Ok(Some(Schedule(site, h.timezone, cutoffs, h.createdAt, h.updatedAt)));
    }
  }

  /** `site` has exactly these cutoffs' rows; every other site has the rows it had. */
  ghost predicate Replaced(was: Rows, rows: Rows, site: string, cutoffs: seq<Cutoff>) {
    && (forall k: (string, string) :: k.0 != site ==> (k in was <==> k in rows) && (k in was ==> was[k] == rows[k]))
    && (forall c :: c in cutoffs <==> HasRow(rows, site, c))
  }

  lemma NoneYet(cutoffs: seq<Cutoff>)
    ensures DistinctIds(cutoffs[..0]) && cutoffs[..0] == []
  {}

  /** The next insert either violates the key, and then the ids repeat, or extends what is replaced. */
  lemma OneMore(was: Rows, rows: Rows, site: string, cutoffs: seq<Cutoff>, i: nat)
    requires i < |cutoffs| && Replaced(was, rows, site, cutoffs[..i]) && DistinctIds(cutoffs[..i])
    ensures (site, cutoffs[i].cptId) in rows ==> !DistinctIds(cutoffs)
    ensures (site, cutoffs[i].cptId) !in rows ==>
      Replaced(was, rows[(site, cutoffs[i].cptId) := RowOf(cutoffs[i])], site, cutoffs[..i + 1]) && DistinctIds(cutoffs[..i + 1])
  {
    var c, k, more := cutoffs[i], (site, cutoffs[i].cptId), cutoffs[..i + 1];
    assert more == cutoffs[..i] + [c];
    if k in rows {
      var d := CutoffOf(c.cptId, rows[k]);
      assert HasRow(rows, site, d);
      assert d in cutoffs[..i];
      var j :| 0 <= j < i && cutoffs[..i][j] == d;
      assert cutoffs[j].cptId == cutoffs[i].cptId;
    } else {
      var next := rows[k := RowOf(c)];
      forall j | 0 <= j < i ensures cutoffs[j].cptId != c.cptId {
        assert cutoffs[..i][j] in cutoffs[..i];
        assert HasRow(rows, site, cutoffs[j]);
      }
      forall d ensures d in cutoffs[..i + 1] <==> HasRow(next, site, d) {
        assert d in cutoffs[..i] <==> HasRow(rows, site, d);
      }
      forall a, b | 0 <= a < b < i + 1 ensures more[a].cptId != more[b].cptId {
        if b < i { assert cutoffs[..i][a].cptId != cutoffs[..i][b].cptId; }
      }
    }
  }

  lemma HeaderPresents(before: (string, string) -> bool, headers: map<string, Header>, rows: Rows, contents: map<string, Schedule>)
    requires Presents(before, headers, rows, contents)
    ensures headers.Keys == contents.Keys && forall x :: x in contents ==> headers[x].createdAt == contents[x].createdAt
  {
    hide Lists;
  }

  lemma NoneBut(was: Rows, rows: Rows, site: string)
    requires rows == map k | k in was && k.0 != site :: was[k]
    ensures Replaced(was, rows, site, [])
  {}

  lemma SavedHolds(env: Env, was: map<string, Header>, headers: map<string, Header>, rowsWas: Rows, rows: Rows,
                   existing: Option<Schedule>, s: Schedule, createdAt: int)
    requires TotalOrder(env.before) && DistinctIds(s.cutoffs) && Replaced(rowsWas, rows, s.siteId, s.cutoffs)
    requires headers == was[s.siteId := Header(s.timezone, createdAt, ColumnTime(s.updatedAt))]
    requires createdAt == if existing.Some? then existing.value.createdAt else ColumnTime(s.createdAt)
    ensures Holds(env.before, headers, rows, s.siteId, StoredSchedule(env, existing, s))
  {
    ByCptIdSorts(env.before, s.cutoffs);
    hide ByCptId;
  }

  lemma SavedPresents(env: Env, was: map<string, Header>, headers: map<string, Header>, rowsWas: Rows, rows: Rows,
                      contents: map<string, Schedule>, s: Schedule, createdAt: int)
    requires TotalOrder(env.before) && DistinctIds(s.cutoffs) && Replaced(rowsWas, rows, s.siteId, s.cutoffs)
    requires Presents(env.before, was, rowsWas, contents)
    requires headers == was[s.siteId := Header(s.timezone, createdAt, ColumnTime(s.updatedAt))]
    requires createdAt == if s.siteId in contents then contents[s.siteId].createdAt else ColumnTime(s.createdAt)
    ensures var existing := if s.siteId in contents then Some(contents[s.siteId]) else None;
            Presents(env.before, headers, rows, contents[s.siteId := StoredSchedule(env, existing, s)])
  {
    hide TotalOrder, DistinctIds, Replaced, Holds, StoredSchedule;
    var existing := if s.siteId in contents then Some(contents[s.siteId]) else None;
    var n := contents[s.siteId := StoredSchedule(env, existing, s)];
    SavedHolds(env, was, headers, rowsWas, rows, existing, s, createdAt);
    forall x | x in n ensures Holds(env.before, headers, rows, x, n[x]) {
      if x != s.siteId { OtherHolds(env.before, was, headers, rowsWas, rows, s.siteId, s.cutoffs, x, contents[x]); }
    }
    KeysStay(was, headers, rowsWas, rows, s.siteId, s.cutoffs);
  }

  lemma OtherHolds(before: (string, string) -> bool, was: map<string, Header>, headers: map<string, Header>, rowsWas: Rows, rows: Rows,
                   site: string, cutoffs: seq<Cutoff>, other: string, kept: Schedule)
    requires Holds(before, was, rowsWas, other, kept) && Replaced(rowsWas, rows, site, cutoffs) && other != site
    requires other in headers && headers[other] == was[other]
    ensures Holds(before, headers, rows, other, kept)
  {
    forall c ensures HasRow(rowsWas, other, c) <==> HasRow(rows, other, c) {
      assert (other, c.cptId).0 != site;
    }
  }

  lemma KeysStay(was: map<string, Header>, headers: map<string, Header>, rowsWas: Rows, rows: Rows, site: string, cutoffs: seq<Cutoff>)
    requires (forall k :: k in rowsWas ==> k.0 in was) && site in headers && was.Keys <= headers.Keys
    requires Replaced(rowsWas, rows, site, cutoffs)
    ensures forall k :: k in rows ==> k.0 in headers
  {
    forall k | k in rows ensures k.0 in headers {
      if k.0 != site { assert k in rowsWas; }
    }
  }

  /** Reading the rows in key order is reading the kept listing. */
  lemma SameListing(before: (string, string) -> bool, rows: Rows, site: string, kept: seq<Cutoff>, ids: seq<string>)
    requires TotalOrder(before) && Lists(before, rows, site, kept) && Ascending(before, ids)
    requires forall x :: x in ids <==> (site, x) in rows
    ensures |ids| == |kept| && forall i :: 0 <= i < |ids| ==> (site, ids[i]) in rows && kept[i] == CutoffOf(ids[i], rows[(site, ids[i])])
  {
    forall x ensures x in ids <==> x in CptIds(kept) {
      if x in CptIds(kept) {
        var i :| 0 <= i < |kept| && CptIds(kept)[i] == x;
        assert kept[i] in kept;
      }
      if x in ids {
        assert HasRow(rows, site, CutoffOf(x, rows[(site, x)]));
        var i :| 0 <= i < |kept| && kept[i] == CutoffOf(x, rows[(site, x)]);
        assert CptIds(kept)[i] == x;
      }
    }
    AscendingIsUnique(before, ids, CptIds(kept));
    forall i | 0 <= i < |ids| ensures (site, ids[i]) in rows && kept[i] == CutoffOf(ids[i], rows[(site, ids[i])]) {
      assert CptIds(kept)[i] == ids[i] && kept[i] in kept;
    }
  }

  /**
   What a save makes of the cutoffs: the same ones, in cptId order, none left from before; exact, and a
   fixed point, when they were given in that order.
   */
  lemma ScheduleRoundTrip(env: Env, existing: Option<Schedule>, s: Schedule)
    requires TotalOrder(env.before) && DistinctIds(s.cutoffs)
    ensures var q := StoredSchedule(env, existing, s);
            && (forall c :: c in q.cutoffs <==> c in s.cutoffs) && |q.cutoffs| == |s.cutoffs|
            && Ascending(env.before, CptIds(q.cutoffs)) && q.timezone == s.timezone && q.siteId == s.siteId
            && (q.cutoffs == s.cutoffs <==> Ascending(env.before, CptIds(s.cutoffs)))
            && StoredSchedule(env, Some(q), q) == q
            && 0 <= s.updatedAt - q.updatedAt < 1000 && q.updatedAt % 1000 == 0
            && (if existing.Some? then q.createdAt == existing.value.createdAt else 0 <= s.createdAt - q.createdAt < 1000 && q.createdAt % 1000 == 0)
            && (WellMade(s.cutoffs) ==> WellMade(q.cutoffs))
  {
    hide ByCptId, TotalOrder, Ascending, DistinctIds, CutoffFault;
    ByCptIdSorts(env.before, s.cutoffs);
    ByCptIdFixes(env.before, s.cutoffs);
  }
}
