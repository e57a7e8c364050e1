/** The CPTSchedule aggregate (internal/domain/cptschedule): one recurring cutoff schedule a site. */
module CptSchedules {
  import opened Shared

  datatype Cutoff = Cutoff(
    cptId: string, localTime: string, daysOfWeek: seq<string>, shipMethod: string, eligiblePathIds: seq<string>)

  datatype Schedule = Schedule(
    siteId: string, timezone: string, cutoffs: seq<Cutoff>, createdAt: int, updatedAt: int)

  datatype ScheduleError =
    | EmptyTimezone | InvalidTimezone | NoCutoffs | EmptyCptId | DuplicateCptId | EmptyLocalTime
    | InvalidLocalTime | NoDaysOfWeek | InvalidDayOfWeek | EmptyShipMethod | NoEligiblePathIds

  // ---- one cutoff ----

  predicate IsDigit(c: char) { '0' <= c <= '9' }

  function Digits(s: string): int {
    if s == [] then 0 else Digits(s[..|s| - 1]) * 10 + (s[|s| - 1] as int - '0' as int)
  }

  method ParseDigits(s: string) returns (r: Option<int>)
    ensures r == if forall c :: c in s ==> IsDigit(c) then Some(Digits(s)) else None
  {
    var n := 0;
    for i := 0 to |s|
      invariant n == Digits(s[..i])
      invariant forall k :: 0 <= k < i ==> IsDigit(s[k])
    {
      if !IsDigit(s[i]) { return None; }
      n := n * 10 + (s[i] as int - '0' as int);
      assert s[..i + 1][..i] == s[..i];
    }
    assert s[..|s|] == s;
    return Some(n);
  }

  /** Exactly "HH:MM" between 00:00 and 23:59. */
  predicate IsLocalTime(s: string) {
    && |s| == 5 && s[2] == ':'
    && IsDigit(s[0]) && IsDigit(s[1]) && IsDigit(s[3]) && IsDigit(s[4])
    && (s[0] < '2' || (s[0] == '2' && s[1] <= '3')) && s[3] <= '5'
  }

  function Numeral(n: nat): (c: char)
    requires n < 10
    ensures c as int - '0' as int == n
  {
    ('0' as int + n) as char
  }

  /** The clock reading itself, two digits each. */
  function Clock(h: nat, m: nat): string
    requires h < 24 && m < 60
  {
    [Numeral(h / 10), Numeral(h % 10), ':', Numeral(m / 10), Numeral(m % 10)]
  }

  /** The accepted strings are the 1440 readings of a day's clock. */
  lemma LocalTimeIff(s: string)
    ensures IsLocalTime(s) <==> exists h, m :: 0 <= h < 24 && 0 <= m < 60 && s == Clock(h, m)
  {
    if IsLocalTime(s) {
      var h := (s[0] as int - '0' as int) * 10 + (s[1] as int - '0' as int);
      var m := (s[3] as int - '0' as int) * 10 + (s[4] as int - '0' as int);
      assert s == Clock(h, m);
    }
  }

  method IsValidLocalTime(s: string) returns (ok: bool)
    ensures ok <==> IsLocalTime(s)
    ensures ok <==> exists h, m :: 0 <= h < 24 && 0 <= m < 60 && s == Clock(h, m)
  {
    LocalTimeIff(s);
    if |s| != 5 || s[2] != ':' { return false; }
    var h := ParseDigits(s[0..2]);
    var m := ParseDigits(s[3..5]);
    assert s[0..2] == [s[0], s[1]] && s[3..5] == [s[3], s[4]];
    TwoDigits(s[0], s[1]);
    TwoDigits(s[3], s[4]);
    if h.None? || m.None? {
      assert s[0] in s[0..2] && s[1] in s[0..2] && s[3] in s[3..5] && s[4] in s[3..5];
      return false;
    }
    assert s[0] in s[0..2] && s[1] in s[0..2] && s[3] in s[3..5] && s[4] in s[3..5];
    return 0 <= h.value <= 23 && 0 <= m.value <= 59;
  }

  lemma TwoDigits(a: char, b: char)
    ensures Digits([a, b]) == (a as int - '0' as int) * 10 + (b as int - '0' as int)
  {
    assert [a, b][..1] == [a] && [a][..0] == [];
    assert Digits([a]) == a as int - '0' as int;
  }

  predicate IsWeekday(d: string) {
    d == "Mon" || d == "Tue" || d == "Wed" || d == "Thu" || d == "Fri" || d == "Sat" || d == "Sun"
  }

  /** What `NewCutoff` checks, in its order; the source's callers only ever hold cutoffs that passed. */
  function CutoffFault(c: Cutoff): Option<ScheduleError> {
    if c.cptId == "" then Some(EmptyCptId)
    else if c.localTime == "" then Some(EmptyLocalTime)
    else if !IsLocalTime(c.localTime) then Some(InvalidLocalTime)
    else if c.daysOfWeek == [] then Some(NoDaysOfWeek)
    else if exists d :: d in c.daysOfWeek && !IsWeekday(d) then Some(InvalidDayOfWeek)
    else if c.shipMethod == "" then Some(EmptyShipMethod)
    else if c.eligiblePathIds == [] then Some(NoEligiblePathIds)
    else None
  }

  predicate WellMade(cutoffs: seq<Cutoff>) { forall c :: c in cutoffs ==> CutoffFault(c) == None }

  method NewCutoff(cptId: string, localTime: string, daysOfWeek: seq<string>, shipMethod: string, eligiblePathIds: seq<string>)
    returns (r: Result<Cutoff, ScheduleError>)
    ensures var c := Cutoff(cptId, localTime, daysOfWeek, shipMethod, eligiblePathIds);
            r == match CutoffFault(c) case None => Ok(c) case Some(e) => Err(e)
    ensures r.Ok? <==>
      && cptId != "" && IsLocalTime(localTime) && daysOfWeek != [] && shipMethod != "" && eligiblePathIds != []
      && forall d :: d in daysOfWeek ==> d in ["Mon", "Tue", "Wed", "Thu", "Fri", "Sat", "Sun"]
    ensures r.Err? ==> match r.error
      case EmptyCptId => cptId == ""
      case EmptyLocalTime => cptId != "" && localTime == ""
      case InvalidLocalTime => cptId != "" && localTime != "" && !IsLocalTime(localTime)
      case NoDaysOfWeek => cptId != "" && IsLocalTime(localTime) && daysOfWeek == []
      case InvalidDayOfWeek =>
        && cptId != "" && IsLocalTime(localTime)
        && exists d :: d in daysOfWeek && d !in ["Mon", "Tue", "Wed", "Thu", "Fri", "Sat", "Sun"]
      case EmptyShipMethod =>
        && cptId != "" && IsLocalTime(localTime) && daysOfWeek != [] && shipMethod == ""
        && forall d :: d in daysOfWeek ==> d in ["Mon", "Tue", "Wed", "Thu", "Fri", "Sat", "Sun"]
      case NoEligiblePathIds =>
        && cptId != "" && IsLocalTime(localTime) && daysOfWeek != [] && shipMethod != "" && eligiblePathIds == []
        && forall d :: d in daysOfWeek ==> d in ["Mon", "Tue", "Wed", "Thu", "Fri", "Sat", "Sun"]
      case _ => false
  {
    if cptId == "" { return Err(EmptyCptId); }
    if localTime == "" { return Err(EmptyLocalTime); }
    var timely := IsValidLocalTime(localTime);
    if !timely { return Err(InvalidLocalTime); }
    if |daysOfWeek| == 0 { return Err(NoDaysOfWeek); }
    for i := 0 to |daysOfWeek|
      invariant forall k :: 0 <= k < i ==> IsWeekday(daysOfWeek[k])
    {
      if !IsWeekday(daysOfWeek[i]) { return Err(InvalidDayOfWeek); }
    }
    if shipMethod == "" { return Err(EmptyShipMethod); }
    if |eligiblePathIds| == 0 { return Err(NoEligiblePathIds); }
    return Ok(Cutoff(cptId, localTime, daysOfWeek, shipMethod, eligiblePathIds));
  }

  // ---- the whole schedule ----

  predicate DistinctIds(cutoffs: seq<Cutoff>) {
    forall i, j :: 0 <= i < j < |cutoffs| ==> cutoffs[i].cptId != cutoffs[j].cptId
  }

  function ScheduleFault(env: Env, timezone: string, cutoffs: seq<Cutoff>): Option<ScheduleError> {
    if timezone == "" then Some(EmptyTimezone)
    else if !env.knownZone(timezone) then Some(InvalidTimezone)
    else if cutoffs == [] then Some(NoCutoffs)
    else if !DistinctIds(cutoffs) then Some(DuplicateCptId)
    else None
  }

  method Validate(env: Env, timezone: string, cutoffs: seq<Cutoff>) returns (err: Option<ScheduleError>)
    ensures err == ScheduleFault(env, timezone, cutoffs)
    ensures err.None? <==>
      && timezone != "" && env.knownZone(timezone) && cutoffs != []
      && forall i, j :: 0 <= i < j < |cutoffs| ==> cutoffs[i].cptId != cutoffs[j].cptId
    ensures err.Some? ==> match err.value
      case EmptyTimezone => timezone == ""
      case InvalidTimezone => timezone != "" && !env.knownZone(timezone)
      case NoCutoffs => timezone != "" && env.knownZone(timezone) && cutoffs == []
      case DuplicateCptId =>
        && timezone != "" && env.knownZone(timezone)
        && exists i, j :: 0 <= i < j < |cutoffs| && cutoffs[i].cptId == cutoffs[j].cptId
      case _ => false
  {
    if timezone == "" { return Some(EmptyTimezone); }
    if !env.knownZone(timezone) { return Some(InvalidTimezone); }
    if |cutoffs| == 0 { return Some(NoCutoffs); }
    var seen: set<string> := {};
    for i := 0 to |cutoffs|
      invariant forall x :: x in seen <==> exists k :: 0 <= k < i && cutoffs[k].cptId == x
      invariant DistinctIds(cutoffs[..i])
    {
      if cutoffs[i].cptId in seen {
        var k :| 0 <= k < i && cutoffs[k].cptId == cutoffs[i].cptId;
        return Some(DuplicateCptId);
      }
      seen := seen + {cutoffs[i].cptId};
    }
    assert cutoffs[..|cutoffs|] == cutoffs;
    return None;
  }

  method CutoffsEqual(a: seq<Cutoff>, b: seq<Cutoff>) returns (same: bool)
    ensures same <==> a == b
  {
    if |a| != |b| { return false; }
    for i := 0 to |a|
      invariant a[..i] == b[..i]
    {
      if a[i].cptId != b[i].cptId || a[i].localTime != b[i].localTime || a[i].shipMethod != b[i].shipMethod
         || a[i].daysOfWeek != b[i].daysOfWeek || a[i].eligiblePathIds != b[i].eligiblePathIds {
        return false;
      }
    }
    return true;
  }

  /** The ids the cross-aggregate check looks at. */
  function EligibleIds(cutoffs: seq<Cutoff>): set<string> {
    set i, j | 0 <= i < |cutoffs| && 0 <= j < |cutoffs[i].eligiblePathIds| :: cutoffs[i].eligiblePathIds[j]
  }

  function DefinedSchedule(env: Env, siteId: string, timezone: string, cutoffs: seq<Cutoff>, now: int): Result<Schedule, ScheduleError> {
    match ScheduleFault(env, timezone, cutoffs)
    case Some(e) => Err(e)
    case None => Ok(Schedule(siteId, timezone, cutoffs, now, now))
  }

  /** The schedule after a wholesale replacement, unchanged when it already says so. */
  function RevisedSchedule(env: Env, s: Schedule, timezone: string, cutoffs: seq<Cutoff>, now: int): Result<Schedule, ScheduleError> {
    match ScheduleFault(env, timezone, cutoffs)
    case Some(e) => Err(e)
    case None =>
      if s.timezone == timezone && s.cutoffs == cutoffs then Ok(s)
      else Ok(s.(timezone := timezone, cutoffs := cutoffs, updatedAt := now))
  }

  class CptSchedule {
    const siteId: string
    const createdAt: int
    var timezone: string
    var cutoffs: seq<Cutoff>
    var updatedAt: int

    function Value(): Schedule
      reads this
    {
      Schedule(siteId, timezone, cutoffs, createdAt, updatedAt)
    }

    constructor Rehydrate(s: Schedule)
      ensures Value() == s
    {
      siteId, createdAt := s.siteId, s.createdAt;
      timezone, cutoffs, updatedAt := s.timezone, s.cutoffs, s.updatedAt;
    }

    static method Define(env: Env, siteId: string, timezone: string, cutoffs: seq<Cutoff>, now: int)
      returns (r: Result<CptSchedule, ScheduleError>)
      ensures r.Ok? ==> fresh(r.value) && DefinedSchedule(env, siteId, timezone, cutoffs, now) == Ok(r.value.Value())
      ensures r.Err? ==> DefinedSchedule(env, siteId, timezone, cutoffs, now) == Err(r.error)
      ensures r.Ok? <==>
        && timezone != "" && env.knownZone(timezone) && cutoffs != []
        && forall i, j :: 0 <= i < j < |cutoffs| ==> cutoffs[i].cptId != cutoffs[j].cptId
      ensures r.Ok? ==> r.value.Value() == Schedule(siteId, timezone, cutoffs, now, now)
      ensures r.Err? ==> match r.error
        case EmptyTimezone => timezone == ""
        case InvalidTimezone => timezone != "" && !env.knownZone(timezone)
        case NoCutoffs => timezone != "" && env.knownZone(timezone) && cutoffs == []
        case DuplicateCptId =>
          && timezone != "" && env.knownZone(timezone)
          && exists i, j :: 0 <= i < j < |cutoffs| && cutoffs[i].cptId == cutoffs[j].cptId
        case _ => false
    {
      var e := Validate(env, timezone, cutoffs);
      if e.Some? { return Err(e.value); }
      var s := new CptSchedule.Rehydrate(Schedule(siteId, timezone, cutoffs, now, now));
      return Ok(s);
    }

    method Revise(env: Env, timezone: string, cutoffs: seq<Cutoff>, now: int)
      returns (changed: bool, err: Option<ScheduleError>)
      modifies this
      ensures err.Some? ==> !changed && Value() == old(Value())
                            && RevisedSchedule(env, old(Value()), timezone, cutoffs, now) == Err(err.value)
      ensures err.None? ==> RevisedSchedule(env, old(Value()), timezone, cutoffs, now) == Ok(Value())
      ensures err.None? ==> (changed <==> timezone != old(this.timezone) || cutoffs != old(this.cutoffs))
      ensures err.None? <==>
        && timezone != "" && env.knownZone(timezone) && cutoffs != []
        && forall i, j :: 0 <= i < j < |cutoffs| ==> cutoffs[i].cptId != cutoffs[j].cptId
      ensures err.None? ==>
        this.timezone == timezone && this.cutoffs == cutoffs && updatedAt == (if changed then now else old(updatedAt))
      ensures err.Some? ==> match err.value
        case EmptyTimezone => timezone == ""
        case InvalidTimezone => timezone != "" && !env.knownZone(timezone)
        case NoCutoffs => timezone != "" && env.knownZone(timezone) && cutoffs == []
        case DuplicateCptId =>
          && timezone != "" && env.knownZone(timezone)
          && exists i, j :: 0 <= i < j < |cutoffs| && cutoffs[i].cptId == cutoffs[j].cptId
        case _ => false
    {
      var e := Validate(env, timezone, cutoffs);
      if e.Some? { return false, e; }
      var same := CutoffsEqual(this.cutoffs, cutoffs);
      if this.timezone == timezone && same { return false, None; }
      this.timezone, this.cutoffs, updatedAt := timezone, cutoffs, now;
      return true, None;
    }

    /** The de-duplicated union of the cutoffs' path ids, sorted. */
    method AllEligiblePathIds(before: (string, string) -> bool) returns (out: seq<string>)
      requires TotalOrder(before)
      ensures Ascending(before, out)
      ensures forall x :: x in out <==> x in EligibleIds(cutoffs)
      ensures forall x :: x in out <==> exists i :: 0 <= i < |cutoffs| && x in cutoffs[i].eligiblePathIds
    {
      var seen: set<string> := {};
      for i := 0 to |cutoffs|
        invariant seen == EligibleIds(cutoffs[..i])
      {
        var ids := cutoffs[i].eligiblePathIds;
        for j := 0 to |ids|
          invariant forall x :: x in seen <==> x in EligibleIds(cutoffs[..i]) || x in ids[..j]
        {
          seen := seen + {ids[j]};
        }
        EligibleIdsGrow(cutoffs, i);
      }
      assert cutoffs[..|cutoffs|] == cutoffs;
      out := ListAscending(before, seen);
    }
  }

  lemma EligibleIdsGrow(cutoffs: seq<Cutoff>, i: nat)
    requires i < |cutoffs|
    ensures forall x :: x in EligibleIds(cutoffs[..i + 1]) <==> x in EligibleIds(cutoffs[..i]) || x in cutoffs[i].eligiblePathIds
  {
    forall x
      ensures x in EligibleIds(cutoffs[..i + 1]) <==> x in EligibleIds(cutoffs[..i]) || x in cutoffs[i].eligiblePathIds
    {
      var upto, before := cutoffs[..i + 1], cutoffs[..i];
      assert forall k :: 0 <= k < i ==> upto[k] == before[k];
      if x in cutoffs[i].eligiblePathIds {
        var j :| 0 <= j < |cutoffs[i].eligiblePathIds| && cutoffs[i].eligiblePathIds[j] == x;
        assert upto[i].eligiblePathIds[j] == x;
      }
      if x in EligibleIds(before) {
        var k, j :| 0 <= k < |before| && 0 <= j < |before[k].eligiblePathIds| && before[k].eligiblePathIds[j] == x;
        assert upto[k].eligiblePathIds[j] == x;
      }
    }
  }

  // ---- ordering by cptId, as a query returns the cutoffs ----

  function CptIds(cutoffs: seq<Cutoff>): seq<string> { seq(|cutoffs|, i requires 0 <= i < |cutoffs| => cutoffs[i].cptId) }

  function Insert(before: (string, string) -> bool, c: Cutoff, sorted: seq<Cutoff>): seq<Cutoff> {
    if sorted == [] || before(c.cptId, sorted[0].cptId) then [c] + sorted
    else [sorted[0]] + Insert(before, c, sorted[1..])
  }

  function ByCptId(before: (string, string) -> bool, cutoffs: seq<Cutoff>): seq<Cutoff> {
    if cutoffs == [] then [] else Insert(before, cutoffs[0], ByCptId(before, cutoffs[1..]))
  }

  lemma AscendingFront(before: (string, string) -> bool, c: Cutoff, s: seq<Cutoff>)
    requires TotalOrder(before) && Ascending(before, CptIds(s)) && c.cptId !in CptIds(s)
    requires s != [] ==> before(c.cptId, s[0].cptId)
    ensures Ascending(before, CptIds([c] + s))
  {
    var r := [c] + s;
    forall i, j | 0 <= i < j < |r| ensures before(CptIds(r)[i], CptIds(r)[j]) && CptIds(r)[i] != CptIds(r)[j] {
      assert CptIds(s)[j - 1] == CptIds(r)[j] && CptIds(s)[0] == s[0].cptId;
      if i > 0 { assert CptIds(s)[i - 1] == CptIds(r)[i]; }
    }
  }

  lemma {:induction false} InsertKeeps(before: (string, string) -> bool, c: Cutoff, s: seq<Cutoff>)
    requires TotalOrder(before) && Ascending(before, CptIds(s)) && c.cptId !in CptIds(s)
    ensures forall x :: x in Insert(before, c, s) <==> x == c || x in s
    ensures |Insert(before, c, s)| == |s| + 1
    ensures Ascending(before, CptIds(Insert(before, c, s)))
  {
    if s == [] || before(c.cptId, s[0].cptId) {
      AscendingFront(before, c, s);
    } else {
      var t := s[1..];
      assert s == [s[0]] + t;
      forall i | 0 <= i < |t| ensures CptIds(t)[i] == CptIds(s)[i + 1] {}
      InsertKeeps(before, c, t);
      InsertBehind(before, c, s[0], t);
    }
  }

  /** What the rest becomes is still all above the first. */
  lemma InsertBehind(before: (string, string) -> bool, c: Cutoff, first: Cutoff, t: seq<Cutoff>)
    requires TotalOrder(before) && Ascending(before, CptIds([first] + t)) && c.cptId != first.cptId && before(first.cptId, c.cptId)
    requires Ascending(before, CptIds(Insert(before, c, t))) && forall x :: x in Insert(before, c, t) <==> x == c || x in t
    ensures Ascending(before, CptIds([first] + Insert(before, c, t)))
  {
    hide Insert;
    var s, r := [first] + t, Insert(before, c, t);
    forall x | x in r ensures before(first.cptId, x.cptId) && first.cptId != x.cptId {
      if x != c {
        var k :| 0 <= k < |t| && t[k] == x;
        assert CptIds(s)[0] == first.cptId && CptIds(s)[k + 1] == x.cptId;
      }
    }
    forall x | x in CptIds(r) ensures x != first.cptId && before(first.cptId, x) {
      var i :| 0 <= i < |r| && CptIds(r)[i] == x;
      assert r[i] in r;
    }
    if r != [] { assert CptIds(r)[0] in CptIds(r) && CptIds(r)[0] == r[0].cptId; }
    AscendingFront(before, first, r);
  }

  /** Sorting keeps the cutoffs and puts their ids in strictly ascending order. */
  lemma {:induction false} ByCptIdSorts(before: (string, string) -> bool, cutoffs: seq<Cutoff>)
    requires TotalOrder(before) && DistinctIds(cutoffs)
    ensures forall x :: x in ByCptId(before, cutoffs) <==> x in cutoffs
    ensures |ByCptId(before, cutoffs)| == |cutoffs|
    ensures Ascending(before, CptIds(ByCptId(before, cutoffs)))
  {
    if cutoffs != [] {
      ByCptIdSorts(before, cutoffs[1..]);
      var rest := ByCptId(before, cutoffs[1..]);
      assert cutoffs == [cutoffs[0]] + cutoffs[1..];
      forall x | x in CptIds(rest) ensures x != cutoffs[0].cptId {
        var i :| 0 <= i < |rest| && rest[i].cptId == x;
        assert rest[i] in cutoffs[1..];
        var k :| 1 <= k < |cutoffs| && cutoffs[k] == rest[i];
      }
      InsertKeeps(before, cutoffs[0], rest);
    }
  }

  /** Two listings of the same cutoffs in ascending cptId order are the same listing. */
  lemma SortedCutoffsAreUnique(before: (string, string) -> bool, a: seq<Cutoff>, b: seq<Cutoff>)
    requires TotalOrder(before) && Ascending(before, CptIds(a)) && Ascending(before, CptIds(b))
    requires forall x :: x in a <==> x in b
    ensures a == b
  {
    forall x | x in CptIds(a) ensures x in CptIds(b) {
      var i :| 0 <= i < |a| && CptIds(a)[i] == x;
      assert a[i] in b;
      var j :| 0 <= j < |b| && b[j] == a[i];
      assert CptIds(b)[j] == x;
    }
    forall x | x in CptIds(b) ensures x in CptIds(a) {
      var i :| 0 <= i < |b| && CptIds(b)[i] == x;
      assert b[i] in a;
      var j :| 0 <= j < |a| && a[j] == b[i];
      assert CptIds(a)[j] == x;
    }
    AscendingIsUnique(before, CptIds(a), CptIds(b));
    assert |CptIds(a)| == |a| && |CptIds(b)| == |b|;
    forall i | 0 <= i < |a| ensures a[i] == b[i] {
      assert a[i] in b;
      var j :| 0 <= j < |b| && b[j] == a[i];
      assert CptIds(b)[j] == CptIds(b)[i];
    }
  }

  /** Sorting is the identity exactly on schedules written in cptId order. */
  lemma ByCptIdFixes(before: (string, string) -> bool, cutoffs: seq<Cutoff>)
    requires TotalOrder(before) && DistinctIds(cutoffs)
    ensures ByCptId(before, cutoffs) == cutoffs <==> Ascending(before, CptIds(cutoffs))
    ensures ByCptId(before, ByCptId(before, cutoffs)) == ByCptId(before, cutoffs)
    ensures DistinctIds(ByCptId(before, cutoffs))
  {
    ByCptIdSorts(before, cutoffs);
    var once := ByCptId(before, cutoffs);
    forall i, j | 0 <= i < j < |once| ensures once[i].cptId != once[j].cptId {
      assert CptIds(once)[i] != CptIds(once)[j];
    }
    ByCptIdSorts(before, once);
    SortedCutoffsAreUnique(before, once, ByCptId(before, once));
    if Ascending(before, CptIds(cutoffs)) {
      SortedCutoffsAreUnique(before, once, cutoffs);
    }
  }
}
