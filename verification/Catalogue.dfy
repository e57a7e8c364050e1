/**
 The four write use cases (internal/application/usecases) as decisions over the stored aggregate,
 what the database makes of a saved aggregate, and the event each decision publishes.
 */
module Catalogue {
  import opened Shared
  import opened ProcessPaths
  import opened CptSchedules

  /** One aggregate: entity and id. A path and a site may share an id string. */
  datatype Key = PathKey(id: string) | ScheduleKey(id: string)

  datatype Value = PathValue(path: Path) | ScheduleValue(schedule: Schedule)

  datatype Event =
    | Created(id: string, def: Definition, at: int)
    | Updated(id: string, def: Definition, at: int)
    | Retired(id: string, at: int)
    | ScheduleChanged(site: string, timezone: string, cutoffs: seq<Cutoff>, at: int)

  /** `mapEvent`: the aggregate an event belongs to, hence its message key and subject. */
  function KeyOf(e: Event): Key {
    match e
    case Created(id, _, _) => PathKey(id)
    case Updated(id, _, _) => PathKey(id)
    case Retired(id, _) => PathKey(id)
    case ScheduleChanged(site, _, _, _) => ScheduleKey(site)
  }

  function KeyOfValue(v: Value): Key {
    match v
    case PathValue(p) => PathKey(p.id)
    case ScheduleValue(s) => ScheduleKey(s.siteId)
  }

  function Lookup(store: map<Key, Value>, k: Key): Option<Value> {
    if k in store then Some(store[k]) else None
  }

  function ActiveIds(store: map<Key, Value>): set<string> {
    set k | k in store && k.PathKey? && store[k].PathValue? && store[k].path.status == Active :: k.id
  }

  // ---- what a save leaves in the database, as the next load sees it ----

  function StoredDef(def: Definition): Definition { def.(cycleTime := WholeMicros(def.cycleTime)) }

  /** The upsert of a path: on conflict `direct`, the role and `createdAt` stay as they were. */
  function StoredPath(existing: Option<Path>, p: Path): Path {
    match existing
    case None => Path(p.id, StoredDef(p.def), p.status, ColumnTime(p.createdAt), ColumnTime(p.updatedAt))
    case Some(row) =>
      Path(p.id, StoredDef(p.def).(direct := row.def.direct, role := row.def.role),
           p.status, row.createdAt, ColumnTime(p.updatedAt))
  }

  /** The upsert of a schedule: cutoffs come back in cptId order. */
  function StoredSchedule(env: Env, existing: Option<Schedule>, s: Schedule): Schedule {
    Schedule(s.siteId, s.timezone, ByCptId(env.before, s.cutoffs),
             match existing case None => ColumnTime(s.createdAt) case Some(row) => row.createdAt,
             ColumnTime(s.updatedAt))
  }

  function Stored(env: Env, existing: Option<Value>, v: Value): Value {
    match v
    case PathValue(p) =>
      PathValue(StoredPath(if existing.Some? && existing.value.PathValue? then Some(existing.value.path) else None, p))
    case ScheduleValue(s) =>
      ScheduleValue(StoredSchedule(env, if existing.Some? && existing.value.ScheduleValue? then Some(existing.value.schedule) else None, s))
  }

  // ---- decisions ----

  datatype Command =
    | DefinePath(id: string, def: Definition, now: int)
    | RevisePath(id: string, rev: Revision, now: int)
    | DeactivatePath(id: string, now: int)
    | DefineSchedule(site: string, timezone: string, cutoffs: seq<Cutoff>, now: int)

  datatype Refusal =
    | PathAlreadyExists | PathNotFound | IneligiblePathId | MalformedCutoff
    | BadPath(pathError: PathError) | BadSchedule(scheduleError: ScheduleError)

  datatype Verdict = Refused(why: Refusal) | Unchanged | Changed(value: Value, event: Event)

  function Target(cmd: Command): Key {
    match cmd
    case DefinePath(id, _, _) => PathKey(id)
    case RevisePath(id, _, _) => PathKey(id)
    case DeactivatePath(id, _) => PathKey(id)
    case DefineSchedule(site, _, _, _) => ScheduleKey(site)
  }

  function DecideDefine(env: Env, id: string, def: Definition, now: int, current: Option<Path>): Verdict {
    if current.Some? then Refused(PathAlreadyExists)
    else match DefinedPath(env, id, def, now)
      case Err(e) => Refused(BadPath(e))
      case Ok(p) => Changed(PathValue(p), Created(id, def, now))
  }

  function DecideRevise(env: Env, id: string, rev: Revision, now: int, current: Option<Path>): Verdict {
    match current
    case None => Refused(PathNotFound)
    case Some(p) =>
      match RevisedPath(env, p, rev, now)
      case Err(e) => Refused(BadPath(e))
      case Ok(q) =>
        if Revised(p.def, rev) == p.def then Unchanged
        else Changed(PathValue(q), Updated(id, q.def, now))
  }

  function DecideDeactivate(id: string, now: int, current: Option<Path>): Verdict {
    match current
    case None => Refused(PathNotFound)
    case Some(p) =>
      if p.status != Active then Unchanged
      else Changed(PathValue(RetiredPath(p, now)), Retired(id, now))
  }

  /** `active` is the set of path ids the eligibility lookups found Active. */
  function DecideSchedule(env: Env, site: string, timezone: string, cutoffs: seq<Cutoff>, now: int,
                                current: Option<Schedule>, active: set<string>): Verdict {
    if !WellMade(cutoffs) then Refused(MalformedCutoff)
    else if !(EligibleIds(cutoffs) <= active) then Refused(IneligiblePathId)
    else match current
      case None => (
        match DefinedSchedule(env, site, timezone, cutoffs, now)
        case Err(e) => Refused(BadSchedule(e))
        case Ok(s) => Changed(ScheduleValue(s), ScheduleChanged(site, timezone, cutoffs, now)))
      case Some(row) => (
        match RevisedSchedule(env, row, timezone, cutoffs, now)
        case Err(e) => Refused(BadSchedule(e))
        case Ok(s) =>
          if (timezone, cutoffs) == (row.timezone, row.cutoffs) then Unchanged
          else Changed(ScheduleValue(s), ScheduleChanged(site, timezone, cutoffs, now)))
  }

  function AsPath(v: Option<Value>): Option<Path> {
    if v.Some? && v.value.PathValue? then Some(v.value.path) else None
  }

  function AsSchedule(v: Option<Value>): Option<Schedule> {
    if v.Some? && v.value.ScheduleValue? then Some(v.value.schedule) else None
  }

  function Decide(env: Env, cmd: Command, current: Option<Value>, active: set<string>): Verdict {
    match cmd
    case DefinePath(id, def, now) => DecideDefine(env, id, def, now, AsPath(current))
    case RevisePath(id, rev, now) => DecideRevise(env, id, rev, now, AsPath(current))
    case DeactivatePath(id, now) => DecideDeactivate(id, now, AsPath(current))
    case DefineSchedule(site, tz, cutoffs, now) => DecideSchedule(env, site, tz, cutoffs, now, AsSchedule(current), active)
  }

  // ---- the legal succession of one aggregate's stored values and events ----

  /** A value a load can return: nothing finer than the columns hold. */
  ghost predicate Loadable(env: Env, k: Key, v: Value) {
    && KeyOfValue(v) == k
    && match v
       case PathValue(p) => StoredDef(p.def) == p.def && ColumnTime(p.createdAt) == p.createdAt
       case ScheduleValue(s) => DistinctIds(s.cutoffs) && ByCptId(env.before, s.cutoffs) == s.cutoffs
                                && ColumnTime(s.createdAt) == s.createdAt
  }

  /** `next` and its event may come right after the stored value `prev` of the same aggregate. */
  ghost predicate Follows(env: Env, prev: Option<Value>, next: Value, e: Event) {
    && KeyOfValue(next) == KeyOf(e)
    && match e
       case Created(id, def, at) =>
         && prev.None? && id != "" && DefinitionFault(env, def).None?
         && next == PathValue(Path(id, StoredDef(def), Active, ColumnTime(at), ColumnTime(at)))
       case Updated(id, def, at) =>
         && AsPath(prev).Some? && var p := AsPath(prev).value;
         && p.id == id && p.status == Active && DefinitionFault(env, def).None?
         && def != p.def && def.direct == p.def.direct && def.role == p.def.role
         && next == PathValue(p.(def := StoredDef(def), updatedAt := ColumnTime(at)))
       case Retired(id, at) =>
         && AsPath(prev).Some? && var p := AsPath(prev).value;
         && p.id == id && p.status == Active
         && next == PathValue(p.(status := Deactivated, updatedAt := ColumnTime(at)))
       case ScheduleChanged(site, tz, cutoffs, at) =>
         && WellMade(cutoffs) && ScheduleFault(env, tz, cutoffs).None?
         && (prev.Some? ==> prev.value.ScheduleValue?)
         && (AsSchedule(prev).Some? ==> (tz, cutoffs) != (AsSchedule(prev).value.timezone, AsSchedule(prev).value.cutoffs))
         && next == ScheduleValue(Schedule(site, tz, ByCptId(env.before, cutoffs),
              if AsSchedule(prev).Some? then AsSchedule(prev).value.createdAt else ColumnTime(at), ColumnTime(at)))
  }

  /** What a saved path leaves over the row it meets: the immutable columns are the row's. */
  function OverRow(row: Option<Value>, p: Path): Path {
    match AsPath(row)
    case None => p
    case Some(r) => p.(def := p.def.(direct := r.def.direct, role := r.def.role), createdAt := r.createdAt)
  }

  /**
   The change was decided on `loaded`, possibly no longer current, and its save met `row`: the decision is
   legal on what was loaded, and the value is laid over what was there.
   */
  ghost predicate Lands(env: Env, loaded: Option<Value>, row: Option<Value>, next: Value, e: Event) {
    && KeyOfValue(next) == KeyOf(e)
    && match e
       case Created(id, def, at) =>
         && loaded.None? && id != "" && DefinitionFault(env, def).None?
         && next == PathValue(OverRow(row, Path(id, StoredDef(def), Active, ColumnTime(at), ColumnTime(at))))
       case Updated(id, def, at) =>
         && AsPath(loaded).Some? && var p := AsPath(loaded).value;
         && p.id == id && p.status == Active && DefinitionFault(env, def).None?
         && def != p.def && def.direct == p.def.direct && def.role == p.def.role
         && next == PathValue(OverRow(row, p.(def := StoredDef(def), updatedAt := ColumnTime(at))))
       case Retired(id, at) =>
         && AsPath(loaded).Some? && var p := AsPath(loaded).value;
         && p.id == id && p.status == Active
         && next == PathValue(OverRow(row, p.(status := Deactivated, updatedAt := ColumnTime(at))))
       case ScheduleChanged(site, tz, cutoffs, at) =>
         && WellMade(cutoffs) && ScheduleFault(env, tz, cutoffs).None?
         && (loaded.Some? ==> loaded.value.ScheduleValue?)
         && (AsSchedule(loaded).Some? ==> (tz, cutoffs) != (AsSchedule(loaded).value.timezone, AsSchedule(loaded).value.cutoffs))
         && next == ScheduleValue(Schedule(site, tz, ByCptId(env.before, cutoffs),
              if AsSchedule(row).Some? then AsSchedule(row).value.createdAt else ColumnTime(at), ColumnTime(at)))
  }

  /** Every change a use case decides on lands as described, whatever row its save meets, and leaves a loadable value. */
  lemma DecisionsLand(env: Env, cmd: Command, loaded: Option<Value>, row: Option<Value>, active: set<string>)
    requires TotalOrder(env.before) && (row.None? ==> loaded.None?)
    requires loaded.Some? ==> Loadable(env, Target(cmd), loaded.value)
    requires row.Some? ==> Loadable(env, Target(cmd), row.value)
    requires Decide(env, cmd, loaded, active).Changed?
    ensures var d := Decide(env, cmd, loaded, active);
            var next := Stored(env, row, d.value);
            && KeyOf(d.event) == Target(cmd) == KeyOfValue(d.value)
            && Lands(env, loaded, row, next, d.event) && Loadable(env, Target(cmd), next)
  {
    hide TotalOrder, WholeMicros, DefinitionFault, ScheduleFault, WellMade, ByCptId, ColumnTime;
    ColumnTimeTwice(cmd.now);
    match cmd
    case DefinePath(_, def, _) => WholeMicrosTwice(def.cycleTime);
    case RevisePath(_, rev, _) => WholeMicrosTwice(rev.cycleTime);
    case DeactivatePath(_, _) =>
    case DefineSchedule(_, _, cutoffs, _) => {
      FaultlessIdsAreDistinct(env, cmd.timezone, cutoffs);
      if DistinctIds(cutoffs) { ByCptIdFixes(env.before, cutoffs); }
    }
  }

  /** A save that meets what was loaded is a legal succession. */
  lemma LandsWhereLoaded(env: Env, k: Key, prev: Option<Value>, next: Value, e: Event)
    requires prev.Some? ==> Loadable(env, k, prev.value)
    requires Lands(env, prev, prev, next, e)
    ensures Follows(env, prev, next, e)
  {
    hide DefinitionFault, ScheduleFault, WellMade, ByCptId, ColumnTime;
  }

  /** So with nothing in between, every change a use case decides on is a legal succession. */
  lemma DecisionsFollow(env: Env, cmd: Command, current: Option<Value>, active: set<string>)
    requires TotalOrder(env.before)
    requires current.Some? ==> Loadable(env, Target(cmd), current.value)
    requires Decide(env, cmd, current, active).Changed?
    ensures var d := Decide(env, cmd, current, active);
            var next := Stored(env, current, d.value);
            KeyOf(d.event) == Target(cmd) && Follows(env, current, next, d.event) && Loadable(env, Target(cmd), next)
  {
    hide Decide, Stored, Follows, Lands, Loadable, TotalOrder;
    DecisionsLand(env, cmd, current, current, active);
    LandsWhereLoaded(env, Target(cmd), current, Stored(env, current, Decide(env, cmd, current, active).value), Decide(env, cmd, current, active).event);
  }

  lemma ColumnTimeTwice(t: int)
    ensures ColumnTime(ColumnTime(t)) == ColumnTime(t)
  {}

  lemma FaultlessIdsAreDistinct(env: Env, timezone: string, cutoffs: seq<Cutoff>)
    ensures ScheduleFault(env, timezone, cutoffs).None? ==> DistinctIds(cutoffs)
  {}

  lemma WholeMicrosTwice(d: int)
    ensures WholeMicros(WholeMicros(d)) == WholeMicros(d)
  {
    if d < 0 {
      assert -WholeMicros(d) == (-d) / NANOS_PER_MICRO * NANOS_PER_MICRO;
    }
  }

  // ---- a consumer's read model, rebuilt by overwriting ----

  datatype Entry = PathEntry(def: Definition, retired: bool) | ScheduleEntry(timezone: string, cutoffs: seq<Cutoff>)

  function Absorb(seen: Option<Entry>, e: Event): Option<Entry> {
    match e
    case Created(_, def, _) => Some(PathEntry(def, false))
    case Updated(_, def, _) => Some(PathEntry(def, false))
    case Retired(_, _) => if seen.Some? && seen.value.PathEntry? then Some(seen.value.(retired := true)) else seen
    case ScheduleChanged(_, tz, cutoffs, _) => Some(ScheduleEntry(tz, cutoffs))
  }

  /** What of a stored aggregate a read model can hold. */
  function View(v: Value): Entry {
    match v
    case PathValue(p) => PathEntry(p.def, p.status == Deactivated)
    case ScheduleValue(s) => ScheduleEntry(s.timezone, s.cutoffs)
  }

  /** An entry at the precision and in the order of the database columns. */
  function AtColumnPrecision(env: Env, x: Entry): Entry {
    match x
    case PathEntry(def, retired) => PathEntry(StoredDef(def), retired)
    case ScheduleEntry(tz, cutoffs) => ScheduleEntry(tz, ByCptId(env.before, cutoffs))
  }

  ghost predicate Mirrors(env: Env, x: Option<Entry>, v: Option<Value>) {
    match v
    case None => x.None?
    case Some(value) => x.Some? && AtColumnPrecision(env, x.value) == View(value)
  }

  // ---- where the store is coarser than the events ----

  /** The submitted definition loses nothing in the columns. */
  ghost predicate FitsColumns(env: Env, e: Event) {
    match e
    case Created(_, def, _) => def.cycleTime % NANOS_PER_MICRO == 0
    case Updated(_, def, _) => def.cycleTime % NANOS_PER_MICRO == 0
    case Retired(_, _) => true
    case ScheduleChanged(_, _, cutoffs, _) => Ascending(env.before, CptIds(cutoffs))
  }

  lemma WholeMicrosExact(d: int)
    requires d > 0
    ensures WholeMicros(d) == d <==> d % NANOS_PER_MICRO == 0
    ensures 0 <= WholeMicros(d) <= d < WholeMicros(d) + NANOS_PER_MICRO
    ensures WholeMicros(d) > 0 <==> d >= NANOS_PER_MICRO
  {}

  /** A stored path passes `validate` again exactly when its cycle time was at least one microsecond. */
  lemma StoredPathIsValidIff(env: Env, def: Definition)
    requires DefinitionFault(env, def).None?
    ensures DefinitionFault(env, StoredDef(def)) == if def.cycleTime >= NANOS_PER_MICRO then None else Some(InvalidCycleTime)
  {
    WholeMicrosExact(def.cycleTime);
  }

  /** The request that sends an event's definition again. */
  function Resubmission(e: Event, now: int): Command
    requires !e.Retired?
  {
    match e
    case Created(id, def, _) => RevisePath(id, Revision(def.matchPrefix, def.capabilities, def.cycleTime, def.eligibility), now)
    case Updated(id, def, _) => RevisePath(id, Revision(def.matchPrefix, def.capabilities, def.cycleTime, def.eligibility), now)
    case ScheduleChanged(site, tz, cutoffs, _) => DefineSchedule(site, tz, cutoffs, now)
  }

  /** The same definition, published once more. */
  function Republication(e: Event, now: int): Event
    requires !e.Retired?
  {
    match e
    case Created(id, def, _) => Updated(id, def, now)
    case Updated(id, def, _) => Updated(id, def, now)
    case ScheduleChanged(site, tz, cutoffs, _) => ScheduleChanged(site, tz, cutoffs, now)
  }

  /** Sending an accepted definition again is a no-op exactly when the columns hold all of it, and else publishes it again. */
  lemma ResubmissionIsNoOpIff(env: Env, prev: Option<Value>, next: Value, e: Event, active: set<string>, now: int)
    requires TotalOrder(env.before) && Follows(env, prev, next, e) && !e.Retired?
    requires e.ScheduleChanged? ==> EligibleIds(e.cutoffs) <= active
    ensures var d := Decide(env, Resubmission(e, now), Some(next), active);
            if FitsColumns(env, e) then d.Unchanged? else d.Changed? && d.event == Republication(e, now)
  {
    hide TotalOrder, WholeMicros, WellMade, ColumnTime;
    match e
    case Created(_, def, _) => WholeMicrosExact(def.cycleTime);
    case Updated(_, def, _) => WholeMicrosExact(def.cycleTime);
    case ScheduleChanged(_, _, cutoffs, _) => ByCptIdFixes(env.before, cutoffs);
  }

  /** The republication is real: one nanosecond past the microsecond, and the same revision publishes again. */
  lemma SubMicrosecondRevisionRepublishes(env: Env)
    requires env.isLower("pick")
    ensures var def := Definition("pick", false, ["pick"], "", 1001, Eligibility(None, [], [], false));
            var rev := Revision("pick", ["pick"], 1001, def.eligibility);
            var p := Path("PICK", StoredDef(def), Active, 0, 0);
            && Decide(env, DefinePath("PICK", def, 0), None, {}) == Changed(PathValue(p.(def := def)), Created("PICK", def, 0))
            && Decide(env, RevisePath("PICK", rev, 0), Some(PathValue(p)), {}) == Changed(PathValue(p.(def := def)), Updated("PICK", def, 0))
  {}
}
