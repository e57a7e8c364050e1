/** What each of the four use cases answers, case by case, in the terms of its request and of what it loaded. */
module Decisions {
  import opened Shared
  import opened ProcessPaths
  import opened CptSchedules
  import opened Catalogue

  /** A definition creates exactly when nothing was loaded and every rule holds; it publishes and stores what was submitted. */
  lemma DefineDecides(env: Env, id: string, def: Definition, now: int, loaded: Option<Value>, active: set<string>)
    requires loaded.Some? ==> KeyOfValue(loaded.value) == PathKey(id)
    ensures match Decide(env, DefinePath(id, def, now), loaded, active)
      case Changed(v, e) =>
        && loaded.None? && id != "" && def.matchPrefix != "" && env.isLower(def.matchPrefix) && def.capabilities != []
        && (def.role == "" || def.role == "Drop" || def.role == "WorkCenter" || def.role == "Shipping") && def.cycleTime > 0
        && v == PathValue(Path(id, def, Active, now, now)) && e == Created(id, def, now)
      case Unchanged => false
      case Refused(PathAlreadyExists) => loaded.Some?
      case Refused(BadPath(EmptyPathId)) => loaded.None? && id == ""
      case Refused(BadPath(EmptyMatchPrefix)) => loaded.None? && id != "" && def.matchPrefix == ""
      case Refused(BadPath(MatchPrefixNotLowercase)) =>
        loaded.None? && id != "" && def.matchPrefix != "" && !env.isLower(def.matchPrefix)
      case Refused(BadPath(NoRequiredCapabilities)) =>
        loaded.None? && id != "" && def.matchPrefix != "" && env.isLower(def.matchPrefix) && def.capabilities == []
      case Refused(BadPath(InvalidDestinationRole)) =>
        && loaded.None? && id != "" && def.matchPrefix != "" && env.isLower(def.matchPrefix) && def.capabilities != []
        && def.role != "" && def.role != "Drop" && def.role != "WorkCenter" && def.role != "Shipping"
      case Refused(BadPath(InvalidCycleTime)) =>
        && loaded.None? && id != "" && def.matchPrefix != "" && env.isLower(def.matchPrefix) && def.capabilities != []
        && (def.role == "" || def.role == "Drop" || def.role == "WorkCenter" || def.role == "Shipping") && def.cycleTime <= 0
      case Refused(_) => false
  {}

  /** A revision changes exactly the four revisable fields of an active path, and is silent exactly when all four are already there. */
  lemma ReviseDecides(env: Env, id: string, rev: Revision, now: int, loaded: Option<Value>, active: set<string>)
    requires loaded.Some? ==> KeyOfValue(loaded.value) == PathKey(id)
    ensures match Decide(env, RevisePath(id, rev, now), loaded, active)
      case Refused(PathNotFound) => loaded.None?
      case Refused(BadPath(PathDeactivated)) => loaded.Some? && loaded.value.path.status == Deactivated
      case Refused(BadPath(EmptyMatchPrefix)) => loaded.Some? && loaded.value.path.status == Active && rev.matchPrefix == ""
      case Refused(BadPath(MatchPrefixNotLowercase)) =>
        loaded.Some? && loaded.value.path.status == Active && rev.matchPrefix != "" && !env.isLower(rev.matchPrefix)
      case Refused(BadPath(NoRequiredCapabilities)) =>
        && loaded.Some? && loaded.value.path.status == Active && rev.matchPrefix != "" && env.isLower(rev.matchPrefix)
        && rev.capabilities == []
      case Refused(BadPath(InvalidDestinationRole)) =>
        && loaded.Some? && loaded.value.path.status == Active && rev.matchPrefix != "" && env.isLower(rev.matchPrefix)
        && rev.capabilities != [] && loaded.value.path.def.role !in ["", "Drop", "WorkCenter", "Shipping"]
      case Refused(BadPath(InvalidCycleTime)) =>
        && loaded.Some? && loaded.value.path.status == Active && rev.matchPrefix != "" && env.isLower(rev.matchPrefix)
        && rev.capabilities != [] && loaded.value.path.def.role in ["", "Drop", "WorkCenter", "Shipping"] && rev.cycleTime <= 0
      case Refused(_) => false
      case Unchanged =>
        && loaded.Some? && loaded.value.path.status == Active
        && rev.matchPrefix == loaded.value.path.def.matchPrefix && rev.capabilities == loaded.value.path.def.capabilities
        && rev.cycleTime == loaded.value.path.def.cycleTime && rev.eligibility == loaded.value.path.def.eligibility
      case Changed(v, e) =>
        && loaded.Some? && loaded.value.path.status == Active && rev.matchPrefix != "" && env.isLower(rev.matchPrefix)
        && rev.capabilities != [] && loaded.value.path.def.role in ["", "Drop", "WorkCenter", "Shipping"] && rev.cycleTime > 0
        && (rev.matchPrefix != loaded.value.path.def.matchPrefix || rev.capabilities != loaded.value.path.def.capabilities
            || rev.cycleTime != loaded.value.path.def.cycleTime || rev.eligibility != loaded.value.path.def.eligibility)
        && var def := Definition(rev.matchPrefix, loaded.value.path.def.direct, rev.capabilities, loaded.value.path.def.role, rev.cycleTime, rev.eligibility);
        v == PathValue(Path(id, def, Active, loaded.value.path.createdAt, now)) && e == Updated(id, def, now)
  {}

  /** A deactivation retires an active path, keeping all else, and is silent on a retired one. */
  lemma DeactivateDecides(env: Env, id: string, now: int, loaded: Option<Value>, active: set<string>)
    requires loaded.Some? ==> KeyOfValue(loaded.value) == PathKey(id)
    ensures match Decide(env, DeactivatePath(id, now), loaded, active)
      case Refused(why) => loaded.None? && why == PathNotFound
      case Unchanged => loaded.Some? && loaded.value.path.status == Deactivated
      case Changed(v, e) =>
        && loaded.Some? && loaded.value.path.status == Active && e == Retired(id, now)
        && v == PathValue(Path(id, loaded.value.path.def, Deactivated, loaded.value.path.createdAt, now))
  {}

  /** The path check comes first, then the schedule's own rules; what passes replaces the whole, or is silent when it is already there. */
  lemma ScheduleDecides(env: Env, site: string, timezone: string, cutoffs: seq<Cutoff>, now: int, loaded: Option<Value>, active: set<string>)
    requires loaded.Some? ==> KeyOfValue(loaded.value) == ScheduleKey(site)
    ensures var eligible := forall c, id :: c in cutoffs && id in c.eligiblePathIds ==> id in active;
            var distinct := forall i, j :: 0 <= i < j < |cutoffs| ==> cutoffs[i].cptId != cutoffs[j].cptId;
            var made := forall c :: c in cutoffs ==> CutoffFault(c).None?;
      match Decide(env, DefineSchedule(site, timezone, cutoffs, now), loaded, active)
      case Refused(MalformedCutoff) => !made
      case Refused(IneligiblePathId) => made && !eligible
      case Refused(BadSchedule(EmptyTimezone)) => made && eligible && timezone == ""
      case Refused(BadSchedule(InvalidTimezone)) => made && eligible && timezone != "" && !env.knownZone(timezone)
      case Refused(BadSchedule(NoCutoffs)) => made && eligible && timezone != "" && env.knownZone(timezone) && cutoffs == []
      case Refused(BadSchedule(DuplicateCptId)) => made && eligible && timezone != "" && env.knownZone(timezone) && !distinct
      case Refused(_) => false
      case Unchanged =>
        && made && eligible && timezone != "" && env.knownZone(timezone) && cutoffs != [] && distinct
        && loaded.Some? && loaded.value.schedule.timezone == timezone && loaded.value.schedule.cutoffs == cutoffs
      case Changed(v, e) =>
        && made && eligible && timezone != "" && env.knownZone(timezone) && cutoffs != [] && distinct
        && (loaded.Some? ==> loaded.value.schedule.timezone != timezone || loaded.value.schedule.cutoffs != cutoffs)
        && v == ScheduleValue(Schedule(site, timezone, cutoffs, if loaded.Some? then loaded.value.schedule.createdAt else now, now))
        && e == ScheduleChanged(site, timezone, cutoffs, now)
  {
    hide CutoffFault;
    EligibleMeans(cutoffs, active);
  }

  lemma EligibleMeans(cutoffs: seq<Cutoff>, active: set<string>)
    ensures EligibleIds(cutoffs) <= active <==> forall c, id :: c in cutoffs && id in c.eligiblePathIds ==> id in active
  {
    if EligibleIds(cutoffs) <= active {
      forall c, id | c in cutoffs && id in c.eligiblePathIds ensures id in active {
        var i :| 0 <= i < |cutoffs| && cutoffs[i] == c;
        var j :| 0 <= j < |c.eligiblePathIds| && cutoffs[i].eligiblePathIds[j] == id;
        assert id in EligibleIds(cutoffs);
      }
    }
    if forall c, id :: c in cutoffs && id in c.eligiblePathIds ==> id in active {
      forall id | id in EligibleIds(cutoffs) ensures id in active {
        var i, j :| 0 <= i < |cutoffs| && 0 <= j < |cutoffs[i].eligiblePathIds| && cutoffs[i].eligiblePathIds[j] == id;
        assert cutoffs[i] in cutoffs && id in cutoffs[i].eligiblePathIds;
      }
    }
  }
}
