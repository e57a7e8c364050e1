/**
 The write use cases as the code runs them: load, let the aggregate decide, then save and publish inside
 the unit of work. Each call's `trace` is the run of the outbox machine it amounts to.
 */
module UseCases {
  import opened Shared
  import opened ProcessPaths
  import opened CptSchedules
  import opened Catalogue
  import opened Outbox
  import opened OutboxInvariant
  import opened Commands
  import opened Infrastructure
  import opened Interference
  import opened Decisions
  import Replay

  /** OutboxPublisher: the event's row for every encoder, in order, up to the first error. */
  class OutboxPublisher {
    const world: World

    constructor (world: World)
      ensures this.world == world
    {
      this.world := world;
    }

    method Publish(t: nat, ghost s0: State, ghost joined: bool, ghost w: Work) returns (ok: bool, ghost trace: seq<Step>)
      requires w.Saved? && w.ids == [] && w.rows == map[] && (joined ==> w.key.id != "")
      requires world.s == s0.(txs := s0.txs[t := Tx(joined, w, Clean)])
      modifies world
      ensures world.s == Exec(world.env, old(world.s), trace)
      ensures ok ==> world.s == s0.(txs := s0.txs[t := Tx(joined, Whole(w, s0.nextId), Clean)], nextId := s0.nextId + 2)
      ensures !ok ==> Doomed(s0, world.s, t, joined)
      ensures world.calm && w.key.id != "" ==> ok
    {
      hide Apply, Enabled, Doomed, Exec;
      ghost var env, base := world.env, world.s;
      EmptyRun(env, base);
      trace := [];
      for i := 0 to |ENCODERS|
        invariant world.s == Writing(s0, t, joined, w, i) == Exec(env, base, trace)
      {
        InsertHolds(env, s0, t, joined, w, i);
        if w.key.id != "" { InsertGoesOn(env, s0, t, joined, w, i); }
        ghost var e;
        var fine: bool;
        fine, e := world.Insert(t);
        ExecSnoc(env, base, trace, e);
        trace := trace + [e];
        if !fine { return false, trace; }
      }
      return true, trace;
    }
  }

  lemma OneStep(env: Env, s: State, e: Step)
    ensures Exec(env, s, [e]) == Apply(env, s, e)
  {
    hide Apply;
    EmptyRun(env, s);
    ExecSnoc(env, s, [], e);
    assert [] + [e] == [e];
  }

  /**
   How a deciding command's writes end. In its own transaction all of it is committed, or none of it is,
   and success means all. Inside the middleware's transaction all of it is prepared, or the transaction
   can only roll back.
   */
  ghost predicate WritesEnd(env: Env, s: State, n: State, t: nat, joined: bool, cmd: Command, version: nat, active: set<string>, ok: bool)
    requires Decides(env, s.history, cmd, version, active)
  {
    if joined then
      if ok then n == Prepared(env, s, t, true, cmd, version, active) else Doomed(s, n, t, true)
    else
      n == AfterCommand(env, s, cmd, version, active) || (!ok && SameCommitted(s, n) && n.txs == s.txs)
  }

  class UnitOfWork {
    const world: World
    const publisher: OutboxPublisher

    constructor (world: World)
      ensures this.world == world && publisher.world == world
    {
      this.world := world;
      publisher := new OutboxPublisher(world);
    }

    /** The function every use case hands to `Execute`: save the aggregate, then publish its event. */
    method SaveAndPublish(t: nat, v: Value, e: Event, version: nat, ghost s0: State, ghost joined: bool, ghost cmd: Command, ghost active: set<string>)
      returns (ok: bool, ghost trace: seq<Step>)
      requires publisher.world == world && t !in s0.txs && world.s == Begun(s0, t, joined)
      requires Decides(world.env, s0.history, cmd, version, active) && KeyOfValue(v) == Target(cmd)
      requires Decide(world.env, cmd, Before(Hist(s0.history, Target(cmd)), version), active) == Changed(v, e)
      requires joined ==> cmd.DefinePath? && Target(cmd).id != ""
      modifies world
      ensures world.s == Exec(world.env, old(world.s), trace)
      ensures ok ==> world.s == Prepared(world.env, s0, t, joined, cmd, version, active)
      ensures !ok ==> Doomed(s0, world.s, t, joined)
      ensures world.calm && Unlocked(s0.txs, Target(cmd)) && Target(cmd).id != "" ==> ok
    {
      hide Apply, Enabled, Doomed, Exec, Decide, Decides, Stored, Unlocked;
      ghost var env, base := world.env, world.s;
      SaveHolds(env, s0, world.s, t, joined, cmd, version, active);
      ghost var saved := Step.Save(t, cmd, version, active);
      ok := world.Save(t, v, e, version, cmd, active);
      if !ok {
        OneStep(env, base, SqlError(t));
        return false, [SqlError(t)];
      }
      OneStep(env, base, saved);
      ghost var s1 := s0.(nextEvent := s0.nextEvent + 1);
      ghost var tail;
      ok, tail := publisher.Publish(t, s1, joined, Saving(env, s0, cmd, version, active));
      ExecAppend(env, base, [saved], tail);
      if !ok { DoomedSince(s0, s1, world.s, t, joined); }
      return ok, [saved] + tail;
    }

    /** Joins the transaction `bound`, or runs its own under the id `t` and commits or rolls it back. */
    method Execute(bound: Option<nat>, t: nat, v: Value, e: Event, version: nat, ghost s0: State, ghost cmd: Command, ghost active: set<string>)
      returns (ok: bool, ghost trace: seq<Step>)
      requires publisher.world == world && t !in s0.txs
      requires if bound.Some? then bound == Some(t) && world.s == Begun(s0, t, true) else world.s == s0
      requires bound.Some? ==> cmd.DefinePath? && Target(cmd).id != ""
      requires Decides(world.env, s0.history, cmd, version, active) && KeyOfValue(v) == Target(cmd)
      requires Decide(world.env, cmd, Before(Hist(s0.history, Target(cmd)), version), active) == Changed(v, e)
      modifies world
      ensures world.s == Exec(world.env, old(world.s), trace)
      ensures WritesEnd(world.env, s0, world.s, t, bound.Some?, cmd, version, active, ok)
      ensures world.calm && Unlocked(s0.txs, Target(cmd)) && Target(cmd).id != "" ==> ok
    {
      hide Apply, Enabled, Doomed, Exec, Decide, Decides, Stored, Unlocked, Prepared, AfterCommand;
      ghost var env, base := world.env, world.s;
      if bound.Some? {
        ok, trace := SaveAndPublish(bound.value, v, e, version, s0, true, cmd, active);
        return;
      }
      EmptyRun(env, s0);
      var begun := world.Begin(t, false);
      if !begun { return false, []; }
      BeginRuns(env, s0, t);
      OneStep(env, s0, Step.Begin(t, false));
      ghost var s1, tail, last := world.s, [], Step.Rollback(t);
      ok, tail := SaveAndPublish(t, v, e, version, s0, false, cmd, active);
      ExecAppend(env, s0, [Step.Begin(t, false)], tail);
      trace := [Step.Begin(t, false)] + tail;
      if !ok {
        DoomedRollsBack(env, s0, world.s, t);
        world.Rollback(t);
      } else {
        PreparedCommits(env, s0, t, false, cmd, version, active);
        PreparedRollsBack(env, s0, t, false, cmd, version, active);
        ok, last := world.Commit(t);
      }
      ExecSnoc(env, s0, trace, last);
      return ok, trace + [last];
    }
  }

  lemma BeginRuns(env: Env, s: State, t: nat)
    requires t !in s.txs
    ensures Apply(env, s, Begin(t, false)) == Begun(s, t, false)
  {}

  lemma DoomedSince(s0: State, s1: State, n: State, t: nat, joined: bool)
    requires SameCommitted(s0, s1) && s1.txs == s0.txs && Doomed(s1, n, t, joined)
    ensures Doomed(s0, n, t, joined)
  {}

  lemma DoomedRollsBack(env: Env, s: State, n: State, t: nat)
    requires t !in s.txs && Doomed(s, n, t, false)
    ensures t in n.txs
    ensures var x := Apply(env, n, Rollback(t)); SameCommitted(s, x) && x.txs == s.txs
  {
    DoomedInstallsNothing(env, s, n, t, false);
  }

  lemma PreparedRollsBack(env: Env, s: State, t: nat, joined: bool, cmd: Command, version: nat, active: set<string>)
    requires t !in s.txs && Decides(env, s.history, cmd, version, active)
    ensures var x := Apply(env, Prepared(env, s, t, joined, cmd, version, active), Rollback(t));
            SameCommitted(s, x) && x.txs == s.txs
  {
    hide Decides, Decide, Stored, NewRow;
    var n := Prepared(env, s, t, joined, cmd, version, active);
    assert n.txs - {t} == s.txs;
  }

  // ---- the four use cases ----

  /** `Broken`: an error of the database, the encoder or the commit. */
  datatype Outcome = Done | Declined(why: Refusal) | Broken

  /** `mid` is what `s` became while others acted. */
  ghost predicate Later(env: Env, s: State, mid: State, t: nat) {
    exists others :: Foreign(others, Some(t), true) && mid == Exec(env, s, others)
  }

  /** What the use case decides on what is committed in `s`. */
  function Decision(env: Env, s: State, cmd: Command): Verdict {
    Decide(env, cmd, Lookup(s.store, Target(cmd)), ActiveIds(s.store))
  }

  /**
   What a use case leaves: the decision over the committed data it loaded in `s`, carried out whole on what
   others had made of that by `mid`. Both leave out the middleware's transaction; `was` and `n` are the
   states before and after the call.
   */
  ghost predicate CarriedOut(env: Env, s: State, mid: State, was: State, n: State, t: nat, joined: bool, cmd: Command, outcome: Outcome) {
    var d, version, active := Decision(env, s, cmd), |Hist(s.history, Target(cmd))|, ActiveIds(s.store);
    match outcome
    case Declined(why) => d == Refused(why) && n == was
    case Done =>
      || (d.Unchanged? && n == was)
      || (d.Changed? && Decides(env, mid.history, cmd, version, active) && WritesEnd(env, mid, n, t, joined, cmd, version, active, true))
    case Broken =>
      || (if joined then Doomed(s, n, t, true) else n == was)
      || (d.Changed? && Decides(env, mid.history, cmd, version, active) && WritesEnd(env, mid, n, t, joined, cmd, version, active, false))
  }

  /** The load failed: the bound transaction is poisoned, or nothing happened at all. */
  lemma LoadFails(env: Env, s: State, was: State, t: nat, joined: bool, cmd: Command)
    requires was == if joined then Begun(s, t, true) else s
    ensures var n := if joined then Apply(env, was, SqlError(t)) else was;
            CarriedOut(env, s, s, was, n, t, joined, cmd, Broken)
  {
    hide Decide, Decides, WritesEnd, ActiveIds;
    if joined {
      var n := Apply(env, was, SqlError(t));
      assert n.txs == s.txs[t := Tx(true, Nothing, SqlFailed)];
      Dooms(s, n, t, Tx(true, Nothing, SqlFailed));
    }
  }

  lemma Unwritten(env: Env, s: State, was: State, t: nat, joined: bool, cmd: Command)
    ensures var d := Decision(env, s, cmd);
            (d.Refused? ==> CarriedOut(env, s, s, was, was, t, joined, cmd, Declined(d.why)))
            && (d.Unchanged? ==> CarriedOut(env, s, s, was, was, t, joined, cmd, Done))
  {
    hide Decide, ActiveIds;
  }

  lemma Written(env: Env, s: State, mid: State, was: State, n: State, t: nat, joined: bool, cmd: Command, ok: bool)
    requires var version, active := |Hist(s.history, Target(cmd))|, ActiveIds(s.store);
             && Decision(env, s, cmd).Changed? && Decides(env, mid.history, cmd, version, active)
             && WritesEnd(env, mid, n, t, joined, cmd, version, active, ok)
    ensures CarriedOut(env, s, mid, was, n, t, joined, cmd, if ok then Done else Broken)
  {
    hide Decision, Decides, ActiveIds, WritesEnd;
  }

  lemma NobodyElse(env: Env, s: State, t: nat)
    ensures Later(env, s, s, t)
  {
    EmptyRun(env, s);
    assert Foreign([], Some(t), true);
  }

  lemma StoredUnderItsKey(env: Env, s: State, k: Key)
    requires Inv(env, s)
    ensures var h := Hist(s.history, k); Lookup(s.store, k) == Before(h, |h|)
    ensures k in s.store ==> KeyOfValue(s.store[k]) == k
  {
    hide Inv, Landed;
    Replay.StoreIsLatest(env, s, k);
    VersionsLoadable(env, k, Hist(s.history, k), |Hist(s.history, k)|);
  }

  // ---- what a finished use case has stored and published ----

  /** The last change of `k` is `e`, its value stored. */
  ghost predicate Published(s: State, k: Key, e: Event) {
    var h := Hist(s.history, k);
    h != [] && h[|h| - 1].event == e && Lookup(s.store, k) == Some(h[|h| - 1].value)
  }

  lemma AfterCommandPublishes(env: Env, s: State, cmd: Command, version: nat, active: set<string>)
    requires Decides(env, s.history, cmd, version, active)
    ensures var d := Decide(env, cmd, Before(Hist(s.history, Target(cmd)), version), active);
            var n := AfterCommand(env, s, cmd, version, active);
            Published(n, Target(cmd), d.event) && Lookup(n.store, Target(cmd)) == Some(Stored(env, Lookup(s.store, Target(cmd)), d.value))
  {
    hide Decide, Stored, NewRow;
  }

  lemma StillLoaded(env: Env, s: State, mid: State, t: nat, k: Key)
    requires Inv(env, s) && Later(env, s, mid, t)
    ensures var h := Hist(s.history, k); |h| <= |Hist(mid.history, k)| && Before(Hist(mid.history, k), |h|) == Lookup(s.store, k)
  {
    hide Inv, Exec, Foreign;
    StoredUnderItsKey(env, s, k);
    var others :| Foreign(others, Some(t), true) && mid == Exec(env, s, others);
    ChangesStay(env, s, others, k);
    var h, n := Hist(s.history, k), Hist(mid.history, k);
    if h != [] { assert n[|h| - 1] == h[|h| - 1]; }
  }

  /** A successful use case of its own: silent where there was nothing to do, and else the decided event is out and its value stored. */
  lemma DoneMeans(env: Env, s: State, mid: State, n: State, t: nat, cmd: Command)
    requires Inv(env, s) && Later(env, s, mid, t) && CarriedOut(env, s, mid, s, n, t, false, cmd, Done)
    ensures var d := Decide(env, cmd, Lookup(s.store, Target(cmd)), ActiveIds(s.store));
            match d
            case Refused(_) => false
            case Unchanged => n == s
            case Changed(v, e) => Published(n, Target(cmd), e) && Lookup(n.store, Target(cmd)) == Some(Stored(env, Lookup(mid.store, Target(cmd)), v))
  {
    hide Inv, Decide, Stored, Later, AfterCommand, Published, ActiveIds;
    StillLoaded(env, s, mid, t, Target(cmd));
    var version, active := |Hist(s.history, Target(cmd))|, ActiveIds(s.store);
    if Decides(env, mid.history, cmd, version, active) { AfterCommandPublishes(env, mid, cmd, version, active); }
  }

  lemma IsLoadable(env: Env, s: State, k: Key)
    requires Inv(env, s)
    ensures k in s.store ==> Loadable(env, k, s.store[k])
  {
    hide Inv, Landed;
    Replay.StoreIsLatest(env, s, k);
    VersionsLoadable(env, k, Hist(s.history, k), |Hist(s.history, k)|);
  }

  lemma ActiveMeans(store: map<Key, Value>, id: string)
    ensures id in ActiveIds(store) <==>
            PathKey(id) in store && store[PathKey(id)].PathValue? && store[PathKey(id)].path.status == Active
  {
    if PathKey(id) in store && store[PathKey(id)].PathValue? && store[PathKey(id)].path.status == Active {
      assert PathKey(id).id in ActiveIds(store);
    }
  }

  lemma StoredPathMeans(env: Env, row: Option<Value>, p: Path)
    ensures var v := Stored(env, row, PathValue(p));
            && v.PathValue? && v.path.status == p.status
            && v.path.def.matchPrefix == p.def.matchPrefix && v.path.def.capabilities == p.def.capabilities
            && v.path.def.eligibility == p.def.eligibility && v.path.def.cycleTime == WholeMicros(p.def.cycleTime)
            && (row.None? ==> v.path.def.direct == p.def.direct && v.path.def.role == p.def.role)
  {}

  lemma DefineDone(env: Env, s: State, mid: State, n: State, t: nat, id: string, def: Definition, now: int)
    requires Inv(env, s) && Later(env, s, mid, t) && CarriedOut(env, s, mid, s, n, t, false, Command.DefinePath(id, def, now), Done)
    ensures PathKey(id) !in s.store && Published(n, PathKey(id), Created(id, def, now)) && PathKey(id) in n.store
    ensures var v := n.store[PathKey(id)];
            && v.PathValue? && v.path.status == Active && v.path.def.matchPrefix == def.matchPrefix
            && v.path.def.capabilities == def.capabilities && v.path.def.eligibility == def.eligibility
            && v.path.def.cycleTime == WholeMicros(def.cycleTime)
            && (PathKey(id) !in mid.store ==> v.path.def.direct == def.direct && v.path.def.role == def.role)
  {
    hide Inv, Decide, Stored, Later, CarriedOut, Loadable, WholeMicros, Hist;
    var k := PathKey(id);
    DoneMeans(env, s, mid, n, t, Command.DefinePath(id, def, now));
    IsLoadable(env, s, k);
    StoredUnderItsKey(env, s, k);
    DefineDecides(env, id, def, now, Lookup(s.store, k), ActiveIds(s.store));
    StoredPathMeans(env, Lookup(mid.store, k), Path(id, def, Active, now, now));
  }

  lemma ReviseDone(env: Env, s: State, mid: State, n: State, t: nat, id: string, rev: Revision, now: int)
    requires Inv(env, s) && Later(env, s, mid, t) && CarriedOut(env, s, mid, s, n, t, false, Command.RevisePath(id, rev, now), Done)
    ensures PathKey(id) in s.store && s.store[PathKey(id)].PathValue? && s.store[PathKey(id)].path.status == Active
    ensures PathKey(id) in n.store && n.store[PathKey(id)].PathValue?
    ensures var was, def := s.store[PathKey(id)].path.def, n.store[PathKey(id)].path.def;
            && n.store[PathKey(id)].path.status == Active
            && def.matchPrefix == rev.matchPrefix && def.capabilities == rev.capabilities && def.eligibility == rev.eligibility
            && def.cycleTime == WholeMicros(rev.cycleTime)
            && if (was.matchPrefix, was.capabilities, was.cycleTime, was.eligibility) == (rev.matchPrefix, rev.capabilities, rev.cycleTime, rev.eligibility)
               then n == s
               else Published(n, PathKey(id), Updated(id, Definition(rev.matchPrefix, was.direct, rev.capabilities, was.role, rev.cycleTime, rev.eligibility), now))
  {
    hide Inv, Decide, Stored, Later, CarriedOut, WholeMicros, Hist, Published;
    var k := PathKey(id);
    DoneMeans(env, s, mid, n, t, Command.RevisePath(id, rev, now));
    IsLoadable(env, s, k);
    StoredUnderItsKey(env, s, k);
    ReviseDecides(env, id, rev, now, Lookup(s.store, k), ActiveIds(s.store));
    PublishedIsStored(n, k);
    if k in s.store && s.store[k].PathValue? {
      var p := s.store[k].path;
      StoredPathMeans(env, Lookup(mid.store, k),
        Path(id, Definition(rev.matchPrefix, p.def.direct, rev.capabilities, p.def.role, rev.cycleTime, rev.eligibility), Active, p.createdAt, now));
    }
  }

  lemma PublishedIsStored(n: State, k: Key)
    ensures Lookup(n.store, k).Some? <==> k in n.store
  {}

  lemma DeactivateDone(env: Env, s: State, mid: State, n: State, t: nat, id: string, now: int)
    requires Inv(env, s) && Later(env, s, mid, t) && CarriedOut(env, s, mid, s, n, t, false, Command.DeactivatePath(id, now), Done)
    ensures PathKey(id) in s.store && s.store[PathKey(id)].PathValue?
    ensures PathKey(id) in n.store && n.store[PathKey(id)].PathValue? && n.store[PathKey(id)].path.status == Deactivated
    ensures if s.store[PathKey(id)].path.status == Deactivated then n == s else Published(n, PathKey(id), Retired(id, now))
  {
    hide Inv, Decide, Stored, Later, CarriedOut, Hist, Published;
    var k := PathKey(id);
    DoneMeans(env, s, mid, n, t, Command.DeactivatePath(id, now));
    IsLoadable(env, s, k);
    StoredUnderItsKey(env, s, k);
    DeactivateDecides(env, id, now, Lookup(s.store, k), ActiveIds(s.store));
    PublishedIsStored(n, k);
    if k in s.store && s.store[k].PathValue? {
      StoredPathMeans(env, Lookup(mid.store, k), Path(id, s.store[k].path.def, Deactivated, s.store[k].path.createdAt, now));
    }
  }

  lemma ScheduleDone(env: Env, s: State, mid: State, n: State, t: nat, site: string, timezone: string, cutoffs: seq<Cutoff>, now: int)
    requires Inv(env, s) && Later(env, s, mid, t) && TotalOrder(env.before)
    requires CarriedOut(env, s, mid, s, n, t, false, DefineSchedule(site, timezone, cutoffs, now), Done)
    ensures forall c, id :: c in cutoffs && id in c.eligiblePathIds ==>
              PathKey(id) in s.store && s.store[PathKey(id)].PathValue? && s.store[PathKey(id)].path.status == Active
    ensures ScheduleKey(site) in n.store && n.store[ScheduleKey(site)].ScheduleValue?
    ensures var kept := n.store[ScheduleKey(site)].schedule;
            && kept.timezone == timezone && |kept.cutoffs| == |cutoffs| && (forall c :: c in kept.cutoffs <==> c in cutoffs)
            && Ascending(env.before, CptIds(kept.cutoffs))
    ensures if ScheduleKey(site) in s.store && s.store[ScheduleKey(site)].ScheduleValue?
               && s.store[ScheduleKey(site)].schedule.timezone == timezone && s.store[ScheduleKey(site)].schedule.cutoffs == cutoffs
            then n == s
            else Published(n, ScheduleKey(site), ScheduleChanged(site, timezone, cutoffs, now))
  {
    hide Inv, Decide, Later, CarriedOut, Hist, Published, TotalOrder, Ascending, ByCptId, CutoffFault, ActiveIds;
    var k := ScheduleKey(site);
    DoneMeans(env, s, mid, n, t, DefineSchedule(site, timezone, cutoffs, now));
    IsLoadable(env, s, k);
    StoredUnderItsKey(env, s, k);
    ScheduleDecides(env, site, timezone, cutoffs, now, Lookup(s.store, k), ActiveIds(s.store));
    PublishedIsStored(n, k);
    assert DistinctIds(cutoffs);
    ByCptIdSorts(env.before, cutoffs);
    ByCptIdFixes(env.before, cutoffs);
    forall c, id | c in cutoffs && id in c.eligiblePathIds
      ensures PathKey(id) in s.store && s.store[PathKey(id)].PathValue? && s.store[PathKey(id)].path.status == Active
    {
      ActiveMeans(s.store, id);
    }
  }

  lemma AllActiveMeans(store: map<Key, Value>, cutoffs: seq<Cutoff>)
    ensures EligibleIds(cutoffs) <= ActiveIds(store) <==>
            forall c, id :: c in cutoffs && id in c.eligiblePathIds ==>
              PathKey(id) in store && store[PathKey(id)].PathValue? && store[PathKey(id)].path.status == Active
  {
    hide EligibleIds, ActiveIds;
    EligibleMeans(cutoffs, ActiveIds(store));
    forall id ensures id in ActiveIds(store) <==>
                      PathKey(id) in store && store[PathKey(id)].PathValue? && store[PathKey(id)].path.status == Active {
      ActiveMeans(store, id);
    }
  }

  lemma CollationIsTotal(env: Env, s: State)
    requires Inv(env, s)
    ensures TotalOrder(env.before)
  {
    hide StoreInv, RowInv, TxInv, PassInv, LogInv, Bounded;
  }

  lemma DefineJoinedDone(env: Env, s: State, mid: State, was: State, n: State, t: nat, id: string, def: Definition, now: int)
    requires Inv(env, s) && Later(env, s, mid, t) && CarriedOut(env, s, mid, was, n, t, true, Command.DefinePath(id, def, now), Done)
    ensures PathKey(id) !in s.store && t in n.txs && n.txs[t].work.Saved? && n.txs[t].work.event == Created(id, def, now)
    ensures n.txs[t].work.value == Stored(env, Lookup(mid.store, PathKey(id)), PathValue(Path(id, def, Active, now, now)))
  {
    hide Inv, Decide, Stored, Later, Loadable, ActiveIds;
    var k := PathKey(id);
    StillLoaded(env, s, mid, t, k);
    IsLoadable(env, s, k);
    StoredUnderItsKey(env, s, k);
    DefineDecides(env, id, def, now, Lookup(s.store, k), ActiveIds(s.store)) by {
      if k in s.store { KeyOfLoadable(env, k, s.store[k]); }
    }
  }

  lemma KeyOfLoadable(env: Env, k: Key, v: Value)
    requires Loadable(env, k, v)
    ensures KeyOfValue(v) == k
  {}

  /** Nobody holds the row's lock. */
  lemma UnlockedMeans(txs: map<nat, Tx>, k: Key)
    ensures Unlocked(txs, k) <==> forall x :: x in txs && txs[x].work.Saved? ==> txs[x].work.key != k
  {}

  class WriteUseCases {
    const world: World
    const unitOfWork: UnitOfWork

    constructor (world: World)
      ensures this.world == world && unitOfWork.world == world && unitOfWork.publisher.world == world
    {
      this.world := world;
      unitOfWork := new UnitOfWork(world);
    }

    ghost predicate Wired()
    {
      unitOfWork.world == world && unitOfWork.publisher.world == world
    }

    /** `atomically`, some time after the load: whatever others have committed since, the decision is written as it was made. */
    method Atomically(bound: Option<nat>, t: nat, v: Value, e: Event, version: nat, ghost s0: State, ghost cmd: Command)
      returns (ok: bool, ghost mid: State, ghost trace: seq<Step>)
      requires Wired() && t !in s0.txs && Inv(world.env, s0)
      requires if bound.Some? then bound == Some(t) && world.s == Begun(s0, t, true) else world.s == s0
      requires bound.Some? ==> cmd.DefinePath? && Target(cmd).id != ""
      requires Decision(world.env, s0, cmd) == Changed(v, e) && KeyOfValue(v) == Target(cmd) && version == |Hist(s0.history, Target(cmd))|
      modifies world
      ensures world.s == Exec(world.env, old(world.s), trace)
      ensures Later(world.env, s0, mid, t) && (world.alone ==> mid == s0)
      ensures Decides(world.env, mid.history, cmd, version, ActiveIds(s0.store))
      ensures WritesEnd(world.env, mid, world.s, t, bound.Some?, cmd, version, ActiveIds(s0.store), ok)
      ensures world.calm && Unlocked(mid.txs, Target(cmd)) && Target(cmd).id != "" ==> ok
    {
      hide Apply, Exec, Inv, Decide, Decides, WritesEnd, Unlocked, ActiveIds, Foreign;
      ghost var env, was := world.env, world.s;
      StoredUnderItsKey(env, s0, Target(cmd));
      EmptyRun(env, s0);
      EmptyRun(env, was);
      var others := world.Meanwhile(Some(t), true);
      mid := Exec(env, s0, others);
      OthersCommute(env, s0, t, true, others);
      StillDecides(env, s0, others, cmd, ActiveIds(s0.store));
      ok, trace := unitOfWork.Execute(bound, t, v, e, version, mid, cmd, ActiveIds(s0.store));
      ExecAppend(env, was, others, trace);
      trace := others + trace;
    }

    /** `DefinePath.Execute`, alone or under the idempotency middleware's transaction. */
    method DefinePath(bound: Option<nat>, t: nat, id: string, def: Definition, now: int, ghost s0: State)
      returns (outcome: Outcome, ghost mid: State, ghost trace: seq<Step>)
      requires Wired() && t !in s0.txs && Inv(world.env, s0)
      requires if bound.Some? then bound == Some(t) && world.s == Begun(s0, t, true) else world.s == s0
      modifies world
      ensures world.s == Exec(world.env, old(world.s), trace)
      ensures Later(world.env, s0, mid, t) && (world.alone ==> mid == s0)
      ensures CarriedOut(world.env, s0, mid, old(world.s), world.s, t, bound.Some?, Command.DefinePath(id, def, now), outcome)
      ensures world.calm && (forall x :: x in mid.txs && mid.txs[x].work.Saved? ==> mid.txs[x].work.key != PathKey(id)) ==> !outcome.Broken?
      ensures outcome.Done? ==> PathKey(id) !in s0.store
      ensures outcome.Done? && bound.None? ==>
        && Published(world.s, PathKey(id), Created(id, def, now)) && PathKey(id) in world.s.store && world.s.store[PathKey(id)].PathValue?
        && var p := world.s.store[PathKey(id)].path;
        && p.status == Active && p.def.matchPrefix == def.matchPrefix && p.def.capabilities == def.capabilities
        && p.def.eligibility == def.eligibility && p.def.cycleTime == WholeMicros(def.cycleTime)
        && (PathKey(id) !in mid.store ==> p.def.direct == def.direct && p.def.role == def.role)
      ensures outcome.Done? && bound.Some? ==>
        && t in world.s.txs && world.s.txs[t].work.Saved? && world.s.txs[t].work.event == Created(id, def, now)
        && world.s.txs[t].work.value == Stored(world.env, Lookup(mid.store, PathKey(id)), PathValue(Path(id, def, Active, now, now)))
    {
      hide Apply, Enabled, Exec, Inv, CarriedOut, WritesEnd, Decides, Unlocked, ActiveIds, DefinitionFault, Later;
      ghost var env, was, cmd := world.env, world.s, Command.DefinePath(id, def, now);
      EmptyRun(env, was);
      NobodyElse(env, s0, t);
      LoadFails(env, s0, was, t, bound.Some?, cmd);
      Unwritten(env, s0, was, t, bound.Some?, cmd);
      mid := s0;
      var ok, found, version;
      ok, found, version, trace := world.Find(bound, PathKey(id));
      if !ok {
        if bound.Some? { OneStep(env, was, SqlError(t)); }
        return Broken, mid, trace;
      }
      if AsPath(found).Some? { return Declined(PathAlreadyExists), mid, trace; }
      var p := ProcessPath.Define(world.env, id, def, now);
      if p.Err? { return Declined(BadPath(p.error)), mid, trace; }
      var event := Created(id, p.value.Value().def, now);
      ok, mid, trace := Atomically(bound, t, PathValue(p.value.Value()), event, version, s0, cmd);
      Written(env, s0, mid, was, world.s, t, bound.Some?, cmd, ok);
      UnlockedMeans(mid.txs, PathKey(id));
      if ok {
        if bound.None? { DefineDone(env, s0, mid, world.s, t, id, def, now); } else { DefineJoinedDone(env, s0, mid, was, world.s, t, id, def, now); }
      }
      return if ok then Done else Broken, mid, trace;
    }

    method RevisePath(t: nat, id: string, rev: Revision, now: int) returns (outcome: Outcome, ghost mid: State, ghost trace: seq<Step>)
      requires Wired() && t !in world.s.txs && Inv(world.env, world.s)
      modifies world
      ensures world.s == Exec(world.env, old(world.s), trace)
      ensures Later(world.env, old(world.s), mid, t) && (world.alone ==> mid == old(world.s))
      ensures CarriedOut(world.env, old(world.s), mid, old(world.s), world.s, t, false, Command.RevisePath(id, rev, now), outcome)
      ensures world.calm && id != "" && (forall x :: x in mid.txs && mid.txs[x].work.Saved? ==> mid.txs[x].work.key != PathKey(id)) ==>
        !outcome.Broken?
      ensures outcome.Done? ==>
        && PathKey(id) in old(world.s).store && old(world.s).store[PathKey(id)].PathValue?
        && PathKey(id) in world.s.store && world.s.store[PathKey(id)].PathValue?
        && var was, p := old(world.s).store[PathKey(id)].path, world.s.store[PathKey(id)].path;
        && was.status == Active && p.status == Active && p.def.matchPrefix == rev.matchPrefix
        && p.def.capabilities == rev.capabilities && p.def.eligibility == rev.eligibility && p.def.cycleTime == WholeMicros(rev.cycleTime)
        && if (was.def.matchPrefix, was.def.capabilities, was.def.cycleTime, was.def.eligibility)
              == (rev.matchPrefix, rev.capabilities, rev.cycleTime, rev.eligibility) then world.s == old(world.s)
           else Published(world.s, PathKey(id),
                  Updated(id, Definition(rev.matchPrefix, was.def.direct, rev.capabilities, was.def.role, rev.cycleTime, rev.eligibility), now))
    {
      hide Apply, Enabled, Exec, Inv, CarriedOut, WritesEnd, Decides, Unlocked, ActiveIds, DefinitionFault, Later;
      ghost var env, was, cmd := world.env, world.s, Command.RevisePath(id, rev, now);
      EmptyRun(env, was);
      NobodyElse(env, was, t);
      LoadFails(env, was, was, t, false, cmd);
      Unwritten(env, was, was, t, false, cmd);
      StoredUnderItsKey(env, was, PathKey(id));
      mid := was;
      var ok, found, version;
      ok, found, version, trace := world.Find(None, PathKey(id));
      if !ok { return Broken, mid, trace; }
      if AsPath(found).None? { return Declined(PathNotFound), mid, trace; }
      var p := new ProcessPath.Rehydrate(AsPath(found).value);
      var changed, err := p.Revise(world.env, rev, now);
      if err.Some? { return Declined(BadPath(err.value)), mid, trace; }
      if !changed {
        ReviseDone(env, was, mid, world.s, t, id, rev, now);
        return Done, mid, trace;
      }
      var event := Updated(p.id, p.Value().def, now);
      ok, mid, trace := Atomically(None, t, PathValue(p.Value()), event, version, was, cmd);
      Written(env, was, mid, was, world.s, t, false, cmd, ok);
      UnlockedMeans(mid.txs, PathKey(id));
      if ok { ReviseDone(env, was, mid, world.s, t, id, rev, now); }
      return if ok then Done else Broken, mid, trace;
    }

    method DeactivatePath(t: nat, id: string, now: int) returns (outcome: Outcome, ghost mid: State, ghost trace: seq<Step>)
      requires Wired() && t !in world.s.txs && Inv(world.env, world.s)
      modifies world
      ensures world.s == Exec(world.env, old(world.s), trace)
      ensures Later(world.env, old(world.s), mid, t) && (world.alone ==> mid == old(world.s))
      ensures CarriedOut(world.env, old(world.s), mid, old(world.s), world.s, t, false, Command.DeactivatePath(id, now), outcome)
      ensures world.calm && id != "" && (forall x :: x in mid.txs && mid.txs[x].work.Saved? ==> mid.txs[x].work.key != PathKey(id)) ==>
        !outcome.Broken?
      ensures outcome.Done? ==>
        && PathKey(id) in old(world.s).store && old(world.s).store[PathKey(id)].PathValue?
        && PathKey(id) in world.s.store && world.s.store[PathKey(id)].PathValue? && world.s.store[PathKey(id)].path.status == Deactivated
        && if old(world.s).store[PathKey(id)].path.status == Deactivated then world.s == old(world.s)
           else Published(world.s, PathKey(id), Retired(id, now))
    {
      hide Apply, Enabled, Exec, Inv, CarriedOut, WritesEnd, Decides, Unlocked, ActiveIds, Later;
      ghost var env, was, cmd := world.env, world.s, Command.DeactivatePath(id, now);
      EmptyRun(env, was);
      NobodyElse(env, was, t);
      LoadFails(env, was, was, t, false, cmd);
      Unwritten(env, was, was, t, false, cmd);
      StoredUnderItsKey(env, was, PathKey(id));
      mid := was;
      var ok, found, version;
      ok, found, version, trace := world.Find(None, PathKey(id));
      if !ok { return Broken, mid, trace; }
      if AsPath(found).None? { return Declined(PathNotFound), mid, trace; }
      var p := new ProcessPath.Rehydrate(AsPath(found).value);
      if p.status != Active {
        DeactivateDone(env, was, mid, world.s, t, id, now);
        return Done, mid, trace;
      }
      p.Deactivate(now);
      ok, mid, trace := Atomically(None, t, PathValue(p.Value()), Retired(p.id, now), version, was, cmd);
      Written(env, was, mid, was, world.s, t, false, cmd, ok);
      UnlockedMeans(mid.txs, PathKey(id));
      if ok { DeactivateDone(env, was, mid, world.s, t, id, now); }
      return if ok then Done else Broken, mid, trace;
    }

    /** Each id is looked up once; the check accepts exactly when every one of them is Active. */
    method ValidateEligiblePathIds(cutoffs: seq<Cutoff>) returns (outcome: Outcome)
      modifies world
      ensures world.s == old(world.s)
      ensures outcome == Done ==> EligibleIds(cutoffs) <= ActiveIds(world.s.store)
      ensures outcome.Declined? ==> outcome.why == IneligiblePathId && !(EligibleIds(cutoffs) <= ActiveIds(world.s.store))
      ensures !outcome.Broken? ==>
        (outcome.Done? <==> forall c, id :: c in cutoffs && id in c.eligiblePathIds ==>
           PathKey(id) in world.s.store && world.s.store[PathKey(id)].PathValue? && world.s.store[PathKey(id)].path.status == Active)
      ensures world.calm ==> !outcome.Broken?
    {
      var seen: set<string> := {};
      for i := 0 to |cutoffs|
        invariant world.s == old(world.s)
        invariant seen == EligibleIds(cutoffs[..i]) && seen <= ActiveIds(world.s.store)
      {
        var ids := cutoffs[i].eligiblePathIds;
        for j := 0 to |ids|
          invariant world.s == old(world.s) && seen <= ActiveIds(world.s.store)
          invariant forall x :: x in seen <==> x in EligibleIds(cutoffs[..i]) || x in ids[..j]
        {
          if ids[j] in seen { continue; }
          seen := seen + {ids[j]};
          var ok, found, version;
          ghost var none;
          ok, found, version, none := world.Find(None, PathKey(ids[j]));
          if !ok { return Broken; }
          if AsPath(found).None? || AsPath(found).value.status != Active {
            assert cutoffs[i].eligiblePathIds[j] in EligibleIds(cutoffs);
            AllActiveMeans(world.s.store, cutoffs);
            return Declined(IneligiblePathId);
          }
          assert PathKey(ids[j]).id in ActiveIds(world.s.store);
        }
        EligibleIdsGrow(cutoffs, i);
      }
      assert cutoffs[..|cutoffs|] == cutoffs;
      AllActiveMeans(world.s.store, cutoffs);
      return Done;
    }

    /** Cutoffs reach the use case only through `NewCutoff`, so they are well made. */
    method DefineCPTSchedule(t: nat, site: string, timezone: string, cutoffs: seq<Cutoff>, now: int)
      returns (outcome: Outcome, ghost mid: State, ghost trace: seq<Step>)
      requires Wired() && t !in world.s.txs && Inv(world.env, world.s) && WellMade(cutoffs)
      modifies world
      ensures world.s == Exec(world.env, old(world.s), trace)
      ensures Later(world.env, old(world.s), mid, t) && (world.alone ==> mid == old(world.s))
      ensures CarriedOut(world.env, old(world.s), mid, old(world.s), world.s, t, false, DefineSchedule(site, timezone, cutoffs, now), outcome)
      ensures world.calm && site != "" && (forall x :: x in mid.txs && mid.txs[x].work.Saved? ==> mid.txs[x].work.key != ScheduleKey(site)) ==>
        !outcome.Broken?
      ensures outcome.Done? ==>
        && (forall c, id :: c in cutoffs && id in c.eligiblePathIds ==>
              && PathKey(id) in old(world.s).store && old(world.s).store[PathKey(id)].PathValue?
              && old(world.s).store[PathKey(id)].path.status == Active)
        && ScheduleKey(site) in world.s.store && world.s.store[ScheduleKey(site)].ScheduleValue?
        && var kept := world.s.store[ScheduleKey(site)].schedule;
        && kept.timezone == timezone && |kept.cutoffs| == |cutoffs| && (forall c :: c in kept.cutoffs <==> c in cutoffs)
        && Ascending(world.env.before, CptIds(kept.cutoffs))
        && if ScheduleKey(site) in old(world.s).store && old(world.s).store[ScheduleKey(site)].ScheduleValue?
              && old(world.s).store[ScheduleKey(site)].schedule.timezone == timezone
              && old(world.s).store[ScheduleKey(site)].schedule.cutoffs == cutoffs then world.s == old(world.s)
           else Published(world.s, ScheduleKey(site), ScheduleChanged(site, timezone, cutoffs, now))
    {
      hide Apply, Enabled, Exec, Inv, CarriedOut, WritesEnd, Decides, Unlocked, ActiveIds, ScheduleFault, EligibleIds, WellMade, Later;
      ghost var env, was, cmd := world.env, world.s, DefineSchedule(site, timezone, cutoffs, now);
      EmptyRun(env, was);
      CollationIsTotal(env, was);
      NobodyElse(env, was, t);
      LoadFails(env, was, was, t, false, cmd);
      Unwritten(env, was, was, t, false, cmd);
      StoredUnderItsKey(env, was, ScheduleKey(site));
      mid := was;
      var ok, found, version;
      ok, found, version, trace := world.Find(None, ScheduleKey(site));
      if !ok { return Broken, mid, trace; }
      outcome := ValidateEligiblePathIds(cutoffs);
      if outcome != Done { return outcome, mid, trace; }
      var schedule: CptSchedule;
      if AsSchedule(found).None? {
        var r := CptSchedule.Define(world.env, site, timezone, cutoffs, now);
        if r.Err? { return Declined(BadSchedule(r.error)), mid, trace; }
        schedule := r.value;
      } else {
        schedule := new CptSchedule.Rehydrate(AsSchedule(found).value);
        var changed, err := schedule.Revise(world.env, timezone, cutoffs, now);
        if err.Some? { return Declined(BadSchedule(err.value)), mid, trace; }
        if !changed {
          ScheduleDone(env, was, mid, world.s, t, site, timezone, cutoffs, now);
          return Done, mid, trace;
        }
      }
      var event := ScheduleChanged(schedule.siteId, schedule.timezone, schedule.cutoffs, now);
      ok, mid, trace := Atomically(None, t, ScheduleValue(schedule.Value()), event, version, was, cmd);
      Written(env, was, mid, was, world.s, t, false, cmd, ok);
      UnlockedMeans(mid.txs, ScheduleKey(site));
      if ok { ScheduleDone(env, was, mid, world.s, t, site, timezone, cutoffs, now); }
      return if ok then Done else Broken, mid, trace;
    }
  }

  /** The transaction is gone and has left nothing but spent counters. */
  ghost predicate Untouched(s: State, n: State) { SameCommitted(s, n) && n.txs == s.txs }

  lemma BegunEnds(env: Env, s: State, t: nat)
    requires t !in s.txs
    ensures Apply(env, Begun(s, t, true), Commit(t)) == s && Apply(env, Begun(s, t, true), Rollback(t)) == s
  {
    assert s.txs[t := Tx(true, Nothing, Clean)] - {t} == s.txs;
  }

  /**
   A use case inside the middleware's transaction, whatever the middleware then does with it: a commit
   installs the decided change whole, over what others had committed by then, exactly when the use case
   succeeded with one, and nothing in every other case, an error it answered itself included; a rollback
   installs nothing.
   */
  lemma KeyedRequestIsAtomic(env: Env, s: State, mid: State, n: State, t: nat, cmd: Command, outcome: Outcome)
    requires t !in s.txs && t !in mid.txs
    requires CarriedOut(env, s, mid, Begun(s, t, true), n, t, true, cmd, outcome)
    ensures var version, active := |Hist(s.history, Target(cmd))|, ActiveIds(s.store);
            var x := Apply(env, n, Commit(t));
            if outcome == Done && Decision(env, s, cmd).Changed? then
              Decides(env, mid.history, cmd, version, active) && x == AfterCommand(env, mid, cmd, version, active)
            else Untouched(s, x) || Untouched(mid, x)
    ensures var x := Apply(env, n, Rollback(t)); Untouched(s, x) || Untouched(mid, x)
  {
    hide Decide, Decides, Stored, NewRow, ActiveIds, Apply, Prepared, AfterCommand, Doomed;
    var version, active := |Hist(s.history, Target(cmd))|, ActiveIds(s.store);
    BegunEnds(env, s, t);
    if Decides(env, mid.history, cmd, version, active) {
      PreparedCommits(env, mid, t, true, cmd, version, active);
      PreparedRollsBack(env, mid, t, true, cmd, version, active);
    }
    if Doomed(s, n, t, true) { DoomedInstallsNothing(env, s, n, t, true); }
    if Doomed(mid, n, t, true) { DoomedInstallsNothing(env, mid, n, t, true); }
  }
}
