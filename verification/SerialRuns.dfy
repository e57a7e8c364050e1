/** Runs of whole use cases one after another: what holds across aggregates. */
module SerialRuns {
  import opened Shared
  import opened ProcessPaths
  import opened CptSchedules
  import opened Catalogue

  /** The stored aggregates and every event published so far, in order. */
  datatype System = System(store: map<Key, Value>, events: seq<Event>)

  /** One use case, alone. No encoder takes an empty subject, so a change of such an aggregate is rolled back. */
  ghost function Perform(env: Env, c: System, cmd: Command): System {
    var k := Target(cmd);
    match Decide(env, cmd, Lookup(c.store, k), ActiveIds(c.store))
    case Changed(v, e) => if k.id == "" then c else System(c.store[k := Stored(env, Lookup(c.store, k), v)], c.events + [e])
    case _ => c
  }

  ghost function PerformAll(env: Env, cmds: seq<Command>): System {
    if cmds == [] then System(map[], [])
    else Perform(env, PerformAll(env, cmds[..|cmds| - 1]), cmds[|cmds| - 1])
  }

  ghost predicate CreatedIn(events: seq<Event>, id: string) {
    exists i :: 0 <= i < |events| && events[i].Created? && events[i].id == id
  }

  ghost predicate RetiredIn(events: seq<Event>, id: string) {
    exists i :: 0 <= i < |events| && events[i].Retired? && events[i].id == id
  }

  /** A schedule event names only paths created before it and not retired before it. */
  ghost predicate NamesLivePaths(events: seq<Event>, i: nat)
    requires i < |events|
  {
    events[i].ScheduleChanged? ==>
      forall id :: id in EligibleIds(events[i].cutoffs) ==> CreatedIn(events[..i], id) && !RetiredIn(events[..i], id)
  }

  ghost predicate NamesStoredPaths(store: map<Key, Value>, k: Key) {
    k in store && store[k].ScheduleValue? ==>
      forall id :: id in EligibleIds(store[k].schedule.cutoffs) ==> PathKey(id) in store
  }

  ghost predicate AgreesOn(c: System, id: string) {
    && (PathKey(id) in c.store <==> CreatedIn(c.events, id))
    && (PathKey(id) in c.store ==> c.store[PathKey(id)].PathValue?)
    && (RetiredIn(c.events, id) <==> PathKey(id) in c.store && c.store[PathKey(id)].path.status == Deactivated)
  }

  ghost predicate Sound(env: Env, c: System) {
    && (forall k :: k in c.store ==> Loadable(env, k, c.store[k]) && k.id != "")
    && (forall id :: AgreesOn(c, id))
    && (forall i :: 0 <= i < |c.events| ==> NamesLivePaths(c.events, i))
    && (forall k :: NamesStoredPaths(c.store, k))
  }

  lemma EventsGrow(events: seq<Event>, e: Event, id: string)
    ensures CreatedIn(events + [e], id) <==> CreatedIn(events, id) || (e.Created? && e.id == id)
    ensures RetiredIn(events + [e], id) <==> RetiredIn(events, id) || (e.Retired? && e.id == id)
  {
    var all := events + [e];
    assert all[|events|] == e && forall i :: 0 <= i < |events| ==> all[i] == events[i];
  }

  lemma SameMembersSameIds(a: seq<Cutoff>, b: seq<Cutoff>)
    requires forall c :: c in a ==> c in b
    ensures EligibleIds(a) <= EligibleIds(b)
  {
    forall id | id in EligibleIds(a) ensures id in EligibleIds(b) {
      var i, j :| 0 <= i < |a| && 0 <= j < |a[i].eligiblePathIds| && a[i].eligiblePathIds[j] == id;
      assert a[i] in b;
      var m :| 0 <= m < |b| && b[m] == a[i];
      assert b[m].eligiblePathIds[j] == id;
    }
  }

  lemma PerformKeepsAgreement(env: Env, c: System, cmd: Command, id: string)
    requires TotalOrder(env.before) && Sound(env, c)
    ensures AgreesOn(Perform(env, c, cmd), id)
  {
    var k := Target(cmd);
    var d := Decide(env, cmd, Lookup(c.store, k), ActiveIds(c.store));
    assert AgreesOn(c, id);
    if d.Changed? {
      DecisionsFollow(env, cmd, Lookup(c.store, k), ActiveIds(c.store));
      EventsGrow(c.events, d.event, id);
      if cmd.DefinePath? { assert AgreesOn(c, cmd.id); }
      if cmd.RevisePath? { assert AgreesOn(c, cmd.id); }
    }
  }

  lemma ActiveMeansLive(env: Env, c: System, id: string)
    requires Sound(env, c)
    ensures id in ActiveIds(c.store) <==> CreatedIn(c.events, id) && !RetiredIn(c.events, id)
  {
    assert AgreesOn(c, id);
    if id in ActiveIds(c.store) {
      var k :| k in c.store && c.store[k].PathValue? && c.store[k].path.status == Active && k.id == id;
      assert Loadable(env, k, c.store[k]);
    }
  }

  lemma EventNames(c: System, e: Event, i: nat)
    requires i <= |c.events| && forall x :: 0 <= x < |c.events| ==> NamesLivePaths(c.events, x)
    requires e.ScheduleChanged? ==> forall id :: id in EligibleIds(e.cutoffs) ==> CreatedIn(c.events, id) && !RetiredIn(c.events, id)
    ensures NamesLivePaths(c.events + [e], i)
  {
    hide CreatedIn, RetiredIn, EligibleIds;
    var all := c.events + [e];
    assert all[..i] == c.events[..i];
    if i == |c.events| {
      assert c.events[..i] == c.events;
    } else {
      assert NamesLivePaths(c.events, i);
    }
  }

  lemma StoreNames(env: Env, c: System, cmd: Command, x: Key)
    requires TotalOrder(env.before) && Sound(env, c)
    ensures NamesStoredPaths(Perform(env, c, cmd).store, x)
  {
    hide TotalOrder, CutoffFault, ByCptId, Loadable, NamesLivePaths;
    var n := Perform(env, c, cmd);
    assert NamesStoredPaths(c.store, x);
    if x == Target(cmd) && cmd.DefineSchedule? && n != c {
      assert ScheduleFault(env, cmd.timezone, cmd.cutoffs).None?;
      ByCptIdSorts(env.before, cmd.cutoffs);
      SameMembersSameIds(ByCptId(env.before, cmd.cutoffs), cmd.cutoffs);
      forall id | id in EligibleIds(cmd.cutoffs) ensures PathKey(id) in n.store {
        assert AgreesOn(c, id);
      }
    }
  }

  lemma PerformKeepsNames(env: Env, c: System, cmd: Command)
    requires TotalOrder(env.before) && Sound(env, c)
    ensures var n := Perform(env, c, cmd);
            (forall i :: 0 <= i < |n.events| ==> NamesLivePaths(n.events, i)) && (forall k :: NamesStoredPaths(n.store, k))
  {
    hide NamesLivePaths, NamesStoredPaths, Loadable, AgreesOn, CreatedIn, RetiredIn, TotalOrder;
    var n := Perform(env, c, cmd);
    var d := Decide(env, cmd, Lookup(c.store, Target(cmd)), ActiveIds(c.store));
    if d.Changed? {
      forall id ensures id in ActiveIds(c.store) <==> CreatedIn(c.events, id) && !RetiredIn(c.events, id) {
        ActiveMeansLive(env, c, id);
      }
      forall i | 0 <= i < |n.events| ensures NamesLivePaths(n.events, i) { EventNames(c, d.event, i); }
    }
    forall x ensures NamesStoredPaths(n.store, x) { StoreNames(env, c, cmd, x); }
  }

  /**
   After any serial run: every CPTScheduleChanged names only paths created earlier and not yet
   retired, every stored schedule names only stored paths, and the store and the events tell the
   same story about which paths exist and which are retired.
   */
  lemma {:induction false} SchedulesNameLivePaths(env: Env, cmds: seq<Command>)
    requires TotalOrder(env.before)
    ensures Sound(env, PerformAll(env, cmds))
  {
    if cmds != [] {
      var c := PerformAll(env, cmds[..|cmds| - 1]);
      var cmd := cmds[|cmds| - 1];
      SchedulesNameLivePaths(env, cmds[..|cmds| - 1]);
      PerformKeepsNames(env, c, cmd);
      forall id ensures AgreesOn(Perform(env, c, cmd), id) { PerformKeepsAgreement(env, c, cmd, id); }
      var d := Decide(env, cmd, Lookup(c.store, Target(cmd)), ActiveIds(c.store));
      if d.Changed? { DecisionsFollow(env, cmd, Lookup(c.store, Target(cmd)), ActiveIds(c.store)); }
    }
  }

  // ---- schedules that name only active paths ----

  /** Every stored schedule names only active paths. */
  ghost predicate LiveStore(store: map<Key, Value>) {
    forall k :: k in store && store[k].ScheduleValue? ==> EligibleIds(store[k].schedule.cutoffs) <= ActiveIds(store)
  }

  /** Some stored schedule names the path: what a caller would look up before retiring it. */
  ghost predicate Scheduled(store: map<Key, Value>, id: string) {
    exists k :: k in store && store[k].ScheduleValue? && id in EligibleIds(store[k].schedule.cutoffs)
  }

  lemma ActiveIff(store: map<Key, Value>, id: string)
    ensures id in ActiveIds(store) <==>
            PathKey(id) in store && store[PathKey(id)].PathValue? && store[PathKey(id)].path.status == Active
  {
    if PathKey(id) in store && store[PathKey(id)].PathValue? && store[PathKey(id)].path.status == Active {
      assert PathKey(id).id in ActiveIds(store);
    }
  }

  /** How one write moves the active paths. */
  lemma ActiveAfter(env: Env, c: System, cmd: Command, id: string)
    requires TotalOrder(env.before) && Sound(env, c)
    ensures var n := Perform(env, c, cmd);
            id in ActiveIds(n.store) <==> if cmd.DeactivatePath? && cmd.id == id then false
                                          else id in ActiveIds(c.store) || (n != c && cmd.DefinePath? && cmd.id == id)
  {
    hide TotalOrder, ActiveIds, NamesLivePaths, NamesStoredPaths, CreatedIn, RetiredIn, Loadable;
    var k, n := Target(cmd), Perform(env, c, cmd);
    var d := Decide(env, cmd, Lookup(c.store, k), ActiveIds(c.store));
    ActiveIff(c.store, id);
    ActiveIff(n.store, id);
    assert AgreesOn(c, id);
    if d.Changed? {
      DecisionsFollow(env, cmd, Lookup(c.store, k), ActiveIds(c.store));
    }
  }

  lemma RetiringScheduled(env: Env, c: System, cmd: Command)
    requires TotalOrder(env.before) && Sound(env, c) && LiveStore(c.store)
    requires cmd.DeactivatePath? && Scheduled(c.store, cmd.id)
    ensures !LiveStore(Perform(env, c, cmd).store)
  {
    hide TotalOrder, ActiveIds, Sound;
    var n := Perform(env, c, cmd);
    var k :| k in c.store && c.store[k].ScheduleValue? && cmd.id in EligibleIds(c.store[k].schedule.cutoffs);
    ActiveIff(c.store, cmd.id);
    ActiveAfter(env, c, cmd, cmd.id);
    assert k != PathKey(cmd.id);
    assert k in n.store && n.store[k] == c.store[k];
  }

  lemma OtherwiseLive(env: Env, c: System, cmd: Command)
    requires TotalOrder(env.before) && Sound(env, c) && LiveStore(c.store)
    requires cmd.DeactivatePath? ==> !Scheduled(c.store, cmd.id)
    ensures LiveStore(Perform(env, c, cmd).store)
  {
    hide TotalOrder, ActiveIds, Sound, CutoffFault, ByCptId;
    var n := Perform(env, c, cmd);
    forall k, id | k in n.store && n.store[k].ScheduleValue? && id in EligibleIds(n.store[k].schedule.cutoffs)
      ensures id in ActiveIds(n.store)
    {
      ActiveAfter(env, c, cmd, id);
      if k == Target(cmd) && n != c && cmd.DefineSchedule? {
        assert ScheduleFault(env, cmd.timezone, cmd.cutoffs).None?;
        ByCptIdSorts(env.before, cmd.cutoffs);
        SameMembersSameIds(ByCptId(env.before, cmd.cutoffs), cmd.cutoffs);
      } else {
        StaysSchedule(env, c, cmd, k);
      }
    }
  }

  lemma StaysSchedule(env: Env, c: System, cmd: Command, k: Key)
    requires var n := Perform(env, c, cmd);
             k in n.store && n.store[k].ScheduleValue? && !(k == Target(cmd) && n != c && cmd.DefineSchedule?)
    ensures k in c.store && c.store[k] == Perform(env, c, cmd).store[k]
  {
    hide ActiveIds, ByCptId, CutoffFault;
  }

  /** A write keeps every stored schedule on active paths exactly when it does not retire a path that some schedule names. */
  lemma LiveIffNotScheduled(env: Env, c: System, cmd: Command)
    requires TotalOrder(env.before) && Sound(env, c) && LiveStore(c.store)
    ensures LiveStore(Perform(env, c, cmd).store) <==> !(cmd.DeactivatePath? && Scheduled(c.store, cmd.id))
  {
    hide TotalOrder, Sound, LiveStore, Scheduled;
    if cmd.DeactivatePath? && Scheduled(c.store, cmd.id) { RetiringScheduled(env, c, cmd); } else { OtherwiseLive(env, c, cmd); }
  }

  /** No command of the run retires a path that a schedule stored by then names. */
  ghost predicate RetiresOnlyUnscheduled(env: Env, cmds: seq<Command>) {
    forall i :: 0 <= i < |cmds| && cmds[i].DeactivatePath? ==> !Scheduled(PerformAll(env, cmds[..i]).store, cmds[i].id)
  }

  ghost predicate LiveThroughout(env: Env, cmds: seq<Command>) {
    forall i :: 0 <= i <= |cmds| ==> LiveStore(PerformAll(env, cmds[..i]).store)
  }

  lemma LiveGrows(env: Env, t: seq<Command>, cmd: Command)
    ensures LiveThroughout(env, t + [cmd]) <==> LiveThroughout(env, t) && LiveStore(PerformAll(env, t + [cmd]).store)
    ensures LiveThroughout(env, t) ==> LiveStore(PerformAll(env, t).store)
  {
    hide LiveStore, PerformAll;
    var all := t + [cmd];
    assert all[..|all|] == all && t[..|t|] == t;
    forall i | 0 <= i <= |t| ensures all[..i] == t[..i] {}
    if LiveThroughout(env, all) {
      forall i | 0 <= i <= |t| ensures LiveStore(PerformAll(env, t[..i]).store) { assert all[..i] == t[..i]; }
    }
  }

  lemma RetiresGrows(env: Env, t: seq<Command>, cmd: Command)
    ensures RetiresOnlyUnscheduled(env, t + [cmd]) <==>
            RetiresOnlyUnscheduled(env, t) && !(cmd.DeactivatePath? && Scheduled(PerformAll(env, t).store, cmd.id))
  {
    hide Scheduled, PerformAll;
    var all := t + [cmd];
    assert all[..|t|] == t && all[|t|] == cmd;
    forall i | 0 <= i < |t| ensures all[..i] == t[..i] && all[i] == t[i] {}
    if RetiresOnlyUnscheduled(env, all) {
      forall i | 0 <= i < |t| && t[i].DeactivatePath? ensures !Scheduled(PerformAll(env, t[..i]).store, t[i].id) { assert all[i] == t[i]; }
    }
  }

  /** So a serial run keeps its schedules on active paths throughout exactly when it never does that. */
  lemma {:induction false} LiveThroughoutIff(env: Env, cmds: seq<Command>)
    requires TotalOrder(env.before)
    ensures LiveThroughout(env, cmds) <==> RetiresOnlyUnscheduled(env, cmds)
  {
    if cmds == [] {
      NothingStored(env);
      assert cmds[..0] == [];
    } else {
      var last := |cmds| - 1;
      var t := cmds[..last];
      assert cmds == t + [cmds[last]];
      assert PerformAll(env, cmds) == Perform(env, PerformAll(env, t), cmds[last]);
      hide TotalOrder, LiveStore, Scheduled, Sound, PerformAll, Perform, LiveThroughout, RetiresOnlyUnscheduled;
      LiveThroughoutIff(env, t);
      LiveGrows(env, t, cmds[last]);
      RetiresGrows(env, t, cmds[last]);
      SchedulesNameLivePaths(env, t);
      if LiveStore(PerformAll(env, t).store) { LiveIffNotScheduled(env, PerformAll(env, t), cmds[last]); }
    }
  }

  lemma NothingStored(env: Env)
    ensures LiveStore(PerformAll(env, []).store)
  {}

  const PICK := Definition("pick", false, ["pick"], "", 1000, Eligibility(None, [], [], false))

  const EVENING := [Cutoff("c1", "15:00", ["Mon"], "ground", ["PICK"])]

  lemma OnePath(env: Env)
    requires env.isLower("pick")
    ensures var p := Path("PICK", PICK, Active, 0, 0);
            Perform(env, System(map[], []), DefinePath("PICK", PICK, 0)) == System(map[PathKey("PICK") := PathValue(p)], [Created("PICK", PICK, 0)])
  {}

  lemma OneSchedule(env: Env, c: System)
    requires env.knownZone("UTC") && "PICK" in ActiveIds(c.store) && ScheduleKey("S") !in c.store
    ensures Perform(env, c, DefineSchedule("S", "UTC", EVENING, 0))
         == System(c.store[ScheduleKey("S") := ScheduleValue(Schedule("S", "UTC", EVENING, 0, 0))], c.events + [ScheduleChanged("S", "UTC", EVENING, 0)])
  {
    hide ActiveIds;
    forall id | id in EligibleIds(EVENING) ensures id in ActiveIds(c.store) { assert id == "PICK"; }
    assert CutoffFault(EVENING[0]) == None;
    assert ByCptId(env.before, EVENING) == EVENING by {
      assert ByCptId(env.before, EVENING[1..]) == [];
    }
  }

  /**
   A later retirement is not checked against schedules, so a stored schedule may name a retired path:
   the promise holds when the schedule is written, not for ever after.
   */
  lemma RetiredPathStaysScheduled(env: Env)
    requires env.isLower("pick") && env.knownZone("UTC")
    ensures var c := PerformAll(env, [DefinePath("PICK", PICK, 0), DefineSchedule("S", "UTC", EVENING, 0), DeactivatePath("PICK", 0)]);
            && ScheduleKey("S") in c.store && c.store[ScheduleKey("S")].ScheduleValue?
            && "PICK" in EligibleIds(c.store[ScheduleKey("S")].schedule.cutoffs)
            && PathKey("PICK") in c.store && "PICK" !in ActiveIds(c.store)
  {
    hide DecideDefine, DecideSchedule, ByCptId;
    var cmds := [DefinePath("PICK", PICK, 0), DefineSchedule("S", "UTC", EVENING, 0), DeactivatePath("PICK", 0)];
    assert cmds[..3] == cmds && cmds[..2][..1] == cmds[..1] && cmds[..1][..0] == [];
    assert PerformAll(env, []) == System(map[], []);
    OnePath(env);
    var c1 := PerformAll(env, cmds[..1]);
    assert c1 == Perform(env, System(map[], []), cmds[0]);
    assert PathKey("PICK").id in ActiveIds(c1.store);
    OneSchedule(env, c1);
    var c2 := PerformAll(env, cmds[..2]);
    assert c2 == Perform(env, c1, cmds[1]);
    assert PerformAll(env, cmds) == Perform(env, c2, cmds[2]);
    assert EVENING[0].eligiblePathIds[0] == "PICK";
  }
}
