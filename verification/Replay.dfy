/** What a consumer rebuilds from a topic, read from offset zero, duplicates and all. */
module Replay {
  import opened Shared
  import opened Catalogue
  import ProcessPaths
  import CptSchedules
  import opened Outbox
  import opened OutboxInvariant
  import opened Histories
  import opened RelayOrder

  function Get(r: map<Key, Entry>, k: Key): Option<Entry> { if k in r then Some(r[k]) else None }

  /** The read model after every message of topic `t`, in order of arrival. */
  function Rebuilt(log: seq<Message>, t: Topic): map<Key, Entry> {
    if log == [] then map[]
    else
      var r, m := Rebuilt(log[..|log| - 1], t), log[|log| - 1];
      if m.topic != t then r
      else match Absorb(Get(r, m.key), m.event)
        case Some(x) => r[m.key := x]
        case None => r
  }

  /** What one aggregate's first `n` events make of an empty entry, each absorbed once. */
  function Folded(h: seq<Change>, n: nat): Option<Entry>
    requires n <= |h|
  {
    if n == 0 then None else Absorb(Folded(h, n - 1), h[n - 1].event)
  }

  // ---- the published versions against the stored ones ----

  /** The entry after change `n`: the last published definition, retired if the change is a retirement. */
  lemma {:induction false} FoldedPath(env: Env, id: string, h: seq<Change>, n: nat)
    requires Landed(env, PathKey(id), h) && n < |h|
    ensures Defines(env, LastPublished(h, n))
    ensures Folded(h, n + 1) == Some(PathEntry(LastPublished(h, n).def, h[n].event.Retired?))
  {
    hide Landed, Defines;
    PathKept(env, id, h, n);
    PublishedDefines(env, id, h, n);
    if h[n].event.Retired? { FoldedPath(env, id, h, n - 1); }
    assert Defines(env, LastPublished(h, n)) ==> LastPublished(h, n).Created? || LastPublished(h, n).Updated? by { IsDefinition(env, LastPublished(h, n)); }
  }

  lemma IsDefinition(env: Env, e: Event)
    requires Defines(env, e)
    ensures e.Created? || e.Updated?
  {}

  lemma ScheduleLands(env: Env, site: string, loaded: Option<Value>, row: Option<Value>, v: Value, e: Event)
    requires Lawful(env, ScheduleKey(site), loaded, row, v, e)
    ensures e.ScheduleChanged? && v.ScheduleValue? && CptSchedules.DistinctIds(e.cutoffs)
    ensures v.schedule.timezone == e.timezone && v.schedule.cutoffs == CptSchedules.ByCptId(env.before, e.cutoffs)
  {}

  /** What was published up to change `n` is what it stored, at column precision, exactly when its save agrees. */
  lemma MirrorsIff(env: Env, k: Key, h: seq<Change>, n: nat)
    requires Landed(env, k, h) && n < |h|
    ensures Mirrors(env, Folded(h, n + 1), Some(h[n].value)) <==> SaveAgrees(h, n)
  {
    hide Landed, Lawful, SaveAgrees, Defines, Absorb;
    match k
    case PathKey(id) =>
      FoldedPath(env, id, h, n);
      SaveAgreesIff(env, id, h, n);
      PathKept(env, id, h, n);
    case ScheduleKey(site) =>
      AtIndex(env, k, h, n);
      ScheduleLands(env, site, Before(h, h[n].loaded), Before(h, n), h[n].value, h[n].event);
      FoldedSchedule(h, n);
      ScheduleAgrees(h, n);
  }

  lemma FoldedSchedule(h: seq<Change>, n: nat)
    requires n < |h| && h[n].event.ScheduleChanged?
    ensures Folded(h, n + 1) == Some(ScheduleEntry(h[n].event.timezone, h[n].event.cutoffs))
  {}

  lemma ScheduleAgrees(h: seq<Change>, n: nat)
    requires n < |h| && h[n].event.ScheduleChanged?
    ensures SaveAgrees(h, n) && LastPublished(h, n) == h[n].event
  {}

  lemma ExactPath(env: Env, def: ProcessPaths.Definition, stored: ProcessPaths.Definition)
    requires def.cycleTime > 0 && StoredDef(stored) == stored
    ensures def == stored <==> StoredDef(def) == stored && def.cycleTime % NANOS_PER_MICRO == 0
  {
    WholeMicrosExact(def.cycleTime);
  }

  /** And to the last digit exactly when the columns hold all of the last published definition too. */
  lemma ExactIff(env: Env, k: Key, h: seq<Change>, n: nat)
    requires TotalOrder(env.before) && Landed(env, k, h) && n < |h|
    ensures Folded(h, n + 1) == Some(View(h[n].value)) <==> SaveAgrees(h, n) && FitsColumns(env, LastPublished(h, n))
  {
    hide Landed, Lawful, SaveAgrees, Absorb, TotalOrder;
    AtIndex(env, k, h, n);
    match k
    case PathKey(id) =>
      FoldedPath(env, id, h, n);
      SaveAgreesIff(env, id, h, n);
      PathKept(env, id, h, n);
      VersionsLoadable(env, k, h, n + 1);
      ExactPath(env, LastPublished(h, n).def, h[n].value.path.def);
    case ScheduleKey(site) =>
      ScheduleLands(env, site, Before(h, h[n].loaded), Before(h, n), h[n].value, h[n].event);
      FoldedSchedule(h, n);
      ScheduleAgrees(h, n);
      ByCptIdFixesEvent(env, h[n].event.cutoffs);
  }

  lemma ByCptIdFixesEvent(env: Env, cutoffs: seq<CptSchedules.Cutoff>)
    requires TotalOrder(env.before) && CptSchedules.DistinctIds(cutoffs)
    ensures CptSchedules.ByCptId(env.before, cutoffs) == cutoffs <==> Ascending(env.before, CptSchedules.CptIds(cutoffs))
  {
    CptSchedules.ByCptIdFixes(env.before, cutoffs);
  }

  // ---- messages and versions ----

  ghost predicate MessagesFit(h: History, log: seq<Message>) {
    forall m :: m in log ==> m.ordinal < |Hist(h, m.key)| && Hist(h, m.key)[m.ordinal].event == m.event
  }

  lemma MessagesComeFromChanges(h: History, rows: map<nat, Row>, log: seq<Message>, acked: set<nat>)
    requires RowInv(h, rows) && LogInv(h, rows, log, acked)
    ensures MessagesFit(h, log)
  {
    forall m | m in log ensures m.ordinal < |Hist(h, m.key)| && Hist(h, m.key)[m.ordinal].event == m.event {
      var id :| id in rows && rows[id].msg == m;
      assert RowFits(h, id, rows[id].msg);
    }
  }

  lemma Drop(log: seq<Message>, t: Topic, k: Key)
    requires log != [] && NoSkip(Trace(log, t, k))
    ensures NoSkip(Trace(log[..|log| - 1], t, k))
    ensures log[|log| - 1].topic == t && log[|log| - 1].key == k ==>
              log[|log| - 1].ordinal <= Latest(log[..|log| - 1], t, k) + 1
  {
    var shorter, m := log[..|log| - 1], log[|log| - 1];
    assert shorter + [m] == log;
    TraceGrows(shorter, m, t, k);
    NoSkipSplits(Trace(shorter, t, k), if m.topic == t && m.key == k then [m.ordinal] else []);
  }

  lemma NoSkipSplits(a: seq<nat>, b: seq<nat>)
    requires NoSkip(a + b) && |b| <= 1
    ensures NoSkip(a)
    ensures b != [] ==> b[0] <= if a == [] then 0 else a[|a| - 1] + 1
  {
    var c := a + b;
    forall i | 0 <= i < |a| ensures a[i] <= if i == 0 then 0 else a[i - 1] + 1 {
      assert c[i] == a[i] && (i > 0 ==> c[i - 1] == a[i - 1]);
    }
    if b != [] {
      assert c[|a|] == b[0] && (a != [] ==> c[|a| - 1] == a[|a| - 1]);
    }
  }

  lemma RebuiltGrows(log: seq<Message>, m: Message, t: Topic, k: Key)
    ensures Get(Rebuilt(log + [m], t), k)
         == if m.topic == t && m.key == k then Absorb(Get(Rebuilt(log, t), k), m.event) else Get(Rebuilt(log, t), k)
  {
    assert (log + [m])[..|log|] == log;
  }

  /** Nothing but retirements from change `n` on, or none there. */
  ghost predicate Final(h: seq<Change>, n: nat)
    requires n < |h|
  {
    h[n].event.Retired? ==> forall j :: n <= j < |h| ==> h[j].event.Retired?
  }

  lemma {:induction false} SameLastPublished(h: seq<Change>, n: nat, m: nat)
    requires n <= m < |h| && forall j :: n < j <= m ==> h[j].event.Retired?
    ensures LastPublished(h, m) == LastPublished(h, n)
    decreases m
  {
    if n < m { SameLastPublished(h, n, m - 1); }
  }

  /** Retiring a retired entry, or one its own predecessor left, gives the version of the message. */
  lemma RetirementStep(env: Env, id: string, h: seq<Change>, latest: nat, n: nat)
    requires Landed(env, PathKey(id), h) && latest < |h| && 0 < n < |h| && n <= latest + 1 && h[n].event.Retired? && Final(h, n)
    ensures Final(h, latest) && Absorb(Folded(h, latest + 1), h[n].event) == Folded(h, n + 1)
  {
    hide Landed;
    FoldedPath(env, id, h, latest);
    FoldedPath(env, id, h, n);
    if n <= latest {
      SameLastPublished(h, n, latest);
    } else {
      assert Folded(h, n + 1) == Absorb(Folded(h, n), h[n].event);
    }
  }

  /** A message at most one past the version shown moves the entry to the message's own version. */
  lemma VersionStep(env: Env, k: Key, h: seq<Change>, shown: Option<Entry>, latest: int, m: Message)
    requires Landed(env, k, h) && -1 <= latest < |h| && m.ordinal < |h| && m.ordinal <= latest + 1 && h[m.ordinal].event == m.event
    requires latest >= 0 && Final(h, latest) ==> shown == Folded(h, latest + 1)
    ensures Final(h, m.ordinal) ==> Absorb(shown, m.event) == Folded(h, m.ordinal + 1)
  {
    hide Landed, Lawful;
    assert Folded(h, m.ordinal + 1) == Absorb(Folded(h, m.ordinal), m.event);
    if m.event.Retired? && Final(h, m.ordinal) {
      AtIndex(env, k, h, m.ordinal);
      OnlyPathsRetire(env, k, Before(h, h[m.ordinal].loaded), Before(h, m.ordinal), h[m.ordinal].value, m.event);
      PathKept(env, k.id, h, m.ordinal);
      RetirementStep(env, k.id, h, latest, m.ordinal);
    }
  }

  lemma OnlyPathsRetire(env: Env, k: Key, loaded: Option<Value>, row: Option<Value>, v: Value, e: Event)
    requires Lawful(env, k, loaded, row, v, e) && e.Retired?
    ensures k.PathKey?
  {}

  /** The rebuilt entry is what was published up to the latest message, as if each event came once; a retirement the run goes back over aside. */
  ghost predicate Shows(h: seq<Change>, log: seq<Message>, t: Topic, k: Key) {
    var latest, shown := Latest(log, t, k), Get(Rebuilt(log, t), k);
    && -1 <= latest < |h|
    && (latest == -1 ==> shown == None)
    && (latest >= 0 && Final(h, latest) ==> shown == Folded(h, latest + 1))
  }

  lemma ShowsNothing(h: seq<Change>, t: Topic, k: Key)
    ensures Shows(h, [], t, k)
  {}

  lemma ShowsNext(env: Env, h: seq<Change>, log: seq<Message>, t: Topic, k: Key, m: Message)
    requires Landed(env, k, h) && Shows(h, log, t, k)
    requires m.topic == t && m.key == k ==>
      m.ordinal < |h| && h[m.ordinal].event == m.event && m.ordinal <= Latest(log, t, k) + 1
    ensures Shows(h, log + [m], t, k)
  {
    hide Landed, Absorb, Final, Folded;
    TraceGrows(log, m, t, k);
    RebuiltGrows(log, m, t, k);
    hide Rebuilt, Latest, Get;
    if m.topic == t && m.key == k { VersionStep(env, k, h, Get(Rebuilt(log, t), k), Latest(log, t, k), m); }
  }

  lemma {:induction false} RebuiltIsPublished(env: Env, h: History, log: seq<Message>, t: Topic, k: Key)
    requires MessagesFit(h, log) && Landed(env, k, Hist(h, k)) && NoSkip(Trace(log, t, k))
    ensures Shows(Hist(h, k), log, t, k)
  {
    hide Landed, NoSkip, Trace, Shows, Latest;
    if log == [] {
      ShowsNothing(Hist(h, k), t, k);
    } else {
      var shorter, m := log[..|log| - 1], log[|log| - 1];
      assert shorter + [m] == log && m in log;
      Drop(log, t, k);
      RebuiltIsPublished(env, h, shorter, t, k);
      ShowsNext(env, Hist(h, k), shorter, t, k, m);
    }
  }

  // ---- what a topic tells, whatever was resent ----

  /** The last event of the aggregate on the topic that carries a definition or a schedule. */
  function LastDefining(log: seq<Message>, t: Topic, k: Key): Option<Event> {
    if log == [] then None
    else
      var m := log[|log| - 1];
      if m.topic == t && m.key == k && !m.event.Retired? then Some(m.event) else LastDefining(log[..|log| - 1], t, k)
  }

  /** The aggregate's last message on the topic is a retirement. */
  predicate LastRetires(log: seq<Message>, t: Topic, k: Key) {
    log != [] &&
    var m := log[|log| - 1];
    if m.topic == t && m.key == k then m.event.Retired? else LastRetires(log[..|log| - 1], t, k)
  }

  function Told(log: seq<Message>, t: Topic, k: Key): Option<Entry> {
    match LastDefining(log, t, k)
    case None => None
    case Some(e) =>
      match e
      case Created(_, def, _) => Some(PathEntry(def, LastRetires(log, t, k)))
      case Updated(_, def, _) => Some(PathEntry(def, LastRetires(log, t, k)))
      case Retired(_, _) => None
      case ScheduleChanged(_, tz, cutoffs, _) => Some(ScheduleEntry(tz, cutoffs))
  }

  ghost predicate KeyedByEvent(log: seq<Message>) { forall m :: m in log ==> KeyOf(m.event) == m.key }

  lemma ToldGrows(log: seq<Message>, m: Message, t: Topic, k: Key)
    ensures LastDefining(log + [m], t, k)
         == if m.topic == t && m.key == k && !m.event.Retired? then Some(m.event) else LastDefining(log, t, k)
    ensures LastRetires(log + [m], t, k) <==> if m.topic == t && m.key == k then m.event.Retired? else LastRetires(log, t, k)
  {
    assert (log + [m])[..|log|] == log;
  }

  lemma {:induction false} DefiningIsKeyed(log: seq<Message>, t: Topic, k: Key)
    requires KeyedByEvent(log)
    ensures LastDefining(log, t, k).Some? ==> KeyOf(LastDefining(log, t, k).value) == k && !LastDefining(log, t, k).value.Retired?
  {
    if log != [] { DefiningIsKeyed(log[..|log| - 1], t, k); }
  }

  /** The rebuilt entry is the last definition on the topic, retired exactly when the last message is a retirement. */
  lemma {:induction false} RebuiltIsTold(log: seq<Message>, t: Topic, k: Key)
    requires KeyedByEvent(log)
    ensures Get(Rebuilt(log, t), k) == Told(log, t, k)
  {
    if log != [] {
      var shorter, m := log[..|log| - 1], log[|log| - 1];
      assert shorter + [m] == log && m in log;
      RebuiltIsTold(shorter, t, k);
      RebuiltGrows(shorter, m, t, k);
      ToldGrows(shorter, m, t, k);
      DefiningIsKeyed(shorter, t, k);
      hide Rebuilt, LastDefining, LastRetires;
    }
  }

  /** The latest message is the change of its ordinal. */
  lemma {:induction false} LatestIsTold(h: seq<Change>, log: seq<Message>, t: Topic, k: Key)
    requires forall m :: m in log && m.key == k ==> m.ordinal < |h| && h[m.ordinal].event == m.event
    ensures Latest(log, t, k) < |h|
    ensures Latest(log, t, k) >= 0 ==>
      var e := h[Latest(log, t, k)].event;
      (LastRetires(log, t, k) <==> e.Retired?) && (!e.Retired? ==> LastDefining(log, t, k) == Some(e))
  {
    if log == [] {
      NothingYet(t, k);
    } else {
      var shorter, m := log[..|log| - 1], log[|log| - 1];
      assert shorter + [m] == log && m in log;
      LatestIsTold(h, shorter, t, k);
      TraceGrows(shorter, m, t, k);
      ToldGrows(shorter, m, t, k);
      hide Latest, LastDefining, LastRetires;
    }
  }

  function DefinitionOf(e: Event): Option<ProcessPaths.Definition> {
    match e
    case Created(_, def, _) => Some(def)
    case Updated(_, def, _) => Some(def)
    case _ => None
  }

  /** A path's last definition on the topic is the one published last up to change `n`. */
  ghost predicate TellsLastPublished(h: seq<Change>, n: nat, log: seq<Message>, t: Topic, k: Key)
    requires n < |h|
  {
    k.PathKey? ==> LastDefining(log, t, k).Some? && DefinitionOf(LastDefining(log, t, k).value) == DefinitionOf(LastPublished(h, n))
  }

  /** A path's last definition on the topic is, at column precision, the one change `n` stored. */
  ghost predicate TellsStored(h: seq<Change>, n: nat, log: seq<Message>, t: Topic, k: Key)
    requires n < |h|
  {
    k.PathKey? ==>
      && LastDefining(log, t, k).Some? && DefinitionOf(LastDefining(log, t, k).value).Some? && AsPath(Some(h[n].value)).Some?
      && StoredDef(DefinitionOf(LastDefining(log, t, k).value).value) == AsPath(Some(h[n].value)).value.def
  }

  lemma ToldPathIff(env: Env, id: string, h: seq<Change>, log: seq<Message>, t: Topic, n: nat)
    requires Landed(env, PathKey(id), h) && KeyedByEvent(log) && n < |h|
    requires LastRetires(log, t, PathKey(id)) <==> h[n].event.Retired?
    ensures Told(log, t, PathKey(id)) == Folded(h, n + 1) <==> TellsLastPublished(h, n, log, t, PathKey(id))
    ensures Mirrors(env, Told(log, t, PathKey(id)), Some(h[n].value)) <==> TellsStored(h, n, log, t, PathKey(id))
  {
    hide Landed, LastDefining, LastRetires, Absorb, Folded, LastPublished;
    FoldedPath(env, id, h, n);
    PathKept(env, id, h, n);
    DefiningIsKeyed(log, t, PathKey(id));
  }

  lemma ToldIff(env: Env, k: Key, h: seq<Change>, log: seq<Message>, t: Topic)
    requires Landed(env, k, h) && KeyedByEvent(log) && Latest(log, t, k) >= 0
    requires forall m :: m in log && m.key == k ==> m.ordinal < |h| && h[m.ordinal].event == m.event
    ensures Latest(log, t, k) < |h|
    ensures Told(log, t, k) == Folded(h, Latest(log, t, k) + 1) <==> TellsLastPublished(h, Latest(log, t, k), log, t, k)
    ensures Mirrors(env, Told(log, t, k), Some(h[Latest(log, t, k)].value)) <==> TellsStored(h, Latest(log, t, k), log, t, k)
  {
    hide Landed, Lawful, Latest, LastDefining, LastRetires, Absorb, LastPublished;
    LatestIsTold(h, log, t, k);
    var n := Latest(log, t, k);
    match k
    case PathKey(id) => ToldPathIff(env, id, h, log, t, n);
    case ScheduleKey(site) =>
      AtIndex(env, k, h, n);
      ScheduleLands(env, site, Before(h, h[n].loaded), Before(h, n), h[n].value, h[n].event);
      FoldedSchedule(h, n);
  }

  lemma NothingYet(t: Topic, k: Key)
    ensures Latest([], t, k) == -1
  {}

  lemma {:induction false} TraceComplete(log: seq<Message>, t: Topic, k: Key, v: nat)
    requires NoSkip(Trace(log, t, k)) && v <= Latest(log, t, k)
    ensures exists j :: 0 <= j < |log| && log[j].topic == t && log[j].key == k && log[j].ordinal == v
  {
    hide NoSkip, Trace, Latest;
    NothingYet(t, k);
    var shorter, m := log[..|log| - 1], log[|log| - 1];
    assert shorter + [m] == log;
    TraceGrows(shorter, m, t, k);
    if !(m.topic == t && m.key == k && m.ordinal == v) {
      Drop(log, t, k);
      TraceComplete(shorter, t, k, v);
      var j :| 0 <= j < |shorter| && shorter[j].topic == t && shorter[j].key == k && shorter[j].ordinal == v;
      assert log[j] == shorter[j];
    }
  }

  lemma {:induction false} PrefixNoSkip(log: seq<Message>, t: Topic, k: Key, n: nat)
    requires NoSkip(Trace(log, t, k)) && n <= |log|
    ensures NoSkip(Trace(log[..n], t, k))
    decreases |log|
  {
    if n == |log| {
      assert log[..n] == log;
    } else {
      Drop(log, t, k);
      PrefixNoSkip(log[..|log| - 1], t, k, n);
      assert log[..|log| - 1][..n] == log[..n];
    }
  }

  // ---- theorems about every safe run ----

  lemma NothingSentYet()
    ensures OrderInv(EMPTY)
  {}

  lemma SafeReachable(env: Env, steps: seq<Step>)
    requires TotalOrder(env.before) && SafeRun(env, EMPTY, steps)
    ensures var s := Exec(env, EMPTY, steps); Inv(env, s) && OrderInv(s)
  {
    hide Inv, OrderInv, Apply;
    Reachable(env, []);
    NothingSentYet();
    Reachable(env, steps);
    RunKeepsOrder(env, EMPTY, steps);
  }

  lemma Overtaken(log: seq<Message>, i: nat, v: nat) returns (j: nat)
    requires i < |log| && NoSkip(Trace(log, log[i].topic, log[i].key)) && v < log[i].ordinal
    ensures j < i && Alike(log[j], log[i]) && log[j].ordinal == v
  {
    var m := log[i];
    hide NoSkip, Trace;
    PrefixNoSkip(log, m.topic, m.key, i + 1);
    assert log[..i] + [m] == log[..i + 1];
    TraceGrows(log[..i], m, m.topic, m.key);
    TraceComplete(log[..i + 1], m.topic, m.key, v);
    j :| 0 <= j < i + 1 && log[..i + 1][j].topic == m.topic && log[..i + 1][j].key == m.key && log[..i + 1][j].ordinal == v;
  }

  /** No event is sent before every earlier-committed event of its aggregate and topic was sent at least once. */
  lemma NoEventOvertakes(env: Env, steps: seq<Step>, i: nat, a: nat)
    requires TotalOrder(env.before) && SafeRun(env, EMPTY, steps)
    requires var s := Exec(env, EMPTY, steps);
             i < |s.log| && a in s.rows && Alike(s.rows[a].msg, s.log[i]) && s.rows[a].msg.ordinal < s.log[i].ordinal
    ensures var s := Exec(env, EMPTY, steps); s.rows[a].msg in s.log[..i]
  {
    hide Inv, NoSkip, Ahead, PassOrder;
    var s := Exec(env, EMPTY, steps);
    SafeReachable(env, steps);
    assert NoSkip(Trace(s.log, s.log[i].topic, s.log[i].key));
    var j := Overtaken(s.log, i, s.rows[a].msg.ordinal);
    assert s.log[j] in s.log && s.log[..i][j] == s.log[j];
    SameVersionSameMessage(env, s, a, s.log[j]);
  }

  lemma SameVersionSameMessage(env: Env, s: State, a: nat, m: Message)
    requires Inv(env, s) && a in s.rows && m in s.log && Alike(s.rows[a].msg, m) && s.rows[a].msg.ordinal == m.ordinal
    ensures s.rows[a].msg == m
  {
    hide StoreInv, TxInv, PassInv;
    var id :| id in s.rows && s.rows[id].msg == m;
    SameOrdinalSameRow(s.history, s.rows, a, id);
    SameOrdinalSameRow(s.history, s.rows, id, a);
  }

  lemma ShowsVersion(env: Env, s: State, t: Topic, k: Key)
    requires Inv(env, s) && OrderInv(s)
    ensures MessagesFit(s.history, s.log) && Landed(env, k, Hist(s.history, k))
    ensures var h, latest := Hist(s.history, k), Latest(s.log, t, k);
            && -1 <= latest < |h|
            && (latest == -1 ==> Get(Rebuilt(s.log, t), k) == None)
            && (latest >= 0 && Final(h, latest) ==> Get(Rebuilt(s.log, t), k) == Folded(h, latest + 1))
  {
    hide StoreInv, TxInv, PassInv, RowInv, LogInv, PassOrder, Ahead, NoSkip, MessagesFit;
    MessagesComeFromChanges(s.history, s.rows, s.log, s.acked);
    StoreIsLatest(env, s, k);
    assert NoSkip(Trace(s.log, t, k));
    RebuiltIsPublished(env, s.history, s.log, t, k);
  }

  lemma MessagesAreKeyed(env: Env, s: State)
    requires Inv(env, s) && MessagesFit(s.history, s.log)
    ensures KeyedByEvent(s.log)
  {
    hide Inv, Landed, Lands, Loadable, KeyOf;
    forall m | m in s.log ensures KeyOf(m.event) == m.key {
      StoreIsLatest(env, s, m.key);
      AtIndex(env, m.key, Hist(s.history, m.key), m.ordinal);
    }
  }

  lemma ShowsWhatIsTold(env: Env, s: State, t: Topic, k: Key)
    requires Inv(env, s) && OrderInv(s)
    ensures Get(Rebuilt(s.log, t), k) == Told(s.log, t, k)
    ensures var h, latest := Hist(s.history, k), Latest(s.log, t, k);
            && -1 <= latest < |h|
            && (latest >= 0 ==>
                  && (Told(s.log, t, k) == Folded(h, latest + 1) <==> TellsLastPublished(h, latest, s.log, t, k))
                  && (Mirrors(env, Told(s.log, t, k), Some(h[latest].value)) <==> TellsStored(h, latest, s.log, t, k)))
  {
    hide Inv, OrderInv, Latest, Rebuilt, Told, Final, Folded, Mirrors, TellsStored, TellsLastPublished, Landed;
    ShowsVersion(env, s, t, k);
    MessagesAreKeyed(env, s);
    RebuiltIsTold(s.log, t, k);
    if Latest(s.log, t, k) >= 0 { ToldIff(env, k, Hist(s.history, k), s.log, t); }
  }

  lemma PublishedAreShown(s: State, t: Topic, k: Key)
    requires OrderInv(s)
    ensures forall id :: id in s.rows && s.rows[id].published && s.rows[id].msg.topic == t && s.rows[id].msg.key == k ==>
              s.rows[id].msg.ordinal <= Latest(s.log, t, k)
  {
    hide PassOrder, NoSkip, PrefixPublished, Latest;
  }

  /**
   At every moment of every safe run, duplicates and stale loads included, replaying a topic from offset
   zero shows of a path the last definition on the topic, retired exactly when its last message is a
   retirement, and of a schedule the last one on the topic. With the latest message at change `version - 1`,
   no older than any published row's, that is the published version exactly when that definition is the one
   published last up to there, and the committed version exactly when it is the one stored there. A
   retirement sent again after a later definition is where they part; with none to go back over it is the
   published version, and the committed one exactly when that change's save agrees.
   */
  lemma ReplayShowsWhatIsTold(env: Env, steps: seq<Step>, t: Topic, k: Key)
    requires TotalOrder(env.before) && SafeRun(env, EMPTY, steps)
    ensures var s := Exec(env, EMPTY, steps);
            var h, shown, version := Hist(s.history, k), Get(Rebuilt(s.log, t), k), Latest(s.log, t, k) + 1;
            && shown == Told(s.log, t, k)
            && 0 <= version <= |h|
            && (version == 0 ==> shown == None)
            && (version > 0 ==>
                  && (shown == Folded(h, version) <==> TellsLastPublished(h, version - 1, s.log, t, k))
                  && (Mirrors(env, shown, Before(h, version)) <==> TellsStored(h, version - 1, s.log, t, k)))
            && (version > 0 && Final(h, version - 1) ==>
                  && shown == Folded(h, version)
                  && (Mirrors(env, shown, Before(h, version)) <==> SaveAgrees(h, version - 1)))
            && forall id :: id in s.rows && s.rows[id].published && s.rows[id].msg.topic == t && s.rows[id].msg.key == k ==>
                 s.rows[id].msg.ordinal < version
  {
    hide Inv, OrderInv, Mirrors, SaveAgrees, Absorb, Landed, Final, Folded, Told, TellsStored, TellsLastPublished;
    var s := Exec(env, EMPTY, steps);
    SafeReachable(env, steps);
    hide Exec;
    ShowsVersion(env, s, t, k);
    ShowsWhatIsTold(env, s, t, k);
    PublishedAreShown(s, t, k);
    hide Trace, Latest, Rebuilt;
    var version := Latest(s.log, t, k) + 1;
    if version > 0 { MirrorsIff(env, k, Hist(s.history, k), version - 1); }
  }

  lemma CurrentIsFinal(env: Env, k: Key, h: seq<Change>, n: nat)
    requires Landed(env, k, h) && Current(h) && n < |h|
    ensures Final(h, n) && SaveAgrees(h, n)
  {
    hide Landed, Lawful, Current, SaveAgrees;
    match k
    case PathKey(id) =>
      LifecycleIff(env, id, h);
      CurrentSavesAgree(env, id, h, n);
    case ScheduleKey(site) =>
      AtIndex(env, k, h, n);
      ScheduleLands(env, site, Before(h, h[n].loaded), Before(h, n), h[n].value, h[n].event);
      ScheduleAgrees(h, n);
  }

  /** Where every save was decided on what it replaced, that is always one of the committed versions. */
  lemma ReplayShowsACommittedVersion(env: Env, steps: seq<Step>, t: Topic, k: Key)
    requires TotalOrder(env.before) && SafeRun(env, EMPTY, steps)
    requires Current(Hist(Exec(env, EMPTY, steps).history, k))
    ensures var s := Exec(env, EMPTY, steps);
            var version := Latest(s.log, t, k) + 1;
            && 0 <= version <= |Hist(s.history, k)|
            && Mirrors(env, Get(Rebuilt(s.log, t), k), Before(Hist(s.history, k), version))
            && forall id :: id in s.rows && s.rows[id].published && s.rows[id].msg.topic == t && s.rows[id].msg.key == k ==>
                 s.rows[id].msg.ordinal < version
  {
    hide Exec, Inv, OrderInv, SaveAgrees, Landed, Final, Folded, Current, Trace, Latest, Rebuilt, SafeRun, Told, TellsStored, TellsLastPublished;
    var s := Exec(env, EMPTY, steps);
    ReplayShowsWhatIsTold(env, steps, t, k);
    SafeReachable(env, steps);
    StoreIsLatest(env, s, k);
    var version := Latest(s.log, t, k) + 1;
    if version > 0 { CurrentIsFinal(env, k, Hist(s.history, k), version - 1); }
  }

  ghost predicate Quiet(s: State, t: Topic) {
    forall id :: id in s.rows && s.rows[id].msg.topic == t ==> s.rows[id].published
  }

  lemma QuietIsCaughtUp(env: Env, s: State, t: Topic, k: Key)
    requires Inv(env, s) && OrderInv(s) && Quiet(s, t) && Hist(s.history, k) != []
    ensures Latest(s.log, t, k) >= |Hist(s.history, k)| - 1
  {
    hide StoreInv, TxInv, PassInv, PassOrder, NoSkip, LogInv;
    var n := |Hist(s.history, k)| - 1;
    var c := Hist(s.history, k)[n];
    assert ChangeFits(s.rows, k, n, c);
    var id := c.ids[Slot(t)];
    assert id in s.rows && s.rows[id].msg.topic == t;
  }

  lemma StoreIsLatest(env: Env, s: State, k: Key)
    requires Inv(env, s)
    ensures Lookup(s.store, k) == Before(Hist(s.history, k), |Hist(s.history, k)|) && Landed(env, k, Hist(s.history, k))
  {
    hide RowInv, TxInv, PassInv, LogInv;
  }

  lemma QuietShowsTheLast(env: Env, s: State, t: Topic, k: Key)
    requires Inv(env, s) && OrderInv(s) && Quiet(s, t)
    ensures Get(Rebuilt(s.log, t), k) == Folded(Hist(s.history, k), |Hist(s.history, k)|)
    ensures Lookup(s.store, k) == Before(Hist(s.history, k), |Hist(s.history, k)|) && Landed(env, k, Hist(s.history, k))
  {
    hide Inv, OrderInv, Quiet, Landed, Absorb;
    StoreIsLatest(env, s, k);
    ShowsVersion(env, s, t, k);
    hide Trace, Latest, Rebuilt;
    if Hist(s.history, k) != [] { QuietIsCaughtUp(env, s, t, k); }
  }

  /**
   Whenever no row of a topic is pending, replaying it rebuilds a stored path or schedule exactly when its
   last save agrees with what was published; so always where every save was decided on what it replaced.
   */
  lemma QuietReplayIsTheStore(env: Env, steps: seq<Step>, t: Topic, k: Key)
    requires TotalOrder(env.before) && SafeRun(env, EMPTY, steps)
    requires Quiet(Exec(env, EMPTY, steps), t)
    ensures var s := Exec(env, EMPTY, steps);
            var h := Hist(s.history, k);
            && (Mirrors(env, Get(Rebuilt(s.log, t), k), Lookup(s.store, k)) <==> h == [] || SaveAgrees(h, |h| - 1))
            && (Current(h) ==> Mirrors(env, Get(Rebuilt(s.log, t), k), Lookup(s.store, k)))
  {
    hide Exec, Inv, OrderInv, Quiet, Landed, Absorb, Final, Rebuilt, SafeRun, SaveAgrees, Current;
    var s := Exec(env, EMPTY, steps);
    var h := Hist(s.history, k);
    SafeReachable(env, steps);
    QuietShowsTheLast(env, s, t, k);
    if h != [] {
      MirrorsIff(env, k, h, |h| - 1);
      if Current(h) { CurrentIsFinal(env, k, h, |h| - 1); }
    }
  }

  /** And it rebuilds the stored entry to the last digit exactly when the columns hold all of the last published definition too. */
  lemma QuietReplayIsExactIff(env: Env, steps: seq<Step>, t: Topic, k: Key)
    requires TotalOrder(env.before) && SafeRun(env, EMPTY, steps)
    requires Quiet(Exec(env, EMPTY, steps), t) && k in Exec(env, EMPTY, steps).store
    ensures var s := Exec(env, EMPTY, steps);
            var h := Hist(s.history, k);
            && h != []
            && (Get(Rebuilt(s.log, t), k) == Some(View(s.store[k])) <==>
                  SaveAgrees(h, |h| - 1) && FitsColumns(env, LastPublished(h, |h| - 1)))
  {
    hide Exec, Inv, OrderInv, Quiet, Landed, Absorb, Rebuilt, SafeRun, SaveAgrees, FitsColumns;
    var s := Exec(env, EMPTY, steps);
    var h := Hist(s.history, k);
    SafeReachable(env, steps);
    QuietShowsTheLast(env, s, t, k);
    ExactIff(env, k, h, |h| - 1);
  }

  lemma MirrorsMeans(env: Env, shown: Option<Entry>, v: Option<Value>)
    requires Mirrors(env, shown, v)
    ensures shown.Some? <==> v.Some?
    ensures v.Some? && v.value.PathValue? ==>
      && shown.value.PathEntry? && (shown.value.retired <==> v.value.path.status == ProcessPaths.Deactivated)
      && var a, b := shown.value.def, v.value.path.def;
      && a.matchPrefix == b.matchPrefix && a.direct == b.direct && a.capabilities == b.capabilities && a.role == b.role
      && a.eligibility == b.eligibility && WholeMicros(a.cycleTime) == b.cycleTime
    ensures v.Some? && v.value.ScheduleValue? ==>
      && shown.value.ScheduleEntry? && shown.value.timezone == v.value.schedule.timezone
      && CptSchedules.ByCptId(env.before, shown.value.cutoffs) == v.value.schedule.cutoffs
  {}

  lemma CurrentMeans(h: seq<Change>)
    ensures Current(h) <==> forall n :: 0 <= n < |h| ==> h[n].loaded == n
  {}

  lemma StoredKind(env: Env, steps: seq<Step>, k: Key)
    requires TotalOrder(env.before) && k in Exec(env, EMPTY, steps).store
    ensures var v := Exec(env, EMPTY, steps).store[k];
            if k.PathKey? then v.PathValue? else v.ScheduleValue?
  {
    hide Exec, Inv, Landed;
    Reachable(env, steps);
    var s := Exec(env, EMPTY, steps);
    StoreIsLatest(env, s, k);
    VersionsLoadable(env, k, Hist(s.history, k), |Hist(s.history, k)|);
  }

  /**
   Field by field: with nothing pending and loads current, replay holds exactly the stored paths and
   schedules, each with every field, the cycle time to the microsecond and the cutoffs up to their order.
   */
  lemma QuietReplayFieldByField(env: Env, steps: seq<Step>, t: Topic, k: Key)
    requires TotalOrder(env.before) && SafeRun(env, EMPTY, steps)
    requires forall id :: id in Exec(env, EMPTY, steps).rows && Exec(env, EMPTY, steps).rows[id].msg.topic == t ==>
               Exec(env, EMPTY, steps).rows[id].published
    requires var h := Hist(Exec(env, EMPTY, steps).history, k); forall n :: 0 <= n < |h| ==> h[n].loaded == n
    ensures var s := Exec(env, EMPTY, steps);
            var rebuilt := Rebuilt(s.log, t);
            && (k in rebuilt <==> k in s.store)
            && (k in s.store && k.PathKey? ==>
                  && s.store[k].PathValue? && rebuilt[k].PathEntry?
                  && (rebuilt[k].retired <==> s.store[k].path.status == ProcessPaths.Deactivated)
                  && var a, b := rebuilt[k].def, s.store[k].path.def;
                  && a.matchPrefix == b.matchPrefix && a.direct == b.direct && a.capabilities == b.capabilities
                  && a.role == b.role && a.eligibility == b.eligibility && WholeMicros(a.cycleTime) == b.cycleTime)
            && (k in s.store && k.ScheduleKey? ==>
                  && s.store[k].ScheduleValue? && rebuilt[k].ScheduleEntry? && rebuilt[k].timezone == s.store[k].schedule.timezone
                  && CptSchedules.ByCptId(env.before, rebuilt[k].cutoffs) == s.store[k].schedule.cutoffs)
  {
    hide Exec, Rebuilt, SafeRun, SaveAgrees, Mirrors;
    var s := Exec(env, EMPTY, steps);
    assert Quiet(s, t);
    CurrentMeans(Hist(s.history, k));
    hide Quiet, Current, Hist;
    QuietReplayIsTheStore(env, steps, t, k);
    MirrorsMeans(env, Get(Rebuilt(s.log, t), k), Lookup(s.store, k));
    if k in s.store { StoredKind(env, steps, k); }
  }
}
