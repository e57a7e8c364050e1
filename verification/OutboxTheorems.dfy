/** What the outbox promises of every run: any number of transactions, relay passes, failures and crashes. */
module OutboxTheorems {
  import opened Shared
  import opened ProcessPaths
  import opened CptSchedules
  import opened Catalogue
  import opened Outbox
  import opened OutboxInvariant
  import opened Histories
  import Replay

  // ---- atomicity of a change and its rows ----

  /** Each committed change has exactly one row per encoder, all under its event id. */
  lemma EveryChangeHasItsRows(env: Env, steps: seq<Step>, k: Key, n: nat, t: Topic) returns (id: nat)
    requires TotalOrder(env.before) && n < |Hist(Exec(env, EMPTY, steps).history, k)|
    ensures var s := Exec(env, EMPTY, steps);
            var c := Hist(s.history, k)[n];
            && id in s.rows && s.rows[id].msg == Message(t, c.eventId, k, c.event, n)
            && forall x :: x in s.rows && s.rows[x].msg.eventId == c.eventId && s.rows[x].msg.topic == t ==> x == id
  {
    var s := Exec(env, EMPTY, steps);
    Reachable(env, steps);
    hide StoreInv, TxInv, PassInv, LogInv;
    var c := Hist(s.history, k)[n];
    assert ChangeFits(s.rows, k, n, c);
    id := c.ids[Slot(t)];
    assert s.rows[id].msg.ordinal == n;
    forall x | x in s.rows && s.rows[x].msg.eventId == c.eventId && s.rows[x].msg.topic == t ensures x == id {
      assert RowFits(s.history, x, s.rows[x].msg);
    }
  }

  ghost predicate HasChange(s: State, m: Message) {
    && m.ordinal < |Hist(s.history, m.key)|
    && Hist(s.history, m.key)[m.ordinal].event == m.event && Hist(s.history, m.key)[m.ordinal].eventId == m.eventId
    && KeyOf(m.event) == m.key
  }

  lemma RowHasChange(env: Env, s: State, id: nat)
    requires RowInv(s.history, s.rows) && id in s.rows && Landed(env, s.rows[id].msg.key, Hist(s.history, s.rows[id].msg.key))
    ensures HasChange(s, s.rows[id].msg)
  {
    hide Landed, Lands, Loadable;
    var m := s.rows[id].msg;
    var h := Hist(s.history, m.key);
    assert RowFits(s.history, id, m);
    AtIndex(env, m.key, h, m.ordinal);
  }

  lemma RowAndStore(env: Env, s: State, id: nat)
    requires Inv(env, s) && id in s.rows
    ensures HasChange(s, s.rows[id].msg)
    ensures Lookup(s.store, s.rows[id].msg.key) == Before(Hist(s.history, s.rows[id].msg.key), |Hist(s.history, s.rows[id].msg.key)|)
  {
    hide StoreInv, TxInv, PassInv, LogInv, RowInv, Landed, HasChange;
    Replay.StoreIsLatest(env, s, s.rows[id].msg.key);
    RowHasChange(env, s, id);
  }

  /** There is no row without its change, and the aggregate's committed value is its last change's. */
  lemma NoRowWithoutChange(env: Env, steps: seq<Step>, id: nat)
    requires TotalOrder(env.before) && id in Exec(env, EMPTY, steps).rows
    ensures var s := Exec(env, EMPTY, steps);
            var k := s.rows[id].msg.key;
            && (var m := s.rows[id].msg;
                && m.ordinal < |Hist(s.history, k)| && Hist(s.history, k)[m.ordinal].event == m.event
                && Hist(s.history, k)[m.ordinal].eventId == m.eventId && KeyOf(m.event) == k)
            && k in s.store && s.store[k] == Hist(s.history, k)[|Hist(s.history, k)| - 1].value
  {
    hide Inv, Exec, KeyOf;
    Reachable(env, steps);
    RowAndStore(env, Exec(env, EMPTY, steps), id);
    assert HasChange(Exec(env, EMPTY, steps), Exec(env, EMPTY, steps).rows[id].msg);
  }

  /** The two topics carry the same events of an aggregate in the same order of ids. */
  lemma TopicsAgree(env: Env, steps: seq<Step>, a: nat, b: nat, a2: nat, b2: nat)
    requires TotalOrder(env.before)
    requires var rows := Exec(env, EMPTY, steps).rows;
             && a in rows && b in rows && a2 in rows && b2 in rows
             && rows[a].msg.key == rows[b].msg.key && rows[a].msg.topic == rows[b].msg.topic && rows[a2].msg.topic == rows[b2].msg.topic
             && rows[a].msg.eventId == rows[a2].msg.eventId && rows[b].msg.eventId == rows[b2].msg.eventId
    ensures var rows := Exec(env, EMPTY, steps).rows;
            && (a < b <==> a2 < b2) && rows[a].msg.event == rows[a2].msg.event && rows[b].msg.event == rows[b2].msg.event
  {
    hide Exec, Inv;
    Reachable(env, steps);
    AgreeAt(env, Exec(env, EMPTY, steps), a, b, a2, b2);
  }

  lemma AgreeAt(env: Env, s: State, a: nat, b: nat, a2: nat, b2: nat)
    requires Inv(env, s) && a in s.rows && b in s.rows && a2 in s.rows && b2 in s.rows
    requires s.rows[a].msg.key == s.rows[b].msg.key
    requires s.rows[a].msg.topic == s.rows[b].msg.topic && s.rows[a2].msg.topic == s.rows[b2].msg.topic
    requires s.rows[a].msg.eventId == s.rows[a2].msg.eventId && s.rows[b].msg.eventId == s.rows[b2].msg.eventId
    ensures (a < b <==> a2 < b2) && s.rows[a].msg.event == s.rows[a2].msg.event && s.rows[b].msg.event == s.rows[b2].msg.event
  {
    hide StoreInv, TxInv, PassInv, LogInv, RowFits, ChangeFits, Bounded;
    SameChange(s.history, s.rows, a, a2);
    SameChange(s.history, s.rows, b, b2);
    InOrder(s.history, s.rows, a, b);
    InOrder(s.history, s.rows, a2, b2);
  }

  lemma SameChange(h: History, rows: map<nat, Row>, a: nat, b: nat)
    requires RowInv(h, rows) && a in rows && b in rows && rows[a].msg.eventId == rows[b].msg.eventId
    ensures rows[a].msg.key == rows[b].msg.key && rows[a].msg.ordinal == rows[b].msg.ordinal && rows[a].msg.event == rows[b].msg.event
  {
    hide InCommitOrder, ChangeFits;
    assert RowFits(h, a, rows[a].msg) && RowFits(h, b, rows[b].msg);
  }

  lemma InOrder(h: History, rows: map<nat, Row>, a: nat, b: nat)
    requires RowInv(h, rows) && a in rows && b in rows && rows[a].msg.key == rows[b].msg.key && rows[a].msg.topic == rows[b].msg.topic
    ensures a < b <==> rows[a].msg.ordinal < rows[b].msg.ordinal
  {
    hide EventIdsDistinct, ChangeFits;
    assert RowFits(h, a, rows[a].msg) && RowFits(h, b, rows[b].msg);
  }

  // ---- nothing is lost, nothing is published that was not sent ----

  /** Committed rows, marks, changes and messages stay. */
  ghost predicate Grows(s: State, n: State) {
    && (forall id :: id in s.rows ==> id in n.rows && n.rows[id].msg == s.rows[id].msg && (s.rows[id].published ==> n.rows[id].published))
    && s.log <= n.log
    && (forall k :: Hist(s.history, k) <= Hist(n.history, k))
  }

  lemma NewRowsAreNew(env: Env, s: State, w: Work)
    requires w.Saved? && WorkFits(env, s, w)
    ensures forall id :: id in w.rows ==> id !in s.rows
  {
    hide LegalSave, EventIdFresh;
  }

  lemma CommitGrows(env: Env, s: State, t: nat)
    requires TxInv(env, s) && t in s.txs
    ensures Grows(s, Committed(s, t))
  {
    hide WorkFits, Apart;
    var w := s.txs[t].work;
    if w.Saved? {
      WorkIsLegal(env, s, t);
      NewRowsAreNew(env, s, w);
    }
    hide TxInv;
  }

  lemma StepGrows(env: Env, s: State, e: Step)
    requires Inv(env, s)
    ensures Grows(s, Apply(env, s, e))
  {
    hide StoreInv, RowInv, PassInv, LogInv, TxInv, Bounded, Decide, Stored, Scan, Committed, TotalOrder;
    if Enabled(env, s, e) {
      if e.Commit? { CommitGrows(env, s, e.tx); }
      if e.Close? { SettledTouchesOnly(s.rows, s.passes[e.pass]); }
    }
  }

  lemma {:induction false} RunGrows(env: Env, s: State, steps: seq<Step>)
    requires Inv(env, s)
    ensures Grows(s, Exec(env, s, steps))
    decreases |steps|
  {
    hide Inv, Apply;
    if steps != [] {
      StepKeeps(env, s, steps[0]);
      StepGrows(env, s, steps[0]);
      RunGrows(env, Apply(env, s, steps[0]), steps[1..]);
    }
  }

  /**
   However a run goes on, a committed row stays, as pending or as published; a published row stays
   published and its message is on its topic because a send of it reported success.
   */
  lemma NothingLostNothingFalse(env: Env, steps: seq<Step>, more: seq<Step>, id: nat)
    requires TotalOrder(env.before) && id in Exec(env, EMPTY, steps).rows
    ensures var s := Exec(env, EMPTY, steps);
            var n := Exec(env, s, more);
            && n == Exec(env, EMPTY, steps + more)
            && id in n.rows && n.rows[id].msg == s.rows[id].msg
            && (s.rows[id].published ==> n.rows[id].published)
            && (n.rows[id].published ==> id in n.acked && n.rows[id].msg in n.log)
  {
    var s := Exec(env, EMPTY, steps);
    Reachable(env, steps);
    RunGrows(env, s, more);
    ExecAppend(env, EMPTY, steps, more);
    Reachable(env, steps + more);
    hide StoreInv, RowInv, TxInv, PassInv;
  }

  /** No two passes in flight hold a common row, and they hold only pending ones. */
  lemma PassesAreDisjoint(env: Env, steps: seq<Step>, p: nat, q: nat, i: nat, j: nat)
    requires TotalOrder(env.before)
    requires var ps := Exec(env, EMPTY, steps).passes;
             p in ps && q in ps && p != q && i < |ps[p].batch| && j < |ps[q].batch|
    ensures var s := Exec(env, EMPTY, steps);
            var id := s.passes[p].batch[i]; id != s.passes[q].batch[j] && id in s.rows && !s.rows[id].published
  {
    Reachable(env, steps);
    var s := Exec(env, EMPTY, steps);
    hide StoreInv, RowInv, TxInv, LogInv;
    assert PassFits(s.rows, s.acked, s.passes[p]);
  }

  // ---- id order against commit order ----

  lemma OldVersionOldRow(h: History, rows: map<nat, Row>, h2: History, rows2: map<nat, Row>, b: nat)
    requires RowInv(h, rows) && RowInv(h2, rows2) && b in rows2
    requires Hist(h, rows2[b].msg.key) <= Hist(h2, rows2[b].msg.key)
    requires rows2[b].msg.ordinal < |Hist(h, rows2[b].msg.key)|
    ensures b in rows
  {
    var m := rows2[b].msg;
    assert RowFits(h2, b, m);
    assert ChangeFits(rows, m.key, m.ordinal, Hist(h, m.key)[m.ordinal]);
    assert Hist(h2, m.key)[m.ordinal] == Hist(h, m.key)[m.ordinal];
  }

  /** A row that commits after another row of its aggregate has the higher id, whatever ran in between. */
  lemma CommitOrderIsIdOrder(env: Env, steps: seq<Step>, more: seq<Step>, a: nat, b: nat)
    requires TotalOrder(env.before)
    requires var s := Exec(env, EMPTY, steps);
             var n := Exec(env, s, more);
             a in s.rows && b in n.rows && b !in s.rows && n.rows[b].msg.key == s.rows[a].msg.key
    ensures a < b
  {
    var s := Exec(env, EMPTY, steps);
    var n := Exec(env, s, more);
    Reachable(env, steps);
    RunKeeps(env, s, more);
    RunGrows(env, s, more);
    hide StoreInv, TxInv, PassInv, LogInv;
    assert RowFits(s.history, a, s.rows[a].msg);
    if n.rows[b].msg.ordinal < |Hist(s.history, n.rows[b].msg.key)| {
      OldVersionOldRow(s.history, s.rows, n.history, n.rows, b);
    }
  }

  // ---- a path's history ----

  lemma HistoryLanded(env: Env, steps: seq<Step>, k: Key)
    requires TotalOrder(env.before)
    ensures var s := Exec(env, EMPTY, steps);
            Landed(env, k, Hist(s.history, k)) && Lookup(s.store, k) == Before(Hist(s.history, k), |Hist(s.history, k)|)
  {
    hide Inv, Exec;
    Reachable(env, steps);
    Replay.StoreIsLatest(env, Exec(env, EMPTY, steps), k);
  }

  /**
   In every run the id, direct, role and creation time of a path never change. Its events are Created, then
   updates, then perhaps one retirement, exactly when no save but the first followed a load that found
   nothing or met a retired row; as is always so where every save was decided on what it replaced.
   */
  lemma PathHistoryShape(env: Env, steps: seq<Step>, id: string)
    requires TotalOrder(env.before)
    ensures var h := Hist(Exec(env, EMPTY, steps).history, PathKey(id));
            var intended := forall n :: 0 <= n < |h| ==> (h[n].event.Created? <==> n == 0) && (h[n].event.Retired? ==> n == |h| - 1);
            && (forall n :: 0 <= n < |h| ==>
                  && h[0].value.PathValue? && h[n].value.PathValue? && h[n].value.path.id == id && !h[n].event.ScheduleChanged?
                  && h[n].value.path.def.direct == h[0].value.path.def.direct && h[n].value.path.def.role == h[0].value.path.def.role
                  && h[n].value.path.createdAt == h[0].value.path.createdAt)
            && (intended <==> (forall n :: 0 < n < |h| ==> h[n].loaded > 0) && (forall n :: 0 <= n < |h| - 1 ==> h[n].value.path.status == Active))
            && ((forall n :: 0 <= n < |h| ==> h[n].loaded == n) ==> intended)
  {
    hide Exec, Landed, Before, Lookup;
    HistoryLanded(env, steps, PathKey(id));
    ShapeOf(env, id, Hist(Exec(env, EMPTY, steps).history, PathKey(id)));
  }

  ghost predicate SamePaths(id: string, h: seq<Change>) {
    forall n :: 0 <= n < |h| ==>
      h[0].value.PathValue? && h[n].value.PathValue? && SamePath(id, h[0].value.path, h[n].value.path) && !h[n].event.ScheduleChanged?
  }

  lemma ShapeOf(env: Env, id: string, h: seq<Change>)
    requires Landed(env, PathKey(id), h)
    ensures var intended := forall n :: 0 <= n < |h| ==> (h[n].event.Created? <==> n == 0) && (h[n].event.Retired? ==> n == |h| - 1);
            && (forall n :: 0 <= n < |h| ==>
                  && h[0].value.PathValue? && h[n].value.PathValue? && h[n].value.path.id == id && !h[n].event.ScheduleChanged?
                  && h[n].value.path.def.direct == h[0].value.path.def.direct && h[n].value.path.def.role == h[0].value.path.def.role
                  && h[n].value.path.createdAt == h[0].value.path.createdAt)
            && (intended <==> (forall n :: 0 < n < |h| ==> h[n].loaded > 0) && (forall n :: 0 <= n < |h| - 1 ==> h[n].value.path.status == Active))
            && ((forall n :: 0 <= n < |h| ==> h[n].loaded == n) ==> intended)
  {
    hide Landed, SamePath, Lifecycle, OverActiveRows, Current;
    LifecycleIff(env, id, h);
    forall n | 0 <= n < |h|
      ensures h[0].value.PathValue? && h[n].value.PathValue? && SamePath(id, h[0].value.path, h[n].value.path) && !h[n].event.ScheduleChanged?
    {
      PathKept(env, id, h, n);
    }
    SamePathsMeans(id, h);
    OverActiveMeans(id, h);
    LifecycleMeans(h);
    Replay.CurrentMeans(h);
  }

  lemma SamePathsMeans(id: string, h: seq<Change>)
    requires SamePaths(id, h)
    ensures forall n :: 0 <= n < |h| ==>
      && h[0].value.PathValue? && h[n].value.PathValue? && h[n].value.path.id == id && !h[n].event.ScheduleChanged?
      && h[n].value.path.def.direct == h[0].value.path.def.direct && h[n].value.path.def.role == h[0].value.path.def.role
      && h[n].value.path.createdAt == h[0].value.path.createdAt
  {}

  lemma OverActiveMeans(id: string, h: seq<Change>)
    requires SamePaths(id, h)
    ensures OverActiveRows(h) <==> (forall n :: 0 < n < |h| ==> h[n].loaded > 0) && (forall n :: 0 <= n < |h| - 1 ==> h[n].value.path.status == Active)
  {
    hide SamePath;
    forall n | 0 < n < |h| ensures Before(h, n) == Some(h[n - 1].value) && h[n - 1].value.PathValue? {}
    if OverActiveRows(h) {
      forall n | 0 <= n < |h| - 1 ensures h[n].value.path.status == Active {
        assert AsPath(Before(h, n + 1)).Some?;
      }
    }
  }

  lemma LifecycleMeans(h: seq<Change>)
    ensures Lifecycle(h) <==> forall n :: 0 <= n < |h| ==> (h[n].event.Created? <==> n == 0) && (h[n].event.Retired? ==> n == |h| - 1)
  {}

  /** In every run a stored path passes `validate` exactly when the definition it was saved from lasts at least a microsecond. */
  lemma StoredPathsValidIff(env: Env, steps: seq<Step>, id: string)
    requires TotalOrder(env.before) && PathKey(id) in Exec(env, EMPTY, steps).store
    ensures var s := Exec(env, EMPTY, steps);
            var h := Hist(s.history, PathKey(id));
            && s.store[PathKey(id)].PathValue? && h != []
            && var d := SavedFrom(h, |h| - 1);
            && (d.Created? || d.Updated?)
            && DefinitionFault(env, s.store[PathKey(id)].path.def)
               == if d.def.cycleTime >= NANOS_PER_MICRO then None else Some(InvalidCycleTime)
  {
    hide Exec, Landed;
    HistoryLanded(env, steps, PathKey(id));
    var h := Hist(Exec(env, EMPTY, steps).history, PathKey(id));
    var n := |h| - 1;
    StoredFrom(env, id, h, n);
    StoredPathIsValidIff(env, SavedFrom(h, n).def.(direct := h[0].event.def.direct, role := h[0].event.def.role));
  }

  lemma DefinesMeans(env: Env, e: Event)
    requires Defines(env, e)
    ensures (e.Created? || e.Updated?) && e.def.matchPrefix != "" && env.isLower(e.def.matchPrefix) && e.def.capabilities != []
    ensures e.def.role == "" || e.def.role == "Drop" || e.def.role == "WorkCenter" || e.def.role == "Shipping"
    ensures e.def.cycleTime > 0
  {}

  lemma FirstDefines(env: Env, h: seq<Change>)
    requires h != [] && h[0].event.Created? && DefinitionFault(env, h[0].event.def).None?
    ensures Defines(env, h[0].event)
  {}

  /** In every run a stored path has an id, a nonempty lower-case prefix, a capability and a known role. */
  lemma StoredPathsAreWellFormed(env: Env, steps: seq<Step>, id: string)
    requires TotalOrder(env.before) && PathKey(id) in Exec(env, EMPTY, steps).store
    ensures var v := Exec(env, EMPTY, steps).store[PathKey(id)];
            && v.PathValue? && v.path.id == id
            && v.path.def.matchPrefix != "" && env.isLower(v.path.def.matchPrefix) && v.path.def.capabilities != []
            && (v.path.def.role == "" || v.path.def.role == "Drop" || v.path.def.role == "WorkCenter" || v.path.def.role == "Shipping")
            && v.path.def.cycleTime >= 0 && v.path.def.cycleTime % NANOS_PER_MICRO == 0
  {
    hide Exec, Landed, Defines, DefinitionFault;
    HistoryLanded(env, steps, PathKey(id));
    var h := Hist(Exec(env, EMPTY, steps).history, PathKey(id));
    StoredFrom(env, id, h, |h| - 1);
    PathKept(env, id, h, |h| - 1);
    DefinesMeans(env, SavedFrom(h, |h| - 1));
    FirstDefines(env, h);
    DefinesMeans(env, h[0].event);
    WholeMicrosExact(SavedFrom(h, |h| - 1).def.cycleTime);
  }

  lemma ScheduleLands(env: Env, site: string, loaded: Option<Value>, row: Option<Value>, v: Value, e: Event)
    requires Lawful(env, ScheduleKey(site), loaded, row, v, e)
    ensures v.ScheduleValue? && v.schedule.siteId == site && e.ScheduleChanged? && v.schedule.timezone == e.timezone
    ensures e.timezone != "" && env.knownZone(e.timezone) && e.cutoffs != [] && DistinctIds(e.cutoffs) && WellMade(e.cutoffs)
    ensures v.schedule.cutoffs == ByCptId(env.before, e.cutoffs)
  {
    hide CutoffFault, ByCptId;
  }

  /** In every run a stored schedule has a known zone and cutoffs, ascending by id and each well made. */
  lemma StoredSchedulesAreWellFormed(env: Env, steps: seq<Step>, site: string)
    requires TotalOrder(env.before) && ScheduleKey(site) in Exec(env, EMPTY, steps).store
    ensures var v := Exec(env, EMPTY, steps).store[ScheduleKey(site)];
            && v.ScheduleValue? && v.schedule.siteId == site
            && v.schedule.timezone != "" && env.knownZone(v.schedule.timezone) && v.schedule.cutoffs != []
            && (forall i, j :: 0 <= i < j < |v.schedule.cutoffs| ==>
                  env.before(v.schedule.cutoffs[i].cptId, v.schedule.cutoffs[j].cptId) && v.schedule.cutoffs[i].cptId != v.schedule.cutoffs[j].cptId)
            && forall c :: c in v.schedule.cutoffs ==>
                 && c.cptId != "" && IsLocalTime(c.localTime) && c.daysOfWeek != [] && c.shipMethod != "" && c.eligiblePathIds != []
                 && forall d :: d in c.daysOfWeek ==> d in ["Mon", "Tue", "Wed", "Thu", "Fri", "Sat", "Sun"]
  {
    hide Exec, Landed, Lawful, CutoffFault, ByCptId, TotalOrder;
    var k := ScheduleKey(site);
    HistoryLanded(env, steps, k);
    var h := Hist(Exec(env, EMPTY, steps).history, k);
    var n := |h| - 1;
    AtIndex(env, k, h, n);
    ScheduleLands(env, site, Before(h, h[n].loaded), Before(h, n), h[n].value, h[n].event);
    ByCptIdSorts(env.before, h[n].event.cutoffs);
    var kept := h[n].value.schedule.cutoffs;
    forall i, j | 0 <= i < j < |kept| ensures env.before(kept[i].cptId, kept[j].cptId) && kept[i].cptId != kept[j].cptId {
      assert CptIds(kept)[i] == kept[i].cptId && CptIds(kept)[j] == kept[j].cptId;
    }
    forall c | c in kept
      ensures c.cptId != "" && IsLocalTime(c.localTime) && c.daysOfWeek != [] && c.shipMethod != "" && c.eligiblePathIds != []
      ensures forall d :: d in c.daysOfWeek ==> d in ["Mon", "Tue", "Wed", "Thu", "Fri", "Sat", "Sun"]
    {
      WellMadeMeans(c);
    }
  }

  lemma WellMadeMeans(c: Cutoff)
    requires CutoffFault(c).None?
    ensures c.cptId != "" && IsLocalTime(c.localTime) && c.daysOfWeek != [] && c.shipMethod != "" && c.eligiblePathIds != []
    ensures forall d :: d in c.daysOfWeek ==> d in ["Mon", "Tue", "Wed", "Thu", "Fri", "Sat", "Sun"]
  {}
}
