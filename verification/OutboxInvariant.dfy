/**
 What every step of the outbox machine keeps, for any number of transactions and relay passes:
 atomicity of change and rows, id order against commit order, no loss, no false publication.
 */
module OutboxInvariant {
  import opened Shared
  import opened Catalogue
  import opened Outbox

  // ---- committed aggregates ----

  /** A change decided on `loaded` whose save met `row`. */
  ghost predicate Lawful(env: Env, k: Key, loaded: Option<Value>, row: Option<Value>, v: Value, e: Event) {
    KeyOf(e) == k && Lands(env, loaded, row, v, e) && Loadable(env, k, v)
  }

  /** The change was decided on a committed version of its aggregate and laid over the one before it. */
  ghost predicate LandedAt(env: Env, k: Key, h: seq<Change>, n: nat)
    requires n < |h|
  {
    h[n].loaded <= n && Lawful(env, k, Before(h, h[n].loaded), Before(h, n), h[n].value, h[n].event)
  }

  ghost predicate Landed(env: Env, k: Key, h: seq<Change>) {
    forall n :: 0 <= n < |h| ==> LandedAt(env, k, h, n)
  }

  ghost predicate StoreInv(env: Env, h: History, store: map<Key, Value>) {
    && (forall k :: Landed(env, k, Hist(h, k)))
    && (forall k :: Lookup(store, k) == Before(Hist(h, k), |Hist(h, k)|))
  }

  // ---- committed rows ----

  ghost predicate RowFits(h: History, id: nat, m: Message) {
    && m.ordinal < |Hist(h, m.key)|
    && var c := Hist(h, m.key)[m.ordinal];
    && |c.ids| == |ENCODERS| && c.ids[Slot(m.topic)] == id
    && c.eventId == m.eventId && c.event == m.event
  }

  ghost predicate ChangeFits(rows: map<nat, Row>, k: Key, n: nat, c: Change) {
    && |c.ids| == |ENCODERS|
    && forall i :: 0 <= i < |ENCODERS| ==>
         c.ids[i] in rows && rows[c.ids[i]].msg == Message(ENCODERS[i], c.eventId, k, c.event, n)
  }

  ghost predicate Bounded(rows: map<nat, Row>, nextId: nat, nextEvent: nat) {
    forall id :: id in rows ==> id < nextId && rows[id].msg.eventId < nextEvent
  }

  /** Row ids of one aggregate rise with the commit order of its changes. */
  ghost predicate InCommitOrder(rows: map<nat, Row>) {
    forall a, b ::
      (a in rows && b in rows && rows[a].msg.key == rows[b].msg.key && rows[a].msg.ordinal < rows[b].msg.ordinal)
      ==> a < b
  }

  ghost predicate EventIdsDistinct(rows: map<nat, Row>) {
    forall a, b :: a in rows && b in rows && rows[a].msg.eventId == rows[b].msg.eventId ==>
      rows[a].msg.key == rows[b].msg.key && rows[a].msg.ordinal == rows[b].msg.ordinal
  }

  ghost predicate RowInv(h: History, rows: map<nat, Row>) {
    && (forall id :: id in rows ==> RowFits(h, id, rows[id].msg))
    && (forall k, n :: 0 <= n < |Hist(h, k)| ==> ChangeFits(rows, k, n, Hist(h, k)[n]))
    && InCommitOrder(rows)
    && EventIdsDistinct(rows)
  }

  // ---- open transactions ----

  /** The saved value is laid over the committed one, which the row lock keeps in place. */
  ghost predicate LegalSave(env: Env, s: State, w: Work)
    requires w.Saved?
  {
    var h := Hist(s.history, w.key);
    w.loaded <= w.ordinal == |h| && Lawful(env, w.key, Before(h, w.loaded), Lookup(s.store, w.key), w.value, w.event)
  }

  /** The rows inserted so far: fresh rising ids above every committed row of the aggregate. */
  ghost predicate IdsFit(rows: map<nat, Row>, nextId: nat, w: Work)
    requires w.Saved?
  {
    && |w.ids| <= |ENCODERS| && Rising(w.ids)
    && (forall i :: 0 <= i < |w.ids| ==> w.ids[i] < nextId && w.ids[i] !in rows)
    && (forall i :: 0 <= i < |w.ids| ==> w.ids[i] in w.rows && w.rows[w.ids[i]] == NewRow(w, i))
    && (forall id :: id in w.rows ==> id in w.ids)
    && (forall id, i :: id in rows && rows[id].msg.key == w.key && 0 <= i < |w.ids| ==> id < w.ids[i])
  }

  ghost predicate EventIdFresh(rows: map<nat, Row>, nextEvent: nat, eventId: nat) {
    eventId < nextEvent && forall id :: id in rows ==> rows[id].msg.eventId != eventId
  }

  ghost predicate WorkFits(env: Env, s: State, w: Work)
    requires w.Saved?
  {
    && LegalSave(env, s, w)
    && IdsFit(s.rows, s.nextId, w)
    && EventIdFresh(s.rows, s.nextEvent, w.eventId)
  }

  ghost predicate TxFits(env: Env, s: State, t: Tx) {
    && (t.work.Saved? ==> WorkFits(env, s, t.work))
    && (t.work.Saved? && t.joined ==> t.work.event.Created?)
    && (t.fault.EncodeFailed? ==> t.work.Saved? && t.work.key.id == "")
  }

  ghost predicate Apart(a: Work, b: Work)
    requires a.Saved? && b.Saved?
  {
    a.key != b.key && a.eventId != b.eventId && forall id :: id in a.rows ==> id !in b.rows
  }

  ghost predicate TxInv(env: Env, s: State) {
    && (forall t :: t in s.txs ==> TxFits(env, s, s.txs[t]))
    && (forall t, u :: t in s.txs && u in s.txs && t != u && s.txs[t].work.Saved? && s.txs[u].work.Saved? ==>
          Apart(s.txs[t].work, s.txs[u].work))
  }

  // ---- relay passes and topics ----

  function Sent(p: Pass): nat { if p.stage.Acked? then p.done + 1 else p.done }

  ghost predicate PassFits(rows: map<nat, Row>, acked: set<nat>, p: Pass) {
    && Rising(p.batch) && p.done <= |p.batch|
    && (!p.stage.Ready? ==> p.done < |p.batch|)
    && (forall i :: 0 <= i < |p.batch| ==> Pending(rows, p.batch[i]))
    && (forall i :: 0 <= i < Sent(p) ==> p.batch[i] in acked)
  }

  /** No row is held by two passes. */
  ghost predicate Disjoint(passes: map<nat, Pass>) {
    forall p, q, i, j :: p in passes && q in passes && p != q && 0 <= i < |passes[p].batch| && 0 <= j < |passes[q].batch|
      ==> passes[p].batch[i] != passes[q].batch[j]
  }

  ghost predicate PassInv(rows: map<nat, Row>, acked: set<nat>, passes: map<nat, Pass>) {
    && (forall p :: p in passes ==> PassFits(rows, acked, passes[p]))
    && Disjoint(passes)
  }

  /** Every message on a topic is some committed row's, and every acknowledged row is on its topic. */
  ghost predicate LogInv(h: History, rows: map<nat, Row>, log: seq<Message>, acked: set<nat>) {
    && (forall m :: m in log ==> exists id :: id in rows && rows[id].msg == m)
    && (forall id :: id in acked ==> id in rows && rows[id].msg in log)
    && (forall id :: id in rows && rows[id].published ==> id in acked)
  }

  ghost predicate Inv(env: Env, s: State) {
    && TotalOrder(env.before)
    && StoreInv(env, s.history, s.store)
    && Bounded(s.rows, s.nextId, s.nextEvent)
    && RowInv(s.history, s.rows)
    && TxInv(env, s)
    && PassInv(s.rows, s.acked, s.passes)
    && LogInv(s.history, s.rows, s.log, s.acked)
  }

  // ---- steps inside one transaction ----

  /** `n` differs from `s` at most in its open transactions and its counters, which only grow. */
  ghost predicate OnlyTxs(s: State, n: State) {
    n == s.(txs := n.txs, nextId := n.nextId, nextEvent := n.nextEvent) && s.nextId <= n.nextId && s.nextEvent <= n.nextEvent
  }

  lemma TxFitsStill(env: Env, s: State, n: State, t: Tx)
    requires OnlyTxs(s, n) && TxFits(env, s, t)
    ensures TxFits(env, n, t)
  {}

  lemma OnlyTxsKeeps(env: Env, s: State, n: State)
    requires Inv(env, s) && OnlyTxs(s, n) && TxInv(env, n)
    ensures Inv(env, n)
  {}

  /** Replacing or adding one transaction that fits and stays apart from the others. */
  lemma TxReplaced(env: Env, s: State, n: State, t: nat)
    requires TxInv(env, s) && OnlyTxs(s, n) && t in n.txs && n.txs - {t} == s.txs - {t}
    requires TxFits(env, n, n.txs[t])
    requires n.txs[t].work.Saved? ==> forall u :: u in s.txs && u != t && s.txs[u].work.Saved? ==> Apart(n.txs[t].work, s.txs[u].work)
    ensures TxInv(env, n)
  {
    forall u | u in n.txs && u != t ensures u in s.txs && n.txs[u] == s.txs[u] && TxFits(env, n, n.txs[u]) {
      assert u in n.txs - {t};
      TxFitsStill(env, s, n, s.txs[u]);
    }
    forall u, v | u in n.txs && v in n.txs && u != v && n.txs[u].work.Saved? && n.txs[v].work.Saved?
      ensures Apart(n.txs[u].work, n.txs[v].work)
    {
      if v == t { assert Apart(n.txs[t].work, s.txs[u].work); }
    }
  }

  lemma TxsRemoved(env: Env, s: State, n: State)
    requires TxInv(env, s) && OnlyTxs(s, n) && forall t :: t in n.txs ==> t in s.txs && n.txs[t] == s.txs[t]
    ensures TxInv(env, n)
  {
    forall t | t in n.txs ensures TxFits(env, n, n.txs[t]) { TxFitsStill(env, s, n, s.txs[t]); }
  }

  lemma DefineCreates(env: Env, cmd: Command, current: Option<Value>, active: set<string>)
    requires cmd.DefinePath? && Decide(env, cmd, current, active).Changed?
    ensures Decide(env, cmd, current, active).event.Created?
  {}

  /** Every committed version of an aggregate can be loaded. */
  lemma VersionsLoadable(env: Env, k: Key, h: seq<Change>, n: nat)
    requires Landed(env, k, h) && n <= |h|
    ensures Before(h, n).Some? ==> Loadable(env, k, Before(h, n).value)
  {
    hide Lands, Loadable;
    if n > 0 { assert LandedAt(env, k, h, n - 1); }
  }

  /** What a save puts in hand is laid over the committed value, under a fresh event id. */
  lemma SavingFits(env: Env, s: State, cmd: Command, version: nat, active: set<string>)
    requires TotalOrder(env.before) && StoreInv(env, s.history, s.store) && Bounded(s.rows, s.nextId, s.nextEvent)
    requires Decides(env, s.history, cmd, version, active)
    ensures var w := Saving(env, s, cmd, version, active);
            WorkFits(env, s.(nextEvent := s.nextEvent + 1), w) && w.key == Target(cmd) && (cmd.DefinePath? ==> w.event.Created?)
  {
    hide Decide, Stored, Lands, Loadable, Landed;
    var k := Target(cmd);
    var h := Hist(s.history, k);
    assert Lookup(s.store, k) == Before(h, |h|) && Landed(env, k, h);
    VersionsLoadable(env, k, h, version);
    VersionsLoadable(env, k, h, |h|);
    DecisionsLand(env, cmd, Before(h, version), Before(h, |h|), active);
    if cmd.DefinePath? { DefineCreates(env, cmd, Before(h, version), active); }
  }

  lemma SaveKeepsTxs(env: Env, s: State, e: Step)
    requires TotalOrder(env.before) && StoreInv(env, s.history, s.store) && Bounded(s.rows, s.nextId, s.nextEvent)
    requires TxInv(env, s) && e.Save? && Enabled(env, s, e)
    ensures TxInv(env, Apply(env, s, e))
  {
    SavingFits(env, s, e.cmd, e.version, e.active);
    hide StoreInv, Bounded, TotalOrder, Decide, Stored, LegalSave, IdsFit;
    var n := Apply(env, s, e);
    var w := Saving(env, s, e.cmd, e.version, e.active);
    forall u | u in s.txs && u != e.tx && s.txs[u].work.Saved? ensures Apart(w, s.txs[u].work) {
      assert TxFits(env, s, s.txs[u]);
    }
    TxFitsStill(env, s.(nextEvent := s.nextEvent + 1), n, n.txs[e.tx]);
    hide TxInv;
    TxReplaced(env, s, n, e.tx);
  }

  lemma InsertedIdsFit(rows: map<nat, Row>, nextId: nat, w: Work, x: Work)
    requires w.Saved? && IdsFit(rows, nextId, w) && |w.ids| < |ENCODERS|
    requires forall id :: id in rows ==> id < nextId
    requires x == w.(ids := w.ids + [nextId], rows := w.rows[nextId := NewRow(w, |w.ids|)])
    ensures IdsFit(rows, nextId + 1, x)
  {
    forall i | 0 <= i < |x.ids| ensures x.ids[i] in x.rows && x.rows[x.ids[i]] == NewRow(x, i) {
      if i < |w.ids| { assert w.ids[i] in w.rows && w.ids[i] < nextId; }
    }
  }

  lemma InsertedFits(env: Env, s: State, t: nat)
    requires Bounded(s.rows, s.nextId, s.nextEvent) && t in s.txs && TxFits(env, s, s.txs[t])
    requires s.txs[t].work.Saved? && |s.txs[t].work.ids| < |ENCODERS|
    ensures TxFits(env, Inserted(s, t), Inserted(s, t).txs[t])
  {
    var w, n := s.txs[t].work, Inserted(s, t);
    if w.key.id != "" {
      InsertedIdsFit(s.rows, s.nextId, w, n.txs[t].work);
      assert LegalSave(env, n, w);
    }
  }

  lemma InsertedApart(env: Env, s: State, t: nat, other: Tx)
    requires t in s.txs && s.txs[t].work.Saved? && |s.txs[t].work.ids| < |ENCODERS|
    requires other.work.Saved? && Apart(s.txs[t].work, other.work) && TxFits(env, s, other)
    ensures Apart(Inserted(s, t).txs[t].work, other.work)
  {
    hide LegalSave, EventIdFresh;
  }

  lemma InsertKeepsTxs(env: Env, s: State, t: nat)
    requires Bounded(s.rows, s.nextId, s.nextEvent) && TxInv(env, s)
    requires t in s.txs && s.txs[t].work.Saved? && |s.txs[t].work.ids| < |ENCODERS|
    ensures TxInv(env, Inserted(s, t))
  {
    hide TxFits, Apart, Bounded;
    InsertedFits(env, s, t);
    forall u | u in s.txs && u != t && s.txs[u].work.Saved? ensures Apart(Inserted(s, t).txs[t].work, s.txs[u].work) {
      assert TxFits(env, s, s.txs[u]) && Apart(s.txs[t].work, s.txs[u].work);
      InsertedApart(env, s, t, s.txs[u]);
    }
    hide TxInv;
    TxReplaced(env, s, Inserted(s, t), t);
  }

  lemma TxStepKeepsTxs(env: Env, s: State, e: Step)
    requires TxInv(env, s) && Enabled(env, s, e) && (e.Begin? || e.SqlError? || e.Rollback? || e.Crash?)
    ensures TxInv(env, Apply(env, s, e).(passes := s.passes))
  {
    var n := Apply(env, s, e).(passes := s.passes);
    if e.Rollback? || e.Crash? {
      TxsRemoved(env, s, n);
    } else {
      if e.SqlError? {
        assert TxFits(env, s, s.txs[e.tx]);
        TxFitsStill(env, s, n, s.txs[e.tx]);
      }
      TxReplaced(env, s, n, e.tx);
    }
  }

  // ---- the commit of a change ----

  lemma EncodersSucceedWhenJoined(env: Env, s: State, t: nat)
    requires TxInv(env, s) && t in s.txs && s.txs[t].joined
    ensures !s.txs[t].fault.EncodeFailed?
  {
    assert TxFits(env, s, s.txs[t]);
  }

  /** A transaction that installs a change has inserted all of its rows. */
  lemma InstallsWhole(env: Env, s: State, t: nat)
    requires TxInv(env, s) && t in s.txs && ReachesCommit(s.txs[t]) && !s.txs[t].fault.SqlFailed? && s.txs[t].work.Saved?
    ensures |s.txs[t].work.ids| == |ENCODERS|
  {
    if s.txs[t].joined { EncodersSucceedWhenJoined(env, s, t); }
  }

  lemma SameBefore(h: seq<Change>, c: Change, n: nat)
    requires n <= |h|
    ensures Before(h + [c], n) == Before(h, n)
  {}

  lemma LandedAtStill(env: Env, k: Key, h: seq<Change>, c: Change, n: nat)
    requires n < |h| && LandedAt(env, k, h, n)
    ensures LandedAt(env, k, h + [c], n)
  {
    hide Lawful, Before;
    assert (h + [c])[n] == h[n];
    SameBefore(h, c, n);
    SameBefore(h, c, h[n].loaded);
  }

  lemma LandedExtends(env: Env, k: Key, h: seq<Change>, c: Change)
    requires Landed(env, k, h) && c.loaded <= |h| && Lawful(env, k, Before(h, c.loaded), Before(h, |h|), c.value, c.event)
    ensures Landed(env, k, h + [c])
  {
    hide Lawful, Before;
    forall n | 0 <= n < |h + [c]| ensures LandedAt(env, k, h + [c], n) {
      if n < |h| {
        hide LandedAt;
        LandedAtStill(env, k, h, c, n);
      } else {
        SameBefore(h, c, n);
        SameBefore(h, c, c.loaded);
      }
    }
  }

  ghost function Made(w: Work): Change
    requires w.Saved?
  {
    Change(w.value, w.event, w.eventId, w.ids, w.loaded)
  }

  lemma InstallKeepsStore(env: Env, h: History, store: map<Key, Value>, k: Key, c: Change)
    requires StoreInv(env, h, store) && c.loaded <= |Hist(h, k)|
    requires Lawful(env, k, Before(Hist(h, k), c.loaded), Lookup(store, k), c.value, c.event)
    ensures StoreInv(env, h[k := Hist(h, k) + [c]], store[k := c.value])
  {
    assert Lookup(store, k) == Before(Hist(h, k), |Hist(h, k)|);
    assert Landed(env, k, Hist(h, k));
    LandedExtends(env, k, Hist(h, k), c);
    hide Landed;
    var h2, store2 := h[k := Hist(h, k) + [c]], store[k := c.value];
    forall x ensures Landed(env, x, Hist(h2, x)) && Lookup(store2, x) == Before(Hist(h2, x), |Hist(h2, x)|) {
      assert Landed(env, x, Hist(h, x));
      assert Lookup(store, x) == Before(Hist(h, x), |Hist(h, x)|);
    }
  }

  /** What a committing transaction adds to the table. */
  ghost predicate Adds(h: History, rows: map<nat, Row>, w: Work)
    requires w.Saved?
  {
    && |w.ids| == |ENCODERS| && w.ordinal == |Hist(h, w.key)|
    && w.ids[0] !in rows && w.ids[1] !in rows && w.ids[0] != w.ids[1]
    && w.rows == map[w.ids[0] := NewRow(w, 0), w.ids[1] := NewRow(w, 1)]
    && (forall id :: id in rows ==> rows[id].msg.eventId != w.eventId)
    && (forall id :: id in rows && rows[id].msg.key == w.key ==> id < w.ids[0] && id < w.ids[1])
  }

  lemma WorkAdds(env: Env, s: State, w: Work)
    requires w.Saved? && WorkFits(env, s, w) && |w.ids| == |ENCODERS|
    ensures Adds(s.history, s.rows, w)
  {
    assert w.ids == [w.ids[0], w.ids[1]];
    assert w.ids[0] in w.rows && w.ids[1] in w.rows;
  }

  lemma NewRowFits(h: History, w: Work, i: nat)
    requires w.Saved? && |w.ids| == |ENCODERS| && w.ordinal == |Hist(h, w.key)| && i < |ENCODERS|
    ensures RowFits(h[w.key := Hist(h, w.key) + [Made(w)]], w.ids[i], NewRow(w, i).msg)
  {}

  lemma OldRowFits(h: History, k: Key, c: Change, id: nat, m: Message)
    requires RowFits(h, id, m)
    ensures RowFits(h[k := Hist(h, k) + [c]], id, m)
  {
    if m.key == k { assert (Hist(h, k) + [c])[m.ordinal] == Hist(h, k)[m.ordinal]; }
  }

  lemma OldChangeFits(rows: map<nat, Row>, all: map<nat, Row>, k: Key, n: nat, c: Change)
    requires ChangeFits(rows, k, n, c) && forall id :: id in rows ==> id in all && all[id].msg == rows[id].msg
    ensures ChangeFits(all, k, n, c)
  {}

  lemma NewChangeFits(h: History, rows: map<nat, Row>, w: Work)
    requires w.Saved? && Adds(h, rows, w)
    ensures ChangeFits(rows + w.rows, w.key, |Hist(h, w.key)|, Made(w))
  {
    assert w.ids[0] in w.rows && w.ids[1] in w.rows;
  }

  lemma InstallKeepsOrder(h: History, rows: map<nat, Row>, w: Work)
    requires InCommitOrder(rows) && (forall id :: id in rows ==> RowFits(h, id, rows[id].msg))
    requires w.Saved? && Adds(h, rows, w)
    ensures InCommitOrder(rows + w.rows)
  {}

  lemma InstallKeepsEventIds(h: History, rows: map<nat, Row>, w: Work)
    requires EventIdsDistinct(rows) && w.Saved? && Adds(h, rows, w)
    ensures EventIdsDistinct(rows + w.rows)
  {}

  lemma InstallKeepsRows(h: History, rows: map<nat, Row>, w: Work)
    requires RowInv(h, rows) && w.Saved? && Adds(h, rows, w)
    ensures RowInv(h[w.key := Hist(h, w.key) + [Made(w)]], rows + w.rows)
  {
    hide RowFits, ChangeFits, InCommitOrder, EventIdsDistinct;
    var h2, all := h[w.key := Hist(h, w.key) + [Made(w)]], rows + w.rows;
    forall id | id in all ensures RowFits(h2, id, all[id].msg) {
      if id in w.rows {
        NewRowFits(h, w, if id == w.ids[0] then 0 else 1);
      } else {
        OldRowFits(h, w.key, Made(w), id, rows[id].msg);
      }
    }
    forall k, n | 0 <= n < |Hist(h2, k)| ensures ChangeFits(all, k, n, Hist(h2, k)[n]) {
      if n < |Hist(h, k)| {
        assert Hist(h2, k)[n] == Hist(h, k)[n];
        OldChangeFits(rows, all, k, n, Hist(h, k)[n]);
      } else {
        NewChangeFits(h, rows, w);
      }
    }
    InstallKeepsOrder(h, rows, w);
    InstallKeepsEventIds(h, rows, w);
  }

  /** After the install the other transactions still fit: the lock kept their aggregates out of it. */
  lemma InstallKeepsOther(env: Env, s: State, t: nat, x: Tx)
    requires t in s.txs && s.txs[t].work.Saved? && Adds(s.history, s.rows, s.txs[t].work) && !s.txs[t].fault.SqlFailed?
    requires TxFits(env, s, x) && (x.work.Saved? ==> Apart(s.txs[t].work, x.work))
    ensures TxFits(env, Committed(s, t), x)
  {
    hide Lawful, IdsFit, EventIdFresh, LegalSave;
    if x.work.Saved? {
      var w, y := s.txs[t].work, x.work;
      InstallKeepsLegal(env, s, t, y);
      OtherIdsFit(s.rows, s.nextId, w, y);
      OtherEventFresh(s.rows, s.nextEvent, w, y.eventId);
    }
  }

  lemma OtherEventFresh(rows: map<nat, Row>, nextEvent: nat, w: Work, eventId: nat)
    requires w.Saved? && |w.ids| == |ENCODERS| && w.eventId != eventId && EventIdFresh(rows, nextEvent, eventId)
    requires w.rows == map[w.ids[0] := NewRow(w, 0), w.ids[1] := NewRow(w, 1)]
    ensures EventIdFresh(rows + w.rows, nextEvent, eventId)
  {}

  lemma InstallKeepsLegal(env: Env, s: State, t: nat, x: Work)
    requires t in s.txs && s.txs[t].work.Saved? && x.Saved? && s.txs[t].work.key != x.key
    requires LegalSave(env, s, x)
    ensures LegalSave(env, Committed(s, t), x)
  {
    hide Lawful;
    var n := Committed(s, t);
    assert Hist(n.history, x.key) == Hist(s.history, x.key) && Lookup(n.store, x.key) == Lookup(s.store, x.key);
  }

  lemma OtherIdsFit(rows: map<nat, Row>, nextId: nat, w: Work, x: Work)
    requires w.Saved? && x.Saved? && Apart(w, x) && |w.ids| == |ENCODERS|
    requires w.rows == map[w.ids[0] := NewRow(w, 0), w.ids[1] := NewRow(w, 1)]
    requires IdsFit(rows, nextId, x)
    ensures IdsFit(rows + w.rows, nextId, x)
  {
    forall i | 0 <= i < |x.ids| ensures x.ids[i] !in w.rows { assert x.ids[i] in x.rows; }
  }

  lemma InstallKeepsTxs(env: Env, s: State, t: nat)
    requires TxInv(env, s) && t in s.txs
    requires s.txs[t].work.Saved? && Adds(s.history, s.rows, s.txs[t].work) && !s.txs[t].fault.SqlFailed?
    ensures TxInv(env, Committed(s, t))
  {
    hide TxFits, Apart, Adds;
    var n := Committed(s, t);
    forall u | u in n.txs ensures TxFits(env, n, n.txs[u]) {
      assert TxFits(env, s, s.txs[u]);
      assert s.txs[u].work.Saved? ==> Apart(s.txs[t].work, s.txs[u].work);
      InstallKeepsOther(env, s, t, s.txs[u]);
    }
  }

  // ---- relay steps ----

  lemma InstallKeepsRelay(h: History, rows: map<nat, Row>, w: Work, s: State)
    requires w.Saved? && Adds(h, rows, w) && PassInv(rows, s.acked, s.passes) && LogInv(h, rows, s.log, s.acked)
    ensures PassInv(rows + w.rows, s.acked, s.passes)
    ensures LogInv(h[w.key := Hist(h, w.key) + [Made(w)]], rows + w.rows, s.log, s.acked)
  {
    var all := rows + w.rows;
    forall p | p in s.passes ensures PassFits(all, s.acked, s.passes[p]) { assert PassFits(rows, s.acked, s.passes[p]); }
    forall m | m in s.log ensures exists id :: id in all && all[id].msg == m {
      var id :| id in rows && rows[id].msg == m;
      assert id in all && all[id].msg == m;
    }
  }

  lemma ClaimKeepsPasses(s: State, p: nat, limit: nat)
    requires PassInv(s.rows, s.acked, s.passes) && p !in s.passes
    ensures PassInv(s.rows, s.acked, s.passes[p := Pass(Scan(s.rows, Locked(s.passes), 0, s.nextId, limit), 0, Ready)])
  {
    ScanTakesLowest(s.rows, Locked(s.passes), 0, s.nextId, limit);
    var b := Scan(s.rows, Locked(s.passes), 0, s.nextId, limit);
    forall q, i, j | q in s.passes && 0 <= i < |s.passes[q].batch| && 0 <= j < |b| ensures s.passes[q].batch[i] != b[j] {
      assert s.passes[q].batch[i] in Locked(s.passes);
    }
  }

  /** A pass that moves on with the same batch. */
  lemma PassMoves(rows: map<nat, Row>, acked: set<nat>, acked2: set<nat>, passes: map<nat, Pass>, p: nat, x: Pass)
    requires PassInv(rows, acked, passes) && p in passes && x.batch == passes[p].batch && acked <= acked2
    requires PassFits(rows, acked2, x)
    ensures PassInv(rows, acked2, passes[p := x])
  {
    forall q | q in passes && q != p ensures PassFits(rows, acked2, passes[q]) { assert PassFits(rows, acked, passes[q]); }
  }

  lemma LogGrows(h: History, rows: map<nat, Row>, log: seq<Message>, acked: set<nat>, id: nat, m: Message, ok: bool)
    requires LogInv(h, rows, log, acked) && id in rows && m == rows[id].msg
    ensures LogInv(h, rows, log + [m], if ok then acked + {id} else acked)
  {
    assert (log + [m])[|log|] == m && forall x :: x in log ==> x in log + [m];
  }

  lemma SendKeeps(env: Env, s: State, e: Step)
    requires PassInv(s.rows, s.acked, s.passes) && LogInv(s.history, s.rows, s.log, s.acked)
    requires (e.Ack? || e.Fail?) && Enabled(env, s, e)
    ensures var n := Apply(env, s, e); PassInv(n.rows, n.acked, n.passes) && LogInv(n.history, n.rows, n.log, n.acked)
  {
    hide LogInv;
    var n, p := Apply(env, s, e), s.passes[e.pass];
    var id := p.batch[p.done];
    assert PassFits(s.rows, s.acked, p);
    PassMoves(s.rows, s.acked, n.acked, s.passes, e.pass, n.passes[e.pass]);
    LogGrows(s.history, s.rows, s.log, s.acked, id, s.rows[id].msg, e.Ack?);
  }

  lemma MarkKeeps(env: Env, s: State, e: Step)
    requires PassInv(s.rows, s.acked, s.passes) && (e.Mark? || e.Note?) && Enabled(env, s, e)
    ensures PassInv(s.rows, s.acked, Apply(env, s, e).passes)
  {
    assert PassFits(s.rows, s.acked, s.passes[e.pass]);
    PassMoves(s.rows, s.acked, s.acked, s.passes, e.pass, Apply(env, s, e).passes[e.pass]);
  }

  /** Committing a pass changes marks and attempt counts, nothing else of a row, and only of its own batch. */
  lemma SettledTouchesOnly(rows: map<nat, Row>, p: Pass)
    requires p.done <= |p.batch| && (p.stage.Noted? ==> p.done < |p.batch|)
    ensures var n := Settled(rows, p);
            && n.Keys == rows.Keys
            && (forall id :: id in rows ==> n[id].msg == rows[id].msg)
            && (forall id :: id in rows ==> n[id].published == (rows[id].published || id in p.batch[..p.done]))
            && (forall id :: id in rows && id !in p.batch ==> n[id] == rows[id])
  {}

  /** Row facts that do not speak of marks carry over to any table with the same messages. */
  lemma SameMessages(h: History, rows: map<nat, Row>, n: map<nat, Row>)
    requires RowInv(h, rows) && n.Keys == rows.Keys && forall id :: id in rows ==> n[id].msg == rows[id].msg
    ensures RowInv(h, n)
  {
    hide RowFits;
    forall k, i | 0 <= i < |Hist(h, k)| ensures ChangeFits(n, k, i, Hist(h, k)[i]) {
      OldChangeFits(rows, n, k, i, Hist(h, k)[i]);
    }
  }

  lemma SettleKeepsRelay(h: History, rows: map<nat, Row>, log: seq<Message>, acked: set<nat>, passes: map<nat, Pass>, p: nat)
    requires PassInv(rows, acked, passes) && LogInv(h, rows, log, acked) && p in passes
    requires !passes[p].stage.Acked?
    ensures PassInv(Settled(rows, passes[p]), acked, passes - {p}) && LogInv(h, Settled(rows, passes[p]), log, acked)
  {
    var x := passes[p];
    var n := Settled(rows, x);
    assert PassFits(rows, acked, x);
    SettledTouchesOnly(rows, x);
    forall q | q in passes - {p} ensures PassFits(n, acked, passes[q]) {
      assert PassFits(rows, acked, passes[q]);
      forall i | 0 <= i < |passes[q].batch| ensures Pending(n, passes[q].batch[i]) {
        assert forall j :: 0 <= j < |x.batch| ==> x.batch[j] != passes[q].batch[i];
      }
    }
    forall m | m in log ensures exists id :: id in n && n[id].msg == m {
      var id :| id in rows && rows[id].msg == m;
      assert id in n && n[id].msg == m;
    }
  }

  lemma SettleKeepsTxs(env: Env, s: State, n: State)
    requires TxInv(env, s) && n == s.(passes := n.passes, rows := n.rows)
    requires n.rows.Keys == s.rows.Keys && forall id :: id in s.rows ==> n.rows[id].msg == s.rows[id].msg
    ensures TxInv(env, n)
  {
    forall t | t in n.txs ensures TxFits(env, n, n.txs[t]) {
      assert TxFits(env, s, s.txs[t]);
      if s.txs[t].work.Saved? {
        var w := s.txs[t].work;
        assert LegalSave(env, n, w) by { hide Lawful; }
        assert IdsFit(n.rows, n.nextId, w);
      }
    }
  }

  // ---- every step ----

  lemma WorkIsLegal(env: Env, s: State, t: nat)
    requires TxInv(env, s) && t in s.txs && s.txs[t].work.Saved?
    ensures var w := s.txs[t].work;
            WorkFits(env, s, w) && LegalSave(env, s, w)
  {
    hide LegalSave, IdsFit, EventIdFresh;
    assert TxFits(env, s, s.txs[t]);
  }

  lemma BoundedGrows(rows: map<nat, Row>, nextId: nat, nextEvent: nat, env: Env, s: State, w: Work)
    requires Bounded(rows, nextId, nextEvent) && s.rows == rows && s.nextId == nextId && s.nextEvent == nextEvent
    requires w.Saved? && WorkFits(env, s, w) && Adds(s.history, rows, w)
    ensures Bounded(rows + w.rows, nextId, nextEvent)
  {}

  lemma CommitKeeps(env: Env, s: State, t: nat)
    requires Inv(env, s) && t in s.txs && ReachesCommit(s.txs[t])
    ensures Inv(env, Committed(s, t))
  {
    hide StoreInv, RowInv, PassInv, LogInv, TxFits, Apart, Adds, WorkFits, Lawful, Bounded;
    var n, w := Committed(s, t), s.txs[t].work;
    if s.txs[t].fault.SqlFailed? || w.Nothing? {
      TxsRemoved(env, s, n);
    } else {
      InstallsWhole(env, s, t);
      WorkIsLegal(env, s, t);
      WorkAdds(env, s, w);
      InstallKeepsStore(env, s.history, s.store, w.key, Made(w));
      InstallKeepsRows(s.history, s.rows, w);
      InstallKeepsTxs(env, s, t);
      InstallKeepsRelay(s.history, s.rows, w, s);
      BoundedGrows(s.rows, s.nextId, s.nextEvent, env, s, w);
    }
  }

  lemma CloseKeeps(env: Env, s: State, p: nat)
    requires Inv(env, s) && Enabled(env, s, Close(p))
    ensures Inv(env, Apply(env, s, Close(p)))
  {
    hide StoreInv, RowInv, PassInv, LogInv, TxFits, Apart;
    var n := Apply(env, s, Close(p));
    SettledTouchesOnly(s.rows, s.passes[p]);
    SettleKeepsRelay(s.history, s.rows, s.log, s.acked, s.passes, p);
    SameMessages(s.history, s.rows, n.rows);
    SettleKeepsTxs(env, s, n);
  }

  lemma OnlyRelayKeepsTxs(env: Env, s: State, n: State)
    requires TxInv(env, s) && n == s.(passes := n.passes, log := n.log, acked := n.acked)
    ensures TxInv(env, n)
  {
    forall t | t in n.txs ensures TxFits(env, n, n.txs[t]) { assert TxFits(env, s, s.txs[t]); }
  }

  lemma RelayStepKeeps(env: Env, s: State, e: Step)
    requires Inv(env, s) && Enabled(env, s, e)
    requires e.Claim? || e.Ack? || e.Fail? || e.Mark? || e.Note? || e.Abandon?
    ensures Inv(env, Apply(env, s, e))
  {
    hide StoreInv, RowInv, TxInv, LogInv, PassFits, Scan, Bounded;
    var n := Apply(env, s, e);
    if e.Claim? { ClaimKeepsPasses(s, e.pass, e.limit); }
    if e.Ack? || e.Fail? { SendKeeps(env, s, e); }
    if e.Mark? || e.Note? { MarkKeeps(env, s, e); }
    OnlyRelayKeepsTxs(env, s, n);
  }

  lemma WriteStepKeeps(env: Env, s: State, e: Step)
    requires Inv(env, s) && Enabled(env, s, e) && (e.Save? || e.Insert?)
    ensures Inv(env, Apply(env, s, e))
  {
    hide StoreInv, RowInv, TxInv, LogInv, PassInv, Decide, Stored, Bounded, TotalOrder;
    if e.Save? { SaveKeepsTxs(env, s, e); } else { InsertKeepsTxs(env, s, e.tx); }
    OnlyTxsKeeps(env, s, Apply(env, s, e));
  }

  lemma TxStepKeeps(env: Env, s: State, e: Step)
    requires Inv(env, s) && Enabled(env, s, e)
    requires e.Begin? || e.SqlError? || e.Rollback? || e.Crash?
    ensures Inv(env, Apply(env, s, e))
  {
    hide StoreInv, RowInv, TxInv, LogInv, PassFits, Bounded, TotalOrder;
    var n := Apply(env, s, e);
    TxStepKeepsTxs(env, s, e);
    OnlyTxsKeeps(env, s, n.(passes := s.passes));
    OnlyRelayKeepsTxs(env, n.(passes := s.passes), n);
  }

  /** Every step keeps the invariant, whoever takes it. */
  lemma StepKeeps(env: Env, s: State, e: Step)
    requires Inv(env, s)
    ensures Inv(env, Apply(env, s, e))
  {
    hide Inv, Decide, Stored;
    if Enabled(env, s, e) {
      match e
      case Commit(t) => CommitKeeps(env, s, t);
      case Close(p) => CloseKeeps(env, s, p);
      case Claim(_, _) => RelayStepKeeps(env, s, e);
      case Ack(_) => RelayStepKeeps(env, s, e);
      case Fail(_, _) => RelayStepKeeps(env, s, e);
      case Mark(_) => RelayStepKeeps(env, s, e);
      case Note(_) => RelayStepKeeps(env, s, e);
      case Abandon(_) => RelayStepKeeps(env, s, e);
      case Save(_, _, _, _) => WriteStepKeeps(env, s, e);
      case Insert(_) => WriteStepKeeps(env, s, e);
      case _ => TxStepKeeps(env, s, e);
    }
  }

  lemma {:induction false} RunKeeps(env: Env, s: State, steps: seq<Step>)
    requires Inv(env, s)
    ensures Inv(env, Exec(env, s, steps))
    decreases |steps|
  {
    hide Inv, Apply;
    if steps != [] {
      StepKeeps(env, s, steps[0]);
      RunKeeps(env, Apply(env, s, steps[0]), steps[1..]);
    }
  }

  /** Every reachable state of every run satisfies the invariant. */
  lemma Reachable(env: Env, steps: seq<Step>)
    requires TotalOrder(env.before)
    ensures Inv(env, Exec(env, EMPTY, steps))
  {
    RunKeeps(env, EMPTY, steps);
  }
}
