/**
 The key protocol and the outbox as one machine: a keyed request's transaction is one transaction of both,
 holding its key row, its aggregate and its outbox rows.
 */
module KeyedRequests {
  import opened Shared
  import opened Catalogue
  import ProcessPaths
  import B = Outbox
  import I = OutboxInvariant
  import K = Idempotency

  /** `saved` is a history variable: the event id under which a request's handler saved a change. */
  datatype Joint = Joint(keys: K.State, box: B.State, saved: map<nat, nat>)

  datatype Step = Request(request: K.Step) | Service(service: B.Step)

  const EMPTY := Joint(K.EMPTY, B.EMPTY, map[])

  /** The request runs fresh: its transaction is open and bound to the handler's context. */
  predicate Keyed(keys: K.State, r: nat) { r in keys.open && keys.open[r].phase.Running? }

  /** A handler returns only once its use case has: nothing saved, everything inserted, or an error met. */
  predicate Fits(j: Joint, e: K.Step) {
    match e
    case Insert(r) => r !in j.box.txs
    case Return(r, _) => r in j.box.txs && B.ReachesCommit(j.box.txs[r])
    case _ => true
  }

  /** What a step of the protocol does to the request's transaction. */
  function Effect(keys: K.State, e: K.Step): Option<B.Step> {
    match e
    case Insert(r) => if r in keys.open && keys.open[r].request.key !in keys.table then Some(B.Begin(r, true)) else None
    case SqlError(r) => Some(B.SqlError(r))
    case Panic(r) => Some(B.Rollback(r))
    case Break(r) => if Keyed(keys, r) then Some(B.Rollback(r)) else None
    case Vanish(r) => if Keyed(keys, r) then Some(B.Rollback(r)) else None
    case Commit(r, _) => Some(B.Commit(r))
    case _ => None
  }

  /** In a keyed transaction the handler only saves and inserts, and only while it serves; a dying process is its transactions dying. */
  predicate Allowed(keys: K.State, e: B.Step) {
    match e
    case Begin(t, joined) => !joined && !Keyed(keys, t)
    case Save(t, _, _, _) => Keyed(keys, t) ==> K.Serving(keys, t)
    case Insert(t) => Keyed(keys, t) ==> K.Serving(keys, t)
    case SqlError(t) => !Keyed(keys, t)
    case Commit(t) => !Keyed(keys, t)
    case Rollback(t) => !Keyed(keys, t)
    case Crash => false
    case _ => true
  }

  function Apply(env: Env, j: Joint, e: Step): Joint {
    match e
    case Request(k) =>
      if !K.Enabled(j.keys, k) || !Fits(j, k) then j
      else
        var effect := Effect(j.keys, k);
        Joint(K.Apply(j.keys, k), if effect.Some? then B.Apply(env, j.box, effect.value) else j.box, j.saved)
    case Service(b) =>
      if !Allowed(j.keys, b) || !B.Enabled(env, j.box, b) then j
      else Joint(j.keys, B.Apply(env, j.box, b), if b.Save? && Keyed(j.keys, b.tx) then j.saved[b.tx := j.box.nextEvent] else j.saved)
  }

  function Exec(env: Env, j: Joint, steps: seq<Step>): Joint
    decreases |steps|
  {
    if steps == [] then j else Exec(env, Apply(env, j, steps[0]), steps[1..])
  }

  // ---- the invariant ----

  ghost predicate Tied(keys: K.State, txs: map<nat, B.Tx>, saved: map<nat, nat>, t: nat) {
    && (Keyed(keys, t) <==> t in txs && txs[t].joined)
    && (Keyed(keys, t) && t in txs ==>
          var w := keys.open[t].phase.work;
          && (w.poisoned <==> txs[t].fault.SqlFailed?)
          && (w.returned.Some? ==> B.ReachesCommit(txs[t]))
          && (t in saved <==> txs[t].work.Saved?)
          && (txs[t].work.Saved? && t in saved ==> saved[t] == txs[t].work.eventId))
  }

  /** A committed row carries the event. */
  ghost predicate HasRow(rows: map<nat, B.Row>, eventId: nat) { exists id :: id in rows && rows[id].msg.eventId == eventId }

  /** What an ended request saved is committed exactly when its run is. */
  ghost predicate Accounted(keys: K.State, rows: map<nat, B.Row>, saved: map<nat, nat>, r: nat) {
    r in saved && !Keyed(keys, r) ==> r !in keys.open && (r in keys.runs <==> HasRow(rows, saved[r]))
  }

  /** No two transactions save under one event id. */
  ghost predicate Sole(txs: map<nat, B.Tx>, saved: map<nat, nat>, nextEvent: nat) {
    && (forall r :: r in saved ==> saved[r] < nextEvent)
    && (forall t :: t in txs && txs[t].work.Saved? ==> txs[t].work.eventId < nextEvent)
    && (forall r, t :: r in saved && t in txs && txs[t].work.Saved? && txs[t].work.eventId == saved[r] ==> t == r && txs[t].joined)
  }

  ghost predicate Inv(env: Env, j: Joint) {
    && I.Inv(env, j.box) && K.Inv(j.keys)
    && (forall t :: Tied(j.keys, j.box.txs, j.saved, t))
    && (forall r :: Accounted(j.keys, j.box.rows, j.saved, r))
    && (forall r :: r in j.saved ==> r in j.keys.arrived)
    && Sole(j.box.txs, j.saved, j.box.nextEvent)
  }

  // ---- the facts of each machine that the other relies on ----

  lemma FreshEvent(env: Env, s: B.State, t: nat)
    requires I.Inv(env, s) && t in s.txs && s.txs[t].work.Saved?
    ensures !HasRow(s.rows, s.txs[t].work.eventId) && s.txs[t].work.eventId < s.nextEvent
  {
    hide I.StoreInv, I.RowInv, I.PassInv, I.LogInv;
    I.WorkIsLegal(env, s, t);
  }

  /** The run of a request that is still open has not happened. */
  lemma OpenHasNoRun(s: K.State, r: nat)
    requires K.Inv(s) && r in s.open
    ensures r !in s.runs && r in s.arrived
  {
    hide K.RowOk, K.RunOk, K.FlightOk, K.AnswerOk, K.Owned;
  }

  lemma RecordedIsSound(s: K.State, r: nat)
    requires K.Inv(s) && Keyed(s, r) && s.open[r].phase.work.row.outcome.Some?
    ensures !s.open[r].phase.work.poisoned && s.open[r].phase.work.returned.Some?
  {
    K.Known(s, r);
  }

  // ---- steps that touch one request ----

  ghost predicate SameKeys(s: K.State, n: K.State, t: nat) {
    && (t in n.open <==> t in s.open) && (t in n.open ==> n.open[t] == s.open[t])
    && (t in n.runs <==> t in s.runs)
  }

  ghost predicate SameTx(s: B.State, n: B.State, t: nat) {
    (t in n.txs <==> t in s.txs) && (t in n.txs ==> n.txs[t] == s.txs[t])
  }

  /** Request or transaction `t` is as it was on both sides. */
  ghost predicate Same(j: Joint, n: Joint, t: nat) {
    && SameKeys(j.keys, n.keys, t) && SameTx(j.box, n.box, t)
    && (t in n.saved <==> t in j.saved) && (t in n.saved ==> n.saved[t] == j.saved[t])
  }

  /** The step moves request `r` and nothing else of either side. */
  ghost predicate Only(j: Joint, n: Joint, r: nat) {
    && (forall t :: t != r ==> Same(j, n, t))
    && j.keys.arrived <= n.keys.arrived && j.box.nextEvent <= n.box.nextEvent
  }

  lemma OthersTied(j: Joint, n: Joint, t: nat)
    requires Same(j, n, t) && Tied(j.keys, j.box.txs, j.saved, t)
    ensures Tied(n.keys, n.box.txs, n.saved, t)
  {
    hide B.ReachesCommit;
  }

  /** Rows gained are of event `own` only. */
  ghost predicate RowsGain(rows: map<nat, B.Row>, n: map<nat, B.Row>, own: Option<nat>) {
    forall e: nat :: own != Some(e) ==> (HasRow(n, e) <==> HasRow(rows, e))
  }

  lemma OthersAccounted(j: Joint, n: Joint, t: nat, own: Option<nat>)
    requires Same(j, n, t) && Accounted(j.keys, j.box.rows, j.saved, t)
    requires RowsGain(j.box.rows, n.box.rows, own) && (t in j.saved ==> own != Some(j.saved[t]))
    ensures Accounted(n.keys, n.box.rows, n.saved, t)
  {
    hide HasRow;
  }

  lemma OneMoves(env: Env, j: Joint, n: Joint, r: nat, own: Option<nat>)
    requires Inv(env, j) && I.Inv(env, n.box) && K.Inv(n.keys) && Only(j, n, r)
    requires RowsGain(j.box.rows, n.box.rows, own) && (forall t :: t in j.saved && t != r ==> own != Some(j.saved[t]))
    requires Tied(n.keys, n.box.txs, n.saved, r) && Accounted(n.keys, n.box.rows, n.saved, r)
    requires r in n.saved ==> r in n.keys.arrived
    requires Sole(n.box.txs, n.saved, n.box.nextEvent)
    ensures Inv(env, n)
  {
    hide I.Inv, K.Inv, Tied, Accounted, Sole, RowsGain, SameKeys, SameTx;
    forall t ensures Tied(n.keys, n.box.txs, n.saved, t) && Accounted(n.keys, n.box.rows, n.saved, t) {
      if t != r {
        assert Tied(j.keys, j.box.txs, j.saved, t) && Accounted(j.keys, j.box.rows, j.saved, t);
        assert Same(j, n, t);
        OthersTied(j, n, t);
        OthersAccounted(j, n, t, own);
      }
    }
    forall t | t in n.saved ensures t in n.keys.arrived {
      assert t != r ==> Same(j, n, t);
    }
  }

  lemma SoleWithout(txs: map<nat, B.Tx>, saved: map<nat, nat>, nextEvent: nat, t: nat)
    requires Sole(txs, saved, nextEvent)
    ensures Sole(txs - {t}, saved, nextEvent)
  {}

  /** A transaction that saves nothing new. */
  lemma SoleWith(txs: map<nat, B.Tx>, saved: map<nat, nat>, nextEvent: nat, t: nat, tx: B.Tx)
    requires Sole(txs, saved, nextEvent)
    requires tx.work.Saved? ==>
      t in txs && txs[t].work.Saved? && txs[t].work.eventId == tx.work.eventId && tx.joined == txs[t].joined
    ensures Sole(txs[t := tx], saved, nextEvent)
  {}

  // ---- the protocol's steps ----

  /** Steps that leave the transaction as it is, or begin, poison or roll it back. */
  lemma RequestKeeps(env: Env, j: Joint, e: K.Step)
    requires Inv(env, j) && K.Enabled(j.keys, e) && Fits(j, e) && !e.Commit?
    ensures Inv(env, Apply(env, j, Request(e)))
  {
    hide I.Inv, K.Inv;
    var n, r := Apply(env, j, Request(e)), e.r;
    K.StepKeeps(j.keys, e);
    if Effect(j.keys, e).Some? { I.StepKeeps(env, j.box, Effect(j.keys, e).value); }
    if r in j.keys.open { OpenHasNoRun(j.keys, r); }
    if r in j.box.txs && j.box.txs[r].work.Saved? { FreshEvent(env, j.box, r); }
    assert Tied(j.keys, j.box.txs, j.saved, r) && Accounted(j.keys, j.box.rows, j.saved, r);
    RequestMoves(env, j, e);
    RequestTouchesOnly(env, j, e);
    OneMoves(env, j, n, r, None);
  }

  /** What is known of request `r` before it moves. */
  ghost predicate Ready(j: Joint, r: nat) {
    && Tied(j.keys, j.box.txs, j.saved, r) && Accounted(j.keys, j.box.rows, j.saved, r)
    && Sole(j.box.txs, j.saved, j.box.nextEvent)
    && (r in j.keys.open ==> r !in j.keys.runs && r in j.keys.arrived)
    && (r in j.saved ==> r in j.keys.arrived)
    && (r in j.box.txs && j.box.txs[r].work.Saved? ==> !HasRow(j.box.rows, j.box.txs[r].work.eventId))
  }

  /** And after: the request's own side of the invariant. */
  ghost predicate Moved(j: Joint, n: Joint, r: nat) {
    && n.box.rows == j.box.rows && n.saved == j.saved
    && Tied(n.keys, n.box.txs, n.saved, r) && Accounted(n.keys, n.box.rows, n.saved, r)
    && Sole(n.box.txs, n.saved, n.box.nextEvent)
  }

  lemma KeysTouchOnly(s: K.State, e: K.Step, t: nat)
    requires t != e.r
    ensures SameKeys(s, K.Apply(s, e), t) && s.arrived <= K.Apply(s, e).arrived
  {
    hide K.Held, K.Replay;
  }

  lemma TxTouchesOnly(env: Env, s: B.State, e: B.Step, t: nat)
    requires (e.Begin? || e.SqlError? || e.Rollback? || e.Commit?) && t != e.tx
    ensures var n := B.Apply(env, s, e); SameTx(s, n, t) && n.nextEvent == s.nextEvent && (!e.Commit? ==> n.rows == s.rows)
  {}

  lemma EffectIsOwn(s: K.State, e: K.Step)
    ensures Effect(s, e).Some? ==>
      var b := Effect(s, e).value; (b.Begin? || b.SqlError? || b.Rollback? || b.Commit?) && b.tx == e.r
  {}

  lemma RequestLeaves(env: Env, j: Joint, e: K.Step, t: nat)
    requires t != e.r
    ensures var n := Apply(env, j, Request(e)); Same(j, n, t) && j.keys.arrived <= n.keys.arrived && j.box.nextEvent <= n.box.nextEvent
  {
    hide K.Apply, B.Apply, K.Enabled, Fits, Effect;
    KeysTouchOnly(j.keys, e, t);
    EffectIsOwn(j.keys, e);
    var effect := Effect(j.keys, e);
    if effect.Some? { TxTouchesOnly(env, j.box, effect.value, t); }
  }

  lemma RequestTouchesOnly(env: Env, j: Joint, e: K.Step)
    ensures Only(j, Apply(env, j, Request(e)), e.r)
  {
    hide Apply, Same;
    var n := Apply(env, j, Request(e));
    forall t | t != e.r ensures Same(j, n, t) { RequestLeaves(env, j, e, t); }
    RequestLeaves(env, j, e, e.r + 1);
  }

  lemma KeysOnlyMove(env: Env, j: Joint, e: K.Step)
    requires K.Enabled(j.keys, e) && Fits(j, e) && Ready(j, e.r) && !e.Commit? && Effect(j.keys, e).None?
    ensures Moved(j, Apply(env, j, Request(e)), e.r)
  {
    hide HasRow, K.Held, Sole, K.Replay;
  }

  lemma BeginMoves(env: Env, j: Joint, e: K.Step)
    requires K.Enabled(j.keys, e) && Fits(j, e) && Ready(j, e.r) && e.Insert? && Effect(j.keys, e).Some?
    ensures Moved(j, Apply(env, j, Request(e)), e.r)
  {
    hide HasRow, K.Held;
    SoleWith(j.box.txs, j.saved, j.box.nextEvent, e.r, B.Tx(true, B.Nothing, B.Clean));
    hide Sole;
  }

  lemma KeysPoison(s: K.State, e: K.Step)
    requires K.Enabled(s, e) && e.SqlError?
    ensures var n := K.Apply(s, e);
            && Keyed(s, e.r) && K.Serving(s, e.r) && n == s.(open := n.open) && n.open == s.open[e.r := n.open[e.r]] && Keyed(n, e.r)
            && n.open[e.r].phase.work == s.open[e.r].phase.work.(poisoned := true)
  {}

  lemma BoxPoison(env: Env, s: B.State, t: nat)
    requires t in s.txs
    ensures B.Apply(env, s, B.SqlError(t)) == s.(txs := s.txs[t := s.txs[t].(fault := B.SqlFailed)])
  {}

  lemma PoisonMoves(env: Env, j: Joint, e: K.Step)
    requires K.Enabled(j.keys, e) && Ready(j, e.r) && e.SqlError?
    ensures Moved(j, Apply(env, j, Request(e)), e.r)
  {
    hide HasRow, B.ReachesCommit;
    var r := e.r;
    KeysPoison(j.keys, e);
    BoxPoison(env, j.box, r);
    SoleWith(j.box.txs, j.saved, j.box.nextEvent, r, j.box.txs[r].(fault := B.SqlFailed));
    hide K.Apply, B.Apply, Sole, K.Enabled;
  }

  lemma RollbackMoves(env: Env, j: Joint, e: K.Step)
    requires K.Enabled(j.keys, e) && Ready(j, e.r) && Effect(j.keys, e) == Some(B.Rollback(e.r))
    ensures Moved(j, Apply(env, j, Request(e)), e.r)
  {
    hide HasRow;
    BoxRollsBack(env, j.box, e.r);
    KeysEnd(j.keys, e);
    hide K.Apply, B.Apply, K.Enabled;
    SoleWithout(j.box.txs, j.saved, j.box.nextEvent, e.r);
    hide Sole;
  }

  lemma BoxRollsBack(env: Env, s: B.State, t: nat)
    ensures B.Apply(env, s, B.Rollback(t)) == s.(txs := s.txs - {t})
  {
    assert t !in s.txs ==> s.txs - {t} == s.txs;
  }

  lemma KeysEnd(s: K.State, e: K.Step)
    requires K.Enabled(s, e) && (e.Panic? || e.Break? || e.Vanish?)
    ensures K.Apply(s, e).open == s.open - {e.r} && K.Apply(s, e).runs == s.runs
  {}

  lemma RequestMoves(env: Env, j: Joint, e: K.Step)
    requires K.Enabled(j.keys, e) && Fits(j, e) && Ready(j, e.r) && !e.Commit?
    ensures Moved(j, Apply(env, j, Request(e)), e.r)
  {
    hide Ready, Moved, Fits, Apply, K.Enabled;
    if Effect(j.keys, e).None? { KeysOnlyMove(env, j, e); }
    else if e.Insert? { BeginMoves(env, j, e); }
    else if e.SqlError? { PoisonMoves(env, j, e); }
    else { RollbackMoves(env, j, e); }
  }

  lemma KeysCommit(s: K.State, e: K.Step)
    requires K.Enabled(s, e) && e.Commit?
    ensures var n := K.Apply(s, e); n.open == s.open - {e.r} && n.runs.Keys == s.runs.Keys + {e.r} && e.r in n.runs
  {}

  function Written(tx: B.Tx): map<nat, B.Row> { if tx.work.Saved? then tx.work.rows else map[] }

  lemma BoxCommits(env: Env, s: B.State, t: nat)
    requires t in s.txs && B.ReachesCommit(s.txs[t]) && s.txs[t].fault.Clean?
    ensures var n := B.Apply(env, s, B.Commit(t));
            n.txs == s.txs - {t} && n.rows == s.rows + Written(s.txs[t]) && n.nextEvent == s.nextEvent
  {
    assert s.rows + map[] == s.rows;
  }

  /** The request's transaction commits: its key row, its run, and whatever its handler saved, whole. */
  lemma CommitMoves(env: Env, j: Joint, e: K.Step)
    requires K.Enabled(j.keys, e) && e.Commit? && Ready(j, e.r) && e.r in j.box.txs && j.box.txs[e.r].fault.Clean?
    requires var w := j.keys.open[e.r].phase.work; !w.poisoned && w.returned.Some?
    requires j.box.txs[e.r].work.Saved? ==> HasRow(j.box.rows + Written(j.box.txs[e.r]), j.box.txs[e.r].work.eventId)
    ensures var n := Apply(env, j, Request(e));
            && n.saved == j.saved && Tied(n.keys, n.box.txs, n.saved, e.r) && Accounted(n.keys, n.box.rows, n.saved, e.r)
            && Sole(n.box.txs, n.saved, n.box.nextEvent)
            && n.box.rows == j.box.rows + Written(j.box.txs[e.r])
  {
    hide HasRow, Written;
    var n := Apply(env, j, Request(e));
    BoxCommits(env, j.box, e.r);
    KeysCommit(j.keys, e);
    hide K.Apply, B.Apply;
    SoleWithout(j.box.txs, j.saved, j.box.nextEvent, e.r);
    hide Sole;
  }

  /** The rows of a work carry its event and no other, and a finished one has some. */
  lemma WrittenGains(env: Env, s: B.State, t: nat)
    requires I.Inv(env, s) && t in s.txs
    ensures var w := s.txs[t].work;
            && RowsGain(s.rows, s.rows + Written(s.txs[t]), if w.Saved? then Some(w.eventId) else None)
            && (w.Saved? && |w.ids| == |B.ENCODERS| ==> HasRow(s.rows + Written(s.txs[t]), w.eventId))
  {
    hide I.StoreInv, I.RowInv, I.PassInv, I.LogInv;
    var w := s.txs[t].work;
    if w.Saved? {
      I.WorkIsLegal(env, s, t);
      WorkGains(s.rows, s.nextId, w);
    } else {
      assert s.rows + map[] == s.rows;
    }
  }

  lemma WorkGains(rows: map<nat, B.Row>, nextId: nat, w: B.Work)
    requires w.Saved? && I.IdsFit(rows, nextId, w)
    ensures RowsGain(rows, rows + w.rows, Some(w.eventId))
    ensures |w.ids| == |B.ENCODERS| ==> HasRow(rows + w.rows, w.eventId)
  {
    var n := rows + w.rows;
    forall id | id in w.rows ensures id !in rows && w.rows[id].msg.eventId == w.eventId {
      assert id in w.ids;
    }
    forall e: nat | e != w.eventId ensures HasRow(n, e) <==> HasRow(rows, e) {
      if id :| id in n && n[id].msg.eventId == e { assert id in rows && rows[id] == n[id]; }
      if id :| id in rows && rows[id].msg.eventId == e { assert id in n && n[id] == rows[id]; }
    }
    if |w.ids| == |B.ENCODERS| { assert w.ids[0] in n && n[w.ids[0]] == w.rows[w.ids[0]]; }
  }

  /** A keyed transaction that reaches its commit with its response recorded has met no error. */
  lemma RecordedIsClean(env: Env, j: Joint, r: nat)
    requires Inv(env, j) && Keyed(j.keys, r) && j.keys.open[r].phase.work.row.outcome.Some?
    ensures r in j.box.txs && j.box.txs[r].joined && j.box.txs[r].fault.Clean? && B.ReachesCommit(j.box.txs[r])
    ensures !j.keys.open[r].phase.work.poisoned && j.keys.open[r].phase.work.returned.Some?
  {
    hide K.Inv, Accounted, Sole, I.StoreInv, I.RowInv, I.PassInv, I.LogInv, I.TxFits;
    RecordedIsSound(j.keys, r);
    assert Tied(j.keys, j.box.txs, j.saved, r);
    I.EncodersSucceedWhenJoined(env, j.box, r);
  }

  lemma IsReady(env: Env, j: Joint, r: nat)
    requires Inv(env, j)
    ensures Ready(j, r)
  {
    hide I.Inv, K.Inv, Tied, Accounted, Sole, HasRow;
    if r in j.keys.open { OpenHasNoRun(j.keys, r); }
    if r in j.box.txs && j.box.txs[r].work.Saved? { FreshEvent(env, j.box, r); }
  }

  lemma RequestCommitKeeps(env: Env, j: Joint, e: K.Step)
    requires Inv(env, j) && K.Enabled(j.keys, e) && e.Commit?
    ensures Inv(env, Apply(env, j, Request(e)))
  {
    hide I.Inv, K.Inv, Tied, Accounted, HasRow, RowsGain, Written, Ready, Only;
    var r := e.r;
    K.StepKeeps(j.keys, e);
    I.StepKeeps(env, j.box, B.Commit(r));
    RecordedIsClean(env, j, r);
    IsReady(env, j, r);
    WrittenGains(env, j.box, r);
    CommitMoves(env, j, e);
    RequestTouchesOnly(env, j, e);
    OpenHasNoRun(j.keys, r);
    var w := j.box.txs[r].work;
    hide K.Apply, B.Apply;
    OneMoves(env, j, Apply(env, j, Request(e)), r, if w.Saved? then Some(w.eventId) else None) by {
      ArrivedStays(j.keys, e);
    }
  }

  lemma ArrivedStays(s: K.State, e: K.Step)
    ensures s.arrived <= K.Apply(s, e).arrived
  {
    hide K.Held, K.Replay;
  }

  // ---- the service's steps ----

  /** A transaction's step and its own side of the invariant. */
  lemma ServiceTouchesOnly(env: Env, j: Joint, b: B.Step, t: nat)
    requires b.Begin? || b.Save? || b.Insert? || b.SqlError? || b.Commit? || b.Rollback?
    requires t != b.tx
    ensures var n := Apply(env, j, Service(b)); Same(j, n, t) && n.keys == j.keys && j.box.nextEvent <= n.box.nextEvent
  {
    hide B.Decides, B.Unlocked, K.Serving;
  }

  /** Nobody but transactions, and no row but in its marks. */
  lemma RelayLeaves(env: Env, s: B.State, b: B.Step)
    requires b.Claim? || b.Ack? || b.Fail? || b.Mark? || b.Note? || b.Close? || b.Abandon?
    ensures var n := B.Apply(env, s, b); n.txs == s.txs && n.nextEvent == s.nextEvent && RowsGain(s.rows, n.rows, None)
  {
    hide B.Scan;
    var n := B.Apply(env, s, b);
    if b.Close? && B.Enabled(env, s, b) { I.SettledTouchesOnly(s.rows, s.passes[b.pass]); }
    forall e: nat ensures HasRow(n.rows, e) <==> HasRow(s.rows, e) {
      hide B.Apply, B.Settled;
      if id :| id in n.rows && n.rows[id].msg.eventId == e { assert id in s.rows; }
      if id :| id in s.rows && s.rows[id].msg.eventId == e { assert id in n.rows; }
    }
  }

  lemma RelayKeeps(env: Env, j: Joint, b: B.Step)
    requires Inv(env, j) && (b.Claim? || b.Ack? || b.Fail? || b.Mark? || b.Note? || b.Close? || b.Abandon?)
    ensures Inv(env, Apply(env, j, Service(b)))
  {
    hide I.Inv, K.Inv, Tied, HasRow, B.Apply, B.Enabled, Sole, RowsGain;
    I.StepKeeps(env, j.box, b);
    RelayLeaves(env, j.box, b);
    var n := Apply(env, j, Service(b));
    forall r ensures Accounted(n.keys, n.box.rows, n.saved, r) {
      assert Accounted(j.keys, j.box.rows, j.saved, r);
      SameRowsSame(j, n, r);
    }
  }

  lemma SameRowsSame(j: Joint, n: Joint, r: nat)
    requires n.keys == j.keys && n.saved == j.saved && (n.box == j.box || RowsGain(j.box.rows, n.box.rows, None))
    requires Accounted(j.keys, j.box.rows, j.saved, r)
    ensures Accounted(n.keys, n.box.rows, n.saved, r)
  {
    hide HasRow;
  }

  /** The service's own transactions: their events are none that a request saved. */
  lemma OwnTxKeeps(env: Env, j: Joint, b: B.Step)
    requires b.Begin? || b.SqlError? || b.Commit? || b.Rollback? || b.Insert? || b.Save?
    requires Inv(env, j) && Allowed(j.keys, b) && B.Enabled(env, j.box, b) && !Keyed(j.keys, b.tx)
    ensures Inv(env, Apply(env, j, Service(b)))
  {
    hide I.Inv, K.Inv, HasRow, RowsGain, Only, Written, Accounted, Tied, Sole, B.Apply, B.Enabled;
    var n, t := Apply(env, j, Service(b)), b.tx;
    I.StepKeeps(env, j.box, b);
    forall x | x != t ensures Same(j, n, x) { ServiceTouchesOnly(env, j, b, x); }
    ServiceTouchesOnly(env, j, b, t + 1);
    assert Only(j, n, t) by { OnlyOf(j, n, t); }
    assert Tied(j.keys, j.box.txs, j.saved, t) && Accounted(j.keys, j.box.rows, j.saved, t);
    if t in j.box.txs { WrittenGains(env, j.box, t); }
    var own := if b.Commit? && t in j.box.txs && j.box.txs[t].work.Saved? then Some(j.box.txs[t].work.eventId) else None;
    OwnMoves(env, j, b, own);
    OwnAccounted(j, n, t, own);
    OneMoves(env, j, n, t, own);
  }

  lemma OnlyOf(j: Joint, n: Joint, r: nat)
    requires (forall x :: x != r ==> Same(j, n, x)) && n.keys == j.keys && j.box.nextEvent <= n.box.nextEvent
    ensures Only(j, n, r)
  {}

  lemma OwnAccounted(j: Joint, n: Joint, t: nat, own: Option<nat>)
    requires n.keys == j.keys && n.saved == j.saved && Accounted(j.keys, j.box.rows, j.saved, t)
    requires RowsGain(j.box.rows, n.box.rows, own) && (t in j.saved ==> own != Some(j.saved[t]))
    ensures Accounted(n.keys, n.box.rows, n.saved, t)
  {
    hide HasRow;
  }

  lemma NoGain(rows: map<nat, B.Row>)
    ensures RowsGain(rows, rows, None)
  {}

  /** A save takes an event id that nobody has. */
  lemma SoleSaves(txs: map<nat, B.Tx>, saved: map<nat, nat>, nextEvent: nat, t: nat, w: B.Work, keyed: bool)
    requires Sole(txs, saved, nextEvent) && t in txs && w.Saved? && w.eventId == nextEvent && (keyed ==> txs[t].joined)
    ensures Sole(txs[t := txs[t].(work := w)], if keyed then saved[t := nextEvent] else saved, nextEvent + 1)
  {}

  lemma BoxSaves(env: Env, s: B.State, b: B.Step)
    requires b.Save? && B.Enabled(env, s, b)
    ensures var n := B.Apply(env, s, b);
            && b.tx in s.txs && s.txs[b.tx].fault.Clean? && b.tx in n.txs && n.txs[b.tx].work.Saved? && n.txs[b.tx].work.eventId == s.nextEvent
            && n.txs == s.txs[b.tx := s.txs[b.tx].(work := n.txs[b.tx].work)] && n.rows == s.rows && n.nextEvent == s.nextEvent + 1
  {
    hide B.Decides, B.Unlocked;
  }

  lemma BoxInserts(env: Env, s: B.State, b: B.Step)
    requires b.Insert? && B.Enabled(env, s, b)
    ensures var n := B.Apply(env, s, b);
            && b.tx in s.txs && b.tx in n.txs && n.rows == s.rows && n.nextEvent == s.nextEvent
            && n.txs == s.txs[b.tx := n.txs[b.tx]] && n.txs[b.tx].joined == s.txs[b.tx].joined
            && s.txs[b.tx].fault.Clean? && !n.txs[b.tx].fault.SqlFailed? && s.txs[b.tx].work.Saved?
            && n.txs[b.tx].work.Saved? && n.txs[b.tx].work.eventId == s.txs[b.tx].work.eventId
  {}

  lemma BoxOthers(env: Env, s: B.State, b: B.Step)
    requires (b.Begin? || b.SqlError?) && B.Enabled(env, s, b)
    ensures var n := B.Apply(env, s, b);
            && b.tx in n.txs && n == s.(txs := s.txs[b.tx := n.txs[b.tx]])
            && (b.SqlError? ==> b.tx in s.txs && n.txs[b.tx].work == s.txs[b.tx].work && n.txs[b.tx].joined == s.txs[b.tx].joined)
            && (b.Begin? ==> n.txs[b.tx].work.Nothing? && n.txs[b.tx].joined == b.joined)
  {}

  /** Beginning, failing, inserting and rolling back save nothing and commit nothing. */
  lemma OwnStepMoves(env: Env, j: Joint, b: B.Step)
    requires b.Begin? || b.SqlError? || b.Rollback? || b.Insert?
    requires Allowed(j.keys, b) && B.Enabled(env, j.box, b) && !Keyed(j.keys, b.tx)
    requires Tied(j.keys, j.box.txs, j.saved, b.tx) && Sole(j.box.txs, j.saved, j.box.nextEvent)
    ensures OwnMoved(j, Apply(env, j, Service(b)), b.tx, None)
  {
    hide HasRow, RowsGain;
    var t := b.tx;
    NoGain(j.box.rows);
    if b.Rollback? {
      BoxRollsBack(env, j.box, t);
      hide B.Apply;
      SoleWithout(j.box.txs, j.saved, j.box.nextEvent, t);
    } else {
      var x := B.Apply(env, j.box, b);
      if b.Insert? { BoxInserts(env, j.box, b); } else { BoxOthers(env, j.box, b); }
      hide B.Apply, B.Enabled;
      SoleWith(j.box.txs, j.saved, j.box.nextEvent, t, x.txs[t]);
    }
    hide Sole;
  }

  ghost predicate OwnMoved(j: Joint, n: Joint, t: nat, own: Option<nat>) {
    && n.saved == j.saved && Tied(n.keys, n.box.txs, n.saved, t)
    && Sole(n.box.txs, n.saved, n.box.nextEvent) && RowsGain(j.box.rows, n.box.rows, own)
    && forall t :: t in j.saved ==> own != Some(j.saved[t])
  }

  lemma OwnSaveMoves(env: Env, j: Joint, b: B.Step)
    requires b.Save? && Allowed(j.keys, b) && B.Enabled(env, j.box, b) && !Keyed(j.keys, b.tx)
    requires Tied(j.keys, j.box.txs, j.saved, b.tx) && Sole(j.box.txs, j.saved, j.box.nextEvent)
    ensures OwnMoved(j, Apply(env, j, Service(b)), b.tx, None)
  {
    hide HasRow, RowsGain;
    NoGain(j.box.rows);
    BoxSaves(env, j.box, b);
    var n := B.Apply(env, j.box, b);
    hide B.Apply, B.Enabled;
    SoleSaves(j.box.txs, j.saved, j.box.nextEvent, b.tx, n.txs[b.tx].work, false);
    hide Sole;
  }

  lemma OwnCommitMoves(env: Env, j: Joint, b: B.Step, own: Option<nat>)
    requires b.Commit? && Allowed(j.keys, b) && B.Enabled(env, j.box, b) && !Keyed(j.keys, b.tx)
    requires Tied(j.keys, j.box.txs, j.saved, b.tx) && Sole(j.box.txs, j.saved, j.box.nextEvent)
    requires own == if j.box.txs[b.tx].work.Saved? then Some(j.box.txs[b.tx].work.eventId) else None
    requires RowsGain(j.box.rows, j.box.rows + Written(j.box.txs[b.tx]), own)
    ensures OwnMoved(j, Apply(env, j, Service(b)), b.tx, own)
  {
    hide HasRow, RowsGain, Written;
    var n := Apply(env, j, Service(b));
    BoxCommits(env, j.box, b.tx);
    hide B.Apply;
    SoleWithout(j.box.txs, j.saved, j.box.nextEvent, b.tx);
  }

  lemma OwnMoves(env: Env, j: Joint, b: B.Step, own: Option<nat>)
    requires b.Begin? || b.SqlError? || b.Commit? || b.Rollback? || b.Insert? || b.Save?
    requires Allowed(j.keys, b) && B.Enabled(env, j.box, b) && !Keyed(j.keys, b.tx)
    requires Tied(j.keys, j.box.txs, j.saved, b.tx) && Sole(j.box.txs, j.saved, j.box.nextEvent)
    requires own == if b.Commit? && b.tx in j.box.txs && j.box.txs[b.tx].work.Saved? then Some(j.box.txs[b.tx].work.eventId) else None
    requires b.tx in j.box.txs ==>
      var w := j.box.txs[b.tx].work; RowsGain(j.box.rows, j.box.rows + Written(j.box.txs[b.tx]), if w.Saved? then Some(w.eventId) else None)
    ensures OwnMoved(j, Apply(env, j, Service(b)), b.tx, own)
  {
    hide HasRow, RowsGain, Written, Tied, Sole, OwnMoved, Apply;
    if b.Commit? { OwnCommitMoves(env, j, b, own); }
    else if b.Save? { OwnSaveMoves(env, j, b); }
    else { OwnStepMoves(env, j, b); }
  }

  /** The handler of a keyed request writes in its transaction. */
  lemma HandlerKeeps(env: Env, j: Joint, b: B.Step)
    requires (b.Insert? || b.Save?) && Inv(env, j) && Allowed(j.keys, b) && B.Enabled(env, j.box, b) && Keyed(j.keys, b.tx)
    ensures Inv(env, Apply(env, j, Service(b)))
  {
    hide I.Inv, K.Inv, HasRow, RowsGain, Only, Accounted, Tied, Sole, B.Apply, B.Enabled;
    var n, t := Apply(env, j, Service(b)), b.tx;
    I.StepKeeps(env, j.box, b);
    forall x | x != t ensures Same(j, n, x) { ServiceTouchesOnly(env, j, b, x); }
    ServiceTouchesOnly(env, j, b, t + 1);
    assert Only(j, n, t) by { OnlyOf(j, n, t); }
    assert Tied(j.keys, j.box.txs, j.saved, t) && Accounted(j.keys, j.box.rows, j.saved, t);
    OpenHasNoRun(j.keys, t);
    HandlerMoves(env, j, b);
    OneMoves(env, j, n, t, None);
  }

  lemma HandlerMoves(env: Env, j: Joint, b: B.Step)
    requires (b.Insert? || b.Save?) && Allowed(j.keys, b) && B.Enabled(env, j.box, b) && Keyed(j.keys, b.tx)
    requires Tied(j.keys, j.box.txs, j.saved, b.tx) && Sole(j.box.txs, j.saved, j.box.nextEvent)
    ensures var n := Apply(env, j, Service(b));
            && Tied(n.keys, n.box.txs, n.saved, b.tx) && Accounted(n.keys, n.box.rows, n.saved, b.tx)
            && Sole(n.box.txs, n.saved, n.box.nextEvent) && RowsGain(j.box.rows, n.box.rows, None)
  {
    hide HasRow, RowsGain, B.ReachesCommit;
    NoGain(j.box.rows);
    var n := B.Apply(env, j.box, b);
    if b.Save? {
      BoxSaves(env, j.box, b);
      hide B.Apply, B.Enabled;
      SoleSaves(j.box.txs, j.saved, j.box.nextEvent, b.tx, n.txs[b.tx].work, true);
      hide Sole;
    } else {
      BoxInserts(env, j.box, b);
      hide B.Apply, B.Enabled;
      SoleWith(j.box.txs, j.saved, j.box.nextEvent, b.tx, n.txs[b.tx]);
      hide Sole;
    }
  }

  lemma StepKeeps(env: Env, j: Joint, e: Step)
    requires Inv(env, j)
    ensures Inv(env, Apply(env, j, e))
  {
    hide Inv, Apply, K.Enabled, B.Enabled;
    match e
    case Request(k) => {
      if !K.Enabled(j.keys, k) || !Fits(j, k) { Disabled(env, j, e); }
      else if k.Commit? { RequestCommitKeeps(env, j, k); }
      else { RequestKeeps(env, j, k); }
    }
    case Service(b) => {
      if !Allowed(j.keys, b) || !B.Enabled(env, j.box, b) { Disabled(env, j, e); }
      else if b.Claim? || b.Ack? || b.Fail? || b.Mark? || b.Note? || b.Close? || b.Abandon? { RelayKeeps(env, j, b); }
      else if Keyed(j.keys, b.tx) { HandlerKeeps(env, j, b); }
      else { OwnTxKeeps(env, j, b); }
    }
  }

  lemma Disabled(env: Env, j: Joint, e: Step)
    requires match e case Request(k) => !K.Enabled(j.keys, k) || !Fits(j, k) case Service(b) => !Allowed(j.keys, b) || !B.Enabled(env, j.box, b)
    ensures Apply(env, j, e) == j
  {}

  lemma {:induction false} RunKeeps(env: Env, j: Joint, steps: seq<Step>)
    requires Inv(env, j)
    ensures Inv(env, Exec(env, j, steps))
    decreases |steps|
  {
    hide Inv, Apply;
    if steps != [] {
      StepKeeps(env, j, steps[0]);
      RunKeeps(env, Apply(env, j, steps[0]), steps[1..]);
    }
  }

  lemma Reachable(env: Env, steps: seq<Step>)
    requires TotalOrder(env.before)
    ensures Inv(env, Exec(env, EMPTY, steps))
  {
    hide I.Inv, K.Inv, TotalOrder;
    I.Reachable(env, []);
    B.EmptyRun(env, B.EMPTY);
    K.Reachable([]);
    NoKeysYet();
    assert Inv(env, EMPTY);
    hide Inv;
    RunKeeps(env, EMPTY, steps);
  }

  lemma NoKeysYet()
    ensures K.Exec(K.EMPTY, []) == K.EMPTY
  {}

  // ---- what the two machines promise together ----

  /** A change under this event id is committed, and with it its row for every encoder. */
  ghost predicate Whole(s: B.State, eventId: nat) {
    exists k, n :: 0 <= n < |B.Hist(s.history, k)| && B.Hist(s.history, k)[n].eventId == eventId
                   && I.ChangeFits(s.rows, k, n, B.Hist(s.history, k)[n])
  }

  /** Neither a change nor a row under this event id is committed. */
  ghost predicate Absent(s: B.State, eventId: nat) {
    && !HasRow(s.rows, eventId)
    && forall k, n :: 0 <= n < |B.Hist(s.history, k)| ==> B.Hist(s.history, k)[n].eventId != eventId
  }

  lemma WholeOrAbsent(env: Env, s: B.State, eventId: nat)
    requires I.Inv(env, s)
    ensures if HasRow(s.rows, eventId) then Whole(s, eventId) else Absent(s, eventId)
  {
    hide I.StoreInv, I.TxInv, I.PassInv, I.LogInv, I.InCommitOrder, I.EventIdsDistinct;
    if id :| id in s.rows && s.rows[id].msg.eventId == eventId {
      var m := s.rows[id].msg;
      assert I.RowFits(s.history, id, m);
      assert I.ChangeFits(s.rows, m.key, m.ordinal, B.Hist(s.history, m.key)[m.ordinal]);
    }
    forall k, n | 0 <= n < |B.Hist(s.history, k)| && B.Hist(s.history, k)[n].eventId == eventId ensures HasRow(s.rows, eventId) {
      var c := B.Hist(s.history, k)[n];
      assert I.ChangeFits(s.rows, k, n, c);
      assert s.rows[c.ids[0]].msg.eventId == eventId;
    }
  }

  /**
   In every run of both together a key has a committed row exactly when one request of it has a committed
   run. What that request's handler saved is then committed whole, the change with its row on every topic; if
   it decided on no change there is nothing to commit. What any other ended request's handler saved left
   neither change nor row.
   */
  lemma KeyRowsAndChangesGoTogether(env: Env, steps: seq<Step>, key: string, r: nat)
    requires TotalOrder(env.before)
    ensures var j := Exec(env, EMPTY, steps);
            && (key in j.keys.table <==> exists q :: q in j.keys.runs && j.keys.runs[q].request.key == key)
            && (r in j.keys.runs && r in j.saved ==>
                  exists k, n, a, b ::
                    && 0 <= n < |B.Hist(j.box.history, k)| && B.Hist(j.box.history, k)[n].eventId == j.saved[r]
                    && a in j.box.rows && j.box.rows[a].msg == B.Message(B.Integration, j.saved[r], k, B.Hist(j.box.history, k)[n].event, n)
                    && b in j.box.rows && j.box.rows[b].msg == B.Message(B.Analytics, j.saved[r], k, B.Hist(j.box.history, k)[n].event, n))
            && (r in j.saved && r !in j.keys.runs ==>
                  && (forall id :: id in j.box.rows ==> j.box.rows[id].msg.eventId != j.saved[r])
                  && forall k, n :: 0 <= n < |B.Hist(j.box.history, k)| ==> B.Hist(j.box.history, k)[n].eventId != j.saved[r])
            && (r in j.keys.runs ==> forall q :: q in j.keys.runs && j.keys.runs[q].request.key == j.keys.runs[r].request.key ==> q == r)
  {
    hide Exec, Inv, K.Inv, Whole;
    Reachable(env, steps);
    var j := Exec(env, EMPTY, steps);
    WholeExactlyWithRun(env, j, key, r);
    if r in j.saved && r in j.keys.runs { WholeMeans(j.box, j.saved[r]); }
  }

  lemma WholeExactlyWithRun(env: Env, j: Joint, key: string, r: nat)
    requires Inv(env, j)
    ensures key in j.keys.table <==> K.Owned(j.keys.runs, key)
    ensures r in j.keys.runs ==> forall q :: q in j.keys.runs && j.keys.runs[q].request.key == j.keys.runs[r].request.key ==> q == r
    ensures r in j.saved ==> if r in j.keys.runs then Whole(j.box, j.saved[r]) else Absent(j.box, j.saved[r])
  {
    hide I.Inv, K.Inv, Whole, Absent;
    assert Tied(j.keys, j.box.txs, j.saved, r) && Accounted(j.keys, j.box.rows, j.saved, r);
    KeyFacts(j.keys, key, r);
    if r in j.saved {
      WholeOrAbsent(env, j.box, j.saved[r]);
      if Keyed(j.keys, r) {
        FreshEvent(env, j.box, r);
        OpenHasNoRun(j.keys, r);
      }
    }
  }

  lemma WholeMeans(s: B.State, eventId: nat)
    requires Whole(s, eventId)
    ensures exists k, n, a, b ::
                && 0 <= n < |B.Hist(s.history, k)| && B.Hist(s.history, k)[n].eventId == eventId
                && a in s.rows && s.rows[a].msg == B.Message(B.Integration, eventId, k, B.Hist(s.history, k)[n].event, n)
                && b in s.rows && s.rows[b].msg == B.Message(B.Analytics, eventId, k, B.Hist(s.history, k)[n].event, n)
  {
    var k, n :| 0 <= n < |B.Hist(s.history, k)| && B.Hist(s.history, k)[n].eventId == eventId
                && I.ChangeFits(s.rows, k, n, B.Hist(s.history, k)[n]);
    var c := B.Hist(s.history, k)[n];
    var a, b := c.ids[B.Slot(B.Integration)], c.ids[B.Slot(B.Analytics)];
    assert s.rows[a].msg == B.Message(B.Integration, eventId, k, c.event, n);
    assert s.rows[b].msg == B.Message(B.Analytics, eventId, k, c.event, n);
  }

  // ---- the joint machine leaves out no run of either ----

  /** Steps the outbox takes with no keyed request about. */
  predicate Unkeyed(e: B.Step) { !e.Crash? && (e.Begin? ==> !e.joined) }

  /** Without requests every run of the outbox, its own transactions and relays, is a run of both. */
  lemma {:induction false} ServiceRunsAsBefore(env: Env, s: B.State, steps: seq<B.Step>)
    requires forall i :: 0 <= i < |steps| ==> Unkeyed(steps[i])
    ensures Exec(env, Joint(K.EMPTY, s, map[]), seq(|steps|, i requires 0 <= i < |steps| => Service(steps[i])))
         == Joint(K.EMPTY, B.Exec(env, s, steps), map[])
    decreases |steps|
  {
    hide B.Apply, B.Enabled;
    var all := seq(|steps|, i requires 0 <= i < |steps| => Service(steps[i]));
    if steps != [] {
      var rest := steps[1..];
      assert all[0] == Service(steps[0]) && all[1..] == seq(|rest|, i requires 0 <= i < |rest| => Service(rest[i]));
      ServiceStepsAsBefore(env, s, steps[0]);
      ServiceRunsAsBefore(env, B.Apply(env, s, steps[0]), rest);
    }
  }

  lemma ServiceStepsAsBefore(env: Env, s: B.State, e: B.Step)
    requires Unkeyed(e)
    ensures Apply(env, Joint(K.EMPTY, s, map[]), Service(e)) == Joint(K.EMPTY, B.Apply(env, s, e), map[])
  {
    hide B.Decides, B.Unlocked, B.ReachesCommit, B.Scan, B.Settled, B.Saving, B.Inserted, B.Committed;
  }

  /** With handlers that save nothing every run of the key protocol is a run of both. */
  lemma {:induction false} ProtocolRunsAsBefore(env: Env, j: Joint, steps: seq<K.Step>)
    requires Inv(env, j) && Unsaved(j.box.txs)
    ensures Exec(env, j, seq(|steps|, i requires 0 <= i < |steps| => Request(steps[i]))).keys == K.Exec(j.keys, steps)
    decreases |steps|
  {
    hide Inv, Apply, K.Apply, Unsaved;
    var all := seq(|steps|, i requires 0 <= i < |steps| => Request(steps[i]));
    if steps != [] {
      var rest := steps[1..];
      assert all[0] == Request(steps[0]) && all[1..] == seq(|rest|, i requires 0 <= i < |rest| => Request(rest[i]));
      StepKeeps(env, j, all[0]);
      ProtocolStepsAsBefore(env, j, steps[0]);
      ProtocolRunsAsBefore(env, Apply(env, j, all[0]), rest);
    }
  }

  ghost predicate Unsaved(txs: map<nat, B.Tx>) { forall t :: t in txs ==> txs[t].joined && txs[t].work.Nothing? }

  lemma ProtocolStepsAsBefore(env: Env, j: Joint, e: K.Step)
    requires Inv(env, j) && Unsaved(j.box.txs)
    ensures Apply(env, j, Request(e)).keys == K.Apply(j.keys, e) && Unsaved(Apply(env, j, Request(e)).box.txs)
  {
    hide I.Inv, K.Inv, Accounted, Sole, K.Enabled, K.Apply, B.Apply, Fits, Effect, Tied, Unsaved;
    if K.Enabled(j.keys, e) {
      FitsUnsaved(j, e);
      EffectIsOwn(j.keys, e);
      if Effect(j.keys, e).Some? { StaysUnsaved(env, j.box, Effect(j.keys, e).value, j.keys, e); }
    } else {
      DoesNothing(j.keys, e);
    }
  }

  lemma DoesNothing(s: K.State, e: K.Step)
    requires !K.Enabled(s, e)
    ensures K.Apply(s, e) == s
  {
    hide K.Enabled;
  }

  lemma FitsUnsaved(j: Joint, e: K.Step)
    requires Tied(j.keys, j.box.txs, j.saved, e.r) && Unsaved(j.box.txs) && K.Enabled(j.keys, e)
    ensures Fits(j, e)
  {
    hide K.Held;
  }

  lemma StaysUnsaved(env: Env, s: B.State, b: B.Step, keys: K.State, e: K.Step)
    requires Unsaved(s.txs) && Effect(keys, e) == Some(b)
    ensures Unsaved(B.Apply(env, s, b).txs)
  {
    hide K.Enabled;
  }

  lemma KeyFacts(s: K.State, key: string, r: nat)
    requires K.Inv(s)
    ensures key in s.table <==> K.Owned(s.runs, key)
    ensures r in s.runs ==> forall q :: q in s.runs && s.runs[q].request.key == s.runs[r].request.key ==> q == r
  {
    hide K.FlightOk, K.AnswerOk;
    assert K.RowOk(s.table, key) && K.RunOk(s.table, s.runs, r);
    if K.Owned(s.runs, key) {
      var q :| q in s.runs && s.runs[q].request.key == key;
      assert K.RunOk(s.table, s.runs, q);
    }
  }

  // ---- one keyed definition, played out ----

  const PICK := ProcessPaths.Definition("pick", false, ["pick"], "", 1000, Eligibility(None, [], [], false))
  const DEFINE := DefinePath("PICK", PICK, 0)
  const ASKED := K.Request("key", "hash", true)
  const CREATED := K.Response(201, map[], "")

  const STEPS: seq<Step> := [
    Request(K.Arrive(0, ASKED)), Request(K.Insert(0)), Service(B.Save(0, DEFINE, 0, {})), Service(B.Insert(0)), Service(B.Insert(0)),
    Request(K.Return(0, CREATED)), Request(K.Record(0)), Request(K.Commit(0, true))]

  /** The request runs; its transaction is as far as `tx`. */
  function Running(tx: B.Tx, nextId: nat, nextEvent: nat, saved: map<nat, nat>, w: K.Work): Joint {
    Joint(K.State(map[], map[], {0}, map[0 := K.Flight(ASKED, K.Running(w))], map[]),
          B.EMPTY.(txs := map[0 := tx], nextId := nextId, nextEvent := nextEvent), saved)
  }

  const FRESH := K.Work(K.Row("hash", None), [], false, None)

  function Definition(ids: seq<nat>, rows: map<nat, B.Row>): B.Work {
    B.Saved(PathKey("PICK"), PathValue(ProcessPaths.Path("PICK", PICK, ProcessPaths.Active, 0, 0)), Created("PICK", PICK, 0), 0, 0, ids, rows, 0)
  }

  function Rows(n: nat): map<nat, B.Row>
    requires n <= 2
  {
    map i: nat | i < n :: B.NewRow(Definition([], map[]), i)
  }

  function Inserted(n: nat): B.Tx
    requires n <= 2
  {
    B.Tx(true, Definition(if n == 0 then [] else if n == 1 then [0] else [0, 1], Rows(n)), B.Clean)
  }

  lemma Opens(env: Env)
    ensures Apply(env, Apply(env, EMPTY, STEPS[0]), STEPS[1]) == Running(B.Tx(true, B.Nothing, B.Clean), 0, 0, map[], FRESH)
  {
    var j := Apply(env, EMPTY, STEPS[0]);
    assert j.keys.open == map[0 := K.Flight(ASKED, K.Waiting)];
  }

  lemma Saves(env: Env)
    requires env.isLower("pick")
    ensures Apply(env, Running(B.Tx(true, B.Nothing, B.Clean), 0, 0, map[], FRESH), STEPS[2]) == Running(Inserted(0), 0, 1, map[0 := 0], FRESH)
  {
    var j := Running(B.Tx(true, B.Nothing, B.Clean), 0, 0, map[], FRESH);
    assert WholeMicros(1000) == 1000;
    assert Rows(0) == map[];
    assert B.Decides(env, j.box.history, DEFINE, 0, {});
    assert B.Saving(env, j.box, DEFINE, 0, {}) == Definition([], Rows(0));
    hide B.Decides, B.Saving, Rows;
  }

  lemma Inserts(env: Env, n: nat)
    requires n < 2
    ensures Apply(env, Running(Inserted(n), n, 1, map[0 := 0], FRESH), STEPS[3]) == Running(Inserted(n + 1), n + 1, 1, map[0 := 0], FRESH)
  {
    var w := Inserted(n).work;
    assert w.rows[n := B.NewRow(w, n)] == Rows(n + 1);
    assert w.ids + [n] == Inserted(n + 1).work.ids;
    hide Rows, K.Enabled, K.Apply, Effect;
  }

  const ANSWERED := FRESH.(returned := Some(CREATED))
  const RECORDED := ANSWERED.(row := K.Row("hash", Some(CREATED)))

  lemma Returns(env: Env)
    ensures Apply(env, Running(Inserted(2), 2, 1, map[0 := 0], FRESH), STEPS[5]) == Running(Inserted(2), 2, 1, map[0 := 0], ANSWERED)
  {
    hide Rows;
  }

  lemma Records(env: Env)
    ensures Apply(env, Running(Inserted(2), 2, 1, map[0 := 0], ANSWERED), STEPS[6]) == Running(Inserted(2), 2, 1, map[0 := 0], RECORDED)
  {
    hide Inserted;
  }

  lemma Finishes(env: Env)
    ensures var n := Apply(env, Running(Inserted(2), 2, 1, map[0 := 0], RECORDED), STEPS[7]);
            0 in n.keys.runs && n.keys.runs[0] == K.Run(ASKED, [], CREATED) && 0 in n.saved
  {
    hide Inserted, B.Apply;
  }

  lemma {:induction false} ExecSnoc(env: Env, j: Joint, steps: seq<Step>, e: Step)
    ensures Exec(env, j, steps + [e]) == Apply(env, Exec(env, j, steps), e)
    decreases |steps|
  {
    hide Apply;
    var all := steps + [e];
    if steps == [] {
      assert all[0] == e && all[1..] == [];
    } else {
      assert all[0] == steps[0] && all[1..] == steps[1..] + [e];
      ExecSnoc(env, Apply(env, j, steps[0]), steps[1..], e);
    }
  }

  lemma Prefix(env: Env, n: nat)
    requires n < |STEPS|
    ensures Exec(env, EMPTY, STEPS[..n + 1]) == Apply(env, Exec(env, EMPTY, STEPS[..n]), STEPS[n])
  {
    hide Apply;
    assert STEPS[..n + 1] == STEPS[..n] + [STEPS[n]];
    ExecSnoc(env, EMPTY, STEPS[..n], STEPS[n]);
  }

  lemma PlaysOut(env: Env)
    requires TotalOrder(env.before) && env.isLower("pick")
    ensures var j := Exec(env, EMPTY, STEPS);
            0 in j.keys.runs && j.keys.runs[0] == K.Run(ASKED, [], CREATED) && 0 in j.saved
  {
    hide Apply, Running;
    assert STEPS[..0] == [] && STEPS[..8] == STEPS;
    NothingYet(env);
    Opens(env);
    Saves(env);
    Inserts(env, 0);
    Inserts(env, 1);
    Returns(env);
    Records(env);
    Finishes(env);
    forall n | 0 <= n < 8 ensures Exec(env, EMPTY, STEPS[..n + 1]) == Apply(env, Exec(env, EMPTY, STEPS[..n]), STEPS[n]) { Prefix(env, n); }
    hide Exec;
    assert STEPS[3] == STEPS[4];
  }

  /** A run in which a keyed definition commits: the key's row, its one run, and the change with its row on every topic. */
  lemma KeyedDefinitionCommits(env: Env)
    requires TotalOrder(env.before) && env.isLower("pick")
    ensures var j := Exec(env, EMPTY, STEPS);
            && "key" in j.keys.table && 0 in j.keys.runs && j.keys.runs[0].request == ASKED && 0 in j.saved
            && (exists k, n, a, b ::
                  && 0 <= n < |B.Hist(j.box.history, k)| && B.Hist(j.box.history, k)[n].eventId == j.saved[0]
                  && a in j.box.rows && j.box.rows[a].msg == B.Message(B.Integration, j.saved[0], k, B.Hist(j.box.history, k)[n].event, n)
                  && b in j.box.rows && j.box.rows[b].msg == B.Message(B.Analytics, j.saved[0], k, B.Hist(j.box.history, k)[n].event, n))
  {
    hide Exec;
    PlaysOut(env);
    KeyRowsAndChangesGoTogether(env, STEPS, "key", 0);
    assert Exec(env, EMPTY, STEPS).keys.runs[0].request.key == "key";
  }

  lemma NothingYet(env: Env)
    ensures Exec(env, EMPTY, []) == EMPTY
  {}
}
