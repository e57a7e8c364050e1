/**
 The transactional outbox as one step machine: command transactions, the outbox table, relay passes
 and the topics (internal/adapters/outbound/postgres). A step that is not enabled changes nothing,
 so every sequence of steps is a run, and every interleaving is some sequence.
 */
module Outbox {
  import opened Shared
  import opened Catalogue

  datatype Topic = Integration | Analytics

  /** The encoders the service is wired with; each writes one row per event. */
  const ENCODERS: seq<Topic> := [Integration, Analytics]

  function Slot(t: Topic): nat { if t.Integration? then 0 else 1 }

  /**
   A message as a topic carries it. `ordinal` is a history variable and not on the wire: the event's
   place in the order in which its aggregate's changes committed.
   */
  datatype Message = Message(topic: Topic, eventId: nat, key: Key, event: Event, ordinal: nat)

  datatype Row = Row(msg: Message, published: bool, attempts: nat)

  /**
   One committed change of an aggregate, with its outbox row ids in encoder order. `loaded` is a history
   variable: how many changes had committed when the use case loaded the aggregate it decided on.
   */
  datatype Change = Change(value: Value, event: Event, eventId: nat, ids: seq<nat>, loaded: nat)

  type History = map<Key, seq<Change>>

  datatype Fault = Clean | SqlFailed | EncodeFailed

  /** What a transaction has written and nobody else can see. `Saved` holds the aggregate's row lock. */
  datatype Work =
    | Nothing
    | Saved(key: Key, value: Value, event: Event, eventId: nat, ordinal: nat, ids: seq<nat>, rows: map<nat, Row>, loaded: nat)

  /** `joined`: begun by the idempotency middleware, which also decides its end. */
  datatype Tx = Tx(joined: bool, work: Work, fault: Fault)

  /**
   A relay pass: `batch[..done]` is sent and marked inside the pass's transaction. Acked: the next row
   was sent but not yet marked. Failed: its send failed. Noted: that failure is recorded.
   */
  datatype Stage = Ready | Acked | Failed | Noted

  datatype Pass = Pass(batch: seq<nat>, done: nat, stage: Stage)

  datatype State = State(
    store: map<Key, Value>,       // committed aggregates
    rows: map<nat, Row>,          // committed outbox rows
    nextId: nat,                  // the id sequence, never rolled back
    nextEvent: nat,               // event ids are minted fresh
    txs: map<nat, Tx>,            // open command transactions
    passes: map<nat, Pass>,       // open relay passes
    log: seq<Message>,            // both topics, in the order of arrival
    history: History,             // history variable: committed changes by aggregate
    acked: set<nat>)              // history variable: rows with a send that reported success

  /** `version`: the use case loaded the aggregate when that many of its changes had committed. */
  datatype Step =
    | Begin(tx: nat, joined: bool)
    | Save(tx: nat, cmd: Command, version: nat, active: set<string>)
    | Insert(tx: nat)
    | SqlError(tx: nat)
    | Commit(tx: nat)
    | Rollback(tx: nat)
    | Claim(pass: nat, limit: nat)
    | Ack(pass: nat)
    | Fail(pass: nat, delivered: bool)
    | Mark(pass: nat)
    | Note(pass: nat)
    | Close(pass: nat)
    | Abandon(pass: nat)
    | Crash

  const EMPTY := State(map[], map[], 0, 0, map[], map[], [], map[], {})

  function Hist(h: History, k: Key): seq<Change> { if k in h then h[k] else [] }

  /** The aggregate as it stood after its first `n` changes. */
  function Before(h: seq<Change>, n: nat): Option<Value>
    requires n <= |h|
  {
    if n == 0 then None else Some(h[n - 1].value)
  }

  function NewRow(w: Work, i: nat): Row
    requires w.Saved? && i < |ENCODERS|
  {
    Row(Message(ENCODERS[i], w.eventId, w.key, w.event, w.ordinal), false, 0)
  }

  /** Rows some pass has locked. */
  function Locked(passes: map<nat, Pass>): set<nat> {
    set p, i | p in passes && 0 <= i < |passes[p].batch| :: passes[p].batch[i]
  }

  predicate Pending(rows: map<nat, Row>, id: nat) { id in rows && !rows[id].published }

  /** SELECT the unpublished rows ORDER BY id LIMIT `limit` FOR UPDATE SKIP LOCKED, ids in [from, upto). */
  function Scan(rows: map<nat, Row>, locked: set<nat>, from: nat, upto: nat, limit: nat): seq<nat>
    decreases if from < upto then upto - from else 0
  {
    if from >= upto || limit == 0 then []
    else if Pending(rows, from) && from !in locked then [from] + Scan(rows, locked, from + 1, upto, limit - 1)
    else Scan(rows, locked, from + 1, upto, limit)
  }

  /** The table after a pass commits: its sent rows marked, a failed row counted. */
  function Settled(rows: map<nat, Row>, p: Pass): map<nat, Row>
    requires p.done <= |p.batch|
    requires p.stage.Noted? ==> p.done < |p.batch|
  {
    map id | id in rows ::
      if id in p.batch[..p.done] then rows[id].(published := true, attempts := rows[id].attempts + 1)
      else if p.stage.Noted? && id == p.batch[p.done] then rows[id].(attempts := rows[id].attempts + 1)
      else rows[id]
  }

  predicate Unlocked(txs: map<nat, Tx>, k: Key) {
    forall t :: t in txs && txs[t].work.Saved? ==> txs[t].work.key != k
  }

  /** The program reaches the commit: `Execute` only when its function succeeded, the middleware always. */
  predicate ReachesCommit(tx: Tx) {
    if tx.joined then tx.fault != Clean || tx.work.Nothing? || |tx.work.ids| == |ENCODERS|
    else tx.fault.Clean? && tx.work.Saved? && |tx.work.ids| == |ENCODERS|
  }

  /** The use case decides on a change of the version it loaded, whether or not that is still the current one. */
  predicate Decides(env: Env, h: History, cmd: Command, version: nat, active: set<string>) {
    version <= |Hist(h, Target(cmd))| && Decide(env, cmd, Before(Hist(h, Target(cmd)), version), active).Changed?
  }

  predicate Enabled(env: Env, s: State, e: Step) {
    match e
    case Begin(t, _) => t !in s.txs
    case Save(t, cmd, version, active) =>
      && t in s.txs && s.txs[t].work.Nothing? && s.txs[t].fault.Clean?
      && (s.txs[t].joined ==> cmd.DefinePath?)      // the one route behind the middleware
      && Unlocked(s.txs, Target(cmd))               // otherwise the statement waits
      && Decides(env, s.history, cmd, version, active)
    case Insert(t) =>
      t in s.txs && s.txs[t].work.Saved? && s.txs[t].fault.Clean? && |s.txs[t].work.ids| < |ENCODERS|
    case SqlError(t) => t in s.txs
    case Commit(t) => t in s.txs && ReachesCommit(s.txs[t])
    case Rollback(t) => t in s.txs
    case Claim(p, _) => p !in s.passes
    case Ack(p) => p in s.passes && s.passes[p].stage.Ready? && s.passes[p].done < |s.passes[p].batch|
                   && s.passes[p].batch[s.passes[p].done] in s.rows
    case Fail(p, _) => p in s.passes && s.passes[p].stage.Ready? && s.passes[p].done < |s.passes[p].batch|
                         && s.passes[p].batch[s.passes[p].done] in s.rows
    case Mark(p) => p in s.passes && s.passes[p].stage.Acked?
    case Note(p) => p in s.passes && s.passes[p].stage.Failed?
    case Close(p) =>
      && p in s.passes && s.passes[p].done <= |s.passes[p].batch|
      && (s.passes[p].stage.Noted? ==> s.passes[p].done < |s.passes[p].batch|)
      && (s.passes[p].stage.Noted? || (s.passes[p].stage.Ready? && s.passes[p].done == |s.passes[p].batch|))
    case Abandon(p) => p in s.passes
    case Crash => true
  }

  /** The decision on what was loaded, laid over the row as it is now. */
  function Saving(env: Env, s: State, cmd: Command, version: nat, active: set<string>): Work
    requires Decides(env, s.history, cmd, version, active)
  {
    var k := Target(cmd);
    var d := Decide(env, cmd, Before(Hist(s.history, k), version), active);
    Saved(k, Stored(env, Lookup(s.store, k), d.value), d.event, s.nextEvent, |Hist(s.history, k)|, [], map[], version)
  }

  /** One encoder's insert: an empty subject is refused before any SQL, otherwise the row takes the next id. */
  function Inserted(s: State, t: nat): State
    requires t in s.txs && s.txs[t].work.Saved? && |s.txs[t].work.ids| < |ENCODERS|
  {
    var w := s.txs[t].work;
    if w.key.id == "" then s.(txs := s.txs[t := s.txs[t].(fault := EncodeFailed)])
    else s.(txs := s.txs[t := s.txs[t].(work := w.(ids := w.ids + [s.nextId], rows := w.rows[s.nextId := NewRow(w, |w.ids|)]))],
            nextId := s.nextId + 1)
  }

  /** COMMIT. A transaction that met a SQL error only rolls back; so does one that wrote nothing. */
  function Committed(s: State, t: nat): State
    requires t in s.txs
  {
    var w := s.txs[t].work;
    if s.txs[t].fault.SqlFailed? || w.Nothing? then s.(txs := s.txs - {t})
    else s.(txs := s.txs - {t},
            store := s.store[w.key := w.value],
            rows := s.rows + w.rows,
            history := s.history[w.key := Hist(s.history, w.key) + [Change(w.value, w.event, w.eventId, w.ids, w.loaded)]])
  }

  function Apply(env: Env, s: State, e: Step): State {
    if !Enabled(env, s, e) then s else
    match e
    case Begin(t, joined) => s.(txs := s.txs[t := Tx(joined, Nothing, Clean)])
    case Save(t, cmd, version, active) =>
      s.(txs := s.txs[t := s.txs[t].(work := Saving(env, s, cmd, version, active))], nextEvent := s.nextEvent + 1)
    case Insert(t) => Inserted(s, t)
    case SqlError(t) => s.(txs := s.txs[t := s.txs[t].(fault := SqlFailed)])
    case Commit(t) => Committed(s, t)
    case Rollback(t) => s.(txs := s.txs - {t})
    case Claim(p, limit) => s.(passes := s.passes[p := Pass(Scan(s.rows, Locked(s.passes), 0, s.nextId, limit), 0, Ready)])
    case Ack(p) =>
      var id := s.passes[p].batch[s.passes[p].done];
      s.(passes := s.passes[p := s.passes[p].(stage := Acked)], log := s.log + [s.rows[id].msg], acked := s.acked + {id})
    case Fail(p, delivered) =>
      var id := s.passes[p].batch[s.passes[p].done];
      s.(passes := s.passes[p := s.passes[p].(stage := Failed)], log := if delivered then s.log + [s.rows[id].msg] else s.log)
    case Mark(p) => s.(passes := s.passes[p := s.passes[p].(stage := Ready, done := s.passes[p].done + 1)])
    case Note(p) => s.(passes := s.passes[p := s.passes[p].(stage := Noted)])
    case Close(p) => s.(passes := s.passes - {p}, rows := Settled(s.rows, s.passes[p]))
    case Abandon(p) => s.(passes := s.passes - {p})
    case Crash => s.(txs := map[], passes := map[])
  }

  function Exec(env: Env, s: State, steps: seq<Step>): State
    decreases |steps|
  {
    if steps == [] then s else Exec(env, Apply(env, s, steps[0]), steps[1..])
  }

  lemma {:induction false} ExecAppend(env: Env, s: State, a: seq<Step>, b: seq<Step>)
    ensures Exec(env, s, a + b) == Exec(env, Exec(env, s, a), b)
    decreases |a|
  {
    if a == [] {
      assert a + b == b;
    } else {
      assert (a + b)[0] == a[0] && (a + b)[1..] == a[1..] + b;
      ExecAppend(env, Apply(env, s, a[0]), a[1..], b);
    }
  }

  lemma EmptyRun(env: Env, s: State)
    ensures Exec(env, s, []) == s
  {}

  lemma ExecSnoc(env: Env, s: State, a: seq<Step>, e: Step)
    ensures Exec(env, s, a + [e]) == Apply(env, Exec(env, s, a), e)
  {
    hide Apply;
    ExecAppend(env, s, a, [e]);
    var m := Exec(env, s, a);
    assert Exec(env, m, [e]) == Exec(env, Apply(env, m, e), [e][1..]);
  }

  // ---- what a scan returns ----

  ghost predicate Rising(ids: seq<nat>) { forall i, j :: 0 <= i < j < |ids| ==> ids[i] < ids[j] }

  /** `b` is the lowest free pending ids from `from` up, in order: what it leaves out is above all of it, and only when full. */
  ghost predicate Lowest(rows: map<nat, Row>, locked: set<nat>, from: nat, upto: nat, limit: nat, b: seq<nat>) {
    && Rising(b) && |b| <= limit
    && (forall i :: 0 <= i < |b| ==> from <= b[i] < upto && Pending(rows, b[i]) && b[i] !in locked)
    && (forall id :: from <= id < upto && Pending(rows, id) && id !in locked && id !in b ==>
          |b| == limit && forall i :: 0 <= i < |b| ==> b[i] < id)
  }

  lemma LowestWith(rows: map<nat, Row>, locked: set<nat>, from: nat, upto: nat, limit: nat, t: seq<nat>)
    requires from < upto && limit > 0 && Pending(rows, from) && from !in locked
    requires Lowest(rows, locked, from + 1, upto, limit - 1, t)
    ensures Lowest(rows, locked, from, upto, limit, [from] + t)
  {
    var b := [from] + t;
    assert forall i :: 1 <= i < |b| ==> b[i] == t[i - 1];
    assert forall id :: id in b <==> id == from || id in t;
  }

  /** A scan returns the lowest free pending ids, in order, up to the limit. */
  lemma {:induction false} ScanTakesLowest(rows: map<nat, Row>, locked: set<nat>, from: nat, upto: nat, limit: nat)
    ensures Lowest(rows, locked, from, upto, limit, Scan(rows, locked, from, upto, limit))
    decreases if from < upto then upto - from else 0
  {
    if from < upto && limit > 0 {
      if Pending(rows, from) && from !in locked {
        ScanTakesLowest(rows, locked, from + 1, upto, limit - 1);
        LowestWith(rows, locked, from, upto, limit, Scan(rows, locked, from + 1, upto, limit - 1));
      } else {
        ScanTakesLowest(rows, locked, from + 1, upto, limit);
      }
    }
  }
}
