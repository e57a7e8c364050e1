/** One use case's transaction as a whole, and serial runs as runs of the machine. */
module Commands {
  import opened Shared
  import opened Catalogue
  import opened Outbox
  import opened OutboxInvariant
  import SerialRuns
  import Histories

  function WholeSteps(t: nat, joined: bool, cmd: Command, version: nat, active: set<string>): seq<Step> {
    [Begin(t, joined), Save(t, cmd, version, active), Insert(t), Insert(t), Commit(t)]
  }

  /** The transaction's work once every encoder has inserted its row, ids taken from `next`. */
  function Whole(w: Work, next: nat): Work
    requires w.Saved?
  {
    w.(ids := [next, next + 1], rows := map[next := NewRow(w, 0), next + 1 := NewRow(w, 1)])
  }

  /** The state after a deciding command has committed on its own. */
  ghost function AfterCommand(env: Env, s: State, cmd: Command, version: nat, active: set<string>): State
    requires Decides(env, s.history, cmd, version, active)
  {
    var w := Whole(Saving(env, s, cmd, version, active), s.nextId);
    s.(store := s.store[w.key := w.value], rows := s.rows + w.rows, nextId := s.nextId + 2, nextEvent := s.nextEvent + 1,
       history := s.history[w.key := Hist(s.history, w.key) + [Made(w)]])
  }

  lemma Exec5(env: Env, s: State, e: seq<Step>)
    requires |e| == 5
    ensures Exec(env, s, e) == Apply(env, Apply(env, Apply(env, Apply(env, Apply(env, s, e[0]), e[1]), e[2]), e[3]), e[4])
  {
    hide Apply;
    assert e[1..][1..][1..][1..][1..] == [];
    assert e[1..][0] == e[1] && e[1..][1..][0] == e[2] && e[1..][1..][1..][0] == e[3] && e[1..][1..][1..][1..][0] == e[4];
    var s2 := Apply(env, Apply(env, s, e[0]), e[1]);
    assert Exec(env, s, e) == Exec(env, s2, e[1..][1..]);
    var s4 := Apply(env, Apply(env, s2, e[2]), e[3]);
    assert Exec(env, s2, e[1..][1..]) == Exec(env, s4, e[1..][1..][1..][1..]);
  }

  lemma SaveRuns(env: Env, s: State, t: nat, joined: bool, cmd: Command, version: nat, active: set<string>)
    requires t !in s.txs && Unlocked(s.txs, Target(cmd)) && (joined ==> cmd.DefinePath?)
    requires Decides(env, s.history, cmd, version, active)
    ensures Apply(env, Apply(env, s, Begin(t, joined)), Save(t, cmd, version, active))
         == s.(txs := s.txs[t := Tx(joined, Saving(env, s, cmd, version, active), Clean)], nextEvent := s.nextEvent + 1)
  {
    hide Decides, Decide, Stored;
    var m := Apply(env, s, Begin(t, joined));
    assert m == s.(txs := s.txs[t := Tx(joined, Nothing, Clean)]);
    assert Unlocked(m.txs, Target(cmd));
    assert m.txs[t := Tx(joined, Saving(env, s, cmd, version, active), Clean)] == s.txs[t := Tx(joined, Saving(env, s, cmd, version, active), Clean)];
  }

  /** The work after its first `i` inserts, ids taken from `next`. */
  ghost function Partly(w: Work, next: nat, i: nat): Work
    requires w.Saved? && i <= 2
  {
    if i == 0 then w else if i == 1 then w.(ids := [next], rows := map[next := NewRow(w, 0)]) else Whole(w, next)
  }

  /** `t` is open, alone has written since `s`, and has inserted `i` rows. */
  ghost function Writing(s: State, t: nat, joined: bool, w: Work, i: nat): State
    requires w.Saved? && i <= 2
  {
    s.(txs := s.txs[t := Tx(joined, Partly(w, s.nextId, i), Clean)], nextId := s.nextId + i)
  }

  lemma InsertGoesOn(env: Env, s: State, t: nat, joined: bool, w: Work, i: nat)
    requires w.Saved? && w.ids == [] && w.rows == map[] && i < 2 && w.key.id != ""
    ensures Apply(env, Writing(s, t, joined, w, i), Insert(t)) == Writing(s, t, joined, w, i + 1)
  {
    var n, p := Writing(s, t, joined, w, i), Partly(w, s.nextId, i + 1);
    var x := Partly(w, s.nextId, i);
    assert x.(ids := x.ids + [n.nextId], rows := x.rows[n.nextId := NewRow(x, |x.ids|)]) == p by {
      assert x.ids + [n.nextId] == p.ids;
      assert x.rows[n.nextId := NewRow(x, |x.ids|)] == p.rows;
    }
    assert n.txs[t := Tx(joined, p, Clean)] == s.txs[t := Tx(joined, p, Clean)];
  }

  lemma InsertsRun(env: Env, s: State, t: nat, joined: bool, w: Work)
    requires w.Saved? && w.ids == [] && w.rows == map[] && w.key.id != ""
    ensures var m := s.(txs := s.txs[t := Tx(joined, w, Clean)]);
            Apply(env, Apply(env, m, Insert(t)), Insert(t))
            == s.(txs := s.txs[t := Tx(joined, Whole(w, s.nextId), Clean)], nextId := s.nextId + 2)
  {
    hide Apply;
    InsertGoesOn(env, s, t, joined, w, 0);
    InsertGoesOn(env, s, t, joined, w, 1);
  }

  lemma CommitRuns(env: Env, s: State, t: nat, joined: bool, w: Work)
    requires t !in s.txs && w.Saved? && |w.ids| == |ENCODERS|
    ensures Apply(env, s.(txs := s.txs[t := Tx(joined, w, Clean)]), Commit(t))
         == s.(store := s.store[w.key := w.value], rows := s.rows + w.rows,
               history := s.history[w.key := Hist(s.history, w.key) + [Made(w)]])
  {
    assert s.txs[t := Tx(joined, w, Clean)] - {t} == s.txs;
  }

  /** The five steps of a use case's transaction, run alone, amount to the whole command. */
  lemma CommandRuns(env: Env, s: State, t: nat, joined: bool, cmd: Command, version: nat, active: set<string>)
    requires t !in s.txs && Unlocked(s.txs, Target(cmd)) && (joined ==> cmd.DefinePath?) && Target(cmd).id != ""
    requires Decides(env, s.history, cmd, version, active)
    ensures Exec(env, s, WholeSteps(t, joined, cmd, version, active)) == AfterCommand(env, s, cmd, version, active)
  {
    hide Apply, Decides, Decide, Stored, NewRow;
    Exec5(env, s, WholeSteps(t, joined, cmd, version, active));
    SaveRuns(env, s, t, joined, cmd, version, active);
    var w := Saving(env, s, cmd, version, active);
    InsertsRun(env, s.(nextEvent := s.nextEvent + 1), t, joined, w);
    CommitRuns(env, s.(nextId := s.nextId + 2, nextEvent := s.nextEvent + 1), t, joined, Whole(w, s.nextId));
  }

  // ---- the same transaction, stopped on the way ----

  /** `t` is open with all its rows inserted and nothing wrong; `s` is the state without it. */
  ghost function Prepared(env: Env, s: State, t: nat, joined: bool, cmd: Command, version: nat, active: set<string>): State
    requires Decides(env, s.history, cmd, version, active)
  {
    s.(txs := s.txs[t := Tx(joined, Whole(Saving(env, s, cmd, version, active), s.nextId), Clean)],
       nextId := s.nextId + 2, nextEvent := s.nextEvent + 1)
  }

  lemma PreparedCommits(env: Env, s: State, t: nat, joined: bool, cmd: Command, version: nat, active: set<string>)
    requires t !in s.txs && Decides(env, s.history, cmd, version, active)
    ensures Enabled(env, Prepared(env, s, t, joined, cmd, version, active), Commit(t))
    ensures Apply(env, Prepared(env, s, t, joined, cmd, version, active), Commit(t)) == AfterCommand(env, s, cmd, version, active)
  {
    hide Decides, Decide, Stored, NewRow;
    CommitRuns(env, s.(nextId := s.nextId + 2, nextEvent := s.nextEvent + 1), t, joined, Whole(Saving(env, s, cmd, version, active), s.nextId));
  }

  /** Committed data, topics and passes are as in `s`; at most counters moved. */
  ghost predicate SameCommitted(s: State, n: State) {
    n == s.(txs := n.txs, nextId := n.nextId, nextEvent := n.nextEvent)
  }

  /** `t` met an error, so its commit can only roll back; nothing else moved. */
  ghost predicate Doomed(s: State, n: State, t: nat, joined: bool) {
    && SameCommitted(s, n) && t in n.txs && n.txs == s.txs[t := n.txs[t]]
    && n.txs[t].joined == joined && !n.txs[t].fault.Clean? && (joined ==> n.txs[t].fault.SqlFailed?)
  }

  /** Joined or not, a doomed transaction installs nothing, even if the middleware goes on to commit it. */
  lemma DoomedInstallsNothing(env: Env, s: State, n: State, t: nat, joined: bool)
    requires t !in s.txs && Doomed(s, n, t, joined)
    ensures var x := Apply(env, n, Commit(t)); SameCommitted(s, x) && (joined ==> x.txs == s.txs)
    ensures var x := Apply(env, n, Rollback(t)); SameCommitted(s, x) && x.txs == s.txs
  {
    assert n.txs - {t} == s.txs;
  }

  // ---- the use case's writes, step by step ----

  lemma UnlockedStill(txs: map<nat, Tx>, t: nat, tx: Tx, k: Key)
    requires t !in txs && tx.work.Nothing?
    ensures Unlocked(txs[t := tx], k) <==> Unlocked(txs, k)
  {
    var n := txs[t := tx];
    if Unlocked(n, k) {
      forall u | u in txs && txs[u].work.Saved? ensures txs[u].work.key != k { assert n[u] == txs[u]; }
    }
  }

  lemma SaveHolds(env: Env, s: State, n: State, t: nat, joined: bool, cmd: Command, version: nat, active: set<string>)
    requires t !in s.txs && (joined ==> cmd.DefinePath?) && Decides(env, s.history, cmd, version, active)
    requires n == s.(txs := s.txs[t := Tx(joined, Nothing, Clean)])
    ensures Unlocked(n.txs, Target(cmd)) <==> Unlocked(s.txs, Target(cmd))
    ensures Unlocked(s.txs, Target(cmd)) ==>
      Apply(env, n, Save(t, cmd, version, active))
      == s.(txs := s.txs[t := Tx(joined, Saving(env, s, cmd, version, active), Clean)], nextEvent := s.nextEvent + 1)
    ensures Doomed(s, Apply(env, n, SqlError(t)), t, joined)
  {
    hide Decides, Decide, Stored;
    UnlockedStill(s.txs, t, Tx(joined, Nothing, Clean), Target(cmd));
    assert n.txs[t := Tx(joined, Nothing, SqlFailed)] == s.txs[t := Tx(joined, Nothing, SqlFailed)];
    if Unlocked(s.txs, Target(cmd)) {
      hide Unlocked;
      SaveRuns(env, s, t, joined, cmd, version, active);
      assert Apply(env, s, Begin(t, joined)) == n;
    }
  }

  lemma Dooms(s: State, m: State, t: nat, tx: Tx)
    requires SameCommitted(s, m) && m.txs == s.txs[t := tx]
    requires !tx.fault.Clean? && (tx.joined ==> tx.fault.SqlFailed?)
    ensures Doomed(s, m, t, tx.joined)
  {}

  lemma InsertHolds(env: Env, s: State, t: nat, joined: bool, w: Work, i: nat)
    requires w.Saved? && w.ids == [] && w.rows == map[] && i < 2 && (joined ==> w.key.id != "")
    ensures var n := Writing(s, t, joined, w, i);
            && Enabled(env, n, Insert(t)) && n.txs[t].work.key == w.key
            && (w.key.id == "" ==> Doomed(s, Apply(env, n, Insert(t)), t, joined))
            && Doomed(s, Apply(env, n, SqlError(t)), t, joined)
  {
    hide Doomed;
    var n := Writing(s, t, joined, w, i);
    var x := Partly(w, s.nextId, i);
    assert n.txs[t := Tx(joined, x, SqlFailed)] == s.txs[t := Tx(joined, x, SqlFailed)];
    Dooms(s, Apply(env, n, SqlError(t)), t, Tx(joined, x, SqlFailed));
    if w.key.id == "" {
      assert n.txs[t := Tx(joined, x, EncodeFailed)] == s.txs[t := Tx(joined, x, EncodeFailed)];
      Dooms(s, Apply(env, n, Insert(t)), t, Tx(joined, x, EncodeFailed));
    }
  }

  // ---- serial runs as runs of the machine ----

  /** Each command that decides on a change, in its own transaction, one after another. */
  ghost function SerialSteps(env: Env, cmds: seq<Command>): seq<Step> {
    if cmds == [] then []
    else
      var before, cmd := SerialSteps(env, cmds[..|cmds| - 1]), cmds[|cmds| - 1];
      var s := Exec(env, EMPTY, before);
      var version, active := |Hist(s.history, Target(cmd))|, ActiveIds(s.store);
      if Target(cmd).id != "" && Decides(env, s.history, cmd, version, active) then before + WholeSteps(0, false, cmd, version, active)
      else before
  }

  ghost predicate HasRows(rows: map<nat, Row>, i: nat, e: Event) {
    && 2 * i in rows && rows[2 * i].msg.event == e && rows[2 * i].msg.topic == ENCODERS[0]
    && 2 * i + 1 in rows && rows[2 * i + 1].msg.event == e && rows[2 * i + 1].msg.topic == ENCODERS[1]
  }

  ghost predicate InStep(s: State, k: Key) {
    var h := Hist(s.history, k);
    Lookup(s.store, k) == Before(h, |h|) && Histories.Current(h)
  }

  /** Nothing is open, the store is the system's, its rows are the system's events in order, and no load was stale. */
  ghost predicate Mirrored(s: State, c: SerialRuns.System) {
    && s.store == c.store && s.txs == map[] && s.passes == map[]
    && s.nextId == 2 * |c.events| && (forall id: nat :: id in s.rows <==> id < 2 * |c.events|)
    && (forall i :: 0 <= i < |c.events| ==> HasRows(s.rows, i, c.events[i]))
    && (forall k :: InStep(s, k))
  }

  /** A serial step of the catalogue is the same write as one transaction run alone on what it loaded. */
  lemma SerialStepIsATransaction(env: Env, s: State, cmd: Command, events: seq<Event>)
    requires var h := Hist(s.history, Target(cmd)); Lookup(s.store, Target(cmd)) == Before(h, |h|)
    ensures var next := SerialRuns.Perform(env, SerialRuns.System(s.store, events), cmd);
            var version, active := |Hist(s.history, Target(cmd))|, ActiveIds(s.store);
            if Target(cmd).id != "" && Decides(env, s.history, cmd, version, active) then
              next == SerialRuns.System(AfterCommand(env, s, cmd, version, active).store, events + [Saving(env, s, cmd, version, active).event])
            else next == SerialRuns.System(s.store, events)
  {
    hide Decide, Stored;
  }

  lemma AddedRows(rows: map<nat, Row>, events: seq<Event>, w: Work)
    requires w.Saved? && forall id: nat :: id in rows <==> id < 2 * |events|
    requires forall i :: 0 <= i < |events| ==> HasRows(rows, i, events[i])
    ensures var n, all := rows + Whole(w, 2 * |events|).rows, events + [w.event];
            && (forall id: nat :: id in n <==> id < 2 * |all|)
            && forall i :: 0 <= i < |all| ==> HasRows(n, i, all[i])
  {
    var m := |events|;
    var n, all := rows + Whole(w, 2 * m).rows, events + [w.event];
    forall i | 0 <= i < |all| ensures HasRows(n, i, all[i]) {
      if i < m { assert HasRows(rows, i, events[i]) && all[i] == events[i]; }
    }
  }

  lemma AddedChange(env: Env, s: State, cmd: Command, version: nat, active: set<string>, k: Key)
    requires Decides(env, s.history, cmd, version, active) && version == |Hist(s.history, Target(cmd))| && InStep(s, k)
    ensures InStep(AfterCommand(env, s, cmd, version, active), k)
  {
    hide Decides, Decide, Stored;
  }

  lemma SerialStepHolds(env: Env, s: State, c: SerialRuns.System, cmd: Command)
    requires Mirrored(s, c)
    ensures var version, active := |Hist(s.history, Target(cmd))|, ActiveIds(s.store);
            var next := SerialRuns.Perform(env, c, cmd);
            if Target(cmd).id != "" && Decides(env, s.history, cmd, version, active) then
              Mirrored(Exec(env, s, WholeSteps(0, false, cmd, version, active)), next)
            else Mirrored(s, next)
  {
    hide Decides, Decide, Stored, SerialRuns.Perform, HasRows, Exec, InStep;
    var version, active := |Hist(s.history, Target(cmd))|, ActiveIds(s.store);
    LoadsLatest(s, Target(cmd));
    SerialStepIsATransaction(env, s, cmd, c.events);
    assert SerialRuns.System(s.store, c.events) == c;
    if Target(cmd).id != "" && Decides(env, s.history, cmd, version, active) {
      CommandRuns(env, s, 0, false, cmd, version, active);
      var w := Saving(env, s, cmd, version, active);
      AddedRows(s.rows, c.events, w);
      forall k ensures InStep(AfterCommand(env, s, cmd, version, active), k) {
        assert InStep(s, k);
        AddedChange(env, s, cmd, version, active, k);
      }
    }
  }

  lemma LoadsLatest(s: State, k: Key)
    requires forall x :: InStep(s, x)
    ensures var h := Hist(s.history, k); Lookup(s.store, k) == Before(h, |h|)
  {
    assert InStep(s, k);
  }

  /**
   Every serial run of use cases is a run of the machine, transaction by transaction: it leaves the same
   store, and its events are the rows of both topics, in order. What holds of serial runs holds there.
   */
  lemma {:induction false} SerialRunIsARun(env: Env, cmds: seq<Command>)
    ensures Mirrored(Exec(env, EMPTY, SerialSteps(env, cmds)), SerialRuns.PerformAll(env, cmds))
  {
    if cmds == [] {
      NothingRun(env);
    } else {
      var t, cmd := cmds[..|cmds| - 1], cmds[|cmds| - 1];
      SerialRunIsARun(env, t);
      var before := SerialSteps(env, t);
      var s := Exec(env, EMPTY, before);
      var version, active := |Hist(s.history, Target(cmd))|, ActiveIds(s.store);
      assert SerialRuns.PerformAll(env, cmds) == SerialRuns.Perform(env, SerialRuns.PerformAll(env, t), cmd);
      hide Exec, Decides, SerialRuns.Perform, SerialRuns.PerformAll, Mirrored, WholeSteps;
      SerialStepHolds(env, s, SerialRuns.PerformAll(env, t), cmd);
      ExecAppend(env, EMPTY, before, WholeSteps(0, false, cmd, version, active));
    }
  }

  lemma NothingRun(env: Env)
    ensures Mirrored(Exec(env, EMPTY, SerialSteps(env, [])), SerialRuns.PerformAll(env, []))
  {
    assert SerialSteps(env, []) == [];
    EmptyRun(env, EMPTY);
  }

  /** So in the machine too, after such a run, every stored schedule names only stored paths. */
  lemma StoredSchedulesNameStoredPaths(env: Env, cmds: seq<Command>, k: Key)
    requires TotalOrder(env.before)
    ensures SerialRuns.NamesStoredPaths(Exec(env, EMPTY, SerialSteps(env, cmds)).store, k)
  {
    hide Exec, SerialSteps, SerialRuns.PerformAll, SerialRuns.NamesStoredPaths;
    SerialRunIsARun(env, cmds);
    SerialRuns.SchedulesNameLivePaths(env, cmds);
  }
}
