/** What others' steps leave alone: a transaction that has not written yet, and the order of committed changes. */
module Interference {
  import opened Shared
  import opened Catalogue
  import opened Outbox
  import opened Infrastructure
  import Commands

  /** `s` with transaction `t` begun and nothing written. */
  function Begun(s: State, t: nat, joined: bool): State { s.(txs := s.txs[t := Tx(joined, Nothing, Clean)]) }

  lemma SwapUpdates(txs: map<nat, Tx>, t: nat, x: Tx, u: nat, y: Tx)
    requires u != t
    ensures txs[t := x][u := y] == txs[u := y][t := x]
    ensures txs[t := x] - {u} == (txs - {u})[t := x]
  {}

  lemma BeginCommutes(env: Env, s: State, t: nat, joined: bool, e: Step)
    requires t !in s.txs && e.Begin? && e.tx != t
    ensures Apply(env, Begun(s, t, joined), e) == Begun(Apply(env, s, e), t, joined) && t !in Apply(env, s, e).txs
  {
    SwapUpdates(s.txs, t, Tx(joined, Nothing, Clean), e.tx, Tx(e.joined, Nothing, Clean));
  }

  lemma RollbackCommutes(env: Env, s: State, t: nat, joined: bool, e: Step)
    requires t !in s.txs && e.Rollback? && e.tx != t
    ensures Apply(env, Begun(s, t, joined), e) == Begun(Apply(env, s, e), t, joined) && t !in Apply(env, s, e).txs
  {
    SwapUpdates(s.txs, t, Tx(joined, Nothing, Clean), e.tx, Tx(joined, Nothing, Clean));
  }

  lemma ErrorCommutes(env: Env, s: State, t: nat, joined: bool, e: Step)
    requires t !in s.txs && e.SqlError? && e.tx != t
    ensures Apply(env, Begun(s, t, joined), e) == Begun(Apply(env, s, e), t, joined) && t !in Apply(env, s, e).txs
  {
    if e.tx in s.txs { SwapUpdates(s.txs, t, Tx(joined, Nothing, Clean), e.tx, s.txs[e.tx].(fault := SqlFailed)); }
  }

  lemma InsertCommutes(env: Env, s: State, t: nat, joined: bool, e: Step)
    requires t !in s.txs && e.Insert? && e.tx != t
    ensures Apply(env, Begun(s, t, joined), e) == Begun(Apply(env, s, e), t, joined) && t !in Apply(env, s, e).txs
  {
    if Enabled(env, s, e) { SwapUpdates(s.txs, t, Tx(joined, Nothing, Clean), e.tx, Inserted(s, e.tx).txs[e.tx]); }
  }

  lemma SavingIgnores(env: Env, s: State, txs: map<nat, Tx>, cmd: Command, version: nat, active: set<string>)
    requires Decides(env, s.history, cmd, version, active)
    ensures Saving(env, s.(txs := txs), cmd, version, active) == Saving(env, s, cmd, version, active)
  {
    hide Decide, Stored;
  }

  lemma SaveCommutes(env: Env, s: State, t: nat, joined: bool, e: Step)
    requires t !in s.txs && e.Save? && e.tx != t
    ensures Apply(env, Begun(s, t, joined), e) == Begun(Apply(env, s, e), t, joined) && t !in Apply(env, s, e).txs
  {
    hide Decides, Saving, Unlocked;
    var x := Tx(joined, Nothing, Clean);
    Commands.UnlockedStill(s.txs, t, x, Target(e.cmd));
    if Enabled(env, s, e) {
      SavingIgnores(env, s, s.txs[t := x], e.cmd, e.version, e.active);
      SwapUpdates(s.txs, t, x, e.tx, s.txs[e.tx].(work := Saving(env, s, e.cmd, e.version, e.active)));
    }
  }

  lemma CommitCommutes(env: Env, s: State, t: nat, joined: bool, e: Step)
    requires t !in s.txs && e.Commit? && e.tx != t
    ensures Apply(env, Begun(s, t, joined), e) == Begun(Apply(env, s, e), t, joined) && t !in Apply(env, s, e).txs
  {
    var x := Tx(joined, Nothing, Clean);
    SwapUpdates(s.txs, t, x, e.tx, x);
  }

  lemma RelayCommutes(env: Env, s: State, t: nat, joined: bool, e: Step)
    requires t !in s.txs && (e.Claim? || e.Ack? || e.Fail? || e.Mark? || e.Note? || e.Close? || e.Abandon?)
    ensures Apply(env, Begun(s, t, joined), e) == Begun(Apply(env, s, e), t, joined) && t !in Apply(env, s, e).txs
  {
    hide Scan, Settled, Locked;
  }

  lemma StepCommutes(env: Env, s: State, t: nat, joined: bool, e: Step)
    requires t !in s.txs && ForeignStep(e, Some(t), true)
    ensures Apply(env, Begun(s, t, joined), e) == Begun(Apply(env, s, e), t, joined) && t !in Apply(env, s, e).txs
  {
    hide Apply;
    if e.Save? { SaveCommutes(env, s, t, joined, e); }
    else if e.Commit? { CommitCommutes(env, s, t, joined, e); }
    else if e.Begin? { BeginCommutes(env, s, t, joined, e); }
    else if e.Insert? { InsertCommutes(env, s, t, joined, e); }
    else if e.SqlError? { ErrorCommutes(env, s, t, joined, e); }
    else if e.Rollback? { RollbackCommutes(env, s, t, joined, e); }
    else { RelayCommutes(env, s, t, joined, e); }
  }

  /** Others cannot tell a transaction that has written nothing, nor end it. */
  lemma {:induction false} OthersCommute(env: Env, s: State, t: nat, joined: bool, others: seq<Step>)
    requires t !in s.txs && Foreign(others, Some(t), true)
    ensures Exec(env, Begun(s, t, joined), others) == Begun(Exec(env, s, others), t, joined) && t !in Exec(env, s, others).txs
    decreases |others|
  {
    hide Apply, ForeignStep;
    if others != [] {
      assert ForeignStep(others[0], Some(t), true);
      StepCommutes(env, s, t, joined, others[0]);
      OthersCommute(env, Apply(env, s, others[0]), t, joined, others[1..]);
    }
  }

  lemma StepAddsChanges(env: Env, s: State, e: Step, k: Key)
    ensures Hist(s.history, k) <= Hist(Apply(env, s, e).history, k)
  {
    hide Decides, Scan, Settled, Unlocked;
  }

  /** Committed changes stay as they are, whoever goes on. */
  lemma {:induction false} ChangesStay(env: Env, s: State, steps: seq<Step>, k: Key)
    ensures Hist(s.history, k) <= Hist(Exec(env, s, steps).history, k)
    decreases |steps|
  {
    hide Apply, Hist;
    if steps != [] {
      StepAddsChanges(env, s, steps[0], k);
      ChangesStay(env, Apply(env, s, steps[0]), steps[1..], k);
    }
  }

  /** So a decision on what was loaded is still one the machine lets through. */
  lemma StillDecides(env: Env, s: State, others: seq<Step>, cmd: Command, active: set<string>)
    requires var h := Hist(s.history, Target(cmd)); Lookup(s.store, Target(cmd)) == Before(h, |h|)
    requires Decide(env, cmd, Lookup(s.store, Target(cmd)), active).Changed?
    ensures var n, version := Exec(env, s, others), |Hist(s.history, Target(cmd))|;
            Decides(env, n.history, cmd, version, active)
            && Before(Hist(n.history, Target(cmd)), version) == Lookup(s.store, Target(cmd))
  {
    hide Exec, Decide;
    ChangesStay(env, s, others, Target(cmd));
    var h, n := Hist(s.history, Target(cmd)), Hist(Exec(env, s, others).history, Target(cmd));
    if h != [] { assert n[|h| - 1] == h[|h| - 1]; }
  }
}
