/**
 The database and the broker as the service's code calls them. Every call may fail unless the world is
 calm, and every call is one step of the outbox machine (or none, when it fails without effect). Between
 calls others act, unless this caller is alone.
 */
module Infrastructure {
  import opened Shared
  import opened Catalogue
  import opened Outbox

  /** A step of somebody else: not of transaction `t`, of no relay unless others may relay, and no crash of this process. */
  predicate ForeignStep(e: Step, t: Option<nat>, relays: bool) {
    match e
    case Begin(tx, _) => t != Some(tx)
    case Save(tx, _, _, _) => t != Some(tx)
    case Insert(tx) => t != Some(tx)
    case SqlError(tx) => t != Some(tx)
    case Commit(tx) => t != Some(tx)
    case Rollback(tx) => t != Some(tx)
    case Crash => false
    case _ => relays
  }

  predicate Foreign(steps: seq<Step>, t: Option<nat>, relays: bool) {
    forall i :: 0 <= i < |steps| ==> ForeignStep(steps[i], t, relays)
  }

  class World {
    const env: Env
    const calm: bool
    const alone: bool
    var s: State

    constructor (env: Env, calm: bool, alone: bool)
      ensures s == EMPTY && this.env == env && this.calm == calm && this.alone == alone
    {
      this.env, this.calm, this.alone, s := env, calm, alone, EMPTY;
    }

    /** Others act, as many and whichever steps they like. */
    method Meanwhile(t: Option<nat>, relays: bool) returns (others: seq<Step>)
      modifies this
      ensures s == Exec(env, old(s), others) && Foreign(others, t, relays)
      ensures alone ==> others == []
    {
      others := *;
      if alone || !Foreign(others, t, relays) { others := []; }
      s := Exec(env, s, others);
    }

    method Strikes() returns (fault: bool)
      ensures calm ==> !fault
    {
      fault := *;
      if calm { fault := false; }
    }

    /** Begin and claim; a fault leaves nothing behind. */
    method Claim(p: nat, limit: nat) returns (claimed: bool)
      requires p !in s.passes
      modifies this
      ensures s == if claimed then Apply(env, old(s), Step.Claim(p, limit)) else old(s)
      ensures calm ==> claimed
    {
      var fault := Strikes();
      if fault { return false; }
      s := s.(passes := s.passes[p := Pass(Scan(s.rows, Locked(s.passes), 0, s.nextId, limit), 0, Ready)]);
      return true;
    }

    /** `sink.Send`: a reported failure may or may not have reached the topic. */
    method Send(p: nat) returns (ok: bool, ghost e: Step)
      requires Enabled(env, s, Ack(p))
      modifies this
      ensures s == Apply(env, old(s), e) && e == (if ok then Ack(p) else Fail(p, e.Fail? && e.delivered))
      ensures calm ==> ok
    {
      var id := s.passes[p].batch[s.passes[p].done];
      var fault := Strikes();
      if fault {
        var delivered := Strikes();
        s := s.(passes := s.passes[p := s.passes[p].(stage := Failed)], log := if delivered then s.log + [s.rows[id].msg] else s.log);
        return false, Fail(p, delivered);
      }
      s := s.(passes := s.passes[p := s.passes[p].(stage := Acked)], log := s.log + [s.rows[id].msg], acked := s.acked + {id});
      return true, Ack(p);
    }

    method Mark(p: nat) returns (ok: bool)
      requires Enabled(env, s, Step.Mark(p))
      modifies this
      ensures s == if ok then Apply(env, old(s), Step.Mark(p)) else old(s)
      ensures calm ==> ok
    {
      var fault := Strikes();
      if fault { return false; }
      s := s.(passes := s.passes[p := s.passes[p].(stage := Ready, done := s.passes[p].done + 1)]);
      return true;
    }

    method Note(p: nat) returns (ok: bool)
      requires Enabled(env, s, Step.Note(p))
      modifies this
      ensures s == if ok then Apply(env, old(s), Step.Note(p)) else old(s)
    {
      var fault := Strikes();
      if fault { return false; }
      s := s.(passes := s.passes[p := s.passes[p].(stage := Noted)]);
      return true;
    }

    /** COMMIT: done and acknowledged, done but reported as an error, or not done. */
    method Close(p: nat) returns (ok: bool, ghost e: Step)
      requires Enabled(env, s, Step.Close(p))
      modifies this
      ensures s == Apply(env, old(s), e) && (e == Step.Close(p) || e == Step.Abandon(p)) && (ok ==> e == Step.Close(p))
      ensures calm ==> ok
    {
      var lost := Strikes();
      var undone := Strikes();
      if undone {
        s := s.(passes := s.passes - {p});
        return false, Step.Abandon(p);
      }
      s := s.(passes := s.passes - {p}, rows := Settled(s.rows, s.passes[p]));
      return !lost, Step.Close(p);
    }

    method Abandon(p: nat)
      requires p in s.passes
      modifies this
      ensures s == Apply(env, old(s), Step.Abandon(p))
    {
      s := s.(passes := s.passes - {p});
    }

    // ---- command transactions ----

    method Begin(t: nat, joined: bool) returns (ok: bool)
      requires t !in s.txs
      modifies this
      ensures s == if ok then Apply(env, old(s), Step.Begin(t, joined)) else old(s)
      ensures calm ==> ok
    {
      var fault := Strikes();
      if fault { return false; }
      s := s.(txs := s.txs[t := Tx(joined, Nothing, Clean)]);
      return true;
    }

    /** A repository's load, through the pool or through the bound transaction, which an error poisons; `version` is a history variable. */
    method Find(bound: Option<nat>, k: Key) returns (ok: bool, found: Option<Value>, version: nat, ghost trace: seq<Step>)
      requires bound.Some? ==> bound.value in s.txs
      modifies this
      ensures ok ==> s == old(s) && found == Lookup(s.store, k) && version == |Hist(s.history, k)| && trace == []
      ensures !ok && bound.None? ==> s == old(s) && trace == []
      ensures !ok && bound.Some? ==> s == Apply(env, old(s), SqlError(bound.value)) && trace == [SqlError(bound.value)]
      ensures calm ==> ok
    {
      var fault := Strikes();
      if !fault { return true, Lookup(s.store, k), |Hist(s.history, k)|, []; }
      if bound.None? { return false, None, 0, []; }
      s := s.(txs := s.txs[bound.value := s.txs[bound.value].(fault := SqlFailed)]);
      return false, None, 0, [SqlError(bound.value)];
    }

    /**
     A repository's `Save` of a value decided on an earlier load. It waits for the row lock, and errs when the
     wait outlasts the statement. The event is what the use case will publish next in this transaction.
     */
    method Save(t: nat, v: Value, e: Event, version: nat, ghost cmd: Command, ghost active: set<string>) returns (ok: bool)
      requires t in s.txs && s.txs[t].work.Nothing? && s.txs[t].fault.Clean? && (s.txs[t].joined ==> cmd.DefinePath?)
      requires Decides(env, s.history, cmd, version, active) && KeyOfValue(v) == Target(cmd)
      requires Decide(env, cmd, Before(Hist(s.history, Target(cmd)), version), active) == Changed(v, e)
      modifies this
      ensures s == Apply(env, old(s), if ok then Step.Save(t, cmd, version, active) else SqlError(t))
      ensures ok ==> Unlocked(old(s).txs, Target(cmd))
      ensures calm && Unlocked(old(s).txs, Target(cmd)) ==> ok
    {
      var fault := Strikes();
      var k := KeyOfValue(v);
      if fault || !Unlocked(s.txs, k) {
        s := s.(txs := s.txs[t := s.txs[t].(fault := SqlFailed)]);
        return false;
      }
      var w := Saved(k, Stored(env, Lookup(s.store, k), v), e, s.nextEvent, |Hist(s.history, k)|, [], map[], version);
      s := s.(txs := s.txs[t := s.txs[t].(work := w)], nextEvent := s.nextEvent + 1);
      return true;
    }

    /** One encoder: encode, then INSERT. */
    method Insert(t: nat) returns (ok: bool, ghost e: Step)
      requires Enabled(env, s, Step.Insert(t))
      modifies this
      ensures s == Apply(env, old(s), e) && (e == Step.Insert(t) || e == SqlError(t))
      ensures ok <==> e.Insert? && old(s).txs[t].work.key.id != ""
      ensures calm ==> e.Insert?
    {
      var subject := s.txs[t].work.key.id;
      var fault := Strikes();
      if subject != "" && fault {
        s := s.(txs := s.txs[t := s.txs[t].(fault := SqlFailed)]);
        return false, SqlError(t);
      }
      s := Inserted(s, t);
      return subject != "", Step.Insert(t);
    }

    method Commit(t: nat) returns (ok: bool, ghost e: Step)
      requires Enabled(env, s, Step.Commit(t))
      modifies this
      ensures s == Apply(env, old(s), e) && (e == Step.Commit(t) || e == Step.Rollback(t)) && (ok ==> e == Step.Commit(t))
      ensures calm ==> ok
    {
      var lost := Strikes();
      var undone := Strikes();
      if undone {
        s := s.(txs := s.txs - {t});
        return false, Step.Rollback(t);
      }
      s := Committed(s, t);
      return !lost, Step.Commit(t);
    }

    method Rollback(t: nat)
      requires t in s.txs
      modifies this
      ensures s == Apply(env, old(s), Step.Rollback(t))
    {
      s := s.(txs := s.txs - {t});
    }
  }
}
