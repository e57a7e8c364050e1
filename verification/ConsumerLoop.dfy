/** The consume loop as the code runs it: each call to a store, a broker or the reader is a step of the machine. */
module ConsumerLoop {
  import opened Shared
  import opened Analytics
  import opened Consumer

  lemma {:induction false} ExecAppend(s: State, a: seq<Step>, b: seq<Step>)
    ensures Exec(s, a + b) == Exec(Exec(s, a), b)
    decreases |a|
  {
    hide Apply;
    if a == [] {
      assert a + b == b;
    } else {
      assert (a + b)[0] == a[0] && (a + b)[1..] == a[1..] + b;
      ExecAppend(Apply(s, a[0]), a[1..], b);
    }
  }

  lemma Steps(s: State, a: seq<Step>, e: Step)
    ensures Exec(s, []) == s && Exec(s, [e]) == Apply(s, e)
    ensures Exec(s, a + [e]) == Apply(Exec(s, a), e)
  {
    hide Apply;
    assert [e][1..] == [];
    assert Exec(Apply(s, e), []) == Apply(s, e);
    ExecAppend(s, a, [e]);
    assert Exec(Apply(Exec(s, a), e), []) == Apply(Exec(s, a), e);
  }

  /** `n` is `s` but for the worker and what handling the message at `pos` may add: its own event only. */
  ghost predicate Handled(s: State, n: State, pos: nat)
    requires pos < |s.log|
  {
    && n.log == s.log && s.applied <= n.applied && |n.applied| <= |s.applied| + MAX_ATTEMPTS
    && (n.dlq == s.dlq || n.dlq == s.dlq + [pos])
    && (s.log[pos].Projecting? ==>
          && (n.consumed == s.consumed || n.consumed == s.consumed + {s.log[pos].delivery.id})
          && forall i :: |s.applied| <= i < |n.applied| ==> n.applied[i] == s.log[pos].delivery)
    && (!s.log[pos].Projecting? ==> n.consumed == s.consumed && n.applied == s.applied)
  }

  /** The message's event while the stores are healthy. */
  ghost predicate Smoothly(s: State, n: State, pos: nat)
    requires pos < |s.log|
  {
    match s.log[pos]
    case Junk => n == s.(worker := n.worker, offset := n.offset, dlq := s.dlq + [pos])
    case Other => n == s.(worker := n.worker, offset := n.offset)
    case Projecting(d) =>
      if d.id in s.consumed then n == s.(worker := n.worker, offset := n.offset)
      else n == s.(worker := n.worker, offset := n.offset, consumed := s.consumed + {d.id}, applied := s.applied + [d])
  }

  /** The stores, the dead-letter topic and the group's offset. Every call may fail unless the world is calm. */
  class World {
    const calm: bool
    const alone: bool
    var s: State

    constructor (calm: bool, alone: bool)
      ensures s == EMPTY && this.calm == calm && this.alone == alone
    {
      this.calm, this.alone, s := calm, alone, EMPTY;
    }

    /** Any number of messages of any kind arrive, unless the consumer is alone. */
    method Arrive() returns (ghost trace: seq<Step>)
      modifies this
      ensures s == Exec(old(s), trace) && s == old(s).(log := s.log) && old(s).log <= s.log
      ensures alone ==> s == old(s)
    {
      hide Exec;
      ghost var s0 := s;
      trace := [];
      Steps(s0, [], Crash);
      var count: int := *;
      if alone || count < 0 { count := 0; }
      for i := 0 to count
        invariant s == Exec(s0, trace) && s == s0.(log := s.log) && s0.log <= s.log && (count == 0 ==> s == s0)
      {
        var content := *;
        Steps(s0, trace, Append(content));
        trace := trace + [Append(content)];
        Do(Append(content));
      }
    }

    method Strikes() returns (fault: bool)
      ensures calm ==> !fault
    {
      fault := *;
      if calm { fault := false; }
    }

    method Do(e: Step)
      modifies this
      ensures s == Apply(old(s), e)
    {
      s := Apply(s, e);
    }
  }

  class AnalyticsConsumer {
    const world: World

    constructor (world: World)
      ensures this.world == world
    {
      this.world := world;
    }

    /** Up to three attempts; a result is whether the id was new, an exhausted budget is none. */
    method MarkProcessedWithRetry(pos: nat, id: nat) returns (isNew: Option<bool>, ghost trace: seq<Step>)
      requires world.s.worker == Busy(pos, Marking, 0, false) && pos < |world.s.log|
      requires world.s.log[pos].Projecting? && world.s.log[pos].delivery.id == id
      modifies world
      ensures world.s == Exec(old(world.s), trace) && |trace| <= 3
      ensures old(world.s).(worker := world.s.worker, consumed := world.s.consumed, stranded := world.s.stranded) == world.s
      ensures world.s.consumed == old(world.s).consumed || world.s.consumed == old(world.s).consumed + {id}
      ensures world.s.worker == (match isNew
                case None => Busy(pos, DeadLettering, 0, world.s.worker.Busy? && world.s.worker.marked)
                case Some(true) => Busy(pos, Applying, 0, true)
                case Some(false) => Busy(pos, Committing, 0, false))
      ensures isNew == Some(true) ==> id !in old(world.s).consumed
      ensures forall i :: 0 <= i < |trace| - 1 ==> trace[i].MarkFails? && !trace[i].giveUp
      ensures isNew.None? ==> trace != [] && var last := trace[|trace| - 1]; last.MarkFails? && (|trace| == 3 || last.giveUp)
      ensures world.calm ==> isNew == Some(id !in old(world.s).consumed) && world.s.consumed == old(world.s).consumed + {id}
                             && world.s.stranded == old(world.s).stranded
    {
      hide Exec;
      ghost var s0 := world.s;
      trace := [];
      Steps(s0, [], Crash);
      for attempt := 0 to MAX_ATTEMPTS
        invariant world.s == Exec(s0, trace) && |trace| == attempt
        invariant s0.(worker := world.s.worker, consumed := world.s.consumed) == world.s
        invariant world.s.consumed == s0.consumed || world.s.consumed == s0.consumed + {id}
        invariant world.s.worker.Busy? && world.s.worker.pos == pos
        invariant world.s.worker.phase == (if attempt < MAX_ATTEMPTS then Marking else DeadLettering)
        invariant world.s.worker.tries == (if attempt < MAX_ATTEMPTS then attempt else 0)
        invariant forall i :: 0 <= i < attempt ==> trace[i].MarkFails? && !trace[i].giveUp
        invariant world.calm ==> attempt == 0 && world.s == s0
      {
        var fault := world.Strikes();
        if !fault {
          isNew := Some(id !in world.s.consumed);
          Steps(s0, trace, MarkReturns);
          CalmLoose(world.s);
          world.Do(MarkReturns);
          return isNew, trace + [MarkReturns];
        }
        var recorded, ended := *, *;
        Steps(s0, trace, MarkFails(recorded, ended));
        world.Do(MarkFails(recorded, ended));
        trace := trace + [MarkFails(recorded, ended)];
        if ended { return None, trace; }
      }
      return None, trace;
    }

    /** Up to three apply transactions, each whole or not at all. */
    method ApplyProjectionWithRetry(pos: nat, d: Delivery) returns (ok: bool, ghost trace: seq<Step>)
      requires world.s.worker == Busy(pos, Applying, 0, true) && pos < |world.s.log| && world.s.log[pos] == Projecting(d)
      modifies world
      ensures world.s == Exec(old(world.s), trace) && |trace| <= 3
      ensures old(world.s).(worker := world.s.worker, applied := world.s.applied) == world.s
      ensures Repeats(old(world.s).applied, world.s.applied, d, MAX_ATTEMPTS)
      ensures world.s.worker == Busy(pos, if ok then Committing else DeadLettering, 0, true)
      ensures ok ==> |world.s.applied| > |old(world.s).applied|
      ensures forall i :: 0 <= i < |trace| - 1 ==> trace[i].ApplyFails? && !trace[i].giveUp
      ensures !ok ==> trace != [] && var last := trace[|trace| - 1]; last.ApplyFails? && (|trace| == 3 || last.giveUp)
      ensures world.calm ==> ok && world.s.applied == old(world.s).applied + [d]
    {
      hide Exec;
      ghost var s0 := world.s;
      trace := [];
      Steps(s0, [], Crash);
      for attempt := 0 to MAX_ATTEMPTS
        invariant world.s == Exec(s0, trace) && |trace| == attempt
        invariant s0.(worker := world.s.worker, applied := world.s.applied) == world.s
        invariant Repeats(s0.applied, world.s.applied, d, attempt)
        invariant forall i :: 0 <= i < attempt ==> trace[i].ApplyFails? && !trace[i].giveUp
        invariant world.s.worker == if attempt < MAX_ATTEMPTS then Busy(pos, Applying, attempt, true) else Busy(pos, DeadLettering, 0, true)
        invariant world.calm ==> attempt == 0 && world.s == s0
      {
        var fault := world.Strikes();
        if !fault {
          Steps(s0, trace, ApplyReturns);
          world.Do(ApplyReturns);
          return true, trace + [ApplyReturns];
        }
        var counted, ended := *, *;
        Steps(s0, trace, ApplyFails(counted, ended));
        world.Do(ApplyFails(counted, ended));
        trace := trace + [ApplyFails(counted, ended)];
        if ended { return false, trace; }
      }
      return false, trace;
    }

    /** `writeDLQ`: forty attempts while the topic is being created; any other error is final. */
    method WriteDLQ(pos: nat) returns (ok: bool, ghost trace: seq<Step>)
      requires world.s.worker.Busy? && pos < |world.s.log|
      requires world.s.worker == Busy(pos, DeadLettering, 0, world.s.worker.marked)
      modifies world
      ensures world.s == Exec(old(world.s), trace) && |trace| <= 40
      ensures old(world.s).(worker := world.s.worker, dlq := world.s.dlq, stranded := world.s.stranded) == world.s
      ensures world.s.dlq == old(world.s).dlq + [pos] || (!ok && world.s.dlq == old(world.s).dlq)
      ensures world.s.worker == if ok then Busy(pos, Committing, 0, old(world.s.worker.marked)) else Stopped
      ensures ok ==> world.s.stranded == old(world.s).stranded
      ensures forall i :: 0 <= i < |trace| - 1 ==> trace[i].DlqNotReady? && !trace[i].giveUp
      ensures !ok ==> trace != [] && var last := trace[|trace| - 1]; last.DlqFails? || (last.DlqNotReady? && (|trace| == 40 || last.giveUp))
      ensures world.calm ==> ok
    {
      hide Exec, Loose;
      ghost var s0 := world.s;
      trace := [];
      Steps(s0, [], Crash);
      for attempt := 0 to DLQ_ATTEMPTS
        invariant world.s == Exec(s0, trace) && |trace| == attempt
        invariant s0.(worker := world.s.worker, stranded := world.s.stranded) == world.s
        invariant attempt < DLQ_ATTEMPTS ==> world.s.stranded == s0.stranded
        invariant forall i :: 0 <= i < attempt ==> trace[i].DlqNotReady? && !trace[i].giveUp
        invariant world.s.worker == if attempt < DLQ_ATTEMPTS then Busy(pos, DeadLettering, attempt, s0.worker.marked) else Stopped
        invariant world.calm ==> attempt == 0
      {
        var fault := world.Strikes();
        if !fault {
          Steps(s0, trace, DlqReturns);
          world.Do(DlqReturns);
          return true, trace + [DlqReturns];
        }
        var notReady := *;
        if !notReady {
          var delivered := *;
          Steps(s0, trace, DlqFails(delivered));
          world.Do(DlqFails(delivered));
          return false, trace + [DlqFails(delivered)];
        }
        var ended := *;
        Steps(s0, trace, DlqNotReady(ended));
        world.Do(DlqNotReady(ended));
        trace := trace + [DlqNotReady(ended)];
        if ended { return false, trace; }
      }
      return false, trace;
    }

    method Commit(pos: nat) returns (ok: bool, ghost trace: seq<Step>)
      requires world.s.worker.Busy? && pos < |world.s.log|
      requires world.s.worker == Busy(pos, Committing, 0, world.s.worker.marked)
      modifies world
      ensures world.s == Exec(old(world.s), trace)
      ensures old(world.s).(worker := world.s.worker, offset := world.s.offset, stranded := world.s.stranded) == world.s
      ensures ok ==> world.s == old(world.s).(worker := Idle(pos + 1), offset := pos + 1)
      ensures !ok ==> world.s.worker == Stopped && world.s.offset in {old(world.s).offset, pos + 1}
      ensures world.calm ==> ok
    {
      hide Exec, Loose;
      Steps(world.s, [], OffsetCommits);
      var fault := world.Strikes();
      if !fault {
        world.Do(OffsetCommits);
        return true, [OffsetCommits];
      }
      var recorded := *;
      Steps(world.s, [], OffsetFails(recorded));
      world.Do(OffsetFails(recorded));
      return false, [OffsetFails(recorded)];
    }

    /** The raw message goes to the dead-letter topic, and only then is its offset committed. */
    method DeadLetterAndCommit(pos: nat) returns (ok: bool, ghost trace: seq<Step>)
      requires world.s.worker.Busy? && pos < |world.s.log|
      requires world.s.worker == Busy(pos, DeadLettering, 0, world.s.worker.marked)
      modifies world
      ensures world.s == Exec(old(world.s), trace)
      ensures old(world.s).(worker := world.s.worker, offset := world.s.offset, dlq := world.s.dlq, stranded := world.s.stranded) == world.s
      ensures world.s.dlq == old(world.s).dlq + [pos] || (!ok && world.s.dlq == old(world.s).dlq)
      ensures world.s.worker == if ok then Idle(pos + 1) else Stopped
      ensures ok ==> world.s.offset == pos + 1 && world.s.stranded == old(world.s).stranded
      ensures world.calm ==> ok
    {
      hide Exec;
      ghost var s0, tail := world.s, [];
      ok, trace := WriteDLQ(pos);
      if !ok { return; }
      ok, tail := Commit(pos);
      ExecAppend(s0, trace, tail);
      trace := trace + tail;
    }

    /** One fetched message, from the decode to its committed offset, or to the error that stops the loop. */
    method HandleFetchedMessage(pos: nat) returns (ok: bool, ghost trace: seq<Step>)
      requires Inv(world.s) && pos < |world.s.log| && world.s.worker == Busy(pos, First(world.s.log[pos]), 0, false)
      modifies world
      ensures world.s == Exec(old(world.s), trace) && Inv(world.s)
      ensures Handled(old(world.s), world.s, pos)
      ensures if ok then world.s.worker == Idle(pos + 1) && world.s.offset == pos + 1 && PastOk(world.s, pos) else world.s.worker == Stopped
      ensures world.calm ==> ok && Smoothly(old(world.s), world.s, pos)
    {
      hide Exec, Inv, PastOk;
      ghost var s0, tail := world.s, [];
      match world.s.log[pos] {
        case Junk =>
          ok, trace := DeadLetterAndCommit(pos);
        case Other =>
          ok, trace := Commit(pos);
        case Projecting(d) =>
          var isNew;
          isNew, trace := MarkProcessedWithRetry(pos, d.id);
          if isNew.None? {
            ok, tail := DeadLetterAndCommit(pos);
          } else if !isNew.value {
            ok, tail := Commit(pos);
          } else {
            ok, tail := ApplyAndCommit(pos, d);
          }
          ExecAppend(s0, trace, tail);
          trace := trace + tail;
      }
      RunKeeps(s0, trace);
      if ok { Passes(world.s, pos); }
    }

    method ApplyAndCommit(pos: nat, d: Delivery) returns (ok: bool, ghost trace: seq<Step>)
      requires world.s.worker == Busy(pos, Applying, 0, true) && pos < |world.s.log| && world.s.log[pos] == Projecting(d)
      modifies world
      ensures world.s == Exec(old(world.s), trace)
      ensures world.s == old(world.s).(worker := world.s.worker, applied := world.s.applied, dlq := world.s.dlq,
                                       offset := world.s.offset, stranded := world.s.stranded)
      ensures Repeats(old(world.s).applied, world.s.applied, d, MAX_ATTEMPTS)
      ensures world.s.dlq == old(world.s).dlq || world.s.dlq == old(world.s).dlq + [pos]
      ensures world.s.worker == if ok then Idle(pos + 1) else Stopped
      ensures ok ==> world.s.offset == pos + 1
      ensures world.calm ==> ok && world.s == old(world.s).(worker := Idle(pos + 1), offset := pos + 1, applied := old(world.s).applied + [d])
    {
      hide Exec;
      ghost var s0, tail := world.s, [];
      var done;
      done, trace := ApplyProjectionWithRetry(pos, d);
      if done {
        ok, tail := Commit(pos);
      } else {
        ok, tail := DeadLetterAndCommit(pos);
      }
      ExecAppend(s0, trace, tail);
      trace := trace + tail;
    }

    /**
     Fetches and handles messages, while more arrive, until the context ends (after `budget` fetches), a fetch
     fails or handling does.
     */
    method Run(budget: nat) returns (failed: bool, ghost trace: seq<Step>)
      requires Inv(world.s) && world.s.worker.Idle?
      modifies world
      ensures world.s == Exec(old(world.s), trace) && Inv(world.s) && old(world.s).log <= world.s.log
      ensures failed <==> world.s.worker.Stopped?
      ensures !failed ==> world.s.worker.Idle? && world.s.worker.pos >= old(world.s).worker.pos
      ensures !failed && world.s.worker.pos > old(world.s).worker.pos ==> world.s.offset == world.s.worker.pos
      ensures world.calm ==> !failed && world.s.stranded == old(world.s).stranded
      ensures world.calm ==> world.s.worker.pos >= |old(world.s).log| || world.s.worker.pos >= old(world.s).worker.pos + budget
      ensures world.calm && world.alone && budget >= |old(world.s).log| ==> world.s.worker == Idle(|world.s.log|)
    {
      hide Exec, Inv, Handled, PastOk, Smoothly, Loose, First;
      ghost var s0, tail := world.s, [];
      Steps(s0, [], Fetch);
      trace := [];
      var left := budget;
      while left > 0
        invariant left <= budget && Inv(world.s) && world.s.worker.Idle? && s0.log <= world.s.log && world.s == Exec(s0, trace)
        invariant world.s.worker.pos >= s0.worker.pos && (world.s.worker.pos > s0.worker.pos ==> world.s.offset == world.s.worker.pos)
        invariant world.calm ==> world.s.stranded == s0.stranded
        invariant world.alone ==> world.s.log == s0.log
        invariant world.calm && world.s.worker.pos < |s0.log| ==> left + world.s.worker.pos == budget + s0.worker.pos
      {
        InsideLog(world.s);
        ghost var s1 := world.s;
        tail := world.Arrive();
        RunKeeps(s1, tail);
        ExecAppend(s0, trace, tail);
        trace := trace + tail;
        left := left - 1;
        if world.s.worker.pos == |world.s.log| { continue; }
        var fault := world.Strikes();
        if fault {
          Steps(s0, trace, Crash);
          StepKeeps(world.s, Crash);
          world.Do(Crash);
          return true, trace + [Crash];
        }
        var pos := world.s.worker.pos;
        InsideLog(world.s);
        Steps(s0, trace, Fetch);
        StepKeeps(world.s, Fetch);
        world.Do(Fetch);
        trace := trace + [Fetch];
        ghost var s2 := world.s;
        var ok;
        ok, tail := HandleFetchedMessage(pos);
        LogStays(s2, world.s, pos);
        if world.calm { StrandsNothing(s2, world.s, pos); }
        ExecAppend(s0, trace, tail);
        trace := trace + tail;
        if !ok { return true, trace; }
      }
      InsideLog(world.s);
      return false, trace;
    }
  }

  lemma Passes(s: State, pos: nat)
    requires Inv(s) && s.worker == Idle(pos + 1)
    ensures PastOk(s, pos)
  {}

  lemma InsideLog(s: State)
    requires Inv(s) && s.worker.Idle?
    ensures s.worker.pos <= |s.log|
  {}

  lemma StrandsNothing(s: State, n: State, pos: nat)
    requires pos < |s.log| && Smoothly(s, n, pos)
    ensures n.stranded == s.stranded
  {}

  lemma LogStays(s: State, n: State, pos: nat)
    requires pos < |s.log| && Handled(s, n, pos)
    ensures n.log == s.log
  {}

  /** `b` is `a` followed by at most `n` times `d`. */
  ghost predicate Repeats(a: seq<Delivery>, b: seq<Delivery>, d: Delivery, n: nat) {
    a <= b && |b| <= |a| + n && forall i :: |a| <= i < |b| ==> b[i] == d
  }

  lemma CalmLoose(s: State)
    ensures s.worker.Busy? && !s.worker.marked ==> Loose(s) == {}
  {}
}
