/**
 The analytics consumer as a step machine (internal/adapters/inbound/kafka/analytics_consumer.go): one
 partition of the analytics topic, the dedupe gate and the projection as two separate stores, the
 dead-letter topic, and a process that may stop and start anywhere. A step that is not enabled changes nothing.
 */
module Consumer {
  import opened Shared
  import opened Analytics

  /** Junk is not a CloudEvent; other events do not concern the projection. */
  datatype Content = Junk | Other | Projecting(delivery: Delivery)

  const MAX_ATTEMPTS := 3
  const DLQ_ATTEMPTS := 40

  datatype Phase = Marking | Applying | DeadLettering | Committing

  /** The fetched message at `pos`. `marked` is a history variable: this handling recorded the event's id in the gate. */
  datatype Worker = Stopped | Idle(pos: nat) | Busy(pos: nat, phase: Phase, tries: nat, marked: bool)

  datatype State = State(
    log: seq<Content>,             // the partition
    offset: nat,                   // the group's committed offset
    consumed: set<nat>,            // the dedupe gate
    applied: seq<Delivery>,        // apply transactions that committed; the projection's tables are Project(applied)
    dlq: seq<nat>,                 // dead-letter copies, by source offset
    worker: Worker,
    stranded: set<nat>)            // history variable: marks whose handling ended before its apply or dead-letter write

  datatype Step =
    | Append(content: Content)
    | Start
    | Fetch
    | MarkReturns
    | MarkFails(recorded: bool, giveUp: bool)     // `giveUp`: the context ended, no more retries
    | ApplyReturns
    | ApplyFails(counted: bool, giveUp: bool)
    | DlqReturns
    | DlqNotReady(giveUp: bool)
    | DlqFails(delivered: bool)
    | OffsetCommits
    | OffsetFails(recorded: bool)
    | Crash

  const EMPTY := State([], 0, {}, [], [], Stopped, {})

  predicate At(s: State, phase: Phase) { s.worker.Busy? && s.worker.phase == phase && s.worker.pos < |s.log| }

  predicate Handles(s: State, phase: Phase) { At(s, phase) && s.log[s.worker.pos].Projecting? }

  predicate Enabled(s: State, e: Step) {
    match e
    case Append(_) => true
    case Start => s.worker.Stopped?
    case Fetch => s.worker.Idle? && s.worker.pos < |s.log|
    case MarkReturns => Handles(s, Marking)
    case MarkFails(_, _) => Handles(s, Marking)
    case ApplyReturns => Handles(s, Applying)
    case ApplyFails(_, _) => Handles(s, Applying)
    case DlqReturns => At(s, DeadLettering)
    case DlqNotReady(_) => At(s, DeadLettering)
    case DlqFails(_) => At(s, DeadLettering)
    case OffsetCommits => At(s, Committing)
    case OffsetFails(_) => At(s, Committing)
    case Crash => true
  }

  predicate Lettered(log: seq<Content>, dlq: seq<nat>, id: nat) {
    exists i :: 0 <= i < |dlq| && dlq[i] < |log| && log[dlq[i]].Projecting? && log[dlq[i]].delivery.id == id
  }

  /** The event has reached the projection or the dead-letter topic. */
  predicate Settled(s: State, id: nat) { id in Ids(s.applied) || Lettered(s.log, s.dlq, id) }

  /** The id this handling has marked and not yet settled. */
  function Loose(s: State): set<nat> {
    if s.worker.Busy? && s.worker.marked && s.worker.pos < |s.log| && s.log[s.worker.pos].Projecting?
       && !Settled(s, s.log[s.worker.pos].delivery.id)
    then {s.log[s.worker.pos].delivery.id} else {}
  }

  /** The process ends, or the consume loop does. */
  function Ended(s: State): State { s.(worker := Stopped, stranded := s.stranded + Loose(s)) }

  function First(c: Content): Phase {
    match c
    case Junk => DeadLettering
    case Other => Committing
    case Projecting(_) => Marking
  }

  function Moved(s: State, phase: Phase, tries: nat, marked: bool): State
    requires s.worker.Busy?
  {
    s.(worker := s.worker.(phase := phase, tries := tries, marked := marked))
  }

  /** An attempt failed: again, or to the dead-letter topic once the budget is spent. */
  function Retried(s: State, giveUp: bool): State
    requires s.worker.Busy?
  {
    if giveUp || s.worker.tries + 1 >= MAX_ATTEMPTS then Moved(s, DeadLettering, 0, s.worker.marked)
    else Moved(s, s.worker.phase, s.worker.tries + 1, s.worker.marked)
  }

  function Apply(s: State, e: Step): State {
    if !Enabled(s, e) then s else
    match e
    case Append(c) => s.(log := s.log + [c])
    case Start => s.(worker := Idle(s.offset))
    case Fetch => s.(worker := Busy(s.worker.pos, First(s.log[s.worker.pos]), 0, false))
    case MarkReturns =>
      var id := s.log[s.worker.pos].delivery.id;
      if id !in s.consumed then Moved(s, Applying, 0, true).(consumed := s.consumed + {id})
      else Moved(s, Committing, 0, false).(stranded := s.stranded + Loose(s))
    case MarkFails(recorded, giveUp) =>
      var id := s.log[s.worker.pos].delivery.id;
      if recorded then
        Retried(s.(consumed := s.consumed + {id}, worker := s.worker.(marked := s.worker.marked || id !in s.consumed)), giveUp)
      else Retried(s, giveUp)
    case ApplyReturns => Moved(s, Committing, 0, s.worker.marked).(applied := s.applied + [s.log[s.worker.pos].delivery])
    case ApplyFails(counted, giveUp) =>
      Retried(if counted then s.(applied := s.applied + [s.log[s.worker.pos].delivery]) else s, giveUp)
    case DlqReturns => Moved(s, Committing, 0, s.worker.marked).(dlq := s.dlq + [s.worker.pos])
    case DlqNotReady(giveUp) =>
      if giveUp || s.worker.tries + 1 >= DLQ_ATTEMPTS then Ended(s)
      else Moved(s, DeadLettering, s.worker.tries + 1, s.worker.marked)
    case DlqFails(delivered) => Ended(if delivered then s.(dlq := s.dlq + [s.worker.pos]) else s)
    case OffsetCommits => s.(offset := s.worker.pos + 1, worker := Idle(s.worker.pos + 1))
    case OffsetFails(recorded) => Ended(if recorded then s.(offset := s.worker.pos + 1) else s)
    case Crash => Ended(s)
  }

  function Exec(s: State, steps: seq<Step>): State
    decreases |steps|
  {
    if steps == [] then s else Exec(Apply(s, steps[0]), steps[1..])
  }

  // ---- the invariant ----

  /** A gate entry is settled, or being handled, or stranded. */
  ghost predicate MarkOk(s: State, id: nat) {
    id in s.consumed ==> Settled(s, id) || id in Loose(s) || id in s.stranded
  }

  /** The message at an offset the consumer has moved past. */
  ghost predicate PastOk(s: State, o: nat) {
    o < |s.log| ==>
      match s.log[o]
      case Junk => o in s.dlq
      case Other => true
      case Projecting(d) => Settled(s, d.id) || d.id in s.stranded
  }

  /** How far the consumer has got: everything below has been handled. */
  function Passed(s: State): nat {
    match s.worker
    case Stopped => s.offset
    case Idle(pos) => pos
    case Busy(pos, phase, _, _) => if phase == Committing then pos + 1 else pos
  }

  /** The event this handling has recorded in the gate. */
  predicate Marked(s: State, id: nat) {
    s.worker.Busy? && s.worker.marked && s.worker.pos < |s.log| && s.log[s.worker.pos].Projecting? && s.log[s.worker.pos].delivery.id == id
  }

  ghost predicate WorkerOk(s: State) {
    && s.offset <= Passed(s) <= |s.log|
    && (s.worker.Busy? ==>
          && s.worker.pos < |s.log|
          && (s.worker.phase == Applying ==> s.worker.marked)
          && (s.worker.marked ==> s.log[s.worker.pos].Projecting? && s.log[s.worker.pos].delivery.id in s.consumed)
          && (s.worker.phase == Committing ==> Loose(s) == {}))
  }

  /** A stranded event is in the gate, not applied, and nobody's to apply. */
  ghost predicate StrandedOk(s: State, id: nat) {
    id in s.stranded ==> id in s.consumed && id !in Ids(s.applied) && !Marked(s, id)
  }

  ghost predicate Inv(s: State) {
    && WorkerOk(s)
    && (forall id :: MarkOk(s, id))
    && (forall id :: StrandedOk(s, id))
    && (forall o :: 0 <= o < Passed(s) ==> PastOk(s, o))
    && Ids(s.applied) <= s.consumed
  }

  // ---- every step keeps it ----

  predicate Grown(s: State, n: State) { s.log <= n.log && s.applied <= n.applied && s.dlq <= n.dlq && s.stranded <= n.stranded }

  lemma SettledGrows(s: State, n: State, id: nat)
    requires Grown(s, n) && Settled(s, id)
    ensures Settled(n, id)
  {
    if id in Ids(s.applied) {
      var i :| 0 <= i < |s.applied| && s.applied[i].id == id;
      assert n.applied[i].id == id;
    } else {
      var i :| 0 <= i < |s.dlq| && s.dlq[i] < |s.log| && s.log[s.dlq[i]].Projecting? && s.log[s.dlq[i]].delivery.id == id;
      assert n.dlq[i] == s.dlq[i] && n.log[n.dlq[i]] == s.log[s.dlq[i]];
    }
  }

  lemma PastGrows(s: State, n: State, o: nat)
    requires Grown(s, n) && o < |s.log| && PastOk(s, o)
    ensures PastOk(n, o)
  {
    hide Settled;
    assert n.log[o] == s.log[o];
    if o in s.dlq {
      var i :| 0 <= i < |s.dlq| && s.dlq[i] == o;
      assert n.dlq[i] == o;
    }
    if s.log[o].Projecting? && Settled(s, s.log[o].delivery.id) { SettledGrows(s, n, s.log[o].delivery.id); }
  }

  lemma LooseMeans(s: State, id: nat)
    ensures id in Loose(s) <==> Marked(s, id) && !Settled(s, id)
  {
    hide Settled;
  }

  lemma IdsOf(ds: seq<Delivery>, d: Delivery)
    ensures Ids(ds + [d]) == Ids(ds) + {d.id}
  {
    IdsGrow(ds, d);
  }

  /** What a step may do to the stores, the worker and the history. */
  ghost predicate Proper(s: State, n: State) {
    && Grown(s, n) && s.consumed <= n.consumed
    && (forall id :: id in n.consumed && id !in s.consumed ==> Marked(n, id))
    && (forall id :: Marked(s, id) ==> Marked(n, id) || Settled(n, id) || id in n.stranded)
    && (forall id :: id in n.stranded && id !in s.stranded ==> Marked(s, id) && !Settled(n, id) && !Marked(n, id))
    && (forall id :: Marked(n, id) ==> Marked(s, id) || id !in s.consumed)
    && (forall id :: id in Ids(n.applied) && id !in Ids(s.applied) ==> Marked(s, id))
    && (forall o :: Passed(s) <= o < Passed(n) ==> PastOk(n, o))
  }

  lemma ProperMark(s: State, n: State, id: nat)
    requires Inv(s) && Proper(s, n)
    ensures MarkOk(n, id) && StrandedOk(n, id)
  {
    hide Settled, Loose, Ids, PastOk, Passed, Grown;
    assert MarkOk(s, id) && StrandedOk(s, id);
    LooseMeans(s, id);
    LooseMeans(n, id);
    if Settled(s, id) { SettledGrows(s, n, id); }
    AppliedIsSettled(n, id);
    AppliedIsSettled(s, id);
    StrandedStays(s, n, id);
  }

  lemma StrandedStays(s: State, n: State, id: nat)
    requires Grown(s, n)
    ensures id in s.stranded ==> id in n.stranded
  {}

  lemma AppliedIsSettled(s: State, id: nat)
    ensures id in Ids(s.applied) ==> Settled(s, id)
  {}

  lemma ProperKeeps(s: State, n: State)
    requires Inv(s) && WorkerOk(n) && Proper(s, n)
    ensures Inv(n)
  {
    hide Settled, Loose, Ids, MarkOk, StrandedOk;
    forall id ensures MarkOk(n, id) && StrandedOk(n, id) { ProperMark(s, n, id); }
    forall o | 0 <= o < Passed(n) ensures PastOk(n, o) {
      if o < Passed(s) { PastGrows(s, n, o); }
    }
    forall id | id in Ids(n.applied) ensures id in n.consumed {}
  }

  /** The process ends: nothing is lost but what the handling had marked and not settled. */
  lemma EndedKeeps(s: State, n: State)
    requires Inv(s) && n.(worker := s.worker, stranded := s.stranded) == s && n == Ended(s)
    ensures Inv(n)
  {
    hide Settled, Ids, PastOk;
    forall id ensures id in Loose(s) <==> Marked(s, id) && !Settled(s, id) { LooseMeans(s, id); }
    forall id ensures Settled(s, id) <==> Settled(n, id) { SameSettled(s, n, id); }
    hide Loose;
    assert Proper(s, n);
    ProperKeeps(s, n);
  }

  lemma SameSettled(s: State, n: State, id: nat)
    requires s.log == n.log && s.applied == n.applied && s.dlq == n.dlq
    ensures Settled(s, id) <==> Settled(n, id)
  {}

  /** Steps that only bring in a message or move the worker to it. */
  lemma FetchingKeeps(s: State, e: Step)
    requires Inv(s) && Enabled(s, e) && (e.Append? || e.Start? || e.Fetch?)
    ensures Inv(Apply(s, e))
  {
    hide Settled, Ids;
    var n := Apply(s, e);
    forall id ensures Settled(s, id) ==> Settled(n, id) { if Settled(s, id) { SettledGrows(s, n, id); } }
    forall id ensures id in Loose(s) <==> Marked(s, id) && !Settled(s, id) { LooseMeans(s, id); }
    forall id ensures id in Loose(n) <==> Marked(n, id) && !Settled(n, id) { LooseMeans(n, id); }
    hide Loose;
    ProperKeeps(s, n);
  }

  lemma MarkReturnsKeeps(s: State)
    requires Inv(s) && Enabled(s, MarkReturns)
    ensures Inv(Apply(s, MarkReturns))
  {
    hide Settled, Ids;
    var n, id := Apply(s, MarkReturns), s.log[s.worker.pos].delivery.id;
    assert MarkOk(s, id);
    forall x ensures Settled(s, x) <==> Settled(n, x) { SameSettled(s, n, x); }
    forall x ensures x in Loose(s) <==> Marked(s, x) && !Settled(s, x) { LooseMeans(s, x); }
    ProperKeeps(s, n);
  }

  /** A retry loop goes on or ends in the dead-letter branch, with nothing else moved. */
  lemma RetriedKeeps(s: State, giveUp: bool)
    requires Inv(s) && s.worker.Busy? && (s.worker.phase.Marking? || s.worker.phase.Applying?)
    ensures Inv(Retried(s, giveUp))
  {
    hide Settled, Ids;
    var n := Retried(s, giveUp);
    forall x ensures Settled(s, x) <==> Settled(n, x) { SameSettled(s, n, x); }
    forall x ensures Marked(s, x) <==> Marked(n, x) {}
    ProperKeeps(s, n);
  }

  lemma MarkRecordedKeeps(s: State)
    requires Inv(s) && Handles(s, Marking)
    ensures var id := s.log[s.worker.pos].delivery.id;
            Inv(s.(consumed := s.consumed + {id}, worker := s.worker.(marked := s.worker.marked || id !in s.consumed)))
  {
    hide Settled, Ids;
    var id := s.log[s.worker.pos].delivery.id;
    var n := s.(consumed := s.consumed + {id}, worker := s.worker.(marked := s.worker.marked || id !in s.consumed));
    forall x ensures Settled(s, x) <==> Settled(n, x) { SameSettled(s, n, x); }
    ProperKeeps(s, n);
  }

  /** The apply transaction commits; the worker stays, or moves on to commit the offset. */
  lemma AppliedKeeps(s: State, n: State)
    requires Inv(s) && Handles(s, Applying)
    requires n == s.(applied := s.applied + [s.log[s.worker.pos].delivery], worker := n.worker)
    requires n.worker == s.worker || n.worker == s.worker.(phase := Committing, tries := 0)
    ensures Inv(n)
  {
    hide Settled, Ids;
    var d := s.log[s.worker.pos].delivery;
    IdsOf(s.applied, d);
    AppliedIsSettled(n, d.id);
    forall x ensures Marked(n, x) <==> Marked(s, x) {}
    LooseMeans(n, d.id);
    ProperKeeps(s, n);
  }

  /** A dead-letter copy is written; the worker stays, or moves on to commit the offset. */
  lemma LetteredKeeps(s: State, n: State)
    requires Inv(s) && At(s, DeadLettering)
    requires n == s.(dlq := s.dlq + [s.worker.pos], worker := n.worker)
    requires n.worker == s.worker || n.worker == s.worker.(phase := Committing, tries := 0)
    ensures Inv(n)
    ensures Loose(n) == {}
  {
    hide Ids;
    var pos := s.worker.pos;
    assert n.dlq[|s.dlq|] == pos;
    if s.log[pos].Projecting? {
      assert Lettered(n.log, n.dlq, s.log[pos].delivery.id);
      assert Settled(n, s.log[pos].delivery.id);
      LooseMeans(n, s.log[pos].delivery.id);
    }
    hide Settled;
    forall x ensures Marked(n, x) <==> Marked(s, x) {}
    ProperKeeps(s, n);
  }

  /** The offset is recorded behind a handled message. */
  lemma OffsetKeeps(s: State, n: State)
    requires Inv(s) && At(s, Committing)
    requires n == s.(offset := s.worker.pos + 1, worker := n.worker)
    requires n.worker == s.worker || n.worker == Idle(s.worker.pos + 1)
    ensures Inv(n)
    ensures n.worker == s.worker ==> Loose(n) == {}
  {
    hide Settled, Ids;
    forall x ensures Settled(s, x) <==> Settled(n, x) { SameSettled(s, n, x); }
    forall x ensures Marked(s, x) ==> Settled(s, x) { LooseMeans(s, x); }
    ProperKeeps(s, n);
  }

  lemma StepKeeps(s: State, e: Step)
    requires Inv(s)
    ensures Inv(Apply(s, e))
  {
    hide Inv, Settled, Loose, Ids;
    if Enabled(s, e) {
      match e
      case Append(_) => FetchingKeeps(s, e);
      case Start => FetchingKeeps(s, e);
      case Fetch => FetchingKeeps(s, e);
      case MarkReturns => MarkReturnsKeeps(s);
      case MarkFails(recorded, giveUp) => {
        MarkRecordedKeeps(s);
        var id := s.log[s.worker.pos].delivery.id;
        var m := s.(consumed := s.consumed + {id}, worker := s.worker.(marked := s.worker.marked || id !in s.consumed));
        RetriedKeeps(if recorded then m else s, giveUp);
      }
      case ApplyReturns => AppliedKeeps(s, Apply(s, e));
      case ApplyFails(counted, giveUp) => {
        var m := s.(applied := s.applied + [s.log[s.worker.pos].delivery]);
        AppliedKeeps(s, m);
        RetriedKeeps(if counted then m else s, giveUp);
      }
      case DlqReturns => LetteredKeeps(s, Apply(s, e));
      case DlqNotReady(giveUp) => {
        EndedKeeps(s, Ended(s));
        WaitingKeeps(s);
      }
      case DlqFails(delivered) => {
        var m := s.(dlq := s.dlq + [s.worker.pos]);
        LetteredKeeps(s, m);
        EndedKeeps(if delivered then m else s, Apply(s, e));
      }
      case OffsetCommits => OffsetKeeps(s, Apply(s, e));
      case OffsetFails(recorded) => {
        var m := s.(offset := s.worker.pos + 1);
        OffsetKeeps(s, m);
        EndedKeeps(if recorded then m else s, Apply(s, e));
      }
      case Crash => EndedKeeps(s, Apply(s, e));
    }
  }

  lemma WaitingKeeps(s: State)
    requires Inv(s) && At(s, DeadLettering)
    ensures Inv(Moved(s, DeadLettering, s.worker.tries + 1, s.worker.marked))
  {
    hide Settled, Ids;
    var n := Moved(s, DeadLettering, s.worker.tries + 1, s.worker.marked);
    forall x ensures Settled(s, x) <==> Settled(n, x) { SameSettled(s, n, x); }
    forall x ensures Marked(s, x) <==> Marked(n, x) {}
    ProperKeeps(s, n);
  }

  lemma {:induction false} RunKeeps(s: State, steps: seq<Step>)
    requires Inv(s)
    ensures Inv(Exec(s, steps))
    decreases |steps|
  {
    hide Inv, Apply;
    if steps != [] {
      StepKeeps(s, steps[0]);
      RunKeeps(Apply(s, steps[0]), steps[1..]);
    }
  }

  lemma Reachable(steps: seq<Step>)
    ensures Inv(Exec(EMPTY, steps))
  {
    assert Inv(EMPTY);
    hide Inv;
    RunKeeps(EMPTY, steps);
  }
}
