/** What the consumer promises over whole runs, and exactly where the promise fails. */
module ConsumerTheorems {
  import opened Shared
  import opened Analytics
  import opened Consumer

  /** In every run each event is counted at most once, for the kind and day of its first applied delivery. */
  lemma NothingCountedTwice(steps: seq<Step>, kind: Kind, day: int)
    ensures var s := Exec(EMPTY, steps);
            && Counter(RowAt(Project(s.applied).rows, day), kind) == |FirstIds(s.applied, kind, day, day + 1)|
            && Project(s.applied).seen == Ids(s.applied) <= s.consumed
  {
    hide Exec, FirstIds, Ids, Project, RowAt, Day;
    Reachable(steps);
    CountersCountFirstDeliveries(Exec(EMPTY, steps).applied, kind, day);
  }

  /** An event in the gate is applied, dead-lettered, in hand, or was stranded. */
  lemma MarkedIsAccountedFor(steps: seq<Step>, id: nat)
    ensures var s := Exec(EMPTY, steps);
            id in s.consumed ==> Settled(s, id) || Marked(s, id) || id in s.stranded
  {
    hide Exec;
    Reachable(steps);
    assert MarkOk(Exec(EMPTY, steps), id);
    LooseMeans(Exec(EMPTY, steps), id);
  }

  /** Behind the committed offset, junk is dead-lettered, and a projecting event is missing exactly when it was stranded. */
  lemma BehindTheOffset(steps: seq<Step>, o: nat)
    ensures var s := Exec(EMPTY, steps);
            o < s.offset ==>
              && o < |s.log|
              && match s.log[o]
                 case Junk => o in s.dlq
                 case Other => true
                 case Projecting(d) => !Settled(s, d.id) <==> d.id in s.stranded && !Lettered(s.log, s.dlq, d.id)
  {
    hide Exec, Ids, Lettered;
    Reachable(steps);
    var s := Exec(EMPTY, steps);
    if o < s.offset {
      assert PastOk(s, o);
      if s.log[o].Projecting? { assert StrandedOk(s, s.log[o].delivery.id); }
    }
  }

  // ---- what strands an event ----

  /**
   The step strands `id`: the process or the consume loop ends between the mark and the apply or
   dead-letter write, or a retried mark finds the id its own unacknowledged attempt had recorded.
   */
  predicate Strands(s: State, e: Step, id: nat) {
    && Enabled(s, e) && Marked(s, id) && !Settled(s, id)
    && match e
       case Crash => true
       case MarkReturns => true
       case DlqFails(delivered) => !delivered
       case DlqNotReady(giveUp) => giveUp || s.worker.tries + 1 >= DLQ_ATTEMPTS
       case _ => false
  }

  lemma StepStrands(s: State, e: Step, id: nat)
    requires Inv(s)
    ensures id in Apply(s, e).stranded <==> id in s.stranded || Strands(s, e, id)
  {
    hide Ids;
    if Enabled(s, e) {
      LooseMeans(s, id);
      if e.DlqFails? && e.delivered { LetteredKeeps(s, s.(dlq := s.dlq + [s.worker.pos])); }
      if e.OffsetFails? && e.recorded { OffsetKeeps(s, s.(offset := s.worker.pos + 1)); }
      hide Settled;
      if e.MarkReturns? && Marked(s, id) { assert id in s.consumed; }
    }
  }

  /** An event is stranded exactly when some step of the run stranded it. */
  lemma {:induction false} StrandedIffStep(s: State, steps: seq<Step>, id: nat)
    requires Inv(s)
    ensures id in Exec(s, steps).stranded <==>
            id in s.stranded || exists i :: 0 <= i < |steps| && Strands(Exec(s, steps[..i]), steps[i], id)
    decreases |steps|
  {
    hide Inv, Apply, Strands;
    if steps != [] {
      var n, rest := Apply(s, steps[0]), steps[1..];
      StepKeeps(s, steps[0]);
      StepStrands(s, steps[0], id);
      StrandedIffStep(n, rest, id);
      assert Exec(s, steps[..0]) == s;
      forall i | 0 <= i < |rest| ensures Exec(n, rest[..i]) == Exec(s, steps[..i + 1]) {
        assert steps[..i + 1][0] == steps[0] && steps[..i + 1][1..] == rest[..i];
      }
      if i :| 0 <= i < |rest| && Strands(Exec(n, rest[..i]), rest[i], id) {
        assert Strands(Exec(s, steps[..i + 1]), steps[i + 1], id);
      }
      if i :| 0 <= i < |steps| && Strands(Exec(s, steps[..i]), steps[i], id) {
        if i > 0 { assert Strands(Exec(n, rest[..i - 1]), rest[i - 1], id); }
      }
    }
  }

  /**
   An event behind the committed offset is neither applied nor dead-lettered if and only if a step of the
   run stranded it and no dead-letter copy was written since; in a run without such steps every projecting
   event behind the offset is counted exactly once or has a dead-letter copy.
   */
  lemma LostIffStranded(steps: seq<Step>, o: nat)
    requires var s := Exec(EMPTY, steps); o < s.offset && o < |s.log| && s.log[o].Projecting?
    ensures var s := Exec(EMPTY, steps);
            var id := s.log[o].delivery.id;
            var counted := exists i :: 0 <= i < |s.applied| && s.applied[i].id == id;
            var lettered := exists i :: 0 <= i < |s.dlq| && s.dlq[i] < |s.log| && s.log[s.dlq[i]].Projecting? && s.log[s.dlq[i]].delivery.id == id;
            !counted && !lettered <==>
            && !lettered
            && exists i :: 0 <= i < |steps| && Strands(Exec(EMPTY, steps[..i]), steps[i], id)
  {
    hide Exec, Inv, Settled, Lettered, Strands;
    BehindTheOffset(steps, o);
    assert Inv(EMPTY) by { Reachable([]); EmptyRun(); }
    StrandedIffStep(EMPTY, steps, Exec(EMPTY, steps).log[o].delivery.id);
    SettledMeans(Exec(EMPTY, steps), Exec(EMPTY, steps).log[o].delivery.id);
  }

  lemma SettledMeans(s: State, id: nat)
    ensures Lettered(s.log, s.dlq, id) <==>
              exists i :: 0 <= i < |s.dlq| && s.dlq[i] < |s.log| && s.log[s.dlq[i]].Projecting? && s.log[s.dlq[i]].delivery.id == id
    ensures Settled(s, id) <==> (exists i :: 0 <= i < |s.applied| && s.applied[i].id == id) || Lettered(s.log, s.dlq, id)
  {
    if i :| 0 <= i < |s.applied| && s.applied[i].id == id { assert id in Ids(s.applied); }
  }

  lemma EmptyRun()
    ensures Exec(EMPTY, []) == EMPTY
  {}

  /** A stranded event is never applied, however long the consumer goes on. */
  lemma {:induction false} StrandedForEver(s: State, steps: seq<Step>, id: nat)
    requires Inv(s) && id in s.stranded
    ensures id in Exec(s, steps).stranded && id !in Ids(Exec(s, steps).applied)
    decreases |steps|
  {
    hide Inv, Apply, Ids, Strands;
    if steps == [] {
      assert StrandedOk(s, id) by { AnyStranded(s, id); }
    } else {
      StepKeeps(s, steps[0]);
      StepStrands(s, steps[0], id);
      StrandedForEver(Apply(s, steps[0]), steps[1..], id);
    }
  }

  lemma AnyStranded(s: State, id: nat)
    requires Inv(s)
    ensures StrandedOk(s, id)
  {}

  // ---- the two ways to lose an event ----

  /** Stored nowhere but in the gate, behind the offset, with nobody working on it. */
  ghost predicate Vanished(s: State, d: Delivery) {
    && s.log == [Projecting(d)] && s.offset == 1 && s.worker == Idle(1)
    && d.id in s.consumed && !Settled(s, d.id)
  }

  lemma Next(s: State, e: seq<Step>, n: nat)
    requires n < |e|
    ensures Exec(s, e[n..]) == Exec(Apply(s, e[n]), e[n + 1..])
  {
    hide Apply;
    assert e[n..][0] == e[n] && e[n..][1..] == e[n + 1..];
  }

  lemma Exec4(s: State, e: seq<Step>)
    requires |e| >= 4
    ensures Exec(s, e) == Exec(Apply(Apply(Apply(Apply(s, e[0]), e[1]), e[2]), e[3]), e[4..])
  {
    hide Apply, Exec;
    assert e[0..] == e;
    Next(s, e, 0);
    var s1 := Apply(s, e[0]);
    Next(s1, e, 1);
    Next(Apply(s1, e[1]), e, 2);
    Next(Apply(Apply(s1, e[1]), e[2]), e, 3);
  }

  /** In hand, marked, not applied. */
  function JustMarked(d: Delivery): State {
    EMPTY.(log := [Projecting(d)], consumed := {d.id}, worker := Busy(0, Applying, 0, true))
  }

  lemma FirstMark(d: Delivery)
    ensures Apply(Apply(Apply(Apply(EMPTY, Append(Projecting(d))), Start), Fetch), MarkReturns) == JustMarked(d)
  {}

  lemma SecondMark(d: Delivery)
    ensures Apply(Apply(Apply(Apply(JustMarked(d), Crash), Start), Fetch), MarkReturns)
         == JustMarked(d).(worker := Busy(0, Committing, 0, false), stranded := {d.id})
  {}

  lemma Commits(d: Delivery, s: State)
    requires s == JustMarked(d).(worker := s.worker, stranded := {d.id}) && s.worker == Busy(0, Committing, 0, false)
    ensures Vanished(Apply(s, OffsetCommits), d)
  {}

  /** The process dies right after the mark; the redelivery finds the id in the gate and moves on. */
  lemma CrashAfterMarkLosesTheEvent(d: Delivery)
    ensures Vanished(Exec(EMPTY, [Append(Projecting(d)), Start, Fetch, MarkReturns, Crash, Start, Fetch, MarkReturns, OffsetCommits]), d)
  {
    hide Apply, Vanished, JustMarked;
    var e := [Append(Projecting(d)), Start, Fetch, MarkReturns, Crash, Start, Fetch, MarkReturns, OffsetCommits];
    Exec4(EMPTY, e);
    FirstMark(d);
    Exec4(JustMarked(d), e[4..]);
    SecondMark(d);
    var t := JustMarked(d).(worker := Busy(0, Committing, 0, false), stranded := {d.id});
    assert e[4..][4..] == [OffsetCommits];
    assert Exec(t, [OffsetCommits]) == Apply(t, OffsetCommits) by { assert [OffsetCommits][1..] == []; }
    Commits(d, t);
  }

  /** No crash at all: the first mark is recorded but reported as an error, and its retry says "not new". */
  lemma UnacknowledgedMarkLosesTheEvent(d: Delivery)
    ensures Vanished(Exec(EMPTY, [Append(Projecting(d)), Start, Fetch, MarkFails(true, false), MarkReturns, OffsetCommits]), d)
  {
    var e := [Append(Projecting(d)), Start, Fetch, MarkFails(true, false), MarkReturns, OffsetCommits];
    Exec4(EMPTY, e);
    var s := EMPTY.(log := [Projecting(d)], consumed := {d.id}, worker := Busy(0, Marking, 1, true));
    assert Apply(Apply(Apply(Apply(EMPTY, e[0]), e[1]), e[2]), e[3]) == s;
    assert e[4..] == [MarkReturns] + [OffsetCommits] && ([MarkReturns] + [OffsetCommits])[1..] == [OffsetCommits];
    assert [OffsetCommits][1..] == [];
  }
}
