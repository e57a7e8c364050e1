/** The whole chain: from committed changes, through the outbox and the analytics topic, to the growth report. */
module EndToEnd {
  import opened Shared
  import opened Catalogue
  import opened Outbox
  import opened OutboxInvariant
  import OutboxTheorems
  import Replay
  import opened Analytics
  import Consumer

  /** The consumer's dispatch on the event type. */
  function KindOf(e: Event): Option<Kind> {
    match e
    case Created(_, _, _) => Some(Defined)
    case Updated(_, _, _) => Some(Kind.Revised)
    case Retired(_, _) => Some(Kind.Deactivated)
    case ScheduleChanged(_, _, _, _) => None
  }

  /** What the consumer decodes from a message: the CloudEvents id, type and time. */
  function ContentOf(m: Message): Consumer.Content {
    match KindOf(m.event)
    case None => Consumer.Other
    case Some(kind) => Consumer.Projecting(Delivery(m.eventId, kind, m.event.at))
  }

  /** The analytics topic, in order of arrival. */
  function Stream(log: seq<Message>): seq<Consumer.Content> {
    if log == [] then []
    else Stream(log[..|log| - 1]) + if log[|log| - 1].topic.Analytics? then [ContentOf(log[|log| - 1])] else []
  }

  predicate Counts(e: Event, kind: Kind, day: int) { KindOf(e) == Some(kind) && Day(e.at) == day }

  /** The committed events of one kind and day, by event id. */
  ghost function Happened(h: History, kind: Kind, day: int): set<nat> {
    set k, n | k in h && 0 <= n < |h[k]| && Counts(h[k][n].event, kind, day) :: h[k][n].eventId
  }

  lemma {:induction false} InStream(log: seq<Message>, c: Consumer.Content)
    ensures c in Stream(log) <==> exists m :: m in log && m.topic.Analytics? && ContentOf(m) == c
  {
    if log != [] {
      var t, last := log[..|log| - 1], log[|log| - 1];
      assert log == t + [last];
      InStream(t, c);
    }
  }

  /** The stream grows at its end as the topic does, and only by analytics messages. */
  lemma {:induction false} StreamGrows(log: seq<Message>, more: seq<Message>)
    ensures Stream(log + more) == Stream(log) + Stream(more)
    ensures (forall m :: m in more ==> !m.topic.Analytics?) ==> Stream(more) == []
    decreases |more|
  {
    if more == [] {
      assert log + more == log;
    } else {
      var all, t := log + more, more[..|more| - 1];
      assert all[..|all| - 1] == log + t;
      StreamGrows(log, t);
    }
  }

  // ---- what is applied came from the topic ----

  ghost predicate FromLog(s: Consumer.State) {
    forall d :: d in s.applied ==> Consumer.Projecting(d) in s.log
  }

  lemma StepAppliesFromLog(s: Consumer.State, e: Consumer.Step)
    requires FromLog(s)
    ensures FromLog(Consumer.Apply(s, e))
  {}

  lemma {:induction false} AppliedComeFromLog(s: Consumer.State, steps: seq<Consumer.Step>)
    requires FromLog(s)
    ensures FromLog(Consumer.Exec(s, steps))
    decreases |steps|
  {
    hide Consumer.Apply, FromLog;
    if steps != [] {
      StepAppliesFromLog(s, steps[0]);
      AppliedComeFromLog(Consumer.Apply(s, steps[0]), steps[1..]);
    }
  }

  // ---- messages and committed changes ----

  /** A message stands for the committed change of its event id, and for no other. */
  lemma MessageOfChange(env: Env, s: State, m: Message)
    requires Inv(env, s) && m in s.log
    ensures m.key in s.history && m.ordinal < |s.history[m.key]|
    ensures s.history[m.key][m.ordinal].event == m.event && s.history[m.key][m.ordinal].eventId == m.eventId
    ensures forall x :: x in s.log && x.eventId == m.eventId ==> x.event == m.event
  {
    hide StoreInv, TxInv, PassInv, ChangeFits, InCommitOrder, Bounded;
    var id :| id in s.rows && s.rows[id].msg == m;
    assert RowFits(s.history, id, m);
    forall x | x in s.log && x.eventId == m.eventId ensures x.event == m.event {
      var other :| other in s.rows && s.rows[other].msg == x;
      assert RowFits(s.history, other, x);
    }
  }

  /** With nothing pending, every committed change is on the analytics topic. */
  lemma ChangeIsOnTopic(env: Env, s: State, k: Key, n: nat)
    requires Inv(env, s) && Replay.Quiet(s, Topic.Analytics) && n < |Hist(s.history, k)|
    ensures var c := Hist(s.history, k)[n]; Message(Topic.Analytics, c.eventId, k, c.event, n) in s.log
  {
    hide StoreInv, TxInv, PassInv;
    var c := Hist(s.history, k)[n];
    assert ChangeFits(s.rows, k, n, c);
    var id := c.ids[Slot(Topic.Analytics)];
    assert id in s.rows && s.rows[id].msg == Message(Topic.Analytics, c.eventId, k, c.event, n);
  }

  /** What the consumer has passed and not applied was stranded or dead-lettered. */
  lemma PassedIsAccountedFor(s: Consumer.State, id: nat, o: nat)
    requires Consumer.Inv(s) && s.offset == |s.log|
    requires o < |s.log| && s.log[o].Projecting? && s.log[o].delivery.id == id
    ensures id in Ids(s.applied) || id in s.stranded || Consumer.Lettered(s.log, s.dlq, id)
  {
    hide Ids;
    assert Consumer.PastOk(s, o);
  }

  lemma CommittedIsPassed(env: Env, s: State, c: Consumer.State, k: Key, n: nat)
    requires Inv(env, s) && Replay.Quiet(s, Topic.Analytics) && k in s.history && n < |s.history[k]|
    requires KindOf(s.history[k][n].event).Some?
    requires Consumer.Inv(c) && c.log == Stream(s.log) && c.offset == |c.log|
    ensures var x := s.history[k][n].eventId; x in Ids(c.applied) || x in c.stranded || Consumer.Lettered(c.log, c.dlq, x)
  {
    hide Inv, Consumer.Inv, Replay.Quiet, Ids, Consumer.Lettered;
    var x := s.history[k][n];
    var m := Message(Topic.Analytics, x.eventId, k, x.event, n);
    ChangeIsOnTopic(env, s, k, n);
    InStream(s.log, ContentOf(m));
    var o :| 0 <= o < |c.log| && c.log[o] == ContentOf(m);
    PassedIsAccountedFor(c, x.eventId, o);
  }

  lemma AppliedCommittedIsCounted(env: Env, s: State, c: Consumer.State, kind: Kind, day: int, k: Key, n: nat)
    requires Inv(env, s) && Replay.Quiet(s, Topic.Analytics) && k in s.history && n < |s.history[k]|
    requires Counts(s.history[k][n].event, kind, day) && s.history[k][n].eventId in Ids(c.applied)
    requires FromLog(c) && c.log == Stream(s.log)
    ensures s.history[k][n].eventId in FirstIds(c.applied, kind, day, day + 1)
  {
    hide Inv, Replay.Quiet, Day, Ids, IsFirst;
    var x := s.history[k][n];
    var m := Message(Topic.Analytics, x.eventId, k, x.event, n);
    ChangeIsOnTopic(env, s, k, n);
    var i := FirstIndex(c.applied, x.eventId);
    FirstInBounds(c.applied, i);
    var d := c.applied[i];
    assert Consumer.Projecting(d) in c.log;
    InStream(s.log, Consumer.Projecting(d));
    var m2 :| m2 in s.log && m2.topic.Analytics? && ContentOf(m2) == Consumer.Projecting(d);
    MessageOfChange(env, s, m);
    assert m2.event == m.event;
    assert Within(d, kind, day, day + 1);
  }

  lemma FirstInBounds(ds: seq<Delivery>, i: nat)
    requires IsFirst(ds, i)
    ensures i < |ds|
  {}

  lemma CountedIsCommitted(env: Env, s: State, c: Consumer.State, kind: Kind, day: int, x: nat)
    requires Inv(env, s) && FromLog(c) && c.log <= Stream(s.log)
    requires x in FirstIds(c.applied, kind, day, day + 1)
    ensures x in Happened(s.history, kind, day)
  {
    hide Inv, Day, IsFirst;
    var i :| 0 <= i < |c.applied| && IsFirst(c.applied, i) && Within(c.applied[i], kind, day, day + 1) && c.applied[i].id == x;
    var d := c.applied[i];
    assert d in c.applied && Consumer.Projecting(d) in c.log;
    InStream(s.log, Consumer.Projecting(d));
    var m :| m in s.log && m.topic.Analytics? && ContentOf(m) == Consumer.Projecting(d);
    MessageOfChange(env, s, m);
    assert Counts(s.history[m.key][m.ordinal].event, kind, day);
  }

  lemma CountedIffCommitted(env: Env, s: State, c: Consumer.State, kind: Kind, day: int)
    requires Inv(env, s) && Replay.Quiet(s, Topic.Analytics)
    requires Consumer.Inv(c) && FromLog(c) && c.log == Stream(s.log) && c.offset == |c.log|
    ensures FirstIds(c.applied, kind, day, day + 1) == Happened(s.history, kind, day) * Ids(c.applied)
    ensures forall x :: x in Happened(s.history, kind, day) - Ids(c.applied) ==> x in c.stranded || Consumer.Lettered(c.log, c.dlq, x)
  {
    hide Inv, Consumer.Inv, Replay.Quiet, FromLog, Counts, Ids, IsFirst, Consumer.Lettered;
    forall x | x in Happened(s.history, kind, day)
      ensures x in Ids(c.applied) ==> x in FirstIds(c.applied, kind, day, day + 1)
      ensures x in Ids(c.applied) || x in c.stranded || Consumer.Lettered(c.log, c.dlq, x)
    {
      var k, n :| k in s.history && 0 <= n < |s.history[k]| && Counts(s.history[k][n].event, kind, day) && s.history[k][n].eventId == x;
      if x in Ids(c.applied) { AppliedCommittedIsCounted(env, s, c, kind, day, k, n); }
      CountsAreProjecting(s.history[k][n].event, kind, day);
      CommittedIsPassed(env, s, c, k, n);
    }
    forall x | x in FirstIds(c.applied, kind, day, day + 1) ensures x in Happened(s.history, kind, day) && x in Ids(c.applied) {
      CountedIsCommitted(env, s, c, kind, day, x);
      FirstIdsGrow(c.applied, Delivery(x, kind, 0), kind, day, day + 1);
    }
  }

  lemma CountsAreProjecting(e: Event, kind: Kind, day: int)
    requires Counts(e, kind, day)
    ensures KindOf(e).Some?
  {}

  lemma MeetAndRest(a: set<nat>, b: set<nat>)
    ensures |a * b| + |a - b| == |a|
  {
    assert a == (a * b) + (a - b);
  }

  lemma FewerElements(a: set<nat>, b: set<nat>)
    requires a <= b
    ensures |a| <= |b|
  {
    assert b == a + (b - a);
  }

  /** At every moment, however far the consumer has read, no counter exceeds the committed events of its kind and day. */
  lemma NothingUncommittedIsCounted(env: Env, steps: seq<Step>, consumption: seq<Consumer.Step>, kind: Kind, day: int)
    requires TotalOrder(env.before)
    requires Consumer.Exec(Consumer.EMPTY, consumption).log <= Stream(Exec(env, EMPTY, steps).log)
    ensures Counter(RowAt(Project(Consumer.Exec(Consumer.EMPTY, consumption).applied).rows, day), kind)
         <= |Happened(Exec(env, EMPTY, steps).history, kind, day)|
  {
    assert FromLog(Consumer.EMPTY);
    hide Exec, Consumer.Exec, Inv, FromLog, Stream, Project, RowAt, FirstIds, Happened;
    Reachable(env, steps);
    AppliedComeFromLog(Consumer.EMPTY, consumption);
    var s, c := Exec(env, EMPTY, steps), Consumer.Exec(Consumer.EMPTY, consumption);
    forall x | x in FirstIds(c.applied, kind, day, day + 1) ensures x in Happened(s.history, kind, day) {
      CountedIsCommitted(env, s, c, kind, day, x);
    }
    FewerElements(FirstIds(c.applied, kind, day, day + 1), Happened(s.history, kind, day));
    CountersCountFirstDeliveries(c.applied, kind, day);
  }

  lemma RollupAt(env: Env, s: State, c: Consumer.State, kind: Kind, day: int)
    requires Inv(env, s) && Replay.Quiet(s, Topic.Analytics)
    requires Consumer.Inv(c) && FromLog(c) && c.log == Stream(s.log) && c.offset == |c.log|
    ensures var happened := Happened(s.history, kind, day);
            var missing := happened - Ids(c.applied);
            && Counter(RowAt(Project(c.applied).rows, day), kind) == |happened| - |missing|
            && (forall x :: x in missing ==> x in c.stranded || Consumer.Lettered(c.log, c.dlq, x))
            && (c.stranded == {} && c.dlq == [] ==> Counter(RowAt(Project(c.applied).rows, day), kind) == |happened|)
  {
    hide Inv, Consumer.Inv, Replay.Quiet, FromLog, Stream, Project, RowAt, FirstIds, Happened, Ids;
    var happened := Happened(s.history, kind, day);
    CountedIffCommitted(env, s, c, kind, day);
    CountersCountFirstDeliveries(c.applied, kind, day);
    MeetAndRest(happened, Ids(c.applied));
    if c.stranded == {} && c.dlq == [] { assert happened - Ids(c.applied) == {}; }
  }

  /**
   Once no analytics row is pending and the consumer has committed the whole topic, each counter of the
   rollup is the number of committed events of that kind and day but those never applied, each of which was
   stranded or has a dead-letter copy: through every interleaving, crash, resend, redelivery, retry and lost
   acknowledgement. With nothing stranded or dead-lettered it is exactly the number of committed events.
   */
  lemma RollupCountsCommittedEvents(env: Env, steps: seq<Step>, consumption: seq<Consumer.Step>, kind: Kind, day: int)
    requires TotalOrder(env.before) && Replay.Quiet(Exec(env, EMPTY, steps), Topic.Analytics)
    requires var c := Consumer.Exec(Consumer.EMPTY, consumption);
             c.log == Stream(Exec(env, EMPTY, steps).log) && c.offset == |c.log|
    ensures var c := Consumer.Exec(Consumer.EMPTY, consumption);
            var happened := Happened(Exec(env, EMPTY, steps).history, kind, day);
            var missing := happened - Ids(c.applied);
            && Counter(RowAt(Project(c.applied).rows, day), kind) == |happened| - |missing|
            && (forall x :: x in missing ==> x in c.stranded || Consumer.Lettered(c.log, c.dlq, x))
            && (c.stranded == {} && c.dlq == [] ==> Counter(RowAt(Project(c.applied).rows, day), kind) == |happened|)
  {
    assert FromLog(Consumer.EMPTY);
    hide Exec, Consumer.Exec, Inv, Consumer.Inv, Replay.Quiet, FromLog, Stream, Project, RowAt, FirstIds, Happened, Ids, Consumer.Lettered;
    Reachable(env, steps);
    Consumer.Reachable(consumption);
    AppliedComeFromLog(Consumer.EMPTY, consumption);
    RollupAt(env, Exec(env, EMPTY, steps), Consumer.Exec(Consumer.EMPTY, consumption), kind, day);
  }

  // ---- column by column, event by event ----

  lemma HappenedMeans(h: History, day: int)
    ensures Happened(h, Defined, day)
         == set k, n | k in h && 0 <= n < |h[k]| && h[k][n].event.Created? && h[k][n].event.at / NANOS_PER_DAY == day :: h[k][n].eventId
    ensures Happened(h, Kind.Revised, day)
         == set k, n | k in h && 0 <= n < |h[k]| && h[k][n].event.Updated? && h[k][n].event.at / NANOS_PER_DAY == day :: h[k][n].eventId
    ensures Happened(h, Kind.Deactivated, day)
         == set k, n | k in h && 0 <= n < |h[k]| && h[k][n].event.Retired? && h[k][n].event.at / NANOS_PER_DAY == day :: h[k][n].eventId
  {}

  /** The event of a committed change is that of every message under its event id. */
  lemma ChangeOfMessage(env: Env, s: State, m: Message, k: Key, n: nat)
    requires Inv(env, s) && m in s.log && k in s.history && n < |s.history[k]| && s.history[k][n].eventId == m.eventId
    ensures m.event == s.history[k][n].event
  {
    hide StoreInv, TxInv, PassInv, InCommitOrder, Bounded;
    var id :| id in s.rows && s.rows[id].msg == m;
    var c := s.history[k][n];
    assert Hist(s.history, k)[n] == c && ChangeFits(s.rows, k, n, c);
    assert s.rows[c.ids[0]].msg == Message(ENCODERS[0], c.eventId, k, c.event, n);
    assert RowFits(s.history, id, m) && RowFits(s.history, c.ids[0], s.rows[c.ids[0]].msg);
  }

  /** A schedule event reaches no counter and is not even claimed. */
  lemma ScheduleIsNotApplied(env: Env, s: State, c: Consumer.State, k: Key, n: nat)
    requires Inv(env, s) && FromLog(c) && c.log <= Stream(s.log)
    requires k in s.history && n < |s.history[k]| && s.history[k][n].event.ScheduleChanged?
    ensures s.history[k][n].eventId !in Ids(c.applied)
  {
    hide Inv;
    var x := s.history[k][n].eventId;
    if x in Ids(c.applied) {
      var i :| 0 <= i < |c.applied| && c.applied[i].id == x;
      var d := c.applied[i];
      assert d in c.applied && Consumer.Projecting(d) in c.log;
      InStream(s.log, Consumer.Projecting(d));
      var m :| m in s.log && m.topic.Analytics? && ContentOf(m) == Consumer.Projecting(d);
      ChangeOfMessage(env, s, m, k, n);
    }
  }

  lemma ColumnsAt(env: Env, s: State, c: Consumer.State, day: int)
    requires Inv(env, s) && FromLog(c) && c.log <= Stream(s.log)
    ensures var h, seen, rows := s.history, Project(c.applied).seen, Project(c.applied).rows;
            var row := if day in rows then rows[day] else Analytics.Row(0, 0, 0);
            && row.defined <= |Happened(h, Defined, day)| && row.revised <= |Happened(h, Kind.Revised, day)|
            && row.deactivated <= |Happened(h, Kind.Deactivated, day)|
            && (forall k, n :: k in h && 0 <= n < |h[k]| && h[k][n].event.ScheduleChanged? ==> h[k][n].eventId !in seen)
            && (Replay.Quiet(s, Topic.Analytics) && Consumer.Inv(c) && c.log == Stream(s.log) && c.offset == |c.log| ==>
                  && row.defined == |Happened(h, Defined, day)| - |Happened(h, Defined, day) - seen|
                  && row.revised == |Happened(h, Kind.Revised, day)| - |Happened(h, Kind.Revised, day) - seen|
                  && row.deactivated == |Happened(h, Kind.Deactivated, day)| - |Happened(h, Kind.Deactivated, day) - seen|
                  && (forall kind, x :: x in Happened(h, kind, day) - seen ==> x in c.stranded || Consumer.Lettered(c.log, c.dlq, x)))
  {
    hide Inv, Consumer.Inv, Replay.Quiet, FromLog, Stream, Project, FirstIds, Happened, Ids, Consumer.Lettered;
    forall k, n | k in s.history && 0 <= n < |s.history[k]| && s.history[k][n].event.ScheduleChanged?
      ensures s.history[k][n].eventId !in Project(c.applied).seen
    {
      ScheduleIsNotApplied(env, s, c, k, n);
      CountersCountFirstDeliveries(c.applied, Defined, day);
    }
    forall kind ensures
      var count := Counter(RowAt(Project(c.applied).rows, day), kind);
      var missing := Happened(s.history, kind, day) - Project(c.applied).seen;
      && count <= |Happened(s.history, kind, day)|
      && (Replay.Quiet(s, Topic.Analytics) && Consumer.Inv(c) && c.log == Stream(s.log) && c.offset == |c.log| ==>
            && count == |Happened(s.history, kind, day)| - |missing|
            && forall x :: x in missing ==> x in c.stranded || Consumer.Lettered(c.log, c.dlq, x))
    {
      CountersCountFirstDeliveries(c.applied, kind, day);
      NotMore(env, s, c, kind, day);
      if Replay.Quiet(s, Topic.Analytics) && Consumer.Inv(c) && c.log == Stream(s.log) && c.offset == |c.log| { RollupAt(env, s, c, kind, day); }
    }
    ColumnsAre(Project(c.applied).rows, day);
  }

  lemma ColumnsAre(rows: map<int, Analytics.Row>, day: int)
    ensures var row := if day in rows then rows[day] else Analytics.Row(0, 0, 0);
            && Counter(RowAt(rows, day), Defined) == row.defined && Counter(RowAt(rows, day), Kind.Revised) == row.revised
            && Counter(RowAt(rows, day), Kind.Deactivated) == row.deactivated
  {}

  lemma NotMore(env: Env, s: State, c: Consumer.State, kind: Kind, day: int)
    requires Inv(env, s) && FromLog(c) && c.log <= Stream(s.log)
    ensures |FirstIds(c.applied, kind, day, day + 1)| <= |Happened(s.history, kind, day)|
  {
    hide Inv, FromLog, Stream, FirstIds, Happened;
    forall x | x in FirstIds(c.applied, kind, day, day + 1) ensures x in Happened(s.history, kind, day) {
      CountedIsCommitted(env, s, c, kind, day, x);
    }
    FewerElements(FirstIds(c.applied, kind, day, day + 1), Happened(s.history, kind, day));
  }

  /**
   A day's row of the rollup, column by column. At every moment no column exceeds the committed definitions,
   updates and retirements of the day. Once no analytics row is pending and the whole topic is consumed each is
   exactly their number but those never applied, each of them stranded or dead-lettered; with nothing stranded
   or dead-lettered, their number. A schedule event counts nowhere.
   */
  lemma RowCountsCommittedEvents(env: Env, steps: seq<Step>, s: State, consumption: seq<Consumer.Step>, c: Consumer.State, day: int)
    requires TotalOrder(env.before) && s == Exec(env, EMPTY, steps)
    requires c == Consumer.Exec(Consumer.EMPTY, consumption) && c.log <= Stream(s.log)
    ensures var h, rows, seen := s.history, Project(c.applied).rows, Project(c.applied).seen;
            var row := if day in rows then rows[day] else Analytics.Row(0, 0, 0);
            var defined := set k, n | k in h && 0 <= n < |h[k]| && h[k][n].event.Created? && h[k][n].event.at / NANOS_PER_DAY == day :: h[k][n].eventId;
            var updated := set k, n | k in h && 0 <= n < |h[k]| && h[k][n].event.Updated? && h[k][n].event.at / NANOS_PER_DAY == day :: h[k][n].eventId;
            var retired := set k, n | k in h && 0 <= n < |h[k]| && h[k][n].event.Retired? && h[k][n].event.at / NANOS_PER_DAY == day :: h[k][n].eventId;
            var drained := forall id :: id in s.rows && s.rows[id].msg.topic == Topic.Analytics ==> s.rows[id].published;
            && row.defined <= |defined| && row.revised <= |updated| && row.deactivated <= |retired|
            && (forall k, n :: k in h && 0 <= n < |h[k]| && h[k][n].event.ScheduleChanged? ==> h[k][n].eventId !in seen)
            && (drained && c.log == Stream(s.log) && c.offset == |c.log| ==>
                  && row.defined == |defined| - |defined - seen| && row.revised == |updated| - |updated - seen|
                  && row.deactivated == |retired| - |retired - seen|
                  && (forall x :: x in (defined + updated + retired) - seen ==> x in c.stranded || Consumer.Lettered(c.log, c.dlq, x))
                  && (c.stranded == {} && c.dlq == [] ==> row == Analytics.Row(|defined|, |updated|, |retired|)))
  {
    assert FromLog(Consumer.EMPTY);
    hide Exec, Consumer.Exec, Inv, Consumer.Inv, FromLog, Stream, Project, Happened, Replay.Quiet;
    Reachable(env, steps);
    Consumer.Reachable(consumption);
    AppliedComeFromLog(Consumer.EMPTY, consumption);
    HappenedMeans(s.history, day);
    DrainedIsQuiet(s);
    ColumnsAt(env, s, c, day);
    SpelledOut(s, c, day);
  }

  lemma DrainedIsQuiet(s: State)
    ensures Replay.Quiet(s, Topic.Analytics) <==> forall id :: id in s.rows && s.rows[id].msg.topic == Topic.Analytics ==> s.rows[id].published
  {}

  /** With nothing stranded or dead-lettered nothing is missing. */
  lemma SpelledOut(s: State, c: Consumer.State, day: int)
    ensures var h, seen := s.history, Project(c.applied).seen;
            (forall kind, x :: x in Happened(h, kind, day) - seen ==> x in c.stranded || Consumer.Lettered(c.log, c.dlq, x))
            && c.stranded == {} && c.dlq == [] ==>
              forall kind :: Happened(h, kind, day) - seen == {}
  {
    hide Happened, Project;
  }
}
