/**
 Two relays at once. SKIP LOCKED keeps their batches disjoint but not in order: the exact condition on
 a claim, and a run of two overlapping passes that leaves the topic on a superseded version for good.
 */
module TwoRelays {
  import opened Shared
  import opened ProcessPaths
  import opened Catalogue
  import opened Outbox
  import opened OutboxInvariant
  import opened RelayOrder
  import opened RelayPass
  import opened Commands
  import Replay

  ghost predicate KeepsAhead(env: Env, s: State) {
    forall more :: SafeRun(env, s, more) ==> Ahead(Exec(env, s, more).rows, Exec(env, s, more).log)
  }

  lemma {:induction false} SafeAppend(env: Env, s: State, a: seq<Step>, b: seq<Step>)
    requires SafeRun(env, s, a) && SafeRun(env, Exec(env, s, a), b)
    ensures SafeRun(env, s, a + b)
    decreases |a|
  {
    hide Apply, SafeStep;
    if a == [] {
      assert a + b == b;
    } else {
      assert (a + b)[0] == a[0] && (a + b)[1..] == a[1..] + b;
      SafeAppend(env, Apply(env, s, a[0]), a[1..], b);
    }
  }

  lemma {:induction false} NoClaimIsSafe(env: Env, s: State, a: seq<Step>)
    requires forall i :: 0 <= i < |a| ==> !a[i].Claim?
    ensures SafeRun(env, s, a)
    decreases |a|
  {
    hide Apply;
    if a != [] {
      assert SafeStep(s, a[0]);
      NoClaimIsSafe(env, Apply(env, s, a[0]), a[1..]);
    }
  }

  lemma SendsHaveNoClaim(p: nat, n: nat)
    ensures forall i :: 0 <= i < |Sends(p, n)| ==> !Sends(p, n)[i].Claim?
  {}

  lemma {:induction false} RisingAtLeast(b: seq<nat>, i: nat)
    requires Rising(b) && i < |b|
    ensures b[i] >= i
  {
    if i > 0 { RisingAtLeast(b, i - 1); }
  }

  /** After a crash one unbounded claim takes every pending row. */
  lemma CrashClaimTakesAll(s: State, a: nat) returns (j: nat)
    requires s.passes == map[] && Pending(s.rows, a) && a < s.nextId
    ensures j < |Batch(s, s.nextId + 1)| && Batch(s, s.nextId + 1)[j] == a
  {
    var b := Batch(s, s.nextId + 1);
    ScanTakesLowest(s.rows, Locked(s.passes), 0, s.nextId, s.nextId + 1);
    assert a !in Locked(s.passes);
    if a !in b { RisingAtLeast(b, s.nextId); }
    j :| 0 <= j < |b| && b[j] == a;
  }

  /** A row that some pass holds stays pending through another pass's clean run. */
  lemma HeldStaysPending(s: State, limit: nat, a: nat)
    requires a in Locked(s.passes) && Pending(s.rows, a)
    ensures Pending(Settled(s.rows, Pass(Batch(s, limit), |Batch(s, limit)|, Ready)), a)
  {
    var b := Batch(s, limit);
    ScanTakesLowest(s.rows, Locked(s.passes), 0, s.nextId, limit);
    SettledTouchesOnly(s.rows, Pass(b, |b|, Ready));
    assert a !in b;
  }

  lemma ClaimedGetsPublished(s: State, limit: nat, i: nat)
    requires i < |Batch(s, limit)| && Batch(s, limit)[i] in s.rows
    ensures var rows := Settled(s.rows, Pass(Batch(s, limit), |Batch(s, limit)|, Ready));
            Batch(s, limit)[i] in rows && rows[Batch(s, limit)[i]].published && rows[Batch(s, limit)[i]].msg == s.rows[Batch(s, limit)[i]].msg
  {
    var b := Batch(s, limit);
    SettledTouchesOnly(s.rows, Pass(b, |b|, Ready));
    assert b[..|b|][i] == b[i];
  }

  /** Once the older row is sent last, the topic is behind the published newer one. */
  lemma LateSendIsBehind(env: Env, s: State, limit: nat, j: nat, p: nat, newer: nat)
    requires (forall i :: 0 <= i < |Batch(s, limit)| ==> Batch(s, limit)[i] in s.rows) && j < |Batch(s, limit)|
    requires newer in s.rows && s.rows[newer].published && Alike(s.rows[newer].msg, s.rows[Batch(s, limit)[j]].msg)
    requires s.rows[Batch(s, limit)[j]].msg.ordinal < s.rows[newer].msg.ordinal
    ensures var n := AfterSends(s, p, Batch(s, limit), j + 1); !Ahead(n.rows, n.log)
  {
    var b := Batch(s, limit);
    var m := s.rows[b[j]].msg;
    assert b[..j + 1] == b[..j] + [b[j]];
    assert s.log + Messages(s.rows, b[..j + 1]) == (s.log + Messages(s.rows, b[..j])) + [m];
    TraceGrows(s.log + Messages(s.rows, b[..j]), m, m.topic, m.key);
  }

  /** An unsafe claim has a continuation, itself safe, that leaves the topic behind its published rows. */
  lemma UnsafeClaimFallsBehind(env: Env, s: State, p: nat, limit: nat, i: nat, a: nat) returns (more: seq<Step>)
    requires Inv(env, s) && p !in s.passes && i < |Batch(s, limit)| && a in Locked(s.passes)
    requires Batch(s, limit)[i] in s.rows && Pending(s.rows, a) && a < Batch(s, limit)[i]
    requires Alike(s.rows[a].msg, s.rows[Batch(s, limit)[i]].msg)
    ensures var c := Apply(env, s, Claim(p, limit));
            SafeRun(env, c, more) && !Ahead(Exec(env, c, more).rows, Exec(env, c, more).log)
  {
    hide Inv, Apply, SafeRun, Ahead, Batch, AfterSends, Settled, Exec;
    var newer := Batch(s, limit)[i];
    OrdinalsRise(env, s, a, newer);
    CleanPassRuns(env, s, p, limit);
    HeldStaysPending(s, limit, a);
    ClaimedGetsPublished(s, limit, i);
    MessagesStay(s, limit, a);
    var n1 := CleanPass(s, limit);
    var n2 := n1.(txs := map[], passes := map[]);
    CrashRuns(env, n1);
    BelowNext(env, s, a);
    var j := CrashClaimTakesAll(n2, a);
    SendsRun(env, n2, p, n2.nextId + 1, j + 1);
    LateSendIsBehind(env, n2, n2.nextId + 1, j, p, newer);
    var first := Sends(p, |Batch(s, limit)|) + [Close(p)] + [Crash];
    var second := [Claim(p, n2.nextId + 1)] + Sends(p, j + 1);
    more := first + second;
    var c := Apply(env, s, Claim(p, limit));
    FirstRuns(env, s, p, limit);
    ExecAppend(env, c, first, second);
    SendsHaveNoClaim(p, |Batch(s, limit)|);
    NoClaimIsSafe(env, c, first);
    SecondIsSafe(env, n2, p, n2.nextId + 1, j + 1);
    SafeAppend(env, c, first, second);
  }

  lemma OrdinalsRise(env: Env, s: State, a: nat, b: nat)
    requires Inv(env, s) && a in s.rows && b in s.rows && Alike(s.rows[a].msg, s.rows[b].msg) && a < b
    ensures s.rows[a].msg.ordinal < s.rows[b].msg.ordinal
  {
    hide StoreInv, TxInv, PassInv, LogInv, RowInv;
    SameOrdinalSameRow(s.history, s.rows, a, b);
  }

  lemma BelowNext(env: Env, s: State, a: nat)
    requires Inv(env, s) && a in s.rows
    ensures a < s.nextId
  {
    hide StoreInv, TxInv, PassInv, LogInv, RowInv;
  }

  lemma MessagesStay(s: State, limit: nat, a: nat)
    requires a in s.rows
    ensures var rows := Settled(s.rows, Pass(Batch(s, limit), |Batch(s, limit)|, Ready)); a in rows && rows[a].msg == s.rows[a].msg
  {
    SettledTouchesOnly(s.rows, Pass(Batch(s, limit), |Batch(s, limit)|, Ready));
  }

  lemma CrashRuns(env: Env, s: State)
    ensures Exec(env, s, [Crash]) == s.(txs := map[], passes := map[])
  {
    ExecSnoc(env, s, [], Crash);
    assert [] + [Crash] == [Crash];
  }

  lemma FirstRuns(env: Env, s: State, p: nat, limit: nat)
    requires p !in s.passes && forall i :: 0 <= i < |Batch(s, limit)| ==> Batch(s, limit)[i] in s.rows
    ensures Exec(env, Apply(env, s, Claim(p, limit)), Sends(p, |Batch(s, limit)|) + [Close(p)] + [Crash])
         == CleanPass(s, limit).(txs := map[], passes := map[])
  {
    hide Apply, Batch, CleanPass;
    var tail := Sends(p, |Batch(s, limit)|) + [Close(p)];
    CleanPassRuns(env, s, p, limit);
    assert [Claim(p, limit)] + Sends(p, |Batch(s, limit)|) + [Close(p)] == [Claim(p, limit)] + tail;
    assert ([Claim(p, limit)] + tail)[1..] == tail;
    ExecAppend(env, Apply(env, s, Claim(p, limit)), tail, [Crash]);
    CrashRuns(env, CleanPass(s, limit));
  }

  lemma SecondIsSafe(env: Env, s: State, p: nat, limit: nat, n: nat)
    requires s.passes == map[]
    ensures SafeRun(env, s, [Claim(p, limit)] + Sends(p, n))
  {
    hide Apply;
    var steps := [Claim(p, limit)] + Sends(p, n);
    SendsHaveNoClaim(p, n);
    assert steps[1..] == Sends(p, n);
    NoClaimIsSafe(env, Apply(env, s, Claim(p, limit)), Sends(p, n));
    assert Locked(s.passes) == {};
    assert SafeStep(s, steps[0]);
  }

  /**
   A claim keeps a topic caught up with its published rows in every safe continuation exactly when no
   other pass holds a lower row of the same aggregate and topic as a row it takes.
   */
  lemma ClaimKeepsOrderIff(env: Env, s: State, p: nat, limit: nat)
    requires Inv(env, s) && OrderInv(s) && p !in s.passes
    ensures SafeBatch(s, Batch(s, limit)) <==> KeepsAhead(env, Apply(env, s, Claim(p, limit)))
  {
    var c := Apply(env, s, Claim(p, limit));
    if SafeBatch(s, Batch(s, limit)) {
      forall more | SafeRun(env, c, more) ensures Ahead(Exec(env, c, more).rows, Exec(env, c, more).log) {
        hide Apply, Inv, SafeBatch, Exec, SafeRun;
        assert SafeStep(s, Claim(p, limit));
        StepKeeps(env, s, Claim(p, limit));
        StepKeepsOrder(env, s, Claim(p, limit));
        RunKeepsOrder(env, c, more);
      }
    } else {
      hide Apply, Inv, Exec, SafeRun, Ahead, OrderInv;
      var i, a :| 0 <= i < |Batch(s, limit)| && Batch(s, limit)[i] in s.rows && a in s.rows && a in Locked(s.passes)
                  && Alike(s.rows[a].msg, s.rows[Batch(s, limit)[i]].msg) && a < Batch(s, limit)[i];
      HeldArePending(env, s, a);
      var more := UnsafeClaimFallsBehind(env, s, p, limit, i, a);
    }
  }

  lemma HeldArePending(env: Env, s: State, a: nat)
    requires Inv(env, s) && a in Locked(s.passes)
    ensures Pending(s.rows, a)
  {
    hide StoreInv, TxInv, LogInv, RowInv;
    var p, i :| p in s.passes && 0 <= i < |s.passes[p].batch| && s.passes[p].batch[i] == a;
    assert PassFits(s.rows, s.acked, s.passes[p]);
  }

  // ---- the overlap of a rolling deploy, played out ----

  const FIRST := Definition("pick", false, ["pick"], "", 1000, Eligibility(None, [], [], false))
  const SECOND := FIRST.(cycleTime := 2000)
  const DEFINE := DefinePath("PICK", FIRST, 0)
  const REVISE := RevisePath("PICK", Revision("pick", ["pick"], 2000, FIRST.eligibility), 0)

  function Msg(t: Topic, n: nat): Message
    requires n < 2
  {
    Message(t, n, PathKey("PICK"), if n == 0 then Created("PICK", FIRST, 0) else Updated("PICK", SECOND, 0), n)
  }

  /** Both commands committed, nothing sent: rows 0 and 1 of the creation, 2 and 3 of the update. */
  ghost predicate BothCommitted(s: State) {
    && s.store == map[PathKey("PICK") := PathValue(Path("PICK", SECOND, Active, 0, 0))]
    && s.rows == map[0 := Row(Msg(Integration, 0), false, 0), 1 := Row(Msg(Analytics, 0), false, 0),
                     2 := Row(Msg(Integration, 1), false, 0), 3 := Row(Msg(Analytics, 1), false, 0)]
    && s.nextId == 4 && s.txs == map[] && s.passes == map[] && s.log == []
  }

  ghost predicate OneCommitted(s: State) {
    && s.store == map[PathKey("PICK") := PathValue(Path("PICK", FIRST, Active, 0, 0))]
    && s.rows == map[0 := Row(Msg(Integration, 0), false, 0), 1 := Row(Msg(Analytics, 0), false, 0)]
    && s.nextId == 2 && s.nextEvent == 1 && |Hist(s.history, PathKey("PICK"))| == 1
    && Before(Hist(s.history, PathKey("PICK")), 1) == Some(s.store[PathKey("PICK")])
    && s.txs == map[] && s.passes == map[] && s.log == []
  }

  lemma DefineCommits(env: Env)
    requires env.isLower("pick")
    ensures Decides(env, EMPTY.history, DEFINE, 0, {}) && OneCommitted(AfterCommand(env, EMPTY, DEFINE, 0, {}))
  {
    assert WholeMicros(1000) == 1000;
    var w := Saving(env, EMPTY, DEFINE, 0, {});
    assert w == Saved(PathKey("PICK"), PathValue(Path("PICK", FIRST, Active, 0, 0)), Created("PICK", FIRST, 0), 0, 0, [], map[], 0);
  }

  lemma ReviseCommits(env: Env, s: State)
    requires env.isLower("pick") && OneCommitted(s)
    ensures Decides(env, s.history, REVISE, 1, {}) && BothCommitted(AfterCommand(env, s, REVISE, 1, {}))
  {
    assert WholeMicros(2000) == 2000;
    var w := Saving(env, s, REVISE, 1, {});
    assert w == Saved(PathKey("PICK"), PathValue(Path("PICK", SECOND, Active, 0, 0)), Updated("PICK", SECOND, 0), 1, 1, [], map[], 1);
  }

  lemma CommitBoth(env: Env) returns (steps: seq<Step>)
    requires env.isLower("pick")
    ensures BothCommitted(Exec(env, EMPTY, steps))
  {
    hide Decides, Exec, AfterCommand, OneCommitted, BothCommitted;
    DefineCommits(env);
    var s1 := AfterCommand(env, EMPTY, DEFINE, 0, {});
    ReviseCommits(env, s1);
    CommandRuns(env, EMPTY, 0, false, DEFINE, 0, {});
    assert Unlocked(s1.txs, PathKey("PICK")) && 0 !in s1.txs by { NoTxs(s1); }
    CommandRuns(env, s1, 0, false, REVISE, 1, {});
    ExecAppend(env, EMPTY, WholeSteps(0, false, DEFINE, 0, {}), WholeSteps(0, false, REVISE, 1, {}));
    steps := WholeSteps(0, false, DEFINE, 0, {}) + WholeSteps(0, false, REVISE, 1, {});
  }

  lemma NoTxs(s: State)
    requires OneCommitted(s)
    ensures s.txs == map[]
  {}

  lemma ScanFour(rows: map<nat, Row>, locked: set<nat>)
    requires rows.Keys == {0, 1, 2, 3} && forall id :: id in rows ==> !rows[id].published
    ensures locked == {} ==> Scan(rows, locked, 0, 4, 2) == [0, 1]
    ensures locked == {0, 1} ==> Scan(rows, locked, 0, 4, 2) == [2, 3]
  {
    assert Scan(rows, locked, 4, 4, 2) == [] && Scan(rows, locked, 4, 4, 0) == [];
    assert locked == {0, 1} ==> Scan(rows, locked, 3, 4, 1) == [3] && Scan(rows, locked, 2, 4, 2) == [2, 3];
    assert locked == {} ==> Scan(rows, locked, 1, 4, 1) == [1] + Scan(rows, locked, 2, 4, 0);
  }

  ghost function Stalled(s: State): State { s.(passes := map[1 := Pass([0, 1], 0, Ready)]) }

  lemma StallRuns(env: Env, s: State)
    requires BothCommitted(s)
    ensures Exec(env, s, [Claim(1, 2)]) == Stalled(s)
  {
    hide Scan;
    ScanFour(s.rows, {});
    assert Locked(s.passes) == {};
    EmptyRun(env, s);
    ExecSnoc(env, s, [], Claim(1, 2));
    assert [] + [Claim(1, 2)] == [Claim(1, 2)];
  }

  /** The update is out and marked; the creation is still held by the stalled pass. */
  ghost predicate Overtaken(s: State, n: State) {
    && n.store == s.store && n.passes == map[1 := Pass([0, 1], 0, Ready)]
    && n.rows.Keys == s.rows.Keys == {0, 1, 2, 3} && n.rows[2].published && n.rows[3].published
    && n.rows[0].msg == Msg(Integration, 0) && n.rows[1].msg == Msg(Analytics, 0)
    && n.log == [Msg(Integration, 1), Msg(Analytics, 1)]
  }

  lemma OvertakeRuns(env: Env, s: State)
    requires BothCommitted(s)
    ensures Overtaken(s, Exec(env, Stalled(s), [Claim(2, 2)] + Sends(2, 2) + [Close(2)]))
  {
    hide Exec, Scan, Settled;
    var c := Stalled(s);
    assert Locked(c.passes) == {0, 1} by { assert c.passes[1].batch[0] == 0 && c.passes[1].batch[1] == 1; }
    ScanFour(c.rows, {0, 1});
    CleanPassRuns(env, c, 2, 2);
    SettledTouchesOnly(c.rows, Pass([2, 3], 2, Ready));
    assert [2, 3][..2] == [2, 3];
    assert Messages(c.rows, [2, 3]) == [Msg(Integration, 1), Msg(Analytics, 1)];
  }

  lemma ResumesFrom(s: State, o: State)
    requires Overtaken(s, o)
    ensures var rest := o.(passes := map[]);
            && 0 in rest.rows && 1 in rest.rows && o == AfterSends(rest, 1, [0, 1], 0)
            && (forall id :: id in Settled(rest.rows, Pass([0, 1], 2, Ready)) ==> Settled(rest.rows, Pass([0, 1], 2, Ready))[id].published)
            && rest.log + Messages(rest.rows, [0, 1]) == [Msg(Integration, 1), Msg(Analytics, 1), Msg(Integration, 0), Msg(Analytics, 0)]
            && rest.store == s.store
  {
    hide Settled;
    var rest := o.(passes := map[]);
    SettledTouchesOnly(rest.rows, Pass([0, 1], 2, Ready));
    assert [0, 1][..2] == [0, 1];
    assert Messages(rest.rows, [0, 1]) == [Msg(Integration, 0), Msg(Analytics, 0)];
  }

  lemma ResumeRuns(env: Env, s: State, o: State)
    requires BothCommitted(s) && Overtaken(s, o)
    ensures var n := Exec(env, o, [Ack(1), Mark(1), Ack(1), Mark(1), Close(1)]);
            && n.store == s.store && (forall id :: id in n.rows ==> n.rows[id].published)
            && n.log == [Msg(Integration, 1), Msg(Analytics, 1), Msg(Integration, 0), Msg(Analytics, 0)]
  {
    hide Exec, Apply, Settled, BothCommitted;
    var rest := o.(passes := map[]);
    ResumesFrom(s, o);
    hide AfterSends, Messages, Overtaken;
    AckMarkRuns(env, rest, 1, [0, 1], 0);
    AckMarkRuns(env, rest, 1, [0, 1], 1);
    CloseRuns(env, rest, 1, [0, 1]);
    Exec5(env, o, [Ack(1), Mark(1), Ack(1), Mark(1), Close(1)]);
  }

  /** The older relay claims the creation and stalls; the newer one claims and publishes the update; the older one goes on. */
  lemma OverlapRuns(env: Env, s: State) returns (steps: seq<Step>)
    requires BothCommitted(s)
    ensures var n := Exec(env, s, steps);
            && n.store == s.store && (forall id :: id in n.rows ==> n.rows[id].published)
            && n.log == [Msg(Integration, 1), Msg(Analytics, 1), Msg(Integration, 0), Msg(Analytics, 0)]
  {
    hide Exec, BothCommitted, Overtaken;
    var second := [Claim(2, 2)] + Sends(2, 2) + [Close(2)];
    var third := [Ack(1), Mark(1), Ack(1), Mark(1), Close(1)];
    StallRuns(env, s);
    OvertakeRuns(env, s);
    ResumeRuns(env, s, Exec(env, Stalled(s), second));
    ExecAppend(env, s, [Claim(1, 2)], second);
    ExecAppend(env, s, [Claim(1, 2)] + second, third);
    steps := [Claim(1, 2)] + second + third;
  }

  /**
   With two relays overlapping, every row can end published while the topic, replayed from the start,
   shows the first definition and the store holds the second: per-path order is not preserved.
   */
  lemma OverlappingRelaysLeaveTheTopicStale(env: Env) returns (steps: seq<Step>)
    requires env.isLower("pick")
    ensures var s := Exec(env, EMPTY, steps);
            && (forall id :: id in s.rows ==> s.rows[id].published)
            && Replay.Get(Replay.Rebuilt(s.log, Integration), PathKey("PICK")) == Some(PathEntry(FIRST, false))
            && PathKey("PICK") in s.store && View(s.store[PathKey("PICK")]) == PathEntry(SECOND, false)
  {
    hide Exec;
    var a := CommitBoth(env);
    var b := OverlapRuns(env, Exec(env, EMPTY, a));
    steps := a + b;
    ExecAppend(env, EMPTY, a, b);
    var log := Exec(env, EMPTY, steps).log;
    assert log[..3] + [Msg(Analytics, 0)] == log && log[..2] + [Msg(Integration, 0)] == log[..3];
    Replay.RebuiltGrows(log[..3], Msg(Analytics, 0), Integration, PathKey("PICK"));
    Replay.RebuiltGrows(log[..2], Msg(Integration, 0), Integration, PathKey("PICK"));
  }
}
