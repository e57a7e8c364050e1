/**
 Two use cases that overlap on one path, played out: each loads before it locks, so the later save is
 decided on a version that is no longer there, and the topic and the store part for good, or a resent
 message makes the topic show what never was.
 */
module StaleLoads {
  import opened Shared
  import opened ProcessPaths
  import opened Catalogue
  import opened Outbox
  import opened OutboxInvariant
  import opened Histories
  import opened RelayOrder
  import opened RelayPass
  import opened Commands
  import TwoRelays
  import Replay

  const PICK := PathKey("PICK")
  const OTHER := TwoRelays.FIRST.(direct := true)
  const REDEFINE := DefinePath("PICK", OTHER, 0)
  const RETIRE := DeactivatePath("PICK", 0)

  /** The path's last save does not store what has been published. */
  ghost predicate Parted(s: State) {
    var h := Hist(s.history, PICK);
    s.txs == map[] && s.passes == map[] && h != [] && !SaveAgrees(h, |h| - 1)
  }

  /** A creation decided on an empty load meets a row with another `direct`. */
  lemma RedefineParts(env: Env, s: State)
    requires env.isLower("pick") && TwoRelays.OneCommitted(s)
    ensures Decides(env, s.history, REDEFINE, 0, {}) && Parted(AfterCommand(env, s, REDEFINE, 0, {}))
  {
    var w := Saving(env, s, REDEFINE, 0, {});
    var h := Hist(AfterCommand(env, s, REDEFINE, 0, {}).history, PICK);
    assert h == Hist(s.history, PICK) + [Made(Whole(w, s.nextId))];
    assert Before(h, 1) == Before(Hist(s.history, PICK), 1);
  }

  /** A retirement that loaded the first definition saves it over the second. */
  lemma RetireParts(env: Env, s: State)
    requires env.isLower("pick") && TwoRelays.OneCommitted(s) && Decides(env, s.history, TwoRelays.REVISE, 1, {})
    ensures var n := AfterCommand(env, s, TwoRelays.REVISE, 1, {});
            && n.txs == map[] && n.passes == map[]
            && Decides(env, n.history, RETIRE, 1, {}) && Parted(AfterCommand(env, n, RETIRE, 1, {}))
  {
    assert WholeMicros(1000) == 1000 && WholeMicros(2000) == 2000;
    var n := AfterCommand(env, s, TwoRelays.REVISE, 1, {});
    var w := Saving(env, s, TwoRelays.REVISE, 1, {});
    var h1, h2 := Hist(s.history, PICK), Hist(n.history, PICK);
    assert h2 == h1 + [Made(Whole(w, s.nextId))] && h2[1].event == Updated("PICK", TwoRelays.SECOND, 0);
    assert Before(h2, 1) == Before(h1, 1);
    var x := Saving(env, n, RETIRE, 1, {});
    var h3 := Hist(AfterCommand(env, n, RETIRE, 1, {}).history, PICK);
    assert h3 == h2 + [Made(Whole(x, n.nextId))] && h3[1] == h2[1] && h3[2].event.Retired? && h3[2].loaded == 1;
    assert Before(h3, 1) == Before(h2, 1);
    assert LastPublished(h3, 2) == LastPublished(h3, 1) == h3[1].event;
  }

  lemma CommandIsSafe(env: Env, s: State, cmd: Command, version: nat)
    ensures SafeRun(env, s, WholeSteps(0, false, cmd, version, {}))
  {
    TwoRelays.NoClaimIsSafe(env, s, WholeSteps(0, false, cmd, version, {}));
  }

  /** With nothing else open, one pass leaves no row pending and the committed changes as they are. */
  lemma Drained(env: Env, s: State) returns (steps: seq<Step>)
    requires s.passes == map[] && Bounded(s.rows, s.nextId, s.nextEvent)
    ensures SafeRun(env, s, steps)
    ensures var n := Exec(env, s, steps); n.history == s.history && n.store == s.store && forall t :: Replay.Quiet(n, t)
  {
    hide Apply, Batch, Settled, Exec, SafeRun, Messages;
    var limit := |PendingIds(s.rows)|;
    var before := [Claim(0, limit)] + Sends(0, |Batch(s, limit)|);
    steps := before + [Close(0)];
    CleanPassRuns(env, s, 0, limit);
    CleanPassPublishesLowest(s, limit);
    var n := CleanPass(s, limit);
    assert |PendingIds(n.rows)| == 0;
    forall t ensures Replay.Quiet(n, t) { NonePending(n, t); }
    TwoRelays.SecondIsSafe(env, s, 0, limit, |Batch(s, limit)|);
    TwoRelays.NoClaimIsSafe(env, Exec(env, s, before), [Close(0)]);
    TwoRelays.SafeAppend(env, s, before, [Close(0)]);
  }

  lemma NonePending(s: State, t: Topic)
    requires |PendingIds(s.rows)| == 0
    ensures Replay.Quiet(s, t)
  {
    assert PendingIds(s.rows) == {};
    forall id | id in s.rows ensures s.rows[id].published {
      assert id !in PendingIds(s.rows);
    }
  }

  lemma PartedStaysParted(env: Env, steps: seq<Step>) returns (all: seq<Step>)
    requires TotalOrder(env.before) && SafeRun(env, EMPTY, steps) && Parted(Exec(env, EMPTY, steps))
    ensures SplitForGood(env, all)
  {
    hide Exec, SafeRun, Parted, SaveAgrees, Inv, Replay.Quiet;
    var s := Exec(env, EMPTY, steps);
    Reachable(env, steps);
    Facts(env, s);
    var more := Drained(env, s);
    all := steps + more;
    TwoRelays.SafeAppend(env, EMPTY, steps, more);
    ExecAppend(env, EMPTY, steps, more);
    forall t ensures !Mirrors(env, Replay.Get(Replay.Rebuilt(Exec(env, EMPTY, all).log, t), PICK), Lookup(Exec(env, EMPTY, all).store, PICK)) {
      Replay.QuietReplayIsTheStore(env, all, t, PICK);
    }
  }

  lemma Facts(env: Env, s: State)
    requires Inv(env, s) && Parted(s)
    ensures s.passes == map[] && Bounded(s.rows, s.nextId, s.nextEvent)
    ensures var h := Hist(s.history, PICK); h != [] && !SaveAgrees(h, |h| - 1)
  {
    hide StoreInv, RowInv, TxInv, PassInv, LogInv, Bounded, TotalOrder, SaveAgrees;
  }

  /** One relay, nothing pending, and neither topic shows what the store holds. */
  ghost predicate SplitForGood(env: Env, steps: seq<Step>) {
    var s := Exec(env, EMPTY, steps);
    && SafeRun(env, EMPTY, steps)
    && forall t :: Replay.Quiet(s, t) && !Mirrors(env, Replay.Get(Replay.Rebuilt(s.log, t), PICK), Lookup(s.store, PICK))
  }

  /** Two definitions of one path, both loaded before either committed: the second is published, the first `direct` stays. */
  lemma OverlappingDefinitionsSplit(env: Env) returns (steps: seq<Step>)
    requires TotalOrder(env.before) && env.isLower("pick")
    ensures SplitForGood(env, steps)
  {
    hide Decides, Exec, AfterCommand, TwoRelays.OneCommitted, SafeRun, Parted, SplitForGood;
    TwoRelays.DefineCommits(env);
    var s1 := AfterCommand(env, EMPTY, TwoRelays.DEFINE, 0, {});
    CommandRuns(env, EMPTY, 0, false, TwoRelays.DEFINE, 0, {});
    CommandIsSafe(env, EMPTY, TwoRelays.DEFINE, 0);
    RedefineParts(env, s1);
    TwoRelays.NoTxs(s1);
    CommandRuns(env, s1, 0, false, REDEFINE, 0, {});
    CommandIsSafe(env, s1, REDEFINE, 0);
    var a, b := WholeSteps(0, false, TwoRelays.DEFINE, 0, {}), WholeSteps(0, false, REDEFINE, 0, {});
    ExecAppend(env, EMPTY, a, b);
    TwoRelays.SafeAppend(env, EMPTY, a, b);
    steps := PartedStaysParted(env, a + b);
  }

  /** A retirement that loaded before a revision committed: the revision is published and no longer stored. */
  lemma OverlappingRetirementSplits(env: Env) returns (steps: seq<Step>)
    requires TotalOrder(env.before) && env.isLower("pick")
    ensures SplitForGood(env, steps)
  {
    hide Decides, Exec, AfterCommand, TwoRelays.OneCommitted, TwoRelays.BothCommitted, SafeRun, Parted, SplitForGood;
    TwoRelays.DefineCommits(env);
    var s1 := AfterCommand(env, EMPTY, TwoRelays.DEFINE, 0, {});
    CommandRuns(env, EMPTY, 0, false, TwoRelays.DEFINE, 0, {});
    CommandIsSafe(env, EMPTY, TwoRelays.DEFINE, 0);
    TwoRelays.NoTxs(s1);
    TwoRelays.ReviseCommits(env, s1);
    CommandRuns(env, s1, 0, false, TwoRelays.REVISE, 1, {});
    CommandIsSafe(env, s1, TwoRelays.REVISE, 1);
    RetireParts(env, s1);
    var s2 := AfterCommand(env, s1, TwoRelays.REVISE, 1, {});
    CommandRuns(env, s2, 0, false, RETIRE, 1, {});
    CommandIsSafe(env, s2, RETIRE, 1);
    var a, b, c := WholeSteps(0, false, TwoRelays.DEFINE, 0, {}), WholeSteps(0, false, TwoRelays.REVISE, 1, {}), WholeSteps(0, false, RETIRE, 1, {});
    ExecAppend(env, EMPTY, a, b);
    ExecAppend(env, EMPTY, a + b, c);
    TwoRelays.SafeAppend(env, EMPTY, a, b);
    TwoRelays.SafeAppend(env, EMPTY, a + b, c);
    steps := PartedStaysParted(env, a + b + c);
  }

  // ---- a retirement sent again over a later definition ----

  const FIRST_STORED := PathValue(Path("PICK", TwoRelays.FIRST, Active, 0, 0))
  const RETIRED_STORED := PathValue(Path("PICK", TwoRelays.FIRST, Deactivated, 0, 0))
  const SECOND_STORED := PathValue(Path("PICK", TwoRelays.SECOND, Active, 0, 0))

  ghost predicate AtRest(s: State) { s.txs == map[] && s.passes == map[] }

  /** The definition is committed and published. */
  ghost predicate DefinitionOut(s: State) {
    && AtRest(s) && s.nextId == 2 && s.rows.Keys == {0, 1} && s.rows[0].published && s.rows[1].published
    && Hist(s.history, PICK) != [] && |Hist(s.history, PICK)| == 1
    && Hist(s.history, PICK)[0].value == FIRST_STORED && Hist(s.history, PICK)[0].event == Created("PICK", TwoRelays.FIRST, 0)
    && Lookup(s.store, PICK) == Some(FIRST_STORED)
  }

  /** The retirement is committed too, its rows pending. */
  ghost predicate RetirementIn(s: State) {
    && AtRest(s) && s.nextId == 4 && s.rows.Keys == {0, 1, 2, 3} && s.rows[0].published && s.rows[1].published
    && !s.rows[2].published && !s.rows[3].published
    && s.rows[2].msg.(eventId := 0) == Message(Integration, 0, PICK, Retired("PICK", 0), 1) && s.rows[3].msg.topic == Analytics
    && |Hist(s.history, PICK)| == 2
    && Hist(s.history, PICK)[0].value == FIRST_STORED && Hist(s.history, PICK)[0].event == Created("PICK", TwoRelays.FIRST, 0)
    && Hist(s.history, PICK)[1].value == RETIRED_STORED && Hist(s.history, PICK)[1].event == Retired("PICK", 0)
    && Lookup(s.store, PICK) == Some(RETIRED_STORED)
  }

  /** And an update that loaded before it, all four rows pending. */
  ghost predicate UpdateIn(s: State) {
    && AtRest(s) && s.nextId == 6 && s.rows.Keys == {0, 1, 2, 3, 4, 5} && s.rows[0].published && s.rows[1].published
    && !s.rows[2].published && !s.rows[3].published && !s.rows[4].published
    && s.rows[2].msg.(eventId := 0) == Message(Integration, 0, PICK, Retired("PICK", 0), 1)
    && s.rows[3].msg.topic == Analytics
    && s.rows[4].msg.(eventId := 0) == Message(Integration, 0, PICK, Updated("PICK", TwoRelays.SECOND, 0), 2)
    && Versions(Hist(s.history, PICK))
  }

  ghost predicate Versions(h: seq<Change>) {
    && |h| == 3
    && h[0].value == FIRST_STORED && h[0].event == Created("PICK", TwoRelays.FIRST, 0)
    && h[1].value == RETIRED_STORED && h[1].event == Retired("PICK", 0)
    && h[2].value == SECOND_STORED && h[2].event == Updated("PICK", TwoRelays.SECOND, 0)
  }

  lemma AllOut(rows: map<nat, Row>)
    requires |PendingIds(rows)| == 0
    ensures forall id :: id in rows ==> rows[id].published
  {
    assert PendingIds(rows) == {};
    forall id | id in rows ensures rows[id].published { assert id !in PendingIds(rows); }
  }

  lemma TwoPending(s: State)
    requires TwoRelays.OneCommitted(s)
    ensures |PendingIds(s.rows)| == 2 && forall id :: id in s.rows ==> id < s.nextId
  {
    assert PendingIds(s.rows) == {0, 1};
    TwoElements();
  }

  lemma DefinitionGoesOut(env: Env, s: State)
    requires TwoRelays.OneCommitted(s) && Hist(s.history, PICK)[0].event == Created("PICK", TwoRelays.FIRST, 0)
    ensures DefinitionOut(Exec(env, s, [Claim(0, 2)] + Sends(0, |Batch(s, 2)|) + [Close(0)]))
  {
    hide Exec, Settled, Apply, Batch, Messages, Ids, PendingIds, Sends;
    TwoPending(s);
    CleanPassRuns(env, s, 0, 2);
    CleanPassPublishesLowest(s, 2);
    SettledTouchesOnly(s.rows, Pass(Batch(s, 2), |Batch(s, 2)|, Ready));
    AllOut(CleanPass(s, 2).rows);
  }

  lemma TwoElements()
    ensures |{0, 1}| == 2
  {}

  /** What a command adds, laid out. */
  lemma Adds(env: Env, s: State, cmd: Command, w: Work)
    requires Target(cmd) == PICK && Decides(env, s.history, cmd, 1, {}) && w == Saving(env, s, cmd, 1, {}) && w.key == PICK
    ensures var n := AfterCommand(env, s, cmd, 1, {});
            && n.txs == s.txs && n.passes == s.passes && n.nextId == s.nextId + 2
            && n.rows == s.rows + map[s.nextId := NewRow(w, 0), s.nextId + 1 := NewRow(w, 1)]
            && Hist(n.history, PICK) == Hist(s.history, PICK) + [Made(Whole(w, s.nextId))]
            && Lookup(n.store, PICK) == Some(w.value)
  {
    hide Decides, Saving;
  }

  lemma RetirementComesIn(env: Env, s: State)
    requires DefinitionOut(s)
    ensures Decides(env, s.history, RETIRE, 1, {}) && RetirementIn(AfterCommand(env, s, RETIRE, 1, {}))
  {
    assert WholeMicros(1000) == 1000;
    var w := Saving(env, s, RETIRE, 1, {});
    assert w == Saved(PICK, RETIRED_STORED, Retired("PICK", 0), s.nextEvent, 1, [], map[], 1);
    Adds(env, s, RETIRE, w);
    hide Decides, Saving, AfterCommand;
  }

  lemma UpdateComesIn(env: Env, s: State)
    requires env.isLower("pick") && RetirementIn(s)
    ensures Decides(env, s.history, TwoRelays.REVISE, 1, {}) && UpdateIn(AfterCommand(env, s, TwoRelays.REVISE, 1, {}))
  {
    assert WholeMicros(2000) == 2000;
    var w := Saving(env, s, TwoRelays.REVISE, 1, {});
    assert w == Saved(PICK, SECOND_STORED, Updated("PICK", TwoRelays.SECOND, 0), s.nextEvent, 2, [], map[], 1);
    Adds(env, s, TwoRelays.REVISE, w);
    hide Decides, Saving, AfterCommand;
  }

  /** A pass that sends its first `n` rows and is then lost, marks and all. */
  function Lost(n: nat): seq<Step> { [Claim(0, 3)] + Sends(0, n) + [Abandon(0)] }

  lemma LostRuns(env: Env, s: State, n: nat)
    requires s.passes == map[] && n <= |Batch(s, 3)|
    ensures forall i :: 0 <= i < |Batch(s, 3)| ==> Batch(s, 3)[i] in s.rows
    ensures var x := Exec(env, s, Lost(n));
            && x.rows == s.rows && x.nextId == s.nextId && x.history == s.history && x.txs == s.txs && x.passes == map[]
            && x.log == s.log + Messages(s.rows, Batch(s, 3)[..n])
    ensures SafeRun(env, s, Lost(n))
  {
    hide Apply, Batch, AfterSends, Exec, SafeRun, Messages;
    var before := [Claim(0, 3)] + Sends(0, n);
    SendsRun(env, s, 0, 3, n);
    AbandonAtEnd(env, s, 0, Batch(s, 3), n);
    ExecSnoc(env, s, before, Abandon(0));
    TwoRelays.SecondIsSafe(env, s, 0, 3, n);
    TwoRelays.NoClaimIsSafe(env, Exec(env, s, before), [Abandon(0)]);
    TwoRelays.SafeAppend(env, s, before, [Abandon(0)]);
  }

  lemma BatchOfThree(s: State)
    requires s.passes == map[] && s.nextId == 6 && s.rows.Keys == {0, 1, 2, 3, 4, 5} && s.rows[0].published && s.rows[1].published
    requires !s.rows[2].published && !s.rows[3].published && !s.rows[4].published
    ensures Batch(s, 3) == [2, 3, 4]
  {
    var rows := s.rows;
    assert Locked(s.passes) == {};
    assert Scan(rows, {}, 5, 6, 0) == [] && Scan(rows, {}, 4, 6, 1) == [4];
    assert Scan(rows, {}, 3, 6, 2) == [3, 4] && Scan(rows, {}, 2, 6, 3) == [2, 3, 4];
    assert Scan(rows, {}, 1, 6, 3) == [2, 3, 4];
  }

  /** The shown entry is the aggregate at none of its versions, neither as published nor as stored. */
  ghost predicate NoVersion(env: Env, h: seq<Change>, shown: Option<Entry>) {
    forall v :: 0 <= v <= |h| ==> shown != Replay.Folded(h, v) && !Mirrors(env, shown, Before(h, v))
  }

  lemma RetiredSecondIsNoVersion(env: Env, h: seq<Change>)
    requires Versions(h)
    ensures NoVersion(env, h, Some(PathEntry(TwoRelays.SECOND, true)))
  {
    assert WholeMicros(2000) == 2000;
    assert Replay.Folded(h, 0) == None;
    assert Replay.Folded(h, 1) == Some(PathEntry(TwoRelays.FIRST, false));
    assert Replay.Folded(h, 2) == Some(PathEntry(TwoRelays.FIRST, true));
    assert Replay.Folded(h, 3) == Some(PathEntry(TwoRelays.SECOND, false));
  }

  /** Three sent and lost, then the retirement again: the topic's last definition is the update's, and it reads retired. */
  lemma ResentOver(env: Env, s: State)
    requires UpdateIn(s)
    ensures var n := Exec(env, s, Lost(3) + Lost(1));
            SafeRun(env, s, Lost(3) + Lost(1)) && n.history == s.history
            && Replay.Get(Replay.Rebuilt(n.log, Integration), PICK) == Some(PathEntry(TwoRelays.SECOND, true))
  {
    hide Exec, SafeRun, Batch, Versions;
    BatchOfThree(s);
    LostRuns(env, s, 3);
    var m := Exec(env, s, Lost(3));
    BatchOfThree(m);
    LostRuns(env, m, 1);
    ExecAppend(env, s, Lost(3), Lost(1));
    TwoRelays.SafeAppend(env, s, Lost(3), Lost(1));
    var r, u := s.rows[2].msg, s.rows[4].msg;
    assert [2, 3, 4][..3] == [2, 3, 4] && [2, 3, 4][..1] == [2];
    assert Messages(s.rows, [2, 3, 4]) == [r, s.rows[3].msg] + [u] && Messages(s.rows, [2]) == [r];
    var before := s.log + [r, s.rows[3].msg];
    assert m.log == before + [u];
    Replay.RebuiltGrows(before, u, Integration, PICK);
    Replay.RebuiltGrows(m.log, r, Integration, PICK);
  }

  /**
   One relay, a stale load and a resend: the path is defined and published, retired, and updated by a use case
   that had loaded it before. A pass sends the retirement and the update and is lost, the next sends the
   retirement again, and the topic shows a retired update: no version the path ever had.
   */
  lemma ResentRetirementShowsNoVersion(env: Env) returns (steps: seq<Step>)
    requires env.isLower("pick")
    ensures var s := Exec(env, EMPTY, steps);
            && SafeRun(env, EMPTY, steps)
            && Replay.Get(Replay.Rebuilt(s.log, Integration), PICK) == Some(PathEntry(TwoRelays.SECOND, true))
            && NoVersion(env, Hist(s.history, PICK), Some(PathEntry(TwoRelays.SECOND, true)))
  {
    hide Decides, Exec, AfterCommand, TwoRelays.OneCommitted, SafeRun, DefinitionOut, RetirementIn, UpdateIn, NoVersion;
    TwoRelays.DefineCommits(env);
    var s1 := AfterCommand(env, EMPTY, TwoRelays.DEFINE, 0, {});
    CommandRuns(env, EMPTY, 0, false, TwoRelays.DEFINE, 0, {});
    CommandIsSafe(env, EMPTY, TwoRelays.DEFINE, 0);
    DefinedByCreation(env);
    var a, b := WholeSteps(0, false, TwoRelays.DEFINE, 0, {}), [Claim(0, 2)] + Sends(0, |Batch(s1, 2)|) + [Close(0)];
    DefinitionGoesOut(env, s1);
    TwoRelays.NoTxs(s1);
    PassIsSafe(env, s1);
    var s2 := Exec(env, s1, b);
    RetirementComesIn(env, s2);
    Resting(s2);
    CommandRuns(env, s2, 0, false, RETIRE, 1, {});
    CommandIsSafe(env, s2, RETIRE, 1);
    var s3 := AfterCommand(env, s2, RETIRE, 1, {});
    UpdateComesIn(env, s3);
    Resting(s3);
    CommandRuns(env, s3, 0, false, TwoRelays.REVISE, 1, {});
    CommandIsSafe(env, s3, TwoRelays.REVISE, 1);
    var s4 := AfterCommand(env, s3, TwoRelays.REVISE, 1, {});
    ResentOver(env, s4);
    RetiredSecondIsNoVersion(env, Hist(s4.history, PICK)) by { IsVersions(s4); }
    var c, d, e := WholeSteps(0, false, RETIRE, 1, {}), WholeSteps(0, false, TwoRelays.REVISE, 1, {}), Lost(3) + Lost(1);
    ExecAppend(env, EMPTY, a, b);
    TwoRelays.SafeAppend(env, EMPTY, a, b);
    ExecAppend(env, EMPTY, a + b, c);
    TwoRelays.SafeAppend(env, EMPTY, a + b, c);
    ExecAppend(env, EMPTY, a + b + c, d);
    TwoRelays.SafeAppend(env, EMPTY, a + b + c, d);
    ExecAppend(env, EMPTY, a + b + c + d, e);
    TwoRelays.SafeAppend(env, EMPTY, a + b + c + d, e);
    steps := a + b + c + d + e;
  }

  lemma IsVersions(s: State)
    requires UpdateIn(s)
    ensures Versions(Hist(s.history, PICK))
  {}

  lemma Resting(s: State)
    requires DefinitionOut(s) || RetirementIn(s)
    ensures s.txs == map[] && s.passes == map[]
  {}

  lemma PassIsSafe(env: Env, s: State)
    requires TwoRelays.OneCommitted(s)
    ensures SafeRun(env, s, [Claim(0, 2)] + Sends(0, |Batch(s, 2)|) + [Close(0)])
  {
    hide Apply, Batch, SafeRun;
    var before := [Claim(0, 2)] + Sends(0, |Batch(s, 2)|);
    TwoRelays.SecondIsSafe(env, s, 0, 2, |Batch(s, 2)|);
    TwoRelays.NoClaimIsSafe(env, Exec(env, s, before), [Close(0)]);
    TwoRelays.SafeAppend(env, s, before, [Close(0)]);
  }

  lemma DefinedByCreation(env: Env)
    requires env.isLower("pick") && Decides(env, EMPTY.history, TwoRelays.DEFINE, 0, {})
    ensures var h := Hist(AfterCommand(env, EMPTY, TwoRelays.DEFINE, 0, {}).history, PICK);
            |h| == 1 && h[0].event == Created("PICK", TwoRelays.FIRST, 0)
  {}
}
