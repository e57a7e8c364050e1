/** OutboxRelay.RelayOnce and Run as the code issues them, one statement or send after another. */
module Relay {
  import opened Shared
  import opened Catalogue
  import opened Outbox
  import opened OutboxInvariant
  import opened Infrastructure
  import opened RelayPass
  import opened RelayOrder

  /** `clean`: the failure itself was recorded and the pass committed without further error. */
  datatype PassError = NoError | SqlTrouble | SendFailed(clean: bool)

  /**
   What one pass leaves. Without an error it is a clean pass. When the send of row `published` failed
   and the commit took effect, exactly the rows before it are marked and it gained an attempt. In all
   other cases the table is as before, unless the commit of a complete pass went unacknowledged.
   */
  ghost predicate PassResult(s: State, n: State, limit: nat, published: nat, err: PassError)
    requires forall i :: 0 <= i < |Batch(s, limit)| ==> Batch(s, limit)[i] in s.rows
  {
    var b := Batch(s, limit);
    && published <= |b|
    && match err
       case NoError => published == |b| && n == CleanPass(s, limit)
       case SendFailed(clean) =>
         && published < |b|
         && (Left(s, n, Messages(s.rows, b[..published])) || Left(s, n, Messages(s.rows, b[..published + 1])))
         && (n.rows == Settled(s.rows, Pass(b, published, Noted)) || (!clean && n.rows == s.rows))
       case SqlTrouble =>
         && (Left(s, n, Messages(s.rows, b[..published])) || (published < |b| && Left(s, n, Messages(s.rows, b[..published + 1]))))
         && (n.rows == s.rows || (published == |b| && n.rows == Settled(s.rows, Pass(b, published, Ready))))
  }

  /** Exactly the rows in `sent` are newly published, each with one more attempt; `failed` counts an attempt; all else is as it was. */
  ghost predicate Marked(rows: map<nat, Row>, n: map<nat, Row>, sent: seq<nat>, failed: Option<nat>) {
    && n.Keys == rows.Keys
    && forall id :: id in rows ==>
         && n[id].msg == rows[id].msg
         && n[id].published == (id in sent || rows[id].published)
         && n[id].attempts == rows[id].attempts + (if id in sent || failed == Some(id) then 1 else 0)
  }

  lemma SettledMarks(rows: map<nat, Row>, b: seq<nat>, j: nat)
    requires Rising(b) && j <= |b|
    ensures Marked(rows, Settled(rows, Pass(b, j, Ready)), b[..j], None)
    ensures j < |b| ==> Marked(rows, Settled(rows, Pass(b, j, Noted)), b[..j], Some(b[j]))
  {}

  /**
   What a pass claims while others hold theirs: rows unpublished and in no other pass, ascending, and a row it
   leaves out is in another pass, or the batch is full of lower ones.
   */
  lemma ClaimTakesLowest(s: State, limit: nat)
    ensures var b := Batch(s, limit);
            && |b| <= limit && (forall i, j :: 0 <= i < j < |b| ==> b[i] < b[j])
            && (forall i :: 0 <= i < |b| ==> b[i] in s.rows && !s.rows[b[i]].published && forall q :: q in s.passes ==> b[i] !in s.passes[q].batch)
            && forall id :: id in s.rows && id < s.nextId && !s.rows[id].published && id !in b ==>
                 || (exists q :: q in s.passes && id in s.passes[q].batch)
                 || (|b| == limit && forall i :: 0 <= i < |b| ==> b[i] < id)
  {
    ScanTakesLowest(s.rows, Locked(s.passes), 0, s.nextId, limit);
    hide Scan;
    LockedMeans(s.passes);
    hide Locked;
  }

  lemma BatchRises(s: State, limit: nat)
    ensures Rising(Batch(s, limit)) && forall i :: 0 <= i < |Batch(s, limit)| ==> Pending(s.rows, Batch(s, limit)[i])
  {
    ScanTakesLowest(s.rows, Locked(s.passes), 0, s.nextId, limit);
  }

  lemma LockedMeans(passes: map<nat, Pass>)
    ensures forall id :: id in Locked(passes) <==> exists q :: q in passes && id in passes[q].batch
  {
    forall id ensures id in Locked(passes) <==> exists q :: q in passes && id in passes[q].batch {
      if q :| q in passes && id in passes[q].batch {
        var i :| 0 <= i < |passes[q].batch| && passes[q].batch[i] == id;
        assert passes[q].batch[i] in Locked(passes);
      }
    }
  }

  /** The topics gained the batch's first rows' messages, in order. */
  lemma PassSends(s: State, n: State, limit: nat, published: nat, err: PassError)
    requires forall i :: 0 <= i < |Batch(s, limit)| ==> Batch(s, limit)[i] in s.rows
    requires PassResult(s, n, limit, published, err)
    ensures var b, sent := Batch(s, limit), |n.log| - |s.log|;
            && published <= sent <= published + 1 && sent <= |b| && (err.NoError? ==> sent == published == |b|)
            && n.log[..|s.log|] == s.log
            && forall i :: 0 <= i < sent ==> n.log[|s.log| + i] == s.rows[b[i]].msg
  {
    hide Batch, Settled;
    var b := Batch(s, limit);
    assert b[..|b|] == b;
  }

  /**
   What a pass leaves in the table. Without an error exactly the batch is published, each row with one more
   attempt. After a failed send of row `published` whose recording committed, the rows before it are published
   with one more attempt each, it has one more attempt and is still pending, and all others are as they were.
   */
  lemma PassMarks(s: State, n: State, limit: nat, published: nat, err: PassError)
    requires forall i :: 0 <= i < |Batch(s, limit)| ==> Batch(s, limit)[i] in s.rows
    requires PassResult(s, n, limit, published, err)
    ensures var b := Batch(s, limit);
            && n.rows.Keys == s.rows.Keys
            && (err == NoError ==> published == |b| && forall id :: id in s.rows ==>
                  && id in n.rows && n.rows[id].msg == s.rows[id].msg
                  && n.rows[id].published == (id in b || s.rows[id].published)
                  && n.rows[id].attempts == s.rows[id].attempts + (if id in b then 1 else 0))
            && (err == SendFailed(true) ==> published < |b| && forall id :: id in s.rows ==>
                  && id in n.rows && n.rows[id].msg == s.rows[id].msg
                  && n.rows[id].published == (id in b[..published] || s.rows[id].published)
                  && n.rows[id].attempts == s.rows[id].attempts + (if id in b[..published + 1] then 1 else 0)
                  && (id == b[published] ==> !n.rows[id].published))
  {
    BatchRises(s, limit);
    hide Batch, Settled, Rising;
    var b := Batch(s, limit);
    SettledMarks(s.rows, b, published);
    assert b[..|b|] == b;
    if err.SendFailed? {
      assert b[..published + 1] == b[..published] + [b[published]];
      NotAmongEarlier(b, published);
    }
  }

  lemma NotAmongEarlier(b: seq<nat>, j: nat)
    requires Rising(b) && j < |b|
    ensures b[j] !in b[..j]
  {}

  ghost predicate ClaimsOnlyFirst(trace: seq<Step>) {
    forall i :: 1 <= i < |trace| ==> !trace[i].Claim?
  }

  /** The pass rolled back, whatever it had sent. */
  lemma RolledBack(s: State, n: State, limit: nat, published: nat, sent: nat)
    requires forall i :: 0 <= i < |Batch(s, limit)| ==> Batch(s, limit)[i] in s.rows
    requires published <= sent <= published + 1 && sent <= |Batch(s, limit)|
    requires Left(s, n, Messages(s.rows, Batch(s, limit)[..sent])) && n.rows == s.rows
    ensures PassResult(s, n, limit, published, SqlTrouble)
  {
    hide Batch, Left, Messages;
  }

  lemma ClaimsSnoc(trace: seq<Step>, e: Step)
    requires ClaimsOnlyFirst(trace) && trace != [] && !e.Claim?
    ensures ClaimsOnlyFirst(trace + [e])
  {}

  lemma FirstClaim(p: nat, limit: nat)
    ensures ClaimsOnlyFirst([Claim(p, limit)] + Sends(p, 0)) && ClaimsOnlyFirst([])
  {}

  lemma OneMoreSent(p: nat, limit: nat, n: nat)
    ensures [Claim(p, limit)] + Sends(p, n + 1) == [Claim(p, limit)] + Sends(p, n) + [Ack(p)] + [Mark(p)]
  {}

  lemma WholePass(s: State, limit: nat)
    requires forall i :: 0 <= i < |Batch(s, limit)| ==> Batch(s, limit)[i] in s.rows
    ensures var b := Batch(s, limit);
            CleanPass(s, limit) == s.(rows := Settled(s.rows, Pass(b, |b|, Ready)), log := s.log + Messages(s.rows, b), acked := s.acked + Ids(b))
  {}

  lemma NeverClaimed(s: State, limit: nat)
    requires forall i :: 0 <= i < |Batch(s, limit)| ==> Batch(s, limit)[i] in s.rows
    ensures PassResult(s, s, limit, 0, SqlTrouble)
  {
    hide Batch;
    assert Messages(s.rows, Batch(s, limit)[..0]) == [];
    RolledBack(s, s, limit, 0, 0);
  }

  /** The complete pass committed, acknowledged or not. */
  lemma CommittedWhole(s: State, limit: nat, ok: bool)
    requires forall i :: 0 <= i < |Batch(s, limit)| ==> Batch(s, limit)[i] in s.rows
    ensures PassResult(s, CleanPass(s, limit), limit, |Batch(s, limit)|, if ok then NoError else SqlTrouble)
  {
    hide Batch, Settled;
    var b := Batch(s, limit);
    assert b[..|b|] == b;
  }

  class OutboxRelay {
    const world: World
    const batchSize: nat

    constructor (world: World, batchSize: nat)
      ensures this.world == world && this.batchSize == batchSize
    {
      this.world, this.batchSize := world, batchSize;
    }

    /** One pass under the transaction id `p`; `trace` is the run of the machine it amounts to. */
    method RelayOnce(p: nat) returns (published: nat, err: PassError, ghost trace: seq<Step>)
      requires p !in world.s.passes
      modifies world
      ensures world.s == Exec(world.env, old(world.s), trace) && ClaimsOnlyFirst(trace)
      ensures forall i :: 0 <= i < |Batch(old(world.s), batchSize)| ==> Batch(old(world.s), batchSize)[i] in old(world.s).rows
      ensures PassResult(old(world.s), world.s, batchSize, published, err)
      ensures world.calm ==> err.NoError?
    {
      hide Apply, Enabled, AfterSends, Batch, Settled, Left, FailedAt, Messages, PassResult, CleanPass, ClaimsOnlyFirst, Sends, Exec;
      ghost var s0, env := world.s, world.env;
      ghost var b := Batch(s0, batchSize);
      published := 0;
      ClaimRuns(env, s0, p, batchSize);
      FirstClaim(p, batchSize);
      var claimed := world.Claim(p, batchSize);
      if !claimed {
        NeverClaimed(s0, batchSize);
        EmptyRun(env, s0);
        return 0, SqlTrouble, [];
      }
      CanSend(env, s0, p, b, 0);
      var batch := world.s.passes[p].batch;
      trace := [Claim(p, batchSize)] + Sends(p, 0);
      SendsRun(env, s0, p, batchSize, 0);
      while published < |batch|
        invariant published <= |batch|
        invariant trace == [Claim(p, batchSize)] + Sends(p, published) && ClaimsOnlyFirst(trace)
        invariant world.s == AfterSends(s0, p, b, published) == Exec(env, s0, trace)
      {
        CanSend(env, s0, p, b, published);
        ghost var sent;
        var ok: bool;
        ok, sent := world.Send(p);
        ExecSnoc(env, s0, trace, sent);
        ClaimsSnoc(trace, sent);
        trace := trace + [sent];
        if !ok {
          FailRuns(env, s0, p, b, published, sent.delivered);
          err, trace := RecordFailure(p, s0, trace, published, sent.delivered);
          return published, err, trace;
        }
        var marked := world.Mark(p);
        if !marked {
          AbandonAfterAck(env, s0, p, b, published);
          world.Abandon(p);
          ExecSnoc(env, s0, trace, Abandon(p));
          ClaimsSnoc(trace, Abandon(p));
          RolledBack(s0, world.s, batchSize, published, published + 1);
          return published, SqlTrouble, trace + [Abandon(p)];
        }
        ExecSnoc(env, s0, trace, Mark(p));
        ClaimsSnoc(trace, Mark(p));
        OneMoreSent(p, batchSize, published);
        trace := trace + [Mark(p)];
        AckMarkRuns(env, s0, p, b, published);
        published := published + 1;
      }
      CanSend(env, s0, p, b, published);
      ghost var closed;
      var committed: bool;
      committed, closed := world.Close(p);
      if closed.Close? {
        CloseRuns(env, s0, p, b);
        WholePass(s0, batchSize);
        CommittedWhole(s0, batchSize, committed);
      } else {
        AbandonAtEnd(env, s0, p, b, published);
        RolledBack(s0, world.s, batchSize, published, published);
      }
      ExecSnoc(env, s0, trace, closed);
      ClaimsSnoc(trace, closed);
      trace := trace + [closed];
      err := if committed then NoError else SqlTrouble;
      return published, err, trace;
    }

    /** The failing send's row counts an attempt, and the pass commits what it had marked. */
    method RecordFailure(p: nat, ghost s0: State, ghost trace: seq<Step>, published: nat, ghost delivered: bool)
      returns (err: PassError, ghost all: seq<Step>)
      requires p !in s0.passes && published < |Batch(s0, batchSize)| && trace != [] && ClaimsOnlyFirst(trace)
      requires forall i :: 0 <= i < |Batch(s0, batchSize)| ==> Batch(s0, batchSize)[i] in s0.rows
      requires world.s == Exec(world.env, s0, trace)
      requires FailedAt(s0, world.s, p, Batch(s0, batchSize), published, Failed, delivered)
      modifies world
      ensures world.s == Exec(world.env, s0, all) && ClaimsOnlyFirst(all)
      ensures err.SendFailed? && PassResult(s0, world.s, batchSize, published, err)
    {
      hide Apply, Enabled, Batch, Settled, Left, FailedAt, Messages, CleanPass;
      ghost var env, b := world.env, Batch(s0, batchSize);
      NoteRuns(env, s0, world.s, p, b, published, delivered);
      FailureEnds(env, s0, world.s, p, b, published, Failed, delivered);
      var noted := world.Note(p);
      if !noted {
        world.Abandon(p);
        ExecSnoc(env, s0, trace, Abandon(p));
        return SendFailed(false), trace + [Abandon(p)];
      }
      FailureEnds(env, s0, world.s, p, b, published, Noted, delivered);
      ExecSnoc(env, s0, trace, Note(p));
      ghost var closed;
      var committed: bool;
      committed, closed := world.Close(p);
      ExecSnoc(env, s0, trace + [Note(p)], closed);
      return SendFailed(committed), trace + [Note(p)] + [closed];
    }

    /**
     Passes while others commit, until the context is cancelled during a sleep or the process has lived for
     `passes` of them. However that goes it is one relay; left alone with nothing failing it publishes
     everything pending, in as many nonempty passes as the batch size demands.
     */
    method Run(passes: nat, p: nat) returns (busy: nat, ghost trace: seq<Step>)
      requires batchSize > 0 && world.s.passes == map[] && Inv(world.env, world.s)
      modifies world
      ensures world.s == Exec(world.env, old(world.s), trace) && OneRelay(world.env, old(world.s), trace)
      ensures world.s.passes == map[] && Inv(world.env, world.s)
      ensures var m := |PendingIds(old(world.s).rows)|;
              world.calm && world.alone && passes > PassesFor(m, batchSize) ==>
                PendingIds(world.s.rows) == {} && busy == PassesFor(m, batchSize)
      ensures world.alone ==> PendingIds(world.s.rows) <= PendingIds(old(world.s).rows)
    {
      hide Inv, Exec, OneRelay, PassResult, Batch, PendingIds, ClaimsOnlyFirst, Bounded, Foreign;
      ghost var s0, env := world.s, world.env;
      ghost var m := |PendingIds(s0.rows)|;
      NoPassYet(env, s0);
      busy, trace := 0, [];
      var left := passes;
      while left > 0
        invariant left <= passes && world.s.passes == map[] && Inv(env, world.s)
        invariant world.s == Exec(env, s0, trace) && OneRelay(env, s0, trace)
        invariant world.alone ==> PendingIds(world.s.rows) <= PendingIds(s0.rows)
        invariant world.calm && world.alone ==>
          busy + PassesFor(|PendingIds(world.s.rows)|, batchSize) == PassesFor(m, batchSize)
        invariant world.calm && world.alone && |PendingIds(world.s.rows)| > 0 ==> busy == passes - left
      {
        ghost var s1 := world.s;
        NoPassYet(env, s1);
        var others := world.Meanwhile(None, false);
        OthersExtendRun(env, s0, s1, world.s, trace, others);
        trace := trace + others;
        ghost var s2 := world.s;
        var n, err;
        ghost var tr;
        n, err, tr := RelayOnce(p);
        BoundedOf(env, s2);
        PassDrains(s2, world.s, batchSize, n, err);
        PassExtendsRun(env, s0, s2, world.s, trace, tr);
        trace := trace + tr;
        left := left - 1;
        if n > 0 { busy := busy + 1; }
        if n == batchSize && err.NoError? { continue; }
        var cancelled := *;
        if cancelled { return; }
      }
    }
  }

  lemma CommitterLeavesPasses(env: Env, s: State, e: Step)
    requires ForeignStep(e, None, false)
    ensures Apply(env, s, e).passes == s.passes && !e.Claim?
  {
    hide Decides, Unlocked;
  }

  lemma {:induction false} CommittersLeavePasses(env: Env, s: State, others: seq<Step>)
    requires Foreign(others, None, false)
    ensures Exec(env, s, others).passes == s.passes && OneRelay(env, s, others)
    decreases |others|
  {
    hide Apply, ForeignStep;
    if others != [] {
      assert ForeignStep(others[0], None, false);
      CommitterLeavesPasses(env, s, others[0]);
      CommittersLeavePasses(env, Apply(env, s, others[0]), others[1..]);
    }
  }

  lemma OthersExtendRun(env: Env, s0: State, s: State, n: State, before: seq<Step>, others: seq<Step>)
    requires Inv(env, s) && s == Exec(env, s0, before) && OneRelay(env, s0, before)
    requires n == Exec(env, s, others) && Foreign(others, None, false)
    ensures Inv(env, n) && n.passes == s.passes && n == Exec(env, s0, before + others) && OneRelay(env, s0, before + others)
  {
    hide Inv, OneRelay, Exec, Foreign;
    RunKeeps(env, s, others);
    ExecAppend(env, s0, before, others);
    CommittersLeavePasses(env, s, others);
    OneRelayAppend(env, s0, before, others);
  }

  /** Nonempty passes of `batch` rows it takes to publish `m`. */
  function PassesFor(m: nat, batch: nat): nat
    requires batch > 0
  {
    if m == 0 then 0 else 1 + PassesFor(m - Min(m, batch), batch)
  }

  /** The count is the ceiling of m / batch. */
  lemma {:induction false} PassesForIsCeiling(m: nat, batch: nat)
    requires batch > 0
    ensures (PassesFor(m, batch) - 1) * batch < m <= PassesFor(m, batch) * batch || m == PassesFor(m, batch) == 0
  {
    if m > batch { PassesForIsCeiling(m - batch, batch); }
  }

  lemma {:induction false} ClaimsFirstIsOneRelay(env: Env, s: State, trace: seq<Step>)
    requires ClaimsOnlyFirst(trace) && (trace != [] && trace[0].Claim? ==> s.passes == map[])
    ensures OneRelay(env, s, trace)
  {
    if trace != [] { NoClaimsIsOneRelay(env, Apply(env, s, trace[0]), trace[1..]); }
  }

  lemma {:induction false} NoClaimsIsOneRelay(env: Env, s: State, trace: seq<Step>)
    requires forall i :: 0 <= i < |trace| ==> !trace[i].Claim?
    ensures OneRelay(env, s, trace)
    decreases |trace|
  {
    hide Apply;
    if trace != [] { NoClaimsIsOneRelay(env, Apply(env, s, trace[0]), trace[1..]); }
  }

  lemma {:induction false} OneRelayAppend(env: Env, s: State, a: seq<Step>, b: seq<Step>)
    requires OneRelay(env, s, a) && OneRelay(env, Exec(env, s, a), b)
    ensures OneRelay(env, s, a + b)
    decreases |a|
  {
    hide Apply;
    if a == [] {
      assert a + b == b;
    } else {
      assert (a + b)[0] == a[0] && (a + b)[1..] == a[1..] + b;
      OneRelayAppend(env, Apply(env, s, a[0]), a[1..], b);
    }
  }

  lemma NoPassYet(env: Env, s: State)
    ensures Exec(env, s, []) == s && OneRelay(env, s, [])
  {}

  lemma PassExtendsRun(env: Env, s0: State, s: State, n: State, before: seq<Step>, tr: seq<Step>)
    requires s.passes == map[] && Inv(env, s) && s == Exec(env, s0, before) && OneRelay(env, s0, before)
    requires n == Exec(env, s, tr) && ClaimsOnlyFirst(tr)
    ensures Inv(env, n) && n == Exec(env, s0, before + tr) && OneRelay(env, s0, before + tr)
  {
    hide Inv, OneRelay, Exec, ClaimsOnlyFirst;
    RunKeeps(env, s, tr);
    ExecAppend(env, s0, before, tr);
    ClaimsFirstIsOneRelay(env, s, tr);
    OneRelayAppend(env, s0, before, tr);
  }

  /** The pending rows shrink by exactly what an errorless pass published, and never grow. */
  lemma PassDrains(s: State, n: State, limit: nat, published: nat, err: PassError)
    requires s.passes == map[] && Bounded(s.rows, s.nextId, s.nextEvent)
    requires forall i :: 0 <= i < |Batch(s, limit)| ==> Batch(s, limit)[i] in s.rows
    requires PassResult(s, n, limit, published, err)
    ensures n.passes == map[] && PendingIds(n.rows) <= PendingIds(s.rows)
    ensures err.NoError? ==> published == Min(limit, |PendingIds(s.rows)|) && |PendingIds(n.rows)| == |PendingIds(s.rows)| - published
  {
    hide Batch, PendingIds, Settled, Messages, Ids;
    CleanPassPublishesLowest(s, limit);
    if !err.NoError? {
      SettlingOnlyPublishes(s.rows, Pass(Batch(s, limit), published, Noted));
      SettlingOnlyPublishes(s.rows, Pass(Batch(s, limit), published, Ready));
    }
  }

  lemma BoundedOf(env: Env, s: State)
    requires Inv(env, s)
    ensures Bounded(s.rows, s.nextId, s.nextEvent)
  {
    hide StoreInv, RowInv, TxInv, PassInv, LogInv, Bounded;
  }

  lemma SettlingOnlyPublishes(rows: map<nat, Row>, p: Pass)
    ensures p.done <= |p.batch| && (p.stage.Noted? ==> p.done < |p.batch|) ==> PendingIds(Settled(rows, p)) <= PendingIds(rows)
  {
    if p.done <= |p.batch| && (p.stage.Noted? ==> p.done < |p.batch|) { SettledTouchesOnly(rows, p); }
  }
}
