/** One relay pass as a whole: what a claim, its sends and its commit add up to, and how passes drain the table. */
module RelayPass {
  import opened Shared
  import opened Catalogue
  import opened Outbox
  import opened OutboxInvariant

  function Batch(s: State, limit: nat): seq<nat> { Scan(s.rows, Locked(s.passes), 0, s.nextId, limit) }

  function Messages(rows: map<nat, Row>, ids: seq<nat>): seq<Message>
    requires forall i :: 0 <= i < |ids| ==> ids[i] in rows
  {
    seq(|ids|, i requires 0 <= i < |ids| => rows[ids[i]].msg)
  }

  function Ids(ids: seq<nat>): set<nat> { set i | 0 <= i < |ids| :: ids[i] }

  /** `n` rows sent and marked, one after the other. */
  function Sends(p: nat, n: nat): seq<Step> {
    if n == 0 then [] else Sends(p, n - 1) + [Ack(p), Mark(p)]
  }

  /** The state once pass `p` has claimed `batch` and sent and marked its first `n` rows. */
  ghost function AfterSends(s: State, p: nat, batch: seq<nat>, n: nat): State
    requires n <= |batch| && forall i :: 0 <= i < |batch| ==> batch[i] in s.rows
  {
    s.(passes := s.passes[p := Pass(batch, n, Ready)],
       log := s.log + Messages(s.rows, batch[..n]),
       acked := s.acked + Ids(batch[..n]))
  }

  lemma AckRuns(env: Env, s: State, p: nat, batch: seq<nat>, n: nat)
    requires (forall i :: 0 <= i < |batch| ==> batch[i] in s.rows) && n < |batch|
    ensures var m := AfterSends(s, p, batch, n);
            Apply(env, m, Ack(p)) == m.(passes := m.passes[p := Pass(batch, n, Acked)],
                                        log := m.log + [s.rows[batch[n]].msg], acked := m.acked + {batch[n]})
  {}

  lemma AckMarkRuns(env: Env, s: State, p: nat, batch: seq<nat>, n: nat)
    requires (forall i :: 0 <= i < |batch| ==> batch[i] in s.rows) && n < |batch|
    ensures Apply(env, Apply(env, AfterSends(s, p, batch, n), Ack(p)), Mark(p)) == AfterSends(s, p, batch, n + 1)
  {
    AckRuns(env, s, p, batch, n);
    assert batch[..n + 1] == batch[..n] + [batch[n]];
    assert Messages(s.rows, batch[..n + 1]) == Messages(s.rows, batch[..n]) + [s.rows[batch[n]].msg];
    assert Ids(batch[..n + 1]) == Ids(batch[..n]) + {batch[n]} by {
      assert forall i :: 0 <= i < n ==> batch[..n + 1][i] == batch[..n][i];
      assert batch[..n + 1][n] == batch[n];
    }
    var m := AfterSends(s, p, batch, n);
    assert (m.log + [s.rows[batch[n]].msg]) == s.log + Messages(s.rows, batch[..n + 1]);
    assert m.passes[p := Pass(batch, n, Acked)][p := Pass(batch, n + 1, Ready)] == s.passes[p := Pass(batch, n + 1, Ready)];
  }

  lemma ClaimRuns(env: Env, s: State, p: nat, limit: nat)
    requires p !in s.passes
    ensures (forall i :: 0 <= i < |Batch(s, limit)| ==> Batch(s, limit)[i] in s.rows)
    ensures Apply(env, s, Claim(p, limit)) == AfterSends(s, p, Batch(s, limit), 0)
  {
    ScanTakesLowest(s.rows, Locked(s.passes), 0, s.nextId, limit);
    assert Messages(s.rows, Batch(s, limit)[..0]) == [] && Ids(Batch(s, limit)[..0]) == {};
  }

  lemma {:induction false} SendsRun(env: Env, s: State, p: nat, limit: nat, n: nat)
    requires p !in s.passes && n <= |Batch(s, limit)|
    ensures (forall i :: 0 <= i < |Batch(s, limit)| ==> Batch(s, limit)[i] in s.rows)
    ensures Exec(env, s, [Claim(p, limit)] + Sends(p, n)) == AfterSends(s, p, Batch(s, limit), n)
  {
    hide Apply, Batch, AfterSends;
    ClaimRuns(env, s, p, limit);
    if n == 0 {
      assert [Claim(p, limit)] + Sends(p, n) == [] + [Claim(p, limit)];
      ExecSnoc(env, s, [], Claim(p, limit));
    } else {
      SendsRun(env, s, p, limit, n - 1);
      var before := [Claim(p, limit)] + Sends(p, n - 1);
      ExecSnoc(env, s, before, Ack(p));
      ExecSnoc(env, s, before + [Ack(p)], Mark(p));
      assert [Claim(p, limit)] + Sends(p, n) == before + [Ack(p)] + [Mark(p)];
      AckMarkRuns(env, s, p, Batch(s, limit), n - 1);
    }
  }

  /** A pass without a failure, as the sum of its steps. */
  ghost function CleanPass(s: State, limit: nat): State
    requires forall i :: 0 <= i < |Batch(s, limit)| ==> Batch(s, limit)[i] in s.rows
  {
    var b := Batch(s, limit);
    s.(rows := Settled(s.rows, Pass(b, |b|, Ready)), log := s.log + Messages(s.rows, b), acked := s.acked + Ids(b))
  }

  lemma CloseRuns(env: Env, s: State, p: nat, batch: seq<nat>)
    requires p !in s.passes && forall i :: 0 <= i < |batch| ==> batch[i] in s.rows
    ensures Apply(env, AfterSends(s, p, batch, |batch|), Close(p))
         == s.(rows := Settled(s.rows, Pass(batch, |batch|, Ready)), log := s.log + Messages(s.rows, batch), acked := s.acked + Ids(batch))
  {
    assert batch[..|batch|] == batch;
    assert s.passes[p := Pass(batch, |batch|, Ready)] - {p} == s.passes;
  }

  /** The whole pass as one run of the machine. */
  lemma CleanPassRuns(env: Env, s: State, p: nat, limit: nat)
    requires p !in s.passes
    ensures (forall i :: 0 <= i < |Batch(s, limit)| ==> Batch(s, limit)[i] in s.rows)
    ensures Exec(env, s, [Claim(p, limit)] + Sends(p, |Batch(s, limit)|) + [Close(p)]) == CleanPass(s, limit)
  {
    hide Apply, AfterSends, Batch;
    var n := |Batch(s, limit)|;
    SendsRun(env, s, p, limit, n);
    ExecSnoc(env, s, [Claim(p, limit)] + Sends(p, n), Close(p));
    CloseRuns(env, s, p, Batch(s, limit));
  }

  // ---- the ways a pass ends early ----

  lemma CanSend(env: Env, s: State, p: nat, batch: seq<nat>, n: nat)
    requires (forall i :: 0 <= i < |batch| ==> batch[i] in s.rows) && n <= |batch|
    ensures var m := AfterSends(s, p, batch, n);
            && p in m.passes && m.passes[p].batch == batch
            && (n < |batch| ==> Enabled(env, m, Ack(p)) && Enabled(env, Apply(env, m, Ack(p)), Mark(p)))
            && (n == |batch| ==> Enabled(env, m, Close(p)))
  {}

  /** The transaction of the pass is gone and took nothing with it but what was sent. */
  ghost predicate Left(s: State, n: State, sent: seq<Message>) {
    n.passes == s.passes && n.log == s.log + sent && n == s.(rows := n.rows, log := n.log, acked := n.acked)
  }

  lemma AbandonAfterAck(env: Env, s: State, p: nat, batch: seq<nat>, n: nat)
    requires p !in s.passes && (forall i :: 0 <= i < |batch| ==> batch[i] in s.rows) && n < |batch|
    ensures var m := Apply(env, Apply(env, AfterSends(s, p, batch, n), Ack(p)), Abandon(p));
            Left(s, m, Messages(s.rows, batch[..n + 1])) && m.rows == s.rows
  {
    AckRuns(env, s, p, batch, n);
    assert batch[..n + 1] == batch[..n] + [batch[n]];
    assert Messages(s.rows, batch[..n + 1]) == Messages(s.rows, batch[..n]) + [s.rows[batch[n]].msg];
    assert s.passes[p := Pass(batch, n, Acked)] - {p} == s.passes;
  }

  lemma AbandonAtEnd(env: Env, s: State, p: nat, batch: seq<nat>, n: nat)
    requires p !in s.passes && (forall i :: 0 <= i < |batch| ==> batch[i] in s.rows) && n <= |batch|
    ensures var m := Apply(env, AfterSends(s, p, batch, n), Abandon(p));
            Left(s, m, Messages(s.rows, batch[..n])) && m.rows == s.rows
  {
    assert s.passes[p := Pass(batch, n, Ready)] - {p} == s.passes;
  }

  /** After a failed send of row `n`: the same pass, its failure noted or not, committed or not. */
  ghost predicate FailedAt(s: State, m: State, p: nat, batch: seq<nat>, n: nat, stage: Stage, delivered: bool)
    requires n < |batch| && forall i :: 0 <= i < |batch| ==> batch[i] in s.rows
  {
    && m.passes == s.passes[p := Pass(batch, n, stage)] && m.rows == s.rows
    && m.log == s.log + Messages(s.rows, batch[..if delivered then n + 1 else n])
    && m == s.(passes := m.passes, log := m.log, acked := s.acked + Ids(batch[..n]))
  }

  lemma FailRuns(env: Env, s: State, p: nat, batch: seq<nat>, n: nat, delivered: bool)
    requires (forall i :: 0 <= i < |batch| ==> batch[i] in s.rows) && n < |batch|
    ensures FailedAt(s, Apply(env, AfterSends(s, p, batch, n), Fail(p, delivered)), p, batch, n, Failed, delivered)
  {
    assert batch[..n + 1] == batch[..n] + [batch[n]];
    assert Messages(s.rows, batch[..n + 1]) == Messages(s.rows, batch[..n]) + [s.rows[batch[n]].msg];
    assert s.passes[p := Pass(batch, n, Ready)][p := Pass(batch, n, Failed)] == s.passes[p := Pass(batch, n, Failed)];
  }

  lemma NoteRuns(env: Env, s: State, m: State, p: nat, batch: seq<nat>, n: nat, delivered: bool)
    requires (forall i :: 0 <= i < |batch| ==> batch[i] in s.rows) && n < |batch|
    requires FailedAt(s, m, p, batch, n, Failed, delivered)
    ensures Enabled(env, m, Note(p)) && FailedAt(s, Apply(env, m, Note(p)), p, batch, n, Noted, delivered)
    ensures Enabled(env, Apply(env, m, Note(p)), Close(p))
  {
    assert s.passes[p := Pass(batch, n, Failed)][p := Pass(batch, n, Noted)] == s.passes[p := Pass(batch, n, Noted)];
  }

  lemma FailureEnds(env: Env, s: State, m: State, p: nat, batch: seq<nat>, n: nat, stage: Stage, delivered: bool)
    requires p !in s.passes && (forall i :: 0 <= i < |batch| ==> batch[i] in s.rows) && n < |batch|
    requires FailedAt(s, m, p, batch, n, stage, delivered)
    ensures p in m.passes
    ensures var x := Apply(env, m, Abandon(p));
            x.rows == s.rows && Left(s, x, Messages(s.rows, batch[..if delivered then n + 1 else n]))
    ensures stage.Noted? ==>
              var x := Apply(env, m, Close(p));
              x.rows == Settled(s.rows, Pass(batch, n, Noted)) && Left(s, x, Messages(s.rows, batch[..if delivered then n + 1 else n]))
  {
    assert s.passes[p := Pass(batch, n, stage)] - {p} == s.passes;
  }

  // ---- counting what is left ----

  function PendingIds(rows: map<nat, Row>): set<nat> { set id | id in rows && !rows[id].published }

  function Min(a: nat, b: nat): nat { if a < b then a else b }

  lemma BatchIsLowest(s: State, limit: nat)
    requires s.passes == map[] && forall id :: id in s.rows ==> id < s.nextId
    ensures var b := Batch(s, limit);
            && Rising(b) && |b| <= limit && Ids(b) <= PendingIds(s.rows)
            && (|b| < limit ==> Ids(b) == PendingIds(s.rows))
            && (forall id, i :: id in PendingIds(s.rows) && id !in Ids(b) && 0 <= i < |b| ==> b[i] < id)
  {
    var b := Batch(s, limit);
    ScanTakesLowest(s.rows, Locked(s.passes), 0, s.nextId, limit);
    hide Scan;
    forall id | id in PendingIds(s.rows) && id !in Ids(b)
      ensures |b| == limit && forall i :: 0 <= i < |b| ==> b[i] < id
    {
      assert Pending(s.rows, id) && id !in Locked(s.passes) && id !in b;
    }
  }

  lemma SettledPending(rows: map<nat, Row>, b: seq<nat>)
    ensures PendingIds(Settled(rows, Pass(b, |b|, Ready))) == PendingIds(rows) - Ids(b)
  {
    SettledTouchesOnly(rows, Pass(b, |b|, Ready));
    assert b[..|b|] == b;
  }

  /** With no other pass open, a pass publishes exactly the lowest pending rows, as many as the limit allows. */
  lemma CleanPassPublishesLowest(s: State, limit: nat)
    requires s.passes == map[] && forall id :: id in s.rows ==> id < s.nextId
    ensures var b := Batch(s, limit);
            var rows := Settled(s.rows, Pass(b, |b|, Ready));
            && PendingIds(rows) == PendingIds(s.rows) - Ids(b) && Ids(b) <= PendingIds(s.rows)
            && |b| == Min(limit, |PendingIds(s.rows)|) && |PendingIds(rows)| == |PendingIds(s.rows)| - |b|
            && (forall id, i :: id in PendingIds(rows) && 0 <= i < |b| ==> b[i] < id)
  {
    hide Batch, Rising, Ids, Settled, PendingIds;
    var b := Batch(s, limit);
    BatchIsLowest(s, limit);
    SettledPending(s.rows, b);
    RisingCount(b);
    CountLess(PendingIds(s.rows), Ids(b));
  }

  lemma {:induction false} RisingCount(b: seq<nat>)
    requires Rising(b)
    ensures |Ids(b)| == |b|
  {
    if b != [] {
      var t := b[..|b| - 1];
      RisingCount(t);
      assert Ids(b) == Ids(t) + {b[|b| - 1]} by {
        assert forall i :: 0 <= i < |t| ==> b[i] == t[i];
      }
      assert b[|b| - 1] !in Ids(t);
    }
  }

  lemma CountLess(a: set<nat>, b: set<nat>)
    requires b <= a
    ensures |a - b| == |a| - |b|
  {
    assert a == (a - b) + b;
  }
}
