/**
 Per-aggregate order on a topic. A claim is safe when no other pass holds a lower row of the same
 aggregate and topic as a row it takes; with one relay at a time every claim is.
 */
module RelayOrder {
  import opened Shared
  import opened Catalogue
  import opened Outbox
  import opened OutboxInvariant

  /** The commit ordinals of one aggregate's messages on one topic, in order of arrival. */
  function Trace(log: seq<Message>, t: Topic, k: Key): seq<nat> {
    if log == [] then []
    else
      var m := log[|log| - 1];
      Trace(log[..|log| - 1], t, k) + if m.topic == t && m.key == k then [m.ordinal] else []
  }

  /** The ordinal of the latest message, or -1. */
  function Latest(log: seq<Message>, t: Topic, k: Key): int {
    var tr := Trace(log, t, k);
    if tr == [] then -1 else tr[|tr| - 1]
  }

  /** From one message to the next the ordinal rises by at most one; it starts at zero. */
  ghost predicate NoSkip(tr: seq<nat>) {
    forall i :: 0 <= i < |tr| ==> tr[i] <= if i == 0 then 0 else tr[i - 1] + 1
  }

  predicate Alike(a: Message, b: Message) { a.topic == b.topic && a.key == b.key }

  /** The topic has caught up with every published row of an aggregate. */
  ghost predicate Ahead(rows: map<nat, Row>, log: seq<Message>) {
    forall id :: id in rows && rows[id].published ==> rows[id].msg.ordinal <= Latest(log, rows[id].msg.topic, rows[id].msg.key)
  }

  ghost predicate PrefixPublished(rows: map<nat, Row>) {
    forall a, b :: (a in rows && b in rows && Alike(rows[a].msg, rows[b].msg)
                    && rows[a].msg.ordinal < rows[b].msg.ordinal && rows[b].published) ==> rows[a].published
  }

  /** Whatever precedes a claimed row of the same aggregate and topic is published or claimed before it. */
  ghost predicate Contiguous(rows: map<nat, Row>, batch: seq<nat>) {
    forall i, a :: (0 <= i < |batch| && batch[i] in rows && a in rows && Alike(rows[a].msg, rows[batch[i]].msg)
                    && rows[a].msg.ordinal < rows[batch[i]].msg.ordinal && !rows[a].published) ==> a in batch[..i]
  }

  ghost predicate SentAreBehind(rows: map<nat, Row>, log: seq<Message>, p: Pass)
    requires Sent(p) <= |p.batch|
  {
    forall i :: 0 <= i < Sent(p) && p.batch[i] in rows ==>
      rows[p.batch[i]].msg.ordinal <= Latest(log, rows[p.batch[i]].msg.topic, rows[p.batch[i]].msg.key)
  }

  ghost predicate PassOrder(rows: map<nat, Row>, log: seq<Message>, p: Pass) {
    Sent(p) <= |p.batch| && Contiguous(rows, p.batch) && SentAreBehind(rows, log, p)
  }

  ghost predicate OrderInv(s: State) {
    && Ahead(s.rows, s.log)
    && PrefixPublished(s.rows)
    && (forall p :: p in s.passes ==> PassOrder(s.rows, s.log, s.passes[p]))
    && (forall t, k :: NoSkip(Trace(s.log, t, k)))
  }

  ghost predicate SafeBatch(s: State, batch: seq<nat>) {
    forall i, a :: (0 <= i < |batch| && batch[i] in s.rows && a in s.rows && a in Locked(s.passes)
                    && Alike(s.rows[a].msg, s.rows[batch[i]].msg)) ==> a >= batch[i]
  }

  ghost predicate SafeStep(s: State, e: Step) {
    e.Claim? && e.pass !in s.passes ==> SafeBatch(s, Scan(s.rows, Locked(s.passes), 0, s.nextId, e.limit))
  }

  ghost predicate SafeRun(env: Env, s: State, steps: seq<Step>)
    decreases |steps|
  {
    steps == [] || (SafeStep(s, steps[0]) && SafeRun(env, Apply(env, s, steps[0]), steps[1..]))
  }

  /** One relay at a time: a pass is claimed only while no other is open. */
  ghost predicate OneRelay(env: Env, s: State, steps: seq<Step>)
    decreases |steps|
  {
    steps == [] || ((steps[0].Claim? ==> s.passes == map[]) && OneRelay(env, Apply(env, s, steps[0]), steps[1..]))
  }

  lemma {:induction false} OneRelayIsSafe(env: Env, s: State, steps: seq<Step>)
    requires OneRelay(env, s, steps)
    ensures SafeRun(env, s, steps)
    decreases |steps|
  {
    hide Apply;
    if steps != [] { OneRelayIsSafe(env, Apply(env, s, steps[0]), steps[1..]); }
  }

  // ---- sending one row ----

  lemma TraceGrows(log: seq<Message>, m: Message, t: Topic, k: Key)
    ensures Trace(log + [m], t, k) == Trace(log, t, k) + if m.topic == t && m.key == k then [m.ordinal] else []
    ensures Latest(log + [m], t, k) == if m.topic == t && m.key == k then m.ordinal else Latest(log, t, k)
  {
    assert (log + [m])[..|log|] == log;
  }

  lemma SameOrdinalSameRow(h: History, rows: map<nat, Row>, a: nat, b: nat)
    requires RowInv(h, rows) && a in rows && b in rows && Alike(rows[a].msg, rows[b].msg)
    ensures a < b <==> rows[a].msg.ordinal < rows[b].msg.ordinal
  {
    assert RowFits(h, a, rows[a].msg) && RowFits(h, b, rows[b].msg);
  }

  lemma PassFacts(s: State, p: nat)
    requires p in s.passes && PassInv(s.rows, s.acked, s.passes) && OrderInv(s)
    ensures var x := s.passes[p];
            && Contiguous(s.rows, x.batch) && Rising(x.batch) && Sent(x) <= |x.batch| && SentAreBehind(s.rows, s.log, x)
            && forall i :: 0 <= i < |x.batch| ==> Pending(s.rows, x.batch[i])
  {
    hide Contiguous, SentAreBehind, Ahead, PrefixPublished, NoSkip;
    assert PassFits(s.rows, s.acked, s.passes[p]) && PassOrder(s.rows, s.log, s.passes[p]);
  }

  lemma LowerIsClaimed(rows: map<nat, Row>, batch: seq<nat>, j: nat, a: nat) returns (x: nat)
    requires Contiguous(rows, batch) && j < |batch| && batch[j] in rows && Pending(rows, a)
    requires Alike(rows[a].msg, rows[batch[j]].msg) && rows[a].msg.ordinal < rows[batch[j]].msg.ordinal
    ensures x < j && batch[x] == a
  {
    assert a in batch[..j];
    x :| 0 <= x < j && batch[..j][x] == a;
  }

  /** Two passes never hold rows of the same aggregate and topic. */
  lemma PassesExclude(s: State, p: nat, q: nat, i: nat, j: nat)
    requires RowInv(s.history, s.rows) && PassInv(s.rows, s.acked, s.passes) && OrderInv(s)
    requires p in s.passes && q in s.passes && p != q && i < |s.passes[p].batch| && j < |s.passes[q].batch|
    ensures Pending(s.rows, s.passes[p].batch[i]) && Pending(s.rows, s.passes[q].batch[j])
    ensures !Alike(s.rows[s.passes[p].batch[i]].msg, s.rows[s.passes[q].batch[j]].msg)
  {
    PassFacts(s, p);
    PassFacts(s, q);
    assert Disjoint(s.passes);
    hide RowInv, PassInv, OrderInv, Contiguous, SentAreBehind;
    var a, b := s.passes[p].batch[i], s.passes[q].batch[j];
    assert a != b;
    if Alike(s.rows[a].msg, s.rows[b].msg) {
      SameOrdinalSameRow(s.history, s.rows, a, b);
      SameOrdinalSameRow(s.history, s.rows, b, a);
      if a < b {
        var x := LowerIsClaimed(s.rows, s.passes[q].batch, j, a);
      } else {
        var x := LowerIsClaimed(s.rows, s.passes[p].batch, i, b);
      }
      assert false;
    }
  }

  lemma Predecessor(h: History, rows: map<nat, Row>, id: nat) returns (a: nat)
    requires RowInv(h, rows) && id in rows && rows[id].msg.ordinal > 0
    ensures a in rows && Alike(rows[a].msg, rows[id].msg) && rows[a].msg.ordinal == rows[id].msg.ordinal - 1
  {
    var m := rows[id].msg;
    assert RowFits(h, id, m);
    var c := Hist(h, m.key)[m.ordinal - 1];
    assert ChangeFits(rows, m.key, m.ordinal - 1, c);
    a := c.ids[Slot(m.topic)];
  }

  lemma StartsEmpty(log: seq<Message>, t: Topic, k: Key)
    ensures Latest(log, t, k) >= -1
  {}

  /** The row a pass sends next is at most one past the latest message of its aggregate. */
  lemma NextIsNoSkip(s: State, p: nat)
    requires RowInv(s.history, s.rows) && PassInv(s.rows, s.acked, s.passes) && OrderInv(s)
    requires p in s.passes && s.passes[p].stage.Ready? && s.passes[p].done < |s.passes[p].batch|
    ensures var id := s.passes[p].batch[s.passes[p].done];
            id in s.rows && s.rows[id].msg.ordinal <= Latest(s.log, s.rows[id].msg.topic, s.rows[id].msg.key) + 1
  {
    hide RowInv, PassInv, PrefixPublished, PassOrder, NoSkip, Contiguous, Latest;
    PassFacts(s, p);
    var x := s.passes[p];
    var id := x.batch[x.done];
    StartsEmpty(s.log, s.rows[id].msg.topic, s.rows[id].msg.key);
    if s.rows[id].msg.ordinal > 0 {
      var a := Predecessor(s.history, s.rows, id);
      if !s.rows[a].published {
        var j := LowerIsClaimed(s.rows, x.batch, x.done, a);
      }
    }
  }

  lemma SendKeepsAhead(s: State, id: nat)
    requires RowInv(s.history, s.rows) && OrderInv(s) && Pending(s.rows, id)
    ensures Ahead(s.rows, s.log + [s.rows[id].msg])
  {
    var m := s.rows[id].msg;
    forall x | x in s.rows && s.rows[x].published
      ensures s.rows[x].msg.ordinal <= Latest(s.log + [m], s.rows[x].msg.topic, s.rows[x].msg.key)
    {
      TraceGrows(s.log, m, s.rows[x].msg.topic, s.rows[x].msg.key);
    }
  }

  /** A row at or below the one just sent is no further than its aggregate's latest message. */
  lemma StaysBehind(h: History, rows: map<nat, Row>, log: seq<Message>, a: nat, id: nat)
    requires RowInv(h, rows) && a in rows && id in rows && a <= id
    requires a != id ==> rows[a].msg.ordinal <= Latest(log, rows[a].msg.topic, rows[a].msg.key)
    ensures rows[a].msg.ordinal <= Latest(log + [rows[id].msg], rows[a].msg.topic, rows[a].msg.key)
  {
    hide RowInv, Latest;
    TraceGrows(log, rows[id].msg, rows[a].msg.topic, rows[a].msg.key);
    if Alike(rows[a].msg, rows[id].msg) { SameOrdinalSameRow(h, rows, a, id); }
  }

  lemma OwnStayBehind(h: History, rows: map<nat, Row>, log: seq<Message>, x: Pass, y: Pass)
    requires RowInv(h, rows) && Rising(x.batch) && x.stage.Ready? && x.done < |x.batch| && SentAreBehind(rows, log, x)
    requires forall i :: 0 <= i < |x.batch| ==> x.batch[i] in rows
    requires y.batch == x.batch && Sent(y) <= x.done + 1
    ensures SentAreBehind(rows, log + [rows[x.batch[x.done]].msg], y)
  {
    hide RowInv, Latest;
    forall i | 0 <= i < Sent(y)
      ensures rows[y.batch[i]].msg.ordinal <= Latest(log + [rows[x.batch[x.done]].msg], rows[y.batch[i]].msg.topic, rows[y.batch[i]].msg.key)
    {
      StaysBehind(h, rows, log, x.batch[i], x.batch[x.done]);
    }
  }

  lemma SendKeepsOwnPass(s: State, p: nat, y: Pass)
    requires RowInv(s.history, s.rows) && PassInv(s.rows, s.acked, s.passes) && OrderInv(s)
    requires p in s.passes && s.passes[p].stage.Ready? && s.passes[p].done < |s.passes[p].batch|
    requires y.batch == s.passes[p].batch && Sent(y) <= s.passes[p].done + 1
    ensures s.passes[p].batch[s.passes[p].done] in s.rows
    ensures PassOrder(s.rows, s.log + [s.rows[s.passes[p].batch[s.passes[p].done]].msg], y)
  {
    hide RowInv, PassInv, OrderInv, Latest, Contiguous, SentAreBehind, Rising;
    PassFacts(s, p);
    OwnStayBehind(s.history, s.rows, s.log, s.passes[p], y);
  }

  lemma SendKeepsOtherPass(s: State, p: nat, q: nat)
    requires RowInv(s.history, s.rows) && PassInv(s.rows, s.acked, s.passes) && OrderInv(s)
    requires p in s.passes && q in s.passes && p != q && s.passes[p].done < |s.passes[p].batch|
    ensures s.passes[p].batch[s.passes[p].done] in s.rows
    ensures PassOrder(s.rows, s.log + [s.rows[s.passes[p].batch[s.passes[p].done]].msg], s.passes[q])
  {
    var x, y := s.passes[p], s.passes[q];
    assert PassFits(s.rows, s.acked, x) && PassFits(s.rows, s.acked, y) && PassOrder(s.rows, s.log, y);
    assert Pending(s.rows, x.batch[x.done]);
    var m := s.rows[x.batch[x.done]].msg;
    forall i | 0 <= i < Sent(y)
      ensures s.rows[y.batch[i]].msg.ordinal <= Latest(s.log + [m], s.rows[y.batch[i]].msg.topic, s.rows[y.batch[i]].msg.key)
    {
      PassesExclude(s, p, q, x.done, i);
      TraceGrows(s.log, m, s.rows[y.batch[i]].msg.topic, s.rows[y.batch[i]].msg.key);
    }
  }

  lemma NoSkipGrows(s: State, p: nat, t: Topic, k: Key)
    requires RowInv(s.history, s.rows) && PassInv(s.rows, s.acked, s.passes) && OrderInv(s)
    requires p in s.passes && s.passes[p].stage.Ready? && s.passes[p].done < |s.passes[p].batch|
    requires s.passes[p].batch[s.passes[p].done] in s.rows
    ensures NoSkip(Trace(s.log + [s.rows[s.passes[p].batch[s.passes[p].done]].msg], t, k))
  {
    var m := s.rows[s.passes[p].batch[s.passes[p].done]].msg;
    NextIsNoSkip(s, p);
    hide RowInv, PassInv, Ahead, PrefixPublished, PassOrder;
    assert NoSkip(Trace(s.log, t, k));
    hide OrderInv, Trace;
    TraceGrows(s.log, m, t, k);
    if m.topic == t && m.key == k {
      NoSkipSnoc(s.log, t, k, m.ordinal);
    } else {
      assert Trace(s.log + [m], t, k) == Trace(s.log, t, k);
    }
  }

  lemma NoSkipSnoc(log: seq<Message>, t: Topic, k: Key, n: nat)
    requires NoSkip(Trace(log, t, k)) && n <= Latest(log, t, k) + 1
    ensures NoSkip(Trace(log, t, k) + [n])
  {
    hide Trace;
    var tr := Trace(log, t, k);
    var all := tr + [n];
    forall i | 0 <= i < |all| ensures all[i] <= if i == 0 then 0 else all[i - 1] + 1 {
      assert i > 0 ==> all[i - 1] == tr[i - 1];
      if i < |tr| {
        assert all[i] == tr[i];
        assert tr[i] <= if i == 0 then 0 else tr[i - 1] + 1;
      } else {
        assert all[i] == n;
        assert i == 0 ==> n <= 0;
        assert i > 0 ==> n <= tr[i - 1] + 1;
      }
    }
  }

  lemma DeliveryKeepsOrder(s: State, p: nat, y: Pass)
    requires RowInv(s.history, s.rows) && PassInv(s.rows, s.acked, s.passes) && OrderInv(s)
    requires p in s.passes && s.passes[p].stage.Ready? && s.passes[p].done < |s.passes[p].batch|
    requires s.passes[p].batch[s.passes[p].done] in s.rows
    requires y.batch == s.passes[p].batch && Sent(y) <= s.passes[p].done + 1
    ensures OrderInv(s.(passes := s.passes[p := y], log := s.log + [s.rows[s.passes[p].batch[s.passes[p].done]].msg]))
  {
    hide RowInv, Ahead, PassOrder, NoSkip, Contiguous, SentAreBehind;
    var id := s.passes[p].batch[s.passes[p].done];
    var log := s.log + [s.rows[id].msg];
    PassFacts(s, p);
    SendKeepsAhead(s, id);
    SendKeepsOwnPass(s, p, y);
    forall q | q in s.passes && q != p ensures PassOrder(s.rows, log, s.passes[q]) { SendKeepsOtherPass(s, p, q); }
    forall t, k ensures NoSkip(Trace(log, t, k)) { NoSkipGrows(s, p, t, k); }
  }

  lemma SendKeepsOrder(env: Env, s: State, e: Step)
    requires RowInv(s.history, s.rows) && PassInv(s.rows, s.acked, s.passes) && OrderInv(s)
    requires (e.Ack? || e.Fail?) && Enabled(env, s, e)
    ensures OrderInv(Apply(env, s, e))
  {
    hide RowInv, Ahead, NoSkip, Contiguous, PrefixPublished;
    var n := Apply(env, s, e);
    if e.Ack? || e.delivered {
      hide OrderInv;
      DeliveryKeepsOrder(s, e.pass, n.passes[e.pass]);
      assert n.log == s.log + [s.rows[s.passes[e.pass].batch[s.passes[e.pass].done]].msg];
      assert n.(acked := s.acked) == s.(passes := n.passes, log := n.log);
      SameOrder(n, n.(acked := s.acked));
    } else {
      PassFacts(s, e.pass);
    }
  }

  lemma SameOrder(a: State, b: State)
    requires OrderInv(b) && a.rows == b.rows && a.log == b.log && a.passes == b.passes
    ensures OrderInv(a)
  {}

  // ---- claiming ----

  lemma ScanReachesLower(s: State, limit: nat, i: nat, a: nat)
    requires var b := Scan(s.rows, Locked(s.passes), 0, s.nextId, limit);
             i < |b| && Pending(s.rows, a) && a < b[i] && a !in Locked(s.passes)
    ensures a in Scan(s.rows, Locked(s.passes), 0, s.nextId, limit)[..i]
  {
    var b := Scan(s.rows, Locked(s.passes), 0, s.nextId, limit);
    ScanTakesLowest(s.rows, Locked(s.passes), 0, s.nextId, limit);
    assert a in b;
    var j :| 0 <= j < |b| && b[j] == a;
    assert j < i && b[..i][j] == a;
  }

  lemma ClaimIsContiguous(s: State, limit: nat)
    requires RowInv(s.history, s.rows)
    requires SafeBatch(s, Scan(s.rows, Locked(s.passes), 0, s.nextId, limit))
    ensures Contiguous(s.rows, Scan(s.rows, Locked(s.passes), 0, s.nextId, limit))
  {
    hide RowInv, Scan, Locked;
    var b := Scan(s.rows, Locked(s.passes), 0, s.nextId, limit);
    forall i, a | 0 <= i < |b| && b[i] in s.rows && a in s.rows && Alike(s.rows[a].msg, s.rows[b[i]].msg)
                  && s.rows[a].msg.ordinal < s.rows[b[i]].msg.ordinal && !s.rows[a].published
      ensures a in b[..i]
    {
      SameOrdinalSameRow(s.history, s.rows, a, b[i]);
      ScanReachesLower(s, limit, i, a);
    }
  }

  // ---- committing a pass ----

  lemma CloseKeepsPrefix(rows: map<nat, Row>, x: Pass)
    requires PrefixPublished(rows) && Contiguous(rows, x.batch)
    requires x.done <= |x.batch| && (x.stage.Noted? ==> x.done < |x.batch|)
    ensures PrefixPublished(Settled(rows, x))
  {
    var n := Settled(rows, x);
    SettledTouchesOnly(rows, x);
    forall a, b | a in n && b in n && Alike(n[a].msg, n[b].msg) && n[a].msg.ordinal < n[b].msg.ordinal && n[b].published
      ensures n[a].published
    {
      hide Settled;
      if !rows[b].published && !rows[a].published {
        var i :| 0 <= i < x.done && x.batch[..x.done][i] == b;
        var j := LowerIsClaimed(rows, x.batch, i, a);
        assert x.batch[..x.done][j] == a;
      }
    }
  }

  lemma CloseKeepsAhead(rows: map<nat, Row>, log: seq<Message>, x: Pass)
    requires Ahead(rows, log) && x.done <= |x.batch| && (x.stage.Noted? ==> x.done < |x.batch|)
    requires Sent(x) <= |x.batch| && SentAreBehind(rows, log, x)
    ensures Ahead(Settled(rows, x), log)
  {
    SettledTouchesOnly(rows, x);
  }

  lemma CloseKeepsOtherPass(rows: map<nat, Row>, log: seq<Message>, x: Pass, y: Pass)
    requires x.done <= |x.batch| && (x.stage.Noted? ==> x.done < |x.batch|) && PassOrder(rows, log, y)
    ensures PassOrder(Settled(rows, x), log, y)
  {
    SettledTouchesOnly(rows, x);
  }

  lemma CloseKeepsOrder(env: Env, s: State, p: nat)
    requires PassInv(s.rows, s.acked, s.passes) && OrderInv(s) && Enabled(env, s, Close(p))
    ensures OrderInv(Apply(env, s, Close(p)))
  {
    hide PassInv, Ahead, PrefixPublished, NoSkip, PassOrder, Settled;
    PassFacts(s, p);
    CloseKeepsPrefix(s.rows, s.passes[p]);
    CloseKeepsAhead(s.rows, s.log, s.passes[p]);
    forall q | q in s.passes ensures PassOrder(Settled(s.rows, s.passes[p]), s.log, s.passes[q]) {
      CloseKeepsOtherPass(s.rows, s.log, s.passes[p], s.passes[q]);
    }
  }

  // ---- committing a change ----

  /** The added rows are unpublished and above every row of their aggregate. */
  ghost predicate Adding(h: History, rows: map<nat, Row>, all: map<nat, Row>, k: Key) {
    && (forall id :: id in rows ==> id in all && all[id] == rows[id] && rows[id].msg.ordinal < |Hist(h, rows[id].msg.key)|)
    && (forall id :: id in all && id !in rows ==> all[id].msg.key == k && all[id].msg.ordinal == |Hist(h, k)| && !all[id].published)
  }

  lemma AddsAreAdding(h: History, rows: map<nat, Row>, w: Work)
    requires forall id :: id in rows ==> rows[id].msg.ordinal < |Hist(h, rows[id].msg.key)|
    requires w.Saved? && Adds(h, rows, w)
    ensures Adding(h, rows, rows + w.rows, w.key)
  {}

  lemma AddingKeepsMarks(h: History, rows: map<nat, Row>, all: map<nat, Row>, k: Key, log: seq<Message>)
    requires Adding(h, rows, all, k) && Ahead(rows, log) && PrefixPublished(rows)
    ensures Ahead(all, log) && PrefixPublished(all)
  {}

  lemma AddingKeepsPass(h: History, rows: map<nat, Row>, all: map<nat, Row>, k: Key, log: seq<Message>, p: Pass)
    requires Adding(h, rows, all, k) && PassOrder(rows, log, p)
    requires forall i :: 0 <= i < |p.batch| ==> Pending(rows, p.batch[i])
    ensures PassOrder(all, log, p)
  {}

  lemma OrdinalBound(h: History, rows: map<nat, Row>, id: nat)
    requires RowInv(h, rows) && id in rows
    ensures rows[id].msg.ordinal < |Hist(h, rows[id].msg.key)|
  {
    assert RowFits(h, id, rows[id].msg);
  }

  lemma InstallKeepsRelayOrder(rows: map<nat, Row>, w: Work, s: State)
    requires rows == s.rows && RowInv(s.history, rows) && w.Saved? && Adds(s.history, rows, w)
    requires PassInv(rows, s.acked, s.passes) && OrderInv(s)
    ensures OrderInv(s.(rows := rows + w.rows))
  {
    hide RowInv, Adds, Adding, Ahead, PrefixPublished, PassOrder, NoSkip, Contiguous, SentAreBehind;
    var all := rows + w.rows;
    forall id | id in rows ensures rows[id].msg.ordinal < |Hist(s.history, rows[id].msg.key)| {
      OrdinalBound(s.history, rows, id);
    }
    AddsAreAdding(s.history, rows, w);
    AddingKeepsMarks(s.history, rows, all, w.key, s.log);
    forall p | p in s.passes ensures PassOrder(all, s.log, s.passes[p]) {
      PassFacts(s, p);
      AddingKeepsPass(s.history, rows, all, w.key, s.log, s.passes[p]);
    }
  }

  // ---- every step of every safe run ----

  lemma CommitKeepsOrder(env: Env, s: State, t: nat)
    requires Inv(env, s) && OrderInv(s) && t in s.txs && ReachesCommit(s.txs[t])
    ensures OrderInv(Committed(s, t))
  {
    hide StoreInv, RowInv, PassInv, LogInv, TxFits, Apart, Adds, WorkFits, Lawful, Bounded, OrderInv;
    var w := s.txs[t].work;
    if !s.txs[t].fault.SqlFailed? && w.Saved? {
      InstallsWhole(env, s, t);
      WorkIsLegal(env, s, t);
      WorkAdds(env, s, w);
      InstallKeepsRelayOrder(s.rows, w, s);
      SameOrder(Committed(s, t), s.(rows := s.rows + w.rows));
    } else {
      SameOrder(Committed(s, t), s);
    }
  }

  lemma StepKeepsOrder(env: Env, s: State, e: Step)
    requires Inv(env, s) && OrderInv(s) && SafeStep(s, e)
    ensures OrderInv(Apply(env, s, e))
  {
    hide StoreInv, RowInv, PassInv, LogInv, TxInv, Bounded, Ahead, PrefixPublished, Contiguous, SentAreBehind, NoSkip, Decide, Stored, SafeBatch;
    if Enabled(env, s, e) {
      var n := Apply(env, s, e);
      match e
      case Commit(t) => CommitKeepsOrder(env, s, t);
      case Close(p) => CloseKeepsOrder(env, s, p);
      case Claim(p, limit) =>
        ClaimIsContiguous(s, limit);
        FreshPassIsBehind(s.rows, s.log, n.passes[p].batch);
      case Ack(_) => SendKeepsOrder(env, s, e);
      case Fail(_, _) => SendKeepsOrder(env, s, e);
      case Mark(p) => MarkKeepsOrder(env, s, p);
      case Note(p) => MarkKeepsOrder(env, s, p);
      case _ =>
    }
  }

  lemma FreshPassIsBehind(rows: map<nat, Row>, log: seq<Message>, batch: seq<nat>)
    ensures SentAreBehind(rows, log, Pass(batch, 0, Ready))
  {}

  lemma MarkKeepsOrder(env: Env, s: State, p: nat)
    requires p in s.passes && PassOrder(s.rows, s.log, s.passes[p]) && PassInv(s.rows, s.acked, s.passes)
    ensures s.passes[p].stage.Acked? ==> PassOrder(s.rows, s.log, s.passes[p].(stage := Ready, done := s.passes[p].done + 1))
    ensures s.passes[p].stage.Failed? ==> PassOrder(s.rows, s.log, s.passes[p].(stage := Noted))
  {
    assert PassFits(s.rows, s.acked, s.passes[p]);
  }

  lemma {:induction false} RunKeepsOrder(env: Env, s: State, steps: seq<Step>)
    requires Inv(env, s) && OrderInv(s) && SafeRun(env, s, steps)
    ensures OrderInv(Exec(env, s, steps))
    decreases |steps|
  {
    hide Inv, OrderInv, Apply, SafeStep;
    if steps != [] {
      StepKeeps(env, s, steps[0]);
      StepKeepsOrder(env, s, steps[0]);
      RunKeepsOrder(env, Apply(env, s, steps[0]), steps[1..]);
    }
  }
}
