/** RequireIdempotencyKey as the code runs it for one request, each statement a step of the protocol's machine. */
module Middleware {
  import opened Shared
  import opened Idempotency

  lemma {:induction false} ExecAppend(s: State, a: seq<Step>, b: seq<Step>)
    ensures Exec(s, a + b) == Exec(Exec(s, a), b)
    decreases |a|
  {
    hide Apply;
    if a == [] {
      assert a + b == b;
    } else {
      assert (a + b)[0] == a[0] && (a + b)[1..] == a[1..] + b;
      ExecAppend(Apply(s, a[0]), a[1..], b);
    }
  }

  lemma Steps(s: State, a: seq<Step>, e: Step)
    ensures Exec(s, []) == s && Exec(s, [e]) == Apply(s, e)
    ensures Exec(s, a + [e]) == Apply(Exec(s, a), e)
  {
    hide Apply;
    assert [e][1..] == [];
    assert Exec(Apply(s, e), []) == Apply(s, e);
    ExecAppend(s, a, [e]);
    assert Exec(Apply(Exec(s, a), e), []) == Apply(Exec(s, a), e);
  }

  function Values(headers: map<string, seq<string>>, name: string): seq<string> {
    if name in headers then headers[name] else []
  }

  /** `out` is `onto` with every value of the names in `done` added. */
  ghost predicate Copied(onto: map<string, seq<string>>, from: map<string, seq<string>>, done: set<string>, out: map<string, seq<string>>) {
    && out.Keys == onto.Keys + done
    && forall k :: Values(out, k) == if k in done then Values(onto, k) + Values(from, k) else Values(onto, k)
  }

  /** The client sees the headers that were there, then all that were recorded. */
  method CopyHeaders(onto: map<string, seq<string>>, from: map<string, seq<string>>) returns (out: map<string, seq<string>>)
    ensures Copied(onto, from, from.Keys, out)
  {
    hide Copied;
    var names := from.Keys;
    var rest := names;
    out := onto;
    NothingCopied(onto, from);
    assert names - rest == {};
    while rest != {}
      invariant rest <= names && Copied(onto, from, names - rest, out)
      decreases rest
    {
      var k :| k in rest;
      var values, more := Values(out, k), from[k];
      for i := 0 to |more|
        invariant values == Values(out, k) + more[..i]
      {
        values := values + [more[i]];
      }
      assert more[..|more|] == more;
      CopyOne(onto, from, names - rest, out, k);
      assert names - (rest - {k}) == (names - rest) + {k};
      out, rest := out[k := values], rest - {k};
    }
    assert names - {} == names;
  }

  lemma NothingCopied(onto: map<string, seq<string>>, from: map<string, seq<string>>)
    ensures Copied(onto, from, {}, onto)
  {}

  lemma CopyOne(onto: map<string, seq<string>>, from: map<string, seq<string>>, done: set<string>, out: map<string, seq<string>>, k: string)
    requires Copied(onto, from, done, out) && k in from && k !in done
    ensures Copied(onto, from, done + {k}, out[k := Values(out, k) + from[k]])
  {
    var n := out[k := Values(out, k) + from[k]];
    forall x ensures x != k ==> Values(n, x) == Values(out, x) {}
  }

  lemma CopiedOntoNothing(from: map<string, seq<string>>, out: map<string, seq<string>>)
    requires Copied(map[], from, from.Keys, out)
    ensures out == from
  {
    forall k | k in from ensures out[k] == from[k] {
      assert Values(out, k) == [] + from[k];
    }
  }

  /** The database of idempotency keys and the wrapped handler. Every call may fail unless the store is calm. */
  class Store {
    const calm: bool
    const alone: bool
    var s: State

    constructor (calm: bool, alone: bool)
      ensures s == EMPTY && this.calm == calm && this.alone == alone
    {
      this.calm, this.alone, s := calm, alone, EMPTY;
    }

    /** Other requests go on, as far as they like, unless this one is alone. */
    method Meanwhile(r: nat) returns (others: seq<Step>)
      modifies this
      ensures s == Exec(old(s), others) && Foreign(others, r)
      ensures alone ==> others == []
    {
      others := *;
      if alone || !Foreign(others, r) { others := []; }
      s := Exec(s, others);
    }

    method Strikes() returns (fault: bool)
      ensures calm ==> !fault
    {
      fault := *;
      if calm { fault := false; }
    }

    /** One statement that takes effect. */
    method Do(e: Step)
      modifies this
      ensures s == Apply(old(s), e)
    {
      s := Apply(s, e);
    }

    /** `next.ServeHTTP`: any number of writes and errors inside the transaction, then a response or a panic. */
    method Serve(r: nat, script: seq<nat>) returns (response: Option<Response>, ghost trace: seq<Step>)
      requires r in s.open && s.open[r].phase.Running? && FreshWork(s.open[r].phase.work)
      modifies this
      ensures s == Exec(old(s), trace)
      ensures r in s.open && s.open[r].phase.Running? && s == Moved(old(s), r, s.open[r].phase)
      ensures Served(old(s).open[r].phase.work, s.open[r].phase.work, script, response, calm)
    {
      hide Exec, Apply, Moved, Served;
      ghost var s0 := s;
      trace := [];
      Steps(s0, [], Panic(r));
      ServeBegins(s0, r, script, calm);
      for i := 0 to |script|
        invariant s == Exec(s0, trace) && r in s0.open && s0.open[r].phase.Running? && Handling(s0, s, r, script[..i], None, calm)
      {
        var fault := Strikes();
        var e := if fault then SqlError(r) else Write(r, script[i]);
        Steps(s0, trace, e);
        ServeStep(s0, s, r, e, script, i, calm);
        trace := trace + [e];
        Do(e);
      }
      assert script[..|script|] == script;
      var panics := *;
      if panics { return None, trace; }
      var answer := *;
      Steps(s0, trace, Return(r, answer));
      ServeReturns(s0, s, r, script, answer, calm);
      Do(Return(r, answer));
      return Some(answer), trace + [Return(r, answer)];
    }
  }

  /** Steps of other requests only. */
  predicate Foreign(steps: seq<Step>, r: nat) { forall i :: 0 <= i < |steps| ==> steps[i].r != r }

  lemma StepLeavesFlight(s: State, e: Step, r: nat)
    requires e.r != r && r in s.open && r in s.arrived
    ensures var n := Apply(s, e); r in n.open && n.open[r] == s.open[r] && r in n.arrived
  {
    hide Held;
  }

  lemma {:induction false} OthersLeaveFlight(s: State, others: seq<Step>, r: nat)
    requires Foreign(others, r) && r in s.open && r in s.arrived
    ensures var n := Exec(s, others); r in n.open && n.open[r] == s.open[r] && r in n.arrived
    decreases |others|
  {
    hide Apply;
    if others != [] {
      StepLeavesFlight(s, others[0], r);
      OthersLeaveFlight(Apply(s, others[0]), others[1..], r);
    }
  }

  predicate FreshWork(w: Work) { !w.poisoned && w.writes == [] && w.returned.None? && w.row.outcome.None? }

  /** The handler's own part of the transaction; with nothing failing it wrote its whole script. */
  ghost predicate Served(was: Work, w: Work, script: seq<nat>, response: Option<Response>, calm: bool) {
    && w == was.(writes := w.writes, poisoned := w.poisoned, returned := response)
    && (calm ==> !w.poisoned && w.writes == script)
  }

  ghost predicate Handling(s0: State, s: State, r: nat, script: seq<nat>, response: Option<Response>, calm: bool)
    requires r in s0.open && s0.open[r].phase.Running?
  {
    && r in s.open && s.open[r].phase.Running? && s == Moved(s0, r, s.open[r].phase)
    && Served(s0.open[r].phase.work, s.open[r].phase.work, script, response, calm)
  }

  lemma ServeBegins(s: State, r: nat, script: seq<nat>, calm: bool)
    requires r in s.open && s.open[r].phase.Running? && FreshWork(s.open[r].phase.work)
    ensures Handling(s, s, r, script[..0], None, calm)
  {
    assert s.open[r := s.open[r]] == s.open;
  }

  lemma ServeStep(s0: State, s: State, r: nat, e: Step, script: seq<nat>, i: nat, calm: bool)
    requires r in s0.open && s0.open[r].phase.Running? && FreshWork(s0.open[r].phase.work)
    requires i < |script| && Handling(s0, s, r, script[..i], None, calm)
    requires e == SqlError(r) || e == Write(r, script[i])
    requires calm ==> e == Write(r, script[i])
    ensures Handling(s0, Apply(s, e), r, script[..i + 1], None, calm)
  {
    assert script[..i + 1] == script[..i] + [script[i]];
    var n := Apply(s, e);
    assert s0.open[r := n.open[r]] == n.open;
  }

  lemma ServeReturns(s0: State, s: State, r: nat, script: seq<nat>, response: Response, calm: bool)
    requires r in s0.open && s0.open[r].phase.Running? && FreshWork(s0.open[r].phase.work)
    requires Handling(s0, s, r, script, None, calm)
    ensures Handling(s0, Apply(s, Return(r, response)), r, script, Some(response), calm)
  {
    var n := Apply(s, Return(r, response));
    assert s0.open[r := n.open[r]] == n.open;
  }

  /** `n` is `s` after request `r` came and went: `q` is answered `a`, and nobody else's flight moved. */
  ghost predicate Answered(s: State, n: State, r: nat, q: Request, a: Answer) {
    && n.arrived == s.arrived + {r} && n.open == s.open && n.answers == s.answers[r := Sent(q, a)]
  }

  /** Nothing but the answer is new, or the request's one run is committed with its whole outcome. */
  ghost predicate RanOnce(s: State, n: State, r: nat, q: Request, a: Answer) {
    || (n.table == s.table && n.runs == s.runs && !a.Reply?)
    || (&& q.key !in s.table && r in n.runs && n.runs == s.runs[r := n.runs[r]] && n.runs[r].request == q
        && n.table == s.table[q.key := Row(q.hash, Some(n.runs[r].response))]
        && (a == Reply(n.runs[r].response) || a == InternalError))
  }

  /** The request inserted its key first. */
  ghost predicate Fresh(s: State, r: nat) {
    r in s.open && s.open[r].phase.Running? && FreshWork(s.open[r].phase.work)
  }

  lemma Arrives(s: State, r: nat, q: Request)
    requires Inv(s) && r !in s.arrived
    ensures var n := Apply(s, Arrive(r, q));
            && Inv(n)
            && (if Usable(q) then r in n.open && n.open[r] == Flight(q, Waiting) && r in n.arrived
                else Answered(s, n, r, q, BadRequest) && n.table == s.table && n.runs == s.runs)
  {
    ArriveKeeps(s, r, q);
  }

  /** The state without the request's own flight. */
  function Aside(s: State, r: nat): State { s.(open := s.open - {r}) }

  lemma NotYet(s: State, r: nat)
    requires Inv(s) && r in s.open
    ensures r !in s.runs && r !in Aside(s, r).open && s.open == Aside(s, r).open[r := s.open[r]] && s.arrived == s.arrived + {r}
  {
    hide RowOk, RunOk, FlightOk, AnswerOk, Owned;
  }

  lemma InsertReturns(s: State, r: nat)
    requires Inv(s) && Enabled(s, Insert(r))
    ensures var n := Apply(s, Insert(r));
            && Inv(n) && n == Moved(s, r, n.open[r].phase) && r in n.open && n.open[r].request == s.open[r].request
            && (if s.open[r].request.key in s.table then n.open[r].phase.Replaying?
                else Fresh(n, r) && n.open[r].phase.work.row.hash == s.open[r].request.hash)
  {
    hide Inv, Held;
    StepKeeps(s, Insert(r));
  }

  /** Leaving a flight with nothing committed. */
  lemma LeavesNothing(s0: State, s: State, r: nat, q: Request, phase: Phase, a: Answer)
    requires r !in s0.open && s.open == s0.open[r := Flight(q, phase)] && s.answers == s0.answers && s.arrived == s0.arrived + {r}
    requires s.table == s0.table && s.runs == s0.runs && !a.Reply?
    ensures Answered(s0, Close(s, r, a), r, q, a) && RanOnce(s0, Close(s, r, a), r, q, a)
  {
    assert s0.open[r := Flight(q, phase)] - {r} == s0.open;
  }

  lemma LeavesRun(s0: State, s: State, r: nat, q: Request, phase: Phase, acknowledged: bool)
    requires r !in s0.open && s.open == s0.open[r := Flight(q, phase)] && s.answers == s0.answers && s.arrived == s0.arrived + {r}
    requires s.table == s0.table && s.runs == s0.runs && q.key !in s0.table && Usable(q)
    requires phase.Running? && phase.work.row.outcome.Some? && phase.work.row.hash == q.hash
    ensures var n := Apply(s, Commit(r, acknowledged));
            var a := if acknowledged then Reply(phase.work.row.outcome.value) else InternalError;
            && Answered(s0, n, r, q, a) && RanOnce(s0, n, r, q, a)
            && n.runs[r].writes == phase.work.writes && (acknowledged ==> Expected(n.table, q) == Some(a))
  {
    assert s0.open[r := Flight(q, phase)] - {r} == s0.open;
  }

  class IdempotencyMiddleware {
    const store: Store

    constructor (store: Store)
      ensures this.store == store
    {
      this.store := store;
    }

    /**
     One request from arrival to answer. While its insert waits, others go on; `mid` is what they leave by
     the time it returns. A key committed by then is replayed without running the handler; otherwise the
     handler runs once and its writes, the key and the recorded response commit together or not at all.
     `script` stands for what the handler would write.
     */
    method RequireIdempotencyKey(r: nat, q: Request, script: seq<nat>) returns (answer: Answer, ghost mid: State, ghost trace: seq<Step>)
      requires Inv(store.s) && r !in store.s.arrived
      modifies store
      ensures store.s == Exec(old(store.s), trace) && Inv(store.s)
      ensures Usable(q) ==>
        exists others :: Foreign(others, r) && (store.alone ==> others == []) && mid == Aside(Exec(Apply(old(store.s), Arrive(r, q)), others), r)
      ensures !Usable(q) ==> mid == old(store.s) && answer == BadRequest
      ensures Answered(mid, store.s, r, q, answer)
      ensures q.key in mid.table ==> store.s.table == mid.table && store.s.runs == mid.runs
      ensures q.key !in mid.table ==> RanOnce(mid, store.s, r, q, answer)
      ensures store.calm && r in store.s.runs ==> r in old(store.s).runs || store.s.runs[r].writes == script
      ensures answer == InternalError || answer == Panicked || Expected(store.s.table, q) == Some(answer)
      ensures q.key == "" || !q.readable <==> answer == BadRequest
      ensures q.key != "" && q.readable && q.key in mid.table && answer != InternalError ==>
        mid.table[q.key].outcome.Some?
        && answer == if mid.table[q.key].hash == q.hash then Reply(mid.table[q.key].outcome.value) else KeyReused
      ensures q.key != "" && q.readable && q.key !in mid.table && answer != InternalError && answer != Panicked ==>
        answer.Reply? && q.key in store.s.table && store.s.table[q.key] == Row(q.hash, Some(answer.response)) && r in store.s.runs
      ensures answer.Reply? && q.key !in mid.table ==> trace != [] && trace[|trace| - 1] == Commit(r, true)
      ensures store.calm && (forall o :: o in mid.open && mid.open[o].phase.Running? ==> mid.open[o].request.key != q.key) ==>
        answer != InternalError
    {
      hide Exec, Inv, Apply, Expected, Held, Enabled, Answered, RanOnce, Foreign;
      ghost var s0 := store.s;
      Steps(s0, [], Arrive(r, q));
      Arrives(s0, r, q);
      trace := [Arrive(r, q)];
      store.Do(Arrive(r, q));
      if q.key == "" || !q.readable {
        BadRequests(s0, store.s, r, q);
        return BadRequest, s0, trace;
      }
      ghost var s1 := store.s;
      var others := store.Meanwhile(r);
      OthersLeaveFlight(s1, others, r);
      RunKeeps(s1, others);
      ExecAppend(s0, trace, others);
      trace := trace + others;
      ghost var s2 := store.s;
      NotYet(s2, r);
      mid := Aside(s2, r);
      WaiterHoldsNothing(s2, r, q.key);
      HeldMeans(mid.open, q.key);
      var fault := store.Strikes();
      if fault || Held(store.s.open, q.key) {
        Steps(s0, trace, Break(r));
        Breaks(store.s, r);
        LeavesNothing(mid, store.s, r, q, Waiting, InternalError);
        store.Do(Break(r));
        return InternalError, mid, trace + [Break(r)];
      }
      Steps(s0, trace, Insert(r));
      CanInsert(s2, r);
      InsertReturns(store.s, r);
      store.Do(Insert(r));
      trace := trace + [Insert(r)];
      ghost var s3, tail := store.s, [];
      assert s3.open == mid.open[r := s3.open[r]];
      if store.s.open[r].phase.Replaying? {
        answer, tail := ReplayCachedResponse(r, q, mid);
        ReplaySpelled(mid.table, q, answer);
      } else {
        answer, tail := RunFreshRequest(r, q, script, mid);
        FreshSpelled(mid, store.s, r, q, answer);
      }
      ExecAppend(s0, trace, tail);
      RunKeeps(s3, tail);
      trace := trace + tail;
    }

    /** The key's row is read outside any transaction, and its outcome is sent again to the same hash. */
    method ReplayCachedResponse(r: nat, q: Request, ghost s0: State) returns (answer: Answer, ghost trace: seq<Step>)
      requires Inv(store.s) && r !in s0.open && store.s.open == s0.open[r := Flight(q, Replaying)]
      requires store.s == s0.(open := store.s.open, arrived := s0.arrived + {r})
      modifies store
      ensures store.s == Exec(old(store.s), trace)
      ensures store.s.table == s0.table && store.s.runs == s0.runs && Answered(s0, store.s, r, q, answer)
      ensures answer == InternalError || Expected(store.s.table, q) == Some(answer)
      ensures store.calm ==> answer != InternalError
    {
      hide Exec, Inv;
      ghost var s1 := store.s;
      assert s1.open - {r} == s0.open;
      Steps(s1, [], Read(r));
      Steps(s1, [], Break(r));
      var table := store.s.table;
      var fault := store.Strikes();
      if fault {
        store.Do(Break(r));
        return InternalError, [Break(r)];
      }
      if q.key !in table {
        answer := InternalError;
      } else if table[q.key].hash != q.hash {
        answer := KeyReused;
      } else if table[q.key].outcome.None? {
        answer := InternalError;
      } else {
        var stored := table[q.key].outcome.value;
        var headers := CopyHeaders(map[], stored.headers);
        CopiedOntoNothing(stored.headers, headers);
        answer := Reply(Response(stored.status, headers, stored.body));
      }
      assert s1.open[r] == Flight(q, Replaying);
      Known(s1, r);
      store.Do(Read(r));
      return answer, [Read(r)];
    }

    /** The handler runs inside the transaction; its response is recorded, committed, and only then sent. */
    method RunFreshRequest(r: nat, q: Request, script: seq<nat>, ghost s0: State) returns (answer: Answer, ghost trace: seq<Step>)
      requires r !in s0.open && r !in s0.runs && Usable(q) && q.key !in s0.table && Fresh(store.s, r)
      requires store.s.open == s0.open[r := Flight(q, store.s.open[r].phase)] && store.s.open[r].phase.work.row.hash == q.hash
      requires store.s == s0.(open := store.s.open, arrived := s0.arrived + {r})
      modifies store
      ensures store.s == Exec(old(store.s), trace)
      ensures Answered(s0, store.s, r, q, answer) && RanOnce(s0, store.s, r, q, answer)
      ensures store.calm && r in store.s.runs ==> store.s.runs[r].writes == script
      ensures answer.Reply? ==> trace != [] && trace[|trace| - 1] == Commit(r, true)
      ensures answer == InternalError || answer == Panicked || Expected(store.s.table, q) == Some(answer)
      ensures store.calm ==> answer != InternalError
    {
      hide Exec, Expected, RanOnce, Answered;
      ghost var s1 := store.s;
      var response;
      response, trace := store.Serve(r, script);
      assert s1.open[r := store.s.open[r]] == s0.open[r := store.s.open[r]];
      if response.None? {
        Steps(s1, trace, Panic(r));
        LeavesNothing(s0, store.s, r, q, store.s.open[r].phase, Panicked);
        store.Do(Panic(r));
        return Panicked, trace + [Panic(r)];
      }
      ghost var tail;
      answer, tail := Persist(r, q, response.value, s0);
      ExecAppend(s1, trace, tail);
      return answer, trace + tail;
    }

    /** Everything of `runFreshRequest` after the handler returned. */
    method Persist(r: nat, q: Request, response: Response, ghost s0: State) returns (answer: Answer, ghost trace: seq<Step>)
      requires r !in s0.open && Usable(q) && q.key !in s0.table
      requires r in store.s.open && Finishing(store.s.open[r], q, response) && During(s0, store.s, r, store.s.open[r])
      modifies store
      ensures store.s == Exec(old(store.s), trace)
      ensures Answered(s0, store.s, r, q, answer) && RanOnce(s0, store.s, r, q, answer)
      ensures r in store.s.runs ==> r in s0.runs || store.s.runs[r].writes == old(store.s).open[r].phase.work.writes
      ensures answer == InternalError || (answer == Reply(response) && Expected(store.s.table, q) == Some(answer))
      ensures answer.Reply? ==> trace != [] && trace[|trace| - 1] == Commit(r, true)
      ensures store.calm && !old(store.s).open[r].phase.work.poisoned ==> answer != InternalError
    {
      hide Exec, Expected, RanOnce, Answered, Apply, Enabled;
      ghost var s1 := store.s;
      var marshals := store.Strikes();
      var fault := store.Strikes();
      EndsBroken(s0, s1, r, q);
      if marshals || fault || store.s.open[r].phase.work.poisoned {
        Steps(s1, [], Break(r));
        store.Do(Break(r));
        return InternalError, [Break(r)];
      }
      Steps(s1, [], Record(r));
      Recorded(s0, s1, r, q, response);
      store.Do(Record(r));
      EndsBroken(s0, store.s, r, q);
      var lost := store.Strikes();
      var undone := store.Strikes();
      if undone {
        Steps(s1, [Record(r)], Break(r));
        store.Do(Break(r));
        return InternalError, [Record(r)] + [Break(r)];
      }
      Steps(s1, [Record(r)], Commit(r, !lost));
      LeavesRun(s0, store.s, r, q, store.s.open[r].phase, !lost);
      store.Do(Commit(r, !lost));
      trace := [Record(r)] + [Commit(r, !lost)];
      if lost { return InternalError, trace; }
      var headers := CopyHeaders(map[], response.headers);
      CopiedOntoNothing(response.headers, headers);
      answer := Reply(Response(response.status, headers, response.body));
    }
  }

  /** `s` is `s0` with request `r` in flight. */
  ghost predicate During(s0: State, s: State, r: nat, f: Flight) {
    s == s0.(open := s0.open[r := f], arrived := s0.arrived + {r})
  }

  ghost predicate Finishing(f: Flight, q: Request, response: Response) {
    && f.request == q && f.phase.Running? && f.phase.work.row == Row(q.hash, None)
    && f.phase.work.returned == Some(response)
  }

  lemma EndsBroken(s0: State, s: State, r: nat, q: Request)
    requires r !in s0.open && r in s.open && s.open[r].request == q && !Serving(s, r) && During(s0, s, r, s.open[r])
    ensures var n := Apply(s, Break(r));
            Answered(s0, n, r, q, InternalError) && RanOnce(s0, n, r, q, InternalError) && n.runs == s0.runs
  {
    LeavesNothing(s0, s, r, q, s.open[r].phase, InternalError);
  }

  lemma Recorded(s0: State, s: State, r: nat, q: Request, response: Response)
    requires r in s.open && Finishing(s.open[r], q, response) && During(s0, s, r, s.open[r]) && !s.open[r].phase.work.poisoned
    ensures var n := Apply(s, Record(r));
            && r in n.open && During(s0, n, r, n.open[r]) && n.open[r].request == q && !Serving(n, r)
            && n.open[r].phase == Running(s.open[r].phase.work.(row := Row(q.hash, Some(response))))
  {
    var n := Apply(s, Record(r));
    assert s0.open[r := s.open[r]][r := n.open[r]] == s0.open[r := n.open[r]];
  }

  lemma ReplaySpelled(table: map<string, Row>, q: Request, answer: Answer)
    requires Usable(q) && q.key in table && (answer == InternalError || Expected(table, q) == Some(answer))
    ensures answer != BadRequest && answer != Panicked
    ensures answer != InternalError ==>
      && table[q.key].outcome.Some?
      && answer == if table[q.key].hash == q.hash then Reply(table[q.key].outcome.value) else KeyReused
  {}

  lemma FreshSpelled(mid: State, n: State, r: nat, q: Request, answer: Answer)
    requires Usable(q) && q.key !in mid.table && RanOnce(mid, n, r, q, answer)
    requires answer == InternalError || answer == Panicked || Expected(n.table, q) == Some(answer)
    ensures answer != BadRequest
    ensures answer != InternalError && answer != Panicked ==>
      answer.Reply? && q.key in n.table && n.table[q.key] == Row(q.hash, Some(answer.response)) && r in n.runs
  {}

  lemma BadRequests(s: State, n: State, r: nat, q: Request)
    requires !Usable(q) && Answered(s, n, r, q, BadRequest) && n.table == s.table && n.runs == s.runs
    ensures Expected(n.table, q) == Some(BadRequest) && RanOnce(s, n, r, q, BadRequest)
  {}

  /** The request's own flight does not count: it is only waiting. */
  lemma WaiterHoldsNothing(s: State, r: nat, key: string)
    requires r in s.open && s.open[r].phase.Waiting?
    ensures Held(s.open, key) <==> Held(Aside(s, r).open, key)
  {
    var rest := Aside(s, r).open;
    if q :| q in s.open && Holds(s.open, q, key) { assert q in rest && Holds(rest, q, key); }
    if q :| q in rest && Holds(rest, q, key) { assert q in s.open && Holds(s.open, q, key); }
  }

  lemma HeldMeans(open: map<nat, Flight>, key: string)
    ensures Held(open, key) <==> exists o :: o in open && open[o].phase.Running? && open[o].request.key == key
  {
    if o :| o in open && open[o].phase.Running? && open[o].request.key == key { assert Holds(open, o, key); }
  }

  lemma CanInsert(s: State, r: nat)
    requires r in s.open && s.open[r].phase.Waiting? && !Held(s.open, s.open[r].request.key)
    ensures Enabled(s, Insert(r))
  {}

  lemma Breaks(s: State, r: nat)
    requires Inv(s) && r in s.open && !Serving(s, r)
    ensures Apply(s, Break(r)) == Close(s, r, InternalError) && Inv(Apply(s, Break(r)))
  {
    hide Inv, Close;
    StepKeeps(s, Break(r));
    assert Enabled(s, Break(r));
  }
}
