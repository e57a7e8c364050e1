/**
 The idempotency-key protocol (internal/adapters/inbound/http/idempotency.go) as a step machine over any
 number of concurrent requests. The handler is opaque: it writes through the middleware's transaction and
 returns a response, panics, or dies with the process. A step that is not enabled changes nothing.
 */
module Idempotency {
  import opened Shared

  datatype Response = Response(status: int, headers: map<string, seq<string>>, body: string)

  /** `readable`: the body could be read, and hashes to `hash`. */
  datatype Request = Request(key: string, hash: string, readable: bool)

  /** A row of idempotency_keys; `outcome` is NULL until the update that records it. */
  datatype Row = Row(hash: string, outcome: Option<Response>)

  /** A fresh request's transaction: its own key row, the handler's writes, and what the handler returned. */
  datatype Work = Work(row: Row, writes: seq<nat>, poisoned: bool, returned: Option<Response>)

  datatype Phase = Waiting | Running(work: Work) | Replaying

  datatype Flight = Flight(request: Request, phase: Phase)

  datatype Answer = BadRequest | InternalError | Panicked | KeyReused | Reply(response: Response)

  datatype Sent = Sent(request: Request, answer: Answer)

  /** A handler run whose transaction committed. */
  datatype Run = Run(request: Request, writes: seq<nat>, response: Response)

  datatype State = State(
    table: map<string, Row>,      // committed key rows
    runs: map<nat, Run>,          // history variable: committed handler runs, by request
    arrived: set<nat>,            // every request so far
    open: map<nat, Flight>,       // requests in flight
    answers: map<nat, Sent>)      // what clients were sent

  datatype Step =
    | Arrive(r: nat, request: Request)
    | Insert(r: nat)                          // INSERT … ON CONFLICT DO NOTHING returns
    | Write(r: nat, write: nat)
    | SqlError(r: nat)
    | Return(r: nat, response: Response)
    | Panic(r: nat)
    | Record(r: nat)                          // the UPDATE
    | Commit(r: nat, acknowledged: bool)
    | Break(r: nat)                           // an infrastructure error, rollback, 500
    | Read(r: nat)
    | Vanish(r: nat)                          // the process dies: rollback, no answer

  const EMPTY := State(map[], map[], {}, map[], map[])

  predicate Holds(open: map<nat, Flight>, r: nat, key: string) {
    r in open && open[r].phase.Running? && open[r].request.key == key
  }

  /** Some open transaction has inserted the key; another insert of it waits until that one ends. */
  predicate Held(open: map<nat, Flight>, key: string) { exists r :: r in open && Holds(open, r, key) }

  predicate Serving(s: State, r: nat) { r in s.open && s.open[r].phase.Running? && s.open[r].phase.work.returned.None? }

  predicate Enabled(s: State, e: Step) {
    match e
    case Arrive(r, _) => r !in s.arrived
    case Insert(r) => r in s.open && s.open[r].phase.Waiting? && !Held(s.open, s.open[r].request.key)
    case Write(r, _) => Serving(s, r) && !s.open[r].phase.work.poisoned
    case SqlError(r) => Serving(s, r)
    case Return(r, _) => Serving(s, r)
    case Panic(r) => Serving(s, r)
    case Record(r) =>
      r in s.open && s.open[r].phase.Running? && s.open[r].phase.work.returned.Some? && !s.open[r].phase.work.poisoned
    case Commit(r, _) => r in s.open && s.open[r].phase.Running? && s.open[r].phase.work.row.outcome.Some?
    case Break(r) => r in s.open && !Serving(s, r)
    case Read(r) => r in s.open && s.open[r].phase.Replaying?
    case Vanish(r) => r in s.open
  }

  /** `replayCachedResponse`, branch by branch. */
  function Replay(table: map<string, Row>, request: Request): Answer {
    if request.key !in table then InternalError
    else if table[request.key].hash != request.hash then KeyReused
    else if table[request.key].outcome.None? then InternalError
    else Reply(table[request.key].outcome.value)
  }

  function Close(s: State, r: nat, a: Answer): State
    requires r in s.open
  {
    s.(open := s.open - {r}, answers := s.answers[r := Sent(s.open[r].request, a)])
  }

  function Moved(s: State, r: nat, phase: Phase): State
    requires r in s.open
  {
    s.(open := s.open[r := Flight(s.open[r].request, phase)])
  }

  /** A key already committed turns the request into a replay; otherwise it owns the uncommitted row. */
  function Inserted(table: map<string, Row>, q: Request): Phase {
    if q.key in table then Replaying else Running(Work(Row(q.hash, None), [], false, None))
  }

  function Committed(s: State, r: nat, acknowledged: bool): State
    requires r in s.open && s.open[r].phase.Running? && s.open[r].phase.work.row.outcome.Some?
  {
    var q, w := s.open[r].request, s.open[r].phase.work;
    var response := w.row.outcome.value;
    Close(s, r, if acknowledged then Reply(response) else InternalError)
    .(table := s.table[q.key := w.row], runs := s.runs[r := Run(q, w.writes, response)])
  }

  function Apply(s: State, e: Step): State {
    if !Enabled(s, e) then s else
    match e
    case Arrive(r, q) =>
      var t := s.(arrived := s.arrived + {r});
      if q.key == "" || !q.readable then t.(answers := t.answers[r := Sent(q, BadRequest)])
      else t.(open := t.open[r := Flight(q, Waiting)])
    case Insert(r) => Moved(s, r, Inserted(s.table, s.open[r].request))
    case Write(r, x) => var w := s.open[r].phase.work; Moved(s, r, Running(w.(writes := w.writes + [x])))
    case SqlError(r) => var w := s.open[r].phase.work; Moved(s, r, Running(w.(poisoned := true)))
    case Return(r, response) => var w := s.open[r].phase.work; Moved(s, r, Running(w.(returned := Some(response))))
    case Panic(r) => Close(s, r, Panicked)
    case Record(r) => var w := s.open[r].phase.work; Moved(s, r, Running(w.(row := w.row.(outcome := w.returned))))
    case Commit(r, acknowledged) => Committed(s, r, acknowledged)
    case Break(r) => Close(s, r, InternalError)
    case Read(r) => Close(s, r, Replay(s.table, s.open[r].request))
    case Vanish(r) => s.(open := s.open - {r})
  }

  function Exec(s: State, steps: seq<Step>): State
    decreases |steps|
  {
    if steps == [] then s else Exec(Apply(s, steps[0]), steps[1..])
  }

  // ---- the invariant ----

  predicate Usable(q: Request) { q.key != "" && q.readable }

  /** A committed row carries its outcome. */
  ghost predicate RowOk(table: map<string, Row>, key: string) {
    key in table ==> key != "" && table[key].outcome.Some?
  }

  /** A committed run left its request's row behind, and no other run did. */
  ghost predicate RunOk(table: map<string, Row>, runs: map<nat, Run>, r: nat) {
    r in runs ==>
      && Usable(runs[r].request) && runs[r].request.key in table
      && table[runs[r].request.key] == Row(runs[r].request.hash, Some(runs[r].response))
      && forall q :: q in runs && runs[q].request.key == runs[r].request.key ==> q == r
  }

  /** Every committed row is some committed run's. */
  ghost predicate Owned(runs: map<nat, Run>, key: string) { exists r :: r in runs && runs[r].request.key == key }

  ghost predicate PhaseOk(table: map<string, Row>, q: Request, phase: Phase) {
    match phase
    case Waiting => true
    case Replaying => q.key in table
    case Running(w) =>
      q.key !in table && w.row.hash == q.hash && (w.row.outcome.Some? ==> w.row.outcome == w.returned && !w.poisoned)
  }

  ghost predicate FlightOk(table: map<string, Row>, open: map<nat, Flight>, r: nat) {
    r in open ==>
      && Usable(open[r].request) && PhaseOk(table, open[r].request, open[r].phase)
      && (open[r].phase.Running? ==> forall q :: Holds(open, q, open[r].request.key) ==> q == r)
  }

  /** What an answer tells its client about the key. */
  ghost predicate Fits(table: map<string, Row>, q: Request, a: Answer) {
    match a
    case BadRequest => !Usable(q)
    case InternalError => Usable(q)
    case Panicked => Usable(q)
    case KeyReused => Usable(q) && q.key in table && table[q.key].hash != q.hash
    case Reply(response) => Usable(q) && q.key in table && table[q.key] == Row(q.hash, Some(response))
  }

  ghost predicate AnswerOk(table: map<string, Row>, runs: map<nat, Run>, answers: map<nat, Sent>, r: nat) {
    r in answers ==>
      Fits(table, answers[r].request, answers[r].answer)
      && (r in runs ==> runs[r].request == answers[r].request && (answers[r].answer == Reply(runs[r].response) || answers[r].answer.InternalError?))
  }

  ghost predicate Inv(s: State) {
    && s.runs.Keys <= s.answers.Keys <= s.arrived && s.open.Keys <= s.arrived && s.open.Keys !! s.answers.Keys
    && (forall key :: RowOk(s.table, key) && (key in s.table ==> Owned(s.runs, key)))
    && (forall r :: RunOk(s.table, s.runs, r))
    && (forall r :: FlightOk(s.table, s.open, r))
    && (forall r :: AnswerOk(s.table, s.runs, s.answers, r))
  }

  lemma ClosedFlights(table: map<string, Row>, open: map<nat, Flight>, r: nat)
    requires forall x :: FlightOk(table, open, x)
    ensures forall x :: FlightOk(table, open - {r}, x)
  {
    forall x ensures FlightOk(table, open - {r}, x) {
      assert FlightOk(table, open, x);
      forall q, key | Holds(open - {r}, q, key) ensures Holds(open, q, key) {}
    }
  }

  lemma MovedFlights(table: map<string, Row>, open: map<nat, Flight>, r: nat, f: Flight)
    requires forall x :: FlightOk(table, open, x)
    requires Usable(f.request) && PhaseOk(table, f.request, f.phase)
    requires f.phase.Running? ==> forall q :: Holds(open, q, f.request.key) ==> q == r
    ensures var n := open[r := f]; forall x :: FlightOk(table, n, x)
  {
    var n := open[r := f];
    forall x ensures FlightOk(table, n, x) {
      assert FlightOk(table, open, x);
      if x in n && n[x].phase.Running? {
        forall q | Holds(n, q, n[x].request.key) ensures q == x {
          if q != r { assert Holds(open, q, n[x].request.key); }
          if x != r && q == r { assert Holds(open, x, f.request.key); }
        }
      }
    }
  }

  lemma ClosedAnswers(s: State, r: nat, a: Answer)
    requires Inv(s) && r in s.open && Fits(s.table, s.open[r].request, a)
    ensures Inv(Close(s, r, a))
  {
    hide FlightOk, RowOk, RunOk, Owned, Fits;
    ClosedFlights(s.table, s.open, r);
    var n := Close(s, r, a);
    forall x ensures AnswerOk(n.table, n.runs, n.answers, x) { assert AnswerOk(s.table, s.runs, s.answers, x); }
  }

  lemma PhaseMoves(s: State, r: nat, phase: Phase)
    requires Inv(s) && r in s.open && PhaseOk(s.table, s.open[r].request, phase)
    requires phase.Running? && !s.open[r].phase.Running? ==> !Held(s.open, s.open[r].request.key)
    ensures Inv(Moved(s, r, phase))
  {
    hide AnswerOk, RowOk, RunOk, Owned, PhaseOk;
    assert FlightOk(s.table, s.open, r);
    MovedFlights(s.table, s.open, r, Flight(s.open[r].request, phase));
  }

  /** The table gains the row of `r`; flights of its key can only be waiting. */
  lemma CommittedFlights(table: map<string, Row>, open: map<nat, Flight>, r: nat, key: string, row: Row)
    requires forall x :: FlightOk(table, open, x)
    requires r in open && open[r].phase.Running? && open[r].request.key == key
    ensures var t := table[key := row]; forall x :: FlightOk(t, open - {r}, x)
  {
    assert FlightOk(table, open, r);
    ClosedFlights(table, open, r);
    var t := table[key := row];
    forall x ensures FlightOk(t, open - {r}, x) {
      assert FlightOk(table, open - {r}, x);
      if x in open - {r} && open[x].request.key == key { assert !Holds(open, x, key); }
    }
  }

  lemma CommittedRuns(table: map<string, Row>, runs: map<nat, Run>, r: nat, q: Request, writes: seq<nat>, response: Response)
    requires (forall x :: RunOk(table, runs, x)) && Usable(q) && q.key !in table && r !in runs
    ensures var t, n := table[q.key := Row(q.hash, Some(response))], runs[r := Run(q, writes, response)];
            forall x :: RunOk(t, n, x)
  {
    var n := runs[r := Run(q, writes, response)];
    var t := table[q.key := Row(q.hash, Some(response))];
    forall x ensures RunOk(t, n, x) {
      assert RunOk(table, runs, x);
      forall y | y in n && y != r ensures n[y].request.key != q.key { assert RunOk(table, runs, y); }
    }
  }

  lemma CommittedAnswers(table: map<string, Row>, runs: map<nat, Run>, answers: map<nat, Sent>, r: nat, q: Request, run: Run, a: Answer, x: nat)
    requires AnswerOk(table, runs, answers, x) && q.key !in table && run.request == q && Usable(q)
    requires a == Reply(run.response) || a.InternalError?
    ensures AnswerOk(table[q.key := Row(q.hash, Some(run.response))], runs[r := run], answers[r := Sent(q, a)], x)
  {}

  lemma CommitKeeps(s: State, r: nat, acknowledged: bool)
    requires Inv(s) && Enabled(s, Commit(r, acknowledged))
    ensures Inv(Apply(s, Commit(r, acknowledged)))
  {
    hide RunOk, AnswerOk;
    var q, w := s.open[r].request, s.open[r].phase.work;
    var response := w.row.outcome.value;
    var n := Committed(s, r, acknowledged);
    assert FlightOk(s.table, s.open, r);
    CommittedFlights(s.table, s.open, r, q.key, w.row);
    hide FlightOk;
    CommittedRuns(s.table, s.runs, r, q, w.writes, response);
    forall x ensures AnswerOk(n.table, n.runs, n.answers, x) {
      CommittedAnswers(s.table, s.runs, s.answers, r, q, n.runs[r], n.answers[r].answer, x);
    }
    forall key ensures RowOk(n.table, key) && (key in n.table ==> Owned(n.runs, key)) {
      assert RowOk(s.table, key);
      if key == q.key {
        assert r in n.runs;
      } else if key in s.table {
        var o :| o in s.runs && s.runs[o].request.key == key;
        assert o in n.runs && n.runs[o] == s.runs[o];
      }
    }
  }

  lemma ArriveKeeps(s: State, r: nat, q: Request)
    requires Inv(s)
    ensures Inv(Apply(s, Arrive(r, q)))
  {
    hide RowOk, RunOk, Owned, FlightOk;
    if r !in s.arrived && Usable(q) {
      MovedFlights(s.table, s.open, r, Flight(q, Waiting));
    }
    var n := Apply(s, Arrive(r, q));
    forall x ensures AnswerOk(n.table, n.runs, n.answers, x) { assert AnswerOk(s.table, s.runs, s.answers, x); }
  }

  /** The facts about an open request that its next step relies on. */
  lemma Known(s: State, r: nat)
    requires Inv(s) && r in s.open
    ensures Usable(s.open[r].request) && PhaseOk(s.table, s.open[r].request, s.open[r].phase)
    ensures s.open[r].request.key in s.table ==> s.table[s.open[r].request.key].outcome.Some?
    ensures s.open[r].phase.Replaying? ==> Fits(s.table, s.open[r].request, Replay(s.table, s.open[r].request))
                                           && !Replay(s.table, s.open[r].request).InternalError?
  {
    hide AnswerOk, RunOk, Owned;
    assert FlightOk(s.table, s.open, r);
    assert RowOk(s.table, s.open[r].request.key);
  }

  lemma StepKeeps(s: State, e: Step)
    requires Inv(s)
    ensures Inv(Apply(s, e))
  {
    hide Inv, Held, Usable, Close, Moved, Committed;
    if e.Arrive? {
      ArriveKeeps(s, e.r, e.request);
    } else if Enabled(s, e) {
      Known(s, e.r);
      match e
      case Insert(r) => PhaseMoves(s, r, Inserted(s.table, s.open[r].request));
      case Write(r, x) => var w := s.open[r].phase.work; PhaseMoves(s, r, Running(w.(writes := w.writes + [x])));
      case SqlError(r) => var w := s.open[r].phase.work; PhaseMoves(s, r, Running(w.(poisoned := true)));
      case Return(r, x) => var w := s.open[r].phase.work; PhaseMoves(s, r, Running(w.(returned := Some(x))));
      case Panic(r) => ClosedAnswers(s, r, Panicked);
      case Record(r) => var w := s.open[r].phase.work; PhaseMoves(s, r, Running(w.(row := w.row.(outcome := w.returned))));
      case Commit(r, acknowledged) => CommitKeeps(s, r, acknowledged);
      case Break(r) => ClosedAnswers(s, r, InternalError);
      case Read(r) => ClosedAnswers(s, r, Replay(s.table, s.open[r].request));
      case Vanish(r) => VanishKeeps(s, r);
    }
  }

  lemma VanishKeeps(s: State, r: nat)
    requires Inv(s) && r in s.open
    ensures Inv(s.(open := s.open - {r}))
  {
    hide FlightOk, RowOk, RunOk, Owned, AnswerOk;
    ClosedFlights(s.table, s.open, r);
  }

  lemma {:induction false} RunKeeps(s: State, steps: seq<Step>)
    requires Inv(s)
    ensures Inv(Exec(s, steps))
    decreases |steps|
  {
    hide Inv, Apply;
    if steps != [] {
      StepKeeps(s, steps[0]);
      RunKeeps(Apply(s, steps[0]), steps[1..]);
    }
  }

  lemma Reachable(steps: seq<Step>)
    ensures Inv(Exec(EMPTY, steps))
  {
    assert Inv(EMPTY);
    hide Inv;
    RunKeeps(EMPTY, steps);
  }

  // ---- what the protocol promises ----

  /**
   At most one handler run per key has its writes committed, a key without a committed row left none
   behind, and neither did a run that panicked.
   */
  lemma AtMostOnceApplied(steps: seq<Step>, a: nat, b: nat)
    ensures var s := Exec(EMPTY, steps);
            && (a in s.runs && b in s.runs && s.runs[a].request.key == s.runs[b].request.key ==> a == b)
            && (a in s.runs ==>
                  && s.runs[a].request.key != "" && s.runs[a].request.key in s.table
                  && s.table[s.runs[a].request.key] == Row(s.runs[a].request.hash, Some(s.runs[a].response)))
            && (a in s.answers && s.answers[a].answer.Panicked? ==> a !in s.runs)
  {
    hide Exec;
    Reachable(steps);
    var s := Exec(EMPTY, steps);
    assert RunOk(s.table, s.runs, a) && AnswerOk(s.table, s.runs, s.answers, a);
  }

  /**
   Every committed row has its outcome and belongs to a committed run, so a request about to replay finds
   its row with a status: the missing-row and null-status branches are never taken.
   */
  lemma ReplayAlwaysFindsAnOutcome(steps: seq<Step>, r: nat, key: string)
    ensures var s := Exec(EMPTY, steps);
            && (key in s.table ==> s.table[key].outcome.Some? && Owned(s.runs, key))
            && (Enabled(s, Read(r)) ==> !Replay(s.table, s.open[r].request).InternalError?)
  {
    hide Exec;
    Reachable(steps);
    var s := Exec(EMPTY, steps);
    assert RowOk(s.table, key);
    if Enabled(s, Read(r)) { Known(s, r); }
  }

  /** The answer a key gives, from its committed row. */
  function Expected(table: map<string, Row>, q: Request): Option<Answer> {
    if !Usable(q) then Some(BadRequest)
    else if q.key !in table || table[q.key].outcome.None? then None
    else if table[q.key].hash == q.hash then Some(Reply(table[q.key].outcome.value))
    else Some(KeyReused)
  }

  /**
   Whatever is answered that is neither an infrastructure error nor a panic: 400 exactly for a missing key
   or unreadable body, the stored response exactly to the hash that stored it, 422 to any other.
   */
  lemma EveryAnswerIsTheStoredOne(steps: seq<Step>, r: nat)
    ensures var s := Exec(EMPTY, steps);
            r in s.answers && !s.answers[r].answer.InternalError? && !s.answers[r].answer.Panicked? ==>
              && Expected(s.table, s.answers[r].request) == Some(s.answers[r].answer)
              && var q, a := s.answers[r].request, s.answers[r].answer;
              && (a == BadRequest <==> q.key == "" || !q.readable)
              && (q.key != "" && q.readable ==>
                    && q.key in s.table && s.table[q.key].outcome.Some?
                    && a == if s.table[q.key].hash == q.hash then Reply(s.table[q.key].outcome.value) else KeyReused)
  {
    hide Exec;
    Reachable(steps);
    var s := Exec(EMPTY, steps);
    assert AnswerOk(s.table, s.runs, s.answers, r);
    if r in s.answers { assert RowOk(s.table, s.answers[r].request.key); }
  }

  /** A committed row and a committed run never change again, whatever happens later. */
  lemma {:induction false} StoredForEver(s: State, steps: seq<Step>, key: string, r: nat)
    requires Inv(s)
    ensures var n := Exec(s, steps);
            && (key in s.table ==> key in n.table && n.table[key] == s.table[key])
            && (r in s.runs ==> r in n.runs && n.runs[r] == s.runs[r])
    decreases |steps|
  {
    hide Inv, Apply;
    if steps != [] {
      StepKeeps(s, steps[0]);
      StepStores(s, steps[0], key, r);
      StoredForEver(Apply(s, steps[0]), steps[1..], key, r);
    }
  }

  lemma StepStores(s: State, e: Step, key: string, r: nat)
    requires Inv(s)
    ensures var n := Apply(s, e);
            && (key in s.table ==> key in n.table && n.table[key] == s.table[key])
            && (r in s.runs ==> r in n.runs && n.runs[r] == s.runs[r])
  {
    hide Held, RowOk, RunOk, AnswerOk;
    if e.Commit? && Enabled(s, e) { assert FlightOk(s.table, s.open, e.r); }
  }

  /** How a fresh request's transaction can end. */
  predicate Ends(e: Step, p: nat) {
    e.r == p && (e.Panic? || e.Break? || e.Vanish? || e.Commit?)
  }

  /**
   A waiter on a key held by `p` cannot insert. Once `p` ends it can: if `p` rolled back it becomes the
   fresh request, with nothing of `p` behind it, and if `p` committed it replays the row of `p`.
   */
  lemma WaiterTakesOver(steps: seq<Step>, p: nat, r: nat, e: Step)
    requires Contends(Exec(EMPTY, steps), p, r, e)
    ensures TakenOver(Exec(EMPTY, steps), p, r, e)
  {
    hide Exec, Contends, TakenOver;
    Reachable(steps);
    TakesOver(Exec(EMPTY, steps), p, r, e);
  }

  predicate Contends(s: State, p: nat, r: nat, e: Step) {
    && p in s.open && s.open[p].phase.Running? && r in s.open && s.open[r].phase.Waiting?
    && s.open[p].request.key == s.open[r].request.key && Ends(e, p) && Enabled(s, e)
  }

  predicate TakenOver(s: State, p: nat, r: nat, e: Step)
    requires Contends(s, p, r, e)
  {
    var n := Apply(s, e);
    var x := Apply(n, Insert(r));
    && !Enabled(s, Insert(r)) && Enabled(n, Insert(r)) && r in x.open
    && if e.Commit? then x.open[r].phase.Replaying? && p in n.runs && n.runs[p].writes == s.open[p].phase.work.writes
       else p !in n.runs && n.table == s.table
            && x.open[r].phase == Running(Work(Row(s.open[r].request.hash, None), [], false, None))
  }

  lemma TakesOver(s: State, p: nat, r: nat, e: Step)
    requires Inv(s) && Contends(s, p, r, e)
    ensures TakenOver(s, p, r, e)
  {
    hide RowOk, RunOk, AnswerOk;
    var n, key := Apply(s, e), s.open[r].request.key;
    assert FlightOk(s.table, s.open, p);
    assert Holds(s.open, p, key);
    forall q ensures Holds(n.open, q, key) ==> Holds(s.open, q, key) {}
    assert forall q :: !Holds(n.open, q, key);
  }
}
