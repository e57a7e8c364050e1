/**
 The committed changes of one aggregate. No lock is held between a use case's load and its save, so a change
 may be decided on a version that is no longer current: what every history keeps, and exactly which ones are
 as the use cases intend.
 */
module Histories {
  import opened Shared
  import opened ProcessPaths
  import opened Catalogue
  import opened Outbox
  import opened OutboxInvariant

  ghost predicate Link(env: Env, k: Key, prev: Option<Value>, v: Value, e: Event) {
    KeyOf(e) == k && Follows(env, prev, v, e) && Loadable(env, k, v)
  }

  /** A legal succession: each change is decided on the value it replaces. */
  ghost predicate Chain(env: Env, k: Key, h: seq<Change>) {
    forall n :: 0 <= n < |h| ==> Link(env, k, Before(h, n), h[n].value, h[n].event)
  }

  /** Every change was decided on the version its save replaced. */
  ghost predicate Current(h: seq<Change>) { forall n :: 0 <= n < |h| ==> h[n].loaded == n }

  lemma CurrentIsChain(env: Env, k: Key, h: seq<Change>)
    requires Landed(env, k, h) && Current(h)
    ensures Chain(env, k, h)
  {
    hide Lands, Follows, Loadable;
    forall n | 0 <= n < |h| ensures Link(env, k, Before(h, n), h[n].value, h[n].event) {
      assert LandedAt(env, k, h, n);
      VersionsLoadable(env, k, h, n);
      LandsWhereLoaded(env, k, Before(h, n), h[n].value, h[n].event);
    }
  }

  // ---- runs in which no load goes stale ----

  ghost predicate SaveIsCurrent(env: Env, s: State, e: Step) {
    e.Save? && Enabled(env, s, e) ==> e.version == |Hist(s.history, Target(e.cmd))|
  }

  /** In every save of the run, what was loaded is still the committed value. */
  ghost predicate LoadsAreCurrent(env: Env, s: State, steps: seq<Step>)
    decreases |steps|
  {
    steps == [] || (SaveIsCurrent(env, s, steps[0]) && LoadsAreCurrent(env, Apply(env, s, steps[0]), steps[1..]))
  }

  ghost predicate AllCurrent(s: State) {
    && (forall k :: Current(Hist(s.history, k)))
    && (forall t :: t in s.txs && s.txs[t].work.Saved? ==> s.txs[t].work.loaded == s.txs[t].work.ordinal)
  }

  lemma CommitKeepsCurrent(env: Env, s: State, t: nat)
    requires TxInv(env, s) && AllCurrent(s) && t in s.txs
    ensures AllCurrent(Committed(s, t))
  {
    hide Lawful, IdsFit, EventIdFresh;
    var n, w := Committed(s, t), s.txs[t].work;
    if w.Saved? { WorkIsLegal(env, s, t); }
    forall k ensures Current(Hist(n.history, k)) { assert Current(Hist(s.history, k)); }
  }

  lemma StepKeepsCurrent(env: Env, s: State, e: Step)
    requires Inv(env, s) && AllCurrent(s) && SaveIsCurrent(env, s, e)
    ensures AllCurrent(Apply(env, s, e))
  {
    hide StoreInv, RowInv, PassInv, LogInv, TxInv, Bounded, TotalOrder, Decide, Stored, Current, Committed, Scan, Settled;
    if Enabled(env, s, e) && e.Commit? {
      CommitKeepsCurrent(env, s, e.tx);
    }
  }

  lemma {:induction false} RunKeepsCurrent(env: Env, s: State, steps: seq<Step>)
    requires Inv(env, s) && AllCurrent(s) && LoadsAreCurrent(env, s, steps)
    ensures AllCurrent(Exec(env, s, steps))
    decreases |steps|
  {
    hide Inv, Apply, AllCurrent, SaveIsCurrent;
    if steps != [] {
      StepKeeps(env, s, steps[0]);
      StepKeepsCurrent(env, s, steps[0]);
      RunKeepsCurrent(env, Apply(env, s, steps[0]), steps[1..]);
    }
  }

  /** In such a run every aggregate's history is a legal succession. */
  lemma CurrentLoadsMakeChains(env: Env, steps: seq<Step>, k: Key)
    requires TotalOrder(env.before) && LoadsAreCurrent(env, EMPTY, steps)
    ensures var h := Hist(Exec(env, EMPTY, steps).history, k); Current(h) && Chain(env, k, h)
  {
    hide Exec, LoadsAreCurrent, Landed, Current, RowInv, TxInv, PassInv, LogInv;
    Reachable(env, []);
    Reachable(env, steps);
    EmptyRun(env, EMPTY);
    assert AllCurrent(EMPTY) by { assert Current([]) by { NothingStale(); } }
    RunKeepsCurrent(env, EMPTY, steps);
    CurrentIsChain(env, k, Hist(Exec(env, EMPTY, steps).history, k));
  }

  lemma NothingStale()
    ensures Current([])
  {}

  // ---- what every history of a path keeps ----

  ghost predicate SamePath(id: string, a: Path, b: Path) {
    && a.id == b.id == id && a.createdAt == b.createdAt && a.def.direct == b.def.direct && a.def.role == b.def.role
  }

  /** One save, from the version it was decided on and the row it met. */
  lemma PathLands(env: Env, id: string, loaded: Option<Value>, row: Option<Value>, v: Value, e: Event)
    requires Lawful(env, PathKey(id), loaded, row, v, e)
    ensures v.PathValue? && v.path.id == id && !e.ScheduleChanged?
    ensures e.Created? <==> loaded.None?
    ensures e.Retired? <==> v.path.status == Deactivated
    ensures AsPath(row).Some? && AsPath(row).value.id == id ==> SamePath(id, AsPath(row).value, v.path)
    ensures !e.Created? ==> AsPath(loaded).Some? && AsPath(loaded).value.status == Active
  {}

  /** In every run: the id, direct, role and creation time of a path never change, and only a load of nothing creates. */
  lemma {:induction false} PathKept(env: Env, id: string, h: seq<Change>, n: nat)
    requires Landed(env, PathKey(id), h) && n < |h|
    ensures h[0].value.PathValue? && h[n].value.PathValue? && SamePath(id, h[0].value.path, h[n].value.path)
    ensures !h[n].event.ScheduleChanged? && (h[n].event.Created? <==> h[n].loaded == 0)
    ensures h[n].event.Retired? <==> h[n].value.path.status == Deactivated
    ensures !h[n].event.Created? ==> 0 < h[n].loaded <= n && h[h[n].loaded - 1].value.PathValue?
                                     && h[h[n].loaded - 1].value.path.status == Active
  {
    hide Landed, Lawful;
    AtIndex(env, PathKey(id), h, n);
    PathLands(env, id, Before(h, h[n].loaded), Before(h, n), h[n].value, h[n].event);
    if n > 0 { PathKept(env, id, h, n - 1); }
  }

  lemma AtIndex(env: Env, k: Key, h: seq<Change>, n: nat)
    requires Landed(env, k, h) && n < |h|
    ensures h[n].loaded <= n && Lawful(env, k, Before(h, h[n].loaded), Before(h, n), h[n].value, h[n].event)
  {
    hide Lawful;
    assert LandedAt(env, k, h, n);
  }

  /** Created, then updates, then perhaps one retirement. */
  ghost predicate Lifecycle(h: seq<Change>) {
    && (forall n :: 0 <= n < |h| ==> (h[n].event.Created? <==> n == 0))
    && (forall n :: 0 <= n < |h| - 1 ==> !h[n].event.Retired?)
  }

  /** Past the first, every save was decided on an existing path and met an active one. */
  ghost predicate OverActiveRows(h: seq<Change>) {
    forall n :: 0 < n < |h| ==>
      h[n].loaded > 0 && AsPath(Before(h, n)).Some? && AsPath(Before(h, n)).value.status == Active
  }

  /** A path's events have the intended shape exactly when no save but the first followed an empty load or met a retired row. */
  lemma LifecycleIff(env: Env, id: string, h: seq<Change>)
    requires Landed(env, PathKey(id), h)
    ensures Lifecycle(h) <==> OverActiveRows(h)
    ensures Current(h) ==> Lifecycle(h)
  {
    hide Landed;
    forall n | 0 <= n < |h|
      ensures h[n].event.Created? <==> h[n].loaded == 0
      ensures h[n].value.PathValue? && (h[n].event.Retired? <==> h[n].value.path.status == Deactivated)
      ensures n == 0 ==> h[n].loaded == 0
      ensures h[n].event.Created? || (0 < h[n].loaded <= n && h[h[n].loaded - 1].value.PathValue? && h[h[n].loaded - 1].value.path.status == Active)
    {
      PathKept(env, id, h, n);
    }
    if OverActiveRows(h) {
      forall n | 0 <= n < |h| - 1 ensures !h[n].event.Retired? {
        assert Before(h, n + 1) == Some(h[n].value);
      }
    }
  }

  // ---- the definition a stored path holds, and the one published last ----

  /** The event whose definition change `n` saved: a retirement saves the definition it loaded. */
  ghost function SavedFrom(h: seq<Change>, n: nat): Event
    requires n < |h|
  {
    if h[n].event.Retired? && 0 < h[n].loaded <= n then SavedFrom(h, h[n].loaded - 1) else h[n].event
  }

  /** The last definition published up to change `n`. */
  ghost function LastPublished(h: seq<Change>, n: nat): Event
    requires n < |h|
  {
    if h[n].event.Retired? && n > 0 then LastPublished(h, n - 1) else h[n].event
  }

  ghost predicate Defines(env: Env, e: Event) { (e.Created? || e.Updated?) && DefinitionFault(env, e.def).None? }

  lemma DefinitionLands(env: Env, id: string, loaded: Option<Value>, row: Option<Value>, v: Value, e: Event)
    requires Lawful(env, PathKey(id), loaded, row, v, e) && !e.Retired?
    ensures Defines(env, e) && v.PathValue?
    ensures v.path.def == StoredDef(e.def).(direct := v.path.def.direct, role := v.path.def.role)
    ensures AsPath(row).None? && AsPath(loaded).None? ==> v.path.def == StoredDef(e.def)
    ensures e.Updated? ==> AsPath(loaded).Some? && e.def.direct == AsPath(loaded).value.def.direct && e.def.role == AsPath(loaded).value.def.role
  {
    hide DefinitionFault;
  }

  lemma RetirementLands(env: Env, id: string, loaded: Option<Value>, row: Option<Value>, v: Value, e: Event)
    requires Lawful(env, PathKey(id), loaded, row, v, e) && e.Retired?
    ensures AsPath(loaded).Some? && v.PathValue?
    ensures var p := AsPath(loaded).value; v.path.def == p.def.(direct := v.path.def.direct, role := v.path.def.role)
  {}

  /** In every run a stored path is the definition it was saved from, under the immutable fields of the first. */
  lemma {:induction false} StoredFrom(env: Env, id: string, h: seq<Change>, n: nat)
    requires Landed(env, PathKey(id), h) && n < |h|
    ensures h[0].event.Created? && DefinitionFault(env, h[0].event.def).None?
    ensures Defines(env, SavedFrom(h, n)) && h[n].value.PathValue?
    ensures var first := h[0].event.def;
            h[n].value.path.def == StoredDef(SavedFrom(h, n).def).(direct := first.direct, role := first.role)
    decreases n
  {
    hide Landed, Lawful, DefinitionFault;
    PathKept(env, id, h, 0);
    PathKept(env, id, h, n);
    AtIndex(env, PathKey(id), h, 0);
    AtIndex(env, PathKey(id), h, n);
    DefinitionLands(env, id, Before(h, 0), Before(h, 0), h[0].value, h[0].event);
    if h[n].event.Retired? {
      StoredFrom(env, id, h, h[n].loaded - 1);
      RetirementLands(env, id, Before(h, h[n].loaded), Before(h, n), h[n].value, h[n].event);
    } else {
      DefinitionLands(env, id, Before(h, h[n].loaded), Before(h, n), h[n].value, h[n].event);
    }
  }

  /** An update differs from what it was decided on; it repeats that version's own event only where the columns lost part of it. */
  lemma UpdatesDiffer(env: Env, id: string, h: seq<Change>, n: nat)
    requires Landed(env, PathKey(id), h) && n < |h| && h[n].event.Updated?
    ensures 0 < h[n].loaded <= n
    ensures var l := h[n].loaded - 1;
            && h[l].value.PathValue? && h[n].event.def != h[l].value.path.def
            && (h[l].event.Created? || h[l].event.Updated?)
            && (h[n].event.def == h[l].event.def ==> !FitsColumns(env, h[l].event))
  {
    hide Landed, Lawful;
    PathKept(env, id, h, n);
    var l := h[n].loaded - 1;
    PathKept(env, id, h, l);
    PathKept(env, id, h, 0);
    StoredFrom(env, id, h, l);
    AtIndex(env, PathKey(id), h, n);
    UpdateLands(env, id, Before(h, h[n].loaded), Before(h, n), h[n].value, h[n].event);
    WholeMicrosExact(h[l].event.def.cycleTime) by { hide WholeMicros; }
  }

  lemma UpdateLands(env: Env, id: string, loaded: Option<Value>, row: Option<Value>, v: Value, e: Event)
    requires Lawful(env, PathKey(id), loaded, row, v, e) && e.Updated?
    ensures AsPath(loaded).Some?
    ensures var p := AsPath(loaded).value; e.def != p.def && e.def.direct == p.def.direct && e.def.role == p.def.role
  {
    hide DefinitionFault;
  }

  // ---- when the store shows what was published ----

  /**
   Change `n` stores what has been published up to it: a creation met no row with other immutable fields,
   and a retirement had loaded the last published definition.
   */
  ghost predicate SaveAgrees(h: seq<Change>, n: nat)
    requires n < |h|
  {
    match h[n].event
    case Created(_, def, _) =>
      AsPath(Before(h, n)).Some? ==> var row := AsPath(Before(h, n)).value.def; (def.direct, def.role) == (row.direct, row.role)
    case Retired(_, _) =>
      && h[n].loaded <= |h| && AsPath(Before(h, h[n].loaded)).Some?
      && (LastPublished(h, n).Created? || LastPublished(h, n).Updated?)
      && AsPath(Before(h, h[n].loaded)).value.def == StoredDef(LastPublished(h, n).def)
    case _ => true
  }

  lemma {:induction false} PublishedDefines(env: Env, id: string, h: seq<Change>, n: nat)
    requires Landed(env, PathKey(id), h) && n < |h|
    ensures Defines(env, LastPublished(h, n))
  {
    hide Landed, Lawful, DefinitionFault;
    PathKept(env, id, h, n);
    if h[n].event.Retired? {
      PublishedDefines(env, id, h, n - 1);
    } else {
      AtIndex(env, PathKey(id), h, n);
      DefinitionLands(env, id, Before(h, h[n].loaded), Before(h, n), h[n].value, h[n].event);
    }
  }

  /** That is exactly when the stored definition is the published one at column precision. */
  lemma SaveAgreesIff(env: Env, id: string, h: seq<Change>, n: nat)
    requires Landed(env, PathKey(id), h) && n < |h|
    ensures Defines(env, LastPublished(h, n)) && h[n].value.PathValue?
    ensures SaveAgrees(h, n) <==> h[n].value.path.def == StoredDef(LastPublished(h, n).def)
  {
    hide Landed, Lawful, DefinitionFault, StoredDef;
    PathKept(env, id, h, n);
    PublishedDefines(env, id, h, n);
    AtIndex(env, PathKey(id), h, n);
    if n > 0 { PathKept(env, id, h, n - 1); }
    if h[n].event.Retired? {
      PathKept(env, id, h, h[n].loaded - 1);
      RetirementLands(env, id, Before(h, h[n].loaded), Before(h, n), h[n].value, h[n].event);
    } else {
      DefinitionLands(env, id, Before(h, h[n].loaded), Before(h, n), h[n].value, h[n].event);
      if h[n].event.Updated? { PathKept(env, id, h, h[n].loaded - 1); }
      KeptImmutables(h[n].event.def);
    }
  }

  lemma KeptImmutables(def: Definition)
    ensures StoredDef(def).direct == def.direct && StoredDef(def).role == def.role
  {}

  /** Decided on what they replace, all saves agree. */
  lemma CurrentSavesAgree(env: Env, id: string, h: seq<Change>, n: nat)
    requires Landed(env, PathKey(id), h) && Current(h) && n < |h|
    ensures SaveAgrees(h, n)
  {
    hide Landed, Lawful, Current;
    PathKept(env, id, h, n);
    if h[n].event.Retired? {
      assert h[n].loaded == n by { IsCurrent(h, n); }
      PathKept(env, id, h, n - 1);
      IsCurrent(h, n - 1);
      CurrentSavesAgree(env, id, h, n - 1);
      SaveAgreesIff(env, id, h, n - 1);
      PublishedDefines(env, id, h, n);
    }
    IsCurrent(h, n);
  }

  lemma IsCurrent(h: seq<Change>, n: nat)
    requires Current(h) && n < |h|
    ensures h[n].loaded == n
  {}
}
