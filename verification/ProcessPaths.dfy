/** The ProcessPath aggregate (internal/domain/processpath). Durations are nanoseconds. */
module ProcessPaths {
  import opened Shared

  datatype Definition = Definition(
    matchPrefix: string, direct: bool, capabilities: seq<string>,
    role: string, cycleTime: int, eligibility: Eligibility)

  datatype Status = Active | Deactivated

  datatype Path = Path(id: string, def: Definition, status: Status, createdAt: int, updatedAt: int)

  datatype PathError =
    | EmptyPathId | EmptyMatchPrefix | MatchPrefixNotLowercase | NoRequiredCapabilities
    | InvalidDestinationRole | InvalidCycleTime | PathDeactivated

  /** The part of a definition that a revision may replace. */
  datatype Revision = Revision(matchPrefix: string, capabilities: seq<string>, cycleTime: int, eligibility: Eligibility)

  function DefinitionFault(env: Env, def: Definition): Option<PathError> {
    if def.matchPrefix == "" then Some(EmptyMatchPrefix)
    else if !env.isLower(def.matchPrefix) then Some(MatchPrefixNotLowercase)
    else if def.capabilities == [] then Some(NoRequiredCapabilities)
    else if !KnownRole(def.role) then Some(InvalidDestinationRole)
    else if def.cycleTime <= 0 then Some(InvalidCycleTime)
    else None
  }

  function Revised(def: Definition, rev: Revision): Definition {
    def.(matchPrefix := rev.matchPrefix, capabilities := rev.capabilities,
         cycleTime := rev.cycleTime, eligibility := rev.eligibility)
  }

  function DefinedPath(env: Env, id: string, def: Definition, now: int): Result<Path, PathError> {
    if id == "" then Err(EmptyPathId)
    else match DefinitionFault(env, def)
      case Some(e) => Err(e)
      case None => Ok(Path(id, def, Active, now, now))
  }

  /** The path after a revision, unchanged when the revision says what is already there. */
  function RevisedPath(env: Env, p: Path, rev: Revision, now: int): Result<Path, PathError> {
    if p.status != Active then Err(PathDeactivated)
    else match DefinitionFault(env, Revised(p.def, rev))
      case Some(e) => Err(e)
      case None =>
        if Revised(p.def, rev) == p.def then Ok(p)
        else Ok(p.(def := Revised(p.def, rev), updatedAt := now))
  }

  function RetiredPath(p: Path, now: int): Path {
    if p.status == Deactivated then p else p.(status := Deactivated, updatedAt := now)
  }

  method CapabilitiesEqual(a: seq<string>, b: seq<string>) returns (same: bool)
    ensures same <==> a == b
  {
    if |a| != |b| { return false; }
    for i := 0 to |a|
      invariant a[..i] == b[..i]
    {
      if a[i] != b[i] { return false; }
    }
    return true;
  }

  class ProcessPath {
    const id: string
    const direct: bool
    const role: string
    const createdAt: int
    var matchPrefix: string
    var capabilities: seq<string>
    var cycleTime: int
    var eligibility: Eligibility
    var status: Status
    var updatedAt: int

    function Value(): Path
      reads this
    {
      Path(id, Definition(matchPrefix, direct, capabilities, role, cycleTime, eligibility),
           status, createdAt, updatedAt)
    }

    constructor Rehydrate(p: Path)
      ensures Value() == p
    {
      id, direct, role, createdAt := p.id, p.def.direct, p.def.role, p.createdAt;
      matchPrefix, capabilities := p.def.matchPrefix, p.def.capabilities;
      cycleTime, eligibility := p.def.cycleTime, p.def.eligibility;
      status, updatedAt := p.status, p.updatedAt;
    }

    static method Define(env: Env, id: string, def: Definition, now: int) returns (r: Result<ProcessPath, PathError>)
      ensures r.Ok? <==>
        && id != "" && def.matchPrefix != "" && env.isLower(def.matchPrefix) && def.capabilities != []
        && (def.role == "" || def.role == "Drop" || def.role == "WorkCenter" || def.role == "Shipping") && def.cycleTime > 0
      ensures r.Ok? ==> fresh(r.value) && r.value.Value() == Path(id, def, Active, now, now)
      ensures r.Err? && id == "" ==> r.error == EmptyPathId
      ensures r.Err? && id != "" ==> match r.error
        case EmptyMatchPrefix => def.matchPrefix == ""
        case MatchPrefixNotLowercase => def.matchPrefix != "" && !env.isLower(def.matchPrefix)
        case NoRequiredCapabilities => def.matchPrefix != "" && env.isLower(def.matchPrefix) && def.capabilities == []
        case InvalidDestinationRole =>
          && def.matchPrefix != "" && env.isLower(def.matchPrefix) && def.capabilities != []
          && def.role != "" && def.role != "Drop" && def.role != "WorkCenter" && def.role != "Shipping"
        case InvalidCycleTime =>
          && def.matchPrefix != "" && env.isLower(def.matchPrefix) && def.capabilities != [] && def.cycleTime <= 0
          && (def.role == "" || def.role == "Drop" || def.role == "WorkCenter" || def.role == "Shipping")
        case _ => false
      ensures r.Err? ==> DefinedPath(env, id, def, now) == Err(r.error)
      ensures r.Ok? ==> DefinedPath(env, id, def, now) == Ok(r.value.Value())
    {
      if id == "" { return Err(EmptyPathId); }
      var e := DefinitionFault(env, def);
      if e.Some? { return Err(e.value); }
      var p := new ProcessPath.Rehydrate(Path(id, def, Active, now, now));
      return Ok(p);
    }

    method Revise(env: Env, rev: Revision, now: int) returns (changed: bool, err: Option<PathError>)
      modifies this
      ensures err.Some? ==> !changed && Value() == old(Value()) && RevisedPath(env, old(Value()), rev, now) == Err(err.value)
      ensures err.None? ==> RevisedPath(env, old(Value()), rev, now) == Ok(Value())
      ensures err.None? <==>
        && old(status) == Active && rev.matchPrefix != "" && env.isLower(rev.matchPrefix) && rev.capabilities != []
        && (role == "" || role == "Drop" || role == "WorkCenter" || role == "Shipping") && rev.cycleTime > 0
      ensures err.None? ==>
        && matchPrefix == rev.matchPrefix && capabilities == rev.capabilities && cycleTime == rev.cycleTime && eligibility == rev.eligibility
        && status == Active && updatedAt == (if changed then now else old(updatedAt))
      ensures err.None? ==>
        (changed <==> old(matchPrefix) != rev.matchPrefix || old(capabilities) != rev.capabilities
                      || old(cycleTime) != rev.cycleTime || old(eligibility) != rev.eligibility)
      ensures err.Some? && old(status) != Active ==> err.value == PathDeactivated
      ensures err.Some? && old(status) == Active ==> match err.value
        case EmptyMatchPrefix => rev.matchPrefix == ""
        case MatchPrefixNotLowercase => rev.matchPrefix != "" && !env.isLower(rev.matchPrefix)
        case NoRequiredCapabilities => rev.matchPrefix != "" && env.isLower(rev.matchPrefix) && rev.capabilities == []
        case InvalidDestinationRole =>
          && rev.matchPrefix != "" && env.isLower(rev.matchPrefix) && rev.capabilities != []
          && role != "" && role != "Drop" && role != "WorkCenter" && role != "Shipping"
        case InvalidCycleTime =>
          && rev.matchPrefix != "" && env.isLower(rev.matchPrefix) && rev.capabilities != [] && rev.cycleTime <= 0
          && (role == "" || role == "Drop" || role == "WorkCenter" || role == "Shipping")
        case _ => false
    {
      if status != Active { return false, Some(PathDeactivated); }
      var e := DefinitionFault(env, Definition(rev.matchPrefix, direct, rev.capabilities, role, rev.cycleTime, rev.eligibility));
      if e.Some? { return false, e; }
      var sameCapabilities := CapabilitiesEqual(capabilities, rev.capabilities);
      if matchPrefix == rev.matchPrefix && sameCapabilities && cycleTime == rev.cycleTime && eligibility == rev.eligibility {
        return false, None;
      }
      matchPrefix, capabilities := rev.matchPrefix, rev.capabilities;
      cycleTime, eligibility := rev.cycleTime, rev.eligibility;
      updatedAt := now;
      return true, None;
    }

    method Deactivate(now: int)
      modifies this
      ensures Value() == RetiredPath(old(Value()), now)
      ensures status == Deactivated && updatedAt == (if old(status) == Active then now else old(updatedAt))
      ensures Value() == old(Value()).(status := status, updatedAt := updatedAt)
    {
      if status == Deactivated { return; }
      status, updatedAt := Deactivated, now;
    }
  }
}
