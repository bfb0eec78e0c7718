/**
 The Energy Saving controller as an interleaving protocol.

 Start-up, activate, re-apply, deactivate and stop requests share one lock, a
 generation counter and one cancellable device pass. Every await of the
 controller ends an atomic step here, and any enabled step may come next, so a
 theorem over legal runs ranges over all schedules, failing calls, failing
 writes, hand edits of automations and crashes.
 */
module EnergyProtocol {

  type Automation = string
  type RequestId = nat

  datatype Kind = Resume | Activate | Reapply | Deactivate | Stop

  /** Where a request is suspended. Every phase but Waiting and Done holds the lock. */
  datatype Phase =
    | Waiting
    | EngineCall                                                          // engine write in the executor
    | LoadOwed                                                            // reading the remembered set to enforce
    | Scanning(todo: seq<Automation>, owed: set<Automation>)              // flag lookup of todo[0]
    | Cleared(a: Automation, rest: seq<Automation>, owed: set<Automation>) // a is unflagged
    | OffCall(a: Automation, rest: seq<Automation>, owed: set<Automation>) // turn_off in flight
    | OffUnsaved(a: Automation, rest: seq<Automation>, owed: set<Automation>)
    | DevicePass
    | LoadPending                                                         // reading the remembered set to restore
    | Restoring(todo: seq<Automation>, pending: set<Automation>)
    | OnCall(a: Automation, rest: seq<Automation>, pending: set<Automation>)
    | OnUnsaved(a: Automation, rest: seq<Automation>, pending: set<Automation>)
    | Done(committed: bool)                                               // did its engine write land

  datatype Request = Request(kind: Kind, generation: nat, phase: Phase)

  /** The device pass: a task of its own, cancelled by a newer deactivate or stop. */
  datatype Pass = NoPass | Pass(generation: nat, cancelled: bool)

  datatype Lock = Free | Held(id: RequestId)

  datatype Event =
    | Asked(id: RequestId, kind: Kind)
    | LevelOn
    | LevelOff
    | PassCommand(req: RequestId)
    | RuleCommand
    | TurnOff(a: Automation, req: RequestId)
    | TurnOffRefused(a: Automation, req: RequestId)
    | TurnOn(a: Automation, req: RequestId)
    | TurnOnRefused(a: Automation, req: RequestId)
    | Crashed

  datatype State = State(
    generation: nat,
    lock: Lock,
    requests: map<RequestId, Request>,
    active: bool,                            // a level is active (live and on disk alike)
    activator: nat,                          // generation of the request that activated it
    pass: Pass,
    on: set<Automation>,                     // automations enabled in Home Assistant
    remembered: set<Automation>,             // the flags table's row, on disk
    flagged: set<Automation>,                // works_during_energy_saving
    owed: set<Automation>,                   // switched off by the hub and not switched on since
    newest: RequestId,                       // the request made last
    log: seq<Event>
  )

  /** How an engine call ends: written, refused or failed with nothing written, or failed in the event log after its write. */
  datatype EngineResult = Written | NotWritten | WrittenThenFailed

  datatype Step =
    | Ask(id: RequestId, kind: Kind)
    | Acquire(id: RequestId)
    | EngineDone(result: EngineResult)       // the executor's engine call returns or raises
    | OwedLoaded(todo: seq<Automation>)
    | FlagRead
    | WantedCheck
    | OffReturns(ok: bool)
    | OffSaved(ok: bool)
    | PassIssues
    | PassEnds
    | PendingLoaded(todo: seq<Automation>)
    | OnIssues
    | OnReturns(ok: bool)
    | OnSaved(ok: bool)
    | RuleIssues                             // a Smart rule outside the lock reaches _command
    | HandEdit(on: set<Automation>, flagged: set<Automation>)
    | Crash(resume: RequestId)

  predicate Critical(p: Phase) { !p.Waiting? && !p.Done? }

  /** The automation pass, or the device pass after it. */
  predicate Enforcing(p: Phase) {
    p.LoadOwed? || p.Scanning? || p.Cleared? || p.OffCall? || p.OffUnsaved? || p.DevicePass?
  }

  /** Switching automations back on. */
  predicate Restores(p: Phase) { p.LoadPending? || p.Restoring? || p.OnCall? || p.OnUnsaved? }

  predicate Activating(k: Kind) { k.Resume? || k.Activate? || k.Reapply? }

  predicate Bumps(k: Kind) { k.Deactivate? || k.Stop? }

  /** A boot with whatever was on disk, before any request. */
  predicate Init(s: State) {
    && s.generation == 0 && s.lock == Free && s.requests == map[] && s.activator == 0
    && s.pass == NoPass && s.owed <= s.remembered && s.log == []
  }

  predicate DistinctSeq(q: seq<Automation>) { forall i, j :: 0 <= i < j < |q| ==> q[i] != q[j] }

  // -- the steps ---------------------------------------------------------------

  function Put(s: State, id: RequestId, p: Phase): State
    requires id in s.requests
  {
    s.(requests := s.requests[id := s.requests[id].(phase := p)])
  }

  function Finish(s: State, id: RequestId, committed: bool): State
    requires id in s.requests
  {
    Put(s, id, Done(committed)).(lock := Free)
  }

  function Note(s: State, e: Event): State { s.(log := s.log + [e]) }

  /** The request made at the event loop: read or bump the generation, cancel a pass. */
  function AskApply(s: State, id: RequestId, kind: Kind): State {
    var generation := if Bumps(kind) then s.generation + 1 else s.generation;
    Note(s.(
      generation := generation,
      requests := s.requests[id := Request(kind, generation, Waiting)],
      pass := if Bumps(kind) && s.pass.Pass? then s.pass.(cancelled := true) else s.pass,
      newest := id), Asked(id, kind))
  }

  /** The lock is granted: a superseded request gives up before touching the engine. */
  function AcquireApply(s: State, id: RequestId): State
    requires id in s.requests
  {
    var r := s.requests[id];
    if Activating(r.kind) && r.generation != s.generation then Put(s, id, Done(false))
    else if r.kind.Stop? then Put(s, id, Done(false))
    else if r.kind.Resume? then
      Put(s, id, if s.active then LoadOwed else LoadPending).(lock := Held(id))
    else Put(s, id, EngineCall).(lock := Held(id))
  }

  /**
   engine.activate, engine.reapply or engine.deactivate returns or raises. After
   a raise the request ends there: no pass, and no restore.
   */
  function EngineApply(s: State, id: RequestId, result: EngineResult): State
    requires id in s.requests
  {
    var r := s.requests[id];
    if result.NotWritten? then Finish(s, id, false)
    else match r.kind
      case Activate =>
        // Refused while any level is active.
        if s.active then Finish(s, id, false)
        else
          var s1 := if result.Written? then Put(s, id, LoadOwed) else Finish(s, id, true);
          Note(s1.(active := true, activator := r.generation), LevelOn)
      case Reapply =>
        if !s.active then Finish(s, id, false) else if result.Written? then Put(s, id, LoadOwed) else Finish(s, id, true)
      case _ =>
        var s1 := if result.Written? then Put(s, id, LoadPending) else Finish(s, id, true);
        Note(s1.(active := false), LevelOff)
  }

  /** A background crash: memory is gone, tables and Home Assistant's states stay. */
  function CrashApply(s: State, resume: RequestId): State {
    s.(generation := 0, lock := Free, pass := NoPass, activator := 0,
       requests := map[resume := Request(Resume, 0, Waiting)],
       newest := resume,
       log := s.log + [Crashed, Asked(resume, Resume)])
  }

  /** What the lock holder may do next. */
  ghost predicate HolderEnabled(s: State, id: RequestId, step: Step)
    requires id in s.requests
  {
    var p := s.requests[id].phase;
    match step
    case EngineDone(_) => p.EngineCall?
    case OwedLoaded(todo) => p.LoadOwed? && DistinctSeq(todo) && (forall a :: a in todo <==> a in s.on - s.remembered)
    case FlagRead => p.Scanning? && p.todo != []
    case WantedCheck => p.Cleared? || (p.Scanning? && p.todo == [])
    case OffReturns(_) => p.OffCall?
    case OffSaved(_) => p.OffUnsaved?
    case PassIssues => p.DevicePass? && s.pass.Pass? && !s.pass.cancelled
    case PassEnds => p.DevicePass?
    case PendingLoaded(todo) => p.LoadPending? && DistinctSeq(todo) && (forall a :: a in todo <==> a in s.remembered)
    case OnIssues => p.Restoring?
    case OnReturns(_) => p.OnCall?
    case OnSaved(_) => p.OnUnsaved?
    case _ => false
  }

  ghost function HolderApply(s: State, id: RequestId, step: Step): State
    requires id in s.requests && HolderEnabled(s, id, step)
  {
    var r := s.requests[id];
    var p := r.phase;
    match step
    case EngineDone(result) => EngineApply(s, id, result)
    case OwedLoaded(todo) => Put(s, id, Scanning(todo, s.remembered))
    case FlagRead =>
      Put(s, id, if p.todo[0] in s.flagged then Scanning(p.todo[1..], p.owed)
                 else Cleared(p.todo[0], p.todo[1..], p.owed))
    case WantedCheck =>
      // still_wanted, and in the same step the call or the start of the pass.
      if r.generation != s.generation then Finish(s, id, true)
      else if p.Cleared? then
        Note(Put(s, id, OffCall(p.a, p.rest, p.owed)), TurnOff(p.a, id))
      else Put(s, id, DevicePass).(pass := Pass(r.generation, false))
    case OffReturns(ok) =>
      if !ok then Note(Put(s, id, Scanning(p.rest, p.owed)), TurnOffRefused(p.a, id))
      else Put(s, id, OffUnsaved(p.a, p.rest, p.owed)).(on := s.on - {p.a}, owed := s.owed + {p.a})
    case OffSaved(ok) =>
      if !ok then Finish(s, id, true)
      else Put(s, id, Scanning(p.rest, p.owed + {p.a})).(remembered := p.owed + {p.a})
    case PassIssues => if s.active then Note(s, PassCommand(id)) else s
    case PassEnds => Finish(s, id, true).(pass := NoPass)
    case PendingLoaded(todo) => Put(s, id, Restoring(todo, s.remembered))
    case OnIssues =>
      if p.todo == [] then Finish(s, id, true)
      else Note(Put(s, id, OnCall(p.todo[0], p.todo[1..], p.pending)), TurnOn(p.todo[0], id))
    case OnReturns(ok) =>
      if !ok then Note(Put(s, id, Restoring(p.rest, p.pending)), TurnOnRefused(p.a, id))
      else Put(s, id, OnUnsaved(p.a, p.rest, p.pending)).(on := s.on + {p.a}, owed := s.owed - {p.a})
    case OnSaved(ok) =>
      if !ok then Finish(s, id, true)
      else Put(s, id, Restoring(p.rest, p.pending - {p.a})).(remembered := p.pending - {p.a})
  }

  predicate HolderStep(step: Step) {
    !(step.Ask? || step.Acquire? || step.RuleIssues? || step.HandEdit? || step.Crash?)
  }

  ghost predicate Enabled(s: State, step: Step) {
    match step
    case Ask(id, kind) => id !in s.requests && !kind.Resume?
    case Acquire(id) => s.lock == Free && id in s.requests && s.requests[id].phase.Waiting?
    case RuleIssues => true
    case HandEdit(_, _) => true
    case Crash(_) => true
    case _ => s.lock.Held? && s.lock.id in s.requests && HolderEnabled(s, s.lock.id, step)
  }

  ghost function Apply(s: State, step: Step): State
    requires Enabled(s, step)
  {
    match step
    case Ask(id, kind) => AskApply(s, id, kind)
    case Acquire(id) => AcquireApply(s, id)
    // The choke point: with no level active a rule part-way through sends nothing.
    case RuleIssues => if s.active then Note(s, RuleCommand) else s
    case HandEdit(on, flagged) => s.(on := on, flagged := flagged)
    case Crash(resume) => CrashApply(s, resume)
    case _ => HolderApply(s, s.lock.id, step)
  }

  /** Each step is enabled in its turn. */
  ghost predicate Legal(s: State, steps: seq<Step>)
    decreases |steps|
  {
    steps == [] || (Enabled(s, steps[0]) && Legal(Apply(s, steps[0]), steps[1..]))
  }

  ghost function After(s: State, steps: seq<Step>): State
    requires Legal(s, steps)
    decreases |steps|
  {
    if steps == [] then s else After(Apply(s, steps[0]), steps[1..])
  }
}
