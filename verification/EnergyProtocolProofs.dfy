/**
 What every run of the Energy Saving controller keeps: the newest request wins,
 a level that is off stays silent, and switched-off automations stay owed.
 */
module EnergyProtocolProofs {
  import opened EnergyProtocol

  // -- what the history says -----------------------------------------------------

  /** Replay: was a level active after this history? */
  function ActiveAfter(boot: bool, log: seq<Event>): bool {
    if log == [] then boot
    else match log[|log| - 1]
      case LevelOn => true
      case LevelOff => false
      case _ => ActiveAfter(boot, log[..|log| - 1])
  }

  /** Replay: was this request made after the last deactivate or stop, by the hub still up? */
  predicate Wanted(log: seq<Event>, id: RequestId) {
    log != []
    && match log[|log| - 1]
       case Asked(other, kind) => !Bumps(kind) && (other == id || Wanted(log[..|log| - 1], id))
       case Crashed => false
       case _ => Wanted(log[..|log| - 1], id)
  }

  /** Replay: the id of the request made last. */
  function NewestAfter(log: seq<Event>, none: RequestId): RequestId {
    if log == [] then none
    else match log[|log| - 1]
      case Asked(id, _) => id
      case _ => NewestAfter(log[..|log| - 1], none)
  }

  /** A command to a device, or switching an automation off. */
  predicate Acts(e: Event) { e.PassCommand? || e.RuleCommand? || e.TurnOff? }

  /**
   e was issued while a level was active and, from a pass, by a request still
   wanted; an automation is switched back on only while none is.
   */
  predicate Allowed(boot: bool, before: seq<Event>, e: Event) {
    && (Acts(e) ==> ActiveAfter(boot, before))
    && (e.TurnOn? ==> !ActiveAfter(boot, before))
    && (e.PassCommand? || e.TurnOff? ==> Wanted(before, e.req))
  }

  ghost predicate AllAllowed(boot: bool, log: seq<Event>) {
    forall i :: 0 <= i < |log| ==> Allowed(boot, log[..i], log[i])
  }

  // -- the invariant ------------------------------------------------------------

  /** The request holding the lock is the only one past it, in a phase of its kind. */
  ghost predicate LockInv(s: State) {
    && (forall id :: id in s.requests && Critical(s.requests[id].phase) ==> s.lock == Held(id))
    && (s.lock.Held? ==> s.lock.id in s.requests && Critical(s.requests[s.lock.id].phase))
  }

  ghost predicate KindsInv(s: State) {
    forall id :: id in s.requests ==> KindInv(s, s.requests[id])
  }

  predicate KindInv(s: State, r: Request) {
    && r.generation <= s.generation
    && (Enforcing(r.phase) ==> Activating(r.kind) && s.active)
    && (Restores(r.phase) ==> !Activating(r.kind) || r.kind.Resume?)
    && (Restores(r.phase) ==> !s.active)
    && (r.phase.EngineCall? ==> !r.kind.Resume? && !r.kind.Stop?)
    && (Critical(r.phase) ==> !r.kind.Stop?)
    && (r.phase.DevicePass? ==> s.pass.Pass? && s.pass.generation == r.generation)
    && (r.phase.DevicePass? ==> (s.pass.cancelled <==> r.generation != s.generation))
  }

  ghost predicate PassInv(s: State) {
    s.pass.Pass? ==> s.lock.Held? && s.lock.id in s.requests && s.requests[s.lock.id].phase.DevicePass?
  }

  /** A deactivate whose engine write landed. */
  predicate Landed(r: Request) {
    r.kind.Deactivate? && ((Critical(r.phase) && !r.phase.EngineCall?) || r.phase == Done(true))
  }

  /** Requests older than a landed deactivate can no longer get past the lock. */
  ghost predicate GenerationInv(s: State) {
    && (s.active ==> s.activator <= s.generation)
    && (forall d, id :: d in s.requests && Landed(s.requests[d]) && id in s.requests
          && Activating(s.requests[id].kind) && s.requests[id].generation < s.requests[d].generation
          ==> !Critical(s.requests[id].phase))
    && (forall d :: d in s.requests && Landed(s.requests[d]) && s.active
          ==> s.activator >= s.requests[d].generation)
    && (s.newest in s.requests && s.requests[s.newest].kind.Deactivate? ==>
          && (s.active ==> s.activator < s.requests[s.newest].generation)
          && (forall id :: id in s.requests && Activating(s.requests[id].kind)
                ==> s.requests[id].generation < s.requests[s.newest].generation))
  }

  ghost predicate LogInv(boot: bool, s: State) {
    && s.active == ActiveAfter(boot, s.log)
    && s.newest == NewestAfter(s.log, s.newest)
    && AllAllowed(boot, s.log)
  }

  /** An unsuperseded request was made after the last deactivate or stop. */
  ghost predicate WantedInv(s: State) {
    forall id :: id in s.requests && Activating(s.requests[id].kind) && s.requests[id].generation == s.generation
      ==> Wanted(s.log, id)
  }

  /** The log's extension changes no request's standing. */
  ghost predicate SameWanted(log: seq<Event>, more: seq<Event>) { forall id :: Wanted(more, id) <==> Wanted(log, id) }

  ghost predicate Inv(boot: bool, s: State) {
    LockInv(s) && KindsInv(s) && PassInv(s) && GenerationInv(s) && LogInv(boot, s) && WantedInv(s)
  }

  lemma AppendAllowed(boot: bool, log: seq<Event>, e: Event)
    requires AllAllowed(boot, log) && Allowed(boot, log, e)
    ensures AllAllowed(boot, log + [e])
    ensures ActiveAfter(boot, log + [e]) == (if e.LevelOn? then true else if e.LevelOff? then false else ActiveAfter(boot, log))
    ensures forall id :: Wanted(log + [e], id) == (if e.Asked? then !Bumps(e.kind) && (e.id == id || Wanted(log, id)) else !e.Crashed? && Wanted(log, id))
    ensures forall none :: NewestAfter(log + [e], none) == (if e.Asked? then e.id else NewestAfter(log, none))
  {
    var all := log + [e];
    assert all[..|all| - 1] == log;
    forall i | 0 <= i < |all| ensures Allowed(boot, all[..i], all[i]) {
      if i < |log| { assert all[..i] == log[..i]; } else { assert all[..i] == log; }
    }
  }

  lemma AskKeeps(boot: bool, s: State, id: RequestId, kind: Kind)
    requires Inv(boot, s) && Enabled(s, Ask(id, kind))
    ensures Inv(boot, AskApply(s, id, kind))
  {
    var s' := AskApply(s, id, kind);
    AppendAllowed(boot, s.log, Asked(id, kind));
    assert LogInv(boot, s') && WantedInv(s') by { hide AllAllowed, Landed, LockInv, PassInv, GenerationInv; }
    assert KindsInv(s') && LockInv(s') && PassInv(s') by {
      hide GenerationInv, LogInv, WantedInv;
      forall o | o in s'.requests ensures KindInv(s', s'.requests[o]) {
        if o != id { assert KindInv(s, s.requests[o]); }
      }
    }
    AskKeepsGenerations(s, id, kind);
  }

  lemma AskKeepsGenerations(s: State, id: RequestId, kind: Kind)
    requires KindsInv(s) && GenerationInv(s) && id !in s.requests
    ensures GenerationInv(AskApply(s, id, kind))
  {
    var s' := AskApply(s, id, kind);
    assert !Landed(s'.requests[id]) && !Critical(s'.requests[id].phase);
    forall o | o in s.requests ensures s'.requests[o] == s.requests[o] && s.requests[o].generation <= s.generation {
      assert KindInv(s, s.requests[o]);
    }
    hide KindInv, KindsInv, Landed;
  }

  /** s' is s with the lock holder moved to another phase. */
  ghost predicate Moved(s: State, s': State, id: RequestId) {
    && s.lock == Held(id) && id in s.requests && id in s'.requests
    && s'.requests == s.requests[id := s.requests[id].(phase := s'.requests[id].phase)]
    && s'.generation == s.generation && s'.newest == s.newest
    && s'.lock == (if Critical(s'.requests[id].phase) then Held(id) else Free)
  }

  lemma MovedKeeps(s: State, s': State, id: RequestId)
    requires LockInv(s) && KindsInv(s) && Moved(s, s', id)
    requires KindInv(s', s'.requests[id])
    requires s'.pass.Pass? ==> s'.requests[id].phase.DevicePass?
    requires WantedInv(s) && SameWanted(s.log, s'.log)
    ensures LockInv(s') && KindsInv(s') && PassInv(s') && WantedInv(s')
  {
    forall o | o in s'.requests && Activating(s'.requests[o].kind) && s'.requests[o].generation == s'.generation
      ensures Wanted(s'.log, o)
    {
      assert s.requests[o].generation == s.generation;
    }
    forall o | o in s'.requests ensures KindInv(s', s'.requests[o]) {
      if o != id {
        assert s'.requests[o] == s.requests[o] && KindInv(s, s.requests[o]);
        assert !Critical(s.requests[o].phase);
      }
    }
  }

  /** Moving within its kind's landed or unlanded phases leaves the generations in order. */
  lemma MovedKeepsGenerations(s: State, s': State, id: RequestId)
    requires LockInv(s) && GenerationInv(s) && Moved(s, s', id)
    requires Landed(s'.requests[id]) ==> Landed(s.requests[id]) || !s'.active
    requires s'.active ==> s.active && s'.activator == s.activator
    requires Critical(s.requests[id].phase)
    ensures GenerationInv(s')
  {
    forall d, o | d in s'.requests && Landed(s'.requests[d]) && o in s'.requests
        && Activating(s'.requests[o].kind) && s'.requests[o].generation < s'.requests[d].generation
      ensures !Critical(s'.requests[o].phase)
    {
      if o != id { assert s'.requests[o] == s.requests[o]; }
    }
    forall d | d in s'.requests && Landed(s'.requests[d]) && s'.active
      ensures s'.activator >= s'.requests[d].generation
    {
      assert Landed(s.requests[d]);
    }
  }

  /** A waiting request becomes a finished one that never reached the engine. */
  lemma RefusalKeeps(boot: bool, s: State, id: RequestId)
    requires Inv(boot, s) && s.lock == Free && id in s.requests && s.requests[id].phase.Waiting?
    ensures Inv(boot, Put(s, id, Done(false)))
  {
    var s' := Put(s, id, Done(false));
    forall o | o in s'.requests ensures KindInv(s', s'.requests[o]) {
      assert KindInv(s, s.requests[o]);
    }
    forall d | d in s'.requests && Landed(s'.requests[d]) ensures s'.requests[d] == s.requests[d] {}
  }

  /** An unsuperseded request, or a deactivate, enters the lock. */
  lemma GrantKeeps(boot: bool, s: State, id: RequestId, p: Phase)
    requires Inv(boot, s) && s.lock == Free && id in s.requests && s.requests[id].phase.Waiting?
    requires p.EngineCall? || p.LoadOwed? || p.LoadPending?
    requires p.EngineCall? ==> !s.requests[id].kind.Resume?
    requires p.LoadOwed? ==> s.requests[id].kind.Resume? && s.active
    requires p.LoadPending? ==> s.requests[id].kind.Resume? && !s.active
    requires !s.requests[id].kind.Stop?
    requires Activating(s.requests[id].kind) ==> s.requests[id].generation == s.generation
    ensures Inv(boot, Put(s, id, p).(lock := Held(id)))
  {
    var s' := Put(s, id, p).(lock := Held(id));
    assert LogInv(boot, s') && WantedInv(s') by { hide KindsInv, LockInv, GenerationInv, AllAllowed; }
    assert KindsInv(s') && LockInv(s') && PassInv(s') by {
      hide GenerationInv, LogInv, WantedInv;
      forall o | o in s'.requests ensures KindInv(s', s'.requests[o]) { assert KindInv(s, s.requests[o]); }
    }
    GrantKeepsGenerations(s, s', id);
  }

  lemma GrantKeepsGenerations(s: State, s': State, id: RequestId)
    requires GenerationInv(s) && KindsInv(s) && id in s.requests && s'.requests.Keys == s.requests.Keys
    requires forall o :: o in s.requests && o != id ==> s'.requests[o] == s.requests[o]
    requires s'.generation == s.generation && s'.active == s.active && s'.activator == s.activator && s'.newest == s.newest
    requires s'.requests[id].kind == s.requests[id].kind && s'.requests[id].generation == s.requests[id].generation
    requires Activating(s.requests[id].kind) ==> s.requests[id].generation == s.generation
    requires !Landed(s'.requests[id])
    ensures GenerationInv(s')
  {
    forall d | d in s'.requests && Landed(s'.requests[d])
      ensures s'.requests[d] == s.requests[d] && s.requests[d].generation <= s.generation
    {
      assert KindInv(s, s.requests[d]);
    }
  }

  lemma AcquireKeeps(boot: bool, s: State, id: RequestId)
    requires Inv(boot, s) && Enabled(s, Acquire(id))
    ensures Inv(boot, AcquireApply(s, id))
  {
    var r := s.requests[id];
    if (Activating(r.kind) && r.generation != s.generation) || r.kind.Stop? {
      RefusalKeeps(boot, s, id);
    } else {
      GrantKeeps(boot, s, id, if !r.kind.Resume? then EngineCall else if s.active then LoadOwed else LoadPending);
    }
  }

  /** The activation commits: every landed deactivate is at most as new as the activator. */
  lemma ActivationKeeps(boot: bool, s: State, id: RequestId, result: EngineResult)
    requires Inv(boot, s) && s.lock == Held(id) && id in s.requests && !s.active
    requires s.requests[id].phase.EngineCall? && s.requests[id].kind.Activate?
    requires !result.NotWritten?
    ensures Inv(boot, EngineApply(s, id, result))
  {
    var s' := EngineApply(s, id, result);
    ActivationKeepsGenerations(s, id, result);
    assert KindInv(s, s.requests[id]) && KindInv(s', s'.requests[id]);
    assert s'.log == s.log + [LevelOn] && Moved(s, s', id);
    hide AllAllowed, Wanted, NewestAfter, ActiveAfter, GenerationInv, EngineApply, KindInv;
    AppendAllowed(boot, s.log, LevelOn);
    MovedKeeps(s, s', id);
  }

  lemma ActivationKeepsGenerations(s: State, id: RequestId, result: EngineResult)
    requires KindsInv(s) && LockInv(s) && GenerationInv(s) && s.lock == Held(id) && id in s.requests && !s.active
    requires s.requests[id].phase.EngineCall? && s.requests[id].kind.Activate?
    requires !result.NotWritten?
    ensures GenerationInv(EngineApply(s, id, result))
  {
    var s' := EngineApply(s, id, result);
    assert KindInv(s, s.requests[id]);
    hide KindsInv, KindInv;
    forall d | d in s'.requests && Landed(s'.requests[d])
      ensures s'.requests[d] == s.requests[d] && s'.activator >= s'.requests[d].generation
    {
      assert d != id;
    }
  }

  /** A move that leaves the level and the history alone. */
  lemma QuietMoveKeeps(boot: bool, s: State, s': State, id: RequestId)
    requires Inv(boot, s) && Moved(s, s', id) && Critical(s.requests[id].phase)
    requires LogInv(boot, s') && SameWanted(s.log, s'.log)
    requires s'.active ==> s.active && s'.activator == s.activator
    requires KindInv(s', s'.requests[id])
    requires s'.pass.Pass? ==> s'.requests[id].phase.DevicePass?
    requires Landed(s'.requests[id]) ==> Landed(s.requests[id]) || !s'.active
    ensures Inv(boot, s')
  {
    MovedKeeps(s, s', id);
    MovedKeepsGenerations(s, s', id);
  }

  lemma DeactivationKeeps(boot: bool, s: State, id: RequestId, result: EngineResult)
    requires Inv(boot, s) && s.lock == Held(id) && id in s.requests
    requires s.requests[id].phase.EngineCall? && s.requests[id].kind.Deactivate?
    requires !result.NotWritten?
    ensures Inv(boot, EngineApply(s, id, result))
  {
    hide AllAllowed, ActiveAfter, Wanted, NewestAfter;
    AppendAllowed(boot, s.log, LevelOff);
    assert KindInv(s, s.requests[id]);
    var s' := EngineApply(s, id, result);
    assert LogInv(boot, s') && Moved(s, s', id);
    assert KindInv(s', s'.requests[id]);
    hide EngineApply, LogInv, Inv;
    assert Inv(boot, s);
    QuietMoveKeeps(boot, s, s', id);
  }

  lemma EngineKeeps(boot: bool, s: State, id: RequestId, result: EngineResult)
    requires Inv(boot, s) && s.lock == Held(id) && id in s.requests && s.requests[id].phase.EngineCall?
    ensures Inv(boot, EngineApply(s, id, result))
  {
    assert KindInv(s, s.requests[id]);
    if !result.NotWritten? && s.requests[id].kind.Activate? && !s.active {
      ActivationKeeps(boot, s, id, result);
    } else if !result.NotWritten? && s.requests[id].kind.Deactivate? {
      DeactivationKeeps(boot, s, id, result);
    } else if result.Written? && s.requests[id].kind.Reapply? && s.active {
      QuietMoveKeeps(boot, s, Put(s, id, LoadOwed), id);
    } else {
      QuietMoveKeeps(boot, s, Finish(s, id, !result.NotWritten? && s.requests[id].kind.Reapply? && s.active), id);
    }
  }

  /** Every other step of the holder is a move that leaves the level alone. */
  lemma HolderMoves(s: State, id: RequestId, step: Step)
    requires LockInv(s) && s.lock == Held(id) && id in s.requests && HolderStep(step) && HolderEnabled(s, id, step)
    requires !step.EngineDone?
    ensures var s' := HolderApply(s, id, step);
      Moved(s, s', id) && s'.active == s.active && s'.activator == s.activator
  {}

  lemma HolderKeepsKind(s: State, id: RequestId, step: Step)
    requires s.lock == Held(id) && id in s.requests && HolderStep(step) && HolderEnabled(s, id, step)
    requires PassInv(s) && KindInv(s, s.requests[id]) && !step.EngineDone?
    ensures var s' := HolderApply(s, id, step);
      && id in s'.requests && KindInv(s', s'.requests[id])
      && (s'.pass.Pass? ==> s'.requests[id].phase.DevicePass?)
      && (Landed(s'.requests[id]) ==> Landed(s.requests[id]))
  {}

  lemma HolderKeeps(boot: bool, s: State, id: RequestId, step: Step)
    requires Inv(boot, s) && s.lock == Held(id) && id in s.requests && HolderStep(step) && HolderEnabled(s, id, step)
    ensures Inv(boot, HolderApply(s, id, step))
  {
    hide LogInv, GenerationInv, WantedInv, AllAllowed, ActiveAfter, Wanted, NewestAfter;
    if step.EngineDone? {
      EngineKeeps(boot, s, id, step.result);
    } else {
      HolderMoves(s, id, step);
      assert KindInv(s, s.requests[id]);
      HolderKeepsKind(s, id, step);
      HolderLogKeeps(boot, s, id, step);
      QuietMoveKeeps(boot, s, HolderApply(s, id, step), id);
    }
  }

  lemma HolderLogKeeps(boot: bool, s: State, id: RequestId, step: Step)
    requires Inv(boot, s) && s.lock == Held(id) && id in s.requests && HolderStep(step) && HolderEnabled(s, id, step)
    requires !step.EngineDone?
    ensures LogInv(boot, HolderApply(s, id, step))
    ensures SameWanted(s.log, HolderApply(s, id, step).log)
  {
    hide AllAllowed, ActiveAfter, Wanted, NewestAfter, LockInv, PassInv, GenerationInv;
    var p := s.requests[id].phase;
    assert KindInv(s, s.requests[id]);
    if step.WantedCheck? && p.Cleared? && s.requests[id].generation == s.generation {
      AppendAllowed(boot, s.log, TurnOff(p.a, id));
    } else if step.PassIssues? {
      AppendAllowed(boot, s.log, PassCommand(id));
    } else if step.OnIssues? && p.todo != [] {
      AppendAllowed(boot, s.log, TurnOn(p.todo[0], id));
    } else if step == OffReturns(false) {
      AppendAllowed(boot, s.log, TurnOffRefused(p.a, id));
    } else if step == OnReturns(false) {
      AppendAllowed(boot, s.log, TurnOnRefused(p.a, id));
    }
  }

  lemma CrashKeeps(boot: bool, s: State, resume: RequestId)
    requires Inv(boot, s)
    ensures Inv(boot, CrashApply(s, resume))
  {
    CrashLog(boot, s.log, resume);
    var s' := CrashApply(s, resume);
    hide AllAllowed, ActiveAfter, Wanted, NewestAfter;
    assert s'.log == s.log + [Crashed, Asked(resume, Resume)];
  }

  lemma CrashLog(boot: bool, log: seq<Event>, resume: RequestId)
    requires AllAllowed(boot, log)
    ensures var l := log + [Crashed, Asked(resume, Resume)];
      AllAllowed(boot, l) && ActiveAfter(boot, l) == ActiveAfter(boot, log) && Wanted(l, resume)
      && forall none :: NewestAfter(l, none) == resume
  {
    AppendAllowed(boot, log, Crashed);
    AppendAllowed(boot, log + [Crashed], Asked(resume, Resume));
    assert log + [Crashed, Asked(resume, Resume)] == (log + [Crashed]) + [Asked(resume, Resume)];
  }

  lemma StepKeeps(boot: bool, s: State, step: Step)
    requires Inv(boot, s) && Enabled(s, step)
    ensures Inv(boot, Apply(s, step))
  {
    hide Inv, HolderEnabled, HolderApply, AskApply, AcquireApply, CrashApply;
    match step
    case Ask(id, kind) => AskKeeps(boot, s, id, kind);
    case Acquire(id) => AcquireKeeps(boot, s, id);
    case RuleIssues => RuleKeeps(boot, s);
    case HandEdit(on, flagged) => HandEditKeeps(boot, s, on, flagged);
    case Crash(resume) => CrashKeeps(boot, s, resume);
    case _ => HolderKeeps(boot, s, s.lock.id, step);
  }

  lemma RuleKeeps(boot: bool, s: State)
    requires Inv(boot, s)
    ensures Inv(boot, if s.active then Note(s, RuleCommand) else s)
  {
    if s.active {
      AppendAllowed(boot, s.log, RuleCommand);
      var s' := Note(s, RuleCommand);
      forall o | o in s'.requests ensures KindInv(s', s'.requests[o]) { assert KindInv(s, s.requests[o]); }
    }
  }

  lemma HandEditKeeps(boot: bool, s: State, on: set<Automation>, flagged: set<Automation>)
    requires Inv(boot, s)
    ensures Inv(boot, s.(on := on, flagged := flagged))
  {
    var s' := s.(on := on, flagged := flagged);
    forall o | o in s'.requests ensures KindInv(s', s'.requests[o]) { assert KindInv(s, s.requests[o]); }
  }

  lemma {:induction false} RunKeeps(boot: bool, s: State, steps: seq<Step>)
    requires Inv(boot, s) && Legal(s, steps)
    ensures Inv(boot, After(s, steps))
    decreases |steps|
  {
    if steps != [] {
      StepKeeps(boot, s, steps[0]);
      RunKeeps(boot, Apply(s, steps[0]), steps[1..]);
    }
  }

  // -- main results ---------------------------------------------------------------

  /** In every run, nothing is commanded or switched off while no level is active. */
  lemma SilentWhileOff(s0: State, steps: seq<Step>, i: nat)
    requires Init(s0) && Legal(s0, steps) && i < |After(s0, steps).log|
    requires Acts(After(s0, steps).log[i])
    ensures ActiveAfter(s0.active, After(s0, steps).log[..i])
  {
    RunKeeps(s0.active, s0, steps);
    assert Allowed(s0.active, After(s0, steps).log[..i], After(s0, steps).log[i]);
  }

  /** And no automation is switched back on while one is. */
  lemma RestoresOnlyWhileOff(s0: State, steps: seq<Step>, i: nat)
    requires Init(s0) && Legal(s0, steps) && i < |After(s0, steps).log|
    requires After(s0, steps).log[i].TurnOn?
    ensures !ActiveAfter(s0.active, After(s0, steps).log[..i])
  {
    RunKeeps(s0.active, s0, steps);
    assert Allowed(s0.active, After(s0, steps).log[..i], After(s0, steps).log[i]);
  }

  /**
   Every automation a pass switches off and every command a device pass sends
   is some request's that asked for a level, with no deactivate or stop asked
   for since, before it even had the lock, and the hub up all along.
   */
  lemma SilentOnceUnwanted(s0: State, steps: seq<Step>, j: nat)
    requires Init(s0) && Legal(s0, steps) && j < |After(s0, steps).log|
    requires var e := After(s0, steps).log[j]; e.TurnOff? || e.PassCommand?
    ensures var log := After(s0, steps).log;
      exists k :: 0 <= k < j && AskedFor(log[k], log[j].req) && forall i :: k < i < j ==> !Supersedes(log[i])
  {
    RunKeeps(s0.active, s0, steps);
    var log := After(s0, steps).log;
    assert Allowed(s0.active, log[..j], log[j]);
    WantedHasWitness(log, log[j].req, j);
  }

  /** A device pass nothing has superseded can send its commands, one after another. */
  lemma WantedPassSends(s0: State, steps: seq<Step>, id: RequestId)
    requires Init(s0) && Legal(s0, steps)
    requires var s := After(s0, steps);
      s.lock == Held(id) && id in s.requests && s.requests[id].phase.DevicePass? && s.requests[id].generation == s.generation
    ensures var s := After(s0, steps);
      Enabled(s, PassIssues) && Apply(s, PassIssues) == Note(s, PassCommand(id))
  {
    RunKeeps(s0.active, s0, steps);
    var s := After(s0, steps);
    assert KindInv(s, s.requests[id]);
  }

  predicate AskedFor(e: Event, id: RequestId) { e.Asked? && e.id == id && Activating(e.kind) }

  predicate Supersedes(e: Event) { e.Crashed? || (e.Asked? && Bumps(e.kind)) }

  lemma {:induction false} WantedHasWitness(log: seq<Event>, id: RequestId, j: nat)
    requires j <= |log| && Wanted(log[..j], id)
    ensures exists k :: 0 <= k < j && AskedFor(log[k], id) && forall i :: k < i < j ==> !Supersedes(log[i])
    decreases j
  {
    assert log[..j][j - 1] == log[j - 1];
    assert log[..j][..j - 1] == log[..j - 1];
    if !AskedFor(log[j - 1], id) {
      WantedHasWitness(log, id, j - 1);
    }
  }

  /** The newest request wins: once it is a deactivate whose write landed, no level is active. */
  lemma NewestDeactivateWins(s0: State, steps: seq<Step>, id: RequestId)
    requires Init(s0) && Legal(s0, steps)
    requires var s := After(s0, steps);
      && id in s.requests && NewestAfter(s.log, id) == id && s.requests[id].kind.Deactivate?
      && (exists i :: 0 <= i < |s.log| && s.log[i].Asked?)
      && s.requests[id].phase == Done(true)
    ensures !After(s0, steps).active
  {
    RunKeeps(s0.active, s0, steps);
    var s := After(s0, steps);
    NewestIgnoresDefault(s.log, s.newest, id);
    assert Landed(s.requests[id]);
  }

  lemma {:induction false} NewestIgnoresDefault(log: seq<Event>, x: RequestId, y: RequestId)
    requires exists i :: 0 <= i < |log| && log[i].Asked?
    ensures NewestAfter(log, x) == NewestAfter(log, y)
  {
    var init := log[..|log| - 1];
    if !log[|log| - 1].Asked? {
      var i :| 0 <= i < |log| && log[i].Asked?;
      assert init[i] == log[i];
      NewestIgnoresDefault(init, x, y);
    }
  }

  // -- automations stay owed ---------------------------------------------------------

  /** Switched off by the call in flight and not yet in the remembered row. */
  function Unsaved(s: State): set<Automation> {
    if s.lock.Held? && s.lock.id in s.requests && s.requests[s.lock.id].phase.OffUnsaved?
    then {s.requests[s.lock.id].phase.a} else {}
  }

  /** Owed a switch-on that nothing on disk or in flight records. */
  function Lost(s: State): set<Automation> { s.owed - s.remembered - Unsaved(s) }

  /** The step drops the one automation whose save it interrupts. */
  predicate Loses(s: State, step: Step) {
    Unsaved(s) != {} && (step.Crash? || step == OffSaved(false))
  }

  ghost function Losses(s: State, steps: seq<Step>): nat
    requires Legal(s, steps)
    decreases |steps|
  {
    if steps == [] then 0
    else (if Loses(s, steps[0]) then 1 else 0) + Losses(Apply(s, steps[0]), steps[1..])
  }

  predicate Off(a: Automation, rest: seq<Automation>, set_: set<Automation>) {
    a !in set_ && a !in rest && (forall b :: b in rest ==> b !in set_) && DistinctSeq(rest)
  }

  /** The loop's own set is the row on disk, and its to-do list never repeats it. */
  predicate SetsInv(s: State) {
    s.lock.Held? && s.lock.id in s.requests ==>
      match s.requests[s.lock.id].phase
      case Scanning(todo, owed) => owed == s.remembered && DistinctSeq(todo) && (forall b :: b in todo ==> b !in owed)
      case Cleared(a, rest, owed) => owed == s.remembered && Off(a, rest, owed)
      case OffCall(a, rest, owed) => owed == s.remembered && Off(a, rest, owed)
      case OffUnsaved(a, rest, owed) => owed == s.remembered && Off(a, rest, owed) && a in s.owed
      case Restoring(todo, pending) => pending == s.remembered
      case OnCall(a, rest, pending) => pending == s.remembered
      case OnUnsaved(a, rest, pending) => pending == s.remembered && a !in s.owed
      case _ => true
  }

  ghost predicate LosesExactly(s: State, s': State, step: Step) {
    && SetsInv(s')
    && Lost(s') <= Lost(s) + (if Loses(s, step) then Unsaved(s) else {})
    && (Loses(s, step) ==> Unsaved(s) <= Lost(s'))
  }

  lemma FlagReadLoses(s: State, id: RequestId)
    requires SetsInv(s) && s.lock == Held(id) && id in s.requests && HolderEnabled(s, id, FlagRead)
    ensures LosesExactly(s, HolderApply(s, id, FlagRead), FlagRead)
  {
    var todo := s.requests[id].phase.todo;
    assert forall b :: b in todo[1..] ==> b in todo;
    forall i | 0 <= i < |todo[1..]| ensures todo[1..][i] != todo[0] {
      assert todo[1..][i] == todo[i + 1];
    }
  }

  lemma OffLoses(s: State, id: RequestId, step: Step)
    requires SetsInv(s) && s.lock == Held(id) && id in s.requests && HolderEnabled(s, id, step)
    requires step.OffReturns? || step.OffSaved?
    ensures LosesExactly(s, HolderApply(s, id, step), step)
  {}

  lemma OnLoses(s: State, id: RequestId, step: Step)
    requires SetsInv(s) && s.lock == Held(id) && id in s.requests && HolderEnabled(s, id, step)
    requires step.OnReturns? || step.OnSaved? || step.OnIssues?
    ensures LosesExactly(s, HolderApply(s, id, step), step)
  {}

  lemma OtherLoses(s: State, id: RequestId, step: Step)
    requires SetsInv(s) && s.lock == Held(id) && id in s.requests && HolderStep(step) && HolderEnabled(s, id, step)
    requires step.EngineDone? || step.OwedLoaded? || step.WantedCheck? || step.PassIssues? || step.PassEnds? || step.PendingLoaded?
    ensures LosesExactly(s, HolderApply(s, id, step), step)
  {
    var s' := HolderApply(s, id, step);
    assert s'.owed == s.owed && s'.remembered == s.remembered;
    assert Unsaved(s') == {} == Unsaved(s);
  }

  lemma FreeStepLoses(s: State, step: Step)
    requires SetsInv(s) && Enabled(s, step) && !HolderStep(step)
    ensures LosesExactly(s, Apply(s, step), step)
  {}

  /** A step loses an automation exactly when it cuts the save after a turn_off short. */
  lemma {:induction false} StepLosesExactly(s: State, step: Step)
    requires SetsInv(s) && Enabled(s, step)
    ensures SetsInv(Apply(s, step))
    ensures Lost(Apply(s, step)) <= Lost(s) + (if Loses(s, step) then Unsaved(s) else {})
    ensures Loses(s, step) ==> Unsaved(s) <= Lost(Apply(s, step))
    ensures |Unsaved(s)| <= 1
  {
    if !HolderStep(step) {
      FreeStepLoses(s, step);
      return;
    }
    hide SetsInv, HolderEnabled, HolderApply, Lost;
    var id := s.lock.id;
    if step.FlagRead? {
      FlagReadLoses(s, id);
    } else if step.OffReturns? || step.OffSaved? {
      OffLoses(s, id, step);
    } else if step.OnReturns? || step.OnSaved? || step.OnIssues? {
      OnLoses(s, id, step);
    } else {
      OtherLoses(s, id, step);
    }
  }

  lemma {:induction false} LossesBoundLost(s: State, steps: seq<Step>)
    requires SetsInv(s) && Legal(s, steps)
    ensures |Lost(After(s, steps))| <= |Lost(s)| + Losses(s, steps)
    decreases |steps|
  {
    if steps != [] {
      var s1 := Apply(s, steps[0]);
      StepLosesExactly(s, steps[0]);
      var more := if Loses(s, steps[0]) then Unsaved(s) else {};
      SubsetSize(Lost(s1), Lost(s) + more);
      assert |Lost(s) + more| <= |Lost(s)| + |more|;
      LossesBoundLost(s1, steps[1..]);
    }
  }

  lemma SubsetSize<T>(a: set<T>, b: set<T>)
    requires a <= b
    ensures |a| <= |b|
  {
    assert b == a + (b - a);
  }

  /**
   Conservation. In every run without a losing step, what the hub switched off
   and has not switched back on is in the remembered row or in the one call in
   flight; and a run leaves out of both at most one automation for each time a
   crash or a failed write cut a save short.
   */
  lemma OwedAutomationsAreRemembered(s0: State, steps: seq<Step>)
    requires Init(s0) && Legal(s0, steps)
    ensures var s := After(s0, steps);
      && (Losses(s0, steps) == 0 ==> s.owed <= s.remembered + Unsaved(s))
      && |s.owed - (s.remembered + Unsaved(s))| <= Losses(s0, steps)
      && |Unsaved(s)| <= 1
  {
    assert SetsInv(s0) && Lost(s0) == {};
    hide SetsInv, Legal, Losses, After;
    LossesBoundLost(s0, steps);
    var s := After(s0, steps);
    assert s.owed - (s.remembered + Unsaved(s)) == Lost(s);
  }

  ghost predicate Reachable(s0: State, s: State) {
    exists steps :: Legal(s0, steps) && After(s0, steps) == s
  }

  lemma {:induction false} OneStepMore(s0: State, steps: seq<Step>, step: Step)
    requires Legal(s0, steps) && Enabled(After(s0, steps), step)
    ensures Legal(s0, steps + [step]) && After(s0, steps + [step]) == Apply(After(s0, steps), step)
    decreases |steps|
  {
    hide Enabled, Apply;
    if steps == [] {
      assert steps + [step] == [step];
      assert [step][1..] == [];
    } else {
      assert (steps + [step])[1..] == steps[1..] + [step];
      OneStepMore(Apply(s0, steps[0]), steps[1..], step);
    }
  }

  lemma Next(s0: State, s: State, step: Step)
    requires Reachable(s0, s) && Enabled(s, step)
    ensures Reachable(s0, Apply(s, step))
  {
    hide Enabled, Apply;
    var steps :| Legal(s0, steps) && After(s0, steps) == s;
    OneStepMore(s0, steps, step);
  }

  /**
   So a crash can lose what is owed, whatever the pass's own comment promises:
   here one between the turn_off and its save.
   */
  lemma CrashCanLoseOwed(s0: State, a: Automation)
    requires Init(s0) && !s0.active && s0.on == {a} && s0.remembered == {} && s0.flagged == {}
    ensures exists s :: Reachable(s0, s) && Lost(s) == {a}
  {
    var s3 := LevelComesOn(s0);
    var s7 := AutomationGoesOff(s0, s3, a);
    hide Reachable;
    Next(s0, s7, Crash(2));
    assert Lost(Apply(s7, Crash(2))) == {a};
  }

  lemma LevelComesOn(s0: State) returns (s3: State)
    requires Init(s0) && !s0.active
    ensures Reachable(s0, s3)
    ensures s3.lock == Held(1) && 1 in s3.requests && s3.requests[1] == Request(Activate, 0, LoadOwed) && s3.generation == 0
    ensures s3.on == s0.on && s3.remembered == s0.remembered && s3.flagged == s0.flagged && s3.owed == s0.owed
  {
    assert Reachable(s0, s0) by { assert Legal(s0, []) && After(s0, []) == s0; }
    hide Reachable;
    var s1 := Apply(s0, Ask(1, Activate));
    Next(s0, s0, Ask(1, Activate));
    var s2 := Apply(s1, Acquire(1));
    Next(s0, s1, Acquire(1));
    assert s2.requests[1] == Request(Activate, 0, EngineCall);
    s3 := Apply(s2, EngineDone(Written));
    Next(s0, s2, EngineDone(Written));
  }

  lemma AutomationGoesOff(s0: State, s3: State, a: Automation) returns (s7: State)
    requires Reachable(s0, s3)
    requires s3.lock == Held(1) && 1 in s3.requests && s3.requests[1] == Request(Activate, 0, LoadOwed) && s3.generation == 0
    requires s3.on == {a} && s3.remembered == {} && s3.flagged == {} && s3.owed == {}
    ensures Reachable(s0, s7) && s7.owed == {a} && s7.remembered == {}
  {
    hide Reachable;
    var s4 := Apply(s3, OwedLoaded([a]));
    Next(s0, s3, OwedLoaded([a]));
    assert s4.requests[1].phase == Scanning([a], {});
    var s5 := Apply(s4, FlagRead);
    Next(s0, s4, FlagRead);
    assert s5.requests[1].phase == Cleared(a, [a][1..], {});
    var s6 := Apply(s5, WantedCheck);
    Next(s0, s5, WantedCheck);
    assert s6.requests[1].phase == OffCall(a, [a][1..], {});
    s7 := Apply(s6, OffReturns(true));
    Next(s0, s6, OffReturns(true));
  }
}
