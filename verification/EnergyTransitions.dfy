/**
 What one request does to the home from the moment it is granted the lock until
 it ends, whatever happens meanwhile: a deactivate, or a start-up with no level
 active, asks for every automation owed a switch-on; an activate, a re-apply or
 a start-up that nothing supersedes switches every unflagged one off and goes
 on to the devices.
 */
module EnergyTransitions {
  import opened EnergyProtocol
  import opened EnergyProtocolProofs

  // -- a request's run --------------------------------------------------------------

  /** The last step, and none before it, ends the request. */
  ghost predicate Completes(s: State, steps: seq<Step>, id: RequestId)
    requires Legal(s, steps)
    decreases |steps|
  {
    steps != []
    && var s1 := Apply(s, steps[0]);
      id in s1.requests && (s1.requests[id].phase.Done? <==> steps[1..] == []) && (steps[1..] != [] ==> Completes(s1, steps[1..], id))
  }

  /** No crash, and no write of the step's fails. */
  predicate SmoothStep(step: Step) {
    !step.Crash? && step != OffSaved(false) && step != OnSaved(false) && (step.EngineDone? ==> step.result.Written?)
  }

  predicate Smooth(steps: seq<Step>) { forall i :: 0 <= i < |steps| ==> SmoothStep(steps[i]) }

  predicate Superseding(step: Step) { step.Ask? && Bumps(step.kind) }

  /** No deactivate or stop is asked for. */
  predicate Unsuperseded(steps: seq<Step>) { forall i :: 0 <= i < |steps| ==> !Superseding(steps[i]) }

  /** Nobody edits automations by hand. */
  predicate HandsOff(steps: seq<Step>) { forall i :: 0 <= i < |steps| ==> !steps[i].HandEdit? }

  lemma StepLogGrows(s: State, step: Step)
    requires Enabled(s, step)
    ensures s.log <= Apply(s, step).log
  {
    if HolderStep(step) { HolderLogGrows(s, step); }
  }

  lemma HolderLogGrows(s: State, step: Step)
    requires Enabled(s, step) && HolderStep(step)
    ensures s.log <= HolderApply(s, s.lock.id, step).log
  {}

  lemma {:induction false} LogGrows(s: State, steps: seq<Step>)
    requires Legal(s, steps)
    ensures s.log <= After(s, steps).log
    decreases |steps|
  {
    hide Enabled, Apply;
    if steps != [] {
      StepLogGrows(s, steps[0]);
      LogGrows(Apply(s, steps[0]), steps[1..]);
    }
  }

  /** What the step adds to the history, and what the run does. */
  ghost function Added(s: State, step: Step): seq<Event>
    requires Enabled(s, step)
  {
    StepLogGrows(s, step);
    Apply(s, step).log[|s.log|..]
  }

  ghost function News(s: State, steps: seq<Step>): seq<Event>
    requires Legal(s, steps)
  {
    LogGrows(s, steps);
    After(s, steps).log[|s.log|..]
  }

  lemma NewsSplit(s: State, steps: seq<Step>)
    requires Legal(s, steps) && steps != []
    ensures News(s, steps) == Added(s, steps[0]) + News(Apply(s, steps[0]), steps[1..])
  {
    hide Enabled, Apply;
    StepLogGrows(s, steps[0]);
    LogGrows(Apply(s, steps[0]), steps[1..]);
    LogGrows(s, steps);
  }

  // -- what a history asks for ------------------------------------------------------

  function AskedOff(q: seq<Event>, id: RequestId): set<Automation> {
    set i | 0 <= i < |q| && q[i].TurnOff? && q[i].req == id :: q[i].a
  }

  function RefusedOff(q: seq<Event>, id: RequestId): set<Automation> {
    set i | 0 <= i < |q| && q[i].TurnOffRefused? && q[i].req == id :: q[i].a
  }

  function AskedOn(q: seq<Event>, id: RequestId): set<Automation> {
    set i | 0 <= i < |q| && q[i].TurnOn? && q[i].req == id :: q[i].a
  }

  function RefusedOn(q: seq<Event>, id: RequestId): set<Automation> {
    set i | 0 <= i < |q| && q[i].TurnOnRefused? && q[i].req == id :: q[i].a
  }

  lemma SetsConcat(x: seq<Event>, y: seq<Event>, id: RequestId)
    ensures AskedOff(x + y, id) == AskedOff(x, id) + AskedOff(y, id)
    ensures RefusedOff(x + y, id) == RefusedOff(x, id) + RefusedOff(y, id)
    ensures AskedOn(x + y, id) == AskedOn(x, id) + AskedOn(y, id)
    ensures RefusedOn(x + y, id) == RefusedOn(x, id) + RefusedOn(y, id)
  {
    var q := x + y;
    forall i | 0 <= i < |x| ensures q[i] == x[i] {}
    forall i | 0 <= i < |y| ensures q[|x| + i] == y[i] {}
  }

  lemma SetsOfOne(e: Event, id: RequestId)
    ensures AskedOff([e], id) == (if e.TurnOff? && e.req == id then {e.a} else {})
    ensures RefusedOff([e], id) == (if e.TurnOffRefused? && e.req == id then {e.a} else {})
    ensures AskedOn([e], id) == (if e.TurnOn? && e.req == id then {e.a} else {})
    ensures RefusedOn([e], id) == (if e.TurnOnRefused? && e.req == id then {e.a} else {})
  {
    assert [e][0] == e;
  }

  /** The sets of what one step of id adds. */
  lemma AddedSets(s: State, step: Step, id: RequestId)
    requires Enabled(s, step) && s.lock == Held(id) && id in s.requests && !step.Crash?
    ensures var q, p := Added(s, step), s.requests[id].phase;
      && AskedOff(q, id) == (if step.WantedCheck? && p.Cleared? && s.requests[id].generation == s.generation then {p.a} else {})
      && RefusedOff(q, id) == (if step == OffReturns(false) then {p.a} else {})
      && AskedOn(q, id) == (if step.OnIssues? && p.todo != [] then {p.todo[0]} else {})
      && RefusedOn(q, id) == (if step == OnReturns(false) then {p.a} else {})
  {
    hide AskedOff, RefusedOff, AskedOn, RefusedOn;
    var q := Added(s, step);
    AddsAtMostOne(s, step);
    SetsOfNone(id);
    if q != [] { SetsOfOne(q[0], id); }
    if HolderStep(step) { HolderAdds(s, step, id); } else { OthersAdd(s, step, id); }
    hide Added, Apply, Enabled, HolderStep;
  }

  lemma AddsAtMostOne(s: State, step: Step)
    requires Enabled(s, step) && !step.Crash?
    ensures |Added(s, step)| <= 1 && (Added(s, step) != [] ==> Added(s, step) == [Added(s, step)[0]])
  {}

  lemma OthersAdd(s: State, step: Step, id: RequestId)
    requires Enabled(s, step) && !HolderStep(step) && !step.Crash?
    ensures var q := Added(s, step); q == [] || q[0].Asked? || q[0].RuleCommand?
    ensures !step.WantedCheck? && !step.OnIssues? && !step.OffReturns? && !step.OnReturns?
  {}

  lemma HolderAdds(s: State, step: Step, id: RequestId)
    requires Enabled(s, step) && s.lock == Held(id) && id in s.requests && HolderStep(step)
    ensures var q, p := Added(s, step), s.requests[id].phase;
      if step.WantedCheck? && p.Cleared? && s.requests[id].generation == s.generation then q == [TurnOff(p.a, id)]
      else if step == OffReturns(false) then q == [TurnOffRefused(p.a, id)]
      else if step.OnIssues? && p.todo != [] then q == [TurnOn(p.todo[0], id)]
      else if step == OnReturns(false) then q == [TurnOnRefused(p.a, id)]
      else q == [] || q[0].LevelOn? || q[0].LevelOff? || q[0].PassCommand?
  {}

  lemma SetsOfNone(id: RequestId)
    ensures AskedOff([], id) == RefusedOff([], id) == AskedOn([], id) == RefusedOn([], id) == {}
  {}

  // -- a restore --------------------------------------------------------------------

  function Elements(q: seq<Automation>): set<Automation> { set a | a in q }

  predicate Behind(a: Automation, rest: seq<Automation>, row: set<Automation>) {
    a in row && a !in rest && DistinctSeq(rest) && Elements(rest) <= row
  }

  /** The holder restores, or is about to: its own set is the row, its list part of it. */
  predicate Restoring(s: State, id: RequestId) {
    s.lock == Held(id) && id in s.requests && !s.active
    && match s.requests[id].phase
       case LoadPending => true
       case Restoring(todo, pending) => pending == s.remembered && DistinctSeq(todo) && Elements(todo) <= pending
       case OnCall(a, rest, pending) => pending == s.remembered && Behind(a, rest, pending)
       case OnUnsaved(a, rest, pending) => pending == s.remembered && Behind(a, rest, pending) && a !in s.owed
       case _ => false
  }

  /** Still to be asked for. */
  function ToAsk(s: State, id: RequestId): set<Automation>
    requires Restoring(s, id)
  {
    match s.requests[id].phase
    case LoadPending => s.remembered
    case Restoring(todo, _) => Elements(todo)
    case OnCall(_, rest, _) => Elements(rest)
    case OnUnsaved(_, rest, _) => Elements(rest)
  }

  /** Still to be answered, and still to leave the row unless refused. */
  function ToAnswer(s: State, id: RequestId): set<Automation>
    requires Restoring(s, id)
  {
    ToAsk(s, id) + (if s.requests[id].phase.OnCall? then {s.requests[id].phase.a} else {})
  }

  function ToSave(s: State, id: RequestId): set<Automation>
    requires Restoring(s, id)
  {
    ToAnswer(s, id) + (if s.requests[id].phase.OnUnsaved? then {s.requests[id].phase.a} else {})
  }

  lemma ElementsSplit(q: seq<Automation>)
    requires q != [] && DistinctSeq(q)
    ensures Elements(q) == {q[0]} + Elements(q[1..]) && q[0] !in q[1..] && DistinctSeq(q[1..])
  {
    assert forall i :: 0 <= i < |q[1..]| ==> q[1..][i] == q[i + 1];
    assert q == [q[0]] + q[1..];
  }

  /** s1 is s with these asked for, these refused, and no hand edit but an `edited` one. */
  predicate Restored(s: State, s1: State, id: RequestId, asked: set<Automation>, refused: set<Automation>, edited: bool) {
    && Restoring(s, id) && Restoring(s1, id)
    && ToAsk(s, id) == asked + ToAsk(s1, id)
    && ToAnswer(s1, id) <= ToAnswer(s, id) && refused <= ToAnswer(s, id) - ToAnswer(s1, id)
    && ToSave(s1, id) <= ToSave(s, id) && refused <= ToSave(s, id) - ToSave(s1, id)
    && s1.owed == s.owed - (ToAnswer(s, id) - ToAnswer(s1, id) - refused)
    && s1.remembered == s.remembered - (ToSave(s, id) - ToSave(s1, id) - refused)
    && (!edited ==> s1.on == s.on + (ToAnswer(s, id) - ToAnswer(s1, id) - refused))
  }

  lemma OthersWhileRestoring(s: State, step: Step, id: RequestId)
    requires Restoring(s, id) && Enabled(s, step) && (step.Ask? || step.RuleIssues? || step.HandEdit?)
    ensures Restored(s, Apply(s, step), id, {}, {}, step.HandEdit?)
  {}

  lemma OnIssuesRestores(s: State, id: RequestId)
    requires Restoring(s, id) && Enabled(s, OnIssues) && s.requests[id].phase.Restoring? && s.requests[id].phase.todo != []
    ensures Restored(s, Apply(s, OnIssues), id, {s.requests[id].phase.todo[0]}, {}, false)
  {
    ElementsSplit(s.requests[id].phase.todo);
  }

  lemma OnReturnsRestores(s: State, id: RequestId, ok: bool)
    requires Restoring(s, id) && Enabled(s, OnReturns(ok)) && s.requests[id].phase.OnCall?
    ensures Restored(s, Apply(s, OnReturns(ok)), id, {}, if ok then {} else {s.requests[id].phase.a}, false)
  {}

  lemma OnSavedRestores(s: State, id: RequestId)
    requires Restoring(s, id) && Enabled(s, OnSaved(true))
    ensures Restored(s, Apply(s, OnSaved(true)), id, {}, {}, false)
  {}

  lemma LoadRestores(s: State, id: RequestId, todo: seq<Automation>)
    requires Restoring(s, id) && Enabled(s, PendingLoaded(todo))
    ensures Restored(s, Apply(s, PendingLoaded(todo)), id, {}, {}, false)
  {}

  /** The restore has nothing left to do and ends. */
  predicate Over(s: State, s1: State, id: RequestId) {
    Restoring(s, id) && ToSave(s, id) == {} && s1 == Finish(s, id, true)
  }

  lemma RestoreEnds(s: State, s1: State, id: RequestId)
    requires Over(s, s1, id) && s1.log == s.log
    ensures RestoredAll(s, s1, id, [], true) && RestoredAll(s, s1, id, [], false)
  {
    SetsOfNone(id);
  }

  lemma RestoredIsUnderWay(s: State, s1: State, id: RequestId, asked: set<Automation>, refused: set<Automation>, edited: bool)
    requires Restored(s, s1, id, asked, refused, edited)
    ensures id in s1.requests && !s1.requests[id].phase.Done? && Restoring(s1, id)
  {}

  lemma NothingLeft(s: State, id: RequestId)
    requires Restoring(s, id) && Enabled(s, OnIssues) && s.requests[id].phase.Restoring? && s.requests[id].phase.todo == []
    ensures Over(s, Apply(s, OnIssues), id)
  {}

  lemma RestoringSteps(s: State, step: Step, id: RequestId)
    requires Restoring(s, id) && Enabled(s, step) && SmoothStep(step)
    ensures s.lock == Held(id) && id in s.requests
    ensures step.OnIssues? || step.OnReturns? || step == OnSaved(true) || step.PendingLoaded? || step.Ask? || step.RuleIssues? || step.HandEdit?
    ensures !step.Crash? && (step.OnIssues? ==> s.requests[id].phase.Restoring?) && (step.OnReturns? ==> s.requests[id].phase.OnCall?)
  {}

  /** One step while id restores: it goes on restoring, or there is nothing left to do. */
  lemma RestoreGoesOn(s: State, step: Step, id: RequestId)
    requires Restoring(s, id) && Enabled(s, step) && SmoothStep(step)
    ensures var s1, q := Apply(s, step), Added(s, step);
      Over(s, s1, id) || Restored(s, s1, id, AskedOn(q, id), RefusedOn(q, id), step.HandEdit?)
  {
    RestoringSteps(s, step, id);
    AddedSets(s, step, id);
    hide *;
    if step.OnIssues? {
      if s.requests[id].phase.todo == [] { NothingLeft(s, id); } else { OnIssuesRestores(s, id); }
    } else if step.OnReturns? {
      OnReturnsRestores(s, id, step.ok);
    } else if step.OnSaved? {
      OnSavedRestores(s, id);
    } else if step.PendingLoaded? {
      LoadRestores(s, id, step.todo);
    } else {
      OthersWhileRestoring(s, step, id);
    }
  }

  /** From s to s' the restore asked for all it had to, and left owed exactly what was refused. */
  predicate RestoredAll(s: State, s': State, id: RequestId, q: seq<Event>, edited: bool) {
    && Restoring(s, id) && id in s'.requests && s'.requests[id].phase == Done(true) && !s'.active
    && AskedOn(q, id) == ToAsk(s, id) && RefusedOn(q, id) <= ToAnswer(s, id)
    && s'.owed == s.owed - (ToAnswer(s, id) - RefusedOn(q, id))
    && s'.remembered == s.remembered - (ToSave(s, id) - RefusedOn(q, id))
    && (!edited ==> s'.on == s.on + (ToAnswer(s, id) - RefusedOn(q, id)))
  }

  lemma RestoredThen(s: State, s1: State, s': State, id: RequestId, q: seq<Event>, q1: seq<Event>, edited: bool, edited1: bool)
    requires Restored(s, s1, id, AskedOn(q, id), RefusedOn(q, id), edited) && RestoredAll(s1, s', id, q1, edited1)
    ensures RestoredAll(s, s', id, q + q1, edited || edited1)
  {
    SetsConcat(q, q1, id);
    hide AskedOn, RefusedOn, Restoring, ToAsk;
  }

  lemma {:induction false} RestoreRuns(s: State, steps: seq<Step>, id: RequestId)
    requires Restoring(s, id) && Legal(s, steps) && Completes(s, steps, id) && Smooth(steps)
    ensures RestoredAll(s, After(s, steps), id, News(s, steps), !HandsOff(steps))
    decreases |steps|
  {
    var s1, q := Apply(s, steps[0]), Added(s, steps[0]);
    RestoreGoesOn(s, steps[0], id);
    NewsSplit(s, steps);
    if Over(s, s1, id) {
      RestoreEnds(s, s1, id);
      assert steps[1..] == [];
      assert q == [] && News(s1, []) == [];
    } else {
      RestoredIsUnderWay(s, s1, id, AskedOn(q, id), RefusedOn(q, id), steps[0].HandEdit?);
      RestoreRuns(s1, steps[1..], id);
      RestoredThen(s, s1, After(s, steps), id, q, News(s1, steps[1..]), steps[0].HandEdit?, !HandsOff(steps[1..]));
    }
  }

  /**
   From s to s' request id has asked for every automation remembered, keeps
   remembered exactly those refused, owes nothing else of them and, with no hand
   edit, leaves on what was on and what was not refused.
   */
  predicate GivenBack(s: State, s': State, id: RequestId, q: seq<Event>, edited: bool) {
    && id in s'.requests && s'.requests[id].phase == Done(true) && !s'.active
    && AskedOn(q, id) == s.remembered
    && s'.remembered == RefusedOn(q, id) <= s.remembered
    && s'.owed == s.owed - (s.remembered - RefusedOn(q, id))
    && (!edited ==> s'.on == s.on + (s.remembered - RefusedOn(q, id)))
  }

  predicate Deactivating(s: State, id: RequestId) {
    s.lock == Held(id) && id in s.requests && s.requests[id].phase.EngineCall? && s.requests[id].kind.Deactivate?
  }

  lemma DeactivatingGoesOn(s: State, step: Step, id: RequestId)
    requires Deactivating(s, id) && Enabled(s, step) && SmoothStep(step)
    ensures var s1, q := Apply(s, step), Added(s, step);
      && AskedOn(q, id) == RefusedOn(q, id) == {} && s1.remembered == s.remembered && s1.owed == s.owed
      && (!step.HandEdit? ==> s1.on == s.on) && id in s1.requests && !s1.requests[id].phase.Done?
      && (Deactivating(s1, id) || (Restoring(s1, id) && s1.requests[id].phase.LoadPending?))
  {
    AddedSets(s, step, id);
    hide AskedOn, RefusedOn, AskedOff, RefusedOff, Added;
  }

  lemma {:induction false} DeactivateRuns(s: State, steps: seq<Step>, id: RequestId)
    requires Deactivating(s, id) || (Restoring(s, id) && s.requests[id].phase.LoadPending?)
    requires Legal(s, steps) && Completes(s, steps, id) && Smooth(steps)
    ensures GivenBack(s, After(s, steps), id, News(s, steps), !HandsOff(steps))
    decreases |steps|
  {
    if Deactivating(s, id) {
      var s1, q := Apply(s, steps[0]), Added(s, steps[0]);
      DeactivatingGoesOn(s, steps[0], id);
      NewsSplit(s, steps);
      DeactivateRuns(s1, steps[1..], id);
      SetsConcat(q, News(s1, steps[1..]), id);
      hide AskedOn, RefusedOn, Deactivating, Restoring, Added, Apply, Enabled, Completes, Smooth, News;
    } else {
      RestoreRuns(s, steps, id);
    }
  }

  lemma AcquireAdds(s: State, id: RequestId)
    requires Enabled(s, Acquire(id))
    ensures Added(s, Acquire(id)) == []
  {}

  /**
   A deactivate, or a start-up with no level active, gives back: granted the
   lock and meeting no crash and no failed write, it ends with every automation
   that was remembered asked to turn on and just the refused ones remembered.
   */
  lemma DeactivateRestores(s: State, steps: seq<Step>, id: RequestId)
    requires Legal(s, steps) && Completes(s, steps, id) && Smooth(steps) && steps[0] == Acquire(id)
    requires var r := s.requests[id];
      r.kind.Deactivate? || (r.kind.Resume? && !s.active && r.generation == s.generation)
    ensures GivenBack(s, After(s, steps), id, News(s, steps), !HandsOff(steps))
  {
    var s1 := Apply(s, Acquire(id));
    AcquireAdds(s, id);
    NewsSplit(s, steps);
    DeactivateRuns(s1, steps[1..], id);
  }

  // -- an enforcing pass ------------------------------------------------------------

  /** The holder enforces a level: its own set is the row, its list apart from it. */
  predicate Enforces(s: State, id: RequestId) {
    s.lock == Held(id) && id in s.requests && s.active
    && match s.requests[id].phase
       case LoadOwed => true
       case Scanning(todo, owed) => owed == s.remembered && DistinctSeq(todo) && Elements(todo) !! owed
       case Cleared(a, rest, owed) => owed == s.remembered && Off(a, rest, owed)
       case OffCall(a, rest, owed) => owed == s.remembered && Off(a, rest, owed)
       case OffUnsaved(a, rest, owed) => owed == s.remembered && Off(a, rest, owed)
       case DevicePass => true
       case _ => false
  }

  /** Sure to be asked for: found unflagged. */
  function Sure(s: State, id: RequestId): set<Automation>
    requires Enforces(s, id)
  {
    if s.requests[id].phase.Cleared? then {s.requests[id].phase.a} else {}
  }

  /** Still to be looked up; before the list is read, listed. */
  function Left(s: State, id: RequestId, listed: set<Automation>): set<Automation>
    requires Enforces(s, id)
  {
    match s.requests[id].phase
    case LoadOwed => listed
    case Scanning(todo, _) => Elements(todo)
    case Cleared(_, rest, _) => Elements(rest)
    case OffCall(_, rest, _) => Elements(rest)
    case OffUnsaved(_, rest, _) => Elements(rest)
    case DevicePass => {}
  }

  /** Asked for and not answered yet, and not saved yet. */
  function Unanswered(s: State, id: RequestId): set<Automation>
    requires Enforces(s, id)
  {
    if s.requests[id].phase.OffCall? then {s.requests[id].phase.a} else {}
  }

  function Unwritten(s: State, id: RequestId): set<Automation>
    requires Enforces(s, id)
  {
    Unanswered(s, id) + (if s.requests[id].phase.OffUnsaved? then {s.requests[id].phase.a} else {})
  }

  predicate Enforced(s: State, s1: State, id: RequestId, listed: set<Automation>, asked: set<Automation>, refused: set<Automation>, edited: bool) {
    && Enforces(s, id) && Enforces(s1, id) && s1.activator == s.activator
    && var sure, left, sure1, left1 := Sure(s, id), Left(s, id, listed), Sure(s1, id), Left(s1, id, listed);
      var answered, written := asked + Unanswered(s, id) - Unanswered(s1, id), asked + Unwritten(s, id) - Unwritten(s1, id);
      && sure <= asked + sure1 && left - s.flagged <= asked + sure1 + left1
      && asked + sure1 <= sure + (left - s.flagged) && left1 <= left
      && Unanswered(s1, id) <= asked + Unanswered(s, id) && Unwritten(s1, id) <= asked + Unwritten(s, id)
      && refused <= answered && answered !! sure1 + left1 + Unanswered(s1, id)
      && refused <= written && written !! sure1 + left1
      && s1.owed == s.owed + (answered - refused)
      && s1.remembered == s.remembered + (written - refused)
      && (!edited ==> s1.on == s.on - (answered - refused))
  }

  lemma OthersWhileEnforcing(s: State, step: Step, id: RequestId, listed: set<Automation>)
    requires Enforces(s, id) && Enabled(s, step) && (step.Ask? || step.RuleIssues? || step.HandEdit? || step.PassIssues?)
    ensures Enforced(s, Apply(s, step), id, listed, {}, {}, step.HandEdit?)
  {}

  lemma ListEnforces(s: State, id: RequestId, todo: seq<Automation>)
    requires Enforces(s, id) && Enabled(s, OwedLoaded(todo))
    ensures Enforced(s, Apply(s, OwedLoaded(todo)), id, s.on - s.remembered, {}, {}, false)
  {}

  lemma FlagEnforces(s: State, id: RequestId, listed: set<Automation>)
    requires Enforces(s, id) && Enabled(s, FlagRead)
    ensures Enforced(s, Apply(s, FlagRead), id, listed, {}, {}, false)
  {
    ElementsSplit(s.requests[id].phase.todo);
  }

  lemma CheckEnforces(s: State, id: RequestId, listed: set<Automation>)
    requires Enforces(s, id) && Enabled(s, WantedCheck) && s.requests[id].generation == s.generation
    ensures Enforced(s, Apply(s, WantedCheck), id, listed,
      if s.requests[id].phase.Cleared? then {s.requests[id].phase.a} else {}, {}, false)
  {}

  lemma OffReturnsEnforces(s: State, id: RequestId, listed: set<Automation>, ok: bool)
    requires Enforces(s, id) && Enabled(s, OffReturns(ok)) && s.requests[id].phase.OffCall?
    ensures Enforced(s, Apply(s, OffReturns(ok)), id, listed, {}, if ok then {} else {s.requests[id].phase.a}, false)
  {}

  lemma OffSavedEnforces(s: State, id: RequestId, listed: set<Automation>)
    requires Enforces(s, id) && Enabled(s, OffSaved(true))
    ensures Enforced(s, Apply(s, OffSaved(true)), id, listed, {}, {}, false)
  {}

  predicate Superseded(s: State, s1: State, step: Step, id: RequestId) {
    id in s.requests && step.WantedCheck? && s.requests[id].generation != s.generation && s1 == Finish(s, id, true)
  }

  predicate PassOver(s: State, s1: State, step: Step, id: RequestId) {
    Enforces(s, id) && step.PassEnds? && s.requests[id].phase.DevicePass? && s1 == Finish(s, id, true).(pass := NoPass)
  }

  lemma EnforcingSteps(s: State, step: Step, id: RequestId)
    requires Enforces(s, id) && Enabled(s, step) && SmoothStep(step)
    ensures s.lock == Held(id) && id in s.requests && !step.Crash?
    ensures step.OwedLoaded? || step.FlagRead? || step.WantedCheck? || step.OffReturns? || step == OffSaved(true) || step.PassEnds?
      || step.Ask? || step.RuleIssues? || step.HandEdit? || step.PassIssues?
    ensures (step.OffReturns? ==> s.requests[id].phase.OffCall?) && (step.OwedLoaded? ==> s.requests[id].phase.LoadOwed?)
    ensures step.WantedCheck? && s.requests[id].generation != s.generation ==> Superseded(s, Apply(s, step), step, id)
    ensures step.PassEnds? ==> PassOver(s, Apply(s, step), step, id)
  {}

  /** One step while id enforces: it goes on, finds itself superseded, or ends after the devices. */
  lemma EnforceGoesOn(s: State, step: Step, id: RequestId, listed: set<Automation>)
    requires Enforces(s, id) && Enabled(s, step) && SmoothStep(step)
    requires step.OwedLoaded? ==> listed == s.on - s.remembered
    ensures var s1, q := Apply(s, step), Added(s, step);
      || Superseded(s, s1, step, id) || PassOver(s, s1, step, id)
      || Enforced(s, s1, id, listed, AskedOff(q, id), RefusedOff(q, id), step.HandEdit?)
  {
    EnforcingSteps(s, step, id);
    AddedSets(s, step, id);
    hide *;
    if step.OwedLoaded? {
      ListEnforces(s, id, step.todo);
    } else if step.FlagRead? {
      FlagEnforces(s, id, listed);
    } else if step.WantedCheck? {
      if s.requests[id].generation == s.generation { CheckEnforces(s, id, listed); }
    } else if step.OffReturns? {
      OffReturnsEnforces(s, id, listed, step.ok);
    } else if step.OffSaved? {
      OffSavedEnforces(s, id, listed);
    } else if !step.PassEnds? {
      OthersWhileEnforcing(s, step, id, listed);
    }
  }

  /** Flagged at some moment of the run, and at every one. */
  ghost function EverFlagged(s: State, steps: seq<Step>): set<Automation>
    requires Legal(s, steps)
    decreases |steps|
  {
    s.flagged + (if steps == [] then {} else EverFlagged(Apply(s, steps[0]), steps[1..]))
  }

  ghost function AlwaysFlagged(s: State, steps: seq<Step>): set<Automation>
    requires Legal(s, steps)
    decreases |steps|
  {
    if steps == [] then s.flagged else s.flagged * AlwaysFlagged(Apply(s, steps[0]), steps[1..])
  }

  /** The automations on and not remembered when the run reads Home Assistant's list. */
  ghost function Listed(s: State, steps: seq<Step>): set<Automation>
    requires Legal(s, steps)
    decreases |steps|
  {
    if steps == [] then {}
    else if steps[0].OwedLoaded? then s.on - s.remembered
    else Listed(Apply(s, steps[0]), steps[1..])
  }

  /** From s to s' the pass asked for all it had to, and remembers exactly what was not refused. */
  predicate EnforcedAll(s: State, s': State, id: RequestId, q: seq<Event>, listed: set<Automation>,
    ever: set<Automation>, always: set<Automation>, edited: bool)
  {
    && Enforces(s, id) && id in s'.requests && s'.requests[id].phase == Done(true) && s'.active && s'.activator == s.activator
    && var sure, left, asked, refused := Sure(s, id), Left(s, id, listed), AskedOff(q, id), RefusedOff(q, id);
      && sure + (left - ever) <= asked <= sure + (left - always)
      && refused <= asked + Unanswered(s, id)
      && s'.owed == s.owed + (asked + Unanswered(s, id) - refused)
      && s'.remembered == s.remembered + (asked + Unwritten(s, id) - refused)
      && (!edited ==> s'.on == s.on - (asked + Unanswered(s, id) - refused))
  }

  lemma EnforcedThen(s: State, s1: State, s': State, id: RequestId, q: seq<Event>, q1: seq<Event>, listed: set<Automation>,
    ever: set<Automation>, always: set<Automation>, edited: bool, edited1: bool)
    requires Enforced(s, s1, id, listed, AskedOff(q, id), RefusedOff(q, id), edited)
    requires EnforcedAll(s1, s', id, q1, listed, ever, always, edited1)
    ensures EnforcedAll(s, s', id, q + q1, listed, s.flagged + ever, s.flagged * always, edited || edited1)
  {
    SetsConcat(q, q1, id);
    hide AskedOff, RefusedOff, Enforces, Left, Sure;
    var sure, left, asked, refused := Sure(s, id), Left(s, id, listed), AskedOff(q + q1, id), RefusedOff(q + q1, id);
    forall a | a in sure + (left - (s.flagged + ever)) ensures a in asked {
      if a !in sure { assert a in left - s.flagged; }
    }
  }

  lemma EnforcedIsUnderWay(s: State, s1: State, id: RequestId, listed: set<Automation>, asked: set<Automation>, refused: set<Automation>, edited: bool)
    requires Enforced(s, s1, id, listed, asked, refused, edited)
    ensures id in s1.requests && !s1.requests[id].phase.Done? && Enforces(s1, id)
  {}

  lemma EnforceEnds(s: State, s1: State, step: Step, id: RequestId, listed: set<Automation>, edited: bool)
    requires PassOver(s, s1, step, id)
    ensures s1.requests[id].phase.Done? && s1.log == s.log
    ensures EnforcedAll(s, s1, id, [], listed, s.flagged, s.flagged, edited)
  {
    SetsOfNone(id);
  }

  ghost predicate PassedBy(s: State, steps: seq<Step>, id: RequestId, listed: set<Automation>)
    requires Legal(s, steps)
  {
    EnforcedAll(s, After(s, steps), id, News(s, steps), listed, EverFlagged(s, steps), AlwaysFlagged(s, steps), !HandsOff(steps))
  }

  lemma {:induction false} EnforceRuns(s: State, steps: seq<Step>, id: RequestId, listed: set<Automation>)
    requires Enforces(s, id) && Legal(s, steps) && Completes(s, steps, id) && Smooth(steps)
    requires steps[|steps| - 1].PassEnds? && (s.requests[id].phase.LoadOwed? ==> listed == Listed(s, steps))
    ensures PassedBy(s, steps, id, listed)
    decreases |steps|
  {
    hide Enforces, Enforced, EnforcedAll, Apply, Enabled, Added, AskedOff, RefusedOff;
    var s1, q := Apply(s, steps[0]), Added(s, steps[0]);
    EnforcingSteps(s, steps[0], id);
    EnforceGoesOn(s, steps[0], id, listed);
    NewsSplit(s, steps);
    if PassOver(s, s1, steps[0], id) {
      EnforceEnds(s, s1, steps[0], id, listed, !HandsOff(steps));
      assert steps[1..] == [] && s1.flagged == s.flagged;
      assert EverFlagged(s, steps) == s.flagged + s1.flagged == s.flagged;
      assert AlwaysFlagged(s, steps) == s.flagged * s1.flagged == s.flagged;
      assert News(s, steps) == [];
    } else {
      EnforcedIsUnderWay(s, s1, id, listed, AskedOff(q, id), RefusedOff(q, id), steps[0].HandEdit?);
      LoadOwedStays(s, steps[0], id);
      EnforceRuns(s1, steps[1..], id, listed);
      EnforcedThen(s, s1, After(s, steps), id, q, News(s1, steps[1..]), listed,
        EverFlagged(s1, steps[1..]), AlwaysFlagged(s1, steps[1..]), steps[0].HandEdit?, !HandsOff(steps[1..]));
    }
  }

  lemma LoadOwedStays(s: State, step: Step, id: RequestId)
    requires Enforces(s, id) && Enabled(s, step) && !step.Crash?
    ensures var s1 := Apply(s, step);
      id in s1.requests && (s1.requests[id].phase.LoadOwed? ==> s.requests[id].phase.LoadOwed? && !step.OwedLoaded?)
  {}

  // -- an activation ------------------------------------------------------------------

  /**
   From s to s' request id has asked to switch off every listed automation but
   those flagged: all that never were, none that always were. What was not
   refused is remembered and owed and, with no hand edit, off.
   */
  ghost predicate TakenAway(s: State, steps: seq<Step>, id: RequestId)
    requires Legal(s, steps)
  {
    && var s', q, listed := After(s, steps), News(s, steps), Listed(s, steps);
      var asked, refused := AskedOff(q, id), RefusedOff(q, id);
      && id in s'.requests && s'.requests[id].phase == Done(true) && s'.active
      && listed - EverFlagged(s, steps) <= asked <= listed - AlwaysFlagged(s, steps)
      && refused <= asked
      && s'.owed == s.owed + (asked - refused)
      && s'.remembered == s.remembered + (asked - refused)
      && (HandsOff(steps) ==> s'.on == s.on - (asked - refused))
  }

  predicate Activates(s: State, id: RequestId) {
    s.lock == Held(id) && id in s.requests && s.requests[id].phase.EngineCall?
    && (if s.active then s.requests[id].kind.Reapply? else s.requests[id].kind.Activate?)
  }

  /** Not past reading Home Assistant's list. */
  predicate BeforeList(s: State, id: RequestId) { Activates(s, id) || (Enforces(s, id) && s.requests[id].phase.LoadOwed?) }

  lemma ActivatesGoesOn(s: State, step: Step, id: RequestId)
    requires Activates(s, id) && Enabled(s, step) && SmoothStep(step)
    ensures var s1, q := Apply(s, step), Added(s, step);
      && AskedOff(q, id) == RefusedOff(q, id) == {} && s1.remembered == s.remembered && s1.owed == s.owed
      && (!step.HandEdit? ==> s1.on == s.on) && id in s1.requests && !s1.requests[id].phase.Done?
      && BeforeList(s1, id) && !step.OwedLoaded? && !step.PassEnds?
  {
    AddedSets(s, step, id);
    hide AskedOn, RefusedOn, AskedOff, RefusedOff, Added;
  }

  /** A first step that leaves the row and asks for nothing. */
  lemma TakenAwayBefore(s: State, steps: seq<Step>, id: RequestId)
    requires Legal(s, steps) && steps != [] && !steps[0].OwedLoaded?
    requires var s1, q := Apply(s, steps[0]), Added(s, steps[0]);
      && AskedOff(q, id) == RefusedOff(q, id) == {} && s1.remembered == s.remembered && s1.owed == s.owed
      && (!steps[0].HandEdit? ==> s1.on == s.on) && TakenAway(s1, steps[1..], id)
    ensures TakenAway(s, steps, id)
  {
    hide AskedOff, RefusedOff, Apply, Enabled;
    var s1, q := Apply(s, steps[0]), Added(s, steps[0]);
    NewsSplit(s, steps);
    SetsConcat(q, News(s1, steps[1..]), id);
    assert HandsOff(steps) ==> HandsOff(steps[1..]);
    hide Added, News, HandsOff;
  }

  lemma {:induction false} ActivateRuns(s: State, steps: seq<Step>, id: RequestId)
    requires BeforeList(s, id) && Legal(s, steps) && Completes(s, steps, id) && Smooth(steps)
    requires steps[|steps| - 1].PassEnds?
    ensures TakenAway(s, steps, id)
    decreases |steps|
  {
    if Activates(s, id) {
      ActivatesGoesOn(s, steps[0], id);
      hide Activates, Enforces, Apply, Enabled, TakenAway, SmoothStep;
      ActivateRuns(Apply(s, steps[0]), steps[1..], id);
      TakenAwayBefore(s, steps, id);
    } else {
      EnforceRuns(s, steps, id, Listed(s, steps));
      hide AskedOff, RefusedOff, News, Legal, EverFlagged, AlwaysFlagged, Listed, After;
    }
  }

  /** Granted the lock with nothing newer asked for, and not refused by the engine. */
  predicate Proceeds(s: State, id: RequestId) {
    id in s.requests && s.requests[id].generation == s.generation
    && match s.requests[id].kind
       case Activate => !s.active
       case Reapply => s.active
       case Resume => s.active
       case _ => false
  }

  /**
   An activate, a re-apply or a start-up with a level active: one that gets
   through to the devices has switched off every automation it had to.
   */
  lemma ActivationEnforces(s: State, steps: seq<Step>, id: RequestId)
    requires Legal(s, steps) && Completes(s, steps, id) && Smooth(steps) && steps[0] == Acquire(id) && Proceeds(s, id)
    requires steps[|steps| - 1].PassEnds?
    ensures TakenAway(s, steps, id)
  {
    AcquireAdds(s, id);
    NewsSplit(s, steps);
    ActivateRuns(Apply(s, Acquire(id)), steps[1..], id);
  }

  /** And unless a deactivate or a stop is asked for meanwhile, it does get through. */
  lemma ActivationReachesDevices(s: State, steps: seq<Step>, id: RequestId)
    requires Legal(s, steps) && Completes(s, steps, id) && Smooth(steps) && steps[0] == Acquire(id) && Proceeds(s, id)
    requires Unsuperseded(steps)
    ensures steps[|steps| - 1].PassEnds?
  {
    ReachesDevices(Apply(s, Acquire(id)), steps[1..], id);
  }

  lemma StaysNewest(s: State, step: Step, id: RequestId)
    requires BeforeList(s, id) || Enforces(s, id)
    requires Enabled(s, step) && SmoothStep(step) && !Superseding(step) && s.requests[id].generation == s.generation
    ensures var s1 := Apply(s, step);
      id in s1.requests && s1.requests[id].generation == s1.generation
  {}

  lemma {:induction false} ReachesDevices(s: State, steps: seq<Step>, id: RequestId)
    requires BeforeList(s, id) || Enforces(s, id)
    requires s.requests[id].generation == s.generation
    requires Legal(s, steps) && Completes(s, steps, id) && Smooth(steps) && Unsuperseded(steps)
    ensures steps[|steps| - 1].PassEnds?
    decreases |steps|
  {
    var s1, step := Apply(s, steps[0]), steps[0];
    StaysNewest(s, step, id);
    if Activates(s, id) {
      ActivatesGoesOn(s, step, id);
    } else {
      EnforceGoesOn(s, step, id, s.on - s.remembered);
    }
    hide Activates, Apply, Enabled, Enforced, Enforces, SmoothStep, Superseding, Added, AskedOff, RefusedOff, AskedOn, RefusedOn;
    if steps[1..] == [] {
      if !step.PassEnds? && !Activates(s, id) {
        EnforcedIsUnderWay(s, s1, id, s.on - s.remembered, AskedOff(Added(s, step), id), RefusedOff(Added(s, step), id), step.HandEdit?);
      }
    } else {
      if !Activates(s, id) && Enforced(s, s1, id, s.on - s.remembered, AskedOff(Added(s, step), id), RefusedOff(Added(s, step), id), step.HandEdit?) {
        EnforcedIsUnderWay(s, s1, id, s.on - s.remembered, AskedOff(Added(s, step), id), RefusedOff(Added(s, step), id), step.HandEdit?);
      }
      ReachesDevices(s1, steps[1..], id);
    }
  }

  // -- how a request ends -------------------------------------------------------------

  predicate NoCrash(steps: seq<Step>) { forall i :: 0 <= i < |steps| ==> !steps[i].Crash? }

  /** The engine refused the request, or failed before its write. */
  predicate EngineSaysNo(steps: seq<Step>) { exists i :: 0 <= i < |steps| && steps[i] == EngineDone(NotWritten) }

  /** Superseded while waiting, a stop, or out of place at the current level. */
  predicate OutOfPlace(s: State, id: RequestId)
    requires id in s.requests
  {
    var r := s.requests[id];
    (Activating(r.kind) && r.generation != s.generation) || r.kind.Stop? || (r.kind.Activate? && s.active) || (r.kind.Reapply? && !s.active)
  }

  predicate SameLevel(s: State, s': State) { s'.active == s.active && s'.activator == s.activator }

  /** Past its engine call, or with none to make. */
  predicate Committed(s: State, id: RequestId) {
    s.lock == Held(id) && id in s.requests && Critical(s.requests[id].phase) && !s.requests[id].phase.EngineCall?
  }

  lemma CommittedGoesOn(s: State, step: Step, id: RequestId)
    requires Committed(s, id) && Enabled(s, step) && !step.Crash?
    ensures var s1 := Apply(s, step);
      SameLevel(s, s1) && id in s1.requests && (s1.requests[id].phase == Done(true) || Committed(s1, id))
    ensures step != EngineDone(NotWritten)
  {}

  lemma {:induction false} CommittedRuns(s: State, steps: seq<Step>, id: RequestId)
    requires Committed(s, id) && Legal(s, steps) && Completes(s, steps, id) && NoCrash(steps)
    ensures var s' := After(s, steps);
      SameLevel(s, s') && id in s'.requests && s'.requests[id].phase == Done(true) && !EngineSaysNo(steps)
    decreases |steps|
  {
    CommittedGoesOn(s, steps[0], id);
    var s1 := Apply(s, steps[0]);
    hide Enabled, Apply;
    if steps[1..] == [] {
      assert steps == [steps[0]];
    } else {
      assert Committed(s1, id);
      CommittedRuns(s1, steps[1..], id);
      assert steps == [steps[0]] + steps[1..];
    }
  }

  predicate Calling(s: State, id: RequestId) { s.lock == Held(id) && id in s.requests && s.requests[id].phase.EngineCall? }

  /** What the engine call leaves of the level. */
  predicate LevelSet(s: State, s': State, id: RequestId)
    requires id in s.requests
  {
    match s.requests[id].kind
    case Activate => s'.active && s'.activator == s.requests[id].generation
    case Deactivate => !s'.active
    case _ => SameLevel(s, s')
  }

  predicate SameHome(s: State, s': State) { SameLevel(s, s') && s'.remembered == s.remembered && s'.owed == s.owed }

  lemma CallingGoesOn(s: State, step: Step, id: RequestId)
    requires Calling(s, id) && Enabled(s, step) && !step.Crash? && !s.requests[id].kind.Stop? && !s.requests[id].kind.Resume?
    ensures var s1 := Apply(s, step);
      && id in s1.requests && s1.requests[id].kind == s.requests[id].kind && s1.requests[id].generation == s.requests[id].generation
      && (!step.EngineDone? ==> Calling(s1, id) && SameHome(s, s1))
    ensures step.EngineDone? ==>
      var s1 := Apply(s, step);
      if step.result.NotWritten? || (s.requests[id].kind.Activate? && s.active) || (s.requests[id].kind.Reapply? && !s.active)
      then s1.requests[id].phase == Done(false) && SameHome(s, s1)
      else (s1.requests[id].phase == Done(true) || Committed(s1, id)) && LevelSet(s, s1, id)
  {}

  /** Request id ends having changed nothing, or with the level its kind asks for. */
  ghost predicate Ended(s: State, steps: seq<Step>, id: RequestId)
    requires Legal(s, steps) && id in s.requests
  {
    var s' := After(s, steps);
    && id in s'.requests && s'.requests[id].phase.Done?
    && (s'.requests[id].phase.committed <==> !OutOfPlace(s, id) && !EngineSaysNo(steps))
    && (if s'.requests[id].phase.committed then LevelSet(s, s', id) else SameHome(s, s'))
  }

  lemma {:induction false} CallingRuns(s: State, steps: seq<Step>, id: RequestId)
    requires Calling(s, id) && Legal(s, steps) && Completes(s, steps, id) && NoCrash(steps)
    requires !s.requests[id].kind.Stop? && !s.requests[id].kind.Resume?
    ensures var s', r := After(s, steps), s.requests[id];
      var no := EngineSaysNo(steps) || (r.kind.Activate? && s.active) || (r.kind.Reapply? && !s.active);
      && id in s'.requests && s'.requests[id].phase == Done(!no) && (if no then SameHome(s, s') else LevelSet(s, s', id))
    decreases |steps|
  {
    var s1, step := Apply(s, steps[0]), steps[0];
    CallingGoesOn(s, step, id);
    hide Enabled, Apply, Committed;
    assert steps == [step] + steps[1..];
    if !step.EngineDone? {
      assert EngineSaysNo(steps) <==> EngineSaysNo(steps[1..]) by { assert forall i :: 0 <= i < |steps[1..]| ==> steps[1..][i] == steps[i + 1]; }
      CallingRuns(s1, steps[1..], id);
    } else if s1.requests[id].phase.Done? {
      assert steps[1..] == [];
    } else {
      CommittedRuns(s1, steps[1..], id);
    }
  }

  /**
   Every request, however it is interleaved: granted the lock, it commits exactly
   if it is in place and the engine wrote, leaves the level its kind asks for
   then, and otherwise changes nothing.
   */
  lemma RequestEnds(s: State, steps: seq<Step>, id: RequestId)
    requires Legal(s, steps) && Completes(s, steps, id) && NoCrash(steps) && steps[0] == Acquire(id)
    ensures Ended(s, steps, id)
  {
    var s1, r := Apply(s, steps[0]), s.requests[id];
    assert steps == [steps[0]] + steps[1..];
    assert EngineSaysNo(steps) <==> EngineSaysNo(steps[1..]) by { assert forall i :: 0 <= i < |steps[1..]| ==> steps[1..][i] == steps[i + 1]; }
    if (Activating(r.kind) && r.generation != s.generation) || r.kind.Stop? {
      assert s1.requests[id].phase == Done(false);
    } else if r.kind.Resume? {
      CommittedRuns(s1, steps[1..], id);
    } else {
      CallingRuns(s1, steps[1..], id);
    }
  }

  /** A call or write that raises. */
  predicate Raises(step: Step) {
    step == OffSaved(false) || step == OnSaved(false) || (step.EngineDone? && !step.result.Written?)
  }

  /** A raise ends the request where it is: the lock goes, and no automation is asked for, switched or forgotten any more. */
  lemma RaisingEnds(s: State, id: RequestId, step: Step)
    requires s.lock == Held(id) && id in s.requests && Enabled(s, step) && Raises(step)
    ensures var s', q := Apply(s, step), Added(s, step);
      && id in s'.requests && s'.requests[id].phase.Done? && s'.lock == Free
      && s'.on == s.on && s'.remembered == s.remembered && s'.owed == s.owed
      && AskedOn(q, id) == AskedOff(q, id) == {}
  {
    RaisingStops(s, id, step);
    AddedSets(s, step, id);
    hide *;
  }

  lemma RaisingStops(s: State, id: RequestId, step: Step)
    requires s.lock == Held(id) && id in s.requests && Enabled(s, step) && Raises(step)
    ensures var s' := Apply(s, step);
      && id in s'.requests && s'.requests[id].phase.Done? && s'.lock == Free
      && s'.on == s.on && s'.remembered == s.remembered && s'.owed == s.owed
    ensures !step.WantedCheck? && !step.OnIssues? && !step.Crash?
  {}

  /** A rule outside the lock sends its command exactly while a level is active. */
  lemma RuleSends(s: State)
    ensures Apply(s, RuleIssues) == if s.active then Note(s, RuleCommand) else s
  {}
}
