/**
 The alarm and its adapter as an interleaving protocol: sensor edges, arm and
 disarm calls, a timer that may fire early or late, change events, failing
 writes and restarts, in any order, on a wall clock that may step back. No order
 loses a running entry delay.
 */
module AlarmProtocol {
  import opened Documents
  import opened Wrappers
  import opened AlarmEngine

  type TaskId = nat

  datatype Call = ArmCall(as_: ArmMode, exitDelay: nat, entryDelay: nat) | DisarmCall

  /** Work under way besides the timer. */
  datatype Task =
    | Evaluate(entity: string, offline: bool, active: bool)   // an edge on its way to the engine
    | Evaluated(event: Option<Event>)                          // its answer on its way back
    | Tick
    | TickDone(event: Option<Event>)
    | Calling(call: Call)
    | Called
    | Changed                                                  // a change event on the bus

  datatype State = State(
    alarm: Alarm,
    row: Row,
    timer: bool,                  // an entry-delay timer is live
    tasks: map<TaskId, Task>)

  datatype Step =
    | Edge(id: TaskId, entity: string, offline: bool, active: bool)
    | Request(id: TaskId, call: Call)
    | RunEvaluate(id: TaskId, zone: Option<Zone>, at: real, ok: bool)   // zone: the sensor's assignment just then
    | RunTick(id: TaskId, at: real, ok: bool)
    | RunCall(id: TaskId, at: real, ok: bool)
    | TimerFires(id: TaskId)
    | Back(id: TaskId)            // an executor job's result reaches the loop
    | Hear(id: TaskId)            // the adapter hears a change event
    | Restart(at: real, ok: bool)

  predicate Enabled(s: State, step: Step) {
    match step
    case Edge(id, _, _, _) => id !in s.tasks
    case Request(id, _) => id !in s.tasks
    case RunEvaluate(id, _, _, _) => id in s.tasks && s.tasks[id].Evaluate?
    case RunTick(id, _, _) => id in s.tasks && s.tasks[id].Tick?
    case RunCall(id, _, _) => id in s.tasks && s.tasks[id].Calling?
    case TimerFires(id) => s.timer && id !in s.tasks
    case Back(id) => id in s.tasks && (s.tasks[id].Evaluated? || s.tasks[id].TickDone? || s.tasks[id].Called?)
    case Hear(id) => id in s.tasks && s.tasks[id].Changed?
    case Restart(_, _) => true
  }

  function Put(s: State, id: TaskId, t: Task): State { s.(tasks := s.tasks[id := t]) }

  /** The engine moved to b and tried to save it. */
  function Moved(s: State, b: Alarm, ok: bool): State { s.(alarm := b, row := if ok then RowOf(b) else s.row) }

  /** _sync_pending_timer. */
  function Synced(s: State): State { s.(timer := s.alarm.mode.Pending?) }

  function EvaluateApply(s: State, id: TaskId, zone: Option<Zone>, at: real, ok: bool): State
    requires id in s.tasks && s.tasks[id].Evaluate?
  {
    var t := s.tasks[id];
    if zone.None? then Put(s, id, Evaluated(None))
    else if t.offline then
      Put(s, id, Evaluated(if s.alarm.mode.Disarmed? then None else Some(Event(TamperKind, at, Some(t.entity)))))
    else
      var next := if t.active then Sensed(s.alarm, t.entity, zone.value, at) else None;
      if next.None? then Put(s, id, Evaluated(None))
      else Put(Moved(s, next.value.0, ok), id, Evaluated(Some(next.value.1)))
  }

  function TickApply(s: State, id: TaskId, at: real, ok: bool): State {
    var next := Ticked(s.alarm, at);
    if next.None? then Put(s, id, TickDone(None))
    else Put(Moved(s, next.value.0, ok), id, TickDone(Some(next.value.1)))
  }

  function CallApply(s: State, id: TaskId, at: real, ok: bool): State
    requires id in s.tasks && s.tasks[id].Calling?
  {
    var b := match s.tasks[id].call
      case ArmCall(m, exitDelay, entryDelay) => ArmedTo(s.alarm, m, exitDelay, entryDelay, at)
      case DisarmCall => DisarmedAt(s.alarm, at);
    Put(Moved(s, b, ok), id, Called)
  }

  /** _react, the rest of _run_tick, or the view after its call. */
  function BackApply(s: State, id: TaskId): State
    requires id in s.tasks
  {
    match s.tasks[id]
    case Evaluated(event) => if event.None? then s.(tasks := s.tasks - {id}) else Put(s, id, Changed)
    // An early timer: the engine had nothing to do yet, so arm it again.
    case TickDone(event) => if event.None? then Synced(s.(tasks := s.tasks - {id})) else Put(s, id, Changed)
    case _ => Put(s, id, Changed)
  }

  function Apply(s: State, step: Step): State
    requires Enabled(s, step)
  {
    match step
    case Edge(id, entity, offline, active) => Put(s, id, Evaluate(entity, offline, active))
    case Request(id, call) => Put(s, id, Calling(call))
    case RunEvaluate(id, zone, at, ok) => EvaluateApply(s, id, zone, at, ok)
    case RunTick(id, at, ok) => TickApply(s, id, at, ok)
    case RunCall(id, at, ok) => CallApply(s, id, at, ok)
    case TimerFires(id) => Put(s.(timer := false), id, Tick)
    case Back(id) => BackApply(s, id)
    case Hear(id) => Synced(s.(tasks := s.tasks - {id}))
    case Restart(at, ok) =>
      var b := WarmedUp(s.row, at);
      Synced(State(b, if Coerce(s.row).mode.Pending? && ok then RowOf(b) else s.row, false, map[]))
  }

  predicate Legal(s: State, steps: seq<Step>)
    decreases |steps|
  {
    steps == [] || (Enabled(s, steps[0]) && Legal(Apply(s, steps[0]), steps[1..]))
  }

  function After(s: State, steps: seq<Step>): State
    requires Legal(s, steps)
    decreases |steps|
  {
    if steps == [] then s else After(Apply(s, steps[0]), steps[1..])
  }

  // -- an entry delay always has a wake-up ------------------------------------------------

  /** How many hand-overs a task is from the engine's tick; 0 for one that leads nowhere. */
  function Rank(t: Task): nat {
    match t
    case Tick => 1
    case Changed => 3
    case TickDone(event) => if event.None? then 3 else 4
    case Evaluated(event) => if event.None? then 0 else 4
    case Called => 4
    case _ => 0
  }

  ghost predicate Ranked(s: State, k: nat) { exists id :: id in s.tasks && Rank(s.tasks[id]) == k }

  ghost predicate WakeUp(s: State) { s.timer || Ranked(s, 1) || Ranked(s, 3) || Ranked(s, 4) }

  ghost predicate Inv(s: State) { s.alarm.mode.Pending? ==> WakeUp(s) }

  /** Distance from the tick of the nearest wake-up. */
  ghost function Distance(s: State): nat { if Ranked(s, 1) then 1 else if s.timer then 2 else if Ranked(s, 3) then 3 else 4 }

  /** The step is about this piece of work. */
  predicate About(step: Step, id: TaskId) { !step.Restart? && step.id == id }

  lemma OthersStay(s: State, step: Step, id: TaskId)
    requires Enabled(s, step) && id in s.tasks && !About(step, id) && !step.Restart?
    ensures id in Apply(s, step).tasks && Apply(s, step).tasks[id] == s.tasks[id]
  {}

  lemma RankedStays(s: State, step: Step, k: nat)
    requires Enabled(s, step) && Ranked(s, k) && !step.Restart?
    ensures Ranked(Apply(s, step), k) || (step.id in s.tasks && Rank(s.tasks[step.id]) == k)
  {
    var id :| id in s.tasks && Rank(s.tasks[id]) == k;
    if !About(step, id) { OthersStay(s, step, id); }
  }

  lemma StepKeepsWakeUp(s: State, step: Step)
    requires Enabled(s, step) && Inv(s)
    ensures Inv(Apply(s, step))
  {
    var s' := Apply(s, step);
    if s'.alarm.mode.Pending? && !step.Restart? && !s'.timer {
      assert step.id in s'.tasks && Rank(s'.tasks[step.id]) != 0 ==> Ranked(s', Rank(s'.tasks[step.id]));
      if s.alarm.mode.Pending? {
        if Ranked(s, 1) { RankedStays(s, step, 1); }
        if Ranked(s, 3) { RankedStays(s, step, 3); }
        if Ranked(s, 4) { RankedStays(s, step, 4); }
      }
    }
  }

  /** In every interleaving, a pending alarm has a live timer, a tick, or a result or change event that will set one. */
  lemma {:induction false} PendingHasWakeUp(s: State, steps: seq<Step>)
    requires Inv(s) && Legal(s, steps)
    ensures Inv(After(s, steps))
    decreases |steps|
  {
    if steps != [] {
      StepKeepsWakeUp(s, steps[0]);
      PendingHasWakeUp(Apply(s, steps[0]), steps[1..]);
    }
  }

  // -- only arming or disarming prevents it ---------------------------------------------------

  /** No arm or disarm reaches the engine. */
  predicate Unanswered(steps: seq<Step>) { forall i :: 0 <= i < |steps| ==> !steps[i].RunCall? }

  ghost predicate StillOn(a: Alarm, b: Alarm) {
    b.mode.Triggered? || (b.mode.Pending? && b.deadline == a.deadline && b.entity == a.entity)
  }

  lemma StepStaysOn(s: State, step: Step, a: Alarm)
    requires Enabled(s, step) && !step.RunCall?
    requires StillOn(a, s.alarm) && StillOn(a, Coerce(s.row))
    ensures StillOn(a, Apply(s, step).alarm) && StillOn(a, Coerce(Apply(s, step).row))
  {}

  /** A saved countdown, restarts and failing writes included, stays on or has gone off unless someone arms or disarms. */
  lemma {:induction false} OnlyACallStopsIt(s: State, steps: seq<Step>)
    requires s.alarm.mode.Pending? && s.row == RowOf(s.alarm) && Legal(s, steps) && Unanswered(steps)
    ensures StillOn(s.alarm, After(s, steps).alarm)
  {
    StaysOn(s, steps, s.alarm);
  }

  lemma {:induction false} StaysOn(s: State, steps: seq<Step>, a: Alarm)
    requires Legal(s, steps) && Unanswered(steps) && StillOn(a, s.alarm) && StillOn(a, Coerce(s.row))
    ensures StillOn(a, After(s, steps).alarm)
    decreases |steps|
  {
    if steps != [] {
      StepStaysOn(s, steps[0], a);
      StaysOn(Apply(s, steps[0]), steps[1..], a);
    }
  }

  /** A restart sounds the alarm exactly when the stored row was pending or already triggered. */
  lemma RestartSounds(s: State, at: real, ok: bool)
    ensures Apply(s, Restart(at, ok)).alarm.mode.Triggered? <==> Coerce(s.row).mode.Pending? || Coerce(s.row).mode.Triggered?
    ensures !Apply(s, Restart(at, ok)).alarm.mode.Pending?
    ensures ok ==> Coerce(Apply(s, Restart(at, ok)).row).mode == Apply(s, Restart(at, ok)).alarm.mode
  {}

  /** An edge of a zone's sensor does in the protocol what it does in the engine, and its answer goes back; an offline one only reports tamper. */
  lemma EdgesReachTheEngine(s: State, id: TaskId, entity: string, offline: bool, active: bool, zone: Zone, at: real, ok: bool)
    requires id in s.tasks && s.tasks[id] == Evaluate(entity, offline, active)
    ensures var s', a := Apply(s, RunEvaluate(id, Some(zone), at, ok)), s.alarm;
      && id in s'.tasks && s'.tasks[id].Evaluated?
      && (offline ==> s'.alarm == a && s'.row == s.row && (s'.tasks[id].event.Some? <==> a.mode != Disarmed))
      && (!offline && active && zone == LifeSafety ==> SoundsFor(s'.alarm, entity, zone, at) && s'.tasks[id].event.Some?)
      && (!offline && zone != LifeSafety ==>
            if active && a.mode.Armed? && at >= a.activeAt && Trips(a.mode.as_, zone) then
              && s'.tasks[id].event.Some?
              && (if zone == Entry then CountsDown(s'.alarm, entity, at, at + a.entryDelay as real) else SoundsFor(s'.alarm, entity, zone, at))
            else s'.alarm == a && s'.tasks[id].event.None?)
  {}

  /** Calls are obeyed from every state. */
  lemma CallsAreObeyed(s: State, id: TaskId, call: Call, at: real, ok: bool)
    requires id in s.tasks && s.tasks[id] == Calling(call)
    ensures var b := Apply(s, RunCall(id, at, ok)).alarm;
      match call
      case ArmCall(m, exitDelay, entryDelay) => b.mode == Armed(m) && b.activeAt == at + exitDelay as real && b.entryDelay == entryDelay
      case DisarmCall => b.mode == Disarmed
  {}

  /** An active life-safety sensor's evaluation, in any mode, and everything after it but an arm, a disarm or an unsaved restart. */
  lemma LifeSafetySounds(s: State, id: TaskId, entity: string, at: real, ok: bool, steps: seq<Step>)
    requires id in s.tasks && s.tasks[id] == Evaluate(entity, false, true)
    requires var s1 := Apply(s, RunEvaluate(id, Some(LifeSafety), at, ok));
      Legal(s1, steps) && Unanswered(steps) && (ok || NoRestart(steps))
    ensures After(Apply(s, RunEvaluate(id, Some(LifeSafety), at, ok)), steps).alarm.mode == Triggered
  {
    var s1 := Apply(s, RunEvaluate(id, Some(LifeSafety), at, ok));
    KeepsSounding(s1, steps, ok);
  }

  predicate NoRestart(steps: seq<Step>) { forall i :: 0 <= i < |steps| ==> !steps[i].Restart? }

  lemma {:induction false} KeepsSounding(s: State, steps: seq<Step>, saved: bool)
    requires s.alarm.mode.Triggered? && (saved ==> Coerce(s.row).mode.Triggered?)
    requires Legal(s, steps) && Unanswered(steps) && (saved || NoRestart(steps))
    ensures After(s, steps).alarm.mode.Triggered?
    decreases |steps|
  {
    if steps != [] { KeepsSounding(Apply(s, steps[0]), steps[1..], saved); }
  }

  /** Still counting down, or gone off in its time, or for life safety. */
  ghost predicate NotEarly(a: Alarm, deadline: real) {
    (a.mode.Pending? && a.deadline == deadline) || (a.mode.Triggered? && (a.since >= deadline || a.zone == Some(LifeSafety)))
  }

  /** Nothing but life safety cuts a countdown short. */
  lemma {:induction false} NeverEarly(s: State, steps: seq<Step>, deadline: real)
    requires Legal(s, steps) && Undisturbed(steps) && NotEarly(s.alarm, deadline)
    ensures NotEarly(After(s, steps).alarm, deadline)
    decreases |steps|
  {
    if steps != [] { NeverEarly(Apply(s, steps[0]), steps[1..], deadline); }
  }

  // -- an overdue alarm goes off ----------------------------------------------------------------

  /** The step carries the nearest wake-up on. */
  ghost predicate Serves(s: State, step: Step) {
    if Distance(s) == 2 then step.TimerFires?
    else !step.Restart? && !step.Edge? && !step.Request? && !step.TimerFires? && step.id in s.tasks && Rank(s.tasks[step.id]) == Distance(s)
  }

  ghost predicate Counting(s: State, deadline: real) { s.alarm.mode.Pending? && s.alarm.deadline == deadline && Inv(s) }

  /** Every tick of the run reads a clock at or past the deadline, whatever other readings it takes. */
  predicate TicksPast(steps: seq<Step>, deadline: real) {
    forall i :: 0 <= i < |steps| && steps[i].RunTick? ==> steps[i].at >= deadline
  }

  lemma OverdueStep(s: State, step: Step, deadline: real)
    requires Counting(s, deadline) && Enabled(s, step) && !step.RunCall? && !step.Restart?
    requires step.RunTick? ==> step.at >= deadline
    ensures var s' := Apply(s, step);
      s'.alarm.mode.Triggered?
      || (Counting(s', deadline) && Distance(s') <= Distance(s) && (Serves(s, step) ==> Distance(s') < Distance(s)))
  {
    var s' := Apply(s, step);
    StepKeepsWakeUp(s, step);
    assert step.id in s'.tasks && Rank(s'.tasks[step.id]) != 0 ==> Ranked(s', Rank(s'.tasks[step.id]));
    if Ranked(s, 1) { RankedStays(s, step, 1); }
    if Ranked(s, 3) { RankedStays(s, step, 3); }
    if Ranked(s, 4) { RankedStays(s, step, 4); }
  }

  /** There is always a step that carries the nearest wake-up on. */
  lemma SomethingServes(s: State, deadline: real) returns (step: Step)
    requires Counting(s, deadline)
    ensures Enabled(s, step) && Serves(s, step) && Undisturbed([step]) && TicksPast([step], deadline)
  {
    if Distance(s) == 2 {
      var id := Fresh(s.tasks.Keys);
      step := TimerFires(id);
    } else {
      var id :| id in s.tasks && Rank(s.tasks[id]) == Distance(s);
      step := if s.tasks[id].Tick? then RunTick(id, deadline, true) else if s.tasks[id].Changed? then Hear(id) else Back(id);
    }
  }

  lemma {:induction false} Fresh(used: set<TaskId>) returns (id: TaskId)
    ensures forall x :: x in used ==> x < id
    decreases used
  {
    if used == {} {
      id := 0;
    } else {
      var x :| x in used;
      var y := Fresh(used - {x});
      id := if x < y then y else x + 1;
      forall z | z in used ensures z < id { assert z == x || z in used - {x}; }
    }
  }

  ghost function Served(s: State, steps: seq<Step>): nat
    requires Legal(s, steps)
    decreases |steps|
  {
    if steps == [] then 0
    else (if Serves(s, steps[0]) then 1 else 0) + Served(Apply(s, steps[0]), steps[1..])
  }

  /** No arm or disarm reaches the engine and the hub stays up. */
  predicate Undisturbed(steps: seq<Step>) { forall i :: 0 <= i < |steps| ==> !steps[i].RunCall? && !steps[i].Restart? }

  /** Where ticks read a clock past the deadline, the alarm has gone off once the nearest wake-up has been carried on four times at most. */
  lemma {:induction false} OverdueGoesOff(s: State, steps: seq<Step>, deadline: real)
    requires Counting(s, deadline) && Legal(s, steps) && Undisturbed(steps) && TicksPast(steps, deadline)
    requires Served(s, steps) >= Distance(s)
    ensures After(s, steps).alarm.mode.Triggered? && Distance(s) <= 4
    decreases |steps|
  {
    OverdueStep(s, steps[0], deadline);
    var s1 := Apply(s, steps[0]);
    if s1.alarm.mode.Triggered? {
      StaysTriggered(s1, steps[1..]);
    } else {
      OverdueGoesOff(s1, steps[1..], deadline);
    }
  }

  lemma {:induction false} StaysTriggered(s: State, steps: seq<Step>)
    requires s.alarm.mode.Triggered? && Legal(s, steps) && Undisturbed(steps)
    ensures After(s, steps).alarm.mode.Triggered?
    decreases |steps|
  {
    if steps != [] { StaysTriggered(Apply(s, steps[0]), steps[1..]); }
  }
}
