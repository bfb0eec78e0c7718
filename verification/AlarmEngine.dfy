/**
 The burglar alarm's arm state machine and its bounded event history. A failed
 write is logged and the alarm runs on with the state in memory.
 */
module AlarmEngine {
  import opened Documents
  import opened Wrappers

  datatype Zone = Perimeter | Interior | Entry | LifeSafety

  datatype ArmMode = Away | Home | Night

  datatype Mode = Disarmed | Armed(as_: ArmMode) | Pending | Triggered

  const DEFAULT_ENTRY_DELAY := 30
  const MAX_DELAY := 600
  const MAX_HISTORY := 1000
  const RETENTION := 7776000.0   // 90 days

  datatype Alarm = Alarm(
    mode: Mode,
    since: real,
    activeAt: real,            // edges before this are in the exit delay
    deadline: real,            // end of the entry delay
    armedMode: Option<ArmMode>,
    entity: Option<string>,
    zone: Option<Zone>,
    entryDelay: int)

  const DEFAULT := Alarm(Disarmed, 0.0, 0.0, 0.0, None, None, None, DEFAULT_ENTRY_DELAY)

  datatype Kind = ArmedKind | DisarmedKind | EntryDelayKind | TriggeredKind | TamperKind | LifeSafetyKind

  datatype Event = Event(kind: Kind, at: real, entity: Option<string>)

  predicate Watches(m: ArmMode, z: Zone) {
    match m
    case Away => !z.LifeSafety?
    case Home => z.Perimeter?
    case Night => z.Perimeter? || z.Entry?
  }

  // -- transitions ------------------------------------------------------------------

  function ArmedTo(a: Alarm, m: ArmMode, exitDelay: int, entryDelay: int, now: real): Alarm {
    Alarm(Armed(m), now, now + exitDelay as real, 0.0, None, None, None, entryDelay)
  }

  function DisarmedAt(a: Alarm, now: real): Alarm { Alarm(Disarmed, now, 0.0, 0.0, None, None, None, a.entryDelay) }

  function PendingBy(a: Alarm, entity: string, now: real): Alarm
    requires a.mode.Armed?
  {
    a.(mode := Pending, since := now, armedMode := Some(a.mode.as_), deadline := now + a.entryDelay as real,
       entity := Some(entity), zone := Some(Entry))
  }

  function TriggeredBy(a: Alarm, entity: Option<string>, zone: Option<Zone>, now: real): Alarm {
    a.(mode := Triggered, since := now, deadline := 0.0, entity := entity, zone := zone)
  }

  /** An active sensor of this zone: the next state and the event, or None for an edge that changes nothing. */
  function Sensed(a: Alarm, entity: string, zone: Zone, now: real): Option<(Alarm, Event)> {
    if zone.LifeSafety? then Some((TriggeredBy(a, Some(entity), Some(zone), now), Event(LifeSafetyKind, now, Some(entity))))
    else if !a.mode.Armed? || now < a.activeAt || !Watches(a.mode.as_, zone) then None
    else if zone.Entry? then Some((PendingBy(a, entity, now), Event(EntryDelayKind, now, Some(entity))))
    else Some((TriggeredBy(a, Some(entity), Some(zone), now), Event(TriggeredKind, now, Some(entity))))
  }

  function Ticked(a: Alarm, now: real): Option<(Alarm, Event)> {
    if !a.mode.Pending? || now < a.deadline then None
    else Some((TriggeredBy(a, a.entity, a.zone, now), Event(TriggeredKind, now, a.entity)))
  }

  /** The sensor sets an armed alarm off or counting: perimeter in every mode, interior when away, entries but at home. */
  predicate Trips(m: ArmMode, zone: Zone) {
    match zone
    case Perimeter => true
    case Interior => m == Away
    case Entry => m != ArmMode.Home
    case LifeSafety => true
  }

  predicate SoundsFor(b: Alarm, entity: string, zone: Zone, now: real) {
    b.mode == Triggered && b.since == now && b.entity == Some(entity) && b.zone == Some(zone)
  }

  predicate CountsDown(b: Alarm, entity: string, now: real, deadline: real) {
    b.mode == Pending && b.since == now && b.entity == Some(entity) && b.zone == Some(Entry) && b.deadline == deadline
  }

  /**
   What an active sensor does, zone by zone: life safety sounds at once in any
   mode; while armed and past the exit delay a zone of the mode sounds, an entry
   starts its countdown; nothing else changes anything.
   */
  lemma EdgeTable(a: Alarm, entity: string, zone: Zone, now: real)
    ensures var next := Sensed(a, entity, zone, now);
      if zone == LifeSafety then
        next.Some? && SoundsFor(next.value.0, entity, zone, now) && next.value.1 == Event(LifeSafetyKind, now, Some(entity))
      else if a.mode.Armed? && now >= a.activeAt && Trips(a.mode.as_, zone) then
        if zone == Entry then
          next.Some? && CountsDown(next.value.0, entity, now, now + a.entryDelay as real)
          && next.value.0.armedMode == Some(a.mode.as_) && next.value.1 == Event(EntryDelayKind, now, Some(entity))
        else
          next.Some? && SoundsFor(next.value.0, entity, zone, now) && next.value.1 == Event(TriggeredKind, now, Some(entity))
      else
        next.None?
  {}

  /** Armed at t0 and tripped at t1, the exit delay over, the alarm sounds at t2 for that sensor exactly if the entry delay is over. */
  lemma EntryGetsItsDelay(a: Alarm, m: ArmMode, exitDelay: int, entryDelay: int, entity: string, t0: real, t1: real, t2: real)
    requires m != ArmMode.Home
    ensures var armed := ArmedTo(a, m, exitDelay, entryDelay, t0);
      var tripped := Sensed(armed, entity, Entry, t1);
      && (tripped.Some? <==> t1 >= t0 + exitDelay as real)
      && (tripped.Some? ==>
            var over := Ticked(tripped.value.0, t2);
            && (over.Some? <==> t2 >= t1 + entryDelay as real)
            && (over.Some? ==> SoundsFor(over.value.0, entity, Entry, t2) && over.value.1 == Event(TriggeredKind, t2, Some(entity))))
  {}

  /** Armed, the exit delay only holds back zones other than life safety; disarmed, only life safety is left. */
  lemma ArmingTakesHold(a: Alarm, m: ArmMode, exitDelay: int, entryDelay: int, entity: string, zone: Zone, t0: real, t1: real)
    ensures Sensed(ArmedTo(a, m, exitDelay, entryDelay, t0), entity, zone, t1).Some?
      <==> zone == LifeSafety || (t1 >= t0 + exitDelay as real && Trips(m, zone))
    ensures Sensed(DisarmedAt(a, t0), entity, zone, t1).Some? <==> zone == LifeSafety
    ensures Ticked(ArmedTo(a, m, exitDelay, entryDelay, t0), t1).None? && Ticked(DisarmedAt(a, t0), t1).None?
  {}

  // -- storage --------------------------------------------------------------------------

  /** The stored row, each field there and usable or not. */
  datatype Row = NoRow | Row(
    mode: Option<Mode>,
    since: Option<real>,
    activeAt: Option<real>,
    deadline: Option<real>,
    armedMode: Option<ArmMode>,
    entity: Option<string>,
    zone: Option<Zone>,
    entryDelay: Option<int>)

  function Or<T>(field: Option<T>, default: T): T { if field.Some? then field.value else default }

  function Coerce(row: Row): Alarm {
    if row.NoRow? then DEFAULT
    else Alarm(Or(row.mode, Disarmed), Or(row.since, 0.0), Or(row.activeAt, 0.0), Or(row.deadline, 0.0),
               row.armedMode, row.entity, row.zone, Or(row.entryDelay, DEFAULT_ENTRY_DELAY))
  }

  function RowOf(a: Alarm): Row {
    Row(Some(a.mode), Some(a.since), Some(a.activeAt), Some(a.deadline), a.armedMode, a.entity, a.zone, Some(a.entryDelay))
  }

  /** warm_up: a countdown cut off by the restart has gone off. */
  function WarmedUp(row: Row, now: real): Alarm {
    var a := Coerce(row);
    if a.mode.Pending? then TriggeredBy(a, a.entity, a.zone, now) else a
  }

  /** A restart rebuilds what was stored, but for a running entry delay, which has gone off for the same sensor. */
  lemma RestartFailsSecure(a: Alarm, now: real)
    ensures var b := WarmedUp(RowOf(a), now);
      && (!a.mode.Pending? ==> b == a)
      && (a.mode.Pending? ==> b.mode.Triggered? && b.entity == a.entity && b.zone == a.zone)
  {}

  // -- history ----------------------------------------------------------------------------

  function Since(log: seq<Event>, cutoff: real): seq<Event> {
    if log == [] then []
    else Since(log[..|log| - 1], cutoff) + (if log[|log| - 1].at >= cutoff then [log[|log| - 1]] else [])
  }

  function LastOf(log: seq<Event>, n: nat): seq<Event> { if |log| <= n then log else log[|log| - n..] }

  /** What one append keeps. */
  function Windowed(log: seq<Event>, now: real): seq<Event> { LastOf(Since(log, now - RETENTION), MAX_HISTORY) }

  /** The stored history after these events, each recorded and trimmed in its turn. */
  function Recorded(events: seq<Event>): seq<Event> {
    if events == [] then []
    else
      var e := events[|events| - 1];
      Windowed(Recorded(events[..|events| - 1]) + [e], e.at)
  }

  predicate InOrder(log: seq<Event>) { forall i, k :: 0 <= i < k < |log| ==> log[i].at <= log[k].at }

  /** From k on everything is recent, and before it nothing is. */
  ghost predicate RecentFrom(log: seq<Event>, cutoff: real, k: nat) {
    && k <= |log|
    && (forall i :: 0 <= i < k ==> log[i].at < cutoff)
    && (forall i :: k <= i < |log| ==> log[i].at >= cutoff)
  }

  lemma RecentStep(log: seq<Event>, cutoff: real, j: nat) returns (k: nat)
    requires log != [] && InOrder(log) && RecentFrom(log[..|log| - 1], cutoff, j)
    ensures RecentFrom(log, cutoff, k)
    ensures k == if log[|log| - 1].at >= cutoff then j else |log|
    ensures log[|log| - 1].at < cutoff ==> j == |log| - 1
  {
    var init, last := log[..|log| - 1], log[|log| - 1];
    assert forall i :: 0 <= i < |init| ==> init[i] == log[i] && log[i].at <= last.at;
    assert j < |init| ==> log[j].at >= cutoff;
    k := if last.at >= cutoff then j else |log|;
  }

  /** Events in order: the recent ones are the end of the log. */
  lemma {:induction false} SinceIsSuffix(log: seq<Event>, cutoff: real) returns (k: nat)
    requires InOrder(log)
    ensures RecentFrom(log, cutoff, k) && Since(log, cutoff) == log[k..]
  {
    if log == [] {
      k := 0;
    } else {
      var init, last := log[..|log| - 1], log[|log| - 1];
      InOrderParts(log, 0);
      var j := SinceIsSuffix(init, cutoff);
      k := RecentStep(log, cutoff, j);
      hide InOrder;
      if last.at >= cutoff { SuffixGrows(log, j); }
    }
  }

  lemma SuffixGrows(log: seq<Event>, j: nat)
    requires j < |log|
    ensures log[j..] == log[..|log| - 1][j..] + [log[|log| - 1]]
  {}

  /** The entries from k on are those the window at now keeps. */
  ghost predicate Cut(log: seq<Event>, now: real, k: nat) {
    && k <= |log|
    && (forall i :: 0 <= i < k ==> log[i].at < now - RETENTION || i < |log| - MAX_HISTORY)
    && (forall i :: k <= i < |log| ==> log[i].at >= now - RETENTION && i >= |log| - MAX_HISTORY)
  }

  lemma WindowIsCut(log: seq<Event>, now: real) returns (k: nat)
    requires InOrder(log)
    ensures Cut(log, now, k) && Windowed(log, now) == log[k..]
  {
    var j := SinceIsSuffix(log, now - RETENTION);
    k := if |log| - j <= MAX_HISTORY then j else |log| - MAX_HISTORY;
  }

  lemma CutIsUnique(log: seq<Event>, now: real, j: nat, k: nat)
    requires Cut(log, now, j) && Cut(log, now, k)
    ensures j == k
  {
    assert j < |log| ==> log[j].at >= now - RETENTION;
    assert k < |log| ==> log[k].at >= now - RETENTION;
  }

  /** Cutting twice, the second time later and one event on, is cutting once. */
  lemma CutTwice(events: seq<Event>, a: nat, b: nat)
    requires events != [] && InOrder(events)
    requires var init := events[..|events| - 1]; init != [] && Cut(init, init[|init| - 1].at, a)
    requires Cut(events[a..], events[|events| - 1].at, b)
    ensures Cut(events, events[|events| - 1].at, a + b)
  {
    var init, now := events[..|events| - 1], events[|events| - 1].at;
    forall i | 0 <= i < a + b ensures events[i].at < now - RETENTION || i < |events| - MAX_HISTORY {
      if i < a { assert events[i] == init[i]; } else { assert events[a..][i - a] == events[i]; }
    }
    forall i | a + b <= i < |events| ensures events[i].at >= now - RETENTION && i >= |events| - MAX_HISTORY {
      assert events[a..][i - a] == events[i];
    }
  }

  lemma RecordedStep(events: seq<Event>)
    requires events != []
    ensures Recorded(events) == Windowed(Recorded(events[..|events| - 1]) + [events[|events| - 1]], events[|events| - 1].at)
  {}

  lemma WindowOfWindow(events: seq<Event>, a: nat)
    requires |events| > 1 && InOrder(events)
    requires var init := events[..|events| - 1]; Cut(init, init[|init| - 1].at, a)
    ensures a < |events| && Windowed(events[a..], events[|events| - 1].at) == Windowed(events, events[|events| - 1].at)
  {
    hide InOrder, Windowed, Cut;
    var e := events[|events| - 1];
    CutIsShort(events[..|events| - 1], events[|events| - 2].at, a);
    InOrderParts(events, a);
    var b := WindowIsCut(events[a..], e.at);
    CutIsShort(events[a..], e.at, b);
    CutTwice(events, a, b);
    var c := WindowIsCut(events, e.at);
    CutIsUnique(events, e.at, a + b, c);
    DropDrop(events, a, b);
  }

  lemma DropDrop(events: seq<Event>, a: nat, b: nat)
    requires a + b <= |events|
    ensures events[a..][b..] == events[a + b..]
  {}

  /** With a clock that never goes back, dropping old entries step by step loses nothing the cap would have kept. */
  lemma {:induction false} HistoryIsWindow(events: seq<Event>)
    requires events != [] && InOrder(events)
    ensures Recorded(events) == Windowed(events, events[|events| - 1].at)
  {
    hide InOrder, Windowed, Cut;
    var init := events[..|events| - 1];
    RecordedStep(events);
    if init == [] {
      assert Recorded(init) + [events[|events| - 1]] == events;
    } else {
      InOrderParts(events, 0);
      HistoryIsWindow(init);
      var a := WindowIsCut(init, init[|init| - 1].at);
      WindowOfWindow(events, a);
      SuffixGrows(events, a);
    }
  }

  lemma CutIsShort(log: seq<Event>, now: real, k: nat)
    requires Cut(log, now, k)
    ensures k <= |log|
  {}

  lemma InOrderParts(log: seq<Event>, k: nat)
    requires InOrder(log) && k < |log|
    ensures InOrder(log[..|log| - 1]) && InOrder(log[k..])
  {}

  /** history(limit): newest first. */
  function Newest(log: seq<Event>, limit: nat): (r: seq<Event>)
    ensures |r| == if limit < |log| then limit else |log|
    ensures forall i :: 0 <= i < |r| ==> r[i] == log[|log| - 1 - i]
  {
    if log == [] || limit == 0 then [] else [log[|log| - 1]] + Newest(log[..|log| - 1], limit - 1)
  }

  // -- the engine -----------------------------------------------------------------------------

  class Engine {
    var state: Alarm
    var row: Row
    var history: seq<Event>
    var zones: map<string, Zone>
    var alerts: seq<Event>   // handed to the alert sink

    constructor (row: Row, history: seq<Event>, zones: map<string, Zone>, now: real, stateOk: bool, logOk: bool)
      ensures state == WarmedUp(row, now) && this.zones == zones
      ensures this.row == if Coerce(row).mode.Pending? && stateOk then RowOf(state) else row
    {
      this.state := Coerce(row);
      this.row := row;
      this.history := history;
      this.zones := zones;
      this.alerts := [];
      new;
      if state.mode.Pending? {
        var event := EnterTriggered(state.entity, state.zone, TriggeredKind, now, stateOk, logOk);
      }
    }

    /** A failed write keeps the old row. */
    method PersistState(ok: bool)
      modifies `row
      ensures row == if ok then RowOf(state) else old(row)
    {
      if ok { row := RowOf(state); }
    }

    method RecordEvent(e: Event, ok: bool)
      modifies `history
      ensures history == if ok then Windowed(old(history) + [e], e.at) else old(history)
    {
      if ok {
        var entries := Since(history + [e], e.at - RETENTION);
        history := if |entries| <= MAX_HISTORY then entries else entries[|entries| - MAX_HISTORY..];
      }
    }

    method EnterTriggered(entity: Option<string>, zone: Option<Zone>, kind: Kind, now: real, stateOk: bool, logOk: bool)
      returns (event: Event)
      modifies `state, `row, `history, `alerts
      ensures state == TriggeredBy(old(state), entity, zone, now) && event == Event(kind, now, entity)
      ensures row == if stateOk then RowOf(state) else old(row)
      ensures history == if logOk then Windowed(old(history) + [event], now) else old(history)
      ensures alerts == old(alerts) + [event]
    {
      state := state.(mode := Triggered, since := now, deadline := 0.0, entity := entity, zone := zone);
      PersistState(stateOk);
      event := Event(kind, now, entity);
      RecordEvent(event, logOk);
      alerts := alerts + [event];
    }

    method Arm(m: ArmMode, exitDelay: int, entryDelay: int, now: real, stateOk: bool, logOk: bool)
      requires 0 <= exitDelay <= MAX_DELAY && 0 <= entryDelay <= MAX_DELAY   // the validated delays
      modifies `state, `row, `history
      ensures state == ArmedTo(old(state), m, exitDelay, entryDelay, now)
      ensures row == if stateOk then RowOf(state) else old(row)
      ensures history == if logOk then Windowed(old(history) + [Event(ArmedKind, now, None)], now) else old(history)
    {
      state := state.(mode := Armed(m), since := now, activeAt := now + exitDelay as real, deadline := 0.0,
                      armedMode := None, entity := None, zone := None, entryDelay := entryDelay);
      PersistState(stateOk);
      RecordEvent(Event(ArmedKind, now, None), logOk);
    }

    method Disarm(now: real, stateOk: bool, logOk: bool)
      modifies `state, `row, `history
      ensures state == DisarmedAt(old(state), now)
      ensures row == if stateOk then RowOf(state) else old(row)
      ensures history == if logOk then Windowed(old(history) + [Event(DisarmedKind, now, None)], now) else old(history)
    {
      state := state.(mode := Disarmed, since := now, activeAt := 0.0, deadline := 0.0, armedMode := None, entity := None, zone := None);
      PersistState(stateOk);
      RecordEvent(Event(DisarmedKind, now, None), logOk);
    }

    /** The event an edge caused, or None; then nothing has changed. */
    method ProcessSensor(entity: string, active: bool, now: real, stateOk: bool, logOk: bool) returns (r: Option<Event>)
      modifies `state, `row, `history, `alerts
      ensures var next := if active && entity in zones then Sensed(old(state), entity, zones[entity], now) else None;
        && r == (if next.Some? then Some(next.value.1) else None)
        && state == (if next.Some? then next.value.0 else old(state))
      ensures row == if r.Some? && stateOk then RowOf(state) else old(row)
      ensures history == if r.Some? && logOk then Windowed(old(history) + [r.value], now) else old(history)
      ensures alerts == if r.Some? && !r.value.kind.EntryDelayKind? then old(alerts) + [r.value] else old(alerts)
      // Life safety first, from every mode.
      ensures active && entity in zones && zones[entity] == LifeSafety ==>
        && SoundsFor(state, entity, LifeSafety, now)
        && r == Some(Event(LifeSafetyKind, now, Some(entity))) && alerts == old(alerts) + [r.value]
      // Every other edge: exactly while armed, past the exit delay, in a zone of the mode.
      ensures var a := old(state);
        if active && entity in zones && (zones[entity] == LifeSafety || (a.mode.Armed? && now >= a.activeAt && Trips(a.mode.as_, zones[entity])))
        then if zones[entity] == Entry then CountsDown(state, entity, now, now + a.entryDelay as real) else SoundsFor(state, entity, zones[entity], now)
        else state == a && r == None && row == old(row) && history == old(history) && alerts == old(alerts)
    {
      if entity !in zones || !active {
        return None;
      }
      var zone := zones[entity];
      if zone.LifeSafety? {
        var event := EnterTriggered(Some(entity), Some(zone), LifeSafetyKind, now, stateOk, logOk);
        return Some(event);
      }
      if !state.mode.Armed? || now < state.activeAt || !Watches(state.mode.as_, zone) {
        return None;
      }
      if zone.Entry? {
        state := PendingBy(state, entity, now);
        PersistState(stateOk);
        RecordEvent(Event(EntryDelayKind, now, Some(entity)), logOk);
        return Some(Event(EntryDelayKind, now, Some(entity)));
      }
      var event := EnterTriggered(Some(entity), Some(zone), TriggeredKind, now, stateOk, logOk);
      return Some(event);
    }

    /** Tamper while armed: recorded and alerted, but the alarm does not go off. */
    method ProcessSensorOffline(entity: string, now: real, logOk: bool) returns (r: Option<Event>)
      modifies `history, `alerts
      ensures r == if entity in zones && !state.mode.Disarmed? then Some(Event(TamperKind, now, Some(entity))) else None
      ensures history == if r.Some? && logOk then Windowed(old(history) + [r.value], now) else old(history)
      ensures alerts == if r.Some? then old(alerts) + [r.value] else old(alerts)
    {
      if entity !in zones || state.mode.Disarmed? {
        return None;
      }
      var event := Event(TamperKind, now, Some(entity));
      RecordEvent(event, logOk);
      alerts := alerts + [event];
      return Some(event);
    }

    method Tick(now: real, stateOk: bool, logOk: bool) returns (r: Option<Event>)
      modifies `state, `row, `history, `alerts
      ensures var next := Ticked(old(state), now);
        && r == (if next.Some? then Some(next.value.1) else None)
        && state == (if next.Some? then next.value.0 else old(state))
      ensures row == if r.Some? && stateOk then RowOf(state) else old(row)
      ensures history == if r.Some? && logOk then Windowed(old(history) + [r.value], now) else old(history)
    {
      if !state.mode.Pending? || now < state.deadline {
        return None;
      }
      var event := EnterTriggered(state.entity, state.zone, TriggeredKind, now, stateOk, logOk);
      return Some(event);
    }

    method PendingDeadline() returns (r: Option<real>)
      ensures r == if state.mode.Pending? then Some(state.deadline) else None
    {
      return if state.mode.Pending? then Some(state.deadline) else None;
    }
  }
}
