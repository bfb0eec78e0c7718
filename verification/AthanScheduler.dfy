/**
 The athan timers: the day's prayers armed, fired, retried while the bus refuses
 them, and replaced by each reschedule. A prayer plays once, on time or not at
 all.
 */
module AthanScheduler {
  import opened Wrappers

  const GRACE := 120.0
  const RETRY := 10.0

  datatype Prayer = Fajr | Dhuhr | Asr | Maghrib | Isha

  const PRAYERS := [Fajr, Dhuhr, Asr, Maghrib, Isha]

  type Day = int

  type Times = map<Prayer, real>

  /** A live timer: due now or later for the prayer whose time is fireAt. */
  datatype Timer = Timer(prayer: Prayer, day: Day, fireAt: real, due: real)

  /** _fire_athan: published to some speaker, nothing to publish (off, or no speaker left), or refused by the bus. */
  datatype Play = Published | Nothing | Refused

  /** What a reschedule resolved to: athan off or no timezone, no times for the day, or the day's times. */
  datatype Plan = Off | NoTimes(day: Day) | Plan(day: Day, times: Times)

  datatype Deed =
    | Settled(day: Day, prayer: Prayer, at: real, fireAt: real, published: bool)
    | GaveUp(day: Day, prayer: Prayer, at: real, fireAt: real)

  datatype State = State(
    day: Day,                       // the day of the last plan
    fired: set<(Day, Prayer)>,
    timers: seq<Timer>,
    log: seq<Deed>)

  predicate InGrace(fireAt: real, now: real) { fireAt - now >= -GRACE }

  /** The timers armed for these prayers, in their order. */
  function Timers(prayers: seq<Prayer>, plan: Plan, fired: set<(Day, Prayer)>, now: real): seq<Timer>
    requires plan.Plan?
  {
    if prayers == [] then []
    else
      var init, p := prayers[..|prayers| - 1], prayers[|prayers| - 1];
      Timers(init, plan, fired, now)
        + (if p in plan.times && InGrace(plan.times[p], now) && (plan.day, p) !in fired
           then [Timer(p, plan.day, plan.times[p], plan.times[p])] else [])
  }

  function Today(fired: set<(Day, Prayer)>, day: Day): set<(Day, Prayer)> { set k | k in fired && k.0 == day }

  /** _arm. */
  function Armed(s: State, plan: Plan, now: real): State {
    match plan
    case Off => s.(timers := [])
    case NoTimes(day) => s.(day := day, fired := Today(s.fired, day), timers := [])
    case Plan(day, _) =>
      s.(day := day, fired := Today(s.fired, day), timers := Timers(PRAYERS, plan, Today(s.fired, day), now))
  }

  /** The list without its i-th timer: it has run. */
  function Without(timers: seq<Timer>, i: nat): seq<Timer>
    requires i < |timers|
  {
    timers[..i] + timers[i + 1..]
  }

  /** The callback of one timer, run at now. */
  function Fired(s: State, i: nat, now: real, play: Play): State
    requires i < |s.timers|
  {
    var t := s.timers[i];
    var s1 := s.(timers := Without(s.timers, i));
    if (t.day, t.prayer) in s.fired then s1
    else if now <= t.fireAt + GRACE && !play.Refused? then
      s1.(fired := s.fired + {(t.day, t.prayer)}, log := s.log + [Settled(t.day, t.prayer, now, t.fireAt, play.Published?)])
    else if now + RETRY > t.fireAt + GRACE then
      s1.(log := s.log + [GaveUp(t.day, t.prayer, now, t.fireAt)])
    else s1.(timers := s1.timers + [t.(due := now + RETRY)])
  }

  // -- the scheduler -----------------------------------------------------------------------

  class Scheduler {
    var day: Day
    var fired: set<(Day, Prayer)>
    var timers: seq<Timer>
    ghost var log: seq<Deed>

    ghost function Abs(): State
      reads this
    {
      State(day, fired, timers, log)
    }

    constructor (day: Day)
      ensures Abs() == State(day, {}, [], [])
    {
      this.day, fired, timers, log := day, {}, [], [];
    }

    method CancelPrayers()
      modifies `timers
      ensures timers == []
    {
      timers := [];
    }

    method Arm(plan: Plan, now: real)
      modifies this
      ensures Abs() == Armed(old(Abs()), plan, now)
    {
      CancelPrayers();
      if plan.Off? {
        return;
      }
      day := plan.day;
      fired := set k | k in fired && k.0 == plan.day;
      if plan.NoTimes? {
        return;
      }
      for i := 0 to |PRAYERS|
        invariant day == plan.day && fired == Today(old(fired), plan.day) && log == old(log)
        invariant timers == Timers(PRAYERS[..i], plan, fired, now)
      {
        var p := PRAYERS[i];
        assert PRAYERS[..i + 1][..i] == PRAYERS[..i];
        if p in plan.times && InGrace(plan.times[p], now) && (plan.day, p) !in fired {
          timers := timers + [Timer(p, plan.day, plan.times[p], plan.times[p])];
        }
      }
      assert PRAYERS[..|PRAYERS|] == PRAYERS;
    }

    /** play is what _fire_athan would do just then; it is not called past the deadline. */
    method Fire(i: nat, now: real, play: Play)
      requires i < |timers|
      modifies this
      ensures Abs() == Fired(old(Abs()), i, now, play)
    {
      var t := timers[i];
      timers := timers[..i] + timers[i + 1..];
      if (t.day, t.prayer) in fired {
        return;
      }
      var deadline := t.fireAt + GRACE;
      if now <= deadline && !play.Refused? {
        fired := fired + {(t.day, t.prayer)};
        log := log + [Settled(t.day, t.prayer, now, t.fireAt, play.Published?)];
        return;
      }
      var retryAt := now + RETRY;
      if retryAt > deadline {
        log := log + [GaveUp(t.day, t.prayer, now, t.fireAt)];
        return;
      }
      timers := timers + [t.(due := retryAt)];
    }
  }

  // -- every run -------------------------------------------------------------------------------

  datatype Step = Reschedule(plan: Plan, at: real) | TimerRuns(i: nat, at: real, play: Play) | Stop

  /** Timers run when due or late by the clock they read, which may otherwise step back, as the day may. */
  predicate Enabled(s: State, step: Step) {
    match step
    case TimerRuns(i, at, _) => i < |s.timers| && at >= s.timers[i].due
    case _ => true
  }

  function Apply(s: State, step: Step): State
    requires Enabled(s, step)
  {
    match step
    case Reschedule(plan, at) => Armed(s, plan, at)
    case TimerRuns(i, at, play) => Fired(s, i, at, play)
    case Stop => s.(timers := [])
  }

  predicate Legal(s: State, steps: seq<Step>)
    decreases |steps|
  {
    steps == [] || (Enabled(s, steps[0]) && Legal(Apply(s, steps[0]), steps[1..]))
  }

  function After(s: State, steps: seq<Step>): State
    requires Legal(s, steps)
    decreases |steps|
  {
    if steps == [] then s else After(Apply(s, steps[0]), steps[1..])
  }

  predicate SettlesKey(d: Deed, day: Day, prayer: Prayer) { d.Settled? && d.day == day && d.prayer == prayer }

  ghost predicate OneTimerEach(timers: seq<Timer>) {
    forall i, k :: 0 <= i < k < |timers| ==> timers[i].prayer != timers[k].prayer
  }

  ghost predicate TimersInv(s: State) {
    OneTimerEach(s.timers) && forall i :: 0 <= i < |s.timers| ==> s.timers[i].day == s.day && InTime(s.timers[i])
  }

  /** Due at the prayer's time or, for a retry, while it may still play. */
  predicate InTime(t: Timer) { t.fireAt <= t.due <= t.fireAt + GRACE }

  predicate SettledOn(log: seq<Deed>, day: Day, prayer: Prayer) { exists d :: d in log && SettlesKey(d, day, prayer) }

  /** The settled prayers of the plan's day are remembered. */
  ghost predicate LogInv(s: State) {
    forall d :: d in s.log && d.Settled? && d.day == s.day ==> (d.day, d.prayer) in s.fired
  }

  /** The day has not been planned and left before with a prayer settled on it. */
  predicate NewDay(s: State, plan: Plan) {
    plan.Off? || plan.day == s.day || forall d :: d in s.log && d.Settled? ==> d.day != plan.day
  }

  predicate NoRevisit(s: State, steps: seq<Step>)
    requires Legal(s, steps)
    decreases |steps|
  {
    steps == [] || ((steps[0].Reschedule? ==> NewDay(s, steps[0].plan)) && NoRevisit(Apply(s, steps[0]), steps[1..]))
  }

  predicate OnTime(d: Deed) { d.fireAt <= d.at && (d.Settled? ==> d.at <= d.fireAt + GRACE) && (d.GaveUp? ==> d.at > d.fireAt + GRACE - RETRY) }

  ghost predicate Once(log: seq<Deed>) {
    forall i, k :: 0 <= i < k < |log| && log[i].Settled? ==> !SettlesKey(log[k], log[i].day, log[i].prayer)
  }

  /** Kept by every run. */
  ghost predicate Inv(s: State) { TimersInv(s) && forall i :: 0 <= i < |s.log| ==> OnTime(s.log[i]) }

  lemma {:induction false} TimersAre(prayers: seq<Prayer>, plan: Plan, fired: set<(Day, Prayer)>, now: real)
    requires plan.Plan? && forall i, k :: 0 <= i < k < |prayers| ==> prayers[i] != prayers[k]
    ensures var ts := Timers(prayers, plan, fired, now);
      && OneTimerEach(ts)
      && (forall i :: 0 <= i < |ts| ==> ts[i].prayer in prayers && ts[i].prayer in plan.times)
      && (forall i :: 0 <= i < |ts| ==> ts[i] == Timer(ts[i].prayer, plan.day, plan.times[ts[i].prayer], plan.times[ts[i].prayer]))
      && (forall p :: p in prayers && p in plan.times && InGrace(plan.times[p], now) && (plan.day, p) !in fired
            ==> Timer(p, plan.day, plan.times[p], plan.times[p]) in ts)
  {
    if prayers != [] {
      var init, p := prayers[..|prayers| - 1], prayers[|prayers| - 1];
      TimersAre(init, plan, fired, now);
      assert p !in init;
      assert prayers == init + [p];
    }
  }

  lemma RescheduleKeeps(s: State, plan: Plan, at: real)
    requires Inv(s)
    ensures Inv(Armed(s, plan, at))
    ensures LogInv(s) && NewDay(s, plan) ==> LogInv(Armed(s, plan, at))
  {
    if plan.Plan? { TimersAre(PRAYERS, plan, Today(s.fired, plan.day), at); }
  }

  lemma WithoutKeeps(timers: seq<Timer>, i: nat)
    requires i < |timers| && OneTimerEach(timers)
    ensures OneTimerEach(Without(timers, i))
    ensures forall k :: 0 <= k < |Without(timers, i)| ==> Without(timers, i)[k] in timers && Without(timers, i)[k].prayer != timers[i].prayer
  {}

  lemma TimerKeeps(s: State, i: nat, at: real, play: Play)
    requires Inv(s) && Enabled(s, TimerRuns(i, at, play))
    ensures Inv(Fired(s, i, at, play))
    ensures LogInv(s) && Once(s.log) ==> LogInv(Fired(s, i, at, play)) && Once(Fired(s, i, at, play).log)
  {
    var s' := Fired(s, i, at, play);
    WithoutKeeps(s.timers, i);
    assert TimersInv(s');
    if s'.log != s.log {
      var d := s'.log[|s.log|];
      assert s'.log == s.log + [d];
      assert LogInv(s) && d.Settled? ==> forall k :: 0 <= k < |s.log| ==> !SettlesKey(s.log[k], d.day, d.prayer);
    }
  }

  lemma {:induction false} RunKeeps(s: State, steps: seq<Step>)
    requires Inv(s) && Legal(s, steps)
    ensures Inv(After(s, steps))
    ensures LogInv(s) && Once(s.log) && NoRevisit(s, steps) ==> LogInv(After(s, steps)) && Once(After(s, steps).log)
    decreases |steps|
  {
    if steps != [] {
      match steps[0] {
        case Reschedule(plan, at) => RescheduleKeeps(s, plan, at);
        case TimerRuns(i, at, play) => TimerKeeps(s, i, at, play);
        case Stop =>
      }
      RunKeeps(Apply(s, steps[0]), steps[1..]);
    }
  }

  predicate Boot(s: State) { s.fired == {} && s.timers == [] && s.log == [] }

  /**
   In every interleaving of reschedules, late timers, retries and refusals a
   prayer is settled never before its time nor more than two minutes after it,
   and has at most one live timer, due while it may still play.
   */
  lemma PlaysOnTime(s0: State, steps: seq<Step>)
    requires Boot(s0) && Legal(s0, steps)
    ensures var s := After(s0, steps);
      && OneTimerEach(s.timers) && (forall i :: 0 <= i < |s.timers| ==> InTime(s.timers[i]))
      && (forall i :: 0 <= i < |s.log| && s.log[i].Settled? ==> s.log[i].fireAt <= s.log[i].at <= s.log[i].fireAt + 120.0)
  {
    RunKeeps(s0, steps);
    var s := After(s0, steps);
    forall i | 0 <= i < |s.log| && s.log[i].Settled? ensures s.log[i].fireAt <= s.log[i].at <= s.log[i].fireAt + GRACE {
      assert OnTime(s.log[i]);
    }
  }

  /** And no prayer of a day is settled twice, unless a reschedule returns to a day left with a prayer settled on it. */
  lemma PlaysOnce(s0: State, steps: seq<Step>)
    requires Boot(s0) && Legal(s0, steps) && NoRevisit(s0, steps)
    ensures Once(After(s0, steps).log)
  {
    RunKeeps(s0, steps);
  }

  /** The day never goes back. */
  predicate Forward(s: State, steps: seq<Step>)
    requires Legal(s, steps)
    decreases |steps|
  {
    steps == []
    || ((steps[0].Reschedule? && !steps[0].plan.Off? ==> steps[0].plan.day >= s.day) && Forward(Apply(s, steps[0]), steps[1..]))
  }

  ghost predicate SettledBy(s: State) { forall d :: d in s.log && d.Settled? ==> d.day <= s.day }

  /** A day that never goes back returns to none. */
  lemma {:induction false} ForwardRevisitsNothing(s: State, steps: seq<Step>)
    requires Inv(s) && SettledBy(s) && Legal(s, steps) && Forward(s, steps)
    ensures NoRevisit(s, steps)
    decreases |steps|
  {
    if steps != [] {
      match steps[0] {
        case Reschedule(plan, at) => RescheduleKeeps(s, plan, at);
        case TimerRuns(i, at, play) => TimerKeeps(s, i, at, play);
        case Stop =>
      }
      ForwardRevisitsNothing(Apply(s, steps[0]), steps[1..]);
    }
  }

  lemma ForwardPlaysOnce(s0: State, steps: seq<Step>)
    requires Boot(s0) && Legal(s0, steps) && Forward(s0, steps)
    ensures Once(After(s0, steps).log)
  {
    ForwardRevisitsNothing(s0, steps);
    PlaysOnce(s0, steps);
  }

  /**
   One run of a timer that is not settled yet: within two minutes of the prayer
   it settles unless the bus refuses; refused or later it tries again ten seconds
   on if that is still within them, and is given up otherwise.
   */
  lemma TimerOutcome(s: State, i: nat, now: real, play: Play)
    requires i < |s.timers| && (s.timers[i].day, s.timers[i].prayer) !in s.fired
    ensures var t, s' := s.timers[i], Fired(s, i, now, play);
      var late := now > t.fireAt + 120.0;
      && s'.day == s.day
      && (!late && !play.Refused? ==>
            && s'.log == s.log + [Settled(t.day, t.prayer, now, t.fireAt, play == Published)]
            && s'.fired == s.fired + {(t.day, t.prayer)} && s'.timers == Without(s.timers, i))
      && ((late || play.Refused?) && now + 10.0 <= t.fireAt + 120.0 ==>
            s'.log == s.log && s'.fired == s.fired && s'.timers == Without(s.timers, i) + [Timer(t.prayer, t.day, t.fireAt, now + 10.0)])
      && ((late || play.Refused?) && now + 10.0 > t.fireAt + 120.0 ==>
            s'.log == s.log + [GaveUp(t.day, t.prayer, now, t.fireAt)] && s'.fired == s.fired && s'.timers == Without(s.timers, i))
  {}

  /** One that is settled already does nothing more. */
  lemma SettledTimerIsDone(s: State, i: nat, now: real, play: Play)
    requires i < |s.timers| && (s.timers[i].day, s.timers[i].prayer) in s.fired
    ensures Fired(s, i, now, play) == s.(timers := Without(s.timers, i))
  {}

  predicate ArmsNothing(step: Step) { step.Reschedule? ==> !step.plan.Plan? }

  /** Switched off, without times or stopped, nothing plays until a reschedule finds times again. */
  lemma {:induction false} SilentUntilArmed(s: State, first: Step, steps: seq<Step>)
    requires Enabled(s, first) && !first.TimerRuns? && ArmsNothing(first) && Legal(Apply(s, first), steps)
    requires forall i :: 0 <= i < |steps| ==> ArmsNothing(steps[i])
    ensures After(Apply(s, first), steps).log == s.log && After(Apply(s, first), steps).timers == []
    decreases |steps|
  {
    if steps != [] {
      assert !steps[0].TimerRuns?;
      SilentUntilArmed(Apply(s, first), steps[0], steps[1..]);
    }
  }

  // -- nothing is dropped ------------------------------------------------------------------------

  predicate Waits(s: State, t: Timer) { exists u :: u in s.timers && u.prayer == t.prayer && u.day == t.day && u.fireAt == t.fireAt }

  /** An armed prayer is waiting on a timer, settled, or given up with less than a retry left. */
  predicate Accounted(s: State, t: Timer) {
    Waits(s, t) || (t.day, t.prayer) in s.fired
    || exists d :: d in s.log && d.GaveUp? && d.day == t.day && d.prayer == t.prayer && d.fireAt == t.fireAt && d.at > t.fireAt + GRACE - RETRY
  }

  predicate NoReschedule(steps: seq<Step>) { forall i :: 0 <= i < |steps| ==> steps[i].TimerRuns? }

  lemma StillAccounted(s: State, i: nat, at: real, play: Play, t: Timer)
    requires Enabled(s, TimerRuns(i, at, play)) && Accounted(s, t)
    ensures Accounted(Fired(s, i, at, play), t)
  {
    var s' := Fired(s, i, at, play);
    var ran := s.timers[i];
    assert forall d :: d in s.log ==> d in s'.log;
    if Waits(s, t) {
      var u :| u in s.timers && u.prayer == t.prayer && u.day == t.day && u.fireAt == t.fireAt;
      if u != ran {
        assert u in Without(s.timers, i);
        assert u in s'.timers;
      } else if (t.day, t.prayer) !in s'.fired && s'.log == s.log {
        assert s'.timers[|s'.timers| - 1] == ran.(due := at + RETRY);
      } else if (t.day, t.prayer) !in s'.fired {
        assert s'.log[|s.log|].GaveUp?;
      }
    }
  }

  /** Refused or not, a prayer armed by a reschedule is never lost before the next: its retry is armed, or it is done. */
  lemma {:induction false} ArmedIsNeverLost(s: State, steps: seq<Step>, t: Timer)
    requires Legal(s, steps) && NoReschedule(steps) && Accounted(s, t)
    ensures Accounted(After(s, steps), t)
    decreases |steps|
  {
    if steps != [] {
      StillAccounted(s, steps[0].i, steps[0].at, steps[0].play, t);
      ArmedIsNeverLost(Apply(s, steps[0]), steps[1..], t);
    }
  }

  /** A reschedule arms exactly the day's unsettled prayers that are at most two minutes past. */
  lemma RescheduleArms(s: State, plan: Plan, at: real, p: Prayer)
    requires plan.Plan?
    ensures var s' := Armed(s, plan, at);
      && ((exists t :: t in s'.timers && t.prayer == p)
          <==> (p in plan.times && plan.times[p] + 120.0 >= at && (plan.day, p) !in s.fired))
      && (forall t :: t in s'.timers && t.prayer == p ==> t == Timer(p, plan.day, plan.times[p], plan.times[p]))
  {
    var ts := Timers(PRAYERS, plan, Today(s.fired, plan.day), at);
    TimersAre(PRAYERS, plan, Today(s.fired, plan.day), at);
    OnlyUnsettled(PRAYERS, plan, Today(s.fired, plan.day), at);
    EveryPrayer(p);
    if p in plan.times && plan.times[p] + GRACE >= at && (plan.day, p) !in s.fired {
      assert Timer(p, plan.day, plan.times[p], plan.times[p]) in ts;
    }
  }

  lemma {:induction false} OnlyUnsettled(prayers: seq<Prayer>, plan: Plan, fired: set<(Day, Prayer)>, now: real)
    requires plan.Plan?
    ensures forall t :: t in Timers(prayers, plan, fired, now) ==>
      t.prayer in plan.times && InGrace(plan.times[t.prayer], now) && (plan.day, t.prayer) !in fired
  {
    if prayers != [] { OnlyUnsettled(prayers[..|prayers| - 1], plan, fired, now); }
  }

  /** Some timer of s, run when due or late, settles a prayer the log has settled already. */
  ghost predicate CanRepeat(s: State) {
    exists i, at, play :: 0 <= i < |s.timers| && at >= s.timers[i].due && Repeats(s, i, at, play)
  }

  ghost predicate Repeats(s: State, i: nat, at: real, play: Play)
    requires i < |s.timers|
  {
    var t := s.timers[i];
    SettledOn(s.log, t.day, t.prayer) && Fired(s, i, at, play).log == s.log + [Settled(t.day, t.prayer, at, t.fireAt, play.Published?)]
  }

  /** The plan's day was left with prayer p settled on it, and p is not two minutes past. */
  ghost predicate LeftSettled(s: State, plan: Plan, now: real, p: Prayer)
    requires plan.Plan?
  {
    plan.day != s.day && p in plan.times && InGrace(plan.times[p], now) && SettledOn(s.log, plan.day, p)
  }

  /** Exactly when a reschedule lets a prayer play again. */
  lemma RepeatsExactly(s: State, plan: Plan, now: real)
    requires Inv(s) && LogInv(s) && RememberedDay(s) && plan.Plan?
    ensures CanRepeat(Armed(s, plan, now)) <==> exists p :: LeftSettled(s, plan, now, p)
  {
    var s' := Armed(s, plan, now);
    if p :| LeftSettled(s, plan, now, p) {
      LeftSettledRepeats(s, plan, now, p);
    }
    forall i, at, play | 0 <= i < |s'.timers| && at >= s'.timers[i].due && Repeats(s', i, at, play)
      ensures LeftSettled(s, plan, now, s'.timers[i].prayer)
    {
      RepeatWasLeftSettled(s, plan, now, i, at, play);
    }
  }

  lemma LeftSettledRepeats(s: State, plan: Plan, now: real, p: Prayer)
    requires RememberedDay(s) && plan.Plan? && LeftSettled(s, plan, now, p)
    ensures CanRepeat(Armed(s, plan, now))
  {
    var s' := Armed(s, plan, now);
    TimersAre(PRAYERS, plan, s'.fired, now);
    EveryPrayer(p);
    var t := Timer(p, plan.day, plan.times[p], plan.times[p]);
    assert t in s'.timers;
    var i :| 0 <= i < |s'.timers| && s'.timers[i] == t;
    assert Repeats(s', i, t.due, Published);
  }

  lemma RepeatWasLeftSettled(s: State, plan: Plan, now: real, i: nat, at: real, play: Play)
    requires LogInv(s) && plan.Plan? && i < |Armed(s, plan, now).timers| && Repeats(Armed(s, plan, now), i, at, play)
    ensures LeftSettled(s, plan, now, Armed(s, plan, now).timers[i].prayer)
  {
    var s' := Armed(s, plan, now);
    TimersAre(PRAYERS, plan, s'.fired, now);
    OnlyUnsettled(PRAYERS, plan, s'.fired, now);
    assert SettledOn(s'.log, s'.timers[i].day, s'.timers[i].prayer);
    hide Repeats, Timers, InGrace;
    assert s'.timers[i] in s'.timers;
  }

  /** Only prayers of the last plan's day are remembered. */
  predicate RememberedDay(s: State) { forall k :: k in s.fired ==> k.0 == s.day }

  lemma {:induction false} RunKeepsRememberedDay(s: State, steps: seq<Step>)
    requires Inv(s) && RememberedDay(s) && Legal(s, steps)
    ensures RememberedDay(After(s, steps))
    decreases |steps|
  {
    if steps != [] {
      match steps[0] {
        case Reschedule(plan, at) => RescheduleKeeps(s, plan, at);
        case TimerRuns(i, at, play) =>
          TimerKeeps(s, i, at, play);
        case Stop =>
      }
      RunKeepsRememberedDay(Apply(s, steps[0]), steps[1..]);
    }
  }

  lemma EveryPrayer(p: Prayer)
    ensures p in PRAYERS
  {
    match p
    case Fajr => assert PRAYERS[0] == p;
    case Dhuhr => assert PRAYERS[1] == p;
    case Asr => assert PRAYERS[2] == p;
    case Maghrib => assert PRAYERS[3] == p;
    case Isha => assert PRAYERS[4] == p;
  }

  ghost predicate Reachable(s0: State, s: State) { exists steps :: Legal(s0, steps) && After(s0, steps) == s }

  lemma {:induction false} OneStepMore(s: State, steps: seq<Step>, step: Step)
    requires Legal(s, steps) && Enabled(After(s, steps), step)
    ensures Legal(s, steps + [step]) && After(s, steps + [step]) == Apply(After(s, steps), step)
    decreases |steps|
  {
    hide Enabled, Apply;
    if steps == [] {
      assert steps + [step] == [step] && [step][1..] == [];
    } else {
      assert (steps + [step])[1..] == steps[1..] + [step];
      OneStepMore(Apply(s, steps[0]), steps[1..], step);
    }
  }

  lemma Next(s0: State, s: State, step: Step)
    requires Reachable(s0, s) && Enabled(s, step)
    ensures Reachable(s0, Apply(s, step))
  {
    hide Enabled, Apply;
    var steps :| Legal(s0, steps) && After(s0, steps) == s;
    OneStepMore(s0, steps, step);
  }

  /** From boot, a change of timezone forth and back over midnight plays the same Isha twice. */
  lemma DayGoingBackPlaysAgain(s0: State, now: real)
    requires Boot(s0)
    ensures exists s :: Reachable(s0, s) && |s.log| == 2 && s.log[0] == s.log[1] == Settled(s0.day, Isha, now, now, true)
  {
    assert Reachable(s0, s0) by { assert Legal(s0, []) && After(s0, []) == s0; }
    var s2 := IshaPlays(s0, s0, s0.day, now);
    hide Reachable;
    var away := Reschedule(NoTimes(s0.day + 1), now);
    Next(s0, s2, away);
    var s3 := Apply(s2, away);
    assert s3.fired == {};
    var s5 := IshaPlays(s0, s3, s0.day, now);
  }

  lemma IshaPlays(s0: State, s: State, day: Day, now: real) returns (played: State)
    requires Reachable(s0, s) && s.fired == {}
    ensures Reachable(s0, played)
    ensures played == State(day, {(day, Isha)}, [], s.log + [Settled(day, Isha, now, now, true)])
  {
    hide Reachable;
    var arm, play := Reschedule(Plan(day, map[Isha := now]), now), TimerRuns(0, now, Published);
    OnlyIsha(day, now);
    var armed := Apply(s, arm);
    assert armed.fired == {};
    Next(s0, s, arm);
    Next(s0, armed, play);
    played := Apply(armed, play);
    assert Without(armed.timers, 0) == [];
  }

  lemma OnlyIsha(day: Day, now: real)
    ensures Timers(PRAYERS, Plan(day, map[Isha := now]), {}, now) == [Timer(Isha, day, now, now)]
  {
    var plan := Plan(day, map[Isha := now]);
    var ts := Timers(PRAYERS, plan, {}, now);
    TimersAre(PRAYERS, plan, {}, now);
    EveryPrayer(Isha);
    assert Timer(Isha, day, now, now) in ts;
    forall i | 0 <= i < |ts| ensures ts[i] == Timer(Isha, day, now, now) {
      assert ts[i].prayer in plan.times;
    }
    assert |ts| > 1 ==> ts[0].prayer != ts[1].prayer;
  }
}
