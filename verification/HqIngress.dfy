/** The delivery sequence under its lock, with requests waiting for it in any order. */
module HqIngress {
  import opened Documents
  import opened Wrappers
  import opened CappedTable
  import opened HqNotifications

  type RequestId = nat

  /** A request whose signature check passed at `checked` and that waits for the delivery lock. */
  datatype Waiting = Waiting(msg: Signed, checked: real)

  datatype Lock = Free | Looking(msg: Signed) | Sending(msg: Signed)

  datatype Deed = Accepted(msg: Signed) | Replay(msg: Signed) | Push(event: EventId) | Recorded(event: EventId) | AnsweredDuplicate(event: EventId)

  datatype State = State(nonces: Rows, events: Rows, clock: real, waiting: map<RequestId, Waiting>, lock: Lock, log: seq<Deed>)

  datatype Step =
    | Verify(req: RequestId, msg: Signed, at: real)
    | Reserve(req: RequestId, at: real)
    | Look                                  // the duplicate check, and the push for an unknown event
    | Sent(accepted: bool, at: real)        // the relay answers; the outcome is recorded
    | Crash                                 // or requests cut off: the tables stay

  predicate Enabled(s: State, step: Step) {
    match step
    case Verify(req, msg, at) => req !in s.waiting && at >= s.clock && InSkew(msg.timestamp, at)
    case Reserve(req, at) => req in s.waiting && s.lock.Free? && at >= s.clock
    case Look => s.lock.Looking?
    case Sent(_, at) => s.lock.Sending? && at >= s.clock
    case Crash => true
  }

  function Note(s: State, d: Deed): State { s.(log := s.log + [d]) }

  function ReserveApply(s: State, req: RequestId, at: real): State
    requires req in s.waiting
  {
    var msg := s.waiting[req].msg;
    var s1 := s.(waiting := s.waiting - {req}, clock := at, nonces := Reserved(s.nonces, msg.nonce, at.Floor));
    if Replayed(s.nonces, msg.nonce, at.Floor) then Note(s1, Replay(msg)) else Note(s1.(lock := Looking(msg)), Accepted(msg))
  }

  function Apply(s: State, step: Step): State
    requires Enabled(s, step)
  {
    match step
    case Verify(req, msg, at) => s.(waiting := s.waiting[req := Waiting(msg, at)], clock := at)
    case Reserve(req, at) => ReserveApply(s, req, at)
    case Look =>
      var e := s.lock.msg.event;
      if e in s.events then Note(s.(lock := Free), AnsweredDuplicate(e)) else Note(s.(lock := Sending(s.lock.msg)), Push(e))
    case Sent(accepted, at) =>
      var e := s.lock.msg.event;
      if accepted then Note(s.(lock := Free, clock := at, events := Delivered(s.events, e, at.Floor)), Recorded(e))
      else s.(lock := Free, clock := at)
    case Crash => s.(waiting := map[], lock := Free)
  }

  predicate Legal(s: State, steps: seq<Step>)
    decreases |steps|
  {
    steps == [] || (Enabled(s, steps[0]) && Legal(Apply(s, steps[0]), steps[1..]))
  }

  function After(s: State, steps: seq<Step>): State
    requires Legal(s, steps)
    decreases |steps|
  {
    if steps == [] then s else After(Apply(s, steps[0]), steps[1..])
  }

  // -- replay -----------------------------------------------------------------------------------

  /** Every waiting request passed its check, before now. */
  ghost predicate Checked(s: State) {
    forall r :: r in s.waiting ==> InSkew(s.waiting[r].msg.timestamp, s.waiting[r].checked) && s.waiting[r].checked <= s.clock
  }

  /** Each copy of msg that gets the lock does so within 180 seconds of its check. */
  predicate Prompt(s: State, steps: seq<Step>, msg: Signed)
    requires Legal(s, steps)
    decreases |steps|
  {
    steps == [] || (PromptStep(s, steps[0], msg) && Prompt(Apply(s, steps[0]), steps[1..], msg))
  }

  predicate PromptStep(s: State, step: Step, msg: Signed)
    requires Enabled(s, step)
  {
    step.Reserve? && s.waiting[step.req].msg == msg ==> step.at <= s.waiting[step.req].checked + 180.0
  }

  /** The step reserves a nonce, the request being no replay, while a row of second `at` could still be held. */
  function Crowds(s: State, step: Step, at: int): nat
    requires Enabled(s, step)
  {
    if step.Reserve? && step.at.Floor <= at + RETENTION && !Replayed(s.nonces, s.waiting[step.req].msg.nonce, step.at.Floor)
    then 1 else 0
  }

  /** How many nonces the run reserves in the 300 seconds from `at`. */
  function Crowd(s: State, steps: seq<Step>, at: int): nat
    requires Legal(s, steps)
    decreases |steps|
  {
    if steps == [] then 0 else Crowds(s, steps[0], at) + Crowd(Apply(s, steps[0]), steps[1..], at)
  }

  /** msg was reserved: its nonce is still held, or too late for any copy to pass its check and lock in time. */
  ghost predicate Held(s: State, msg: Signed, at: int, room: int) {
    (msg.nonce in s.nonces && s.nonces[msg.nonce] == at && |Rivals(s.nonces, msg.nonce)| + room < MAX_NONCES)
    || s.clock.Floor > at + RETENTION
  }

  lemma HeldStep(s: State, step: Step, msg: Signed, at: int, room: int)
    requires Checked(s) && Enabled(s, step) && PromptStep(s, step, msg) && at >= msg.timestamp - 60
    requires Held(s, msg, at, room) && room >= Crowds(s, step, at)
    ensures Checked(Apply(s, step))
    ensures Held(Apply(s, step), msg, at, room - Crowds(s, step, at))
    ensures step.Reserve? && s.waiting[step.req].msg == msg ==> Apply(s, step).log == s.log + [Replay(msg)]
  {
    if step.Reserve? {
      var w := s.waiting[step.req];
      var now := step.at.Floor;
      if w.msg == msg {
        // 60 s of skew either way and 180 s of waiting: within the 300 s a row is kept.
        assert step.at <= msg.timestamp as real + 240.0;
        assert now <= at + RETENTION;
        assert s.clock.Floor <= now;
      }
      if s.clock.Floor <= at + RETENTION && now <= at + RETENTION {
        NonceHolds(s.nonces, msg.nonce, w.msg.nonce, now);
      }
    }
  }

  predicate Accepts(d: Deed, msg: Signed) { d == Accepted(msg) }

  ghost predicate NoAccept(log: seq<Deed>, from: nat, msg: Signed) { forall i :: from <= i < |log| ==> !Accepts(log[i], msg) }

  lemma {:induction false} NeverAcceptedAgain(s: State, steps: seq<Step>, msg: Signed, at: int, from: nat)
    requires Checked(s) && Legal(s, steps) && Prompt(s, steps, msg) && at >= msg.timestamp - 60
    requires Held(s, msg, at, Crowd(s, steps, at)) && NoAccept(s.log, from, msg)
    ensures NoAccept(After(s, steps).log, from, msg)
    decreases |steps|
  {
    if steps != [] {
      HeldStep(s, steps[0], msg, at, Crowd(s, steps, at));
      NeverAcceptedAgain(Apply(s, steps[0]), steps[1..], msg, at, from);
    }
  }

  /**
   A signed request accepted once is refused ever after, if its copies get the
   lock within 180 s of their check and fewer than 1000 other nonces reserved in
   its 300 seconds carry its second or later.
   */
  lemma ReplayIsRefused(s: State, req: RequestId, at: real, steps: seq<Step>)
    requires Checked(s) && Enabled(s, Reserve(req, at)) && !Replayed(s.nonces, s.waiting[req].msg.nonce, at.Floor)
    requires var s1 := Apply(s, Reserve(req, at));
      Legal(s1, steps) && Prompt(s1, steps, s.waiting[req].msg)
    requires var msg := s.waiting[req].msg;
      |Rivals(PrunedNonces(s.nonces, at.Floor)[msg.nonce := at.Floor], msg.nonce)|
        + Crowd(Apply(s, Reserve(req, at)), steps, at.Floor) < MAX_NONCES
    ensures NoAccept(After(Apply(s, Reserve(req, at)), steps).log, |s.log| + 1, s.waiting[req].msg)
  {
    var msg := s.waiting[req].msg;
    var s1 := Apply(s, Reserve(req, at));
    var more := PrunedNonces(s.nonces, at.Floor)[msg.nonce := at.Floor];
    NonceSurvives(more, msg.nonce, at.Floor);
    assert at >= s.waiting[req].checked >= msg.timestamp as real - 60.0;
    NeverAcceptedAgain(s1, steps, msg, at.Floor, |s.log| + 1);
  }

  /** At most 1000 nonces are held, in every run. */
  ghost predicate Bounded(s: State) { |s.nonces| <= MAX_NONCES }

  /** Exactly when a request that gets the lock is accepted: its nonce is not held, or has been for over 300 seconds. */
  lemma AcceptedExactly(s: State, req: RequestId, at: real)
    requires Bounded(s) && Enabled(s, Reserve(req, at))
    ensures var msg, log := s.waiting[req].msg, Apply(s, Reserve(req, at)).log;
      |log| == |s.log| + 1
      && (log[|s.log|] == Accepted(msg) <==> msg.nonce !in s.nonces || at.Floor > s.nonces[msg.nonce] + RETENTION)
  {
    var n := s.waiting[req].msg.nonce;
    if n in s.nonces {
      OthersAreFewer(s.nonces, n);
      if at.Floor <= s.nonces[n] + RETENTION { NonceSurvives(s.nonces, n, at.Floor); }
    }
  }

  lemma OthersAreFewer(m: Rows, n: Nonce)
    requires n in m
    ensures |Rivals(m, n)| < |m|
  {
    SubsetSize(Rivals(m, n), m.Keys - {n});
  }

  /** Exactly when a held nonce makes way for another: the table is full and it is the oldest row, the newcomer counted. */
  lemma EvictedExactly(m: Rows, n: Nonce, other: Nonce, now: int)
    requires |m| <= MAX_NONCES && n in m && n != other && m[n] >= now - RETENTION && !Replayed(m, other, now)
    ensures n !in Reserved(m, other, now)
      <==> |Unexpired(m, now)| == MAX_NONCES && IsOldest(Unexpired(m, now)[other := now], None, n)
  {
    var live := Unexpired(m, now);
    assert live.Keys <= m.Keys;
    SubsetSize(live.Keys, m.Keys);
    assert PrunedNonces(m, now) == live;
    var more := live[other := now];
    assert Unexpired(more, now) == more;
    assert more.Keys == live.Keys + {other};
    KeptExactly(more, None, MAX_NONCES, n);
    AllAfterOldest(more, n);
  }

  /** All but one row come after k exactly when k is the oldest. */
  lemma AllAfterOldest(m: Rows, k: string)
    requires k in m
    ensures |CappedTable.After(m, None, k)| < |m|
    ensures |CappedTable.After(m, None, k)| == |m| - 1 <==> IsOldest(m, None, k)
  {
    hide Before;
    BeforeIsStrictOrder(m, None, k, k, k);
    var others, later := m.Keys - {k}, CappedTable.After(m, None, k);
    SubsetSize(later, others);
    assert IsOldest(m, None, k) ==> later == others;
    if |later| == |m| - 1 {
      assert others == later + (others - later);
      assert others - later == {};
      forall y | y in m && y != k ensures Before(m, None, k, y) { assert y in later; }
    }
  }

  lemma {:induction false} RunKeepsBounded(s: State, steps: seq<Step>)
    requires Bounded(s) && Legal(s, steps)
    ensures Bounded(After(s, steps))
    decreases |steps|
  {
    if steps != [] { RunKeepsBounded(Apply(s, steps[0]), steps[1..]); }
  }

  // -- how a copy is accepted again ----------------------------------------------------------------

  const BOOT := State(map[], map[], 0.0, map[], Free, [])

  ghost predicate Reachable(s: State) { exists steps :: Legal(BOOT, steps) && After(BOOT, steps) == s }

  lemma {:induction false} OneStepMore(s: State, steps: seq<Step>, step: Step)
    requires Legal(s, steps) && Enabled(After(s, steps), step)
    ensures Legal(s, steps + [step]) && After(s, steps + [step]) == Apply(After(s, steps), step)
    decreases |steps|
  {
    hide Enabled, Apply;
    if steps == [] {
      assert steps + [step] == [step] && [step][1..] == [];
    } else {
      assert (steps + [step])[1..] == steps[1..] + [step];
      OneStepMore(Apply(s, steps[0]), steps[1..], step);
    }
  }

  lemma Next(s: State, step: Step)
    requires Reachable(s) && Enabled(s, step)
    ensures Reachable(Apply(s, step))
  {
    hide Enabled, Apply;
    var steps :| Legal(BOOT, steps) && After(BOOT, steps) == s;
    OneStepMore(BOOT, steps, step);
  }

  /** A first delivery of msg, accepted, pushed and recorded within second 0. */
  lemma FirstDelivery(msg: Signed) returns (s: State)
    requires msg.timestamp == 60
    ensures Reachable(s) && s.lock == Free && s.waiting == map[] && s.clock == 0.0 && s.log == [Accepted(msg), Push(msg.event), Recorded(msg.event)]
    ensures s.nonces == map[msg.nonce := 0] && msg.event in s.events
  {
    assert Reachable(BOOT) by { assert Legal(BOOT, []) && After(BOOT, []) == BOOT; }
    hide Reachable;
    Next(BOOT, Verify(0, msg, 0.0));
    var s1 := Apply(BOOT, Verify(0, msg, 0.0));
    Next(s1, Reserve(0, 0.0));
    var s2 := Apply(s1, Reserve(0, 0.0));
    FirstNonce(msg.nonce);
    Next(s2, Look);
    var s3 := Apply(s2, Look);
    Next(s3, Sent(true, 0.0));
    JustRecordedStays(s3.events, msg.event, 0);
    s := Apply(s3, Sent(true, 0.0));
  }

  lemma FirstNonce(n: Nonce)
    ensures Reserved(map[], n, 0) == map[n := 0] && !Replayed(map[], n, 0)
  {
    assert Unexpired(map[], 0) == map[];
    assert PrunedNonces(map[], 0) == map[];
    assert Unexpired(map[n := 0], 0) == map[n := 0];
  }

  /** A copy checked in time but 181 seconds in the queue is accepted a second time: 180 is the bound. */
  lemma LateCopyIsAccepted(msg: Signed)
    requires msg.timestamp == 60
    ensures exists s :: Reachable(s) && |s.log| == 4 && s.log[0] == s.log[3] == Accepted(msg)
  {
    var s := FirstDelivery(msg);
    hide Reachable;
    Next(s, Verify(0, msg, 120.0));
    var s1 := Apply(s, Verify(0, msg, 120.0));
    Next(s1, Reserve(0, 301.0));
    AcceptedExactly(s1, 0, 301.0);
    assert Apply(s1, Reserve(0, 301.0)).log[..3] == s.log;
  }

  lemma {:induction false} NewNonce(used: set<Nonce>) returns (n: Nonce)
    ensures forall x :: x in used ==> |x| < |n|
    decreases used
  {
    if used == {} {
      n := "n";
    } else {
      var x :| x in used;
      var m := NewNonce(used - {x});
      n := if |x| < |m| then m else x + "n";
      forall y | y in used ensures |y| < |n| { assert y == x || y in used - {x}; }
    }
  }

  /** msg's row is of second 0, and k rows of second 1 came after it. */
  ghost predicate Flooded(s: State, msg: Signed, k: nat) {
    && s.lock == Free && s.waiting == map[] && s.clock <= 1.0 && msg.event in s.events
    && s.log != [] && s.log[0] == Accepted(msg)
    && msg.nonce in s.nonces && s.nonces[msg.nonce] == 0 && |s.nonces| == k + 1
    && (forall x :: x in s.nonces && x != msg.nonce ==> s.nonces[x] == 1)
  }

  /** HQ asks again for a delivered event, with a nonce of its own: it is answered as a duplicate. */
  lemma OneMoreRetry(s: State, msg: Signed, k: nat) returns (s': State, other: Nonce)
    requires Reachable(s) && Flooded(s, msg, k) && k < MAX_NONCES
    ensures Reachable(s') && s'.lock == Free && s'.waiting == map[] && s'.clock == 1.0 && msg.event in s'.events
    ensures s'.log != [] && s'.log[0] == Accepted(msg) && other !in s.nonces && s'.nonces == Reserved(s.nonces, other, 1)
    ensures !Replayed(s.nonces, other, 1)
  {
    hide Reachable, Reserved;
    other := NewNonce(s.nonces.Keys);
    var retry := Signed(other, 1, msg.event);
    Next(s, Verify(0, retry, 1.0));
    var s1 := Apply(s, Verify(0, retry, 1.0));
    Next(s1, Reserve(0, 1.0));
    var s2 := Apply(s1, Reserve(0, 1.0));
    Next(s2, Look);
    s' := Apply(s2, Look);
  }

  lemma {:induction false} Flood(msg: Signed, k: nat) returns (s: State)
    requires msg.timestamp == 60 && k < MAX_NONCES
    ensures Reachable(s) && Flooded(s, msg, k)
    decreases k
  {
    if k == 0 {
      s := FirstDelivery(msg);
    } else {
      var before := Flood(msg, k - 1);
      var other: Nonce;
      hide Reachable;
      s, other := OneMoreRetry(before, msg, k - 1);
      RoomForOne(before.nonces, other);
    }
  }

  lemma RoomForOne(m: Rows, other: Nonce)
    requires other !in m && |m| < MAX_NONCES && forall x :: x in m ==> 0 <= m[x] <= 1
    ensures Reserved(m, other, 1) == m[other := 1] && |m[other := 1]| == |m| + 1
  {
    var more := m[other := 1];
    assert more.Keys == m.Keys + {other};
    assert Unexpired(m, 1) == m && Unexpired(more, 1) == more;
  }

  /** A thousand other nonces within a minute make room for msg to be accepted again. */
  lemma CrowdedOutCopyIsAccepted(msg: Signed)
    requires msg.timestamp == 60
    ensures exists s :: Reachable(s) && |s.log| > 1 && s.clock == 1.0 && s.log[0] == s.log[|s.log| - 1] == Accepted(msg)
  {
    var full := Flood(msg, MAX_NONCES - 1);
    hide Reachable, Reserved;
    var s, other := OneMoreRetry(full, msg, MAX_NONCES - 1);
    OldestGoes(full.nonces, msg.nonce, other);
    Next(s, Verify(0, msg, 1.0));
    var s1 := Apply(s, Verify(0, msg, 1.0));
    Next(s1, Reserve(0, 1.0));
    AcceptedExactly(s1, 0, 1.0);
  }

  lemma OldestGoes(m: Rows, n: Nonce, other: Nonce)
    requires |m| == MAX_NONCES && n in m && m[n] == 0 && other !in m && !Replayed(m, other, 1)
    requires forall x :: x in m && x != n ==> m[x] == 1
    ensures n !in Reserved(m, other, 1) && |Reserved(m, other, 1)| <= MAX_NONCES
  {
    assert Unexpired(m, 1) == m;
    EvictedExactly(m, n, other, 1);
  }

  // -- delivered events -----------------------------------------------------------------------------

  function Deliveries(steps: seq<Step>): nat {
    if steps == [] then 0 else (if steps[0].Sent? && steps[0].accepted then 1 else 0) + Deliveries(steps[1..])
  }

  ghost predicate Known(s: State, e: EventId, room: int) {
    && e in s.events && |Rivals(s.events, e)| + room < MAX_EVENTS
    && !(s.lock.Sending? && s.lock.msg.event == e)
  }

  ghost predicate NoPush(log: seq<Deed>, from: nat, e: EventId) { forall i :: from <= i < |log| ==> log[i] != Push(e) }

  lemma KnownStep(s: State, step: Step, e: EventId, room: int)
    requires Enabled(s, step) && Known(s, e, room) && room >= (if step.Sent? && step.accepted then 1 else 0)
    ensures Known(Apply(s, step), e, room - (if step.Sent? && step.accepted then 1 else 0))
    ensures forall i :: |s.log| <= i < |Apply(s, step).log| ==> Apply(s, step).log[i] != Push(e)
  {
    if step.Sent? && step.accepted { EventHolds(s.events, e, s.lock.msg.event, step.at.Floor); }
  }

  lemma {:induction false} NeverPushedAgain(s: State, steps: seq<Step>, e: EventId, from: nat)
    requires Legal(s, steps) && Known(s, e, Deliveries(steps)) && NoPush(s.log, from, e)
    ensures NoPush(After(s, steps).log, from, e)
    decreases |steps|
  {
    if steps != [] {
      KnownStep(s, steps[0], e, Deliveries(steps));
      var s1 := Apply(s, steps[0]);
      assert s1.log[..|s.log|] == s.log;
      forall i | from <= i < |s1.log| ensures s1.log[i] != Push(e) {
        if i < |s.log| { assert s1.log[i] == s.log[i]; }
      }
      NeverPushedAgain(s1, steps[1..], e, from);
    }
  }

  /** No row is stamped later than now. */
  ghost predicate Stamped(s: State) { forall e :: e in s.events ==> s.events[e] <= s.clock.Floor }

  /** Both hold in every run from a hub with nothing under way. */
  lemma {:induction false} RunKeepsOrder(s: State, steps: seq<Step>)
    requires Checked(s) && Stamped(s) && Legal(s, steps)
    ensures Checked(After(s, steps)) && Stamped(After(s, steps))
    decreases |steps|
  {
    if steps != [] { RunKeepsOrder(Apply(s, steps[0]), steps[1..]); }
  }

  /** Once recorded, an event is not pushed again until 1000 deliveries of its second or later are known. */
  lemma DeliveredIsNotPushedAgain(s: State, at: real, steps: seq<Step>)
    requires Stamped(s) && Enabled(s, Sent(true, at)) && Legal(Apply(s, Sent(true, at)), steps)
    requires |Rivals(s.events[s.lock.msg.event := at.Floor], s.lock.msg.event)| + Deliveries(steps) < MAX_EVENTS
    ensures NoPush(After(Apply(s, Sent(true, at)), steps).log, |s.log|, s.lock.msg.event)
  {
    var e := s.lock.msg.event;
    var s1 := Apply(s, Sent(true, at));
    JustRecordedStays(s.events, e, at.Floor);
    SubsetSize(Rivals(s1.events, e), Rivals(s.events[e := at.Floor], e));
    NeverPushedAgain(s1, steps, e, |s.log|);
  }

  predicate WasRecorded(log: seq<Deed>, e: EventId, known: set<EventId>) { e in known || Recorded(e) in log }

  ghost predicate Honest(log: seq<Deed>, known: set<EventId>) {
    forall j :: 0 <= j < |log| && log[j].AnsweredDuplicate? ==> WasRecorded(log[..j], log[j].event, known)
  }

  ghost predicate RecordedAll(s: State, known: set<EventId>) { forall e :: e in s.events ==> WasRecorded(s.log, e, known) }

  lemma HonestAppend(log: seq<Deed>, d: Deed, known: set<EventId>)
    requires Honest(log, known) && (d.AnsweredDuplicate? ==> WasRecorded(log, d.event, known))
    ensures Honest(log + [d], known)
  {
    var all := log + [d];
    forall j | 0 <= j < |all| && all[j].AnsweredDuplicate? ensures WasRecorded(all[..j], all[j].event, known) {
      assert all[..j] == log[..j];
    }
  }

  lemma HonestStep(s: State, step: Step, known: set<EventId>)
    requires Enabled(s, step) && Honest(s.log, known) && RecordedAll(s, known)
    ensures Honest(Apply(s, step).log, known) && RecordedAll(Apply(s, step), known)
  {
    var s' := Apply(s, step);
    if s'.log != s.log {
      var d := s'.log[|s.log|];
      assert s'.log == s.log + [d];
      HonestAppend(s.log, d, known);
    }
  }

  /** Only an event the relay accepted is ever answered as a duplicate: a failed push stays open to HQ's retry. */
  lemma {:induction false} DuplicatesWereDelivered(s: State, steps: seq<Step>, known: set<EventId>)
    requires Legal(s, steps) && Honest(s.log, known) && RecordedAll(s, known)
    ensures Honest(After(s, steps).log, known)
    decreases |steps|
  {
    if steps != [] {
      HonestStep(s, steps[0], known);
      DuplicatesWereDelivered(Apply(s, steps[0]), steps[1..], known);
    }
  }
}
