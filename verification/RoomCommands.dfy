/**
 Keyed room commands: a retry under the room's lock replays the stored answer
 instead of switching the room again. Each member's 64 newest answers are kept.
 */
module RoomCommands {
  import opened Wrappers

  type MemberId = string
  type RoomId = string
  type Answer = string

  const MAX_ANSWERS := 64

  datatype Action = TurnOff | TurnOn

  datatype Command = Command(member: MemberId, room: RoomId, action: Action, key: string)

  function ActionText(a: Action): string { if a.TurnOff? then "turn_off" else "turn_on" }

  /** The key an answer is stored under, among its member's. */
  function Slot(c: Command): string { c.room + ":" + ActionText(c.action) + ":" + c.key }

  // -- which commands share a slot --------------------------------------------------------

  predicate KeyChar(c: char) { 'A' <= c <= 'Z' || 'a' <= c <= 'z' || '0' <= c <= '9' || c in "._:-" }

  predicate KeyChars(s: string) { forall i :: 0 <= i < |s| ==> KeyChar(s[i]) }

  /** validate_idempotency_key. */
  predicate ValidKey(key: string) { 8 <= |key| <= 128 && KeyChars(key) }

  /**
   b is a, a colon and the action, and then nothing or a further colon and key
   text, short enough to be part of a key of a's.
   */
  predicate ExtendsBy(a: RoomId, b: RoomId, act: Action) {
    var stem := a + ":" + ActionText(act);
    && |stem| <= |b| <= |stem| + 112
    && b[..|stem|] == stem
    && KeyChars(b[|stem|..])
    && (|b| > |stem| ==> b[|stem|] == ':')
  }

  predicate Extends(a: RoomId, b: RoomId) { ExtendsBy(a, b, TurnOn) || ExtendsBy(a, b, TurnOff) }

  predicate Clash(a: RoomId, b: RoomId) { Extends(a, b) || Extends(b, a) }

  predicate NoColon(s: string) { ':' !in s }

  lemma FirstColon(a: string, b: string, x: string, y: string)
    requires NoColon(a) && NoColon(b) && a + ":" + x == b + ":" + y
    ensures a == b && x == y
  {
    var s := a + ":" + x;
    assert s[|a|] == ':' && s[|b|] == ':';
    assert forall i :: 0 <= i < |a| ==> s[i] == a[i];
    assert forall i :: 0 <= i < |b| ==> s[i] == b[i];
    assert |a| == |b|;
    assert a == s[..|a|] && b == s[..|b|];
    assert x == s[|a| + 1..] && y == s[|b| + 1..];
  }

  lemma SlotParts(c: Command)
    ensures Slot(c) == c.room + ":" + (ActionText(c.action) + ":" + c.key)
    ensures Slot(c)[..|c.room|] == c.room && Slot(c)[|c.room|] == ':'
    ensures Slot(c)[|c.room| + 1..] == ActionText(c.action) + ":" + c.key
    ensures NoColon(ActionText(c.action)) && 7 <= |ActionText(c.action)|
  {}

  /** In one room a slot is one command's. */
  lemma OneRoomOneSlot(c: Command, d: Command)
    requires c.member == d.member && c.room == d.room && Slot(c) == Slot(d)
    ensures c == d
  {
    SlotParts(c);
    SlotParts(d);
    FirstColon(ActionText(c.action), ActionText(d.action), c.key, d.key);
  }

  /** The longer of two room ids that share a slot extends the other. */
  lemma LongerExtends(c: Command, d: Command)
    requires ValidKey(c.key) && ValidKey(d.key) && |c.room| < |d.room| && Slot(c) == Slot(d)
    ensures ExtendsBy(c.room, d.room, c.action)
  {
    hide KeyChars, Slot;
    SlotParts(c);
    SlotParts(d);
    var rest := d.room[|c.room| + 1..];
    var more := ActionText(d.action) + ":" + d.key;
    assert Slot(c)[..|d.room|] == d.room;
    LongerSplits(c.room, d.room, Slot(c));
    DropPrefix(c.room, rest, more);
    TailIsKeyText(ActionText(c.action), c.key, rest, more);
  }

  lemma LongerSplits(a: string, b: string, s: string)
    requires |a| < |b| <= |s| && s[..|b|] == b && s[..|a|] == a && s[|a|] == ':'
    ensures b == a + ":" + b[|a| + 1..]
  {
    assert forall i :: 0 <= i < |a| ==> b[i] == s[i] == a[i];
    assert b[|a|] == s[|a|];
  }

  lemma DropPrefix(a: string, rest: string, more: string)
    ensures ((a + ":" + rest) + ":" + more)[|a| + 1..] == rest + ":" + more
  {}

  lemma TailIsKeyText(act: string, key: string, rest: string, more: string)
    requires act + ":" + key == rest + ":" + more && NoColon(act) && ValidKey(key) && |more| >= 16
    ensures |act| <= |rest| <= |act| + 112 && rest[..|act|] == act && KeyChars(rest[|act|..])
    ensures |rest| > |act| ==> rest[|act|] == ':'
  {
    var u := act + ":" + key;
    assert u[|rest|] == ':' && u[..|rest|] == rest;
    assert forall i :: 0 <= i < |act| ==> u[i] == act[i];
    assert u[..|act|] == act;
    forall i | |act| <= i < |rest| ensures KeyChar(rest[i]) {
      assert rest[i] == u[i];
      if i > |act| { assert u[i] == key[i - |act| - 1]; }
    }
  }

  lemma TailMakesKey(tail: string) returns (key: string)
    requires |tail| <= 112 && KeyChars(tail) && (tail != "" ==> tail[0] == ':')
    ensures ValidKey(key) && tail + ":turn_on:aaaaaaaa" == ":" + key
  {
    var end := ":turn_on:aaaaaaaa";
    assert KeyChars(end);
    var all := tail + end;
    key := all[1..];
    assert all[0] == ':';
    forall i | 0 <= i < |key| ensures KeyChar(key[i]) {
      assert key[i] == all[i + 1];
    }
  }

  lemma ExtensionShares(member: MemberId, a: RoomId, b: RoomId, act: Action) returns (c: Command, d: Command)
    requires ExtendsBy(a, b, act)
    ensures c.member == d.member == member && c.room == a && d.room == b && ValidKey(c.key) && ValidKey(d.key) && Slot(c) == Slot(d)
  {
    var stem := a + ":" + ActionText(act);
    var tail := b[|stem|..];
    var key := TailMakesKey(tail);
    var eight := "aaaaaaaa";
    assert ValidKey(eight);
    c, d := Command(member, a, act, key), Command(member, b, TurnOn, eight);
    SameSlot(stem, tail, key, c, d);
  }

  lemma SameSlot(stem: string, tail: string, key: string, c: Command, d: Command)
    requires tail + ":turn_on:aaaaaaaa" == ":" + key
    requires d.room == stem + tail && d.action == TurnOn && d.key == "aaaaaaaa"
    requires stem == c.room + ":" + ActionText(c.action) && c.key == key
    ensures Slot(c) == Slot(d)
  {
    var end := ":" + ActionText(TurnOn) + ":" + "aaaaaaaa";
    assert end == ":turn_on:aaaaaaaa";
    hide ActionText;
    assert Slot(d) == stem + tail + end;
    Regroup(stem, tail, end);
    assert Slot(c) == stem + (":" + key);
  }

  lemma Regroup(x: string, y: string, z: string)
    ensures x + y + z == x + (y + z)
  {}

  /** Exactly when two commands of a member in rooms a and b can share an answer slot. */
  lemma SlotsClashExactly(member: MemberId, a: RoomId, b: RoomId)
    ensures Clash(a, b) <==> exists c: Command, d: Command :: SharesSlot(c, d, member, a, b)
  {
    forall c: Command, d: Command | SharesSlot(c, d, member, a, b) ensures Clash(a, b) { SharedSlotsClash(c, d); }
    if Clash(a, b) {
      var c, d;
      if ExtendsBy(a, b, TurnOn) {
        c, d := ExtensionShares(member, a, b, TurnOn);
      } else if ExtendsBy(a, b, TurnOff) {
        c, d := ExtensionShares(member, a, b, TurnOff);
      } else if ExtendsBy(b, a, TurnOn) {
        d, c := ExtensionShares(member, b, a, TurnOn);
      } else {
        d, c := ExtensionShares(member, b, a, TurnOff);
      }
      assert SharesSlot(c, d, member, a, b);
    }
  }

  predicate SharesSlot(c: Command, d: Command, member: MemberId, a: RoomId, b: RoomId) {
    c != d && c.member == d.member == member && c.room == a && d.room == b && ValidKey(c.key) && ValidKey(d.key) && Slot(c) == Slot(d)
  }

  lemma SharedSlotsClash(c: Command, d: Command)
    requires c != d && c.member == d.member && ValidKey(c.key) && ValidKey(d.key) && Slot(c) == Slot(d)
    ensures Clash(c.room, d.room)
  {
    SlotParts(c);
    SlotParts(d);
    if |c.room| == |d.room| {
      assert c.room == Slot(c)[..|c.room|] == d.room;
      OneRoomOneSlot(c, d);
    } else if |c.room| < |d.room| {
      LongerExtends(c, d);
    } else {
      LongerExtends(d, c);
    }
  }

  /** In rooms that do not clash a member's slot is one command's. */
  lemma SlotsAreDistinct(c: Command, d: Command)
    requires c.member == d.member && ValidKey(c.key) && ValidKey(d.key) && !Clash(c.room, d.room) && Slot(c) == Slot(d)
    ensures c == d
  {
    if c != d { SharedSlotsClash(c, d); }
  }

  /** Rooms "a" and "a:turn_on" do clash. */
  lemma ColonsCanClash(member: MemberId, key: string)
    requires ValidKey(key) && |key| <= 120
    ensures var c, d := Command(member, "a", TurnOn, "turn_on:" + key), Command(member, "a:turn_on", TurnOn, key);
      SharesSlot(c, d, member, "a", "a:turn_on")
  {
    var c, d := Command(member, "a", TurnOn, "turn_on:" + key), Command(member, "a:turn_on", TurnOn, key);
    LongerKey(key);
    hide KeyChars, ValidKey;
    assert Slot(c) == "a:turn_on:turn_on:" + key;
    assert Slot(d) == "a:turn_on:turn_on:" + key;
  }

  lemma LongerKey(key: string)
    requires ValidKey(key) && |key| <= 120
    ensures ValidKey("turn_on:" + key)
  {
    assert KeyChars("turn_on:");
  }

  /** Ids without a colon, as the registry's are, never do. */
  lemma ColonFreeRoomsNeverClash(a: RoomId, b: RoomId)
    requires NoColon(a) && NoColon(b)
    ensures !Clash(a, b)
  {
    forall x: RoomId, y: RoomId, act: Action | ExtendsBy(x, y, act) ensures ':' in y {
      var stem := x + ":" + ActionText(act);
      assert y[|x|] == stem[|x|];
    }
  }

  // -- one member's answers --------------------------------------------------------------

  datatype Entry = Entry(slot: string, answer: Answer)

  /** Insertion order, oldest first; a slot is there once. */
  type Answers = seq<Entry>

  predicate Holds(q: Answers, slot: string) { exists i :: 0 <= i < |q| && q[i].slot == slot }

  function Lookup(q: Answers, slot: string): Option<Answer> {
    if q == [] then None else if q[0].slot == slot then Some(q[0].answer) else Lookup(q[1..], slot)
  }

  lemma {:induction false} LookupFinds(q: Answers, slot: string)
    ensures Lookup(q, slot).Some? <==> Holds(q, slot)
  {
    if q != [] && q[0].slot != slot {
      LookupFinds(q[1..], slot);
      if Holds(q, slot) {
        var i :| 0 <= i < |q| && q[i].slot == slot;
        assert q[1..][i - 1].slot == slot;
      }
      if Holds(q[1..], slot) {
        var i :| 0 <= i < |q[1..]| && q[1..][i].slot == slot;
        assert q[i + 1].slot == slot;
      }
    }
  }

  /** dict assignment: a slot already there keeps its place. */
  function Put(q: Answers, e: Entry): Answers {
    if q == [] then [e] else if q[0].slot == e.slot then [e] + q[1..] else [q[0]] + Put(q[1..], e)
  }

  function Newest(q: Answers): Answers { if |q| <= MAX_ANSWERS then q else q[|q| - MAX_ANSWERS..] }

  /** save_idempotent_result. */
  function Stored(q: Answers, e: Entry): Answers { Newest(Put(q, e)) }

  /** slot is there, with at most `later` answers stored after it. */
  ghost predicate Recent(q: Answers, slot: string, later: nat) {
    exists i :: 0 <= i < |q| && q[i].slot == slot && |q| - 1 - i <= later
  }

  lemma {:induction false} PutShape(q: Answers, e: Entry)
    ensures |q| <= |Put(q, e)| <= |q| + 1
    ensures Put(q, e) != [] && (!Holds(q, e.slot) ==> Put(q, e) == q + [e])
    ensures forall i :: 0 <= i < |q| ==> Put(q, e)[i].slot == q[i].slot
  {
    if q != [] && q[0].slot != e.slot {
      PutShape(q[1..], e);
      if !Holds(q, e.slot) {
        forall i | 0 <= i < |q[1..]| ensures q[1..][i].slot != e.slot { assert q[i + 1].slot != e.slot; }
      }
    }
  }

  lemma StoringKeepsRecent(q: Answers, e: Entry, slot: string, later: nat)
    requires Recent(q, slot, later) && later + 1 < MAX_ANSWERS
    ensures Recent(Stored(q, e), slot, later + 1)
  {
    var i :| 0 <= i < |q| && q[i].slot == slot && |q| - 1 - i <= later;
    PutShape(q, e);
    hide Put;
    var all := Put(q, e);
    assert all[i].slot == slot;
    var cut := if |all| <= MAX_ANSWERS then 0 else |all| - MAX_ANSWERS;
    assert Stored(q, e)[i - cut].slot == slot;
  }

  lemma JustStored(q: Answers, e: Entry)
    requires !Holds(q, e.slot)
    ensures Recent(Stored(q, e), e.slot, 0)
  {
    PutShape(q, e);
    var s := Stored(q, e);
    assert s[|s| - 1] == e;
  }

  method DropOldest(all: Answers) returns (results: Answers)
    ensures results == Newest(all)
  {
    results := all;
    while |results| > MAX_ANSWERS
      invariant |results| <= |all| && results == all[|all| - |results|..]
      invariant |all| > MAX_ANSWERS ==> |results| >= MAX_ANSWERS
      invariant |all| <= MAX_ANSWERS ==> results == all
    {
      results := results[1..];
    }
  }

  class AnswerTable {
    var answers: map<MemberId, Answers>

    constructor ()
      ensures answers == map[]
    {
      answers := map[];
    }

    method IdempotentResult(c: Command) returns (r: Option<Answer>)
      ensures r == Lookup(if c.member in answers then answers[c.member] else [], Slot(c))
    {
      r := Lookup(if c.member in answers then answers[c.member] else [], Slot(c));
    }

    method SaveIdempotentResult(c: Command, answer: Answer)
      modifies this
      ensures answers == old(answers)[c.member := Stored(if c.member in old(answers) then old(answers)[c.member] else [], Entry(Slot(c), answer))]
    {
      var results := if c.member in answers then answers[c.member] else [];
      results := DropOldest(Put(results, Entry(Slot(c), answer)));
      answers := answers[c.member := results];
    }
  }

  // -- every interleaving of rooms and retries --------------------------------------------

  datatype Outcome =
    | Answered(answer: Answer)   // switched, and the answer stored
    | Refused                    // nothing to switch, or the room takes no part
    | Failed                     // an error after switching: no answer to store

  datatype Deed = Ran(cmd: Command, stored: Option<Answer>) | Replayed(cmd: Command, answer: Answer)

  datatype State = State(answers: map<MemberId, Answers>, busy: map<RoomId, Command>, log: seq<Deed>)

  datatype Step =
    | Take(cmd: Command)                        // the room's lock, and the replay check under it
    | Finish(room: RoomId, outcome: Outcome)    // the command is through and lets the lock go

  predicate Enabled(s: State, step: Step) {
    match step
    case Take(cmd) => cmd.room !in s.busy && ValidKey(cmd.key)
    case Finish(room, _) => room in s.busy
  }

  function AnswersOf(s: State, m: MemberId): Answers { if m in s.answers then s.answers[m] else [] }

  function Apply(s: State, step: Step): State
    requires Enabled(s, step)
  {
    match step
    case Take(cmd) =>
      var known := Lookup(AnswersOf(s, cmd.member), Slot(cmd));
      if known.Some? then s.(log := s.log + [Replayed(cmd, known.value)]) else s.(busy := s.busy[cmd.room := cmd])
    case Finish(room, outcome) =>
      var cmd := s.busy[room];
      var s1 := s.(busy := s.busy - {room});
      if outcome.Refused? then s1
      else if outcome.Failed? then s1.(log := s.log + [Ran(cmd, None)])
      else s1.(log := s.log + [Ran(cmd, Some(outcome.answer))],
               answers := s.answers[cmd.member := Stored(AnswersOf(s, cmd.member), Entry(Slot(cmd), outcome.answer))])
  }

  predicate Legal(s: State, steps: seq<Step>)
    decreases |steps|
  {
    steps == [] || (Enabled(s, steps[0]) && Legal(Apply(s, steps[0]), steps[1..]))
  }

  function After(s: State, steps: seq<Step>): State
    requires Legal(s, steps)
    decreases |steps|
  {
    if steps == [] then s else After(Apply(s, steps[0]), steps[1..])
  }

  /** Answers this member is given during the run. */
  function Given(s: State, steps: seq<Step>, m: MemberId): nat
    requires Legal(s, steps)
    decreases |steps|
  {
    if steps == [] then 0 else Gives(s, steps[0], m) + Given(Apply(s, steps[0]), steps[1..], m)
  }

  function Gives(s: State, step: Step, m: MemberId): nat
    requires Enabled(s, step)
  {
    if step.Finish? && step.outcome.Answered? && s.busy[step.room].member == m then 1 else 0
  }

  predicate Runs(d: Deed, c: Command) { d.Ran? && d.cmd == c }

  /** A room is busy with a command of its own. */
  ghost predicate Sane(s: State) { forall r :: r in s.busy ==> s.busy[r].room == r }

  /** c's answer is stored with room for this many more, and c is not running. */
  ghost predicate Safe(s: State, c: Command, room: nat) {
    (exists later: nat :: later + room < MAX_ANSWERS && Recent(AnswersOf(s, c.member), Slot(c), later))
    && !(c.room in s.busy && s.busy[c.room] == c)
  }

  lemma SafeStep(s: State, step: Step, c: Command, room: nat)
    requires Enabled(s, step) && Sane(s) && Safe(s, c, room) && room >= Gives(s, step, c.member)
    ensures Sane(Apply(s, step)) && Safe(Apply(s, step), c, room - Gives(s, step, c.member))
    ensures var was, now := s.log, Apply(s, step).log;
      now == was || (|now| == |was| + 1 && now[..|was|] == was && !Runs(now[|was|], c))
  {
    var later: nat :| later + room < MAX_ANSWERS && Recent(AnswersOf(s, c.member), Slot(c), later);
    match step
    case Take(cmd) =>
      if cmd == c {
        LookupFinds(AnswersOf(s, c.member), Slot(c));
        var i :| 0 <= i < |AnswersOf(s, c.member)| && AnswersOf(s, c.member)[i].slot == Slot(c);
        assert Holds(AnswersOf(s, c.member), Slot(c));
      }
      assert Recent(AnswersOf(Apply(s, step), c.member), Slot(c), later);
    case Finish(r, outcome) =>
      if Gives(s, step, c.member) == 1 {
        StoringKeepsRecent(AnswersOf(s, c.member), Entry(Slot(s.busy[r]), outcome.answer), Slot(c), later);
        assert Recent(AnswersOf(Apply(s, step), c.member), Slot(c), later + 1);
      } else {
        assert Recent(AnswersOf(Apply(s, step), c.member), Slot(c), later);
      }
  }

  ghost predicate NotRun(log: seq<Deed>, from: nat, c: Command) { forall i :: from <= i < |log| ==> !Runs(log[i], c) }

  lemma {:induction false} NeverRunsAgain(s: State, steps: seq<Step>, c: Command, from: nat)
    requires Legal(s, steps) && Sane(s) && Safe(s, c, Given(s, steps, c.member)) && NotRun(s.log, from, c)
    ensures NotRun(After(s, steps).log, from, c)
    decreases |steps|
  {
    if steps != [] {
      SafeStep(s, steps[0], c, Given(s, steps, c.member));
      var s1 := Apply(s, steps[0]);
      forall i | from <= i < |s1.log| ensures !Runs(s1.log[i], c) {
        if i < |s.log| { assert s1.log[i] == s.log[i]; }
      }
      NeverRunsAgain(s1, steps[1..], c, from);
    }
  }

  /** Commands under way run in their own room, one of these, and have no stored answer. */
  ghost predicate Unanswered(s: State, rooms: set<RoomId>) {
    && Sane(s)
    && (forall r :: r in s.busy ==> r in rooms && ValidKey(s.busy[r].key) && !Holds(AnswersOf(s, s.busy[r].member), Slot(s.busy[r])))
  }

  ghost predicate Apart(rooms: set<RoomId>) { forall a, b :: a in rooms && b in rooms ==> !Clash(a, b) }

  predicate Within(steps: seq<Step>, rooms: set<RoomId>) { forall i :: 0 <= i < |steps| && steps[i].Take? ==> steps[i].cmd.room in rooms }

  /** A command answered once is not run again while fewer than 64 later answers of its member are stored. */
  lemma AnsweredRunsOnce(s: State, rooms: set<RoomId>, r: RoomId, answer: Answer, steps: seq<Step>)
    requires Unanswered(s, rooms) && r in s.busy
    requires Legal(Apply(s, Finish(r, Answered(answer))), steps)
    requires Given(Apply(s, Finish(r, Answered(answer))), steps, s.busy[r].member) < MAX_ANSWERS
    ensures NotRun(After(Apply(s, Finish(r, Answered(answer))), steps).log, |s.log| + 1, s.busy[r])
  {
    var c := s.busy[r];
    var s1 := Apply(s, Finish(r, Answered(answer)));
    JustStored(AnswersOf(s, c.member), Entry(Slot(c), answer));
    assert Recent(AnswersOf(s1, c.member), Slot(c), 0);
    NeverRunsAgain(s1, steps, c, |s.log| + 1);
  }

  /** The lock keeps a command's twin out while it runs, and no other room's answer takes its slot. */
  lemma StepKeepsUnanswered(s: State, step: Step, rooms: set<RoomId>)
    requires Enabled(s, step) && Unanswered(s, rooms) && Apart(rooms) && (step.Take? ==> step.cmd.room in rooms)
    ensures Unanswered(Apply(s, step), rooms)
  {
    match step
    case Take(cmd) =>
      LookupFinds(AnswersOf(s, cmd.member), Slot(cmd));
      hide Holds, ValidKey, Slot, Clash;
    case Finish(r, outcome) =>
      if outcome.Answered? { AnswerKeepsUnanswered(s, r, outcome.answer, rooms); }
      hide Holds, ValidKey, Slot, Clash, Stored;
  }

  lemma AnswerKeepsUnanswered(s: State, r: RoomId, answer: Answer, rooms: set<RoomId>)
    requires Unanswered(s, rooms) && Apart(rooms) && r in s.busy
    ensures Unanswered(Apply(s, Finish(r, Answered(answer))), rooms)
  {
    var s', done := Apply(s, Finish(r, Answered(answer))), s.busy[r];
    hide Holds, ValidKey, Slot, Clash, Stored;
    forall o | o in s'.busy ensures !Holds(AnswersOf(s', s'.busy[o].member), Slot(s'.busy[o])) {
      var c := s.busy[o];
      if c.member == done.member {
        if Slot(c) == Slot(done) { SlotsAreDistinct(c, done); }
        StoringHolds(AnswersOf(s, c.member), Entry(Slot(done), answer), Slot(c));
      }
    }
  }

  lemma StoringHolds(q: Answers, e: Entry, slot: string)
    requires !Holds(q, slot) && slot != e.slot
    ensures !Holds(Stored(q, e), slot)
  {
    PutShape(q, e);
    LastIsNew(q, e);
    var all, s := Put(q, e), Stored(q, e);
    var cut := |all| - |s|;
    forall k | 0 <= k < |all| ensures all[k].slot != slot {
      if k < |q| { assert all[k].slot == q[k].slot; }
    }
    forall i | 0 <= i < |s| ensures s[i].slot != slot { assert s[i] == all[cut + i]; }
  }

  lemma {:induction false} LastIsNew(q: Answers, e: Entry)
    ensures |Put(q, e)| > |q| ==> Put(q, e)[|q|] == e
  {
    if q != [] && q[0].slot != e.slot { LastIsNew(q[1..], e); }
  }

  /** ... so every state of every run from an idle hub has it, in rooms that do not clash. */
  lemma {:induction false} RunKeepsUnanswered(s: State, steps: seq<Step>, rooms: set<RoomId>)
    requires Legal(s, steps) && Unanswered(s, rooms) && Apart(rooms) && Within(steps, rooms)
    ensures Unanswered(After(s, steps), rooms)
    decreases |steps|
  {
    if steps != [] {
      StepKeepsUnanswered(s, steps[0], rooms);
      RunKeepsUnanswered(Apply(s, steps[0]), steps[1..], rooms);
    }
  }

  /** A refused command counts as not run, a failed one as run without an answer; either way the next try runs. */
  lemma UnansweredCanRunAgain(s: State, r: RoomId, outcome: Outcome)
    requires r in s.busy && !outcome.Answered? && ValidKey(s.busy[r].key) && s.busy[r].room == r
    requires !Holds(AnswersOf(s, s.busy[r].member), Slot(s.busy[r]))
    ensures var s', c := Apply(s, Finish(r, outcome)), s.busy[r];
      && s'.answers == s.answers && s'.log == (if outcome.Failed? then s.log + [Ran(c, None)] else s.log)
      && Enabled(s', Take(c)) && Apply(s', Take(c)) == s'.(busy := s'.busy[r := c])
  {
    LookupFinds(AnswersOf(s, s.busy[r].member), Slot(s.busy[r]));
  }

  // -- a replayed answer is the stored one -------------------------------------------------

  /** The answer stored last for this member's slot, by the whole history. */
  function LastStored(log: seq<Deed>, m: MemberId, slot: string): Option<Answer> {
    if log == [] then None
    else
      var d := log[|log| - 1];
      if d.Ran? && d.stored.Some? && d.cmd.member == m && Slot(d.cmd) == slot then d.stored
      else LastStored(log[..|log| - 1], m, slot)
  }

  predicate OnePlace(q: Answers) { forall i, k :: 0 <= i < k < |q| ==> q[i].slot != q[k].slot }

  lemma {:induction false} LookupAt(q: Answers, i: nat)
    requires OnePlace(q) && i < |q|
    ensures Lookup(q, q[i].slot) == Some(q[i].answer)
  {
    if i > 0 {
      assert q[0].slot != q[i].slot;
      OnePlaceParts(q);
      LookupAt(q[1..], i - 1);
    }
  }

  lemma OnePlaceParts(q: Answers)
    requires OnePlace(q) && q != []
    ensures OnePlace(q[1..])
  {
    assert forall i :: 0 <= i < |q[1..]| ==> q[1..][i] == q[i + 1];
  }

  lemma {:induction false} PutThenLookup(q: Answers, e: Entry, slot: string)
    ensures Lookup(Put(q, e), slot) == if slot == e.slot then Some(e.answer) else Lookup(q, slot)
  {
    if q != [] && q[0].slot != e.slot { PutThenLookup(q[1..], e, slot); }
  }

  lemma PutKeepsOnePlace(q: Answers, e: Entry)
    requires OnePlace(q)
    ensures OnePlace(Put(q, e))
  {
    PutShape(q, e);
    if Holds(q, e.slot) { PutInPlace(q, e); }
    hide Put;
  }

  lemma {:induction false} PutInPlace(q: Answers, e: Entry)
    requires Holds(q, e.slot)
    ensures |Put(q, e)| == |q|
  {
    if q[0].slot != e.slot {
      var i :| 0 <= i < |q| && q[i].slot == e.slot;
      assert q[1..][i - 1].slot == e.slot;
      PutInPlace(q[1..], e);
    }
  }

  /** What is still held after the oldest are dropped is what was held before. */
  lemma NewestThenLookup(q: Answers, slot: string)
    requires OnePlace(q)
    ensures OnePlace(Newest(q)) && (Lookup(Newest(q), slot).Some? ==> Lookup(Newest(q), slot) == Lookup(q, slot))
  {
    var n := Newest(q);
    var cut := |q| - |n|;
    assert forall i :: 0 <= i < |n| ==> n[i] == q[cut + i];
    LookupFinds(n, slot);
    if Lookup(n, slot).Some? {
      var i :| 0 <= i < |n| && n[i].slot == slot;
      LookupAt(n, i);
      LookupAt(q, cut + i);
    }
  }

  /** Every stored answer is the last given for its slot, and every replay gave such an answer. */
  ghost predicate Faithful(s: State) {
    && (forall m :: OnePlace(AnswersOf(s, m)))
    && (forall m, slot :: Lookup(AnswersOf(s, m), slot).Some? ==> Lookup(AnswersOf(s, m), slot) == LastStored(s.log, m, slot))
    && (forall j :: 0 <= j < |s.log| && s.log[j].Replayed? ==> GivesLast(s.log, j))
  }

  predicate GivesLast(log: seq<Deed>, j: nat)
    requires j < |log| && log[j].Replayed?
  {
    LastStored(log[..j], log[j].cmd.member, Slot(log[j].cmd)) == Some(log[j].answer)
  }

  lemma StoringIsFaithful(q: Answers, e: Entry, slot: string)
    requires OnePlace(q)
    ensures OnePlace(Stored(q, e))
    ensures Lookup(Stored(q, e), slot).Some? ==> Lookup(Stored(q, e), slot) == if slot == e.slot then Some(e.answer) else Lookup(q, slot)
  {
    PutKeepsOnePlace(q, e);
    PutThenLookup(q, e, slot);
    NewestThenLookup(Put(q, e), slot);
  }

  lemma StepKeepsFaithful(s: State, step: Step)
    requires Faithful(s) && Enabled(s, step)
    ensures Faithful(Apply(s, step))
  {
    var s' := Apply(s, step);
    assert s'.log == s.log || s'.log[..|s'.log| - 1] == s.log;
    forall j | 0 <= j < |s'.log| && s'.log[j].Replayed? ensures GivesLast(s'.log, j) {
      assert s'.log[..j] == s.log[..j];
      if j < |s.log| { assert GivesLast(s.log, j); } else { assert s.log[..j] == s.log; }
    }
    AnswersStayFaithful(s, step);
  }

  lemma AnswersStayFaithful(s: State, step: Step)
    requires Faithful(s) && Enabled(s, step)
    ensures var s' := Apply(s, step);
      && (forall m :: OnePlace(AnswersOf(s', m)))
      && (forall m, slot :: Lookup(AnswersOf(s', m), slot).Some? ==> Lookup(AnswersOf(s', m), slot) == LastStored(s'.log, m, slot))
  {
    var s' := Apply(s, step);
    assert s'.log == s.log || s'.log[..|s'.log| - 1] == s.log;
    forall m ensures OnePlace(AnswersOf(s', m)) {
      assert OnePlace(AnswersOf(s, m));
      if step.Finish? && step.outcome.Answered? && s.busy[step.room].member == m {
        StoringIsFaithful(AnswersOf(s, m), Entry(Slot(s.busy[step.room]), step.outcome.answer), "");
      } else {
        assert AnswersOf(s', m) == AnswersOf(s, m);
      }
    }
    hide OnePlace;
    forall m, slot
      ensures Lookup(AnswersOf(s', m), slot).Some? ==> Lookup(AnswersOf(s', m), slot) == LastStored(s'.log, m, slot)
    {
      if step.Finish? && step.outcome.Answered? && s.busy[step.room].member == m {
        StoringIsFaithful(AnswersOf(s, m), Entry(Slot(s.busy[step.room]), step.outcome.answer), slot);
      }
    }
  }

  lemma {:induction false} RunKeepsFaithful(s: State, steps: seq<Step>)
    requires Faithful(s) && Legal(s, steps)
    ensures Faithful(After(s, steps))
    decreases |steps|
  {
    if steps != [] {
      StepKeepsFaithful(s, steps[0]);
      RunKeepsFaithful(Apply(s, steps[0]), steps[1..]);
    }
  }

  lemma {:induction false} LastStoredIsThere(log: seq<Deed>, m: MemberId, slot: string) returns (i: nat)
    requires LastStored(log, m, slot).Some?
    ensures i < |log| && log[i].Ran? && log[i].stored == LastStored(log, m, slot) && log[i].cmd.member == m && Slot(log[i].cmd) == slot
    ensures forall k :: i < k < |log| && log[k].Ran? && log[k].cmd.member == m && Slot(log[k].cmd) == slot ==> log[k].stored.None?
  {
    var d := log[|log| - 1];
    if d.Ran? && d.stored.Some? && d.cmd.member == m && Slot(d.cmd) == slot {
      i := |log| - 1;
    } else {
      i := LastStoredIsThere(log[..|log| - 1], m, slot);
    }
  }

  /** Only keyed commands of these rooms have run or been replayed. */
  ghost predicate Familiar(s: State, rooms: set<RoomId>) {
    && (forall r :: r in s.busy ==> s.busy[r].room in rooms && ValidKey(s.busy[r].key))
    && (forall i :: 0 <= i < |s.log| ==> s.log[i].cmd.room in rooms && ValidKey(s.log[i].cmd.key))
  }

  lemma {:induction false} RunKeepsFamiliar(s: State, steps: seq<Step>, rooms: set<RoomId>)
    requires Familiar(s, rooms) && Legal(s, steps) && Within(steps, rooms)
    ensures Familiar(After(s, steps), rooms)
    decreases |steps|
  {
    if steps != [] { RunKeepsFamiliar(Apply(s, steps[0]), steps[1..], rooms); }
  }

  const IDLE := State(map[], map[], [])

  /** In every run, a replay hands out the answer of the last time the very same command ran and was answered. */
  lemma ReplaysTheLastAnswer(steps: seq<Step>, rooms: set<RoomId>, j: nat) returns (i: nat)
    requires Legal(IDLE, steps) && Within(steps, rooms) && Apart(rooms)
    requires var log := After(IDLE, steps).log; j < |log| && log[j].Replayed?
    ensures var log := After(IDLE, steps).log;
      && i < j && log[i] == Ran(log[j].cmd, Some(log[j].answer))
      && forall k :: i < k < j && Runs(log[k], log[j].cmd) ==> log[k].stored.None?
  {
    RunKeepsFaithful(IDLE, steps);
    RunKeepsFamiliar(IDLE, steps, rooms);
    var log := After(IDLE, steps).log;
    var c := log[j].cmd;
    assert GivesLast(log, j);
    i := LastStoredIsThere(log[..j], c.member, Slot(c));
    if log[i].cmd != c { SlotsAreDistinct(log[i].cmd, c); }
    forall k | i < k < j && Runs(log[k], c) ensures log[k].stored.None? { assert log[..j][k] == log[k]; }
  }
}
