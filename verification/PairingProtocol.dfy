/**
 Pairing codes carry grants into the device table. Minting and enrolling each
 take two executor calls, so requests interleave between them; no order of them
 may let a second phone into the owner's member.
 */
module PairingProtocol {
  import opened Documents
  import opened Wrappers
  import opened AuthEngine

  datatype CodeId = Bootstrap | Pair(n: nat)

  type RequestId = nat

  datatype Grant = Grant(role: Role, rooms: Rooms, access: Option<Access>, member: Option<MemberId>)

  datatype Redeemed = Redeemed(grant: Grant, remote: bool)

  datatype State = State(
    table: Table,
    codes: map<CodeId, Grant>,
    redeemed: map<RequestId, Redeemed>,   // code spent, device not enrolled yet
    listed: map<RequestId, Grant>,        // member looked up, code not minted yet
    seen: set<string>)                    // every device and member id so far: random ids are new

  /** A new admin's grant; the printed code names no member. */
  const ADMIN_GRANT := Grant(Admin, None, None, None)

  /** _code_class: any code that grants admin counts as bootstrap. */
  predicate BootstrapClass(id: CodeId, g: Grant) { id.Bootstrap? || g.role.Admin? }

  datatype Step =
    | Edit(op: Op)                                                       // any table edit but an enrollment
    | ListMember(req: RequestId, device: DeviceId)                       // "add a device": the member's own grant
    | MintListed(req: RequestId, code: nat)
    | Mint(code: nat, role: Role, rooms: Rooms, access: Option<Access>)
    | Redeem(req: RequestId, id: CodeId, remote: bool)
    | EnrollRedeemed(req: RequestId, newId: DeviceId, key: Option<Key>, newMember: MemberId)
    | ArmBootstrap(replace: bool)                                        // install_bootstrap_hash, or ensure_bootstrap_code
    | DropCodes(dropped: set<CodeId>)                                    // revoked, expired or wiped
    | Forget(reqs: set<RequestId>)                                       // requests cut off in between

  predicate Enabled(s: State, step: Step) {
    match step
    case Edit(op) => !op.Enroll? && (op.ReplaceAdmin? ==> op.newId !in s.seen)
    case ListMember(req, device) => device in s.table
    case MintListed(req, code) => req in s.listed
    case EnrollRedeemed(req, newId, _, newMember) =>
      req in s.redeemed && newId !in s.seen && newMember !in s.seen && newId != newMember
    case _ => true
  }

  function Ids(t: Table): set<string> { t.Keys + set id | id in t :: MemberOf(id, t[id]) }

  function WithTable(s: State, t: Table): State { s.(table := t, seen := s.seen + Ids(t)) }

  /** generate_code: never an admin code, and a scope only for users. */
  function Minted(s: State, code: nat, g: Grant): State {
    if g.role.Admin? || !ScopeFits(g.role, g.rooms) then s else s.(codes := s.codes[Pair(code) := g])
  }

  function RedeemApply(s: State, req: RequestId, code: CodeId, remote: bool): State {
    if code !in s.codes then s
    else if remote && BootstrapClass(code, s.codes[code]) then s
    else if code.Bootstrap? && HasAdmin(s.table) then s
    else s.(codes := s.codes - {code}, redeemed := s.redeemed[req := Redeemed(s.codes[code], remote)])
  }

  function Apply(s: State, step: Step): State
    requires Enabled(s, step)
  {
    match step
    case Edit(op) => WithTable(s, Do(s.table, op))
    case ListMember(req, device) =>
      var d := s.table[device];
      s.(listed := s.listed[req := Grant(d.role, d.rooms, Some(CameraAccessOf(d)), Some(MemberOf(device, d)))])
    case MintListed(req, code) => Minted(s, code, s.listed[req]).(listed := s.listed - {req})
    case Mint(code, role, rooms, access) => Minted(s, code, Grant(role, rooms, access, None))
    case Redeem(req, id, remote) => RedeemApply(s, req, id, remote)
    case EnrollRedeemed(req, newId, key, newMember) =>
      var g := s.redeemed[req].grant;
      var t := Do(s.table, Enroll(newId, g.role, key, g.rooms, g.access, g.member, newMember));
      WithTable(s, t).(redeemed := s.redeemed - {req})
    case ArmBootstrap(replace) =>
      if HasAdmin(s.table) then s.(codes := s.codes - {Bootstrap})
      else if !replace && Bootstrap in s.codes then s
      else s.(codes := s.codes[Bootstrap := ADMIN_GRANT])
    case DropCodes(dropped) => s.(codes := s.codes - dropped)
    case Forget(reqs) => s.(redeemed := s.redeemed - reqs, listed := s.listed - reqs)
  }

  predicate Legal(s: State, steps: seq<Step>)
    decreases |steps|
  {
    steps == [] || (Enabled(s, steps[0]) && Legal(Apply(s, steps[0]), steps[1..]))
  }

  function After(s: State, steps: seq<Step>): State
    requires Legal(s, steps)
    decreases |steps|
  {
    if steps == [] then s else After(Apply(s, steps[0]), steps[1..])
  }

  // -- the owner's member -----------------------------------------------------------------

  predicate Names(g: Grant, m: MemberId) { g.member == Some(m) }

  /** The admin a is alone in its member: no device, code or request under way is in it. */
  ghost predicate Alone(s: State, a: DeviceId)
    requires a in s.table
  {
    var m := MemberOf(a, s.table[a]);
    && (forall id :: id in s.table && id != a ==> MemberOf(id, s.table[id]) != m)
    && (forall c :: c in s.codes ==> !Names(s.codes[c], m))
    && (forall r :: r in s.redeemed ==> !Names(s.redeemed[r].grant, m))
    && (forall r :: r in s.listed && !s.listed[r].role.Admin? ==> !Names(s.listed[r], m))
  }

  ghost predicate Exclusive(s: State) { forall a :: IsAdmin(s.table, a) ==> Alone(s, a) }

  /** Admin grants name no member and are never redeemed from outside; every id named has been seen. */
  ghost predicate Tidy(s: State) {
    && OneAdmin(s.table)
    && Ids(s.table) <= s.seen
    && (forall c :: c in s.codes ==> GrantTidy(s, s.codes[c]))
    && (forall r :: r in s.redeemed ==> GrantTidy(s, s.redeemed[r].grant) && (s.redeemed[r].remote ==> !s.redeemed[r].grant.role.Admin?))
    && (forall r :: r in s.listed && s.listed[r].member.Some? ==> s.listed[r].member.value in s.seen)
  }

  predicate GrantTidy(s: State, g: Grant) {
    (g.role.Admin? ==> g.member.None?) && (g.member.Some? ==> g.member.value in s.seen)
  }

  /** ensure_enrolled rewrites a device that is not the admin, under the very id that is the admin's member. */
  predicate Collides(s: State, step: Step) {
    step.Edit? && step.op.Ensure? && !Refused(s.table, step.op) && !UpToDate(s.table, step.op)
    && HasAdmin(s.table) && TheAdmin(s.table) != step.op.id
    && MemberOf(TheAdmin(s.table), s.table[TheAdmin(s.table)]) == step.op.id
  }

  lemma AdminIsTheAdmin(t: Table, a: DeviceId)
    requires OneAdmin(t) && IsAdmin(t, a)
    ensures HasAdmin(t) && TheAdmin(t) == a
  {
    assert HasAdmin(t);
    assert IsAdmin(t, TheAdmin(t));
  }

  lemma EditKeepsTidy(s: State, op: Op)
    requires Tidy(s)
    ensures Tidy(WithTable(s, Do(s.table, op)))
  {
    DoKeepsOneAdmin(s.table, op);
  }

  lemma StepKeepsTidy(s: State, step: Step)
    requires Tidy(s) && Enabled(s, step)
    ensures Tidy(Apply(s, step))
  {
    if step.Edit? {
      EditKeepsTidy(s, step.op);
    } else if step.EnrollRedeemed? {
      var g := s.redeemed[step.req].grant;
      EditKeepsTidy(s, Enroll(step.newId, g.role, step.key, g.rooms, g.access, g.member, step.newMember));
    } else if step.ListMember? || step.MintListed? {
      ListedKeepsTidy(s, step);
    } else {
      CodesKeepTidy(s, step);
    }
  }

  lemma ListedKeepsTidy(s: State, step: Step)
    requires Tidy(s) && Enabled(s, step) && (step.ListMember? || step.MintListed?)
    ensures Tidy(Apply(s, step))
  {
    hide Do, OneAdmin, HasAdmin;
  }

  lemma CodesKeepTidy(s: State, step: Step)
    requires Tidy(s) && !step.Edit? && !step.EnrollRedeemed? && !step.ListMember? && !step.MintListed?
    ensures Tidy(Apply(s, step))
  {
    hide Do, OneAdmin, HasAdmin;
  }

  /** An edit that leaves each surviving device its member, but for one device new in it. */
  lemma EditKeepsExclusive(s: State, op: Op)
    requires Tidy(s) && Exclusive(s) && Enabled(s, Edit(op)) && !op.Ensure? && !op.ReplaceAdmin?
    ensures Exclusive(WithTable(s, Do(s.table, op)))
  {
    var t' := Do(s.table, op);
    forall id | id in t' ensures id in s.table && MemberOf(id, t'[id]) == MemberOf(id, s.table[id]) && (IsAdmin(t', id) ==> IsAdmin(s.table, id)) {}
    forall a | IsAdmin(t', a) ensures Alone(WithTable(s, t'), a) { assert Alone(s, a); }
  }

  lemma ReplaceKeepsExclusive(s: State, op: Op)
    requires Tidy(s) && Exclusive(s) && Enabled(s, Edit(op)) && op.ReplaceAdmin?
    ensures Exclusive(WithTable(s, Do(s.table, op)))
  {
    if !Refused(s.table, op) {
      assert Alone(s, TheAdmin(s.table));
      var t' := Do(s.table, op);
      forall a | IsAdmin(t', a) ensures a == op.newId {
        if a != op.newId { AdminIsTheAdmin(s.table, a); }
      }
    }
  }

  lemma EnsureKeepsExclusive(s: State, op: Op)
    requires Tidy(s) && Exclusive(s) && op.Ensure?
    ensures Exclusive(WithTable(s, Do(s.table, op))) <==> !Collides(s, Edit(op))
  {
    var t' := Do(s.table, op);
    var s' := WithTable(s, t');
    if Collides(s, Edit(op)) {
      var a := TheAdmin(s.table);
      assert IsAdmin(t', a) && MemberOf(op.id, t'[op.id]) == MemberOf(a, t'[a]);
      assert !Alone(s', a);
    } else {
      forall a | IsAdmin(t', a) ensures Alone(s', a) {
        assert IsAdmin(s.table, a) && Alone(s, a);
        AdminIsTheAdmin(s.table, a);
      }
    }
  }

  lemma EnrollKeepsExclusive(s: State, req: RequestId, newId: DeviceId, key: Option<Key>, newMember: MemberId)
    requires Tidy(s) && Exclusive(s) && Enabled(s, EnrollRedeemed(req, newId, key, newMember))
    ensures Exclusive(Apply(s, EnrollRedeemed(req, newId, key, newMember)))
  {
    var s' := Apply(s, EnrollRedeemed(req, newId, key, newMember));
    forall a | IsAdmin(s'.table, a) ensures Alone(s', a) {
      if a in s.table && s'.table[a] == s.table[a] {
        assert IsAdmin(s.table, a) && Alone(s, a);
        assert MemberOf(a, s.table[a]) in s.seen;
      } else {
        assert s'.table[newId].member == Some(newMember);
        forall id | id in s.table ensures MemberOf(id, s.table[id]) != newMember { assert MemberOf(id, s.table[id]) in Ids(s.table); }
      }
    }
  }

  lemma OtherKeepsExclusive(s: State, step: Step)
    requires Tidy(s) && Exclusive(s) && Enabled(s, step) && !step.Edit? && !step.EnrollRedeemed?
    ensures Exclusive(Apply(s, step))
  {
    var s' := Apply(s, step);
    assert s'.table == s.table;
    forall a | IsAdmin(s'.table, a) ensures Alone(s', a) {
      assert Alone(s, a);
      if step.ListMember? || step.MintListed? {
        ListedStayApart(s, step, a);
      } else {
        AdminIsTheAdmin(s.table, a);
        CodesStayApart(s, step, a);
      }
    }
  }

  lemma ListedStayApart(s: State, step: Step, a: DeviceId)
    requires IsAdmin(s.table, a) && Alone(s, a) && Enabled(s, step) && (step.ListMember? || step.MintListed?)
    ensures Alone(Apply(s, step), a)
  {}

  lemma CodesStayApart(s: State, step: Step, a: DeviceId)
    requires IsAdmin(s.table, a) && Alone(s, a) && HasAdmin(s.table)
    requires !step.Edit? && !step.EnrollRedeemed? && !step.ListMember? && !step.MintListed?
    ensures Alone(Apply(s, step), a)
  {
    hide Do;
  }

  /** One step keeps the owner alone in their member exactly when it is not a colliding provision. */
  lemma StepKeepsExclusive(s: State, step: Step)
    requires Tidy(s) && Exclusive(s) && Enabled(s, step)
    ensures Exclusive(Apply(s, step)) <==> !Collides(s, step)
  {
    match step
    case Edit(op) =>
      if op.Ensure? {
        EnsureKeepsExclusive(s, op);
      } else if op.ReplaceAdmin? {
        ReplaceKeepsExclusive(s, op);
      } else {
        EditKeepsExclusive(s, op);
      }
    case EnrollRedeemed(req, newId, key, newMember) => EnrollKeepsExclusive(s, req, newId, key, newMember);
    case _ => OtherKeepsExclusive(s, step);
  }

  ghost predicate Reachable(s0: State, s: State) {
    exists steps :: Legal(s0, steps) && After(s0, steps) == s
  }

  lemma {:induction false} OneStepMore(s0: State, steps: seq<Step>, step: Step)
    requires Legal(s0, steps) && Enabled(After(s0, steps), step)
    ensures Legal(s0, steps + [step]) && After(s0, steps + [step]) == Apply(After(s0, steps), step)
    decreases |steps|
  {
    hide Enabled, Apply;
    if steps == [] {
      assert steps + [step] == [step];
      assert [step][1..] == [];
    } else {
      assert (steps + [step])[1..] == steps[1..] + [step];
      OneStepMore(Apply(s0, steps[0]), steps[1..], step);
    }
  }

  lemma Next(s0: State, s: State, step: Step)
    requires Reachable(s0, s) && Enabled(s, step)
    ensures Reachable(s0, Apply(s, step))
  {
    hide Enabled, Apply;
    var steps :| Legal(s0, steps) && After(s0, steps) == s;
    OneStepMore(s0, steps, step);
  }

  /** A hub nobody has claimed. */
  const FRESH := State(map[], map[], map[], map[], {})

  /** The owner claims the hub as member m of device a, then somebody provisions a device named m. */
  lemma CollisionHappens(a: DeviceId, m: MemberId, key: Key)
    requires a != m
    ensures exists s :: Reachable(FRESH, s) && Tidy(s) && IsAdmin(s.table, a) && !Exclusive(s)
  {
    var s2 := Claimed(a, m, key);
    var op := Ensure(m, SubAdmin, Some(key), None, None);
    Next(FRESH, s2, Edit(op));
    AdminIsTheAdmin(s2.table, a);
    StepKeepsTidy(s2, Edit(op));
    StepKeepsExclusive(s2, Edit(op));
    hide Reachable, Exclusive, Tidy;
  }

  /** The printed code is armed, redeemed at home and enrolled. */
  lemma Claimed(a: DeviceId, m: MemberId, key: Key) returns (s: State)
    requires a != m
    ensures Reachable(FRESH, s) && Tidy(s) && Exclusive(s)
    ensures s.table == map[a := Device(Admin, key, None, None, 1, Some(m))]
  {
    var s2 := Redeeming();
    var step := EnrollRedeemed(0, a, Some(key), m);
    hide Reachable;
    s := Apply(s2, step);
    assert s.table == map[a := Device(Admin, key, None, None, 1, Some(m))];
    assert Enabled(s2, step);
    hide Apply, Tidy, Exclusive, Enabled;
    Next(FRESH, s2, step);
    StepKeepsTidy(s2, step);
    StepKeepsExclusive(s2, step);
  }

  lemma Redeeming() returns (s: State)
    ensures s == FRESH.(redeemed := map[0 := Redeemed(ADMIN_GRANT, false)])
    ensures Reachable(FRESH, s) && Tidy(s) && Exclusive(s)
  {
    assert Reachable(FRESH, FRESH) by { assert Legal(FRESH, []) && After(FRESH, []) == FRESH; }
    hide Reachable;
    var s1 := FRESH.(codes := map[Bootstrap := ADMIN_GRANT]);
    Next(FRESH, FRESH, ArmBootstrap(true));
    s := FRESH.(redeemed := map[0 := Redeemed(ADMIN_GRANT, false)]);
    assert Apply(s1, Redeem(0, Bootstrap, false)) == s;
    Next(FRESH, s1, Redeem(0, Bootstrap, false));
  }

  predicate NoCollision(s: State, steps: seq<Step>)
    requires Legal(s, steps)
    decreases |steps|
  {
    steps == [] || (!Collides(s, steps[0]) && NoCollision(Apply(s, steps[0]), steps[1..]))
  }

  /** In every interleaving, through recovery, leaving and re-claiming, the owner's member stays theirs alone. */
  lemma {:induction false} OwnerStaysAlone(s: State, steps: seq<Step>)
    requires Tidy(s) && Exclusive(s) && Legal(s, steps) && NoCollision(s, steps)
    ensures Exclusive(After(s, steps)) && Tidy(After(s, steps))
    decreases |steps|
  {
    if steps != [] {
      StepKeepsTidy(s, steps[0]);
      StepKeepsExclusive(s, steps[0]);
      OwnerStaysAlone(Apply(s, steps[0]), steps[1..]);
    }
  }

  /** However requests interleave, the hub has one admin and no admin grant was redeemed from outside. */
  lemma {:induction false} OneLocalOwner(s: State, steps: seq<Step>)
    requires Tidy(s) && Legal(s, steps)
    ensures var s' := After(s, steps);
      OneAdmin(s'.table) && forall r :: r in s'.redeemed && s'.redeemed[r].remote ==> !s'.redeemed[r].grant.role.Admin?
    decreases |steps|
  {
    if steps != [] {
      StepKeepsTidy(s, steps[0]);
      OneLocalOwner(Apply(s, steps[0]), steps[1..]);
    }
  }
}
