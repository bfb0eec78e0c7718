/**
 What each request of the device table does to every token: when it is let
 through, what the tokens of the device it names are worth after it, and that
 all other tokens are worth what they were.
 */
module AuthScopes {
  import opened Documents
  import opened Wrappers
  import opened AuthEngine

  /** What the hub answers when the token is shown to it. */
  function Verdicts(t: Table, token: Token): Verdict { Validate(CacheOf(t), token) }

  /** A role's claims: an admin sees every camera, an unset access follows the rooms. */
  function Scope(role: Role, rooms: Rooms, access: Option<Access>): Claims {
    Claims(role, rooms,
      if role.Admin? then AllCameras
      else match access
        case Some(a) => a
        case None => if rooms == None then AllCameras else RoomCameras)
  }

  /** Every version of the device's token but this one is outdated, and this one has this scope. */
  ghost predicate OnlyVersion(t: Table, id: DeviceId, ver: nat, c: Claims) {
    forall v: nat :: Verdicts(t, Token(id, v)) == if v == ver then Verdict.Valid(c) else Stale
  }

  ghost predicate Gone(t: Table, id: DeviceId) { forall v: nat :: Verdicts(t, Token(id, v)) == Unenrolled }

  /** Records and tokens of all other devices are as they were. */
  ghost predicate OthersKept(t: Table, t': Table, id: DeviceId) {
    && (forall o :: o != id ==> (o in t' <==> o in t) && (o in t ==> t'[o] == t[o]))
    && (forall token: Token :: token.sub != id ==> Verdicts(t', token) == Verdicts(t, token))
  }

  ghost predicate NoAdmin(t: Table) { forall id :: id in t ==> t[id].role != Admin }

  lemma NoAdminIsUnclaimed(t: Table)
    ensures NoAdmin(t) <==> !HasAdmin(t)
  {}

  /** An enrolled device's first token carries exactly the role, rooms and cameras it was enrolled with. */
  lemma EnrollmentGrants(t: Table, id: DeviceId, role: Role, key: Option<Key>, rooms: Rooms, access: Option<Access>,
    member: Option<MemberId>, newMember: MemberId)
    requires id !in t
    ensures var t' := Do(t, Enroll(id, role, key, rooms, access, member, newMember));
      if key != None && (rooms == None || role == User) && (role == Admin ==> NoAdmin(t)) then
        && OnlyVersion(t', id, 1, Scope(role, rooms, access)) && OthersKept(t, t', id)
        && id in t' && t'[id].key == key.value
        && MemberOf(id, t'[id]) == (if member == None then newMember else member.value)
      else t' == t
  {
    NoAdminIsUnclaimed(t);
  }

  /** An edit: what is given shows in the next token, what is not stays, and the old tokens are outdated. */
  lemma UpdateGrants(t: Table, id: DeviceId, role: Option<Role>, rooms: Option<Rooms>, access: Option<Access>)
    ensures var t' := Do(t, Update(id, role, rooms, access));
      if id !in t || t[id].role == Admin then t' == t
      else
        var d := t[id];
        var role' := if role == None then d.role else role.value;
        var rooms' := if rooms == None then d.rooms else rooms.value;
        if role' == Admin || (rooms' != None && role' != User) then t' == t
        else
          && OnlyVersion(t', id, d.ver + 1, Scope(role', rooms', if access == None then d.access else access))
          && OthersKept(t, t', id)
          && id in t' && t'[id].key == d.key && t'[id].member == d.member
  {}

  /** Provisioning: the record is as given, written and outdated only where something differs, and never an admin's. */
  lemma ProvisioningGrants(t: Table, id: DeviceId, role: Role, key: Option<Key>, rooms: Rooms, access: Option<Access>)
    ensures var t' := Do(t, Ensure(id, role, key, rooms, access));
      if key == None || role == Admin || (rooms != None && role != User) then t' == t
      else if id in t && t[id].key == key.value && t[id].role == role && t[id].rooms == rooms && t[id].access == access then t' == t
      else
        && OnlyVersion(t', id, if id in t then t[id].ver + 1 else 1, Scope(role, rooms, access))
        && OthersKept(t, t', id)
        && id in t' && t'[id].key == key.value && MemberOf(id, t'[id]) == id
  {}

  /** Recovery: the old admin's tokens die, the new phone's first one is an admin's. */
  lemma RecoveryGrants(t: Table, newId: DeviceId, key: Option<Key>)
    requires OneAdmin(t) && newId !in t
    ensures var t' := Do(t, ReplaceAdmin(newId, key));
      if key == None || NoAdmin(t) then t' == t
      else
        && OnlyVersion(t', newId, 1, Claims(Admin, None, AllCameras))
        && newId in t' && t'[newId].key == key.value
        && (forall o :: o in t && t[o].role == Admin ==> Gone(t', o) && MemberOf(newId, t'[newId]) == MemberOf(o, t[o]))
        && (forall o :: o in t && t[o].role != Admin ==> o in t' && t'[o] == t[o])
        && (forall token: Token :: token.sub in t && t[token.sub].role != Admin ==> Verdicts(t', token) == Verdicts(t, token))
  {
    NoAdminIsUnclaimed(t);
    if key != None && HasAdmin(t) {
      var a := TheAdmin(t);
      assert IsAdmin(t, a);
      forall o | o in t && t[o].role == Admin ensures o == a { assert IsAdmin(t, o); }
    }
  }

  /** Removal: an admin cannot be deleted, but every device can leave. */
  lemma RemovalRevokes(t: Table, id: DeviceId)
    ensures var t' := Do(t, Delete(id));
      if id in t && t[id].role != Admin then Gone(t', id) && OthersKept(t, t', id) else t' == t
    ensures var t' := Do(t, Leave(id)); Gone(t', id) && OthersKept(t, t', id)
    ensures forall token :: Verdicts(Do(t, WipeAll), token) == Unenrolled
  {}

  /** The admin's record changes with recovery, their own leaving, a wipe, or provisioning under their very id, and with nothing else. */
  lemma AdminStaysExactly(t: Table, op: Op, a: DeviceId)
    requires OneAdmin(t) && IsAdmin(t, a) && t[a].rooms == None
    requires op.Enroll? || op.ReplaceAdmin? ==> op.newId !in t
    ensures var t' := Do(t, op);
      a in t' && t'[a] == t[a] <==>
        match op
        case ReplaceAdmin(_, key) => key == None
        case Leave(id) => id != a
        case WipeAll => false
        case Ensure(id, role, key, rooms, _) => id != a || key == None || role == Admin || (rooms != None && role != User)
        case _ => true
  {
    if op.ReplaceAdmin? && op.key != None {
      assert HasAdmin(t) && IsAdmin(t, TheAdmin(t));
    }
  }

  /** Only users are scoped to rooms, whatever is asked for. */
  lemma DoKeepsScopes(t: Table, op: Op)
    requires forall id :: id in t && t[id].rooms != None ==> t[id].role == User
    ensures var t' := Do(t, op); forall id :: id in t' && t'[id].rooms != None ==> t'[id].role == User
  {}
}
