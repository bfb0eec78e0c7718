/**
 What a token is worth over every run of the device table: it dies with the
 first edit or removal of its device, and comes back to life in one way only.
 */
module TokenRuns {
  import opened Documents
  import opened Wrappers
  import opened AuthEngine

  /** The table, and every id that has ever been in it: random ids never repeat. */
  datatype Hub = Hub(table: Table, used: set<DeviceId>)

  ghost predicate Sane(h: Hub) { h.table.Keys <= h.used && OneAdmin(h.table) }

  predicate Enabled(h: Hub, op: Op) {
    (op.Enroll? ==> op.newId !in h.used) && (op.ReplaceAdmin? ==> op.newId !in h.used)
  }

  function Next(h: Hub, op: Op): Hub { Hub(Do(h.table, op), h.used + Do(h.table, op).Keys) }

  predicate Legal(h: Hub, ops: seq<Op>)
    decreases |ops|
  {
    ops == [] || (Enabled(h, ops[0]) && Legal(Next(h, ops[0]), ops[1..]))
  }

  function After(h: Hub, ops: seq<Op>): Hub
    decreases |ops|
  {
    if ops == [] then h else After(Next(h, ops[0]), ops[1..])
  }

  /** ensure_enrolled writes an absent id: the one edit that starts an old id's versions again at 1. */
  predicate Provisions(h: Hub, op: Op, id: DeviceId) {
    op.Ensure? && op.id == id && id !in h.table && !Refused(h.table, op)
  }

  predicate Reprovisions(h: Hub, ops: seq<Op>, id: DeviceId)
    decreases |ops|
  {
    ops != [] && (Provisions(h, ops[0], id) || Reprovisions(Next(h, ops[0]), ops[1..], id))
  }

  /** a's rights are within b's: the same role and cameras, no further rooms. */
  ghost predicate Within(a: Claims, b: Claims) {
    && a.role == b.role && a.access == b.access
    && (a.rooms.Some? <==> b.rooms.Some?)
    && (a.rooms.Some? ==> forall r :: r in a.rooms.value ==> r in b.rooms.value)
  }

  function ClaimsOf(d: Device): Claims { Claims(d.role, d.rooms, CameraAccessOf(d)) }

  lemma StepKeepsSane(h: Hub, op: Op)
    requires Sane(h) && Enabled(h, op)
    ensures Sane(Next(h, op))
  {
    DoKeepsOneAdmin(h.table, op);
  }

  lemma {:induction false} RunKeepsSane(h: Hub, ops: seq<Op>)
    requires Sane(h) && Legal(h, ops)
    ensures Sane(After(h, ops))
    decreases |ops|
  {
    if ops != [] {
      StepKeepsSane(h, ops[0]);
      RunKeepsSane(Next(h, ops[0]), ops[1..]);
    }
  }

  /** One request either leaves a device's version, and then at most narrows its rooms, or raises it by one. */
  lemma StepOnDevice(h: Hub, op: Op, id: DeviceId)
    requires Sane(h) && Enabled(h, op) && id in h.used
    ensures var t, t' := h.table, Next(h, op).table;
      && (id !in t && id in t' ==> Provisions(h, op, id) && t'[id].ver == 1)
      && (id in t && id in t' ==> t'[id].ver == t[id].ver || t'[id].ver == t[id].ver + 1)
      && (id in t && id in t' && t'[id].ver == t[id].ver ==> Within(ClaimsOf(t'[id]), ClaimsOf(t[id])))
  {}

  /** The request edits or removes this device. */
  predicate Touches(t: Table, op: Op, id: DeviceId) {
    !Refused(t, op)
    && match op
       case Enroll(_, _, _, _, _, _, _) => false
       case Ensure(other, _, _, _, _) => other == id && !UpToDate(t, op)
       case ReplaceAdmin(_, _) => IsAdmin(t, id)
       case Update(other, _, _, _) => other == id
       case PruneRooms(_) => false
       case Delete(other) => other == id
       case Leave(other) => other == id
       case WipeAll => true
  }

  /** A token dies with exactly the requests that edit or remove its own device. */
  lemma TokenDiesExactly(h: Hub, op: Op, token: Token)
    requires Sane(h) && Enabled(h, op) && Lives(h.table, token)
    ensures Validate(CacheOf(Next(h, op).table), token).Valid? <==> !Touches(h.table, op, token.sub)
  {
    if op.ReplaceAdmin? && !Refused(h.table, op) {
      assert IsAdmin(h.table, TheAdmin(h.table));
    }
  }

  /** Owner recovery: the new phone is the only admin, in the old one's member; every other device keeps its record. */
  lemma RecoveryHandsOver(h: Hub, op: Op)
    requires Sane(h) && Enabled(h, op) && op.ReplaceAdmin? && !Refused(h.table, op)
    ensures var t, t', a := h.table, Next(h, op).table, TheAdmin(h.table);
      && a !in t' && IsAdmin(t', op.newId) && (forall id :: IsAdmin(t', id) ==> id == op.newId)
      && MemberOf(op.newId, t'[op.newId]) == MemberOf(a, t[a])
      && (forall id :: id in t && id != a ==> id in t' && t'[id] == t[id])
  {
    assert IsAdmin(h.table, TheAdmin(h.table));
    forall id | IsAdmin(Next(h, op).table, id) ensures id == op.newId {
      assert id != op.newId ==> IsAdmin(h.table, id);
    }
  }

  /** What a token's holder may be: accepted with no more than the rights it had, or outdated, or gone. */
  ghost predicate Worth(t: Table, token: Token, granted: Claims) {
    token.sub in t ==>
      t[token.sub].ver > token.ver || (t[token.sub].ver == token.ver && Within(ClaimsOf(t[token.sub]), granted))
  }

  lemma {:induction false} WorthOnlyFalls(h: Hub, ops: seq<Op>, token: Token, granted: Claims)
    requires Sane(h) && Legal(h, ops) && token.sub in h.used && !Reprovisions(h, ops, token.sub)
    requires Worth(h.table, token, granted)
    ensures Worth(After(h, ops).table, token, granted)
    ensures !Lives(h.table, token) ==> !Lives(After(h, ops).table, token)
    decreases |ops|
  {
    if ops != [] {
      StepOnDevice(h, ops[0], token.sub);
      StepKeepsSane(h, ops[0]);
      WorthOnlyFalls(Next(h, ops[0]), ops[1..], token, granted);
    }
  }

  /**
   As long as a token is accepted it grants what its device had when it was
   minted, minus rooms deleted since.
   */
  lemma TokenNeverGains(h: Hub, ops: seq<Op>, token: Token)
    requires Sane(h) && Legal(h, ops) && Lives(h.table, token) && !Reprovisions(h, ops, token.sub)
    ensures var verdict := Validate(CacheOf(After(h, ops).table), token);
      verdict.Valid? ==> Within(verdict.claims, ClaimsOf(h.table[token.sub]))
  {
    WorthOnlyFalls(h, ops, token, ClaimsOf(h.table[token.sub]));
    TokenFollowsRecord(After(h, ops).table, token);
  }

  /** A token refused once (its device edited or removed) is refused ever after, unless its id is provisioned afresh. */
  lemma RevokedStaysRevoked(h: Hub, before: seq<Op>, rest: seq<Op>, token: Token)
    requires Sane(h) && Legal(h, before) && Legal(After(h, before), rest) && Lives(h.table, token)
    requires !Reprovisions(h, before, token.sub) && !Reprovisions(After(h, before), rest, token.sub)
    requires !Validate(CacheOf(After(h, before).table), token).Valid?
    ensures !Validate(CacheOf(After(After(h, before), rest).table), token).Valid?
  {
    var granted := ClaimsOf(h.table[token.sub]);
    WorthOnlyFalls(h, before, token, granted);
    RunKeepsSane(h, before);
    UsedGrows(h, before);
    TokenFollowsRecord(After(h, before).table, token);
    WorthOnlyFalls(After(h, before), rest, token, granted);
  }

  lemma {:induction false} UsedGrows(h: Hub, ops: seq<Op>)
    ensures h.used <= After(h, ops).used
    decreases |ops|
  {
    if ops != [] { UsedGrows(Next(h, ops[0]), ops[1..]); }
  }

  function Edits(id: DeviceId, n: nat): seq<Op> {
    if n == 0 then [] else [Update(id, None, None, None)] + Edits(id, n - 1)
  }

  lemma {:induction false} EditsRaiseVersion(h: Hub, id: DeviceId, n: nat)
    requires id in h.table && h.table[id].role.SubAdmin? && h.table[id].rooms.None?
    ensures Legal(h, Edits(id, n))
    ensures var t := After(h, Edits(id, n)).table; id in t && t[id].ver == h.table[id].ver + n
    decreases n
  {
    if n > 0 {
      var op := Update(id, None, None, None);
      assert Edits(id, n)[1..] == Edits(id, n - 1);
      EditsRaiseVersion(Next(h, op), id, n - 1);
    }
  }

  /** And then it can come back: any old token of a removed id is accepted again once enough edits follow. */
  lemma ProvisioningRevives(h: Hub, token: Token, key: Key)
    requires token.sub !in h.table && token.ver >= 1
    ensures exists ops :: Legal(h, ops) && Lives(After(h, ops).table, token)
  {
    var op := Ensure(token.sub, SubAdmin, Some(key), None, None);
    var h1 := Next(h, op);
    EditsRaiseVersion(h1, token.sub, token.ver - 1);
    var ops := [op] + Edits(token.sub, token.ver - 1);
    assert ops[1..] == Edits(token.sub, token.ver - 1);
    assert Legal(h, ops) && Lives(After(h, ops).table, token);
  }

  /** Deleting rooms kills no token, and every later check answers with the narrowed scope. */
  lemma PruneNarrowsTokens(t: Table, known: set<string>, token: Token)
    ensures var was, now := Validate(CacheOf(t), token), Validate(CacheOf(Do(t, PruneRooms(known))), token);
      && (now.Valid? <==> was.Valid?) && (now.Stale? <==> was.Stale?)
      && (now.Valid? ==>
            && now.claims.role == was.claims.role && now.claims.access == was.claims.access
            && (now.claims.rooms.Some? <==> was.claims.rooms.Some?)
            && (now.claims.rooms.Some? ==>
                  forall r :: r in now.claims.rooms.value <==> r in was.claims.rooms.value && r in known))
  {}
}
