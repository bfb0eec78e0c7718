/**
 Enrolled devices: a stored table, the lock-free cache that token checks read,
 and the one-admin rule. A device's tokens carry its auth version.
 */
module AuthEngine {
  import opened Documents
  import opened Wrappers

  type DeviceId = string
  type MemberId = string
  type Key = string
  type Rooms = Option<seq<string>>

  datatype Role = Admin | SubAdmin | User

  datatype Access = AllCameras | RoomCameras | NoCameras

  datatype Device = Device(role: Role, key: Key, rooms: Rooms, access: Option<Access>, ver: nat, member: Option<MemberId>)

  type Table = map<DeviceId, Device>

  datatype Entry = Entry(role: Role, rooms: Rooms, access: Access, ver: nat)

  type Cache = map<DeviceId, Entry>

  /** A record without a member id is its own member. */
  function MemberOf(id: DeviceId, d: Device): MemberId { if d.member.Some? then d.member.value else id }

  function Effective(access: Option<Access>, rooms: Rooms): Access {
    if access.Some? then access.value else if rooms.None? then AllCameras else RoomCameras
  }

  function CameraAccessOf(d: Device): Access { if d.role.Admin? then AllCameras else Effective(d.access, d.rooms) }

  function CacheEntry(d: Device): Entry { Entry(d.role, d.rooms, CameraAccessOf(d), d.ver) }

  function CacheOf(t: Table): Cache { map id | id in t :: CacheEntry(t[id]) }

  predicate IsAdmin(t: Table, id: DeviceId) { id in t && t[id].role.Admin? }

  ghost predicate OneAdmin(t: Table) { forall a, b :: IsAdmin(t, a) && IsAdmin(t, b) ==> a == b }

  predicate HasAdmin(t: Table) { exists id :: id in t && IsAdmin(t, id) }

  predicate ScopeFits(role: Role, rooms: Rooms) { rooms.Some? ==> role.User? }

  // -- the edits of the table ----------------------------------------------------------

  /** One request; an unusable key arrives as None. Ids and members marked new are random. */
  datatype Op =
    | Enroll(newId: DeviceId, role: Role, key: Option<Key>, rooms: Rooms, access: Option<Access>,
             member: Option<MemberId>, newMember: MemberId)
    | Ensure(id: DeviceId, role: Role, key: Option<Key>, rooms: Rooms, access: Option<Access>)
    | ReplaceAdmin(newId: DeviceId, key: Option<Key>)
    | Update(id: DeviceId, newRole: Option<Role>, newRooms: Option<Rooms>, newAccess: Option<Access>)
    | PruneRooms(known: set<string>)
    | Delete(id: DeviceId)
    | Leave(id: DeviceId)
    | WipeAll

  function Pruned(d: Device, known: set<string>): Device {
    if d.rooms.Some? then d.(rooms := Some(Keeping(d.rooms.value, known))) else d
  }

  function PrunedTable(t: Table, known: set<string>): Table { map id | id in t :: Pruned(t[id], known) }

  predicate UpToDate(t: Table, op: Op)
    requires op.Ensure? && op.key.Some?
  {
    op.id in t && t[op.id].key == op.key.value && t[op.id].role == op.role
    && t[op.id].rooms == op.rooms && t[op.id].access == op.access
  }

  function Provisioned(t: Table, op: Op): Device
    requires op.Ensure? && op.key.Some?
  {
    Device(op.role, op.key.value, op.rooms, op.access, if op.id in t then t[op.id].ver + 1 else 1, None)
  }

  function Edited(d: Device, op: Op): Device
    requires op.Update?
  {
    d.(role := if op.newRole.Some? then op.newRole.value else d.role,
       rooms := if op.newRooms.Some? then op.newRooms.value else d.rooms,
       access := if op.newAccess.Some? then op.newAccess else d.access,
       ver := d.ver + 1)
  }

  /** The engine's own refusals. */
  predicate Refused(t: Table, op: Op) {
    match op
    case Enroll(_, role, key, rooms, _, _, _) => !ScopeFits(role, rooms) || key.None? || (role.Admin? && HasAdmin(t))
    case Ensure(_, role, key, rooms, _) => role.Admin? || !ScopeFits(role, rooms) || key.None?
    case ReplaceAdmin(_, key) => key.None? || !HasAdmin(t)
    case Update(id, _, _, _) =>
      id !in t || t[id].role.Admin? || Edited(t[id], op).role.Admin? || !ScopeFits(Edited(t[id], op).role, Edited(t[id], op).rooms)
    case PruneRooms(_) => false
    case Delete(id) => id !in t || t[id].role.Admin?
    case Leave(id) => id !in t
    case WipeAll => false
  }

  function TheAdmin(t: Table): (id: DeviceId)
    requires HasAdmin(t)
    ensures IsAdmin(t, id)
  {
    var admins := set id | id in t && IsAdmin(t, id);
    assert admins != {} by {
      var id :| id in t && IsAdmin(t, id);
      assert id in admins;
    }
    Least(admins)
  }

  /** The table after the request, refused or not, when its writes succeed. */
  function Do(t: Table, op: Op): Table {
    if Refused(t, op) then t
    else match op
      case Enroll(id, role, key, rooms, access, member, newMember) =>
        t[id := Device(role, key.value, rooms, access, 1, Some(if member.Some? then member.value else newMember))]
      case Ensure(id, _, _, _, _) => if UpToDate(t, op) then t else t[id := Provisioned(t, op)]
      case ReplaceAdmin(id, key) =>
        var lost := TheAdmin(t);
        (t - {lost})[id := Device(Admin, key.value, None, None, 1, Some(MemberOf(lost, t[lost])))]
      case Update(id, _, _, _) => t[id := Edited(t[id], op)]
      case PruneRooms(known) => PrunedTable(t, known)
      case Delete(id) => t - {id}
      case Leave(id) => t - {id}
      case WipeAll => map[]
  }

  /** No request makes a second admin. */
  lemma DoKeepsOneAdmin(t: Table, op: Op)
    requires OneAdmin(t)
    ensures OneAdmin(Do(t, op))
  {
    var t' := Do(t, op);
    match op
    case PruneRooms(known) => PrunedKeepsOneAdmin(t, t', known);
    case WipeAll =>
    case _ =>
      forall a, b | IsAdmin(t', a) && IsAdmin(t', b) ensures a == b {
        assert a in t && t'[a] == t[a] ==> IsAdmin(t, a);
        assert b in t && t'[b] == t[b] ==> IsAdmin(t, b);
        if HasAdmin(t) { assert IsAdmin(t, TheAdmin(t)); }
      }
  }

  // -- tokens ------------------------------------------------------------------------------

  /** What the signature vouches for. */
  datatype Token = Token(sub: DeviceId, ver: nat)

  datatype Claims = Claims(role: Role, rooms: Rooms, access: Access)

  datatype Verdict = Valid(claims: Claims) | Unenrolled | Stale

  /** validate_token: only the cache is read. */
  function Validate(cache: Cache, token: Token): Verdict {
    if token.sub !in cache then Unenrolled
    else if cache[token.sub].ver != token.ver then Stale
    else Verdict.Valid(Claims(cache[token.sub].role, cache[token.sub].rooms, cache[token.sub].access))
  }

  predicate Lives(t: Table, token: Token) { token.sub in t && t[token.sub].ver == token.ver }

  /** A token is accepted exactly while its device is enrolled at its version, with the record's current rights. */
  lemma TokenFollowsRecord(t: Table, token: Token)
    ensures Validate(CacheOf(t), token).Valid? <==> Lives(t, token)
    ensures Lives(t, token) ==> (var d := t[token.sub];
      Validate(CacheOf(t), token).claims == Claims(d.role, d.rooms, if d.role.Admin? then AllCameras else Effective(d.access, d.rooms)))
    ensures Validate(CacheOf(t), token).Unenrolled? <==> token.sub !in t
  {}

  // -- the engine ----------------------------------------------------------------------------

  class Engine {
    var devices: Table
    var cache: Cache

    /** The cache mirrors the table, and the hub has at most one admin. */
    ghost predicate Valid()
      reads this
    {
      cache == CacheOf(devices) && OneAdmin(devices)
    }

    /** Boot: whatever the table holds. */
    constructor (stored: Table)
      ensures devices == stored && cache == CacheOf(stored)
    {
      devices := stored;
      cache := CacheOf(stored);
    }

    /** has_admin reads only the cache. */
    method HasAdminCached() returns (r: bool)
      requires Valid()
      ensures r == HasAdmin(devices)
    {
      r := exists id :: id in cache && cache[id].role.Admin?;
      assert forall id :: id in cache ==> (cache[id].role.Admin? <==> IsAdmin(devices, id));
    }

    /** One table write: it lands, or it raises and changes nothing. */
    method Store(id: DeviceId, d: Device, ok: bool)
      modifies `devices
      ensures devices == if ok then old(devices)[id := d] else old(devices)
    {
      if ok { devices := devices[id := d]; }
    }

    method EnrollDevice(op: Op, ok: bool) returns (r: Checked<DeviceId>)
      requires Valid() && op.Enroll? && op.newId !in devices
      modifies this
      ensures Valid()
      ensures devices == if ok then Do(old(devices), op) else old(devices)
      ensures r == if Refused(old(devices), op) || !ok then Rejected else Ok(op.newId)
    {
      DoKeepsOneAdmin(devices, op);
      if !ScopeFits(op.role, op.rooms) || op.key.None? {
        return Rejected;
      }
      if op.role.Admin? {
        var claimed := HasAdminCached();
        if claimed { return Rejected; }
      }
      var record := Device(op.role, op.key.value, op.rooms, op.access, 1, Some(if op.member.Some? then op.member.value else op.newMember));
      Store(op.newId, record, ok);
      if !ok { return Rejected; }
      cache := cache[op.newId := CacheEntry(record)];
      assert cache == CacheOf(devices);
      return Ok(op.newId);
    }

    /** True when the record was (re)written. */
    method EnsureEnrolled(op: Op, ok: bool) returns (r: Checked<bool>)
      requires Valid() && op.Ensure?
      modifies this
      ensures Valid()
      ensures devices == if ok then Do(old(devices), op) else old(devices)
      ensures r.Ok? ==> r.value == (devices != old(devices))
    {
      DoKeepsOneAdmin(devices, op);
      if op.role.Admin? || !ScopeFits(op.role, op.rooms) || op.key.None? {
        return Rejected;
      }
      if op.id in devices && devices[op.id].key == op.key.value && devices[op.id].role == op.role
         && devices[op.id].rooms == op.rooms && devices[op.id].access == op.access
      {
        return Ok(false);
      }
      var record := Device(op.role, op.key.value, op.rooms, op.access, if op.id in devices then devices[op.id].ver + 1 else 1, None);
      Store(op.id, record, ok);
      if !ok { return Rejected; }
      cache := cache[op.id := CacheEntry(record)];
      assert cache == CacheOf(devices);
      return Ok(true);
    }

    method Replace(op: Op, ok: bool) returns (r: Checked<DeviceId>)
      requires Valid() && op.ReplaceAdmin? && op.newId !in devices
      modifies this
      ensures Valid()
      ensures devices == if ok then Do(old(devices), op) else old(devices)
      ensures r == if Refused(old(devices), op) || !ok then Rejected else Ok(op.newId)
    {
      DoKeepsOneAdmin(devices, op);
      if op.key.None? {
        return Rejected;
      }
      var claimed := HasAdminCached();
      if !claimed || !ok {
        return Rejected;
      }
      assert TheAdmin(devices) in cache;
      var oldAdmin :| oldAdmin in cache && cache[oldAdmin].role.Admin?;
      assert IsAdmin(devices, oldAdmin);
      var record := Device(Admin, op.key.value, None, None, 1, Some(MemberOf(oldAdmin, devices[oldAdmin])));
      devices := (devices - {oldAdmin})[op.newId := record];
      cache := (cache - {oldAdmin})[op.newId := CacheEntry(record)];
      assert cache == CacheOf(devices);
      return Ok(op.newId);
    }

    method UpdateDevice(op: Op, ok: bool) returns (r: Checked<Device>)
      requires Valid() && op.Update?
      modifies this
      ensures Valid()
      ensures devices == if ok then Do(old(devices), op) else old(devices)
      ensures r.Ok? <==> ok && !Refused(old(devices), op)
    {
      DoKeepsOneAdmin(devices, op);
      if op.id !in devices || devices[op.id].role.Admin? {
        return Rejected;
      }
      var d := devices[op.id];
      var role := if op.newRole.Some? then op.newRole.value else d.role;
      if role.Admin? {
        return Rejected;
      }
      var rooms := if op.newRooms.Some? then op.newRooms.value else d.rooms;
      if !ScopeFits(role, rooms) {
        return Rejected;
      }
      var record := d.(role := role, rooms := rooms, access := if op.newAccess.Some? then op.newAccess else d.access, ver := d.ver + 1);
      Store(op.id, record, ok);
      if !ok { return Rejected; }
      cache := cache[op.id := CacheEntry(record)];
      assert cache == CacheOf(devices);
      return Ok(record);
    }

    /** The first `writes` records that change are stored; the next one raises. */
    method Prune(known: set<string>, writes: nat) returns (finished: bool)
      requires Valid()
      modifies this
      ensures Valid()
      ensures finished ==> devices == PrunedTable(old(devices), known)
      ensures devices.Keys == old(devices).Keys
      ensures forall id :: id in devices ==> devices[id] == old(devices)[id] || devices[id] == Pruned(old(devices)[id], known)
    {
      var todo := devices.Keys;
      var left := writes;
      while todo != {}
        invariant todo <= devices.Keys && devices.Keys == old(devices).Keys
        invariant cache == CacheOf(devices)
        invariant forall id :: id in todo ==> devices[id] == old(devices)[id]
        invariant forall id :: id in devices && id !in todo ==> devices[id] == Pruned(old(devices)[id], known)
        decreases todo
      {
        var id :| id in todo;
        var d := devices[id];
        if d.rooms.Some? && Keeping(d.rooms.value, known) != d.rooms.value {
          if left == 0 {
            PrunedKeepsOneAdmin(old(devices), devices, known);
            return false;
          }
          left := left - 1;
          var record := d.(rooms := Some(Keeping(d.rooms.value, known)));
          devices := devices[id := record];
          // The rest of the cache entry stays as it was.
          cache := cache[id := cache[id].(rooms := record.rooms, access := CameraAccessOf(record))];
          assert cache == CacheOf(devices);
        }
        todo := todo - {id};
      }
      PrunedKeepsOneAdmin(old(devices), devices, known);
      assert devices == PrunedTable(old(devices), known);
      return true;
    }

    method Remove(id: DeviceId, ok: bool)
      requires Valid() && id in devices
      modifies this
      ensures Valid()
      ensures devices == if ok then old(devices) - {id} else old(devices)
    {
      DoKeepsOneAdmin(devices, Leave(id));
      if ok {
        devices := devices - {id};
        cache := cache - {id};
        assert cache == CacheOf(devices);
      }
    }

    method DeleteDevice(id: DeviceId, ok: bool) returns (r: Checked<MemberId>)
      requires Valid()
      modifies this
      ensures Valid()
      ensures devices == if ok then Do(old(devices), Delete(id)) else old(devices)
      ensures r == if Refused(old(devices), Delete(id)) || !ok then Rejected else Ok(MemberOf(id, old(devices)[id]))
    {
      if id !in devices || devices[id].role.Admin? {
        return Rejected;
      }
      var member := MemberOf(id, devices[id]);
      Remove(id, ok);
      return if ok then Ok(member) else Rejected;
    }

    method LeaveHub(id: DeviceId, ok: bool) returns (r: Checked<MemberId>)
      requires Valid()
      modifies this
      ensures Valid()
      ensures devices == if ok then Do(old(devices), Leave(id)) else old(devices)
      ensures r == if id !in old(devices) || !ok then Rejected else Ok(MemberOf(id, old(devices)[id]))
    {
      if id !in devices {
        return Rejected;
      }
      var member := MemberOf(id, devices[id]);
      Remove(id, ok);
      return if ok then Ok(member) else Rejected;
    }

    /**
     Deletes row by row and clears the cache last; the delete after the first
     `writes` raises. Needs no invariant: the factory reset calls it when its
     own wipe has already emptied the table.
     */
    method Wipe(writes: nat) returns (finished: bool)
      modifies this
      ensures finished <==> |old(devices)| <= writes
      ensures finished ==> devices == map[] && Valid()
      ensures !finished ==> cache == old(cache) && |devices| == |old(devices)| - writes
      ensures !finished ==> forall id :: id in devices ==> id in old(devices) && devices[id] == old(devices)[id]
      // Stopped after a first delete, the cache still accepts the deleted devices' tokens.
      ensures !finished && old(cache == CacheOf(devices)) ==> (cache == CacheOf(devices) <==> writes == 0)
    {
      var left := writes;
      while devices != map[]
        invariant 0 <= left <= writes && |devices| == |old(devices)| - (writes - left)
        invariant cache == old(cache)
        invariant forall id :: id in devices ==> id in old(devices) && devices[id] == old(devices)[id]
        decreases |devices|
      {
        assert |devices| > 0;
        if left == 0 {
          assert cache == CacheOf(old(devices)) && writes > 0 ==> |CacheOf(devices).Keys| != |cache.Keys| by {
            assert CacheOf(devices).Keys == devices.Keys && CacheOf(old(devices)).Keys == old(devices).Keys;
          }
          assert writes == 0 ==> devices == old(devices) by { SameSize(old(devices), devices); }
          assert |devices| > 0 && |old(devices)| > writes;
          return false;
        }
        var id :| id in devices;
        RemoveOne(devices, id);
        devices := devices - {id};
        left := left - 1;
      }
      assert |devices| == 0;
      cache := map[];
      return true;
    }
  }

  lemma SameSize(t: Table, t': Table)
    requires forall id :: id in t' ==> id in t && t'[id] == t[id]
    ensures |t'| == |t| ==> t' == t
  {
    assert t'.Keys <= t.Keys;
    assert |t.Keys - t'.Keys| == |t.Keys| - |t'.Keys|;
    if |t'| == |t| { assert t.Keys - t'.Keys == {}; }
  }

  lemma RemoveOne(t: Table, id: DeviceId)
    requires id in t
    ensures |t - {id}| == |t| - 1
  {
    assert (t - {id}).Keys == t.Keys - {id};
  }

  lemma PrunedKeepsOneAdmin(t: Table, t': Table, known: set<string>)
    requires OneAdmin(t) && t'.Keys == t.Keys
    requires forall id :: id in t' ==> t'[id] == t[id] || t'[id] == Pruned(t[id], known)
    ensures OneAdmin(t')
  {
    forall a, b | IsAdmin(t', a) && IsAdmin(t', b) ensures a == b {
      assert IsAdmin(t, a) && IsAdmin(t, b);
    }
  }
}
