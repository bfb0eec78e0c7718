/**
 What a room's off switched off, kept for the next on: a capture grows while
 taps repeat within two minutes of it, shrinks as an on retries, and never looks
 newer than it is.
 */
module RoomCapture {
  import opened Documents
  import opened Wrappers

  type RoomId = string
  type DeviceId = string

  const EXTEND := 120.0

  /** An AC with the mode and target to bring it back to. */
  datatype Ac = Ac(id: DeviceId, level: string)

  datatype Capture = Capture(ids: seq<DeviceId>, acs: seq<Ac>, capturedAt: real)

  predicate Within(stamp: real, at: real) { 0.0 <= at - stamp <= EXTEND }

  /** list(dict.fromkeys(...)): each once, in first order. */
  function Once(q: seq<DeviceId>): seq<DeviceId> {
    if q == [] then []
    else
      var init := Once(q[..|q| - 1]);
      if q[|q| - 1] in init then init else init + [q[|q| - 1]]
  }

  lemma {:induction false} OnceIsASet(q: seq<DeviceId>)
    ensures Distinct(Once(q)) && forall x :: x in Once(q) <==> x in q
  {
    if q != [] {
      OnceIsASet(q[..|q| - 1]);
      assert q == q[..|q| - 1] + [q[|q| - 1]];
    }
  }

  lemma {:induction false} OnceOfDistinct(q: seq<DeviceId>)
    requires Distinct(q)
    ensures Once(q) == q
  {
    if q != [] {
      var init := q[..|q| - 1];
      OnceOfDistinct(init);
      assert q == init + [q[|q| - 1]] && q[|q| - 1] !in init;
    }
  }

  /** Adding ids keeps the ones captured before, first and in their order. */
  lemma {:induction false} OnceKeepsFirst(a: seq<DeviceId>, b: seq<DeviceId>)
    requires Distinct(a)
    ensures a <= Once(a + b)
  {
    if b == [] {
      assert a + b == a;
      OnceOfDistinct(a);
    } else {
      OnceKeepsFirst(a, b[..|b| - 1]);
      assert (a + b)[..|a + b| - 1] == a + b[..|b| - 1];
    }
  }

  function AcIds(acs: seq<Ac>): seq<DeviceId> { if acs == [] then [] else [acs[0].id] + AcIds(acs[1..]) }

  lemma {:induction false} AcIdsConcat(a: seq<Ac>, b: seq<Ac>)
    ensures AcIds(a + b) == AcIds(a) + AcIds(b)
  {
    if a == [] {
      assert a + b == b;
    } else {
      assert (a + b)[1..] == a[1..] + b;
      AcIdsConcat(a[1..], b);
    }
  }

  /** {**acs, ac.id: ac.level}: the newer level, in the older place. */
  function WithAc(acs: seq<Ac>, ac: Ac): seq<Ac> {
    if acs == [] then [ac]
    else if acs[0].id == ac.id then [ac] + acs[1..]
    else [acs[0]] + WithAc(acs[1..], ac)
  }

  function WithAcs(acs: seq<Ac>, more: seq<Ac>): seq<Ac> {
    if more == [] then acs else WithAc(WithAcs(acs, more[..|more| - 1]), more[|more| - 1])
  }

  lemma {:induction false} WithAcIds(acs: seq<Ac>, ac: Ac)
    ensures AcIds(WithAc(acs, ac)) == if ac.id in AcIds(acs) then AcIds(acs) else AcIds(acs) + [ac.id]
    ensures ac in WithAc(acs, ac)
  {
    if acs != [] && acs[0].id != ac.id {
      WithAcIds(acs[1..], ac);
      assert WithAc(acs, ac)[1..] == WithAc(acs[1..], ac);
    }
  }

  /** Captured ACs stay listed once each, in first order. */
  lemma {:induction false} WithAcsIds(acs: seq<Ac>, more: seq<Ac>)
    requires Distinct(AcIds(acs))
    ensures AcIds(WithAcs(acs, more)) == Once(AcIds(acs) + AcIds(more))
  {
    if more == [] {
      OnceOfDistinct(AcIds(acs));
      assert AcIds(acs) + AcIds(more) == AcIds(acs);
    } else {
      hide Distinct, Once, AcIds, WithAc;
      var init, last := more[..|more| - 1], more[|more| - 1];
      WithAcsIds(acs, init);
      WithAcsStep(WithAcs(acs, init), last, AcIds(acs), AcIds(init));
      AcIdsSnoc(more);
    }
  }

  lemma WithAcsStep(before: seq<Ac>, last: Ac, a: seq<DeviceId>, b: seq<DeviceId>)
    requires AcIds(before) == Once(a + b)
    ensures AcIds(WithAc(before, last)) == Once(a + (b + [last.id]))
  {
    hide Once, AcIds, WithAc;
    WithAcIds(before, last);
    OnceMore(a + b, last.id);
    assert a + (b + [last.id]) == (a + b) + [last.id];
  }

  lemma AcIdsSnoc(acs: seq<Ac>)
    requires acs != []
    ensures AcIds(acs) == AcIds(acs[..|acs| - 1]) + [acs[|acs| - 1].id]
  {
    hide AcIds;
    var init, last := acs[..|acs| - 1], acs[|acs| - 1];
    AcIdsConcat(init, [last]);
    AcIdsOfOne(last);
    assert acs == init + [last];
  }

  lemma AcIdsOfOne(ac: Ac)
    ensures AcIds([ac]) == [ac.id]
  {
    assert [ac][1..] == [];
  }

  lemma OnceMore(q: seq<DeviceId>, x: DeviceId)
    ensures Once(q + [x]) == if x in Once(q) then Once(q) else Once(q) + [x]
  {
    assert (q + [x])[..|q + [x]| - 1] == q;
  }

  /** Another AC's entry is left as it is. */
  lemma {:induction false} WithAcKeepsOthers(acs: seq<Ac>, ac: Ac, x: Ac)
    requires x in acs && x.id != ac.id
    ensures x in WithAc(acs, ac)
  {
    if acs[0].id == ac.id {
      assert x in acs[1..];
    } else if acs[0] != x {
      WithAcKeepsOthers(acs[1..], ac, x);
    }
  }

  lemma {:induction false} LaterLevelsIn(acs: seq<Ac>, more: seq<Ac>, x: Ac)
    requires x in more && Distinct(AcIds(more))
    ensures x in WithAcs(acs, more)
  {
    var init, last := more[..|more| - 1], more[|more| - 1];
    WithAcIds(WithAcs(acs, init), last);
    hide WithAc;
    if x != last {
      assert more == init + [last];
      AcIdsConcat(init, [last]);
      AcIdsOfOne(last);
      DistinctParts(AcIds(init), last.id);
      InAcIds(init, x.id);
      LaterLevelsIn(acs, init, x);
      WithAcKeepsOthers(WithAcs(acs, init), last, x);
    }
  }

  lemma DistinctParts(q: seq<DeviceId>, x: DeviceId)
    requires Distinct(q + [x])
    ensures Distinct(q) && x !in q
  {
    var all := q + [x];
    assert forall i :: 0 <= i < |q| ==> all[i] == q[i] && all[i] != all[|q|];
  }

  // -- the three edits of a capture --------------------------------------------------------

  /** An off that switched these off. */
  function Extended(c: Option<Capture>, ids: seq<DeviceId>, acs: seq<Ac>, at: real): Option<Capture> {
    if ids == [] && acs == [] then c
    else if c.Some? && Within(c.value.capturedAt, at) then
      Some(Capture(Once(c.value.ids + Once(ids)), WithAcs(c.value.acs, WithAcs([], acs)), c.value.capturedAt))
    else Some(Capture(Once(ids), WithAcs([], acs), at))
  }

  function KeptAcs(acs: seq<Ac>, keep: set<DeviceId>): (r: seq<Ac>)
    ensures forall x :: x in r <==> x in acs && x.id in keep
  {
    if acs == [] then [] else (if acs[0].id in keep then [acs[0]] else []) + KeptAcs(acs[1..], keep)
  }

  /** An on that left these off. */
  function Kept(c: Option<Capture>, keep: set<DeviceId>): Option<Capture> {
    if c.None? || (Keeping(c.value.ids, keep) == [] && KeptAcs(c.value.acs, keep) == []) then None
    else Some(Capture(Keeping(c.value.ids, keep), KeptAcs(c.value.acs, keep), c.value.capturedAt))
  }

  predicate Lists(c: Capture, id: DeviceId) { id in c.ids || id in AcIds(c.acs) }

  ghost predicate Tidy(c: Capture) { Distinct(c.ids) && Distinct(AcIds(c.acs)) }

  /** One off a room has seen: a device, and when. */
  datatype Off = Off(id: DeviceId, at: real)

  /** Every listed device was switched off between the capture and two minutes after it. */
  ghost predicate Fresh(c: Capture, offs: set<Off>) {
    forall id :: Lists(c, id) ==> exists o :: o in offs && o.id == id && c.capturedAt <= o.at <= c.capturedAt + EXTEND
  }

  function OffsOf(ids: seq<DeviceId>, acs: seq<Ac>, at: real): set<Off> {
    (set id | id in ids :: Off(id, at)) + (set ac | ac in acs :: Off(ac.id, at))
  }

  lemma {:induction false} InAcIds(acs: seq<Ac>, id: DeviceId)
    ensures id in AcIds(acs) <==> exists ac :: ac in acs && ac.id == id
  {
    if acs != [] {
      InAcIds(acs[1..], id);
      assert acs == [acs[0]] + acs[1..];
    }
  }

  lemma JustOff(ids: seq<DeviceId>, acs: seq<Ac>, at: real, id: DeviceId)
    requires id in ids || id in AcIds(acs)
    ensures Off(id, at) in OffsOf(ids, acs, at)
  {
    if id in ids {
      assert Off(id, at) in (set x | x in ids :: Off(x, at));
    } else {
      InAcIds(acs, id);
      var ac :| ac in acs && ac.id == id;
      assert Off(ac.id, at) in (set a | a in acs :: Off(a.id, at));
    }
  }

  /** An off adds what it switched off, each once, after what a capture still open lists; the first time it was taken stays. */
  lemma ExtendLists(c: Option<Capture>, ids: seq<DeviceId>, acs: seq<Ac>, at: real)
    requires (c.Some? ==> Tidy(c.value)) && (ids != [] || acs != [])
    ensures var r := Extended(c, ids, acs, at);
      var open := c.Some? && c.value.capturedAt <= at <= c.value.capturedAt + 120.0;
      && r.Some? && Tidy(r.value)
      && r.value.capturedAt == (if open then c.value.capturedAt else at)
      && (forall id :: Lists(r.value, id) <==> id in ids || id in AcIds(acs) || (open && Lists(c.value, id)))
      && (open ==> c.value.ids <= r.value.ids && AcIds(c.value.acs) <= AcIds(r.value.acs))
  {
    hide Distinct, WithAcs, Once;
    var levels := WithAcs([], acs);
    assert AcIds([]) == [];
    EmptyIsDistinct();
    WithAcsIds([], acs);
    assert [] + AcIds(acs) == AcIds(acs);
    OnceIsASet(ids);
    OnceIsASet(AcIds(acs));
    if c.Some? && Within(c.value.capturedAt, at) {
      OnceKeepsFirst(c.value.ids, Once(ids));
      OnceIsASet(c.value.ids + Once(ids));
      WithAcsIds(c.value.acs, levels);
      OnceKeepsFirst(AcIds(c.value.acs), AcIds(levels));
      OnceIsASet(AcIds(c.value.acs) + AcIds(levels));
    }
  }

  /** Each AC of an off is captured at the level it had then, whatever level an open capture held of it. */
  lemma NewestLevelWins(c: Option<Capture>, ids: seq<DeviceId>, acs: seq<Ac>, at: real, ac: Ac)
    requires ac in acs && Distinct(AcIds(acs))
    ensures var r := Extended(c, ids, acs, at); r.Some? && ac in r.value.acs
  {
    LaterLevelsIn([], acs, ac);
    if c.Some? && Within(c.value.capturedAt, at) {
      EmptyIsDistinct();
      WithAcsIds([], acs);
      OnceIsASet([] + AcIds(acs));
      LaterLevelsIn(c.value.acs, WithAcs([], acs), ac);
    }
  }

  lemma EmptyIsDistinct()
    ensures Distinct<DeviceId>([])
  {}

  /** And every device in it was switched off between its time and two minutes after. */
  lemma ExtendKeepsFresh(c: Option<Capture>, ids: seq<DeviceId>, acs: seq<Ac>, at: real, offs: set<Off>)
    requires c.Some? ==> Tidy(c.value) && Fresh(c.value, offs)
    ensures var r := Extended(c, ids, acs, at);
      r.Some? ==> Tidy(r.value) && Fresh(r.value, offs + OffsOf(ids, acs, at))
  {
    var all := offs + OffsOf(ids, acs, at);
    if ids != [] || acs != [] {
      ExtendLists(c, ids, acs, at);
      var r := Extended(c, ids, acs, at).value;
      hide Extended, Lists, Tidy;
      forall id | Lists(r, id) ensures exists o :: o in all && o.id == id && r.capturedAt <= o.at <= r.capturedAt + EXTEND {
        if id in ids || id in AcIds(acs) {
          JustOff(ids, acs, at, id);
          assert Off(id, at) in all;
        }
      }
    }
  }

  lemma {:induction false} KeepingDistinct(ids: seq<DeviceId>, keep: set<DeviceId>)
    requires Distinct(ids)
    ensures Distinct(Keeping(ids, keep))
  {
    if ids != [] {
      assert ids[0] !in ids[1..];
      KeepingDistinct(ids[1..], keep);
    }
  }

  lemma {:induction false} KeptAcsAreIds(acs: seq<Ac>, keep: set<DeviceId>)
    ensures AcIds(KeptAcs(acs, keep)) == Keeping(AcIds(acs), keep)
  {
    if acs != [] {
      KeptAcsAreIds(acs[1..], keep);
      if acs[0].id in keep {
        assert KeptAcs(acs, keep)[1..] == KeptAcs(acs[1..], keep);
      } else {
        assert KeptAcs(acs, keep) == KeptAcs(acs[1..], keep);
      }
      assert AcIds(acs)[1..] == AcIds(acs[1..]);
    }
  }

  lemma KeepKeepsFresh(c: Option<Capture>, keep: set<DeviceId>, offs: set<Off>)
    requires c.Some? ==> Tidy(c.value) && Fresh(c.value, offs)
    ensures var r := Kept(c, keep);
      && (r.Some? ==> Tidy(r.value) && Fresh(r.value, offs) && c.Some? && r.value.capturedAt == c.value.capturedAt)
      && forall id :: (r.Some? && Lists(r.value, id)) <==> (c.Some? && Lists(c.value, id) && id in keep)
  {
    if c.Some? {
      KeepingDistinct(c.value.ids, keep);
      KeptAcsAreIds(c.value.acs, keep);
      KeepingDistinct(AcIds(c.value.acs), keep);
      var ids, acs := Keeping(c.value.ids, keep), KeptAcs(c.value.acs, keep);
      assert acs == [] ==> AcIds(acs) == [];
      forall id ensures (id in ids || id in AcIds(acs)) <==> (Lists(c.value, id) && id in keep) {}
    }
  }

  // -- the engine's rows ---------------------------------------------------------------------

  class NowData {
    var restores: map<RoomId, Capture>
    ghost var offs: map<RoomId, set<Off>>

    ghost function Seen(room: RoomId): set<Off>
      reads this
    {
      if room in offs then offs[room] else {}
    }

    function Current(room: RoomId): Option<Capture>
      reads this
    {
      if room in restores then Some(restores[room]) else None
    }

    ghost predicate Valid()
      reads this
    {
      forall r :: r in restores ==> Tidy(restores[r]) && Fresh(restores[r], Seen(r))
    }

    constructor ()
      ensures Valid() && restores == map[]
    {
      restores, offs := map[], map[];
    }

    /** Everything in the room's capture, its ACs last. */
    method ExtendRestoreSet(room: RoomId, ids: seq<DeviceId>, acs: seq<Ac>, at: real) returns (all: seq<DeviceId>)
      requires Valid()
      modifies this
      ensures Valid()
      ensures Current(room) == Extended(old(Current(room)), ids, acs, at)
      ensures forall r :: r != room ==> Current(r) == old(Current(r))
      ensures all == if Current(room).Some? then Current(room).value.ids + AcIds(Current(room).value.acs) else []
    {
      ExtendKeepsFresh(Current(room), ids, acs, at, Seen(room));
      offs := offs[room := Seen(room) + OffsOf(ids, acs, at)];
      if ids == [] && acs == [] {
        assert OffsOf(ids, acs, at) == {};
        return if room in restores then restores[room].ids + AcIds(restores[room].acs) else [];
      }
      var once, levels, stamp := Once(ids), WithAcs([], acs), at;
      if room in restores && Within(restores[room].capturedAt, at) {
        once := Once(restores[room].ids + once);
        levels := WithAcs(restores[room].acs, levels);
        stamp := restores[room].capturedAt;
      }
      restores := restores[room := Capture(once, levels, stamp)];
      return once + AcIds(levels);
    }

    method KeepInRestoreSet(room: RoomId, keep: set<DeviceId>) returns (left: seq<DeviceId>)
      requires Valid()
      modifies `restores
      ensures Valid()
      ensures Current(room) == Kept(old(Current(room)), keep)
      ensures forall r :: r != room ==> Current(r) == old(Current(r))
      ensures left == if Current(room).Some? then Current(room).value.ids + AcIds(Current(room).value.acs) else []
    {
      KeepKeepsFresh(Current(room), keep, Seen(room));
      var ids := if room in restores then Keeping(restores[room].ids, keep) else [];
      var acs := if room in restores then KeptAcs(restores[room].acs, keep) else [];
      if ids != [] || acs != [] {
        restores := restores[room := Capture(ids, acs, restores[room].capturedAt)];
        return ids + AcIds(acs);
      }
      restores := restores - {room};
      return [];
    }

    method ConsumeRestoreSet(room: RoomId) returns (ids: seq<DeviceId>)
      requires Valid()
      modifies `restores
      ensures Valid()
      ensures Current(room).None? && forall r :: r != room ==> Current(r) == old(Current(r))
      ensures ids == if old(Current(room)).Some? then old(Current(room)).value.ids else []
    {
      ids := if room in restores then restores[room].ids else [];
      restores := restores - {room};
    }
  }
}
