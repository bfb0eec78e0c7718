/**
 Why a static pass changes a device: for each kind of device exactly when, and
 to what, said of the inventory, the picks and the numbers alone. Whatever has
 no reason to change is as it was; what the household keeps stays on.
 */
module EnergyReasons {
  import opened Documents
  import opened Wrappers
  import opened EnergyConfig
  import opened EnergyRules

  /** Commands reach e: it is not released, its calls do not fail, its domain is managed. */
  predicate Reachable(p: Pass, e: string) {
    e in p.inv.entities && e !in p.released && e !in p.failing && !p.inv.entities[e].device.Other?
  }

  /** Neither excluded nor with a sensor missing. */
  predicate Open(p: Pass, room: Option<string>) {
    room.Some? ==> room.value !in p.config.excludedRooms && (room.value in p.inv.rooms ==> !p.inv.rooms[room.value].troubled)
  }

  predicate On(p: Pass, e: string) { e in p.inv.entities && p.inv.entities[e].available && p.inv.entities[e].device.on }

  /** Home Assistant says "on": a running AC or an open cover has other words. */
  predicate SaysOn(p: Pass, e: string) { On(p, e) && !p.inv.entities[e].device.Climate? && !p.inv.entities[e].device.Cover? }

  predicate Picked(picks: Picks, key: string, e: string) { key in picks && e in picks[key] }

  function Count(picks: Picks, key: string): nat { if key in picks then |set e | e in picks[key]| else 0 }

  // -- switches: gangs, plugs and heaters ---------------------------------------------

  /** A fully lit gang switch of an open room whose picks are current and spare another channel. */
  ghost predicate AsksOff(p: Pass, g: Gang, e: string) {
    && e in g.ids && !Picked(p.config.gangKeepers, g.id, e)
    && (forall c :: c in g.ids ==> SaysOn(p, c))
    && Open(p, g.room)
    && (forall c :: Picked(p.config.gangKeepers, g.id, c) ==> c in g.ids)
    && (if p.level.Low? then |g.ids| == 3 && Count(p.config.gangKeepers, g.id) == 2
        else 2 <= |g.ids| <= 3 && Count(p.config.gangKeepers, g.id) == 1)
  }

  predicate Chosen(p: Pass, e: string) {
    e in p.config.plugOffs || exists i :: 0 <= i < |p.config.heaters| && p.config.heaters[i].entityId == e && p.config.heaters[i].turnOff
  }

  ghost predicate SwitchedOff(p: Pass, e: string) {
    && Reachable(p, e)
    && ((exists i :: 0 <= i < |p.inv.gangs| && AsksOff(p, p.inv.gangs[i], e)) || (Chosen(p, e) && SaysOn(p, e) && Open(p, p.inv.entities[e].room)))
  }

  /** A device in no room's lists: off if and only if a gang asks for it or it is a chosen plug or heater. */
  lemma SwitchesExactly(p: Pass, e: string)
    requires e in p.inv.entities && forall r :: r in p.inv.rooms ==> !RoomDevice(p, r, e)
    ensures EntityAfter(p, e) == if SwitchedOff(p, e) then Off(p.inv.entities[e]) else p.inv.entities[e]
  {
    if e !in Immune(p) { OffExactly(p, e); }
  }

  /** So a keeper of every gang it is in, if no chosen plug or heater, keeps the state it had. */
  lemma KeepersStay(p: Pass, e: string)
    requires e in p.inv.entities && forall r :: r in p.inv.rooms ==> !RoomDevice(p, r, e)
    requires forall g :: g in p.inv.gangs && e in g.ids ==> Picked(p.config.gangKeepers, g.id, e)
    requires !Chosen(p, e)
    ensures EntityAfter(p, e) == p.inv.entities[e]
  {
    SwitchesExactly(p, e);
  }

  lemma OffExactly(p: Pass, e: string)
    requires e in p.inv.entities && e !in Immune(p)
    ensures SomeGangOff(p, p.inv.gangs, e) || ListedOff(p, e) <==> SwitchedOff(p, e)
  {
    ChosenIsListed(p.config.heaters, e);
    forall i | 0 <= i < |p.inv.gangs| ensures GangOff(p, p.inv.gangs[i], e) <==> AsksOff(p, p.inv.gangs[i], e) {
      var g := p.inv.gangs[i];
      assert Keepers(p.config.gangKeepers, g.id) == (if g.id in p.config.gangKeepers then set c | c in p.config.gangKeepers[g.id] else {});
    }
  }

  lemma {:induction false} ChosenIsListed(hs: seq<Heater>, e: string)
    ensures e in TurnOffHeaters(hs) <==> exists i :: 0 <= i < |hs| && hs[i].entityId == e && hs[i].turnOff
  {
    if hs != [] {
      ChosenIsListed(hs[1..], e);
      if i :| 0 <= i < |hs| && hs[i].entityId == e && hs[i].turnOff {
        if i > 0 { assert hs[1..][i - 1] == hs[i]; }
      }
      if i :| 0 <= i < |hs[1..]| && hs[1..][i].entityId == e && hs[1..][i].turnOff {
        assert hs[i + 1] == hs[1..][i];
      }
    }
  }

  // -- a room's own devices -------------------------------------------------------------

  /** Open, and not run by occupancy. */
  predicate Covered(p: Pass, r: string)
    requires r in p.inv.rooms
  {
    Open(p, Some(r)) && (p.level.Smart? ==> !p.inv.rooms[r].automatic)
  }

  /** Every pick is one of ids. */
  predicate Current(picks: Picks, key: string, ids: seq<string>) {
    key in picks ==> forall c :: c in picks[key] ==> c in ids
  }

  predicate HalfPicked(p: Pass, r: string)
    requires r in p.inv.rooms
  {
    var n, k := |p.inv.rooms[r].lights|, Count(p.config.lightKeepers, r);
    (2 * k == n || 2 * k == n + 1) && Current(p.config.lightKeepers, r, p.inv.rooms[r].lights)
  }

  function Cap(level: Level): nat { if level.Low? then 204 else if level.Medium? then 153 else 102 }

  function CappedLight(x: Entity, cap: nat): Entity
    requires x.device.Light?
  {
    if x.device.brightness.Some? && x.device.brightness.value > cap then x.(device := x.device.(brightness := Some(cap))) else x
  }

  /** A light that is on: dimmed to 80, 60 or 40 percent if it is picked, else off, in a room of several with half picked. */
  lemma LightsExactly(p: Pass, r: string, e: string)
    requires WellFormed(p.inv) && OffsAreNoLights(p) && r in p.inv.rooms && e in p.inv.rooms[r].lights
    ensures var x, y := p.inv.entities[e], EntityAfter(p, e);
      x.device.Light?
      && y == (if !Reachable(p, e) || !On(p, e) || !Covered(p, r) || |p.inv.rooms[r].lights| <= 1
                  || r !in p.config.lightKeepers || !HalfPicked(p, r) then x
               else if Picked(p.config.lightKeepers, r, e) then CappedLight(x, Cap(p.level))
               else x.(device := Light(false, None)))
  {
    assert RoomFormed(p.inv, r, p.inv.rooms[r]);
    forall g | g in p.inv.gangs ensures e !in g.ids { assert GangFormed(p.inv, g); }
    assert !SomeGangOff(p, p.inv.gangs, e) && !ListedOff(p, e);
    PicksAgree(p.config.lightKeepers, r);
  }

  lemma PicksAgree(picks: Picks, key: string)
    ensures Count(picks, key) == |Keepers(picks, key)|
    ensures Count(picks, key) == 0 <==> Keepers(picks, key) == {}
    ensures forall e :: e in Keepers(picks, key) <==> Picked(picks, key, e)
    ensures forall ids: seq<string> :: Current(picks, key, ids) <==> Keepers(picks, key) <= set c | c in ids
  {
    forall ids: seq<string> ensures Current(picks, key, ids) <==> Keepers(picks, key) <= set c | c in ids {
      if key in picks {
        assert forall c :: c in picks[key] <==> c in Keepers(picks, key);
        assert forall c :: c in ids <==> c in (set c | c in ids);
      }
    }
  }

  predicate Pointless(heating: bool, temperature: Option<real>) {
    temperature.Some? && (if heating then temperature.value > 24.0 else temperature.value < 22.0)
  }

  function PulledBack(x: Entity): Entity
    requires x.device.Climate?
  {
    var d := x.device;
    if d.target.Some? && d.heating && d.target.value > 21.0 then x.(device := d.(target := Some(21.0)))
    else if d.target.Some? && !d.heating && d.target.value < 24.0 then x.(device := d.(target := Some(24.0)))
    else x
  }

  /** 21 when heating, else 24, with its low fan if it has one. */
  function HeldBack(x: Entity): Entity
    requires x.device.Climate?
  {
    var d := x.device.(target := Some(if x.device.heating then 21.0 else 24.0));
    x.(device := if d.lowFan.Some? then d.(fan := d.lowFan) else d)
  }

  function Stopped(x: Entity): Entity
    requires x.device.Climate?
  {
    x.(device := x.device.(on := false))
  }

  /** What becomes of a running AC at Medium and at Smart. */
  function MediumAc(p: Pass, r: string, e: string, x: Entity): Entity
    requires r in p.inv.rooms && x.device.Climate?
  {
    var ids := p.inv.rooms[r].climates;
    if |ids| > 1 && (Count(p.config.acKeepers, r) != 1 || !Current(p.config.acKeepers, r, ids)) then x
    else if |ids| > 1 && !Picked(p.config.acKeepers, r, e) then Stopped(x)
    else if Pointless(x.device.heating, p.inv.rooms[r].temperature) then Stopped(x)
    else HeldBack(x)
  }

  function SmartAc(p: Pass, r: string, e: string, x: Entity): Entity
    requires r in p.inv.rooms && x.device.Climate?
  {
    if r !in p.config.acKeepers || !Current(p.config.acKeepers, r, p.inv.rooms[r].climates) then x
    else if Picked(p.config.acKeepers, r, e) then x
    else Stopped(x)
  }

  /** A running AC: Low only pulls a wasteful target back, Medium holds one, Smart stops those not picked. */
  lemma AcsExactly(p: Pass, r: string, e: string)
    requires WellFormed(p.inv) && r in p.inv.rooms && e in p.inv.rooms[r].climates
    ensures var x, y := p.inv.entities[e], EntityAfter(p, e);
      x.device.Climate?
      && y == (if !Reachable(p, e) || !On(p, e) || !Covered(p, r) then x
               else match p.level
                 case Low => PulledBack(x)
                 case Medium => MediumAc(p, r, e, x)
                 case Smart => SmartAc(p, r, e, x))
  {
    assert RoomFormed(p.inv, r, p.inv.rooms[r]);
    assert !SomeGangOff(p, p.inv.gangs, e) && !ListedOff(p, e);
    var x := p.inv.entities[e];
    if Reachable(p, e) && Covered(p, r) {
      AcAfter(p, r, e, x);
    }
    hide ClimateAfter, PulledBack, MediumAc, SmartAc, WellFormed, RoomFormed, SomeGangOff, ListedOff;
  }

  lemma AcAfter(p: Pass, r: string, e: string, x: Entity)
    requires r in p.inv.rooms && x.device.Climate? && e in p.inv.rooms[r].climates
    ensures ClimateAfter(p, r, e, x) == (if !x.available || !x.device.on then x
                                         else match p.level
                                           case Low => PulledBack(x)
                                           case Medium => MediumAc(p, r, e, x)
                                           case Smart => SmartAc(p, r, e, x))
  {
    PicksAgree(p.config.acKeepers, r);
  }

  /** A cover is closed if and only if the sun heats, at Medium or Smart; otherwise it stays. */
  lemma CoversExactly(p: Pass, r: string, e: string)
    requires WellFormed(p.inv) && r in p.inv.rooms && e in p.inv.rooms[r].covers
    ensures var x, y := p.inv.entities[e], EntityAfter(p, e);
      x.device.Cover?
      && y == (if Reachable(p, e) && On(p, e) && Covered(p, r) && !p.level.Low? && p.heatWindow
               then x.(device := Cover(false)) else x)
  {
    assert RoomFormed(p.inv, r, p.inv.rooms[r]);
    assert !SomeGangOff(p, p.inv.gangs, e) && !ListedOff(p, e);
  }

  // -- what is reported --------------------------------------------------------------------

  ghost predicate StaleGang(p: Pass, id: string) {
    exists i :: 0 <= i < |p.inv.gangs| && p.inv.gangs[i].id == id && StaleSwitch(p, p.inv.gangs[i])
  }

  predicate StaleSwitch(p: Pass, g: Gang) {
    && Open(p, g.room)
    && (if p.level.Low? then |g.ids| == 3 else 2 <= |g.ids| <= 3)
    && (Count(p.config.gangKeepers, g.id) != (if p.level.Low? then 2 else 1) || !Current(p.config.gangKeepers, g.id, g.ids))
  }

  /** When a pass reports an issue: a stale pick, an unanswered question or a device that is gone. */
  ghost predicate Reports(p: Pass, i: Issue) {
    match i
    case InvalidGangPicks(g) => StaleGang(p, g)
    case DeviceMissing(e) => Chosen(p, e) && e !in p.inv.entities
    case AcKeeperRequired(r) =>
      r in p.inv.rooms && Covered(p, r) && p.level.Medium? && |p.inv.rooms[r].climates| > 1 && Count(p.config.acKeepers, r) == 0
    case InvalidAcPicks(r) =>
      && r in p.inv.rooms && Covered(p, r)
      && (if p.level.Smart? then !Current(p.config.acKeepers, r, p.inv.rooms[r].climates)
          else && p.level.Medium? && |p.inv.rooms[r].climates| > 1 && Count(p.config.acKeepers, r) > 0
               && (Count(p.config.acKeepers, r) > 1 || !Current(p.config.acKeepers, r, p.inv.rooms[r].climates)))
    case InvalidLightPicks(r) =>
      && r in p.inv.rooms && Covered(p, r) && |p.inv.rooms[r].lights| > 1
      && r in p.config.lightKeepers && !HalfPicked(p, r)
  }

  lemma IssuesExactly(p: Pass, i: Issue)
    ensures i in PassIssues(p) <==> Reports(p, i)
  {
    if i.InvalidGangPicks? {
      GangIssuesExactly(p, i.group);
      hide GangIssues, StaleGang, Offs;
    } else if i.DeviceMissing? {
      ChosenIsListed(p.config.heaters, i.id);
      hide GangIssues, StaleGang, TurnOffHeaters;
    } else {
      if i.room in p.inv.rooms { RoomIssuesExactly(p, i.room, i); }
      hide Static, ClimateIssues, LightIssues, HalfPicked, Covered, Count, Current;
    }
  }

  lemma GangIssuesExactly(p: Pass, id: string)
    ensures InvalidGangPicks(id) in GangIssues(p, p.inv.gangs) <==> StaleGang(p, id)
  {
    forall k | 0 <= k < |p.inv.gangs| ensures StaleSwitch(p, p.inv.gangs[k]) <==> Thinned(p, p.inv.gangs[k]) && !GoodGangPicks(p, p.inv.gangs[k]) {
      PicksAgree(p.config.gangKeepers, p.inv.gangs[k].id);
    }
    hide StaleSwitch, Thinned, GoodGangPicks;
  }

  lemma RoomIssuesExactly(p: Pass, r: string, i: Issue)
    requires !i.InvalidGangPicks? && !i.DeviceMissing? && i.room == r && r in p.inv.rooms
    ensures Static(p, r) && i in ClimateIssues(p, r) + LightIssues(p, r) <==> Reports(p, i)
  {
    assert Static(p, r) <==> Covered(p, r);
    hide Static, Covered;
    if i.InvalidLightPicks? {
      PicksAgree(p.config.lightKeepers, r);
      assert i !in ClimateIssues(p, r);
    } else {
      PicksAgree(p.config.acKeepers, r);
      assert i !in LightIssues(p, r);
    }
  }
}
