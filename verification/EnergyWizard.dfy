/**
 The wizard's check of a configuration against the discovered home, and why
 what it lets through is never stale when the rules run on the same home.
 */
module EnergyWizard {
  import opened Documents
  import opened Wrappers
  import opened EnergyConfig
  import opened EnergyRules

  /** What the wizard offers in one room. */
  datatype Offered = Offered(
    lights: set<string>,
    plugs: set<string>,
    heaters: set<string>,
    climates: set<string>,
    automatic: bool)

  datatype Switches = Switches(room: string, count: nat, channels: set<string>)

  datatype Discovery = Discovery(rooms: map<string, Offered>, groups: map<string, Switches>)

  predicate ThinnedCount(level: Level, n: nat) { n == 3 || (n == 2 && !level.Low?) }

  function EligibleGangs(level: Level, c: Config, d: Discovery): set<string> {
    set g | g in d.groups && d.groups[g].room !in c.excludedRooms && ThinnedCount(level, d.groups[g].count)
  }

  predicate LightRoom(level: Level, c: Config, d: Discovery, r: string)
    requires r in d.rooms
  {
    r !in c.excludedRooms && |d.rooms[r].lights| > 1 && !(level.Smart? && d.rooms[r].automatic)
  }

  predicate AcRoom(level: Level, c: Config, d: Discovery, r: string)
    requires r in d.rooms
  {
    r !in c.excludedRooms
    && ((level.Medium? && |d.rooms[r].climates| > 1) || (level.Smart? && !d.rooms[r].automatic && d.rooms[r].climates != {}))
  }

  function LightRooms(level: Level, c: Config, d: Discovery): set<string> { set r | r in d.rooms && LightRoom(level, c, d, r) }

  function AcRooms(level: Level, c: Config, d: Discovery): set<string> { set r | r in d.rooms && AcRoom(level, c, d, r) }

  function OfferedPlugs(c: Config, d: Discovery): set<string> {
    set r, e | r in d.rooms && r !in c.excludedRooms && e in d.rooms[r].plugs :: e
  }

  function OfferedHeaters(c: Config, d: Discovery): set<string> {
    set r, e | r in d.rooms && r !in c.excludedRooms && e in d.rooms[r].heaters :: e
  }

  function Items(q: seq<string>): set<string> { set e | e in q }

  function HeaterIds(hs: seq<Heater>): set<string> { set h | h in hs :: h.entityId }

  predicate GoodGang(c: Config, d: Discovery, g: string)
    requires g in c.gangKeepers
  {
    g in d.groups && d.groups[g].room !in c.excludedRooms && Items(c.gangKeepers[g]) <= d.groups[g].channels
  }

  predicate GoodLights(c: Config, d: Discovery, r: string)
    requires r in d.rooms
  {
    r in c.lightKeepers ==>
      Items(c.lightKeepers[r]) <= d.rooms[r].lights && |c.lightKeepers[r]| == (|d.rooms[r].lights| + 1) / 2
  }

  predicate GoodAcs(c: Config, d: Discovery, r: string)
    requires r in d.rooms
  {
    r in c.acKeepers ==> Items(c.acKeepers[r]) <= d.rooms[r].climates
  }

  /** Every pick current and, once setup is complete, every question answered. */
  predicate Accepts(level: Level, c: Config, d: Discovery) {
    && (forall r :: r in c.excludedRooms ==> r in d.rooms)
    && (forall g :: g in c.gangKeepers ==> GoodGang(c, d, g))
    && (forall r :: r in d.rooms ==> GoodLights(c, d, r))
    && Items(c.plugOffs) <= OfferedPlugs(c, d)
    && HeaterIds(c.heaters) <= OfferedHeaters(c, d)
    && (forall r :: r in d.rooms ==> GoodAcs(c, d, r))
    && (c.setupComplete ==> Answered(level, c, d))
  }

  predicate Answered(level: Level, c: Config, d: Discovery) {
    && c.gangKeepers.Keys == EligibleGangs(level, c, d)
    && c.lightKeepers.Keys == LightRooms(level, c, d)
    && HeaterIds(c.heaters) == OfferedHeaters(c, d)
    && c.acKeepers.Keys == AcRooms(level, c, d)
  }

  /** Some room that is not excluded has it among its plugs, or its heaters. */
  predicate PlugOffered(c: Config, d: Discovery, e: string) {
    exists r :: r in d.rooms && r !in c.excludedRooms && e in d.rooms[r].plugs
  }

  predicate HeaterOffered(c: Config, d: Discovery, e: string) {
    exists r :: r in d.rooms && r !in c.excludedRooms && e in d.rooms[r].heaters
  }

  ghost predicate GangCurrent(c: Config, d: Discovery, g: string)
    requires g in c.gangKeepers
  {
    g in d.groups && d.groups[g].room !in c.excludedRooms && forall e :: e in c.gangKeepers[g] ==> e in d.groups[g].channels
  }

  ghost predicate LightsCurrent(c: Config, d: Discovery, r: string)
    requires r in d.rooms
  {
    r in c.lightKeepers ==>
      && (forall e :: e in c.lightKeepers[r] ==> e in d.rooms[r].lights)
      && (2 * |c.lightKeepers[r]| == |d.rooms[r].lights| || 2 * |c.lightKeepers[r]| == |d.rooms[r].lights| + 1)
  }

  ghost predicate AcsCurrent(c: Config, d: Discovery, r: string)
    requires r in d.rooms
  {
    r in c.acKeepers ==> forall e :: e in c.acKeepers[r] ==> e in d.rooms[r].climates
  }

  /** Every pick is still there in an offered place. */
  ghost predicate CurrentPicks(c: Config, d: Discovery) {
    && (forall r :: r in c.excludedRooms ==> r in d.rooms)
    && (forall g :: g in c.gangKeepers ==> GangCurrent(c, d, g))
    && (forall r :: r in d.rooms ==> LightsCurrent(c, d, r))
    && (forall r :: r in d.rooms ==> AcsCurrent(c, d, r))
    && (forall e :: e in c.plugOffs ==> PlugOffered(c, d, e))
    && (forall i :: 0 <= i < |c.heaters| ==> HeaterOffered(c, d, c.heaters[i].entityId))
  }

  /** Every question is answered and no other: the gangs and rooms a level thins, all heaters, the rooms where it keeps ACs. */
  ghost predicate AllAnswered(level: Level, c: Config, d: Discovery) {
    && (forall g :: g in c.gangKeepers <==>
          g in d.groups && d.groups[g].room !in c.excludedRooms && (d.groups[g].count == 3 || (d.groups[g].count == 2 && level != Low)))
    && (forall r :: r in c.lightKeepers <==>
          r in d.rooms && r !in c.excludedRooms && |d.rooms[r].lights| > 1 && (level == Smart ==> !d.rooms[r].automatic))
    && (forall e :: HeaterOffered(c, d, e) ==> exists i :: 0 <= i < |c.heaters| && c.heaters[i].entityId == e)
    && (forall r :: r in c.acKeepers <==>
          && r in d.rooms && r !in c.excludedRooms
          && match level
             case Low => false
             case Medium => |d.rooms[r].climates| > 1
             case Smart => |d.rooms[r].climates| > 0 && !d.rooms[r].automatic)
  }

  /** What the wizard lets through: current picks, and once set up every question answered. */
  lemma AcceptsExactly(level: Level, c: Config, d: Discovery)
    ensures Accepts(level, c, d) <==> CurrentPicks(c, d) && (c.setupComplete ==> AllAnswered(level, c, d))
  {
    PicksCurrentExactly(c, d);
    if CurrentPicks(c, d) { AnsweredExactly(level, c, d); }
    hide CurrentPicks, AllAnswered, Answered, GoodGang, GoodLights, GoodAcs;
  }

  lemma PicksCurrentExactly(c: Config, d: Discovery)
    ensures CurrentPicks(c, d) <==>
      && (forall r :: r in c.excludedRooms ==> r in d.rooms)
      && (forall g :: g in c.gangKeepers ==> GoodGang(c, d, g))
      && (forall r :: r in d.rooms ==> GoodLights(c, d, r))
      && Items(c.plugOffs) <= OfferedPlugs(c, d)
      && HeaterIds(c.heaters) <= OfferedHeaters(c, d)
      && (forall r :: r in d.rooms ==> GoodAcs(c, d, r))
  {
    forall r | r in d.rooms ensures GoodLights(c, d, r) <==> LightsCurrent(c, d, r) {}
    forall r | r in d.rooms ensures GoodAcs(c, d, r) <==> AcsCurrent(c, d, r) {}
    PlugsExactly(c, d);
    HeatersExactly(c, d);
    hide GoodLights, GoodAcs, Items, OfferedPlugs, OfferedHeaters, HeaterIds, PlugOffered, HeaterOffered;
    forall g | g in c.gangKeepers ensures GoodGang(c, d, g) <==> GangCurrent(c, d, g) { GangExactly(c, d, g); }
    hide GoodGang;
  }

  lemma GangExactly(c: Config, d: Discovery, g: string)
    requires g in c.gangKeepers
    ensures GoodGang(c, d, g) <==> GangCurrent(c, d, g)
  {}

  lemma PlugsExactly(c: Config, d: Discovery)
    ensures Items(c.plugOffs) <= OfferedPlugs(c, d) <==> forall e :: e in c.plugOffs ==> PlugOffered(c, d, e)
  {
    forall e ensures e in OfferedPlugs(c, d) <==> PlugOffered(c, d, e) {}
    hide OfferedPlugs, PlugOffered;
    forall e ensures e in Items(c.plugOffs) <==> e in c.plugOffs {}
  }

  lemma HeatersExactly(c: Config, d: Discovery)
    ensures HeaterIds(c.heaters) <= OfferedHeaters(c, d) <==> forall i :: 0 <= i < |c.heaters| ==> HeaterOffered(c, d, c.heaters[i].entityId)
    ensures OfferedHeaters(c, d) <= HeaterIds(c.heaters) <==>
      forall e :: HeaterOffered(c, d, e) ==> exists i :: 0 <= i < |c.heaters| && c.heaters[i].entityId == e
  {
    forall e ensures e in OfferedHeaters(c, d) <==> HeaterOffered(c, d, e) {}
    hide OfferedHeaters, HeaterOffered;
    forall e ensures e in HeaterIds(c.heaters) <==> exists i :: 0 <= i < |c.heaters| && c.heaters[i].entityId == e { HeaterIdsAre(c.heaters, e); }
    hide HeaterIds;
  }

  lemma HeaterIdsAre(hs: seq<Heater>, e: string)
    ensures e in HeaterIds(hs) <==> exists i :: 0 <= i < |hs| && hs[i].entityId == e
  {
    if i :| 0 <= i < |hs| && hs[i].entityId == e { assert hs[i] in hs; }
  }

  lemma AnsweredExactly(level: Level, c: Config, d: Discovery)
    requires HeaterIds(c.heaters) <= OfferedHeaters(c, d)
    ensures Answered(level, c, d) <==> AllAnswered(level, c, d)
  {
    HeatersExactly(c, d);
    QuestionsAre(level, c, d);
    hide EligibleGangs, LightRooms, AcRooms, OfferedHeaters, HeaterIds, HeaterOffered;
  }

  lemma QuestionsAre(level: Level, c: Config, d: Discovery)
    ensures forall g :: g in EligibleGangs(level, c, d) <==>
      g in d.groups && d.groups[g].room !in c.excludedRooms && (d.groups[g].count == 3 || (d.groups[g].count == 2 && level != Low))
    ensures forall r :: r in LightRooms(level, c, d) <==>
      r in d.rooms && r !in c.excludedRooms && |d.rooms[r].lights| > 1 && (level == Smart ==> !d.rooms[r].automatic)
    ensures forall r :: r in AcRooms(level, c, d) <==>
      && r in d.rooms && r !in c.excludedRooms
      && match level
         case Low => false
         case Medium => |d.rooms[r].climates| > 1
         case Smart => |d.rooms[r].climates| > 0 && !d.rooms[r].automatic
  {}

  // -- the validator's loops ----------------------------------------------------------

  method CheckGangs(c: Config, d: Discovery) returns (ok: bool)
    ensures ok <==> forall g :: g in c.gangKeepers ==> GoodGang(c, d, g)
  {
    var todo := c.gangKeepers.Keys;
    while todo != {}
      invariant todo <= c.gangKeepers.Keys
      invariant forall g :: g in c.gangKeepers && g !in todo ==> GoodGang(c, d, g)
      decreases todo
    {
      var g :| g in todo;
      if g !in d.groups || d.groups[g].room in c.excludedRooms {
        return false;
      }
      if !(Items(c.gangKeepers[g]) <= d.groups[g].channels) {
        return false;
      }
      todo := todo - {g};
    }
    return true;
  }

  /** Gathers the rooms with a light question while checking their picks. */
  method CheckLights(level: Level, c: Config, d: Discovery) returns (ok: bool, eligible: set<string>)
    ensures ok <==> forall r :: r in d.rooms ==> GoodLights(c, d, r)
    ensures ok ==> eligible == LightRooms(level, c, d)
  {
    var todo := d.rooms.Keys;
    eligible := {};
    while todo != {}
      invariant todo <= d.rooms.Keys
      invariant eligible == LightRooms(level, c, d) - todo
      invariant forall r :: r in d.rooms && r !in todo ==> GoodLights(c, d, r)
      decreases todo
    {
      var r :| r in todo;
      if r !in c.excludedRooms && |d.rooms[r].lights| > 1 && !(level.Smart? && d.rooms[r].automatic) {
        eligible := eligible + {r};
      }
      if r in c.lightKeepers {
        if !(Items(c.lightKeepers[r]) <= d.rooms[r].lights) {
          return false, {};
        }
        if |c.lightKeepers[r]| != (|d.rooms[r].lights| + 1) / 2 {
          return false, {};
        }
      }
      todo := todo - {r};
    }
    return true, eligible;
  }

  method CheckAcs(level: Level, c: Config, d: Discovery) returns (ok: bool, eligible: set<string>)
    ensures ok <==> forall r :: r in d.rooms ==> GoodAcs(c, d, r)
    ensures ok ==> eligible == AcRooms(level, c, d)
  {
    var todo := d.rooms.Keys;
    eligible := {};
    while todo != {}
      invariant todo <= d.rooms.Keys
      invariant eligible == AcRooms(level, c, d) - todo
      invariant forall r :: r in d.rooms && r !in todo ==> GoodAcs(c, d, r)
      decreases todo
    {
      var r :| r in todo;
      var room := d.rooms[r];
      if r !in c.excludedRooms
         && ((level.Medium? && |room.climates| > 1) || (level.Smart? && !room.automatic && room.climates != {}))
      {
        eligible := eligible + {r};
      }
      if r in c.acKeepers && !(Items(c.acKeepers[r]) <= room.climates) {
        return false, {};
      }
      todo := todo - {r};
    }
    return true, eligible;
  }

  /** validate_config_against_discovery, in its own order of checks. */
  method ValidateAgainstDiscovery(level: Level, c: Config, d: Discovery) returns (ok: bool)
    ensures ok <==> Accepts(level, c, d)
  {
    if exists r :: r in c.excludedRooms && r !in d.rooms {
      return false;
    }
    var gangsOk := CheckGangs(c, d);
    if !gangsOk || (c.setupComplete && c.gangKeepers.Keys != EligibleGangs(level, c, d)) {
      return false;
    }
    var lightsOk, lightRooms := CheckLights(level, c, d);
    if !lightsOk || (c.setupComplete && c.lightKeepers.Keys != lightRooms) {
      return false;
    }
    if !(Items(c.plugOffs) <= OfferedPlugs(c, d)) {
      return false;
    }
    var picked, heaters := HeaterIds(c.heaters), OfferedHeaters(c, d);
    if !(picked <= heaters) || (c.setupComplete && picked != heaters) {
      return false;
    }
    var acsOk, acRooms := CheckAcs(level, c, d);
    if !acsOk || (c.setupComplete && c.acKeepers.Keys != acRooms) {
      return false;
    }
    return true;
  }

  // -- the wizard and the rules look at one home -------------------------------------

  /** Both were built from the same devices: the rooms' candidates and the plugs on offer. */
  ghost predicate SameHome(inv: Inventory, d: Discovery) {
    && (forall r :: r in inv.rooms ==> SameRoom(inv, d, r))
    && (forall r, e :: r in d.rooms && e in d.rooms[r].plugs + d.rooms[r].heaters
          ==> e in inv.entities && inv.entities[e].device.Switch?)
  }

  ghost predicate SameRoom(inv: Inventory, d: Discovery, r: string)
    requires r in inv.rooms
  {
    && r in d.rooms
    && Items(inv.rooms[r].lights) == d.rooms[r].lights
    && Items(inv.rooms[r].climates) == d.rooms[r].climates
    && inv.rooms[r].automatic == d.rooms[r].automatic
  }

  /** A gang whose channels are all in the inventory, in the room the wizard showed it in. */
  predicate SameGang(g: Gang, d: Discovery) {
    && g.id in d.groups
    && g.room == Some(d.groups[g.id].room)
    && |g.ids| == d.groups[g.id].count
    && Items(g.ids) == d.groups[g.id].channels
  }

  /** A finished, accepted configuration of the pass's level, over the home the wizard saw. */
  ghost predicate FromWizard(p: Pass, d: Discovery) {
    && ValidConfig(p.level, p.config) && p.config.setupComplete && Accepts(p.level, p.config, d)
    && WellFormed(p.inv) && SameHome(p.inv, d)
  }

  lemma {:induction false} DistinctSize(q: seq<string>)
    requires Distinct(q)
    ensures |Items(q)| == |q|
  {
    if q != [] {
      var init := q[..|q| - 1];
      DistinctSize(init);
      assert q == init + [q[|q| - 1]];
      assert Items(q) == Items(init) + {q[|q| - 1]};
    }
  }

  lemma KeepersAreItems(picks: Picks, key: string, rule: PickRule)
    requires CleanPickMap(picks, rule) && key in picks
    ensures Keepers(picks, key) == Items(picks[key]) && |Keepers(picks, key)| == |picks[key]|
    ensures RightCount(rule, |picks[key]|)
  {
    assert CleanPick(key, picks[key], rule);
    DistinctSize(picks[key]);
  }

  lemma GangIsFresh(p: Pass, d: Discovery, g: Gang)
    requires FromWizard(p, d) && SameGang(g, d) && Thinned(p, g)
    ensures GoodGangPicks(p, g)
  {
    assert g.id in EligibleGangs(p.level, p.config, d);
    assert GoodGang(p.config, d, g.id);
    KeepersAreItems(p.config.gangKeepers, g.id, GangRule(p.level));
  }

  lemma LightsAreFresh(p: Pass, d: Discovery, r: string)
    requires r in p.inv.rooms && SameRoom(p.inv, d, r) && Distinct(p.inv.rooms[r].lights)
    requires CleanPickMap(p.config.lightKeepers, AtLeastOne) && GoodLights(p.config, d, r)
    ensures LightIssues(p, r) == {}
  {
    DistinctSize(p.inv.rooms[r].lights);
    if r in p.config.lightKeepers {
      KeepersAreItems(p.config.lightKeepers, r, AtLeastOne);
    }
  }

  lemma ClimatesAreFresh(p: Pass, d: Discovery, r: string)
    requires r in p.inv.rooms && SameRoom(p.inv, d, r) && Distinct(p.inv.rooms[r].climates) && Static(p, r)
    requires CleanPickMap(p.config.acKeepers, AcRule(p.level)) && GoodAcs(p.config, d, r)
    requires AcRoom(p.level, p.config, d, r) ==> r in p.config.acKeepers
    ensures ClimateIssues(p, r) == {}
  {
    DistinctSize(p.inv.rooms[r].climates);
    if r in p.config.acKeepers {
      KeepersAreItems(p.config.acKeepers, r, AcRule(p.level));
    }
  }

  lemma {:induction false} TurnOffHeatersAreHeaters(hs: seq<Heater>, e: string)
    requires e in TurnOffHeaters(hs)
    ensures e in HeaterIds(hs)
  {
    if !(hs[0].turnOff && hs[0].entityId == e) { TurnOffHeatersAreHeaters(hs[1..], e); }
  }

  lemma OfferedIsSwitch(inv: Inventory, d: Discovery, r: string, e: string)
    requires SameHome(inv, d) && r in d.rooms && e in d.rooms[r].plugs + d.rooms[r].heaters
    ensures e in inv.entities && inv.entities[e].device.Switch?
  {}

  lemma OffIsFresh(p: Pass, d: Discovery, e: string)
    requires FromWizard(p, d) && e in Offs(p.config)
    ensures e in p.inv.entities && p.inv.entities[e].device.Switch?
  {
    hide ValidConfig, WellFormed, SameHome, Answered, SameRoom, GoodGang, GoodLights, GoodAcs;
    var r: string;
    if e in p.config.plugOffs {
      assert e in Items(p.config.plugOffs);
      r :| r in d.rooms && e in d.rooms[r].plugs;
    } else {
      TurnOffHeatersAreHeaters(p.config.heaters, e);
      r :| r in d.rooms && e in d.rooms[r].heaters;
    }
    OfferedIsSwitch(p.inv, d, r, e);
  }

  lemma OffsAreFresh(p: Pass, d: Discovery)
    requires FromWizard(p, d)
    ensures OffsAreNoLights(p) && MissingIssues(p, Offs(p.config)) == {}
  {
    forall e | e in Offs(p.config) ensures e in p.inv.entities && p.inv.entities[e].device.Switch? {
      OffIsFresh(p, d, e);
    }
  }

  /** A finished wizard result is never stale: a pass on the same home reports nothing, at any level. */
  lemma WizardResultIsNeverStale(p: Pass, d: Discovery)
    requires FromWizard(p, d) && (forall g :: g in p.inv.gangs ==> SameGang(g, d))
    ensures PassIssues(p) == {}
  {
    OffsAreFresh(p, d);
    forall i | 0 <= i < |p.inv.gangs| && Thinned(p, p.inv.gangs[i]) ensures GoodGangPicks(p, p.inv.gangs[i]) {
      GangIsFresh(p, d, p.inv.gangs[i]);
    }
    forall r | r in p.inv.rooms && Static(p, r) ensures ClimateIssues(p, r) + LightIssues(p, r) == {} {
      assert SameRoom(p.inv, d, r) && RoomFormed(p.inv, r, p.inv.rooms[r]);
      assert GoodLights(p.config, d, r) && GoodAcs(p.config, d, r);
      LightsAreFresh(p, d, r);
      assert AcRoom(p.level, p.config, d, r) ==> r in AcRooms(p.level, p.config, d);
      ClimatesAreFresh(p, d, r);
    }
  }

  /** ... and a second pass changes no device. */
  lemma {:induction false} WizardPassIsIdempotent(p: Pass, d: Discovery)
    requires FromWizard(p, d)
    ensures HomeAfter(Again(p)) == HomeAfter(p)
  {
    OffsAreFresh(p, d);
    PassIsIdempotent(p);
  }

  /**
   A thinned gang is reported exactly when the wizard asked nothing about it (it
   showed no such group, or another channel count or room) or a picked channel
   is gone from the inventory.
   */
  lemma GangIsStaleExactly(p: Pass, d: Discovery, g: Gang)
    requires FromWizard(p, d) && Thinned(p, g)
    ensures !GoodGangPicks(p, g) <==>
      (g.id !in EligibleGangs(p.level, p.config, d) || exists e :: e in p.config.gangKeepers[g.id] && e !in g.ids)
  {
    assert g.id in p.config.gangKeepers <==> g.id in EligibleGangs(p.level, p.config, d);
    if g.id in p.config.gangKeepers {
      KeepersAreItems(p.config.gangKeepers, g.id, GangRule(p.level));
    }
  }
}
