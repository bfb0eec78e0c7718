/**
 The static Energy Saving rules over one snapshot of the home: gang switches,
 plugs and heaters, ACs, lights and covers. Every command goes through one
 choke point that leaves released devices alone.
 */
module EnergyRules {
  import opened Documents
  import opened Wrappers
  import opened EnergyConfig

  const COOL_FLOOR := 24.0
  const COOL_KILL_BELOW := 22.0
  const HEAT_CEILING := 21.0
  const HEAT_KILL_ABOVE := 24.0

  function LightCap(level: Level): nat { match level case Low => 80 case Medium => 60 case Smart => 40 }

  /** round(255 * cap / 100), half to even: none of the caps is a tie. */
  function CapRaw(level: Level): nat { match level case Low => 204 case Medium => 153 case Smart => 102 }

  lemma CapRawIsRounded(level: Level)
    ensures -50 <= 255 * LightCap(level) - 100 * CapRaw(level) <= 50
  {}

  /** What a rule reads of one entity; an AC's mode is heating or, for any other mode, cooling. */
  datatype Device =
    | Switch(on: bool)
    | Light(on: bool, brightness: Option<nat>)
    | Climate(on: bool, heating: bool, target: Option<real>, fan: Option<string>, lowFan: Option<string>)
    | Cover(on: bool)   // on: open or opening
    | Other(on: bool)   // a domain no command goes to

  datatype Entity = Entity(room: Option<string>, available: bool, device: Device)

  datatype Room = Room(
    climates: seq<string>,
    lights: seq<string>,
    covers: seq<string>,
    automatic: bool,                 // has a temperature and a presence sensor
    temperature: Option<real>,
    troubled: bool)                  // one of its sensors is unavailable

  datatype Gang = Gang(id: string, room: Option<string>, ids: seq<string>)

  type Home = map<string, Entity>

  datatype Inventory = Inventory(entities: Home, rooms: map<string, Room>, gangs: seq<Gang>)

  datatype Issue =
    | InvalidGangPicks(group: string)
    | DeviceMissing(id: string)
    | AcKeeperRequired(room: string)
    | InvalidAcPicks(room: string)
    | InvalidLightPicks(room: string)

  /** One pass: the level, its configuration, the snapshot, the sun, the release ledger and the devices whose calls fail. */
  datatype Pass = Pass(level: Level, config: Config, inv: Inventory, heatWindow: bool, released: set<string>, failing: set<string>)

  /** No command of the pass has an effect on these. */
  function Immune(p: Pass): set<string> {
    p.released + p.failing + set e | e in p.inv.entities && p.inv.entities[e].device.Other?
  }

  /** What the inventory builder guarantees: every device under one room, by its kind. */
  ghost predicate WellFormed(inv: Inventory) {
    && (forall r :: r in inv.rooms ==> RoomFormed(inv, r, inv.rooms[r]))
    && (forall g :: g in inv.gangs ==> GangFormed(inv, g))
  }

  ghost predicate RoomFormed(inv: Inventory, r: string, room: Room) {
    && (forall e :: e in room.climates ==> e in inv.entities && inv.entities[e].room == Some(r) && inv.entities[e].device.Climate?)
    && (forall e :: e in room.lights ==> e in inv.entities && inv.entities[e].room == Some(r) && inv.entities[e].device.Light?)
    && (forall e :: e in room.covers ==> e in inv.entities && inv.entities[e].room == Some(r) && inv.entities[e].device.Cover?)
    && Distinct(room.climates) && Distinct(room.lights) && Distinct(room.covers)
  }

  /** A gang's channels are in the inventory, its lights kept out of every room's own lights. */
  ghost predicate GangFormed(inv: Inventory, g: Gang) {
    forall e :: e in g.ids ==> e in inv.entities && GangDevice(inv, e)
  }

  ghost predicate GangDevice(inv: Inventory, e: string)
    requires e in inv.entities
  {
    inv.entities[e].device.Light? ==> forall r :: r in inv.rooms ==> e !in inv.rooms[r].lights
  }

  /** No light is among the plugs and heaters: the wizard offers only switches there. */
  predicate OffsAreNoLights(p: Pass) {
    forall e :: e in Offs(p.config) && e in p.inv.entities ==> !p.inv.entities[e].device.Light?
  }

  function Offs(c: Config): seq<string> { c.plugOffs + TurnOffHeaters(c.heaters) }

  function TurnOffHeaters(hs: seq<Heater>): seq<string> {
    if hs == [] then []
    else (if hs[0].turnOff then [hs[0].entityId] else []) + TurnOffHeaters(hs[1..])
  }

  // -- the effect of a command ------------------------------------------------------

  function Off(x: Entity): Entity {
    x.(device := match x.device
      case Switch(_) => Switch(false)
      case Light(_, _) => Light(false, None)
      case Climate(_, h, t, f, l) => Climate(false, h, t, f, l)
      case Cover(_) => Cover(false)
      case Other(on) => Other(on))
  }

  /** The state reads "on": never true of an AC or a cover. */
  predicate ReadsOn(x: Entity) { x.device.on && !x.device.Climate? && !x.device.Cover? }

  function Dimmed(x: Entity, level: Level): Entity {
    if x.device.Light? then x.(device := Light(true, Some(CapRaw(level)))) else x
  }

  function Targeted(x: Entity, t: real): Entity {
    if x.device.Climate? then x.(device := x.device.(target := Some(t))) else x
  }

  function LowFanned(x: Entity): Entity {
    if x.device.Climate? && x.device.lowFan.Some? then x.(device := x.device.(fan := x.device.lowFan)) else x
  }

  // -- what the rules decide -----------------------------------------------------------

  predicate Skipped(p: Pass, room: Option<string>) {
    room.Some? && (room.value in p.config.excludedRooms || (room.value in p.inv.rooms && p.inv.rooms[room.value].troubled))
  }

  /** Low thins three-gang switches; Medium and Smart two- and three-gang ones. */
  predicate Thinned(p: Pass, g: Gang) {
    !Skipped(p, g.room) && (|g.ids| == 3 || (|g.ids| == 2 && !p.level.Low?))
  }

  function Keepers(picks: Picks, key: string): set<string> { if key in picks then set e | e in picks[key] else {} }

  predicate GoodGangPicks(p: Pass, g: Gang) {
    var keepers := Keepers(p.config.gangKeepers, g.id);
    |keepers| == (if p.level.Low? then 2 else 1) && forall e :: e in keepers ==> e in g.ids
  }

  predicate AllOn(p: Pass, g: Gang) {
    forall e :: e in g.ids ==> e in p.inv.entities && p.inv.entities[e].available && ReadsOn(p.inv.entities[e])
  }

  predicate GangOff(p: Pass, g: Gang, e: string) {
    Thinned(p, g) && GoodGangPicks(p, g) && AllOn(p, g) && e in g.ids && e !in Keepers(p.config.gangKeepers, g.id)
  }

  ghost predicate SomeGangOff(p: Pass, gangs: seq<Gang>, e: string) {
    exists i :: 0 <= i < |gangs| && GangOff(p, gangs[i], e)
  }

  predicate ListedOff(p: Pass, e: string)
    requires e in p.inv.entities
  {
    e in Offs(p.config) && !Skipped(p, p.inv.entities[e].room) && p.inv.entities[e].available && ReadsOn(p.inv.entities[e])
  }

  /** Rooms the static rules cover: Smart runs a room with both sensors by its occupancy instead. */
  predicate Static(p: Pass, r: string)
    requires r in p.inv.rooms
  {
    !Skipped(p, Some(r)) && !(p.level.Smart? && p.inv.rooms[r].automatic)
  }

  predicate Kills(heating: bool, temperature: Option<real>) {
    temperature.Some? && (if heating then temperature.value > HEAT_KILL_ABOVE else temperature.value < COOL_KILL_BELOW)
  }

  /** The ACs of the room that the picks keep, or None when the room is left alone. */
  function KeptClimates(p: Pass, r: string): Option<set<string>>
    requires r in p.inv.rooms
  {
    var room := p.inv.rooms[r];
    var all := set e | e in room.climates;
    if p.level.Smart? then
      if r in p.config.acKeepers && Keepers(p.config.acKeepers, r) <= all then Some(Keepers(p.config.acKeepers, r)) else None
    else if p.level.Medium? && |room.climates| > 1 then
      if |Keepers(p.config.acKeepers, r)| == 1 && Keepers(p.config.acKeepers, r) <= all then Some(Keepers(p.config.acKeepers, r)) else None
    else Some(all)
  }

  /** Medium holds a running AC at the floor or ceiling; Low only pulls a wasteful target back. */
  function HeldClimate(p: Pass, room: Room, x: Entity): Entity
    requires x.device.Climate?
  {
    var d := x.device;
    if !x.available || !d.on || p.level.Smart? then x
    else if p.level.Medium? && Kills(d.heating, room.temperature) then Off(x)
    else if p.level.Low? && (d.target.None? || (if d.heating then d.target.value <= HEAT_CEILING else d.target.value >= COOL_FLOOR)) then x
    else
      var held := Targeted(x, if d.heating then HEAT_CEILING else COOL_FLOOR);
      if p.level.Medium? then LowFanned(held) else held
  }

  function ClimateAfter(p: Pass, r: string, e: string, x: Entity): Entity
    requires r in p.inv.rooms && x.device.Climate?
  {
    var kept := KeptClimates(p, r);
    if kept.None? then x
    else if e in kept.value then HeldClimate(p, p.inv.rooms[r], x)
    else if x.available && x.device.on then Off(x)
    else x
  }

  predicate GoodLightPicks(p: Pass, r: string)
    requires r in p.inv.rooms
  {
    var keepers := Keepers(p.config.lightKeepers, r);
    var lights := p.inv.rooms[r].lights;
    |keepers| == (|lights| + 1) / 2 && forall e :: e in keepers ==> e in lights
  }

  function LightAfter(p: Pass, r: string, e: string, x: Entity): Entity
    requires r in p.inv.rooms && x.device.Light?
  {
    if |p.inv.rooms[r].lights| <= 1 || r !in p.config.lightKeepers || !GoodLightPicks(p, r) || !x.available || !x.device.on then x
    else if e !in Keepers(p.config.lightKeepers, r) then Off(x)
    else if x.device.brightness.Some? && x.device.brightness.value > CapRaw(p.level) then Dimmed(x, p.level)
    else x
  }

  function CoverAfter(p: Pass, x: Entity): Entity {
    if !p.level.Low? && p.heatWindow && x.available && x.device.on then Off(x) else x
  }

  /** The room rules' effect on one entity. */
  function RoomAfter(p: Pass, e: string, x: Entity): Entity {
    if x.room.None? || x.room.value !in p.inv.rooms || !Static(p, x.room.value) then x
    else
      var r := x.room.value;
      if x.device.Climate? && e in p.inv.rooms[r].climates then ClimateAfter(p, r, e, x)
      else if x.device.Light? && e in p.inv.rooms[r].lights then LightAfter(p, r, e, x)
      else if x.device.Cover? && e in p.inv.rooms[r].covers then CoverAfter(p, x)
      else x
  }

  /** One whole pass, entity by entity. */
  ghost function EntityAfter(p: Pass, e: string): Entity
    requires e in p.inv.entities
  {
    var x := p.inv.entities[e];
    if e in Immune(p) then x
    else if SomeGangOff(p, p.inv.gangs, e) || ListedOff(p, e) then Off(x)
    else RoomAfter(p, e, x)
  }

  ghost function HomeAfter(p: Pass): Home { map e | e in p.inv.entities :: EntityAfter(p, e) }

  /** The same pass over the home it left. */
  ghost function Again(p: Pass): Pass { p.(inv := p.inv.(entities := HomeAfter(p))) }

  // -- idempotence ---------------------------------------------------------------------

  lemma AgainKeepsPlaces(p: Pass)
    ensures forall e :: e in p.inv.entities ==>
      && Again(p).inv.entities[e].room == p.inv.entities[e].room
      && Again(p).inv.entities[e].available == p.inv.entities[e].available
      && (Again(p).inv.entities[e].device.on ==> p.inv.entities[e].device.on)
  {}

  /** What the first pass switched off is not switched off twice. */
  lemma NothingLeftToSwitchOff(p: Pass, e: string)
    requires WellFormed(p.inv) && e in p.inv.entities && e !in Immune(p)
    ensures !SomeGangOff(Again(p), p.inv.gangs, e) && !ListedOff(Again(p), e)
  {
    hide WellFormed, RoomAfter;
    forall i | 0 <= i < |p.inv.gangs| ensures !GangOff(Again(p), p.inv.gangs[i], e) { GangSettles(p, i, e); }
    ReadsOnBefore(p, e);
    OffIsOff(p.inv.entities[e]);
    assert ListedOff(p, e) ==> !Again(p).inv.entities[e].device.on;
  }

  lemma ReadsOnBefore(p: Pass, e: string)
    requires e in p.inv.entities
    ensures var x, y := p.inv.entities[e], Again(p).inv.entities[e];
      x.room == y.room && x.available == y.available && (ReadsOn(y) ==> ReadsOn(x))
  {}

  lemma GangSettles(p: Pass, i: nat, e: string)
    requires e in p.inv.entities && e !in Immune(p) && i < |p.inv.gangs|
    ensures !GangOff(Again(p), p.inv.gangs[i], e)
  {
    hide RoomAfter;
    var g := p.inv.gangs[i];
    assert Again(p).inv.entities.Keys == p.inv.entities.Keys;
    forall c | c in p.inv.entities
      ensures var x, y := p.inv.entities[c], Again(p).inv.entities[c]; x.available == y.available && (ReadsOn(y) ==> ReadsOn(x))
    {
      ReadsOnBefore(p, c);
    }
    assert AllOn(Again(p), g) ==> AllOn(p, g);
    OffIsOff(p.inv.entities[e]);
    assert GangOff(p, g, e) ==> SomeGangOff(p, p.inv.gangs, e);
    assert GangOff(p, g, e) ==> !Again(p).inv.entities[e].device.on;
  }

  lemma ClimateSettles(p: Pass, q: Pass, r: string, e: string, x: Entity)
    requires r in p.inv.rooms && x.device.Climate? && q == Again(p)
    ensures ClimateAfter(p, r, e, x).device.Climate?
    ensures ClimateAfter(q, r, e, ClimateAfter(p, r, e, x)) == ClimateAfter(p, r, e, x)
  {}

  lemma LightSettles(p: Pass, q: Pass, r: string, e: string, x: Entity)
    requires r in p.inv.rooms && x.device.Light? && q == Again(p)
    ensures LightAfter(p, r, e, x).device.Light?
    ensures LightAfter(q, r, e, LightAfter(p, r, e, x)) == LightAfter(p, r, e, x)
  {}

  lemma SettlingKeepsPlace(p: Pass, e: string, x: Entity)
    ensures var y := RoomAfter(p, e, x);
      y.room == x.room && (y.device.Climate? <==> x.device.Climate?) && (y.device.Light? <==> x.device.Light?)
      && (y.device.Cover? <==> x.device.Cover?)
  {}

  lemma RoomSettles(p: Pass, e: string, x: Entity)
    requires WellFormed(p.inv)
    ensures RoomAfter(Again(p), e, RoomAfter(p, e, x)) == RoomAfter(p, e, x)
  {
    hide ClimateAfter, LightAfter, HomeAfter, WellFormed;
    SettlingKeepsPlace(p, e, x);
    if x.room.Some? && x.room.value in p.inv.rooms {
      if x.device.Climate? { ClimateSettles(p, Again(p), x.room.value, e, x); }
      if x.device.Light? { LightSettles(p, Again(p), x.room.value, e, x); }
    }
  }

  /** A second pass with nothing changed in between changes no device. */
  lemma SecondPassChangesNothing(p: Pass, e: string)
    requires WellFormed(p.inv) && OffsAreNoLights(p) && e in p.inv.entities
    ensures EntityAfter(Again(p), e) == EntityAfter(p, e)
  {
    var x := p.inv.entities[e];
    var q := Again(p);
    AgainKeepsPlaces(p);
    if e !in Immune(p) {
      NothingLeftToSwitchOff(p, e);
      if SomeGangOff(p, p.inv.gangs, e) || ListedOff(p, e) {
        OffIsOff(x);
        OffStaysOff(q, p, e);
      } else {
        RoomSettles(p, e, x);
      }
    }
  }

  lemma OffIsOff(x: Entity)
    ensures !x.device.Other? ==> !Off(x).device.on
    ensures Off(Off(x)) == Off(x)
  {}

  lemma OffStaysOff(q: Pass, p: Pass, e: string)
    requires q == Again(p) && e in p.inv.entities
    requires !q.inv.entities[e].device.on
    ensures RoomAfter(q, e, q.inv.entities[e]) == q.inv.entities[e]
  {}

  /** The whole home is a fixed point of the pass it came from. */
  lemma {:induction false} PassIsIdempotent(p: Pass)
    requires WellFormed(p.inv) && OffsAreNoLights(p)
    ensures HomeAfter(Again(p)) == HomeAfter(p)
  {
    forall e | e in p.inv.entities ensures EntityAfter(Again(p), e) == EntityAfter(p, e) {
      SecondPassChangesNothing(p, e);
    }
  }

  // -- only savings ------------------------------------------------------------------------

  predicate Brighter(a: Device, b: Device) {
    a.Light? && b.Light? && b.brightness.Some? && (a.brightness.None? || b.brightness.value > a.brightness.value)
  }

  predicate NoGreedier(a: Device, b: Device)
    requires a.Climate? && a.target.Some?
  {
    b.Climate? && b.target.Some?
    && (if a.heating then b.target.value <= a.target.value else b.target.value >= a.target.value)
  }

  /**
   No pass switches a device on or brightens a light; released devices are
   untouched; Low never asks an AC for more.
   */
  lemma PassOnlySaves(p: Pass, e: string)
    requires WellFormed(p.inv) && e in p.inv.entities
    ensures Saves(p, e, p.inv.entities[e], EntityAfter(p, e))
  {}

  /** What stays on in a thinned, fully lit gang switch is its keepers (and released channels). */
  lemma GangKeepsItsKeepers(p: Pass, g: Gang, e: string)
    requires WellFormed(p.inv) && g in p.inv.gangs && Thinned(p, g) && GoodGangPicks(p, g) && AllOn(p, g)
    requires e in g.ids && EntityAfter(p, e).device.on
    ensures e in Keepers(p.config.gangKeepers, g.id) || e in Immune(p)
  {
    var i :| 0 <= i < |p.inv.gangs| && p.inv.gangs[i] == g;
    if e !in Keepers(p.config.gangKeepers, g.id) { assert GangOff(p, p.inv.gangs[i], e); }
  }

  /** Medium: an AC left running is the one kept, at the floor or ceiling and a low fan. */
  lemma MediumHoldsOneClimate(p: Pass, r: string, e: string)
    requires WellFormed(p.inv) && p.level.Medium? && r in p.inv.rooms && Static(p, r) && e in p.inv.rooms[r].climates
    requires OffsAreNoLights(p) && KeptClimates(p, r).Some? && e !in Immune(p) && p.inv.entities[e].available
    requires EntityAfter(p, e).device.on
    ensures e in KeptClimates(p, r).value
    ensures var d := EntityAfter(p, e).device;
      d.Climate? && d.target == Some(if d.heating then HEAT_CEILING else COOL_FLOOR)
      && !Kills(d.heating, p.inv.rooms[r].temperature) && (d.lowFan.Some? ==> d.fan == d.lowFan)
  {
    assert RoomFormed(p.inv, r, p.inv.rooms[r]);
    OffIsOff(p.inv.entities[e]);
  }

  /** Low: a running AC left alone or pulled back is never set beyond the floor or the ceiling. */
  lemma LowPullsBack(p: Pass, r: string, e: string)
    requires WellFormed(p.inv) && OffsAreNoLights(p) && p.level.Low? && r in p.inv.rooms && Static(p, r) && e in p.inv.rooms[r].climates
    requires e !in Immune(p) && p.inv.entities[e].available && EntityAfter(p, e).device.on
    ensures var d := EntityAfter(p, e).device;
      d.Climate? && (d.target.Some? ==> if d.heating then d.target.value <= HEAT_CEILING else d.target.value >= COOL_FLOOR)
  {
    assert RoomFormed(p.inv, r, p.inv.rooms[r]);
  }

  /** A thinned room's lights: what is on is a keeper, at most at the level's cap, and at most half of them rounded up. */
  lemma LightsWithinCap(p: Pass, r: string, e: string)
    requires WellFormed(p.inv) && OffsAreNoLights(p) && r in p.inv.rooms && Static(p, r) && e in p.inv.rooms[r].lights
    requires |p.inv.rooms[r].lights| > 1 && r in p.config.lightKeepers && GoodLightPicks(p, r)
    requires e !in Immune(p) && p.inv.entities[e].available && EntityAfter(p, e).device.on
    ensures e in Keepers(p.config.lightKeepers, r) && 2 * |Keepers(p.config.lightKeepers, r)| <= |p.inv.rooms[r].lights| + 1
    ensures var d := EntityAfter(p, e).device; d.Light? && (d.brightness.Some? ==> d.brightness.value <= CapRaw(p.level))
  {
    RoomDevicesAreTheirOwn(p, r, e);
    assert RoomFormed(p.inv, r, p.inv.rooms[r]);
  }

  /** In the heat window Medium and Smart leave no reachable cover of a static room open. */
  lemma HeatClosesCovers(p: Pass, r: string, e: string)
    requires WellFormed(p.inv) && OffsAreNoLights(p) && r in p.inv.rooms && Static(p, r) && e in p.inv.rooms[r].covers
    requires !p.level.Low? && p.heatWindow && e !in Immune(p) && p.inv.entities[e].available
    ensures !EntityAfter(p, e).device.on
  {
    RoomDevicesAreTheirOwn(p, r, e);
    assert RoomFormed(p.inv, r, p.inv.rooms[r]);
  }

  /** Chosen plugs and heaters in rooms the pass covers no longer read on after it. */
  lemma ChosenOffsAreOff(p: Pass, e: string)
    requires WellFormed(p.inv) && e in p.inv.entities && e in Offs(p.config) && e !in Immune(p)
    requires !Skipped(p, p.inv.entities[e].room) && p.inv.entities[e].available
    ensures !ReadsOn(EntityAfter(p, e))
  {
    OffIsOff(p.inv.entities[e]);
    ReadsOnBefore(p, e);
  }

  /** The devices of q that are on in h although commands reach them. */
  function LeftOn(p: Pass, h: Home, q: seq<string>): set<string> {
    set e | e in q && e in h && h[e].available && h[e].device.on && e !in Immune(p)
  }

  predicate Saves(p: Pass, e: string, x: Entity, y: Entity) {
    && (e in Immune(p) ==> y == x)
    && (y.device.on ==> x.device.on)
    && !Brighter(x.device, y.device)
    && (p.level.Low? && x.device.Climate? ==>
          && y.device.Climate?
          && (x.device.target.None? ==> y.device.target == x.device.target)
          && (x.device.target.Some? ==> NoGreedier(x.device, y.device)))
  }

  /**
   What a pass is for, read off the home it leaves: nothing is on, brighter or
   set greedier than before; a thinned gang has at most its one (Low: two)
   keepers on, a thinned room at most half its lights, rounded up, and at
   Medium a room with several ACs at most one.
   */
  ghost predicate Thrifty(p: Pass, h: Home) {
    && h.Keys == p.inv.entities.Keys
    && (forall e :: e in h ==> Saves(p, e, p.inv.entities[e], h[e]))
    && (forall g :: g in p.inv.gangs && Thinned(p, g) && GoodGangPicks(p, g) && AllOn(p, g)
          ==> |LeftOn(p, h, g.ids)| <= if p.level.Low? then 2 else 1)
    && (forall r :: r in p.inv.rooms && LightsThinned(p, r) ==> |LeftOn(p, h, p.inv.rooms[r].lights)| <= (|p.inv.rooms[r].lights| + 1) / 2)
    && (forall r :: r in p.inv.rooms && OneClimate(p, r) ==> |LeftOn(p, h, p.inv.rooms[r].climates)| <= 1)
  }

  predicate LightsThinned(p: Pass, r: string)
    requires r in p.inv.rooms
  {
    Static(p, r) && |p.inv.rooms[r].lights| > 1 && r in p.config.lightKeepers && GoodLightPicks(p, r)
  }

  predicate OneClimate(p: Pass, r: string)
    requires r in p.inv.rooms
  {
    Static(p, r) && p.level.Medium? && |p.inv.rooms[r].climates| > 1 && KeptClimates(p, r).Some?
  }

  lemma SubsetSize(a: set<string>, b: set<string>)
    requires a <= b
    ensures |a| <= |b|
  {
    assert b == a + (b - a);
  }

  lemma ChannelsLeftOn(p: Pass, g: Gang)
    requires WellFormed(p.inv) && g in p.inv.gangs && Thinned(p, g) && GoodGangPicks(p, g) && AllOn(p, g)
    ensures |LeftOn(p, HomeAfter(p), g.ids)| <= if p.level.Low? then 2 else 1
  {
    var keepers := Keepers(p.config.gangKeepers, g.id);
    forall e | e in LeftOn(p, HomeAfter(p), g.ids) ensures e in keepers { GangKeepsItsKeepers(p, g, e); }
    SubsetSize(LeftOn(p, HomeAfter(p), g.ids), keepers);
  }

  lemma LightsLeftOn(p: Pass, r: string)
    requires WellFormed(p.inv) && OffsAreNoLights(p) && r in p.inv.rooms && LightsThinned(p, r)
    ensures |LeftOn(p, HomeAfter(p), p.inv.rooms[r].lights)| <= (|p.inv.rooms[r].lights| + 1) / 2
  {
    hide WellFormed;
    var keepers := Keepers(p.config.lightKeepers, r);
    forall e | e in LeftOn(p, HomeAfter(p), p.inv.rooms[r].lights) ensures e in keepers {
      ReadsOnBefore(p, e);
      LightsWithinCap(p, r, e);
    }
    SubsetSize(LeftOn(p, HomeAfter(p), p.inv.rooms[r].lights), keepers);
  }

  lemma ClimatesLeftOn(p: Pass, r: string)
    requires WellFormed(p.inv) && OffsAreNoLights(p) && r in p.inv.rooms && OneClimate(p, r)
    ensures |LeftOn(p, HomeAfter(p), p.inv.rooms[r].climates)| <= 1
  {
    hide WellFormed;
    var kept := KeptClimates(p, r).value;
    forall e | e in LeftOn(p, HomeAfter(p), p.inv.rooms[r].climates) ensures e in kept {
      ReadsOnBefore(p, e);
      MediumHoldsOneClimate(p, r, e);
    }
    SubsetSize(LeftOn(p, HomeAfter(p), p.inv.rooms[r].climates), kept);
  }

  lemma PassIsThrifty(p: Pass)
    requires WellFormed(p.inv) && OffsAreNoLights(p)
    ensures Thrifty(p, HomeAfter(p))
  {
    forall e | e in HomeAfter(p) ensures Saves(p, e, p.inv.entities[e], HomeAfter(p)[e]) { PassOnlySaves(p, e); }
    hide Thinned, GoodGangPicks, AllOn, LightsThinned, OneClimate, LeftOn, Saves, WellFormed;
    forall g | g in p.inv.gangs && Thinned(p, g) && GoodGangPicks(p, g) && AllOn(p, g)
      ensures |LeftOn(p, HomeAfter(p), g.ids)| <= if p.level.Low? then 2 else 1
    {
      ChannelsLeftOn(p, g);
    }
    forall r | r in p.inv.rooms && LightsThinned(p, r)
      ensures |LeftOn(p, HomeAfter(p), p.inv.rooms[r].lights)| <= (|p.inv.rooms[r].lights| + 1) / 2
    {
      LightsLeftOn(p, r);
    }
    forall r | r in p.inv.rooms && OneClimate(p, r) ensures |LeftOn(p, HomeAfter(p), p.inv.rooms[r].climates)| <= 1 {
      ClimatesLeftOn(p, r);
    }
  }

  // -- the issues a pass reports -------------------------------------------------------------

  ghost function GangIssues(p: Pass, gangs: seq<Gang>): set<Issue> {
    set i | 0 <= i < |gangs| && Thinned(p, gangs[i]) && !GoodGangPicks(p, gangs[i]) :: InvalidGangPicks(gangs[i].id)
  }

  ghost function MissingIssues(p: Pass, offs: seq<string>): set<Issue> {
    set e | e in offs && e !in p.inv.entities :: DeviceMissing(e)
  }

  function ClimateIssues(p: Pass, r: string): set<Issue>
    requires r in p.inv.rooms
  {
    if KeptClimates(p, r).Some? then {}
    else if p.level.Smart? then (if r in p.config.acKeepers then {InvalidAcPicks(r)} else {})
    else if Keepers(p.config.acKeepers, r) == {} then {AcKeeperRequired(r)}
    else {InvalidAcPicks(r)}
  }

  function LightIssues(p: Pass, r: string): set<Issue>
    requires r in p.inv.rooms
  {
    if |p.inv.rooms[r].lights| > 1 && r in p.config.lightKeepers && !GoodLightPicks(p, r) then {InvalidLightPicks(r)} else {}
  }

  ghost function RoomIssues(p: Pass, rooms: set<string>): set<Issue>
    requires rooms <= p.inv.rooms.Keys
  {
    set r, i | r in rooms && Static(p, r) && i in ClimateIssues(p, r) + LightIssues(p, r) :: i
  }

  ghost function PassIssues(p: Pass): set<Issue> {
    GangIssues(p, p.inv.gangs) + MissingIssues(p, Offs(p.config)) + RoomIssues(p, p.inv.rooms.Keys)
  }

  // -- the pass as it runs -------------------------------------------------------------------

  datatype Order = TurnOff | SetTemperature(target: real) | SetFanLow | Dim | CloseCover

  function Effect(o: Order, level: Level, x: Entity): Entity {
    match o
    case TurnOff => Off(x)
    case SetTemperature(t) => Targeted(x, t)
    case SetFanLow => LowFanned(x)
    case Dim => Dimmed(x, level)
    case CloseCover => Off(x)
  }

  /** The home with these entities switched off. */
  function Offed(h: Home, off: set<string>): Home { map e | e in h :: if e in off then Off(h[e]) else h[e] }

  /** The home with the room rules' effect on these entities. */
  function Patched(h: Home, p: Pass, s: set<string>): Home {
    map e | e in h :: if e in s && e in p.inv.entities then RoomAfter(p, e, p.inv.entities[e]) else h[e]
  }

  lemma OffedTwice(h: Home, a: set<string>, b: set<string>)
    ensures Offed(Offed(h, a), b) == Offed(h, a + b)
  {
    forall e | e in h ensures Off(Off(h[e])) == Off(h[e]) { OffIsOff(h[e]); }
  }

  lemma PatchedTwice(h: Home, p: Pass, a: set<string>, b: set<string>)
    ensures Patched(Patched(h, p, a), p, b) == Patched(h, p, a + b)
  {}

  function GangOffSet(p: Pass, g: Gang): set<string> { set e | e in g.ids && GangOff(p, g, e) && e !in Immune(p) }

  function GangOffs(p: Pass, gangs: seq<Gang>): set<string> {
    if gangs == [] then {} else GangOffs(p, gangs[..|gangs| - 1]) + GangOffSet(p, gangs[|gangs| - 1])
  }

  function ListedOffs(p: Pass, offs: seq<string>): set<string> {
    set e | e in offs && e in p.inv.entities && ListedOff(p, e) && e !in Immune(p)
  }

  predicate RoomDevice(p: Pass, r: string, e: string)
    requires r in p.inv.rooms
  {
    e in p.inv.rooms[r].climates || e in p.inv.rooms[r].lights || e in p.inv.rooms[r].covers
  }

  function Members(q: seq<string>, immune: set<string>): set<string> { (set e | e in q) - immune }

  function RoomSet(p: Pass, r: string): set<string>
    requires r in p.inv.rooms
  {
    if Static(p, r)
    then Members(p.inv.rooms[r].climates, Immune(p)) + Members(p.inv.rooms[r].lights, Immune(p)) + Members(p.inv.rooms[r].covers, Immune(p))
    else {}
  }

  function RoomSets(p: Pass, rooms: set<string>): set<string> {
    set r, e | r in rooms && r in p.inv.rooms && e in RoomSet(p, r) :: e
  }

  /** No command has reached these entities yet. */
  ghost predicate Untouched(h: Home, p: Pass, q: seq<string>) {
    forall e :: e in q ==> e in h && e in p.inv.entities && h[e] == p.inv.entities[e]
  }

  datatype CallIssue = UnsupportedDevice(id: string) | CommandFailed(id: string)

  class Adapter {
    var active: bool                 // some level is active
    var live: Home
    var issues: set<Issue>           // what the rules report
    var calls: set<CallIssue>        // what single commands report
    var commands: nat
    var failures: nat

    constructor (live: Home, active: bool)
      ensures this.live == live && this.active == active && issues == {} && calls == {} && commands == failures == 0
    {
      this.live := live;
      this.active := active;
      issues, calls, commands, failures := {}, {}, 0, 0;
    }

    /**
     _command: nothing while no level is active or the device is released, an
     issue for a domain it does not manage or a call that fails, and otherwise
     the order's effect. All outcomes are counted or reported, none raised.
     */
    method Command(p: Pass, e: string, o: Order) returns (done: bool)
      requires e in live && e in p.inv.entities
      modifies `live, `calls, `commands, `failures
      ensures done <==> active && e !in Immune(p)
      ensures live == if done then old(live)[e := Effect(o, p.level, old(live)[e])] else old(live)
      ensures commands == old(commands) + (if done then 1 else 0)
      ensures var refused := active && e !in p.released && p.inv.entities[e].device.Other?;
        var failed := active && e !in p.released && !refused && e in p.failing;
        && failures == old(failures) + (if failed then 1 else 0)
        && calls == old(calls) + (if refused then {UnsupportedDevice(e)} else if failed then {CommandFailed(e)} else {})
    {
      if !active || e in p.released {
        return false;
      }
      if p.inv.entities[e].device.Other? {
        calls := calls + {UnsupportedDevice(e)};
        return false;
      }
      if e in p.failing {
        failures := failures + 1;
        calls := calls + {CommandFailed(e)};
        return false;
      }
      live := live[e := Effect(o, p.level, live[e])];
      commands := commands + 1;
      return true;
    }

    method SwitchOff(p: Pass, e: string)
      requires active && e in live && e in p.inv.entities
      modifies `live, `calls, `commands, `failures
      ensures live == Offed(old(live), if e in Immune(p) then {} else {e})
    {
      var _ := Command(p, e, TurnOff);
      assert Offed(old(live), {}) == old(live);
    }

    method ApplyGangs(p: Pass)
      requires active && WellFormed(p.inv) && live == p.inv.entities
      modifies `live, `issues, `calls, `commands, `failures
      ensures live == Offed(p.inv.entities, GangOffs(p, p.inv.gangs))
      ensures issues == old(issues) + GangIssues(p, p.inv.gangs)
    {
      hide *;
      NoGangs(p, live);
      var i := 0;
      while i < |p.inv.gangs|
        invariant i <= |p.inv.gangs|
        invariant live == Offed(p.inv.entities, GangOffs(p, p.inv.gangs[..i]))
        invariant issues == old(issues) + GangIssues(p, p.inv.gangs[..i])
      {
        NextGang(p, i);
        OneMoreGang(p, i);
        ApplyGang(p, p.inv.gangs[i]);
        i := i + 1;
      }
      assert p.inv.gangs[..i] == p.inv.gangs;
    }

    method ApplyGang(p: Pass, g: Gang)
      requires active && forall e :: e in g.ids ==> e in live && e in p.inv.entities
      modifies `live, `issues, `calls, `commands, `failures
      ensures live == Offed(old(live), GangOffSet(p, g))
      ensures issues == old(issues) + (if Thinned(p, g) && !GoodGangPicks(p, g) then {InvalidGangPicks(g.id)} else {})
    {
      assert Offed(live, {}) == live;
      if !Thinned(p, g) {
        return;
      }
      if !GoodGangPicks(p, g) {
        issues := issues + {InvalidGangPicks(g.id)};
        return;
      }
      if AllOn(p, g) {
        ThinGang(p, g);
      }
    }

    method ThinGang(p: Pass, g: Gang)
      requires active && Thinned(p, g) && GoodGangPicks(p, g) && AllOn(p, g)
      requires forall e :: e in g.ids ==> e in live && e in p.inv.entities
      modifies `live, `calls, `commands, `failures
      ensures live == Offed(old(live), GangOffSet(p, g))
    {
      var keepers := Keepers(p.config.gangKeepers, g.id);
      ghost var off: set<string> := {};
      assert Offed(live, {}) == live;
      var j := 0;
      while j < |g.ids|
        invariant j <= |g.ids|
        invariant off == (set e | e in g.ids[..j]) - keepers - Immune(p)
        invariant live == Offed(old(live), off)
      {
        var c := g.ids[j];
        assert g.ids[..j + 1] == g.ids[..j] + [c];
        if c !in keepers {
          OffedTwice(old(live), off, if c in Immune(p) then {} else {c});
          SwitchOff(p, c);
          off := off + (if c in Immune(p) then {} else {c});
        }
        j := j + 1;
      }
      assert g.ids[..j] == g.ids;
      assert off == GangOffSet(p, g);
    }

    /** Plugs and heaters; one listed twice is switched off once. */
    method ApplyCommonOffs(p: Pass)
      requires active && live.Keys == p.inv.entities.Keys
      modifies `live, `issues, `calls, `commands, `failures
      ensures live == Offed(old(live), ListedOffs(p, Offs(p.config)))
      ensures issues == old(issues) + MissingIssues(p, Offs(p.config))
    {
      var offs := Offs(p.config);
      assert Offed(live, {}) == live;
      var i := 0;
      while i < |offs|
        invariant i <= |offs| && live.Keys == p.inv.entities.Keys
        invariant live == Offed(old(live), ListedOffs(p, offs[..i]))
        invariant issues == old(issues) + MissingIssues(p, offs[..i])
      {
        var e := offs[i];
        OneMoreOff(p, offs, i);
        OffedTwice(old(live), ListedOffs(p, offs[..i]), ListedOffs(p, [e]));
        ApplyOneOff(p, e);
        i := i + 1;
      }
      assert offs[..i] == offs;
    }

    method ApplyOneOff(p: Pass, e: string)
      requires active && live.Keys == p.inv.entities.Keys && e in Offs(p.config)
      modifies `live, `issues, `calls, `commands, `failures
      ensures live == Offed(old(live), ListedOffs(p, [e]))
      ensures issues == old(issues) + (if e !in p.inv.entities then {DeviceMissing(e)} else {})
    {
      assert Offed(live, {}) == live;
      if e !in p.inv.entities {
        issues := issues + {DeviceMissing(e)};
      } else if !Skipped(p, p.inv.entities[e].room) && p.inv.entities[e].available && ReadsOn(p.inv.entities[e]) {
        SwitchOff(p, e);
      }
    }

    /** The ACs of one room. */
    method ApplyStaticClimate(p: Pass, r: string)
      requires active && r in p.inv.rooms && RoomFormed(p.inv, r, p.inv.rooms[r]) && Static(p, r) && live.Keys == p.inv.entities.Keys
      requires Untouched(live, p, p.inv.rooms[r].climates)
      modifies `live, `issues, `calls, `commands, `failures
      ensures live == Patched(old(live), p, Members(p.inv.rooms[r].climates, Immune(p)))
      ensures issues == old(issues) + ClimateIssues(p, r)
    {
      if KeptClimates(p, r).None? {
        issues := issues + ClimateIssues(p, r);
        assert Patched(live, p, Members(p.inv.rooms[r].climates, Immune(p))) == live;
        return;
      }
      HoldClimates(p, r);
    }

    method HoldClimates(p: Pass, r: string)
      requires active && r in p.inv.rooms && RoomFormed(p.inv, r, p.inv.rooms[r]) && Static(p, r) && live.Keys == p.inv.entities.Keys
      requires KeptClimates(p, r).Some?
      requires Untouched(live, p, p.inv.rooms[r].climates)
      modifies `live, `calls, `commands, `failures
      ensures live == Patched(old(live), p, Members(p.inv.rooms[r].climates, Immune(p)))
    {
      hide *;
      RoomLists(p.inv, r);
      PatchedNone(live, p);
      var climates := p.inv.rooms[r].climates;
      var kept := KeptClimates(p, r).value;
      NoMembers(p);
      var i := 0;
      while i < |climates|
        invariant i <= |climates| && live.Keys == p.inv.entities.Keys
        invariant live == Patched(old(live), p, Members(climates[..i], Immune(p)))
      {
        var e := climates[i];
        NextMember(old(live), p, climates, i);
        ApplyOneClimate(p, r, e, e in kept);
        i := i + 1;
      }
      assert climates[..i] == climates;
    }

    method ApplyOneClimate(p: Pass, r: string, e: string, keep: bool)
      requires active && r in p.inv.rooms && RoomFormed(p.inv, r, p.inv.rooms[r]) && Static(p, r) && live.Keys == p.inv.entities.Keys
      requires e in p.inv.rooms[r].climates && live[e] == p.inv.entities[e]
      requires KeptClimates(p, r).Some? && keep == (e in KeptClimates(p, r).value)
      modifies `live, `calls, `commands, `failures
      ensures live == Patched(old(live), p, Members([e], Immune(p))) && live.Keys == old(live).Keys
    {
      var x := p.inv.entities[e];
      assert RoomAfter(p, e, x) == ClimateAfter(p, r, e, x);
      CommandClimate(p, r, e, keep);
      assert live == Patched(old(live), p, Members([e], Immune(p)));
    }

    method CommandClimate(p: Pass, r: string, e: string, keep: bool)
      requires active && r in p.inv.rooms && e in live && e in p.inv.entities && live[e] == p.inv.entities[e] && live[e].device.Climate?
      requires KeptClimates(p, r).Some? && keep == (e in KeptClimates(p, r).value)
      modifies `live, `calls, `commands, `failures
      ensures live == old(live)[e := if e in Immune(p) then old(live)[e] else ClimateAfter(p, r, e, old(live)[e])]
    {
      var x := p.inv.entities[e];
      var d := x.device;
      if !x.available || !d.on {
        return;
      }
      if !keep {
        var _ := Command(p, e, TurnOff);
        return;
      }
      if p.level.Smart? {
        return;
      }
      if p.level.Medium? && Kills(d.heating, p.inv.rooms[r].temperature) {
        var _ := Command(p, e, TurnOff);
        return;
      }
      if d.heating {
        if p.level.Low? && (d.target.None? || d.target.value <= HEAT_CEILING) {
          return;
        }
        var _ := Command(p, e, SetTemperature(HEAT_CEILING));
      } else {
        if p.level.Low? && (d.target.None? || d.target.value >= COOL_FLOOR) {
          return;
        }
        var _ := Command(p, e, SetTemperature(COOL_FLOOR));
      }
      if p.level.Medium? {
        var _ := Command(p, e, SetFanLow);
      }
    }

    method ApplyStaticLights(p: Pass, r: string)
      requires active && r in p.inv.rooms && RoomFormed(p.inv, r, p.inv.rooms[r]) && Static(p, r) && live.Keys == p.inv.entities.Keys
      requires Untouched(live, p, p.inv.rooms[r].lights)
      modifies `live, `issues, `calls, `commands, `failures
      ensures live == Patched(old(live), p, Members(p.inv.rooms[r].lights, Immune(p)))
      ensures issues == old(issues) + LightIssues(p, r)
    {
      var lights := p.inv.rooms[r].lights;
      if |lights| <= 1 || r !in p.config.lightKeepers {
        assert Patched(live, p, Members(lights, Immune(p))) == live;
        return;
      }
      if !GoodLightPicks(p, r) {
        issues := issues + {InvalidLightPicks(r)};
        assert Patched(live, p, Members(lights, Immune(p))) == live;
        return;
      }
      ThinLights(p, r);
    }

    method ThinLights(p: Pass, r: string)
      requires active && r in p.inv.rooms && RoomFormed(p.inv, r, p.inv.rooms[r]) && Static(p, r) && live.Keys == p.inv.entities.Keys
      requires |p.inv.rooms[r].lights| > 1 && r in p.config.lightKeepers && GoodLightPicks(p, r)
      requires Untouched(live, p, p.inv.rooms[r].lights)
      modifies `live, `calls, `commands, `failures
      ensures live == Patched(old(live), p, Members(p.inv.rooms[r].lights, Immune(p)))
    {
      hide *;
      RoomLists(p.inv, r);
      PatchedNone(live, p);
      var lights := p.inv.rooms[r].lights;
      var keepers := Keepers(p.config.lightKeepers, r);
      NoMembers(p);
      var i := 0;
      while i < |lights|
        invariant i <= |lights| && live.Keys == p.inv.entities.Keys
        invariant live == Patched(old(live), p, Members(lights[..i], Immune(p)))
      {
        var e := lights[i];
        NextMember(old(live), p, lights, i);
        ApplyOneLight(p, r, e, e in keepers);
        i := i + 1;
      }
      assert lights[..i] == lights;
    }

    method ApplyOneLight(p: Pass, r: string, e: string, keep: bool)
      requires active && r in p.inv.rooms && RoomFormed(p.inv, r, p.inv.rooms[r]) && Static(p, r) && live.Keys == p.inv.entities.Keys
      requires e in p.inv.rooms[r].lights && live[e] == p.inv.entities[e]
      requires |p.inv.rooms[r].lights| > 1 && r in p.config.lightKeepers && GoodLightPicks(p, r)
      requires keep == (e in Keepers(p.config.lightKeepers, r))
      modifies `live, `calls, `commands, `failures
      ensures live == Patched(old(live), p, Members([e], Immune(p))) && live.Keys == old(live).Keys
    {
      var x := p.inv.entities[e];
      assert RoomAfter(p, e, x) == LightAfter(p, r, e, x);
      if x.available && x.device.on {
        if !keep {
          var _ := Command(p, e, TurnOff);
        } else if x.device.brightness.Some? && x.device.brightness.value > CapRaw(p.level) {
          var _ := Command(p, e, Dim);
        }
      }
      assert live == Patched(old(live), p, Members([e], Immune(p)));
    }

    method ApplyStaticCovers(p: Pass, r: string)
      requires active && r in p.inv.rooms && RoomFormed(p.inv, r, p.inv.rooms[r]) && Static(p, r) && live.Keys == p.inv.entities.Keys
      requires Untouched(live, p, p.inv.rooms[r].covers)
      modifies `live, `calls, `commands, `failures
      ensures live == Patched(old(live), p, Members(p.inv.rooms[r].covers, Immune(p)))
    {
      var covers := p.inv.rooms[r].covers;
      if p.level.Low? || !p.heatWindow {
        assert Patched(live, p, Members(covers, Immune(p))) == live;
        return;
      }
      CloseCovers(p, r);
    }

    method CloseCovers(p: Pass, r: string)
      requires active && r in p.inv.rooms && RoomFormed(p.inv, r, p.inv.rooms[r]) && Static(p, r) && live.Keys == p.inv.entities.Keys
      requires Untouched(live, p, p.inv.rooms[r].covers) && !p.level.Low? && p.heatWindow
      modifies `live, `calls, `commands, `failures
      ensures live == Patched(old(live), p, Members(p.inv.rooms[r].covers, Immune(p)))
    {
      hide *;
      RoomLists(p.inv, r);
      PatchedNone(live, p);
      NoMembers(p);
      var covers := p.inv.rooms[r].covers;
      var i := 0;
      while i < |covers|
        invariant i <= |covers| && live.Keys == p.inv.entities.Keys
        invariant live == Patched(old(live), p, Members(covers[..i], Immune(p)))
      {
        var e := covers[i];
        NextMember(old(live), p, covers, i);
        ApplyOneCover(p, r, e);
        i := i + 1;
      }
      assert covers[..i] == covers;
    }

    method ApplyOneCover(p: Pass, r: string, e: string)
      requires active && r in p.inv.rooms && RoomFormed(p.inv, r, p.inv.rooms[r]) && Static(p, r) && live.Keys == p.inv.entities.Keys
      requires e in p.inv.rooms[r].covers && live[e] == p.inv.entities[e] && !p.level.Low? && p.heatWindow
      modifies `live, `calls, `commands, `failures
      ensures live == Patched(old(live), p, Members([e], Immune(p))) && live.Keys == old(live).Keys
    {
      var x := p.inv.entities[e];
      assert RoomAfter(p, e, x) == CoverAfter(p, x);
      if x.available && x.device.on {
        var _ := Command(p, e, CloseCover);
      }
      assert live == Patched(old(live), p, Members([e], Immune(p)));
    }

    method ApplyRoom(p: Pass, r: string)
      requires active && WellFormed(p.inv) && r in p.inv.rooms && live.Keys == p.inv.entities.Keys
      requires forall e :: RoomDevice(p, r, e) ==> e in live && live[e] == p.inv.entities[e]
      modifies `live, `issues, `calls, `commands, `failures
      ensures live == Patched(old(live), p, RoomSet(p, r))
      ensures issues == old(issues) + (if Static(p, r) then ClimateIssues(p, r) + LightIssues(p, r) else {})
    {
      hide *;
      PatchedNone(live, p);
      if !Static(p, r) {
        RoomSetOffstage(p, r);
        return;
      }
      RoomSteps(p, r, live);
      ApplyStaticClimate(p, r);
      ApplyStaticLights(p, r);
      ApplyStaticCovers(p, r);
    }

    /** async_apply's static part, from a fresh snapshot. */
    method Apply(p: Pass)
      requires WellFormed(p.inv) && OffsAreNoLights(p) && live == p.inv.entities
      modifies `live, `issues, `calls, `commands, `failures
      ensures active ==> live == HomeAfter(p) && Thrifty(p, live) && issues == PassIssues(p)
      ensures !active ==> live == old(live) && issues == old(issues) && commands == old(commands)
    {
      if !active {
        return;
      }
      issues, calls, commands, failures := {}, {}, 0, 0;
      ApplyGangs(p);
      ApplyCommonOffs(p);
      OffedTwice(p.inv.entities, GangOffs(p, p.inv.gangs), ListedOffs(p, Offs(p.config)));
      ApplyRooms(p);
      PassComposes(p);
      PassIsThrifty(p);
    }

    method ApplyRooms(p: Pass)
      requires active && WellFormed(p.inv) && OffsAreNoLights(p) && live == Offed(p.inv.entities, PassOffs(p))
      modifies `live, `issues, `calls, `commands, `failures
      ensures live == Patched(old(live), p, RoomSets(p, p.inv.rooms.Keys))
      ensures issues == old(issues) + RoomIssues(p, p.inv.rooms.Keys)
    {
      hide *;
      var todo := p.inv.rooms.Keys;
      ghost var done: set<string> := {};
      NoRooms(p);
      PatchedNone(live, p);
      while todo != {}
        invariant todo == p.inv.rooms.Keys - done && done <= p.inv.rooms.Keys
        invariant live == Patched(old(live), p, RoomSets(p, done))
        invariant issues == old(issues) + RoomIssues(p, done)
        decreases todo
      {
        var r :| r in todo;
        OneMoreRoom(p, done, r);
        PatchedTwice(old(live), p, RoomSets(p, done), RoomSet(p, r));
        RoomIsUntouched(p, done, r);
        ApplyRoom(p, r);
        todo := todo - {r};
        done := done + {r};
      }
      assert done == p.inv.rooms.Keys;
    }
  }

  /** What the gang rules and the plug and heater list switch off. */
  function PassOffs(p: Pass): set<string> { GangOffs(p, p.inv.gangs) + ListedOffs(p, Offs(p.config)) }

  lemma {:induction false} GangOffsAre(p: Pass, gangs: seq<Gang>)
    ensures forall e :: e in GangOffs(p, gangs) <==> SomeGangOff(p, gangs, e) && e !in Immune(p)
  {
    if gangs != [] {
      var init := gangs[..|gangs| - 1];
      GangOffsAre(p, init);
      forall e ensures SomeGangOff(p, gangs, e) <==> SomeGangOff(p, init, e) || GangOff(p, gangs[|gangs| - 1], e) {
        if SomeGangOff(p, init, e) {
          var k :| 0 <= k < |init| && GangOff(p, init[k], e);
          assert GangOff(p, gangs[k], e);
        }
      }
    }
  }

  lemma RoomSetOffstage(p: Pass, r: string)
    requires r in p.inv.rooms && !Static(p, r)
    ensures RoomSet(p, r) == {}
  {}

  /** ACs, lights and covers in turn make the room's whole effect: no device is two of them. */
  lemma RoomSteps(p: Pass, r: string, h: Home)
    requires WellFormed(p.inv) && r in p.inv.rooms && Static(p, r) && h.Keys == p.inv.entities.Keys
    requires forall e :: RoomDevice(p, r, e) ==> e in h && h[e] == p.inv.entities[e]
    ensures RoomFormed(p.inv, r, p.inv.rooms[r])
    ensures var room := p.inv.rooms[r];
      var h1 := Patched(h, p, Members(room.climates, Immune(p)));
      var h2 := Patched(h1, p, Members(room.lights, Immune(p)));
      Untouched(h, p, room.climates) && Untouched(h1, p, room.lights) && Untouched(h2, p, room.covers)
      && h1.Keys == h2.Keys == h.Keys
      && Patched(h2, p, Members(room.covers, Immune(p))) == Patched(h, p, RoomSet(p, r))
  {
    assert RoomFormed(p.inv, r, p.inv.rooms[r]);
    var room := p.inv.rooms[r];
    InTurn(p, h, room.climates, room.lights, room.covers);
  }

  lemma InTurn(p: Pass, h: Home, a: seq<string>, b: seq<string>, c: seq<string>)
    requires Untouched(h, p, a) && Untouched(h, p, b) && Untouched(h, p, c)
    requires forall e :: e in a ==> e !in b && e !in c
    requires forall e :: e in b ==> e !in c
    ensures var h1 := Patched(h, p, Members(a, Immune(p)));
      var h2 := Patched(h1, p, Members(b, Immune(p)));
      Untouched(h1, p, b) && Untouched(h2, p, c) && h1.Keys == h2.Keys == h.Keys
      && Patched(h2, p, Members(c, Immune(p))) == Patched(h, p, Members(a, Immune(p)) + Members(b, Immune(p)) + Members(c, Immune(p)))
  {
    hide RoomAfter;
    var ma, mb, mc := Members(a, Immune(p)), Members(b, Immune(p)), Members(c, Immune(p));
    PatchedTwice(h, p, ma, mb);
    PatchedTwice(h, p, ma + mb, mc);
  }

  lemma OneMoreMember(q: seq<string>, i: nat, released: set<string>)
    requires i < |q| && Distinct(q)
    ensures Members(q[..i + 1], released) == Members(q[..i], released) + Members([q[i]], released)
    ensures q[i] !in q[..i]
  {
    assert q[..i + 1] == q[..i] + [q[i]];
  }

  lemma RoomLists(inv: Inventory, r: string)
    requires r in inv.rooms && RoomFormed(inv, r, inv.rooms[r])
    ensures Distinct(inv.rooms[r].climates) && Distinct(inv.rooms[r].lights) && Distinct(inv.rooms[r].covers)
  {}

  lemma PatchedNone(h: Home, p: Pass)
    ensures Patched(h, p, {}) == h
  {}

  lemma NoMembers(p: Pass)
    ensures Members([], Immune(p)) == {}
  {}

  /** Patching the first i of q leaves the next one for its own turn. */
  lemma NextMember(h: Home, p: Pass, q: seq<string>, i: nat)
    requires i < |q| && Distinct(q) && Untouched(h, p, q)
    ensures var live := Patched(h, p, Members(q[..i], Immune(p)));
      q[i] in live && live[q[i]] == p.inv.entities[q[i]]
      && Patched(live, p, Members([q[i]], Immune(p))) == Patched(h, p, Members(q[..i + 1], Immune(p)))
  {
    OneMoreMember(q, i, Immune(p));
    PatchedTwice(h, p, Members(q[..i], Immune(p)), Members([q[i]], Immune(p)));
  }

  lemma OneMoreOff(p: Pass, offs: seq<string>, i: nat)
    requires i < |offs|
    ensures MissingIssues(p, offs[..i + 1]) == MissingIssues(p, offs[..i]) + (if offs[i] !in p.inv.entities then {DeviceMissing(offs[i])} else {})
    ensures ListedOffs(p, offs[..i + 1]) == ListedOffs(p, offs[..i]) + ListedOffs(p, [offs[i]])
  {
    assert offs[..i + 1] == offs[..i] + [offs[i]];
  }

  lemma NoGangs(p: Pass, h: Home)
    ensures Offed(h, GangOffs(p, [])) == h && GangIssues(p, []) == {}
  {}

  lemma NextGang(p: Pass, i: nat)
    requires WellFormed(p.inv) && i < |p.inv.gangs|
    ensures var h := Offed(p.inv.entities, GangOffs(p, p.inv.gangs[..i]));
      && (forall e :: e in p.inv.gangs[i].ids ==> e in h && e in p.inv.entities)
      && Offed(h, GangOffSet(p, p.inv.gangs[i])) == Offed(p.inv.entities, GangOffs(p, p.inv.gangs[..i + 1]))
  {
    assert GangFormed(p.inv, p.inv.gangs[i]);
    assert p.inv.gangs[..i + 1][..i] == p.inv.gangs[..i];
    OffedTwice(p.inv.entities, GangOffs(p, p.inv.gangs[..i]), GangOffSet(p, p.inv.gangs[i]));
  }

  lemma OneMoreGang(p: Pass, i: nat)
    requires i < |p.inv.gangs|
    ensures GangIssues(p, p.inv.gangs[..i + 1]) == GangIssues(p, p.inv.gangs[..i])
         + (if Thinned(p, p.inv.gangs[i]) && !GoodGangPicks(p, p.inv.gangs[i]) then {InvalidGangPicks(p.inv.gangs[i].id)} else {})
  {
    var less, more := p.inv.gangs[..i], p.inv.gangs[..i + 1];
    assert more == less + [p.inv.gangs[i]];
    forall x | x in GangIssues(p, less) ensures x in GangIssues(p, more) {
      var k :| 0 <= k < |less| && Thinned(p, less[k]) && !GoodGangPicks(p, less[k]) && x == InvalidGangPicks(less[k].id);
      assert more[k] == less[k];
    }
    assert more[i] == p.inv.gangs[i];
  }

  lemma OneMoreRoom(p: Pass, done: set<string>, r: string)
    requires done <= p.inv.rooms.Keys && r in p.inv.rooms
    ensures RoomSets(p, done + {r}) == RoomSets(p, done) + RoomSet(p, r)
    ensures RoomIssues(p, done + {r}) == RoomIssues(p, done) + (if Static(p, r) then ClimateIssues(p, r) + LightIssues(p, r) else {})
  {}

  /** A room's own devices are none of the gang channels, plugs or heaters. */
  lemma RoomDevicesAreTheirOwn(p: Pass, r: string, e: string)
    requires WellFormed(p.inv) && OffsAreNoLights(p) && r in p.inv.rooms && RoomDevice(p, r, e)
    ensures e in p.inv.entities && e !in PassOffs(p) && !SomeGangOff(p, p.inv.gangs, e) && !ListedOff(p, e)
  {
    assert RoomFormed(p.inv, r, p.inv.rooms[r]);
    forall i | 0 <= i < |p.inv.gangs| ensures !GangOff(p, p.inv.gangs[i], e) {
      assert GangFormed(p.inv, p.inv.gangs[i]);
    }
    GangOffsAre(p, p.inv.gangs);
  }

  /** When a room's turn comes, nothing has touched its devices. */
  lemma RoomIsUntouched(p: Pass, done: set<string>, r: string)
    requires WellFormed(p.inv) && OffsAreNoLights(p) && r in p.inv.rooms && r !in done
    ensures var live := Patched(Offed(p.inv.entities, PassOffs(p)), p, RoomSets(p, done));
      live.Keys == p.inv.entities.Keys && forall e :: RoomDevice(p, r, e) ==> e in live && live[e] == p.inv.entities[e]
  {
    forall e | RoomDevice(p, r, e) ensures e in p.inv.entities && e !in RoomSets(p, done) && e !in PassOffs(p) {
      RoomDevicesAreTheirOwn(p, r, e);
      forall q | q in done && q in p.inv.rooms ensures e !in RoomSet(p, q) { RoomsApart(p, r, q, e); }
    }
  }

  lemma RoomsApart(p: Pass, r: string, q: string, e: string)
    requires WellFormed(p.inv) && r in p.inv.rooms && q in p.inv.rooms && r != q && RoomDevice(p, r, e)
    ensures e !in RoomSet(p, q)
  {
    assert RoomFormed(p.inv, r, p.inv.rooms[r]) && RoomFormed(p.inv, q, p.inv.rooms[q]);
  }

  lemma NoRooms(p: Pass)
    ensures RoomIssues(p, {}) == {} && RoomSets(p, {}) == {}
  {}

  /** The three parts of a pass make the entity-by-entity description. */
  lemma PassComposes(p: Pass)
    requires WellFormed(p.inv) && OffsAreNoLights(p)
    ensures Patched(Offed(p.inv.entities, PassOffs(p)), p, RoomSets(p, p.inv.rooms.Keys)) == HomeAfter(p)
  {
    forall e | e in p.inv.entities
      ensures Patched(Offed(p.inv.entities, PassOffs(p)), p, RoomSets(p, p.inv.rooms.Keys))[e] == EntityAfter(p, e)
    {
      EntityComposes(p, e, RoomSets(p, p.inv.rooms.Keys));
    }
  }

  lemma EntityComposes(p: Pass, e: string, inRooms: set<string>)
    requires WellFormed(p.inv) && OffsAreNoLights(p) && e in p.inv.entities && inRooms == RoomSets(p, p.inv.rooms.Keys)
    ensures EntityAfter(p, e) == (if e in inRooms then RoomAfter(p, e, p.inv.entities[e])
                                  else if e in PassOffs(p) then Off(p.inv.entities[e])
                                  else p.inv.entities[e])
  {
    hide RoomAfter, Off, ListedOff, GangOff, SomeGangOff, WellFormed, OffsAreNoLights, PassOffs, Skipped;
    OffsAre(p, e);
    if e in inRooms {
      var r :| r in p.inv.rooms && e in RoomSet(p, r);
      RoomDevicesAreTheirOwn(p, r, e);
    } else if e !in Immune(p) {
      NotInAnyRoom(p, e);
    }
  }

  lemma OffsAre(p: Pass, e: string)
    requires e in p.inv.entities
    ensures e in PassOffs(p) <==> e !in Immune(p) && (SomeGangOff(p, p.inv.gangs, e) || ListedOff(p, e))
  {
    GangOffsAre(p, p.inv.gangs);
  }

  lemma NotInAnyRoom(p: Pass, e: string)
    requires e in p.inv.entities && e !in RoomSets(p, p.inv.rooms.Keys) && e !in Immune(p)
    ensures RoomAfter(p, e, p.inv.entities[e]) == p.inv.entities[e]
  {
    var x := p.inv.entities[e];
    if x.room.Some? && x.room.value in p.inv.rooms {
      assert e !in RoomSet(p, x.room.value);
    }
  }
}
