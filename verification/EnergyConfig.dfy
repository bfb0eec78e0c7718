/**
 The wizard's per-level configuration: validated on every save and again on
 every start, so a validated document must validate to itself.
 */
module EnergyConfig {
  import opened Documents
  import opened Wrappers

  datatype Level = Low | Medium | Smart

  const MAX_ID_LENGTH := 255
  const MAX_LIST_ITEMS := 1024
  const MAX_PICK_GROUPS := 512

  datatype Heater = Heater(entityId: string, turnOff: bool)

  type Picks = map<string, seq<string>>

  datatype Config = Config(
    excludedRooms: seq<string>,
    gangKeepers: Picks,
    lightKeepers: Picks,
    plugOffs: seq<string>,
    heaters: seq<Heater>,
    acKeepers: Picks,
    setupComplete: bool,
    lockout: Option<bool>)   // only Smart has the choice

  function DefaultConfig(level: Level): Config {
    Config([], map[], map[], [], [], map[], false, if level.Smart? then Some(true) else None)
  }

  // -- ids and lists ------------------------------------------------------------

  predicate CleanId(s: string) { s != "" && Trimmed(s) && |s| <= MAX_ID_LENGTH }

  /** domain.object_id, split at the first dot. */
  predicate EntityShaped(s: string) { 0 < FirstDot(s) < |s| - 1 }

  function FirstDot(s: string): nat { if s == "" || s[0] == '.' then 0 else 1 + FirstDot(s[1..]) }

  predicate CleanItem(s: string, entity: bool) { CleanId(s) && (entity ==> EntityShaped(s)) }

  function Clean(v: Json, entity: bool): (r: Checked<string>)
    ensures r.Ok? ==> CleanItem(r.value, entity)
    ensures v.Str? && CleanItem(v.s, entity) ==> r == Ok(v.s)
  {
    if v.Str? && !Blank(v.s) && CleanItem(Strip(v.s), entity) then Ok(Strip(v.s)) else Rejected
  }

  /** Each item cleaned, with "" (never a clean id) for one that does not clean. */
  function CleanedItems(items: seq<Json>, entity: bool): (r: seq<string>)
    ensures |r| == |items|
    ensures forall i :: 0 <= i < |items| ==> r[i] == CleanedOr(items[i], entity)
  {
    seq(|items|, i requires 0 <= i < |items| => CleanedOr(items[i], entity))
  }

  function CleanedOr(v: Json, entity: bool): string {
    if Clean(v, entity).Ok? then Clean(v, entity).value else ""
  }

  /** What a list of items cleans to: all of them, in order, none twice. */
  ghost function CleanList(v: Json, entity: bool): (r: Checked<seq<string>>) {
    if v.Arr? && CleanStrings(CleanedItems(v.items, entity), entity) then Ok(CleanedItems(v.items, entity)) else Rejected
  }

  ghost predicate CleanStrings(q: seq<string>, entity: bool) {
    |q| <= MAX_LIST_ITEMS && Distinct(q) && (forall i :: 0 <= i < |q| ==> CleanItem(q[i], entity))
  }

  function Strings(q: seq<string>): Json { Arr(seq(|q|, i requires 0 <= i < |q| => Str(q[i]))) }

  lemma CleanListRoundTrip(q: seq<string>, entity: bool)
    requires CleanStrings(q, entity)
    ensures CleanList(Strings(q), entity) == Ok(q)
  {
    assert CleanedItems(Strings(q).items, entity) == q;
  }

  lemma OneBadItemRejects(v: Json, entity: bool, i: nat)
    requires v.Arr? && i < |v.items| && Clean(v.items[i], entity).Rejected?
    ensures CleanList(v, entity).Rejected?
  {
    assert CleanedItems(v.items, entity)[i] == "";
  }

  lemma OneRepeatRejects(v: Json, entity: bool, k: nat, i: nat)
    requires v.Arr? && k < i < |v.items| && CleanedOr(v.items[k], entity) == CleanedOr(v.items[i], entity)
    ensures CleanList(v, entity).Rejected?
  {
    var all := CleanedItems(v.items, entity);
    assert all[k] == all[i];
  }

  lemma AllGoodCleans(v: Json, entity: bool, clean: seq<string>)
    requires v.Arr? && |clean| == |v.items| <= MAX_LIST_ITEMS && Distinct(clean)
    requires forall k :: 0 <= k < |clean| ==> Clean(v.items[k], entity) == Ok(clean[k])
    ensures CleanList(v, entity) == Ok(clean)
  {
    assert CleanedItems(v.items, entity) == clean;
  }

  /** The validator's own loop. */
  method CleanUniqueList(v: Json, entity: bool) returns (r: Checked<seq<string>>)
    ensures r == CleanList(v, entity)
  {
    hide Clean;
    if !v.Arr? || |v.items| > MAX_LIST_ITEMS {
      return Rejected;
    }
    var clean: seq<string> := [];
    var seen: set<string> := {};
    var i := 0;
    while i < |v.items|
      invariant i == |clean| <= |v.items|
      invariant forall k :: 0 <= k < i ==> Clean(v.items[k], entity) == Ok(clean[k])
      invariant Distinct(clean)
      invariant forall x :: x in seen <==> x in clean
    {
      var item := Clean(v.items[i], entity);
      if item.Rejected? {
        OneBadItemRejects(v, entity, i);
        return Rejected;
      }
      if item.value in seen {
        ghost var k :| 0 <= k < i && clean[k] == item.value;
        OneRepeatRejects(v, entity, k, i);
        return Rejected;
      }
      seen := seen + {item.value};
      clean := clean + [item.value];
      i := i + 1;
    }
    AllGoodCleans(v, entity, clean);
    return Ok(clean);
  }

  // -- keeper maps -----------------------------------------------------------------

  /** How many picks a group may have: an exact count, or any (possibly none). */
  datatype PickRule = Exactly(n: nat) | AtLeastOne | Any

  predicate RightCount(rule: PickRule, n: nat) {
    match rule
    case Exactly(k) => n == k && n > 0
    case AtLeastOne => n > 0
    case Any => true
  }

  datatype Group = Group(id: string, picks: seq<string>)

  /** One entry of a keeper map, checked. */
  ghost function CleanGroup(key: string, raw: Json, rule: PickRule): (r: Checked<Group>) {
    var id := Clean(Str(key), false);
    var picks := CleanList(raw, true);
    if id.Rejected? || picks.Rejected? || !RightCount(rule, |picks.value|) then Rejected
    else Ok(Group(id.value, picks.value))
  }

  ghost function CleanGroups(v: Json, rule: PickRule): (r: seq<Checked<Group>>)
    requires v.Obj?
    ensures |r| == |v.keys|
    ensures forall i :: 0 <= i < |v.keys| ==> r[i] == CleanGroup(v.keys[i], Field(v, v.keys[i], Null), rule)
  {
    seq(|v.keys|, i requires 0 <= i < |v.keys| => CleanGroup(v.keys[i], Field(v, v.keys[i], Null), rule))
  }

  /** The keeper map the groups make, in order; a later key that cleans alike wins. */
  function Collect(groups: seq<Checked<Group>>): (r: Checked<Picks>) {
    if groups == [] then Ok(map[])
    else
      var last := groups[|groups| - 1];
      var before := Collect(groups[..|groups| - 1]);
      if before.Rejected? || last.Rejected? then Rejected else Ok(before.value[last.value.id := last.value.picks])
  }

  ghost function CleanPicks(v: Json, rule: PickRule): (r: Checked<Picks>) {
    if !v.Obj? || |v.keys| > MAX_PICK_GROUPS then Rejected else Collect(CleanGroups(v, rule))
  }

  lemma {:induction false} CollectTakesFrom(groups: seq<Checked<Group>>)
    requires Collect(groups).Ok?
    ensures |Collect(groups).value| <= |groups|
    ensures forall g :: g in Collect(groups).value ==>
      exists i :: 0 <= i < |groups| && groups[i] == Ok(Group(g, Collect(groups).value[g]))
  {
    if groups != [] {
      var init := groups[..|groups| - 1];
      CollectTakesFrom(init);
      forall g | g in Collect(groups).value
        ensures exists i :: 0 <= i < |groups| && groups[i] == Ok(Group(g, Collect(groups).value[g]))
      {
        if g != groups[|groups| - 1].value.id {
          var i :| 0 <= i < |init| && init[i] == Ok(Group(g, Collect(init).value[g]));
          assert groups[i] == init[i];
        } else {
          assert groups[|groups| - 1] == Ok(Group(g, Collect(groups).value[g]));
        }
      }
    }
  }

  ghost predicate CleanPickMap(p: Picks, rule: PickRule) {
    |p| <= MAX_PICK_GROUPS && forall g :: g in p ==> CleanPick(g, p[g], rule)
  }

  ghost predicate CleanPick(g: string, picks: seq<string>, rule: PickRule) {
    CleanId(g) && CleanStrings(picks, true) && RightCount(rule, |picks|)
  }

  lemma CleanPicksClean(v: Json, rule: PickRule)
    requires CleanPicks(v, rule).Ok?
    ensures CleanPickMap(CleanPicks(v, rule).value, rule)
  {
    var groups := CleanGroups(v, rule);
    CollectTakesFrom(groups);
    forall g | g in Collect(groups).value ensures CleanPick(g, Collect(groups).value[g], rule) {
      var i :| 0 <= i < |groups| && groups[i] == Ok(Group(g, Collect(groups).value[g]));
      CleanGroupClean(v.keys[i], Field(v, v.keys[i], Null), rule);
    }
  }

  lemma CleanGroupClean(key: string, raw: Json, rule: PickRule)
    requires CleanGroup(key, raw, rule).Ok?
    ensures CleanPick(CleanGroup(key, raw, rule).value.id, CleanGroup(key, raw, rule).value.picks, rule)
  {}

  lemma CleanGroupRoundTrip(g: string, picks: seq<string>, rule: PickRule)
    requires CleanPick(g, picks, rule)
    ensures CleanGroup(g, Strings(picks), rule) == Ok(Group(g, picks))
  {
    CleanListRoundTrip(picks, true);
    assert Clean(Str(g), false) == Ok(g);
  }

  function PicksDoc(p: Picks): Json { Obj(Sorted(p.Keys), map g | g in p :: Strings(p[g])) }

  lemma SortedSize(s: set<string>)
    ensures |Sorted(s)| == |s|
    decreases s
  {
    if s != {} { SortedSize(s - {Least(s)}); }
  }

  /** Distinct clean groups collect to the map they came from, in whatever order they are stored. */
  lemma {:induction false} CollectRoundTrip(p: Picks, keys: seq<string>, groups: seq<Checked<Group>>)
    requires |groups| == |keys| && Distinct(keys)
    requires forall i :: 0 <= i < |keys| ==> keys[i] in p && groups[i] == Ok(Group(keys[i], p[keys[i]]))
    ensures Collect(groups).Ok?
    ensures forall g :: g in Collect(groups).value <==> g in keys
    ensures forall g :: g in Collect(groups).value ==> g in p && Collect(groups).value[g] == p[g]
  {
    if groups != [] {
      CollectRoundTrip(p, keys[..|keys| - 1], groups[..|groups| - 1]);
      assert keys == keys[..|keys| - 1] + [keys[|keys| - 1]];
    }
  }

  lemma StoredGroup(p: Picks, rule: PickRule, i: nat)
    requires CleanPickMap(p, rule) && i < |PicksDoc(p).keys|
    ensures var doc := PicksDoc(p);
      doc.keys[i] in p && CleanGroups(doc, rule)[i] == Ok(Group(doc.keys[i], p[doc.keys[i]]))
  {
    hide CleanGroup;
    CleanGroupRoundTrip(PicksDoc(p).keys[i], p[PicksDoc(p).keys[i]], rule);
  }

  lemma PicksRoundTrip(p: Picks, rule: PickRule)
    requires CleanPickMap(p, rule)
    ensures CleanPicks(PicksDoc(p), rule) == Ok(p)
  {
    hide CleanGroup, Collect, CleanPick;
    var doc := PicksDoc(p);
    var groups := CleanGroups(doc, rule);
    SortedSize(p.Keys);
    forall i | 0 <= i < |doc.keys| ensures doc.keys[i] in p && groups[i] == Ok(Group(doc.keys[i], p[doc.keys[i]])) {
      StoredGroup(p, rule, i);
    }
    CollectRoundTrip(p, doc.keys, groups);
    assert |p| == |p.Keys|;
    assert Collect(groups).value == p;
  }

  /** One more group: the map so far, updated, or no map at all. */
  lemma OneMoreGroup(v: Json, rule: PickRule, groups: seq<Checked<Group>>, i: nat)
    requires v.Obj? && groups == CleanGroups(v, rule) && i < |v.keys| && Collect(groups[..i]).Ok?
    ensures |groups| == |v.keys|
    ensures var g := CleanGroup(v.keys[i], Field(v, v.keys[i], Null), rule);
      Collect(groups[..i + 1]) == (if g.Rejected? then Rejected else Ok(Collect(groups[..i]).value[g.value.id := g.value.picks]))
  {
    assert groups[..i + 1][..i] == groups[..i];
  }

  /** One entry of a keeper map, as the validator checks it. */
  method CleanGroupOf(key: string, raw: Json, rule: PickRule) returns (r: Checked<Group>)
    ensures r == CleanGroup(key, raw, rule)
  {
    var id := Clean(Str(key), false);
    var picks := CleanUniqueList(raw, true);
    if id.Rejected? || picks.Rejected? || !RightCount(rule, |picks.value|) {
      return Rejected;
    }
    return Ok(Group(id.value, picks.value));
  }

  method CleanPickMapLoop(v: Json, rule: PickRule) returns (r: Checked<Picks>)
    ensures r == CleanPicks(v, rule)
  {
    hide CleanGroup, CleanList, Clean;
    if !v.Obj? || |v.keys| > MAX_PICK_GROUPS {
      return Rejected;
    }
    ghost var groups := CleanGroups(v, rule);
    var clean: Picks := map[];
    var i := 0;
    while i < |v.keys|
      invariant i <= |v.keys| && |groups| == |v.keys|
      invariant Collect(groups[..i]) == Ok(clean)
    {
      OneMoreGroup(v, rule, groups, i);
      var group := CleanGroupOf(v.keys[i], Field(v, v.keys[i], Null), rule);
      if group.Rejected? {
        RejectionSticks(groups, i + 1);
        return Rejected;
      }
      clean := clean[group.value.id := group.value.picks];
      i := i + 1;
    }
    assert groups[..i] == groups;
    return Ok(clean);
  }

  lemma {:induction false} RejectionSticks(groups: seq<Checked<Group>>, n: nat)
    requires n <= |groups| && Collect(groups[..n]).Rejected?
    ensures Collect(groups).Rejected?
    decreases |groups|
  {
    if n < |groups| {
      assert groups[..|groups| - 1][..n] == groups[..n];
      RejectionSticks(groups[..|groups| - 1], n);
    } else {
      assert groups[..n] == groups;
    }
  }

  // -- heaters ------------------------------------------------------------------------

  function CleanHeater(v: Json): (r: Checked<Heater>)
    ensures r.Ok? ==> CleanItem(r.value.entityId, true)
  {
    if !v.Obj? || (exists k :: k in v.at && k != "entity_id" && k != "turn_off") then Rejected
    else
      var id := Clean(Field(v, "entity_id", Null), true);
      var off := Field(v, "turn_off", Null);
      if id.Rejected? || !off.Bool? then Rejected else Ok(Heater(id.value, off.b))
  }

  ghost predicate DistinctHeaters(q: seq<Heater>) {
    forall i, k :: 0 <= i < k < |q| ==> q[i].entityId != q[k].entityId
  }

  /** Each item cleaned, with an empty id for one that does not clean. */
  function CleanedHeaters(items: seq<Json>): (r: seq<Heater>)
    ensures |r| == |items|
    ensures forall i :: 0 <= i < |items| ==> r[i] == (if CleanHeater(items[i]).Ok? then CleanHeater(items[i]).value else Heater("", false))
  {
    seq(|items|, i requires 0 <= i < |items| => if CleanHeater(items[i]).Ok? then CleanHeater(items[i]).value else Heater("", false))
  }

  ghost function CleanHeaters(v: Json): (r: Checked<seq<Heater>>) {
    if v.Arr? && CleanHeaterList(CleanedHeaters(v.items)) then Ok(CleanedHeaters(v.items)) else Rejected
  }

  ghost predicate CleanHeaterList(q: seq<Heater>) {
    |q| <= MAX_LIST_ITEMS && DistinctHeaters(q) && (forall i :: 0 <= i < |q| ==> CleanItem(q[i].entityId, true))
  }

  function HeaterDoc(h: Heater): Json {
    Obj(["entity_id", "turn_off"], map["entity_id" := Str(h.entityId), "turn_off" := Bool(h.turnOff)])
  }

  function HeatersDoc(q: seq<Heater>): Json { Arr(seq(|q|, i requires 0 <= i < |q| => HeaterDoc(q[i]))) }

  lemma HeatersRoundTrip(q: seq<Heater>)
    requires CleanHeaterList(q)
    ensures CleanHeaters(HeatersDoc(q)) == Ok(q)
  {
    assert CleanedHeaters(HeatersDoc(q).items) == q;
  }

  // -- the document ---------------------------------------------------------------------

  /** A posted or stored document: each known field, present or not, and the names of the others. */
  datatype Document = NotAnObject | Document(
    schemaVersion: Option<Json>,
    excludedRooms: Option<Json>,
    gangKeepers: Option<Json>,
    lightKeepers: Option<Json>,
    plugOffs: Option<Json>,
    heaters: Option<Json>,
    acKeepers: Option<Json>,
    setupComplete: Option<Json>,
    lockoutEnabled: Option<Json>,
    others: set<string>)

  /** _reject_unknown_fields. */
  predicate KnownFieldsOnly(level: Level, doc: Document)
    requires doc.Document?
  {
    doc.others == {} && (doc.lockoutEnabled.Some? ==> level.Smart?)
  }

  function Or(field: Option<Json>, default: Json): Json { if field.Some? then field.value else default }

  function GangRule(level: Level): PickRule { if level.Low? then Exactly(2) else Exactly(1) }

  function AcRule(level: Level): PickRule {
    match level case Low => AtLeastOne case Medium => Exactly(1) case Smart => Any
  }

  const EMPTY_OBJ := Obj([], map[])

  /** The fields of a document, each checked on its own. */
  datatype Fields = Fields(
    complete: Json,
    excluded: Checked<seq<string>>,
    gangs: Checked<Picks>,
    lights: Checked<Picks>,
    plugs: Checked<seq<string>>,
    heaters: Checked<seq<Heater>>,
    acs: Checked<Picks>,
    lockout: Json)

  ghost function FieldsOf(level: Level, doc: Document): Fields
    requires doc.Document?
  {
    var rawAcs := Or(doc.acKeepers, EMPTY_OBJ);
    Fields(
      Or(doc.setupComplete, Bool(false)),
      CleanList(Or(doc.excludedRooms, Arr([])), false),
      CleanPicks(Or(doc.gangKeepers, EMPTY_OBJ), GangRule(level)),
      CleanPicks(Or(doc.lightKeepers, EMPTY_OBJ), AtLeastOne),
      CleanList(Or(doc.plugOffs, Arr([])), true),
      CleanHeaters(Or(doc.heaters, Arr([]))),
      // Low takes no AC picks at all.
      if level.Low? && rawAcs != EMPTY_OBJ then Rejected else CleanPicks(rawAcs, AcRule(level)),
      Or(doc.lockoutEnabled, Bool(true)))
  }

  /** validate_level_config. */
  ghost function Validate(level: Level, doc: Document): (r: Checked<Config>) {
    if !doc.Document? || !KnownFieldsOnly(level, doc) || Or(doc.schemaVersion, Int(1)) != Int(1)
    then Rejected
    else
      var f := FieldsOf(level, doc);
      if !f.complete.Bool? || f.excluded.Rejected? || f.gangs.Rejected? || f.lights.Rejected? || f.plugs.Rejected?
         || f.heaters.Rejected? || f.acs.Rejected? || (level.Smart? && !f.lockout.Bool?)
         || !ExcludedCarryNoPicks(f.excluded.value, f.lights.value, f.acs.value)
      then Rejected
      else Ok(Config(f.excluded.value, f.gangs.value, f.lights.value, f.plugs.value, f.heaters.value, f.acs.value,
                     f.complete.b, if level.Smart? then Some(f.lockout.b) else None))
  }

  predicate ExcludedCarryNoPicks(excluded: seq<string>, lights: Picks, acs: Picks) {
    forall r :: r in excluded ==> r !in lights && r !in acs
  }

  ghost predicate ValidConfig(level: Level, c: Config) {
    && CleanStrings(c.excludedRooms, false)
    && CleanPickMap(c.gangKeepers, GangRule(level))
    && CleanPickMap(c.lightKeepers, AtLeastOne)
    && CleanStrings(c.plugOffs, true)
    && CleanHeaterList(c.heaters)
    && CleanPickMap(c.acKeepers, AcRule(level))
    && (level.Low? ==> c.acKeepers == map[])
    && ExcludedCarryNoPicks(c.excludedRooms, c.lightKeepers, c.acKeepers)
    && (c.lockout.Some? <==> level.Smart?)
  }

  /** The document as stored. */
  function ConfigDoc(c: Config): Document {
    Document(
      Some(Int(1)),
      Some(Strings(c.excludedRooms)),
      Some(PicksDoc(c.gangKeepers)),
      Some(PicksDoc(c.lightKeepers)),
      Some(Strings(c.plugOffs)),
      Some(HeatersDoc(c.heaters)),
      Some(PicksDoc(c.acKeepers)),
      Some(Bool(c.setupComplete)),
      if c.lockout.Some? then Some(Bool(c.lockout.value)) else None,
      {})
  }

  lemma ValidateMakesValid(level: Level, doc: Document)
    requires Validate(level, doc).Ok?
    ensures ValidConfig(level, Validate(level, doc).value)
  {
    CleanPicksClean(Or(doc.gangKeepers, EMPTY_OBJ), GangRule(level));
    CleanPicksClean(Or(doc.lightKeepers, EMPTY_OBJ), AtLeastOne);
    CleanPicksClean(Or(doc.acKeepers, EMPTY_OBJ), AcRule(level));
  }

  /** doc holds the fields of c. */
  ghost predicate Holds(doc: Document, c: Config) {
    && doc.Document?
    && Or(doc.setupComplete, Bool(false)) == Bool(c.setupComplete)
    && Or(doc.excludedRooms, Arr([])) == Strings(c.excludedRooms)
    && Or(doc.gangKeepers, EMPTY_OBJ) == PicksDoc(c.gangKeepers)
    && Or(doc.lightKeepers, EMPTY_OBJ) == PicksDoc(c.lightKeepers)
    && Or(doc.plugOffs, Arr([])) == Strings(c.plugOffs)
    && Or(doc.heaters, Arr([])) == HeatersDoc(c.heaters)
    && Or(doc.acKeepers, EMPTY_OBJ) == PicksDoc(c.acKeepers)
    && Or(doc.lockoutEnabled, Bool(true)) == Bool(if c.lockout.Some? then c.lockout.value else true)
    && Or(doc.schemaVersion, Int(1)) == Int(1)
    && doc.others == {} && (doc.lockoutEnabled.Some? ==> c.lockout.Some?)
  }

  lemma ConfigDocHolds(c: Config)
    ensures Holds(ConfigDoc(c), c)
  {}

  lemma HeldFields(level: Level, c: Config, doc: Document)
    requires ValidConfig(level, c) && Holds(doc, c)
    ensures FieldsOf(level, doc) == Fields(Bool(c.setupComplete), Ok(c.excludedRooms), Ok(c.gangKeepers),
      Ok(c.lightKeepers), Ok(c.plugOffs), Ok(c.heaters), Ok(c.acKeepers), Bool(if c.lockout.Some? then c.lockout.value else true))
  {
    CleanListRoundTrip(c.excludedRooms, false);
    PicksRoundTrip(c.gangKeepers, GangRule(level));
    PicksRoundTrip(c.lightKeepers, AtLeastOne);
    CleanListRoundTrip(c.plugOffs, true);
    HeatersRoundTrip(c.heaters);
    PicksRoundTrip(c.acKeepers, AcRule(level));
    if level.Low? { EmptyPicksDoc(c.acKeepers); }
  }

  lemma EmptyPicksDoc(none: Picks)
    requires none == map[]
    ensures PicksDoc(none) == EMPTY_OBJ
  {
    assert none.Keys == {};
  }

  lemma HeldConfigValidates(level: Level, c: Config, doc: Document)
    requires ValidConfig(level, c) && Holds(doc, c)
    ensures Validate(level, doc) == Ok(c)
  {
    HeldFields(level, c, doc);
  }

  /** A stored configuration reads back as itself exactly when the validator could have made it. */
  lemma {:induction false} ValidateRoundTrip(level: Level, c: Config)
    ensures Validate(level, ConfigDoc(c)) == Ok(c) <==> ValidConfig(level, c)
  {
    if ValidConfig(level, c) {
      ConfigDocHolds(c);
      HeldConfigValidates(level, c, ConfigDoc(c));
    } else if Validate(level, ConfigDoc(c)).Ok? {
      ValidateMakesValid(level, ConfigDoc(c));
    }
  }

  /** Validation is idempotent: what a save stored, the next start reads back. */
  lemma {:induction false} ValidateIdempotent(level: Level, doc: Document)
    requires Validate(level, doc).Ok?
    ensures Validate(level, ConfigDoc(Validate(level, doc).value)) == Validate(level, doc)
  {
    ValidateMakesValid(level, doc);
    ValidateRoundTrip(level, Validate(level, doc).value);
  }

  // -- what is accepted, in plain terms ------------------------------------------------

  /** An id may come padded with blanks. */
  lemma CleanIgnoresPadding(left: string, id: string, right: string, entity: bool)
    requires AllSpace(left) && AllSpace(right) && CleanItem(id, entity)
    ensures Clean(Str(left + id + right), entity) == Ok(id)
  {
    StripCutsPadding(left, id, right);
  }

  /** An entity id has text on both sides of its first dot. */
  lemma {:induction false} EntityShapeIs(s: string)
    ensures EntityShaped(s) <==> exists i :: 0 < i < |s| - 1 && s[i] == '.' && '.' !in s[..i]
  {
    FirstDotIsFirst(s);
    if i :| 0 < i < |s| - 1 && s[i] == '.' && '.' !in s[..i] {
      forall k | 0 <= k < i ensures s[k] != '.' { assert s[k] in s[..i]; }
    }
  }

  lemma {:induction false} FirstDotIsFirst(s: string)
    ensures FirstDot(s) <= |s| && '.' !in s[..FirstDot(s)]
    ensures FirstDot(s) < |s| ==> s[FirstDot(s)] == '.'
    ensures forall i :: 0 <= i < |s| && s[i] == '.' ==> FirstDot(s) <= i
  {
    if s != "" && s[0] != '.' {
      FirstDotIsFirst(s[1..]);
      assert s[..FirstDot(s)] == [s[0]] + s[1..][..FirstDot(s[1..])];
      forall i | 0 <= i < |s| && s[i] == '.' ensures FirstDot(s) <= i { assert s[1..][i - 1] == '.'; }
    }
  }

  /** The field is missing, or a value of this shape. */
  predicate Fits<T>(field: Option<Json>, checked: Checked<T>) { field == None || checked.Ok? }

  predicate Flag(field: Option<Json>) { field == None || field.value.Bool? }

  /** A document is taken exactly if it has no unknown field, each field it has cleans, and no excluded room has picks. */
  lemma AcceptsExactly(level: Level, doc: Document)
    ensures Validate(level, doc).Ok? <==>
      && doc.Document? && doc.others == {} && (level != Smart ==> doc.lockoutEnabled == None)
      && (doc.schemaVersion == None || doc.schemaVersion == Some(Int(1))) && Flag(doc.setupComplete) && Flag(doc.lockoutEnabled)
      && var f := FieldsOf(level, doc);
        && Fits(doc.excludedRooms, f.excluded) && Fits(doc.gangKeepers, f.gangs) && Fits(doc.lightKeepers, f.lights)
        && Fits(doc.plugOffs, f.plugs) && Fits(doc.heaters, f.heaters) && Fits(doc.acKeepers, f.acs)
        && forall r :: r in f.excluded.value ==> r !in f.lights.value && r !in f.acs.value
  {
    EmptyFieldsFit(level);
    hide CleanList, CleanPicks, CleanHeaters;
    if doc.Document? {
      MissingFieldsFit(level, doc);
      hide FieldsOf, Fits;
    }
  }

  lemma MissingFieldsFit(level: Level, doc: Document)
    requires doc.Document?
    ensures var f := FieldsOf(level, doc);
      && (Fits(doc.excludedRooms, f.excluded) <==> f.excluded.Ok?) && (Fits(doc.gangKeepers, f.gangs) <==> f.gangs.Ok?)
      && (Fits(doc.lightKeepers, f.lights) <==> f.lights.Ok?) && (Fits(doc.plugOffs, f.plugs) <==> f.plugs.Ok?)
      && (Fits(doc.heaters, f.heaters) <==> f.heaters.Ok?) && (Fits(doc.acKeepers, f.acs) <==> f.acs.Ok?)
      && (Flag(doc.setupComplete) <==> f.complete.Bool?) && (Flag(doc.lockoutEnabled) <==> f.lockout.Bool?)
  {
    EmptyFieldsFit(level);
    hide CleanList, CleanPicks, CleanHeaters;
  }

  lemma EmptyFieldsFit(level: Level)
    ensures CleanList(Arr([]), false) == Ok([]) && CleanList(Arr([]), true) == Ok([]) && CleanHeaters(Arr([])) == Ok([])
    ensures forall rule :: CleanPicks(EMPTY_OBJ, rule) == Ok(map[])
  {}

  /** A heater is an object of just its id and its flag. */
  lemma HeaterShapeIs(v: Json)
    ensures CleanHeater(v).Ok? <==>
      && v.Obj? && (forall k :: k in v.at ==> k == "entity_id" || k == "turn_off")
      && "entity_id" in v.at && Clean(v.at["entity_id"], true).Ok? && "turn_off" in v.at && v.at["turn_off"].Bool?
    ensures CleanHeater(v).Ok? ==> CleanHeater(v).value == Heater(Clean(v.at["entity_id"], true).value, v.at["turn_off"].b)
  {}

  predicate Ids(q: seq<string>, entities: bool) { |q| <= 1024 && forall i :: 0 <= i < |q| ==> Id(q[i], entities) }

  predicate Id(s: string, entity: bool) { 0 < |s| <= 255 && Trimmed(s) && (entity ==> EntityShaped(s)) }

  ghost predicate HeatersApart(q: seq<Heater>) {
    && |q| <= 1024 && (forall i :: 0 <= i < |q| ==> Id(q[i].entityId, true))
    && (forall i, k :: 0 <= i < k < |q| ==> q[i].entityId != q[k].entityId)
  }

  ghost predicate PicksOf(p: Picks, least: nat, most: nat) {
    |p| <= 512 && forall g :: g in p ==> Id(g, false) && Ids(p[g], true) && Distinct(p[g]) && least <= |p[g]| <= most
  }

  /**
   What a level's configuration may hold: unique ids, at most 1024 in a list;
   two channels of each gang at Low and else one; at least one light of a room;
   no AC at Low, one of a room at Medium and any at Smart; no picks in excluded
   rooms; a lockout choice at Smart only.
   */
  lemma ValidConfigIs(level: Level, c: Config)
    ensures ValidConfig(level, c) <==>
      && Ids(c.excludedRooms, false) && Distinct(c.excludedRooms)
      && GangPicksFit(level, c.gangKeepers)
      && PicksOf(c.lightKeepers, 1, 1024)
      && Ids(c.plugOffs, true) && Distinct(c.plugOffs)
      && HeatersApart(c.heaters)
      && AcPicksFit(level, c.acKeepers)
      && (forall r :: r in c.excludedRooms ==> r !in c.lightKeepers && r !in c.acKeepers)
      && (c.lockout != None <==> level == Smart)
  {
    PicksOfExactly(c.lightKeepers);
    GangPicksExactly(level, c.gangKeepers);
    AcPicksExactly(level, c.acKeepers);
    ListExactly(c.excludedRooms, false);
    ListExactly(c.plugOffs, true);
    HeaterListExactly(c.heaters);
    hide PicksOf, CleanPickMap, CleanStrings, Ids, Distinct, CleanHeaterList, HeatersApart, GangPicksFit, AcPicksFit, AcRule, GangRule;
  }

  ghost predicate GangPicksFit(level: Level, p: Picks) { if level == Low then PicksOf(p, 2, 2) else PicksOf(p, 1, 1) }

  ghost predicate AcPicksFit(level: Level, p: Picks) {
    match level
    case Low => p == map[]
    case Medium => PicksOf(p, 1, 1)
    case Smart => PicksOf(p, 0, 1024)
  }

  lemma GangPicksExactly(level: Level, p: Picks)
    ensures CleanPickMap(p, GangRule(level)) <==> GangPicksFit(level, p)
  {
    PicksOfExactly(p);
  }

  lemma AcPicksExactly(level: Level, p: Picks)
    ensures CleanPickMap(p, AcRule(level)) && (level.Low? ==> p == map[]) <==> AcPicksFit(level, p)
  {
    PicksOfExactly(p);
    if p == map[] { assert CleanPickMap(p, AtLeastOne); }
    hide PicksOf;
  }

  lemma ListExactly(q: seq<string>, entities: bool)
    ensures CleanStrings(q, entities) <==> Ids(q, entities) && Distinct(q)
  {}

  lemma HeaterListExactly(q: seq<Heater>)
    ensures CleanHeaterList(q) <==> HeatersApart(q)
  {}

  lemma PicksOfExactly(p: Picks)
    ensures PicksOf(p, 1, 1) <==> CleanPickMap(p, Exactly(1))
    ensures PicksOf(p, 2, 2) <==> CleanPickMap(p, Exactly(2))
    ensures PicksOf(p, 1, 1024) <==> CleanPickMap(p, AtLeastOne)
    ensures PicksOf(p, 0, 1024) <==> CleanPickMap(p, Any)
  {
    forall g | g in p ensures CleanStrings(p[g], true) <==> Ids(p[g], true) && Distinct(p[g]) {}
    assert forall g :: g in p && Ids(p[g], true) ==> |p[g]| <= 1024;
    hide CleanStrings, Ids, Distinct;
  }

  // -- the validators as they run ---------------------------------------------------

  lemma HeatersSoFar(v: Json, clean: seq<Heater>)
    requires v.Arr? && |v.items| <= MAX_LIST_ITEMS && |clean| <= |v.items|
    requires forall k :: 0 <= k < |clean| ==> CleanHeater(v.items[k]) == Ok(clean[k])
    ensures |clean| == |v.items| && DistinctHeaters(clean) ==> CleanHeaters(v) == Ok(clean)
    ensures |clean| < |v.items| && CleanHeater(v.items[|clean|]).Rejected? ==> CleanHeaters(v).Rejected?
    ensures (exists k :: 0 <= k < |clean| < |v.items| && CleanHeater(v.items[|clean|]).Ok?
               && CleanHeater(v.items[|clean|]).value.entityId == clean[k].entityId) ==> CleanHeaters(v).Rejected?
  {
    var all := CleanedHeaters(v.items);
    assert |clean| == |v.items| ==> all == clean;
    if |clean| < |v.items| {
      assert CleanHeater(v.items[|clean|]).Rejected? ==> all[|clean|].entityId == "";
      assert forall k :: 0 <= k < |clean| ==> all[k] == clean[k];
    }
  }

  method CleanHeaterLoop(v: Json) returns (r: Checked<seq<Heater>>)
    ensures r == CleanHeaters(v)
  {
    hide CleanHeater, CleanedHeaters;
    if !v.Arr? || |v.items| > MAX_LIST_ITEMS {
      return Rejected;
    }
    var clean: seq<Heater> := [];
    var seen: set<string> := {};
    while |clean| < |v.items|
      invariant |clean| <= |v.items|
      invariant forall k :: 0 <= k < |clean| ==> CleanHeater(v.items[k]) == Ok(clean[k])
      invariant DistinctHeaters(clean)
      invariant forall x :: x in seen <==> exists k :: 0 <= k < |clean| && clean[k].entityId == x
    {
      HeatersSoFar(v, clean);
      var item := CleanHeater(v.items[|clean|]);
      if item.Rejected? || item.value.entityId in seen {
        return Rejected;
      }
      seen := seen + {item.value.entityId};
      ghost var before := clean;
      clean := clean + [item.value];
      assert forall k :: 0 <= k < |before| ==> clean[k] == before[k];
      assert clean[|before|].entityId == item.value.entityId;
    }
    HeatersSoFar(v, clean);
    return Ok(clean);
  }

  method ValidateLevelConfig(level: Level, doc: Document) returns (r: Checked<Config>)
    ensures r == Validate(level, doc)
  {
    if doc.NotAnObject? || !KnownFieldsOnly(level, doc) || Or(doc.schemaVersion, Int(1)) != Int(1) {
      return Rejected;
    }
    var complete := Or(doc.setupComplete, Bool(false));
    var excluded := CleanUniqueList(Or(doc.excludedRooms, Arr([])), false);
    var gangs := CleanPickMapLoop(Or(doc.gangKeepers, EMPTY_OBJ), GangRule(level));
    var lights := CleanPickMapLoop(Or(doc.lightKeepers, EMPTY_OBJ), AtLeastOne);
    var plugs := CleanUniqueList(Or(doc.plugOffs, Arr([])), true);
    var heaters := CleanHeaterLoop(Or(doc.heaters, Arr([])));
    var rawAcs := Or(doc.acKeepers, EMPTY_OBJ);
    var acs := CleanPickMapLoop(rawAcs, AcRule(level));
    var lockout := Or(doc.lockoutEnabled, Bool(true));
    if !complete.Bool? || excluded.Rejected? || gangs.Rejected? || lights.Rejected? || plugs.Rejected? || heaters.Rejected?
       || (level.Low? && rawAcs != EMPTY_OBJ) || acs.Rejected? || (level.Smart? && !lockout.Bool?)
    {
      return Rejected;
    }
    if !ExcludedCarryNoPicks(excluded.value, lights.value, acs.value) {
      return Rejected;
    }
    return Ok(Config(excluded.value, gangs.value, lights.value, plugs.value, heaters.value, acs.value,
                     complete.b, if level.Smart? then Some(lockout.b) else None));
  }

  lemma DefaultIsValid(level: Level)
    ensures ValidConfig(level, DefaultConfig(level))
  {
    assert |DefaultConfig(level).gangKeepers| == 0;
  }
}
