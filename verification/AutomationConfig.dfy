/**
 Automation configs as the hub's API edits them: the stored list, the plural
 key names Home Assistant's own editor leaves, and what the app reads back of
 what it saved.
 */
module AutomationConfig {
  import opened ActionTree
  import opened Wrappers

  /** An automation's config under its top-level keys. */
  type Config = Fields

  type ConfigKey = string

  // -- the list ----------------------------------------------------------------------------

  predicate HasId(c: Config, key: ConfigKey) { Id in c && c[Id] == Text(key) }

  /** The first entry with this id. */
  function IndexOf(items: seq<Config>, key: ConfigKey): Option<nat> {
    if items == [] then None
    else if HasId(items[0], key) then Some(0)
    else if IndexOf(items[1..], key).Some? then Some(IndexOf(items[1..], key).value + 1)
    else None
  }

  function Found(items: seq<Config>, key: ConfigKey): Option<Config> {
    if IndexOf(items, key).Some? && IndexOf(items, key).value < |items| then Some(items[IndexOf(items, key).value]) else None
  }

  lemma {:induction false} IndexIsFirst(items: seq<Config>, key: ConfigKey)
    ensures var i := IndexOf(items, key);
      && (i.Some? ==> i.value < |items| && HasId(items[i.value], key) && forall j :: 0 <= j < i.value ==> !HasId(items[j], key))
      && (i.None? ==> forall j :: 0 <= j < |items| ==> !HasId(items[j], key))
  {
    if items != [] && !HasId(items[0], key) {
      IndexIsFirst(items[1..], key);
      forall j | 0 < j < |items| ensures items[j] == items[1..][j - 1] {}
    }
  }

  lemma FirstIsIndex(items: seq<Config>, key: ConfigKey, i: nat)
    requires i < |items| && HasId(items[i], key) && forall j :: 0 <= j < i ==> !HasId(items[j], key)
    ensures IndexOf(items, key) == Some(i)
  {
    IndexIsFirst(items, key);
  }

  function Upserted(items: seq<Config>, key: ConfigKey, c: Config): seq<Config> {
    var i := IndexOf(items, key);
    if i.Some? && i.value < |items| then items[i.value := c[Id := Text(key)]] else items + [c[Id := Text(key)]]
  }

  function Deleted(items: seq<Config>, key: ConfigKey): seq<Config> {
    var i := IndexOf(items, key);
    if i.Some? && i.value < |items| then items[..i.value] + items[i.value + 1..] else items
  }

  /** The written entry is the one found, whatever id its body carried, and every other id finds what it did. */
  lemma UpsertThenGet(items: seq<Config>, key: ConfigKey, c: Config, other: ConfigKey)
    ensures Found(Upserted(items, key, c), key) == Some(c[Id := Text(key)])
    ensures other != key ==> Found(Upserted(items, key, c), other) == Found(items, other)
  {
    var after := Upserted(items, key, c);
    IndexIsFirst(items, key);
    IndexIsFirst(after, key);
    IndexIsFirst(items, other);
    IndexIsFirst(after, other);
    var i := if IndexOf(items, key).Some? then IndexOf(items, key).value else |items|;
    assert HasId(after[i], key);
    FirstIsIndex(after, key, i);
    if other != key && IndexOf(items, other).Some? {
      FirstIsIndex(after, other, IndexOf(items, other).value);
    } else if other != key {
      forall j | 0 <= j < |after| ensures !HasId(after[j], other) {}
    }
  }

  predicate AtMostOne(items: seq<Config>, key: ConfigKey) {
    forall i, j :: 0 <= i < j < |items| && HasId(items[i], key) ==> !HasId(items[j], key)
  }

  /** Deleting touches no other id, and the automation is gone exactly when it had at most one entry. */
  lemma DeleteThenGet(items: seq<Config>, key: ConfigKey, other: ConfigKey)
    ensures Found(Deleted(items, key), key) == None <==> AtMostOne(items, key)
    ensures other != key ==> Found(Deleted(items, key), other) == Found(items, other)
  {
    GoneExactly(items, key);
    if other != key { OthersStay(items, key, other); }
  }

  lemma GoneExactly(items: seq<Config>, key: ConfigKey)
    ensures Found(Deleted(items, key), key) == None <==> AtMostOne(items, key)
  {
    var after := Deleted(items, key);
    IndexIsFirst(items, key);
    IndexIsFirst(after, key);
    if IndexOf(items, key).Some? {
      var i := IndexOf(items, key).value;
      hide HasId;
      forall j | i < j < |items| ensures items[j] == after[j - 1] {}
    }
  }

  lemma OthersStay(items: seq<Config>, key: ConfigKey, other: ConfigKey)
    requires other != key
    ensures Found(Deleted(items, key), other) == Found(items, other)
  {
    var after := Deleted(items, key);
    IndexIsFirst(items, key);
    IndexIsFirst(items, other);
    IndexIsFirst(after, other);
    if IndexOf(items, key).Some? {
      var i := IndexOf(items, key).value;
      forall j | 0 <= j < |after| ensures after[j] == items[if j < i then j else j + 1] {}
      if IndexOf(items, other).Some? {
        var k := IndexOf(items, other).value;
        assert k != i;
        FirstIsIndex(after, other, if k < i then k else k - 1);
      }
    }
  }

  ghost predicate UniqueIds(items: seq<Config>) { forall key :: AtMostOne(items, key) }

  lemma UpsertKeepsUnique(items: seq<Config>, key: ConfigKey, c: Config)
    requires UniqueIds(items)
    ensures UniqueIds(Upserted(items, key, c))
  {
    IndexIsFirst(items, key);
    forall any ensures AtMostOne(Upserted(items, key, c), any) { assert AtMostOne(items, any); }
  }

  /** automations.yaml as loaded for one edit. */
  class Document {
    var items: seq<Config>

    constructor (items: seq<Config>)
      ensures this.items == items
    {
      this.items := items;
    }

    method GetAutomation(key: ConfigKey) returns (r: Option<Config>)
      ensures r == Found(items, key)
    {
      IndexIsFirst(items, key);
      for i := 0 to |items|
        invariant forall j :: 0 <= j < i ==> !HasId(items[j], key)
      {
        if HasId(items[i], key) {
          FirstIsIndex(items, key, i);
          return Some(items[i]);
        }
      }
      return None;
    }

    method UpsertAutomation(key: ConfigKey, value: Config)
      modifies this
      ensures items == Upserted(old(items), key, value)
    {
      var updated := value[Id := Text(key)];
      IndexIsFirst(items, key);
      for i := 0 to |items|
        invariant items == old(items)
        invariant forall j :: 0 <= j < i ==> !HasId(items[j], key)
      {
        if HasId(items[i], key) {
          FirstIsIndex(items, key, i);
          items := items[i := updated];
          return;
        }
      }
      items := items + [updated];
    }

    method DeleteAutomation(key: ConfigKey) returns (found: bool)
      modifies this
      ensures items == Deleted(old(items), key)
      ensures found <==> Found(old(items), key).Some?
    {
      IndexIsFirst(items, key);
      for i := 0 to |items|
        invariant items == old(items)
        invariant forall j :: 0 <= j < i ==> !HasId(items[j], key)
      {
        if HasId(items[i], key) {
          FirstIsIndex(items, key, i);
          items := items[..i] + items[i + 1..];
          return true;
        }
      }
      return false;
    }
  }

  // -- one config -----------------------------------------------------------------------------

  function SingularOf(k: Key): Key {
    match k
    case Triggers => Trigger
    case Conditions => Condition
    case Actions => Action
    case _ => k
  }

  /** A plural key is renamed unless the config has the singular key too. */
  function Renamed(c: Config, k: Key): Key { if SingularOf(k) in c then k else SingularOf(k) }

  function Settled(c: Config, plural: Key): Config {
    if plural in c && SingularOf(plural) !in c then (c - {plural})[SingularOf(plural) := c[plural]] else c
  }

  function Singular(c: Config): Config { Settled(Settled(Settled(c, Triggers), Conditions), Actions) }

  /** Every value moves to its key's new name, no two to the same one, and nothing else is there. */
  lemma {:induction false} SingularMoves(c: Config)
    ensures forall k :: k in c ==> Renamed(c, k) in Singular(c) && Singular(c)[Renamed(c, k)] == c[k]
    ensures forall k, j :: k in c && j in c && Renamed(c, k) == Renamed(c, j) ==> k == j
    ensures forall x :: x in Singular(c) ==> exists k :: k in c && Renamed(c, k) == x
  {
    hide Singular;
    forall k | k in c ensures Renamed(c, k) in Singular(c) && Singular(c)[Renamed(c, k)] == c[k] { MovesTo(c, k); }
    forall x | x in Singular(c) ensures exists k :: k in c && Renamed(c, k) == x {
      var k := ComesFrom(c, x);
    }
  }

  lemma MovesTo(c: Config, k: Key)
    requires k in c
    ensures Renamed(c, k) in Singular(c) && Singular(c)[Renamed(c, k)] == c[k]
  {}

  lemma ComesFrom(c: Config, x: Key) returns (k: Key)
    requires x in Singular(c)
    ensures k in c && Renamed(c, k) == x
  {
    k := if x in c && Renamed(c, x) == x then x else if x.Trigger? then Triggers else if x.Condition? then Conditions else Actions;
  }

  lemma SingularIsIdempotent(c: Config)
    ensures Singular(Singular(c)) == Singular(c)
    ensures Triggers !in c && Conditions !in c && Actions !in c ==> Singular(c) == c
  {}

  lemma OnlyOneRenaming(c: Config, r: Config)
    requires forall k :: k in c ==> Renamed(c, k) in r && r[Renamed(c, k)] == c[k]
    requires forall x :: x in r ==> exists k :: k in c && Renamed(c, k) == x
    ensures r == Singular(c)
  {
    SingularMoves(c);
    hide Singular, Renamed;
    forall x | x in r ensures x in Singular(c) && r[x] == Singular(c)[x] {
      var k :| k in c && Renamed(c, k) == x;
    }
    forall x | x in Singular(c) ensures x in r {
      var k :| k in c && Renamed(c, k) == x;
    }
  }

  method WithSingularKeys(c: Config) returns (renamed: Config)
    ensures renamed == Singular(c)
  {
    hide Singular;
    renamed := map[];
    SingularMoves(c);
    var todo := c.Keys;
    while todo != {}
      invariant todo <= c.Keys
      invariant forall k :: k in c && k !in todo ==> Renamed(c, k) in renamed && renamed[Renamed(c, k)] == c[k]
      invariant forall x :: x in renamed ==> exists k :: k in c && Renamed(c, k) == x
      decreases todo
    {
      var k :| k in todo;
      var name := if SingularOf(k) in c then k else SingularOf(k);
      assert name == Renamed(c, k);
      hide Renamed, SingularOf;
      renamed := renamed[name := c[k]];
      todo := todo - {k};
    }
    OnlyOneRenaming(c, renamed);
  }

  /** _map_actions. */
  function MapActions(c: Conversion, config: Config): Config {
    map k | k in config :: if k.Action? || k.Actions? then MapLights(c, config[k]) else config[k]
  }

  lemma SingularThenMap(c: Conversion, config: Config)
    ensures Singular(MapActions(c, config)) == MapActions(c, Singular(config))
  {
    SettleThenMap(c, config, Triggers);
    SettleThenMap(c, Settled(config, Triggers), Conditions);
    SettleThenMap(c, Settled(Settled(config, Triggers), Conditions), Actions);
  }

  lemma SettleThenMap(c: Conversion, config: Config, plural: Key)
    ensures Settled(MapActions(c, config), plural) == MapActions(c, Settled(config, plural))
  {
    hide MapLights;
  }

  lemma MapActionsFuses(a: Conversion, b: Conversion, config: Config)
    ensures MapActions(b, MapActions(a, config)) == MapActions(Then(a, b), config)
  {
    forall k | k in config ensures MapLights(b, MapLights(a, config[k])) == MapLights(Then(a, b), config[k]) {
      WalksFuse(a, b, config[k]);
    }
  }

  lemma SameMapActions(a: Conversion, b: Conversion, config: Config)
    requires SameConversion(a, b)
    ensures MapActions(a, config) == MapActions(b, config)
  {
    forall k | k in config ensures MapLights(a, config[k]) == MapLights(b, config[k]) {
      SameConversionSameWalk(a, b, config[k]);
    }
  }

  /** The config post stores: without the hub's own flag, in kelvin, under the URL's id. */
  function Saved(config: Config, key: ConfigKey): Config { MapActions(ToKelvin, config - {EnergyFlag})[Id := Text(key)] }

  /** The config get answers with. */
  function Read(stored: Config, flag: bool): Config { MapActions(AddMireds, Singular(stored))[EnergyFlag := Bool(flag)] }

  /** Reading back what was saved: singular keys, each light's colour as EditorSees says, the id and the flag. */
  lemma {:induction false} ReadsBack(config: Config, key: ConfigKey, flag: bool)
    ensures Read(Saved(config, key), flag)
      == MapActions(Then(ToKelvin, AddMireds), Singular(config))[Id := Text(key)][EnergyFlag := Bool(flag)]
  {
    var own := config - {EnergyFlag};
    var both := Then(ToKelvin, AddMireds);
    SetIdCommutes(MapActions(ToKelvin, own), key);
    SingularThenMap(ToKelvin, own);
    MapKeepsOthers(AddMireds, MapActions(ToKelvin, Singular(own)), key, flag);
    MapActionsFuses(ToKelvin, AddMireds, Singular(own));
    DropFlagCommutes(config);
    MapKeepsOthers(both, Singular(config), key, flag);
    hide MapActions, Singular;
    var seen := MapActions(both, Singular(config));
    assert (seen - {EnergyFlag})[Id := Text(key)][EnergyFlag := Bool(flag)] == seen[Id := Text(key)][EnergyFlag := Bool(flag)];
  }

  lemma SetIdCommutes(config: Config, key: ConfigKey)
    ensures Singular(config[Id := Text(key)]) == Singular(config)[Id := Text(key)]
  {
    SettleSetsId(config, key, Triggers);
    SettleSetsId(Settled(config, Triggers), key, Conditions);
    SettleSetsId(Settled(Settled(config, Triggers), Conditions), key, Actions);
  }

  lemma SettleSetsId(config: Config, key: ConfigKey, plural: Key)
    requires plural.Triggers? || plural.Conditions? || plural.Actions?
    ensures Settled(config[Id := Text(key)], plural) == Settled(config, plural)[Id := Text(key)]
  {}

  lemma DropFlagCommutes(config: Config)
    ensures Singular(config - {EnergyFlag}) == Singular(config) - {EnergyFlag}
  {
    SettleDropsFlag(config, Triggers);
    SettleDropsFlag(Settled(config, Triggers), Conditions);
    SettleDropsFlag(Settled(Settled(config, Triggers), Conditions), Actions);
  }

  lemma SettleDropsFlag(config: Config, plural: Key)
    requires plural.Triggers? || plural.Conditions? || plural.Actions?
    ensures Settled(config - {EnergyFlag}, plural) == Settled(config, plural) - {EnergyFlag}
  {}

  lemma MapKeepsOthers(c: Conversion, config: Config, key: ConfigKey, flag: bool)
    ensures MapActions(c, config[Id := Text(key)]) == MapActions(c, config)[Id := Text(key)]
    ensures MapActions(c, config - {EnergyFlag}) == MapActions(c, config) - {EnergyFlag}
    ensures (MapActions(c, config)[EnergyFlag := Bool(flag)]) - {EnergyFlag} == MapActions(c, config) - {EnergyFlag}
  {
    hide MapLights;
  }

  /** Saving what was read stores what was stored, under singular keys. */
  lemma SavesBack(config: Config, key: ConfigKey, flag: bool)
    ensures var stored := Saved(config, key); Saved(Read(stored, flag), key) == Singular(stored)
  {
    var stored := Saved(config, key);
    var own := config - {EnergyFlag};
    var tidy := Singular(own);
    SetIdCommutes(MapActions(ToKelvin, own), key);
    SingularThenMap(ToKelvin, own);
    DropFlagCommutes(config);
    assert Singular(stored) == MapActions(ToKelvin, tidy)[Id := Text(key)];
    SavesAgain(tidy, key, flag);
  }

  /** The same once the keys are singular. */
  lemma SavesAgain(tidy: Config, key: ConfigKey, flag: bool)
    requires EnergyFlag !in tidy
    ensures var stored := MapActions(ToKelvin, tidy)[Id := Text(key)];
      Saved(MapActions(AddMireds, stored)[EnergyFlag := Bool(flag)], key) == stored
  {
    var once := MapActions(ToKelvin, tidy);
    var stored := once[Id := Text(key)];
    MapKeepsOthers(AddMireds, once, key, flag);
    MapKeepsOthers(AddMireds, stored, key, flag);
    MapKeepsOthers(ToKelvin, MapActions(AddMireds, once), key, flag);
    SavingAbsorbs();
    MapActionsFuses(AddMireds, ToKelvin, once);
    SameMapActions(Then(AddMireds, ToKelvin), ToKelvin, once);
    MapActionsFuses(ToKelvin, ToKelvin, tidy);
    SameMapActions(Then(ToKelvin, ToKelvin), ToKelvin, tidy);
    var seen := MapActions(AddMireds, stored);
    assert seen[EnergyFlag := Bool(flag)] - {EnergyFlag} == seen;
  }

  /** The file's list after a post, and what get answers from a list. */
  function Posted(items: seq<Config>, config: Config, key: ConfigKey): seq<Config> {
    Upserted(items, key, MapActions(ToKelvin, config - {EnergyFlag}))
  }

  function Got(items: seq<Config>, key: ConfigKey, flag: bool): Option<Config> {
    if Found(items, key).Some? then Some(Read(Found(items, key).value, flag)) else None
  }

  /** Post and then get, through the list: the round trip the editor sees, whatever else the file holds. */
  lemma PostThenGet(items: seq<Config>, config: Config, key: ConfigKey, flag: bool)
    ensures Found(Posted(items, config, key), key) == Some(Saved(config, key))
    ensures Got(Posted(items, config, key), key, flag)
      == Some(MapActions(Then(ToKelvin, AddMireds), Singular(config))[Id := Text(key)][EnergyFlag := Bool(flag)])
  {
    UpsertThenGet(items, key, MapActions(ToKelvin, config - {EnergyFlag}), key);
    ReadsBack(config, key, flag);
  }
}
