/**
 What an edit does to each place of an automation: a path through list
 positions and field names leads to the same thing before and after, but for
 the colour temperature of a light call, which is stored in kelvin and read
 back in mireds.
 */
module ActionPaths {
  import opened ActionTree
  import opened AutomationConfig
  import opened Wrappers

  datatype Hop = At(i: nat) | Field(k: Key)

  type Path = seq<Hop>

  /** Where one hop leads, and where a path does. */
  function Step(t: Tree, hop: Hop): Option<Tree> {
    match hop
    case At(i) => if t.List? && i < |t.items| then Some(t.items[i]) else None
    case Field(k) => if t.Node? && k in t.fields then Some(t.fields[k]) else None
  }

  function Look(t: Tree, path: Path): Option<Tree>
    decreases |path|
  {
    if path == [] then Some(t)
    else if Step(t, path[0]) == None then None
    else Look(Step(t, path[0]).value, path[1..])
  }

  /** What there is at a place, whatever is below it. */
  datatype Face = Nothing | Leaf(value: Tree) | ListOf(length: nat) | Dict

  function FaceOf(t: Option<Tree>): Face {
    match t
    case None => Nothing
    case Some(List(items)) => ListOf(|items|)
    case Some(Node(_)) => Dict
    case Some(leaf) => Leaf(leaf)
  }

  /** A call of one of Home Assistant's light actions, by its new name or else its old one, with data. */
  predicate CallsLight(t: Tree) {
    && t.Node? && Data in t.fields && t.fields[Data].Node?
    && var name := if Action in t.fields then t.fields[Action] else if Service in t.fields then t.fields[Service] else Null;
       name.Text? && |name.s| >= 6 && name.s[..6] == "light."
  }

  predicate Colour(k: Key) { k == ColorTemp || k == ColorTempKelvin }

  /** The path does not run into a light call's own colour. */
  predicate Clear(t: Tree, path: Path)
    decreases |path|
  {
    path == []
    || (&& (CallsLight(t) && |path| > 1 && path[0] == Field(Data) ==> !(path[1].Field? && Colour(path[1].k)))
        && (Step(t, path[0]) != None ==> Clear(Step(t, path[0]).value, path[1..])))
  }

  lemma CallsLightIsLight(t: Tree)
    requires t.Node?
    ensures CallsLight(t) <==> IsLight(t.fields)
  {}

  /** One hop into a walked tree. */
  lemma StepMapped(c: Conversion, t: Tree, hop: Hop)
    ensures Step(MapLights(c, t), hop) == None <==> Step(t, hop) == None
    ensures Step(t, hop) != None && !(CallsLight(t) && hop == Field(Data)) ==>
      Step(MapLights(c, t), hop) == Some(MapLights(c, Step(t, hop).value))
    ensures CallsLight(t) && hop == Field(Data) ==>
      MapLights(c, t.fields[Data]).Node?
      && Step(MapLights(c, t), hop) == Some(Node(Convert(c, MapLights(c, t.fields[Data]).fields)))
  {
    MapKeepsShape(c, t);
    if t.Node? {
      CallsLightIsLight(t);
      KidsKeepLight(c, t.fields);
      if Data in t.fields { MapKeepsShape(c, t.fields[Data]); }
    }
  }

  ghost predicate Agree(m: Fields, n: Fields) { forall k :: !Colour(k) ==> (k in m <==> k in n) && (k in m ==> m[k] == n[k]) }

  /** A path past a light's data that is not into its colour. */
  lemma PastData(c: Conversion, d: Fields, path: Path)
    requires path != [] && !(path[0].Field? && Colour(path[0].k))
    ensures Look(Node(Convert(c, d)), path) == Look(Node(d), path)
  {
    ConvertMissesData(c, d);
  }

  /** At every clear path the walked tree shows what the tree does. */
  lemma {:induction false} PathKept(c: Conversion, t: Tree, path: Path)
    requires Clear(t, path)
    ensures FaceOf(Look(MapLights(c, t), path)) == FaceOf(Look(t, path))
    decreases |path|
  {
    if path == [] {
      MapKeepsShape(c, t);
    } else {
      StepMapped(c, t, path[0]);
      if Step(t, path[0]) != None {
        var below := Step(t, path[0]).value;
        PathKept(c, below, path[1..]);
        if CallsLight(t) && path[0] == Field(Data) && |path| > 1 {
          PastData(c, MapLights(c, below).fields, path[1..]);
        }
      }
    }
  }

  /** And at a dictionary the walked one, but for colours that belong to a call above it. */
  lemma {:induction false} SubtreeKept(c: Conversion, t: Tree, path: Path)
    requires Clear(t, path) && Look(t, path).Some? && Look(t, path).value.Node?
    ensures var n, there := Look(t, path).value, Look(MapLights(c, t), path);
      there.Some? && there.value.Node? && MapLights(c, n).Node? && Agree(there.value.fields, MapLights(c, n).fields)
    decreases |path|
  {
    if path == [] {
      MapKeepsShape(c, t);
    } else {
      StepMapped(c, t, path[0]);
      var below := Step(t, path[0]).value;
      SubtreeKept(c, below, path[1..]);
      if CallsLight(t) && path[0] == Field(Data) {
        var d := MapLights(c, below).fields;
        if |path| > 1 { PastData(c, d, path[1..]); } else { ConvertMissesData(c, d); }
      }
    }
  }

  // -- a light call's colour --------------------------------------------------------------

  /** The same colours as far as they are numbers. */
  predicate SameColours(d: Fields, e: Fields) { SameColour(d, e, ColorTemp) && SameColour(d, e, ColorTempKelvin) }

  predicate SameColour(d: Fields, e: Fields, k: Key) {
    (k in d <==> k in e) && (k in d && (IsNumber(d[k]) || IsNumber(e[k])) ==> e[k] == d[k])
  }

  lemma ColoursWalked(c: Conversion, d: Fields)
    ensures MapLights(c, Node(d)).Node? && SameColours(d, MapLights(c, Node(d)).fields)
  {
    ColourWalked(c, d, ColorTemp);
    ColourWalked(c, d, ColorTempKelvin);
  }

  lemma ColourWalked(c: Conversion, d: Fields, k: Key)
    requires Colour(k)
    ensures MapLights(c, Node(d)).Node? && SameColour(d, MapLights(c, Node(d)).fields, k)
  {
    MapKeepsShape(c, Node(d));
    StepMapped(c, Node(d), Field(k));
    if k in d { MapKeepsShape(c, d[k]); }
    hide MapLights;
  }

  /** At a light call the walk leaves a light call whose data holds the converted colour. */
  lemma ColourAt(c: Conversion, t: Tree, path: Path) returns (d': Fields)
    requires Clear(t, path) && Look(t, path).Some? && CallsLight(Look(t, path).value)
    ensures var d, there := Look(t, path).value.fields[Data].fields, Look(MapLights(c, t), path);
      && there.Some? && CallsLight(there.value)
      && there.value.fields[Data].fields == Convert(c, d') && SameColours(d, d')
  {
    var n := Look(t, path).value;
    var d := n.fields[Data].fields;
    SubtreeKept(c, t, path);
    NamesKept(c, n);
    var there := Look(MapLights(c, t), path).value;
    AgreeingCalls(there.fields, MapLights(c, n).fields);
    StepMapped(c, n, Field(Data));
    ColoursWalked(c, d);
    d' := MapLights(c, Node(d)).fields;
    hide MapLights, Convert, SameColours, CallsLight;
  }

  lemma AgreeingCalls(m: Fields, n: Fields)
    requires Agree(m, n) && CallsLight(Node(n))
    ensures CallsLight(Node(m)) && m[Data] == n[Data]
  {}

  lemma NamesKept(c: Conversion, n: Tree)
    requires CallsLight(n)
    ensures MapLights(c, n).Node? && CallsLight(MapLights(c, n))
  {
    MapKeepsShape(c, n);
    StepMapped(c, n, Field(Action));
    StepMapped(c, n, Field(Service));
    StepMapped(c, n, Field(Data));
    if Action in n.fields { MapKeepsShape(c, n.fields[Action]); }
    if Service in n.fields { MapKeepsShape(c, n.fields[Service]); }
  }

  function Clamped(x: real): real { if x < 100.0 then 100.0 else if x > 1000.0 then 1000.0 else x }

  predicate Near(n: int, x: real) { -0.5 <= n as real - x <= 0.5 }

  predicate Mired(d: Fields) { ColorTemp in d && Positive(d[ColorTemp]) && ColorTempKelvin !in d }

  /** Stored for posted colour d: a mired value in kelvin, kelvin as given and then without mireds, all else as it is. */
  predicate StoredColour(d: Fields, e: Fields) {
    if Mired(d) then
      && ColorTemp !in e && ColorTempKelvin in e && e[ColorTempKelvin].Int?
      && e[ColorTempKelvin].n >= 1000 && Near(e[ColorTempKelvin].n, 1000000.0 / Clamped(Value(d[ColorTemp])))
    else if ColorTempKelvin in d then ColorTemp !in e && SameColour(d, e, ColorTempKelvin)
    else SameColours(d, e)
  }

  /** Read back for posted colour d: a whole mired value as posted, clamped, beside its kelvin; kelvin with its nearest mireds. */
  predicate ReadColour(d: Fields, e: Fields) {
    if Mired(d) then
      && StoredColour(d, e - {ColorTemp}) && ColorTemp in e && e[ColorTemp].Int?
      && (d[ColorTemp].Int? ==> e[ColorTemp].n as real == Clamped(d[ColorTemp].n as real))
      && -1.0 <= e[ColorTemp].n as real - Clamped(Value(d[ColorTemp])) <= 1.0
    else if ColorTempKelvin in d then
      && SameColour(d, e, ColorTempKelvin)
      && (if Positive(d[ColorTempKelvin])
          then && ColorTemp in e && e[ColorTemp].Int?
               && (Near(e[ColorTemp].n, 1000000.0 / Value(d[ColorTempKelvin])) || e[ColorTemp].n as real == Clamped(1000000.0 / Value(d[ColorTempKelvin])))
               && 100 <= e[ColorTemp].n <= 1000
          else ColorTemp !in e)
    else SameColours(d, e)
  }

  lemma StoresColour(d: Fields, d': Fields)
    requires SameColours(d, d')
    ensures StoredColour(d, InKelvin(d'))
  {
    if Mired(d) {
      assert d'[ColorTemp] == d[ColorTemp];
      var x := Clamp(Value(d[ColorTemp]));
      KelvinIsClose(x);
      RoundIsNear(MILLION / x);
    }
  }

  lemma ReadsColour(d: Fields, d': Fields)
    requires SameColours(d, d')
    ensures ReadColour(d, WithMireds(InKelvin(d')))
  {
    StoresColour(d, d');
    var e := InKelvin(d');
    var seen := WithMireds(e);
    if Mired(d) {
      assert seen - {ColorTemp} == e;
      FractionalMiredIsClose(Value(d[ColorTemp]));
      if d[ColorTemp].Int? { MiredRoundTrip(d[ColorTemp].n); }
    } else if ColorTempKelvin in d && Positive(d[ColorTempKelvin]) {
      RoundIsNear(MILLION / Value(d[ColorTempKelvin]));
    }
  }

  // -- post, then get -----------------------------------------------------------------------

  /** A plural key's singular name, unless that is taken. */
  function NewName(config: Config, k: Key): Key {
    if k == Triggers && Trigger !in config then Trigger
    else if k == Conditions && Condition !in config then Condition
    else if k == Actions && Action !in config then Action
    else k
  }

  predicate Actionable(k: Key) { k == Action || k == Actions }

  /** At this place of an action list, what is posted, stored and read. */
  ghost predicate SamePlace(posted: Tree, stored: Tree, read: Tree, path: Path) {
    var p, s, r := Look(posted, path), Look(stored, path), Look(read, path);
    && FaceOf(s) == FaceOf(p) && FaceOf(r) == FaceOf(p)
    && (p.Some? && CallsLight(p.value) ==>
          && CallsLight(s.value) && CallsLight(r.value)
          && StoredColour(p.value.fields[Data].fields, s.value.fields[Data].fields)
          && ReadColour(p.value.fields[Data].fields, r.value.fields[Data].fields))
  }

  lemma PlacesKept(t: Tree, path: Path)
    requires Clear(t, path)
    ensures SamePlace(t, MapLights(ToKelvin, t), MapLights(Then(ToKelvin, AddMireds), t), path)
  {
    var both := Then(ToKelvin, AddMireds);
    PathKept(ToKelvin, t, path);
    PathKept(both, t, path);
    var p := Look(t, path);
    if p.Some? && CallsLight(p.value) {
      var d := ColourAt(ToKelvin, t, path);
      var e := ColourAt(both, t, path);
      StoresColour(p.value.fields[Data].fields, d);
      ReadsColour(p.value.fields[Data].fields, e);
      hide MapLights, Look, CallsLight, SameColours, StoredColour, ReadColour, InKelvin, WithMireds;
    }
  }

  /**
   Post, then get, place by place. Outside the action list every key's value is
   stored and read back under its new name; inside it every place shows what was
   posted, and each light call, however deep, has its colour stored in kelvin and
   read back in mireds. Beside them there are the id and the flag, and nothing else.
   */
  lemma EditKeepsEveryPlace(items: seq<Config>, config: Config, key: ConfigKey, flag: bool)
    ensures var stored, read := Found(Posted(items, config, key), key), Got(Posted(items, config, key), key, flag);
      && stored.Some? && read.Some?
      && var s, r := stored.value, read.value;
         && s.Keys == config.Keys - {EnergyFlag} + {Id} && s[Id] == Text(key)
         && r.Keys == (set k | k in config :: NewName(config, k)) + {Id, EnergyFlag} && r[Id] == Text(key) && r[EnergyFlag] == Bool(flag)
         && forall k :: k in config && k != Id && k != EnergyFlag ==> KeyKept(config[k], s[k], r[NewName(config, k)], k)
  {
    PostThenGet(items, config, key, flag);
    StoredKeys(config, key);
    ReadKeys(config, key, flag);
    hide MapLights, MapActions, Singular, Saved, Found, Posted, Got, KeyKept, NewName, Actionable;
    forall k | k in config && k != Id && k != EnergyFlag
      ensures KeyKept(config[k], Saved(config, key)[k], ReadBack(config, key, flag)[NewName(config, k)], k)
    {
      KeyIsKept(config[k], k);
    }
  }

  function ReadBack(config: Config, key: ConfigKey, flag: bool): Config {
    MapActions(Then(ToKelvin, AddMireds), Singular(config))[Id := Text(key)][EnergyFlag := Bool(flag)]
  }

  ghost predicate KeyKept(posted: Tree, stored: Tree, read: Tree, k: Key) {
    if Actionable(k) then forall path :: Clear(posted, path) ==> SamePlace(posted, stored, read, path)
    else stored == posted && read == posted
  }

  lemma KeyIsKept(t: Tree, k: Key)
    ensures if Actionable(k) then KeyKept(t, MapLights(ToKelvin, t), MapLights(Then(ToKelvin, AddMireds), t), k) else KeyKept(t, t, t, k)
  {
    forall path | Clear(t, path) ensures SamePlace(t, MapLights(ToKelvin, t), MapLights(Then(ToKelvin, AddMireds), t), path) { PlacesKept(t, path); }
  }

  lemma NameKeeps(config: Config, k: Key)
    requires k in config && k != Id && k != EnergyFlag
    ensures NewName(config, k) != Id && NewName(config, k) != EnergyFlag && (Actionable(NewName(config, k)) <==> Actionable(k))
  {}

  lemma SameNames(config: Config, k: Key)
    ensures NewName(config, k) == Renamed(config, k)
  {}

  lemma SingularNames(config: Config)
    ensures Singular(config).Keys == set k | k in config :: NewName(config, k)
    ensures forall k :: k in config ==> NewName(config, k) in Singular(config) && Singular(config)[NewName(config, k)] == config[k]
  {
    SingularMoves(config);
    forall k: Key ensures NewName(config, k) == Renamed(config, k) { SameNames(config, k); }
    hide Singular, Renamed, NewName;
    forall x | x in Singular(config) ensures exists k :: k in config && NewName(config, k) == x {
      var k :| k in config && Renamed(config, k) == x;
    }
  }

  lemma StoredKeys(config: Config, key: ConfigKey)
    ensures var s := Saved(config, key);
      && s.Keys == config.Keys - {EnergyFlag} + {Id} && s[Id] == Text(key)
      && forall k :: k in config && k != Id && k != EnergyFlag ==> s[k] == if Actionable(k) then MapLights(ToKelvin, config[k]) else config[k]
  {
    hide MapLights;
  }

  lemma ReadKeys(config: Config, key: ConfigKey, flag: bool)
    ensures var r := ReadBack(config, key, flag);
      && r.Keys == (set k | k in config :: NewName(config, k)) + {Id, EnergyFlag} && r[Id] == Text(key) && r[EnergyFlag] == Bool(flag)
      && forall k :: k in config && k != Id && k != EnergyFlag ==>
           && NewName(config, k) in r
           && r[NewName(config, k)] == if Actionable(k) then MapLights(Then(ToKelvin, AddMireds), config[k]) else config[k]
  {
    SingularNames(config);
    hide MapLights, Singular;
    forall k | k in config && k != Id && k != EnergyFlag
      ensures NewName(config, k) != Id && NewName(config, k) != EnergyFlag && (Actionable(NewName(config, k)) <==> Actionable(k))
    {
      NameKeeps(config, k);
    }
    hide NewName;
  }
}
