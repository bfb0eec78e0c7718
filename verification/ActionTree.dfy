/**
 Automation action trees of any depth, and the two conversions of a light's
 colour temperature that run over them: mireds to kelvin when an automation is
 saved, kelvin with mireds beside it when the editor reads one.
 */
module ActionTree {

  /** The field names the code looks at, and all others. */
  datatype Key =
    | Trigger | Triggers | Condition | Conditions | Action | Actions
    | Service | Data | ColorTemp | ColorTempKelvin
    | Id | EnergyFlag
    | Other(name: string)

  datatype Tree =
    | Null
    | Bool(b: bool)
    | Int(n: int)
    | Float(r: real)
    | Text(s: string)
    | List(items: seq<Tree>)
    | Node(fields: map<Key, Tree>)

  type Fields = map<Key, Tree>

  // -- rounding ------------------------------------------------------------------------

  /** Python's round: half to even. */
  function Round(x: real): int {
    var low := x.Floor;
    var rest := x - low as real;
    if rest < 0.5 || (rest == 0.5 && low % 2 == 0) then low else low + 1
  }

  lemma RoundIsNear(x: real)
    ensures -0.5 <= x - Round(x) as real <= 0.5
  {}

  lemma RoundIsNearest(x: real, n: int)
    requires -0.5 < x - n as real < 0.5
    ensures Round(x) == n
  {}

  const MILLION := 1000000.0
  const MIRED_MIN := 100.0
  const MIRED_MAX := 1000.0

  function Clamp(x: real): real { if x < MIRED_MIN then MIRED_MIN else if x > MIRED_MAX then MIRED_MAX else x }

  function ClampInt(n: int): int { if n < 100 then 100 else if n > 1000 then 1000 else n }

  /** _mired_to_kelvin for a number above zero. */
  function KelvinOf(mired: real): int
    requires mired > 0.0
  {
    Round(MILLION / Clamp(mired))
  }

  /** light_data_with_mireds for a kelvin above zero. */
  function MiredOf(kelvin: real): int
    requires kelvin > 0.0
  {
    ClampInt(Round(MILLION / kelvin))
  }

  /** Any clamped mired value comes to at least 1000 kelvin, out by less than half a mired the other way. */
  lemma KelvinIsClose(x: real)
    requires MIRED_MIN <= x <= MIRED_MAX
    ensures var k := Round(MILLION / x) as real;
      k >= 1000.0 && -0.5 <= MILLION / k - x <= 0.5 && (x < MIRED_MAX ==> -0.5 < MILLION / k - x < 0.5)
  {
    var q := MILLION / x;
    var k := Round(q) as real;
    RoundIsNear(q);
    assert q * x == MILLION;
    QuotientAtLeast(x, q);
    AtLeastThousand(q);
    assert k * (MILLION / k) == MILLION;
    DivideGap(x, q, k, MILLION / k);
  }

  lemma QuotientAtLeast(x: real, q: real)
    requires 0.0 < x <= 1000.0 && q * x == MILLION
    ensures q >= 1000.0
  {
    assert q < 1000.0 ==> q * x < 1000.0 * x;
  }

  lemma AtLeastThousand(q: real)
    requires q >= 1000.0
    ensures Round(q) >= 1000
  {}

  /** x and y, with q*x == k*y, differ by (q - k) * x / k. */
  lemma DivideGap(x: real, q: real, k: real, y: real)
    requires 0.0 < x <= 1000.0 && k >= 1000.0 && -0.5 <= q - k <= 0.5 && q * x == MILLION && k * y == MILLION
    ensures -0.5 <= y - x <= 0.5
    ensures x < 1000.0 ==> -0.5 < y - x < 0.5
  {
    assert k * (y - x) == (q - k) * x;
    Bounds(q - k, x);
    BoundBack(k, y - x, 0.5 * x);
  }

  lemma Bounds(d: real, x: real)
    requires -0.5 <= d <= 0.5 && x > 0.0
    ensures -0.5 * x <= d * x <= 0.5 * x
  {}

  lemma BoundBack(k: real, gap: real, half: real)
    requires k >= 1000.0 && 0.0 < half <= 500.0 && -half <= k * gap <= half
    ensures -0.5 <= gap <= 0.5
    ensures half < 500.0 ==> -0.5 < gap < 0.5
  {
    assert gap > 0.5 ==> k * gap > k * 0.5;
    assert gap < -0.5 ==> k * gap < k * -0.5;
  }

  /** The two roundings cancel: an integer mired value saved as kelvin reads back as itself, clamped. */
  lemma MiredRoundTrip(m: int)
    requires m > 0
    ensures KelvinOf(m as real) >= 1000 && MiredOf(KelvinOf(m as real) as real) == ClampInt(m)
  {
    var x := Clamp(m as real);
    assert x == ClampInt(m) as real;
    KelvinIsClose(x);
    if x < MIRED_MAX {
      RoundIsNearest(MILLION / (KelvinOf(m as real) as real), ClampInt(m));
    }
  }

  /** A fractional one reads back within one mired. */
  lemma FractionalMiredIsClose(m: real)
    requires m > 0.0
    ensures var back := MiredOf(KelvinOf(m) as real) as real; -1.0 <= back - Clamp(m) <= 1.0
  {
    KelvinIsClose(Clamp(m));
    RoundIsNear(MILLION / (KelvinOf(m) as real));
  }

  // -- one light's data ---------------------------------------------------------------------

  predicate IsNumber(t: Tree) { t.Int? || t.Float? }

  function Value(t: Tree): real
    requires IsNumber(t)
  {
    if t.Int? then t.n as real else t.r
  }

  predicate Positive(t: Tree) { IsNumber(t) && Value(t) > 0.0 }

  /** _in_kelvin: kelvin wins when both are given; a value that is no mired number is left for Home Assistant. */
  function InKelvin(d: Fields): Fields {
    if ColorTemp !in d then d
    else if ColorTempKelvin in d then d - {ColorTemp}
    else if !Positive(d[ColorTemp]) then d
    else (d - {ColorTemp})[ColorTempKelvin := Int(KelvinOf(Value(d[ColorTemp])))]
  }

  /** light_data_with_mireds. */
  function WithMireds(d: Fields): Fields {
    if ColorTemp in d || ColorTempKelvin !in d || !Positive(d[ColorTempKelvin]) then d
    else d[ColorTemp := Int(MiredOf(Value(d[ColorTempKelvin])))]
  }

  datatype Conversion = ToKelvin | AddMireds | Then(first: Conversion, second: Conversion)

  function Convert(c: Conversion, d: Fields): Fields {
    match c
    case ToKelvin => InKelvin(d)
    case AddMireds => WithMireds(d)
    case Then(a, b) => Convert(b, Convert(a, d))
  }

  /** What the editor reads of the colour it saved: the clamped mired value with its kelvin. */
  lemma {:induction false} EditorSees(d: Fields)
    ensures var seen := Convert(Then(ToKelvin, AddMireds), d);
      && (forall k :: k != ColorTemp && k != ColorTempKelvin ==> (k in seen <==> k in d) && (k in d ==> seen[k] == d[k]))
      && (ColorTemp in d && ColorTempKelvin !in d && d[ColorTemp].Int? && d[ColorTemp].n > 0 ==>
            ColorTempKelvin in seen && ColorTemp in seen && seen[ColorTemp] == Int(ClampInt(d[ColorTemp].n)))
      && (ColorTempKelvin in d ==> ColorTempKelvin in seen && seen[ColorTempKelvin] == d[ColorTempKelvin])
      && (ColorTemp in d && ColorTempKelvin !in d && !Positive(d[ColorTemp]) ==> seen == d)
  {
    if ColorTemp in d && ColorTempKelvin !in d && d[ColorTemp].Int? && d[ColorTemp].n > 0 {
      MiredRoundTrip(d[ColorTemp].n);
    }
  }

  // -- the tree ----------------------------------------------------------------------------

  predicate LightCall(t: Tree) { t.Text? && "light." <= t.s }

  /** The action under its new name, or else its old one. */
  predicate IsLight(m: Fields) {
    Data in m && m[Data].Node? && (if Action in m then LightCall(m[Action]) else Service in m && LightCall(m[Service]))
  }

  function Converted(c: Conversion, m: Fields): Fields {
    if IsLight(m) then m[Data := Node(Convert(c, m[Data].fields))] else m
  }

  /** _map_light_data. */
  function MapLights(c: Conversion, t: Tree): Tree
    decreases t
  {
    match t
    case List(items) => List(seq(|items|, i requires 0 <= i < |items| => MapLights(c, items[i])))
    case Node(fields) => Node(Converted(c, map k | k in fields :: MapLights(c, fields[k])))
    case _ => t
  }

  function Kids(c: Conversion, m: Fields): Fields { map k | k in m :: MapLights(c, m[k]) }

  lemma {:induction false} MapKeepsShape(c: Conversion, t: Tree)
    ensures !t.Node? && !t.List? ==> MapLights(c, t) == t
    ensures MapLights(c, t).Node? <==> t.Node?
    ensures MapLights(c, t).List? <==> t.List?
    ensures t.Node? ==> MapLights(c, t) == Node(Converted(c, Kids(c, t.fields)))
  {}

  lemma {:induction false} KidsKeepLight(c: Conversion, m: Fields)
    ensures IsLight(Kids(c, m)) <==> IsLight(m)
  {}

  /** A conversion looks only at numbers, which the walk leaves alone. */
  lemma {:induction false} ConvertCommutes(a: Conversion, b: Conversion, d: Fields)
    ensures Kids(b, Convert(a, d)) == Convert(a, Kids(b, d))
    decreases a
  {
    match a
    case ToKelvin => if ColorTemp in d { MapKeepsShape(b, d[ColorTemp]); }
    case AddMireds => if ColorTempKelvin in d { MapKeepsShape(b, d[ColorTempKelvin]); }
    case Then(x, y) =>
      ConvertCommutes(x, b, d);
      ConvertCommutes(y, b, Convert(x, d));
  }

  lemma {:induction false} ConvertMissesData(a: Conversion, d: Fields)
    ensures forall k: Key :: k != ColorTemp && k != ColorTempKelvin ==>
      (k in Convert(a, d) <==> k in d) && (k in d ==> Convert(a, d)[k] == d[k])
    decreases a
  {
    match a
    case Then(x, y) =>
      ConvertMissesData(x, d);
      ConvertMissesData(y, Convert(x, d));
    case _ =>
  }

  lemma {:induction false} ConvertThenData(a: Conversion, d: Fields, t: Tree)
    ensures Convert(a, d[Data := t]) == Convert(a, d)[Data := t]
    decreases a
  {
    match a
    case Then(x, y) =>
      ConvertThenData(x, d, t);
      ConvertThenData(y, Convert(x, d), t);
    case _ =>
  }

  /** Converting a dictionary and walking into it can be swapped. */
  lemma {:induction false} WalkIntoConverted(a: Conversion, b: Conversion, d: Fields)
    ensures MapLights(b, Node(Convert(a, d))) == Node(Convert(a, MapLights(b, Node(d)).fields))
  {
    MapKeepsShape(b, Node(Convert(a, d)));
    MapKeepsShape(b, Node(d));
    ConvertCommutes(a, b, d);
    var kids := Kids(b, d);
    ConvertMissesData(a, kids);
    if IsLight(kids) {
      ConvertThenData(a, kids, Node(Convert(b, kids[Data].fields)));
    }
  }

  /** Two walks are one walk with the two conversions in a row, at any depth. */
  lemma {:induction false} WalksFuse(a: Conversion, b: Conversion, t: Tree)
    ensures MapLights(b, MapLights(a, t)) == MapLights(Then(a, b), t)
    decreases t
  {
    match t
    case List(items) =>
      forall i | 0 <= i < |items| ensures MapLights(b, MapLights(a, items[i])) == MapLights(Then(a, b), items[i]) {
        WalksFuse(a, b, items[i]);
      }
      assert MapLights(b, MapLights(a, t)).items == MapLights(Then(a, b), t).items;
    case Node(fields) =>
      forall k | k in fields ensures MapLights(b, MapLights(a, fields[k])) == MapLights(Then(a, b), fields[k]) {
        WalksFuse(a, b, fields[k]);
      }
      NodesFuse(a, b, fields);
    case _ =>
  }

  lemma {:induction false} NodesFuse(a: Conversion, b: Conversion, m: Fields)
    requires forall k :: k in m ==> MapLights(b, MapLights(a, m[k])) == MapLights(Then(a, b), m[k])
    ensures MapLights(b, MapLights(a, Node(m))) == MapLights(Then(a, b), Node(m))
  {
    hide Convert, MapLights;
    var once := Kids(a, m);
    MapKeepsShape(a, Node(m));
    MapKeepsShape(Then(a, b), Node(m));
    KidsKeepLight(a, m);
    KidsKeepLight(Then(a, b), m);
    var inner := Converted(a, once);
    MapKeepsShape(b, Node(inner));
    KidsKeepLight(b, inner);
    if IsLight(m) {
      LightsFuse(a, b, m, once, inner);
    } else {
      assert Kids(b, once) == Kids(Then(a, b), m);
    }
  }

  lemma LightsFuse(a: Conversion, b: Conversion, m: Fields, once: Fields, inner: Fields)
    requires IsLight(m) && once == Kids(a, m) && IsLight(once) && inner == Converted(a, once)
    requires forall k :: k in m ==> MapLights(b, MapLights(a, m[k])) == MapLights(Then(a, b), m[k])
    ensures IsLight(inner) && Converted(b, Kids(b, inner)) == Converted(Then(a, b), Kids(Then(a, b), m))
  {
    hide MapLights;
    var d := once[Data].fields;
    WalkIntoConverted(a, b, d);
    MapKeepsShape(b, Node(d));
    KidsKeepLight(b, inner);
    KidsKeepLight(Then(a, b), m);
    assert once[Data] == Node(d) == MapLights(a, m[Data]);
    assert inner[Data] == Node(Convert(a, d));
    var seen := MapLights(Then(a, b), m[Data]);
    assert MapLights(b, Node(d)) == seen;
    assert Kids(b, inner)[Data] == Node(Convert(a, seen.fields));
  }

  ghost predicate SameConversion(a: Conversion, b: Conversion) { forall d: Fields :: Convert(a, d) == Convert(b, d) }

  lemma {:induction false} SameConversionSameWalk(a: Conversion, b: Conversion, t: Tree)
    requires SameConversion(a, b)
    ensures MapLights(a, t) == MapLights(b, t)
    decreases t
  {
    match t
    case List(items) =>
      forall i | 0 <= i < |items| ensures MapLights(a, items[i]) == MapLights(b, items[i]) { SameConversionSameWalk(a, b, items[i]); }
      assert MapLights(a, t).items == MapLights(b, t).items;
    case Node(fields) =>
      forall k | k in fields ensures MapLights(a, fields[k]) == MapLights(b, fields[k]) { SameConversionSameWalk(a, b, fields[k]); }
      assert Kids(a, fields) == Kids(b, fields);
      MapKeepsShape(a, t);
      MapKeepsShape(b, t);
    case _ =>
  }

  /** Saving what was read, or what was already saved, stores the same as saving the original. */
  lemma {:induction false} SavingAbsorbs()
    ensures SameConversion(Then(AddMireds, ToKelvin), ToKelvin)
    ensures SameConversion(Then(ToKelvin, ToKelvin), ToKelvin)
  {
    forall d: Fields ensures Convert(Then(AddMireds, ToKelvin), d) == Convert(ToKelvin, d) {}
    forall d: Fields ensures Convert(Then(ToKelvin, ToKelvin), d) == Convert(ToKelvin, d) {}
  }

  /** Save, read, save again: the tree that was stored. */
  lemma {:induction false} TreeSavesBack(t: Tree)
    ensures MapLights(ToKelvin, MapLights(AddMireds, MapLights(ToKelvin, t))) == MapLights(ToKelvin, t)
  {
    var stored := MapLights(ToKelvin, t);
    SavingAbsorbs();
    WalksFuse(AddMireds, ToKelvin, stored);
    SameConversionSameWalk(Then(AddMireds, ToKelvin), ToKelvin, stored);
    WalksFuse(ToKelvin, ToKelvin, t);
    SameConversionSameWalk(Then(ToKelvin, ToKelvin), ToKelvin, t);
  }
}
