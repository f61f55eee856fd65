/** The layer record of the editor and the pure helpers that build, edit and describe one layer. */
module Layers {
  import opened Opt
  import opened Decimal

  /** A number the editor stores: what `parseFloat` can produce (infinities are not modelled). */
  datatype Number = Finite(value: real) | NaN

  /** One visual element of the wallpaper. `layerType` is the source's `type` field. */
  datatype Layer = Layer(
    id: string,
    name: string,
    layerType: string,
    x: Number,
    y: Number,
    width: Number,
    height: Number,
    backgroundColor: string,
    opacity: Number,
    animation: string,
    duration: Number,
    zIndex: int,
    text: Option<string>)

  const BackgroundId: string := "background"

  /** The full-canvas gradient layer every project starts with. */
  const Background: Layer := Layer(
    BackgroundId, "Background", "shape",
    Finite(0.0), Finite(0.0), Finite(375.0), Finite(812.0),
    "linear-gradient(135deg, #667eea 0%, #764ba2 100%)",
    Finite(1.0), "none", Finite(2.0), 0, None)

  /** The fixed colours a new layer is filled with. */
  const Palette: seq<string> := [
    "#FF6B6B", "#4ECDC4", "#45B7D1", "#96CEB4", "#FFEAA7",
    "#DDA0DD", "#98D8C8", "#F7DC6F", "#BB8FCE", "#85C1E9"]

  /** `colors[Math.floor(Math.random() * colors.length)]`, with the random draw `r` passed in. */
  function RandomColor(r: real): (c: string)
    requires 0.0 <= r < 1.0
    ensures c in Palette
  {
    var k := (r * (|Palette| as real)).Floor;
    assert 0 <= k < |Palette|;
    Palette[k]
  }

  /** `layer-${n}`: the fixed prefix, then the counter's digits. */
  function LayerId(n: int): (id: string)
    ensures |id| > 6 && id[..6] == "layer-" && id[6..] == IntToString(n)
  {
    "layer-" + IntToString(n)
  }

  /** `Layer ${n}`: the display name, which is not an id. */
  function LayerName(n: int): (name: string)
    ensures |name| > 6 && name[..6] == "Layer " && name[6..] == IntToString(n)
    ensures name != LayerId(n)
  {
    var name := "Layer " + IntToString(n);
    assert name[0] == 'L' && LayerId(n)[0] == 'l';
    name
  }

  /** Generated ids for different counter values are different. */
  lemma LayerIdInjective(a: int, b: int)
    requires LayerId(a) == LayerId(b)
    ensures a == b
  {
    assert LayerId(a)[6..] == IntToString(a);
    assert LayerId(b)[6..] == IntToString(b);
    IntToStringInjective(a, b);
  }

  /** No generated id is the background's id. */
  lemma LayerIdNotBackground(n: int)
    ensures LayerId(n) != BackgroundId
  {
    assert LayerId(n)[0] == 'l' != 'b' == BackgroundId[0];
  }

  /** The random offset `Math.floor(r * span) + base` for a draw `r` in [0, 1). */
  function RandomOffset(r: real, span: nat, base: int): (v: int)
    requires 0.0 <= r < 1.0 && 0 < span
    ensures base <= v < base + span
  {
    (r * (span as real)).Floor + base
  }

  /** The layer `addLayer` creates for counter value `counter` when `count` layers exist. */
  function NewLayer(counter: int, count: nat, rx: real, ry: real, rc: real): (l: Layer)
    requires 0.0 <= rx < 1.0 && 0.0 <= ry < 1.0 && 0.0 <= rc < 1.0
    ensures l.x.Finite? && 87.0 <= l.x.value <= 286.0 && l.x.value == l.x.value.Floor as real
    ensures l.y.Finite? && 156.0 <= l.y.value <= 655.0 && l.y.value == l.y.value.Floor as real
    ensures l.backgroundColor in Palette
    ensures l.id != BackgroundId
  {
    LayerIdNotBackground(counter);
    Layer(LayerId(counter), LayerName(counter), "shape",
          Finite(RandomOffset(rx, 200, 87) as real), Finite(RandomOffset(ry, 500, 156) as real),
          Finite(100.0), Finite(100.0), RandomColor(rc), Finite(0.7), "none", Finite(2.0),
          count, None)
  }

  /** The fields the properties panel edits through `updateProperty`. */
  datatype Property = X | Y | Width | Height | Opacity | BackgroundColor

  /** The value of one editable field: the colour is a string, the others numbers. */
  datatype Value = Color(color: string) | Num(num: Number)

  function Get(l: Layer, p: Property): Value {
    match p
    case X => Num(l.x)
    case Y => Num(l.y)
    case Width => Num(l.width)
    case Height => Num(l.height)
    case Opacity => Num(l.opacity)
    case BackgroundColor => Color(l.backgroundColor)
  }

  /** What `updateProperty` writes: the raw text for the colour, `parseFloat` of it otherwise. */
  function WrittenValue(p: Property, value: string, parse: string -> Number): Value {
    if p == BackgroundColor then Color(value) else Num(parse(value))
  }

  /** `layer[p] = value`: the named field takes the written value and every other field is kept. */
  function SetProperty(l: Layer, p: Property, value: string, parse: string -> Number): (r: Layer)
    ensures Get(r, p) == WrittenValue(p, value, parse)
    ensures forall q :: q != p ==> Get(r, q) == Get(l, q)
    ensures r.id == l.id && r.name == l.name && r.layerType == l.layerType
    ensures r.animation == l.animation && r.duration == l.duration
    ensures r.zIndex == l.zIndex && r.text == l.text
  {
    match p
    case X => l.(x := parse(value))
    case Y => l.(y := parse(value))
    case Width => l.(width := parse(value))
    case Height => l.(height := parse(value))
    case Opacity => l.(opacity := parse(value))
    case BackgroundColor => l.(backgroundColor := value)
  }

  const FallbackIcon: string := "\U{26AA}"

  /** The icon shown in the layer list: one per known type, a white circle for any other. */
  function LayerIcon(kind: string): (icon: string)
    ensures icon == FallbackIcon <==> kind !in {"shape", "text", "image", "background"}
  {
    if kind == "shape" then "\U{1F7E1}"
    else if kind == "text" then "\U{1F4DD}"
    else if kind == "image" then "\U{1F5BC}\U{FE0F}"
    else if kind == "background" then "\U{1F3A8}"
    else FallbackIcon
  }

  predicate StartsWithHash(s: string) {
    0 < |s| && s[0] == '#'
  }

  /** The value given to the colour input: the colour itself when it is a `#` colour, white otherwise. */
  function HexFromColor(color: string): (hex: string)
    ensures StartsWithHash(hex)
    ensures hex == color <==> StartsWithHash(color)
  {
    if StartsWithHash(color) then color else "#ffffff"
  }

  /** `layers.find(l => l.id === id)`, as the index of the first layer with that id. */
  function FindLayer(layers: seq<Layer>, id: string): (r: Option<nat>)
    ensures r.Some? ==> r.value < |layers| && layers[r.value].id == id
    ensures r.Some? ==> forall j :: 0 <= j < r.value ==> layers[j].id != id
    ensures r.None? ==> forall j :: 0 <= j < |layers| ==> layers[j].id != id
  {
    if layers == [] then None
    else if layers[0].id == id then Some(0)
    else match FindLayer(layers[1..], id)
      case None => None
      case Some(k) => Some(k + 1)
  }
}
