/**
 * The canvas renderer as a projection: the layers, sorted by stack order, become a canvas fill
 * (from the background layer) and a list of positioned boxes (from every other layer).
 */
module Canvas {
  import opened Opt
  import opened Layers

  /** A box's CSS animation: `name` repeated every `seconds`, forever. */
  datatype AnimationStyle = AnimationStyle(name: string, seconds: Number) {
    /** The `style.animation` text, given how the host prints a number. */
    function Css(show: Number -> string): string {
      name + " " + show(seconds) + "s infinite"
    }
  }

  /** One positioned element of the canvas, keyed by its layer's id. */
  datatype Box = Box(
    id: string,
    x: Number,
    y: Number,
    width: Number,
    height: Number,
    fill: string,
    opacity: Number,
    zIndex: int,
    animation: Option<AnimationStyle>,
    text: Option<string>)

  /** What one render produces: the canvas fill it sets (if any) and the boxes in paint order. */
  datatype Scene = Scene(fill: Option<string>, boxes: seq<Box>)

  const SampleText: string := "Sample Text"

  /** The box drawn for a non-background layer. */
  function ToBox(l: Layer): (b: Box)
    ensures b.id == l.id && b.zIndex == l.zIndex && b.fill == l.backgroundColor
    ensures b.x == l.x && b.y == l.y && b.width == l.width && b.height == l.height
    ensures b.opacity == l.opacity
    ensures b.animation.Some? <==> l.animation != "none"
    ensures b.animation.Some? ==> b.animation.value == AnimationStyle(l.animation, l.duration)
    ensures b.text.Some? <==> l.layerType == "text"
    ensures b.text.Some? ==> b.text.value != ""
    ensures b.text.Some? && l.text.Some? && l.text.value != "" ==> b.text.value == l.text.value
    ensures l.layerType == "text" && (l.text.None? || l.text.value == "") ==> b.text == Some(SampleText)
  {
    Box(l.id, l.x, l.y, l.width, l.height, l.backgroundColor, l.opacity, l.zIndex,
        if l.animation != "none" then Some(AnimationStyle(l.animation, l.duration)) else None,
        if l.layerType != "text" then None
        else if l.text.Some? && l.text.value != "" then l.text
        else Some(SampleText))
  }

  // ----- stable sort by stack order -----

  predicate SortedByZ(s: seq<Layer>) {
    forall i, j :: 0 <= i < j < |s| ==> s[i].zIndex <= s[j].zIndex
  }

  /** Inserts `x` before the first element whose stack order is not below its own. */
  function Insert(x: Layer, s: seq<Layer>): (r: seq<Layer>)
    ensures multiset(r) == multiset(s) + multiset{x}
  {
    if s == [] || x.zIndex <= s[0].zIndex then [x] + s
    else
      assert s == [s[0]] + s[1..];
      [s[0]] + Insert(x, s[1..])
  }

  lemma {:induction false} InsertAbove(x: Layer, s: seq<Layer>, m: int)
    requires m <= x.zIndex && forall i :: 0 <= i < |s| ==> m <= s[i].zIndex
    ensures forall i :: 0 <= i < |Insert(x, s)| ==> m <= Insert(x, s)[i].zIndex
  {
    if s != [] && s[0].zIndex < x.zIndex {
      InsertAbove(x, s[1..], m);
    }
  }

  lemma {:induction false} InsertSorted(x: Layer, s: seq<Layer>)
    requires SortedByZ(s)
    ensures SortedByZ(Insert(x, s))
  {
    if s != [] && s[0].zIndex < x.zIndex {
      InsertSorted(x, s[1..]);
      InsertAbove(x, s[1..], s[0].zIndex);
    }
  }

  /** `[...layers].sort((a, b) => a.zIndex - b.zIndex)`: a stable insertion sort. */
  function SortByZ(s: seq<Layer>): (r: seq<Layer>)
    ensures SortedByZ(r)
    ensures multiset(r) == multiset(s)
    ensures |r| == |s|
  {
    if s == [] then []
    else
      assert s == [s[0]] + s[1..];
      InsertSorted(s[0], SortByZ(s[1..]));
      Insert(s[0], SortByZ(s[1..]))
  }

  /** The layers with stack order `k`, in their original order. */
  function FilterZ(s: seq<Layer>, k: int): seq<Layer> {
    if s == [] then []
    else (if s[0].zIndex == k then [s[0]] else []) + FilterZ(s[1..], k)
  }

  lemma {:induction false} FilterZAppend(a: seq<Layer>, b: seq<Layer>, k: int)
    ensures FilterZ(a + b, k) == FilterZ(a, k) + FilterZ(b, k)
  {
    if a == [] {
      assert a + b == b;
    } else {
      var head := if a[0].zIndex == k then [a[0]] else [];
      assert (a + b)[0] == a[0];
      assert (a + b)[1..] == a[1..] + b;
      assert FilterZ(a + b, k) == head + FilterZ(a[1..] + b, k);
      FilterZAppend(a[1..], b, k);
      assert FilterZ(a, k) == head + FilterZ(a[1..], k);
    }
  }

  lemma {:induction false} InsertFilterZ(x: Layer, s: seq<Layer>, k: int)
    ensures FilterZ(Insert(x, s), k) == (if x.zIndex == k then [x] else []) + FilterZ(s, k)
  {
    if s == [] || x.zIndex <= s[0].zIndex {
      assert ([x] + s)[1..] == s;
    } else {
      InsertFilterZ(x, s[1..], k);
      assert ([s[0]] + Insert(x, s[1..]))[1..] == Insert(x, s[1..]);
    }
  }

  /** Sorting keeps layers of equal stack order in array order (the sort is stable). */
  lemma {:induction false} SortStable(s: seq<Layer>, k: int)
    ensures FilterZ(SortByZ(s), k) == FilterZ(s, k)
  {
    if s != [] {
      SortStable(s[1..], k);
      InsertFilterZ(s[0], SortByZ(s[1..]), k);
    }
  }

  /** Layers already in stack order are left as they are. */
  lemma {:induction false} SortOfSorted(s: seq<Layer>)
    requires SortedByZ(s)
    ensures SortByZ(s) == s
  {
    if s != [] {
      SortOfSorted(s[1..]);
      assert s == [s[0]] + s[1..];
    }
  }

  // ----- the projection -----

  /** The boxes of the non-background layers of `s`, in the order of `s`. */
  function BoxesOf(s: seq<Layer>): (bs: seq<Box>)
    ensures forall i :: 0 <= i < |bs| ==> bs[i].id != BackgroundId
    ensures |bs| <= |s|
  {
    if s == [] then []
    else
      var last := s[|s| - 1];
      BoxesOf(s[..|s| - 1]) + (if last.id == BackgroundId then [] else [ToBox(last)])
  }

  /** The canvas fill a render sets: the colour of the last background layer painted, if any. */
  function FillOf(s: seq<Layer>): (f: Option<string>)
    ensures f.Some? ==> exists i :: 0 <= i < |s| && s[i].id == BackgroundId && s[i].backgroundColor == f.value
    ensures f.None? ==> forall i :: 0 <= i < |s| ==> s[i].id != BackgroundId
  {
    if s == [] then None
    else
      var last := s[|s| - 1];
      if last.id == BackgroundId then Some(last.backgroundColor)
      else
        var f := FillOf(s[..|s| - 1]);
        assert forall i :: 0 <= i < |s| - 1 ==> s[..|s| - 1][i] == s[i];
        f
  }

  /** `renderCanvas` as a value: sort a copy by stack order, then paint. */
  function Render(layers: seq<Layer>): (scene: Scene)
    ensures |scene.boxes| <= |layers|
    ensures forall i :: 0 <= i < |scene.boxes| ==> scene.boxes[i].id != BackgroundId
  {
    var sorted := SortByZ(layers);
    Scene(FillOf(sorted), BoxesOf(sorted))
  }

  /** The canvas fill is set exactly when some layer is the background, to a background's colour. */
  lemma RenderFill(layers: seq<Layer>)
    ensures Render(layers).fill.Some? ==> exists i :: 0 <= i < |layers| && layers[i].id == BackgroundId
                                                      && layers[i].backgroundColor == Render(layers).fill.value
    ensures Render(layers).fill.None? ==> forall i :: 0 <= i < |layers| ==> layers[i].id != BackgroundId
  {
    var sorted := SortByZ(layers);
    var fill := FillOf(sorted);
    if fill.Some? {
      var w :| 0 <= w < |sorted| && sorted[w].id == BackgroundId && sorted[w].backgroundColor == fill.value;
      assert sorted[w] in multiset(layers);
    } else {
      forall i | 0 <= i < |layers| ensures layers[i].id != BackgroundId {
        assert layers[i] in multiset(sorted);
      }
    }
  }

  /** Painting one more layer extends the boxes or replaces the fill. */
  lemma PaintStep(s: seq<Layer>, i: nat)
    requires i < |s|
    ensures BoxesOf(s[..i + 1]) == BoxesOf(s[..i]) + (if s[i].id == BackgroundId then [] else [ToBox(s[i])])
    ensures FillOf(s[..i + 1]) == if s[i].id == BackgroundId then Some(s[i].backgroundColor) else FillOf(s[..i])
  {
    var done := s[..i + 1];
    assert done[..i] == s[..i] && done[i] == s[i];
  }

  /** The `forEach` over the sorted copy that paints the canvas. */
  method Paint(layers: seq<Layer>) returns (scene: Scene)
    ensures scene == Render(layers)
  {
    var sorted := SortByZ(layers);
    var fill: Option<string> := None;
    var boxes: seq<Box> := [];
    var i := 0;
    while i < |sorted|
      invariant 0 <= i <= |sorted|
      invariant fill == FillOf(sorted[..i])
      invariant boxes == BoxesOf(sorted[..i])
    {
      var layer := sorted[i];
      PaintStep(sorted, i);
      if layer.id == BackgroundId {
        fill := Some(layer.backgroundColor);
      } else {
        boxes := boxes + [ToBox(layer)];
      }
      i := i + 1;
    }
    assert sorted[..|sorted|] == sorted;
    scene := Scene(fill, boxes);
  }

  // ----- what a render shows -----

  function FilterBoxZ(bs: seq<Box>, k: int): seq<Box> {
    if bs == [] then []
    else (if bs[0].zIndex == k then [bs[0]] else []) + FilterBoxZ(bs[1..], k)
  }

  lemma {:induction false} FilterBoxZAppend(a: seq<Box>, b: seq<Box>, k: int)
    ensures FilterBoxZ(a + b, k) == FilterBoxZ(a, k) + FilterBoxZ(b, k)
  {
    if a == [] {
      assert a + b == b;
    } else {
      var head := if a[0].zIndex == k then [a[0]] else [];
      assert (a + b)[0] == a[0];
      assert (a + b)[1..] == a[1..] + b;
      assert FilterBoxZ(a + b, k) == head + FilterBoxZ(a[1..] + b, k);
      FilterBoxZAppend(a[1..], b, k);
      assert FilterBoxZ(a, k) == head + FilterBoxZ(a[1..], k);
    }
  }

  lemma {:induction false} BoxesOfAppend(a: seq<Layer>, b: seq<Layer>)
    ensures BoxesOf(a + b) == BoxesOf(a) + BoxesOf(b)
    decreases |b|
  {
    if b != [] {
      assert (a + b)[..|a + b| - 1] == a + b[..|b| - 1];
      assert (a + b)[|a + b| - 1] == b[|b| - 1];
      BoxesOfAppend(a, b[..|b| - 1]);
    } else {
      assert a + b == a;
    }
  }

  lemma BoxesOfOne(x: Layer)
    ensures BoxesOf([x]) == if x.id == BackgroundId then [] else [ToBox(x)]
  {
    assert [x][..0] == [];
  }

  /** Taking the boxes of stack order `k` commutes with taking the layers of stack order `k`. */
  lemma {:induction false} BoxesFilterCommute(s: seq<Layer>, k: int)
    ensures FilterBoxZ(BoxesOf(s), k) == BoxesOf(FilterZ(s, k))
  {
    if s != [] {
      var x := s[0];
      assert s == [x] + s[1..];
      BoxesOfAppend([x], s[1..]);
      FilterBoxZAppend(BoxesOf([x]), BoxesOf(s[1..]), k);
      BoxesFilterCommute(s[1..], k);
      var head := if x.zIndex == k then [x] else [];
      BoxesOfAppend(head, FilterZ(s[1..], k));
      BoxesOfOne(x);
      assert BoxesOf([]) == [];
      if x.id != BackgroundId {
        assert FilterBoxZ([ToBox(x)], k) == (if x.zIndex == k then [ToBox(x)] else []) + FilterBoxZ([], k);
      }
    }
  }

  lemma {:induction false} BoxesBelow(s: seq<Layer>, m: int)
    requires forall i :: 0 <= i < |s| ==> s[i].zIndex <= m
    ensures forall i :: 0 <= i < |BoxesOf(s)| ==> BoxesOf(s)[i].zIndex <= m
  {
    if s != [] {
      BoxesBelow(s[..|s| - 1], m);
    }
  }

  lemma {:induction false} BoxesOfSorted(s: seq<Layer>)
    requires SortedByZ(s)
    ensures forall i, j :: 0 <= i < j < |BoxesOf(s)| ==> BoxesOf(s)[i].zIndex <= BoxesOf(s)[j].zIndex
  {
    if s != [] {
      var p := s[..|s| - 1];
      BoxesOfSorted(p);
      BoxesBelow(p, s[|s| - 1].zIndex);
    }
  }

  /** The boxes come out in ascending stack order, and those sharing a stack order keep array order. */
  lemma RenderOrder(layers: seq<Layer>)
    ensures forall i, j :: 0 <= i < j < |Render(layers).boxes| ==>
              Render(layers).boxes[i].zIndex <= Render(layers).boxes[j].zIndex
    ensures forall k :: FilterBoxZ(Render(layers).boxes, k) == BoxesOf(FilterZ(layers, k))
  {
    BoxesOfSorted(SortByZ(layers));
    forall k ensures FilterBoxZ(Render(layers).boxes, k) == BoxesOf(FilterZ(layers, k)) {
      BoxesFilterCommute(SortByZ(layers), k);
      SortStable(layers, k);
    }
  }

  lemma {:induction false} BoxesOfMember(s: seq<Layer>, i: nat)
    requires i < |s| && s[i].id != BackgroundId
    ensures ToBox(s[i]) in BoxesOf(s)
  {
    if i < |s| - 1 {
      assert s[..|s| - 1][i] == s[i];
      BoxesOfMember(s[..|s| - 1], i);
    }
  }

  /** A sequence without background layers gets exactly one box per layer, in order. */
  lemma {:induction false} BoxesOfPlain(s: seq<Layer>)
    requires forall i :: 0 <= i < |s| ==> s[i].id != BackgroundId
    ensures |BoxesOf(s)| == |s|
    ensures forall i :: 0 <= i < |s| ==> BoxesOf(s)[i] == ToBox(s[i])
  {
    if s != [] {
      BoxesOfPlain(s[..|s| - 1]);
    }
  }

  /** Every non-background layer gets a box in the render (`BoxesOf` rules out a box for the background). */
  lemma RenderShowsLayer(layers: seq<Layer>, i: nat)
    requires i < |layers| && layers[i].id != BackgroundId
    ensures ToBox(layers[i]) in Render(layers).boxes
  {
    var sorted := SortByZ(layers);
    assert layers[i] in multiset(sorted);
    var j :| 0 <= j < |sorted| && sorted[j] == layers[i];
    BoxesOfMember(sorted, j);
  }

  // ----- the active-layer outline -----

  /** The text `highlightActiveLayer` puts in its selector: a missing id prints as `null`. */
  function SelectorKey(active: Option<string>): (key: string)
    ensures active.Some? ==> key == active.value
    ensures active.None? ==> key == "null"
  {
    match active
    case None => "null"
    case Some(id) => id
  }

  /** `document.querySelector('[data-layer-id="key"]')`: the first box, in paint order, with that id. */
  function OutlineTarget(boxes: seq<Box>, key: string): (r: Option<nat>)
    ensures r.Some? ==> r.value < |boxes| && boxes[r.value].id == key
    ensures r.Some? ==> forall j :: 0 <= j < r.value ==> boxes[j].id != key
    ensures r.None? ==> forall j :: 0 <= j < |boxes| ==> boxes[j].id != key
  {
    if boxes == [] then None
    else if boxes[0].id == key then Some(0)
    else match OutlineTarget(boxes[1..], key)
      case None => None
      case Some(k) => Some(k + 1)
  }

  /** An active non-background layer is outlined once it has been rendered; the background never is. */
  lemma OutlineOfRender(layers: seq<Layer>, id: string)
    ensures id == BackgroundId ==> OutlineTarget(Render(layers).boxes, id).None?
    ensures (exists i :: 0 <= i < |layers| && layers[i].id == id && id != BackgroundId) ==>
              OutlineTarget(Render(layers).boxes, id).Some?
  {
    if i :| 0 <= i < |layers| && layers[i].id == id && id != BackgroundId {
      RenderShowsLayer(layers, i);
    }
  }
}
