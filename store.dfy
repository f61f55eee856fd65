/**
 * The layer store: the ordered layers, the active layer's id and the layer counter, and the
 * operations of the editor on them, as functions from the state before to the state after.
 */
module Store {
  import opened Opt
  import opened Layers
  import opened Canvas

  /** The editor's state, which is also the unit that is saved. */
  datatype Project = Project(layers: seq<Layer>, activeLayerId: Option<string>, layerCounter: int)

  /** `addDefaultLayer`: push a background layer and make it active; the counter is untouched. */
  function AddDefaultLayer(p: Project): (r: Project)
    ensures |r.layers| == |p.layers| + 1 && r.layers[..|p.layers|] == p.layers
    ensures r.layers[|p.layers|] == Background && r.layerCounter == p.layerCounter
    ensures r.activeLayerId == Some(BackgroundId) && ActiveIndex(r).Some?
  {
    assert (p.layers + [Background])[..|p.layers|] == p.layers;
    assert (p.layers + [Background])[|p.layers|].id == BackgroundId;
    Project(p.layers + [Background], Some(BackgroundId), p.layerCounter)
  }

  /** The state the constructor builds before it looks at storage. */
  function Startup(): (r: Project)
    ensures r.layers == [Background] && r.layerCounter == 0
    ensures ActiveIndex(r) == Some(0)
  {
    AddDefaultLayer(Project([], None, 0))
  }

  /** `resetCanvas`: forget every layer and the counter, then add the default layer. */
  function Reset(p: Project): (r: Project)
    ensures r.layers == [Background] && r.layerCounter == 0
    ensures r.activeLayerId == Some(BackgroundId) && ActiveIndex(r) == Some(0)
  {
    AddDefaultLayer(p.(layers := [], layerCounter := 0))
  }

  /** Where `getActiveLayer` finds the active layer: the first layer whose id is the active id. */
  function ActiveIndex(p: Project): (r: Option<nat>)
    ensures r.Some? ==> p.activeLayerId.Some? && r.value < |p.layers|
                        && p.layers[r.value].id == p.activeLayerId.value
    ensures r.Some? ==> forall j :: 0 <= j < r.value ==> p.layers[j].id != p.activeLayerId.value
    ensures r.None? ==> forall j :: 0 <= j < |p.layers| ==> p.activeLayerId != Some(p.layers[j].id)
  {
    match p.activeLayerId
    case None => None
    case Some(id) => FindLayer(p.layers, id)
  }

  /** `getActiveLayer`: the active layer record, if some layer has the active id. */
  function ActiveLayer(p: Project): (r: Option<Layer>)
    ensures r.Some? <==> exists i :: 0 <= i < |p.layers| && p.activeLayerId == Some(p.layers[i].id)
    ensures r.Some? ==> r.value in p.layers && Some(r.value.id) == p.activeLayerId
    ensures r.Some? ==> ActiveIndex(p).Some? && r.value == p.layers[ActiveIndex(p).value]
  {
    match ActiveIndex(p)
    case None => None
    case Some(i) => Some(p.layers[i])
  }

  /** `addLayer`, with the three `Math.random()` draws passed in. */
  function AddLayer(p: Project, rx: real, ry: real, rc: real): (r: Project)
    requires 0.0 <= rx < 1.0 && 0.0 <= ry < 1.0 && 0.0 <= rc < 1.0
    ensures r.layerCounter == p.layerCounter + 1
    ensures |r.layers| == |p.layers| + 1 && r.layers[..|p.layers|] == p.layers
    ensures var l := r.layers[|p.layers|];
      && l.id == LayerId(r.layerCounter) && l.name == LayerName(r.layerCounter)
      && l.zIndex == |p.layers| && l.layerType == "shape"
      && l.width == Finite(100.0) && l.height == Finite(100.0) && l.opacity == Finite(0.7)
      && l.animation == "none" && l.duration == Finite(2.0) && l.text == None
      && l.x.Finite? && 87.0 <= l.x.value <= 286.0
      && l.y.Finite? && 156.0 <= l.y.value <= 655.0
      && l.backgroundColor in Palette
    ensures r.activeLayerId == Some(LayerId(r.layerCounter))
  {
    var counter := p.layerCounter + 1;
    var l := NewLayer(counter, |p.layers|, rx, ry, rc);
    assert (p.layers + [l])[..|p.layers|] == p.layers;
    Project(p.layers + [l], Some(l.id), counter)
  }

  /** `selectLayer(id)`: the id becomes active whether or not a layer has it. */
  function Select(p: Project, id: string): (r: Project)
    ensures r.activeLayerId == Some(id)
    ensures r.layers == p.layers && r.layerCounter == p.layerCounter
  {
    p.(activeLayerId := Some(id))
  }

  /** `r` differs from `p` at most in the fields of layer `i`, and not in its id or stack order. */
  ghost predicate EditsOnly(p: Project, r: Project, i: nat) {
    && i < |p.layers| && |r.layers| == |p.layers|
    && r.activeLayerId == p.activeLayerId && r.layerCounter == p.layerCounter
    && r.layers[i].id == p.layers[i].id && r.layers[i].zIndex == p.layers[i].zIndex
    && forall j :: 0 <= j < |p.layers| && j != i ==> r.layers[j] == p.layers[j]
  }

  /** `updateProperty(property, value)` on the active layer; nothing happens without one. */
  function UpdateProperty(p: Project, prop: Property, value: string, parse: string -> Number): (r: Project)
    ensures ActiveIndex(p).None? ==> r == p
    ensures ActiveIndex(p).Some? ==> var i := ActiveIndex(p).value;
      EditsOnly(p, r, i) && r.layers[i] == SetProperty(p.layers[i], prop, value, parse)
  {
    match ActiveIndex(p)
    case None => p
    case Some(i) => p.(layers := p.layers[i := SetProperty(p.layers[i], prop, value, parse)])
  }

  /** `updateLayerType()` with the type selector's value `kind`. */
  function UpdateLayerType(p: Project, kind: string): (r: Project)
    ensures ActiveIndex(p).None? ==> r == p
    ensures ActiveIndex(p).Some? ==> var i := ActiveIndex(p).value;
      EditsOnly(p, r, i) && r.layers[i] == p.layers[i].(layerType := kind)
  {
    match ActiveIndex(p)
    case None => p
    case Some(i) => p.(layers := p.layers[i := p.layers[i].(layerType := kind)])
  }

  /** `updateAnimation()` with the animation selector's value and the duration field's text. */
  function UpdateAnimation(p: Project, name: string, durationText: string, parse: string -> Number): (r: Project)
    ensures ActiveIndex(p).None? ==> r == p
    ensures ActiveIndex(p).Some? ==> var i := ActiveIndex(p).value;
      EditsOnly(p, r, i) && r.layers[i] == p.layers[i].(animation := name, duration := parse(durationText))
  {
    match ActiveIndex(p)
    case None => p
    case Some(i) => p.(layers := p.layers[i := p.layers[i].(animation := name, duration := parse(durationText))])
  }

  // ----- what holds of a session -----

  ghost predicate IdsDistinct(p: Project) {
    forall i, j :: 0 <= i < j < |p.layers| ==> p.layers[i].id != p.layers[j].id
  }

  /** No layer has an id the counter has yet to hand out. */
  ghost predicate IdsFresh(p: Project) {
    forall i, k :: 0 <= i < |p.layers| && p.layerCounter < k ==> p.layers[i].id != LayerId(k)
  }

  /**
   * What the operations other than loading keep: the background is the first layer and the only
   * one with its id, each layer's stack order is its position, ids are distinct, and none is ahead
   * of the counter.
   */
  ghost predicate SessionInvariant(p: Project) {
    && 0 < |p.layers| && p.layers[0].id == BackgroundId
    && (forall i :: 0 < i < |p.layers| ==> p.layers[i].id != BackgroundId)
    && (forall i :: 0 <= i < |p.layers| ==> p.layers[i].zIndex == i)
    && IdsDistinct(p) && IdsFresh(p)
  }

  /** Whatever came before, a reset leaves the single default background, active, and a zero counter. */
  lemma ResetState(p: Project)
    ensures Reset(p) == Project([Background], Some(BackgroundId), 0)
    ensures SessionInvariant(Reset(p)) && ActiveIndex(Reset(p)) == Some(0)
  {
    forall k | 0 < k ensures Background.id != LayerId(k) {
      LayerIdNotBackground(k);
    }
  }

  lemma StartupState()
    ensures Startup() == Project([Background], Some(BackgroundId), 0)
    ensures SessionInvariant(Startup())
  {
    ResetState(Startup());
  }

  /** Adding a layer keeps the invariant, hands out an id no layer had, and makes that layer active. */
  lemma AddLayerKeepsInvariant(p: Project, rx: real, ry: real, rc: real)
    requires 0.0 <= rx < 1.0 && 0.0 <= ry < 1.0 && 0.0 <= rc < 1.0
    requires SessionInvariant(p)
    ensures var r := AddLayer(p, rx, ry, rc);
      && SessionInvariant(r)
      && (forall i :: 0 <= i < |p.layers| ==> p.layers[i].id != r.layers[|p.layers|].id)
      && ActiveIndex(r) == Some(|p.layers|)
  {
    var r := AddLayer(p, rx, ry, rc);
    var n := |p.layers|;
    var c := r.layerCounter;
    assert forall i :: 0 <= i < n ==> r.layers[i] == p.layers[i] by {
      forall i | 0 <= i < n ensures r.layers[i] == p.layers[i] {
        assert r.layers[..n][i] == r.layers[i];
      }
    }
    LayerIdNotBackground(c);
    forall k | c < k ensures r.layers[n].id != LayerId(k) {
      if LayerId(c) == LayerId(k) { LayerIdInjective(c, k); }
    }
    assert forall i :: 0 <= i < n ==> p.layers[i].id != r.layers[n].id;
  }

  /** Selecting and editing keep the invariant: no id and no stack order changes. */
  lemma EditsKeepInvariant(p: Project, r: Project, i: nat)
    requires SessionInvariant(p) && EditsOnly(p, r, i)
    ensures SessionInvariant(r)
  {
    assert forall j :: 0 <= j < |p.layers| ==> r.layers[j].id == p.layers[j].id && r.layers[j].zIndex == p.layers[j].zIndex;
  }

  lemma OperationsKeepInvariant(p: Project, id: string, prop: Property, value: string, kind: string,
                                 name: string, durationText: string, parse: string -> Number)
    requires SessionInvariant(p)
    ensures SessionInvariant(Select(p, id))
    ensures SessionInvariant(UpdateProperty(p, prop, value, parse))
    ensures SessionInvariant(UpdateLayerType(p, kind))
    ensures SessionInvariant(UpdateAnimation(p, name, durationText, parse))
  {
    if ActiveIndex(p).Some? {
      var i := ActiveIndex(p).value;
      EditsKeepInvariant(p, UpdateProperty(p, prop, value, parse), i);
      EditsKeepInvariant(p, UpdateLayerType(p, kind), i);
      EditsKeepInvariant(p, UpdateAnimation(p, name, durationText, parse), i);
    }
  }

  /** Selecting an id no layer has still makes it the active id, after which no layer is active. */
  lemma SelectUnknownId(p: Project, id: string, prop: Property, value: string, n: string, d: string,
                        parse: string -> Number)
    requires forall i :: 0 <= i < |p.layers| ==> p.layers[i].id != id
    ensures Select(p, id).activeLayerId == Some(id) && ActiveIndex(Select(p, id)).None?
    ensures UpdateProperty(Select(p, id), prop, value, parse) == Select(p, id)
    ensures UpdateLayerType(Select(p, id), value) == Select(p, id)
    ensures UpdateAnimation(Select(p, id), n, d, parse) == Select(p, id)
  {
  }

  /** A sequence whose stack orders are the positions is painted as it stands. */
  lemma PositionalRender(s: seq<Layer>)
    requires forall i :: 0 <= i < |s| ==> s[i].zIndex == i
    ensures Render(s) == Scene(FillOf(s), BoxesOf(s))
  {
    assert SortedByZ(s);
    SortOfSorted(s);
  }

  lemma BackgroundFirstFill(s: seq<Layer>)
    requires 0 < |s| && s[0].id == BackgroundId
    requires forall i :: 0 < i < |s| ==> s[i].id != BackgroundId
    ensures FillOf(s) == Some(s[0].backgroundColor)
  {
    var f := FillOf(s);
    var w :| 0 <= w < |s| && s[w].id == BackgroundId && s[w].backgroundColor == f.value;
  }

  lemma BackgroundFirstBoxes(s: seq<Layer>)
    requires 0 < |s| && s[0].id == BackgroundId
    requires forall i :: 0 < i < |s| ==> s[i].id != BackgroundId
    ensures |BoxesOf(s)| == |s| - 1
    ensures forall i :: 0 < i < |s| ==> BoxesOf(s)[i - 1] == ToBox(s[i])
  {
    var rest := s[1..];
    assert s == [s[0]] + rest;
    BoxesOfAppend([s[0]], rest);
    BoxesOfOne(s[0]);
    assert forall i :: 0 <= i < |rest| ==> rest[i] == s[i + 1];
    BoxesOfPlain(rest);
  }

  /**
   * In a session the canvas shows the background's colour and one box per other layer, in
   * insertion order.
   */
  lemma SessionRender(p: Project)
    requires SessionInvariant(p)
    ensures Render(p.layers).fill == Some(p.layers[0].backgroundColor)
    ensures |Render(p.layers).boxes| == |p.layers| - 1
    ensures forall i :: 0 < i < |p.layers| ==> Render(p.layers).boxes[i - 1] == ToBox(p.layers[i])
  {
    PositionalRender(p.layers);
    BackgroundFirstFill(p.layers);
    BackgroundFirstBoxes(p.layers);
  }
}
