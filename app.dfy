/**
 * The editor object: the store's three fields, the preview flag, what the canvas currently shows,
 * the pending auto-save and the local storage slot. Each method does what the corresponding
 * method of the application does to these fields, and says so in terms of the store functions.
 */
module App {
  import opened Opt
  import opened Layers
  import opened Canvas
  import opened Store
  import opened Persistence

  class Playground {
    var layers: seq<Layer>
    var activeLayerId: Option<string>
    var layerCounter: int
    var isPreviewMode: bool

    // What the page shows: the canvas's boxes in paint order, the canvas's background
    // (`None` until a render first sets it) and which box, if any, carries the outline.
    var boxes: seq<Box>
    var canvasFill: Option<string>
    var outlined: Option<nat>

    // Whether the debounced auto-save timer is armed, and the stored project.
    var savePending: bool
    var storage: StoredValue

    function State(): Project
      reads this
    {
      Project(layers, activeLayerId, layerCounter)
    }

    ghost predicate Valid()
      reads this
    {
      0 < |layers| && (outlined.Some? ==> outlined.value < |boxes|)
    }

    /** The canvas shows the current layers. */
    ghost predicate Shown()
      reads this
    {
      boxes == Render(layers).boxes && (Render(layers).fill.Some? ==> canvasFill == Render(layers).fill)
    }

    /** Start with a background layer, then take over whatever storage holds. */
    constructor (stored: StoredValue)
      ensures Valid() && Shown() && outlined == None
      ensures State() == Load(Startup(), stored)
      ensures !isPreviewMode && !savePending && storage == stored
    {
      layers := [];
      activeLayerId := None;
      layerCounter := 0;
      isPreviewMode := false;
      boxes := [];
      canvasFill := None;
      outlined := None;
      savePending := false;
      storage := stored;
      new;
      AddDefaultLayer();
      ghost var start := State();
      assert start == Startup();
      LoadFromStorage();
      assert State() == Load(start, stored);
    }

    method AddDefaultLayer()
      modifies this`layers, this`activeLayerId, this`boxes, this`canvasFill, this`outlined
      ensures State() == Store.AddDefaultLayer(old(State()))
      ensures Valid() && Shown() && outlined == None
    {
      layers := layers + [Background];
      activeLayerId := Some(BackgroundId);
      RenderCanvas();
    }

    method AddLayer(rx: real, ry: real, rc: real)
      requires 0.0 <= rx < 1.0 && 0.0 <= ry < 1.0 && 0.0 <= rc < 1.0
      modifies this`layers, this`activeLayerId, this`layerCounter, this`boxes, this`canvasFill, this`outlined
      ensures State() == Store.AddLayer(old(State()), rx, ry, rc)
      ensures Valid() && Shown()
      // The outline is drawn before the new layer's box exists, and the re-render drops it.
      ensures outlined == None
    {
      layerCounter := layerCounter + 1;
      var layer := NewLayer(layerCounter, |layers|, rx, ry, rc);
      layers := layers + [layer];
      SelectLayer(layer.id);
      RenderCanvas();
    }

    method SelectLayer(id: string)
      modifies this`activeLayerId, this`outlined
      ensures State() == Select(old(State()), id)
      ensures outlined == OutlineTarget(boxes, id)
      ensures old(Valid()) ==> Valid()
    {
      activeLayerId := Some(id);
      HighlightActiveLayer();
    }

    method UpdateProperty(prop: Property, value: string, parse: string -> Number)
      modifies this`layers, this`boxes, this`canvasFill, this`outlined, this`savePending
      ensures State() == Store.UpdateProperty(old(State()), prop, value, parse)
      ensures ActiveIndex(old(State())).None? ==> unchanged(this)
      ensures ActiveIndex(old(State())).Some? ==> Valid() && Shown() && outlined == None && savePending
    {
      ghost var before := State();
      var found := ActiveIndex(State());
      if found.None? {
        return;
      }
      var i := found.value;
      layers := layers[i := SetProperty(layers[i], prop, value, parse)];
      assert State() == Store.UpdateProperty(before, prop, value, parse);
      assert |layers| == |before.layers|;
      RenderCanvas();
      AutoSave();
    }

    /** Re-renders but, unlike the other edits, does not arm the auto-save. */
    method UpdateLayerType(kind: string)
      modifies this`layers, this`boxes, this`canvasFill, this`outlined
      ensures State() == Store.UpdateLayerType(old(State()), kind)
      ensures ActiveIndex(old(State())).None? ==> unchanged(this)
      ensures ActiveIndex(old(State())).Some? ==> Valid() && Shown() && outlined == None
    {
      ghost var before := State();
      var found := ActiveIndex(State());
      if found.None? {
        return;
      }
      var i := found.value;
      layers := layers[i := layers[i].(layerType := kind)];
      assert State() == Store.UpdateLayerType(before, kind);
      assert |layers| == |before.layers|;
      RenderCanvas();
    }

    method UpdateAnimation(name: string, durationText: string, parse: string -> Number)
      modifies this`layers, this`boxes, this`canvasFill, this`outlined, this`savePending
      ensures State() == Store.UpdateAnimation(old(State()), name, durationText, parse)
      ensures ActiveIndex(old(State())).None? ==> unchanged(this)
      ensures ActiveIndex(old(State())).Some? ==> Valid() && Shown() && outlined == None && savePending
    {
      ghost var before := State();
      var found := ActiveIndex(State());
      if found.None? {
        return;
      }
      var i := found.value;
      layers := layers[i := layers[i].(animation := name, duration := parse(durationText))];
      assert State() == Store.UpdateAnimation(before, name, durationText, parse);
      assert |layers| == |before.layers|;
      RenderCanvas();
      AutoSave();
    }

    /** Rebuilds the canvas from a sorted copy of the layers; the layers themselves are not touched. */
    method RenderCanvas()
      modifies this`boxes, this`canvasFill, this`outlined
      ensures Shown() && boxes == Render(layers).boxes
      ensures canvasFill == if Render(layers).fill.Some? then Render(layers).fill else old(canvasFill)
      ensures outlined == None
    {
      var scene := Paint(layers);
      boxes := scene.boxes;
      if scene.fill.Some? {
        canvasFill := scene.fill;
      }
      outlined := None;
    }

    /** Outlines the first box whose id is the active id, in preview mode too. */
    method HighlightActiveLayer()
      modifies this`outlined
      ensures outlined == OutlineTarget(boxes, SelectorKey(activeLayerId))
      ensures outlined.Some? ==> outlined.value < |boxes|
    {
      outlined := OutlineTarget(boxes, SelectorKey(activeLayerId));
    }

    method TogglePreview()
      modifies this`isPreviewMode, this`outlined
      ensures isPreviewMode == !old(isPreviewMode)
      ensures outlined == if isPreviewMode then None else OutlineTarget(boxes, SelectorKey(activeLayerId))
      ensures old(Valid()) ==> Valid()
    {
      isPreviewMode := !isPreviewMode;
      if isPreviewMode {
        outlined := None;
      } else {
        HighlightActiveLayer();
      }
    }

    method ResetCanvas()
      modifies this`layers, this`activeLayerId, this`layerCounter, this`boxes, this`canvasFill, this`outlined
      ensures State() == Reset(old(State()))
      ensures Valid() && Shown() && outlined == None
    {
      layers := [];
      layerCounter := 0;
      AddDefaultLayer();
    }

    method SaveProject()
      modifies this`storage
      ensures storage == Parsed(Save(State()))
    {
      storage := Parsed(Save(State()));
    }

    /** The debounced save: every edit re-arms one timer, so bursts of edits give one write. */
    method AutoSave()
      modifies this`savePending
      ensures savePending
    {
      savePending := true;
    }

    /** The armed timer fires and saves the state as it is then. */
    method AutoSaveTimerFires()
      modifies this`storage, this`savePending
      ensures !savePending
      ensures storage == if old(savePending) then Parsed(Save(State())) else old(storage)
    {
      if savePending {
        SaveProject();
        savePending := false;
      }
    }

    method LoadFromStorage()
      modifies this`layers, this`activeLayerId, this`layerCounter, this`boxes, this`canvasFill, this`outlined
      ensures State() == Load(old(State()), storage)
      ensures storage.Absent? ==> unchanged(this)
      ensures !storage.Absent? ==> Shown() && outlined == None
      ensures old(Valid()) || !storage.Absent? ==> Valid()
    {
      match storage
      case Absent =>
      case Unparsable =>
        AddDefaultLayer();
      case Parsed(rec) =>
        layers := rec.layers.GetOr([]);
        activeLayerId := NonEmpty(rec.activeLayerId);
        layerCounter := rec.layerCounter.GetOr(0);
        if |layers| == 0 {
          AddDefaultLayer();
        } else {
          RenderCanvas();
        }
    }
  }

  /** A short session with nothing stored: two additions, a reset, and an addition that reuses `layer-1`. */
  method ExampleSession(rx: real, ry: real, rc: real)
    requires 0.0 <= rx < 1.0 && 0.0 <= ry < 1.0 && 0.0 <= rc < 1.0
  {
    var app := new Playground(Absent);
    assert app.layers == [Background];
    app.AddLayer(rx, ry, rc);
    app.AddLayer(rx, ry, rc);
    assert |app.layers| == 3 && app.layerCounter == 2;
    assert app.layers[1].id == LayerId(1) && app.layers[2].id == LayerId(2);
    assert app.activeLayerId == Some(LayerId(2));
    assert app.layers[1].zIndex == 1 && app.layers[2].zIndex == 2;
    app.ResetCanvas();
    assert app.layers == [Background] && app.activeLayerId == Some(BackgroundId);
    app.AddLayer(rx, ry, rc);
    assert app.layers[1].id == LayerId(1);
  }
}
