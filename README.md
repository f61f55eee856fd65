# CAPlayground layer editor, modelled in Dafny

This project models the layer editor at the centre of CAPlayground Desktop, the `CAPlaygroundDesktop`
class of `caplayground-local/app.js`. The editor keeps an ordered list of layers, the id of the
active layer and a layer counter that makes ids like `layer-3`. It edits the active layer from a
properties panel and renders the layers onto a phone-sized canvas in stack order (`zIndex`). It
saves the three fields to local storage and reads them back at start-up.

Modules:

- `Opt` (opt.dfy): the optional value used for `null` and missing fields.
- `Decimal` (decimal.dfy): how an integer is printed inside `layer-${n}`. It proves that different
  numbers print differently.
- `Layers` (layers.dfy): the layer record, the default background, the ten-colour palette, the
  layer `addLayer` builds, field edits, the layer icon, the colour-input value and the id lookup.
- `Canvas` (canvas.dfy): rendering as a pure projection. It covers the stable sort by `zIndex`, one
  box per non-background layer, the canvas fill taken from the background, the imperative paint
  loop (`Paint`) and the rule for which box gets the outline.
- `Store` (store.dfy): the store state `Project` and one function per operation. It also defines
  the invariant that the non-loading operations keep.
- `Persistence` (persist.dfy): the saved record, the three outcomes of reading storage, `Save`
  and `Load`.
- `App` (app.dfy): the class `Playground`. It has the source's fields, plus the state the page
  shows: the canvas boxes, the canvas fill, the outlined box, the pending auto-save and the storage
  slot. The methods that change the store or the canvas are proved equal to their function in
  `Store`, `Persistence` or `Canvas`. `TogglePreview`, `AutoSave` and `AutoSaveTimerFires` have no
  such function, so their contracts state their effect on the fields directly.

`Math.random()` draws are passed in as reals in [0, 1). `parseFloat` is passed in as a function
`string -> Number`, where `Number` is a real or NaN. The JSON text in local storage is abstracted to
`Absent`, `Unparsable` or a parsed record.

Where the code and the editor's stated design disagree, the model follows the code:

- `selectLayer` assigns any id, even one no layer has (`Store.SelectUnknownId`).
- Numeric edits store whatever `parseFloat` returns, NaN included. The duration is not checked to
  be positive.
- Unparsable storage at start-up adds a second `background` layer to the one the constructor made,
  instead of resetting to a single one (`Persistence.CorruptStartup`).
- A stored project without layers gets the default background but keeps the stored counter
  (`Persistence.LoadWithoutLayers`). `resetCanvas` sets the counter back to 0, so `layer-1` is
  handed out again after a reset (`App.ExampleSession`).
- The outline ignores preview mode when a layer is selected. `addLayer` draws the outline before
  the new layer's box exists, and the re-render that follows removes every outline.
- With no active id, the outline selector looks for the id `null`.

## Model

| member | source | states |
|---|---|---|
| Decimal.NatToStringInjective | caplayground-local/app.js:58-59 | two different counter values never print as the same digits |
| Decimal.IntToStringInjective | caplayground-local/app.js:58-59 | printing an integer, sign included, is injective |
| Layers.LayerId | caplayground-local/app.js:58 | a generated id is `layer-` followed by the counter printed in decimal |
| Layers.LayerName | caplayground-local/app.js:59 | a generated name is `Layer ` followed by the counter, and never equals the id made from the same counter |
| Layers.LayerIdInjective | caplayground-local/app.js:58 | `layer-{a}` equals `layer-{b}` only when a = b |
| Layers.LayerIdNotBackground | caplayground-local/app.js:58 | no generated id is `background` |
| Layers.RandomColor | caplayground-local/app.js:306-312 | the colour drawn for any random value in [0,1) is one of the ten palette colours |
| Layers.RandomOffset | caplayground-local/app.js:61-62 | `floor(r*span)+base` lies in [base, base+span) for r in [0,1) |
| Layers.NewLayer | caplayground-local/app.js:57-70 | a new layer has an integral x in [87,286], an integral y in [156,655], a palette fill and a non-background id |
| Layers.SetProperty | caplayground-local/app.js:137 | the named property takes the raw text (colour) or its parse (numbers), and every other field is kept |
| Layers.LayerIcon | caplayground-local/app.js:104-112 | the fallback icon is returned exactly when the type is not shape, text, image or background |
| Layers.HexFromColor | caplayground-local/app.js:314-318 | the result always starts with `#`, and equals the input exactly when the input starts with `#` |
| Layers.FindLayer | caplayground-local/app.js:129-131 | the index found is the first layer with the id; none found means no layer has it |
| Canvas.ToBox | caplayground-local/app.js:174-202 | a box copies position, size, fill, opacity and zIndex; it is animated exactly when the animation is not `none`; it has text exactly for text layers; that text is the layer's own when present and non-empty, and `Sample Text` when it is missing or empty |
| Canvas.Insert | caplayground-local/app.js:166 | insertion adds exactly one element (multiset) |
| Canvas.SortByZ | caplayground-local/app.js:166 | the copy is sorted by zIndex and is a permutation of the layers |
| Canvas.SortStable | caplayground-local/app.js:166 | for every zIndex, the layers with it keep their array order |
| Canvas.SortOfSorted | caplayground-local/app.js:166 | layers already in zIndex order are left in place |
| Canvas.BoxesOf | caplayground-local/app.js:168-173 | no box is drawn for a `background` layer |
| Canvas.FillOf | caplayground-local/app.js:169-171 | the canvas fill is set exactly when some layer is the background, and is then a background layer's colour |
| Canvas.Render | caplayground-local/app.js:161-206 | the canvas never shows more boxes than there are layers, and none of them is a `background` box |
| Canvas.RenderFill | caplayground-local/app.js:166-171 | the canvas fill is set exactly when some layer is the background, and is then a background layer's colour |
| Canvas.Paint | caplayground-local/app.js:161-206 | the paint loop over the sorted copy produces exactly the projection `Render` |
| Canvas.RenderOrder | caplayground-local/app.js:165-205 | boxes are in ascending zIndex, and the boxes of each zIndex are those of its non-background layers in array order |
| Canvas.RenderShowsLayer | caplayground-local/app.js:168-205 | every non-background layer has its box on the canvas |
| Canvas.SelectorKey | caplayground-local/app.js:215 | the selector uses the active id itself, or the text `null` when there is none |
| Canvas.OutlineTarget | caplayground-local/app.js:214-218 | the outlined box is the first one whose id is the selector's id; none if no box has it |
| Canvas.OutlineOfRender | caplayground-local/app.js:208-219 | the background is never outlined, and a rendered non-background layer with the active id is |
| Store.AddDefaultLayer | caplayground-local/app.js:33-53 | the background layer is appended after the existing ones, which are kept, and becomes the active layer; the counter is kept |
| Store.Startup | caplayground-local/app.js:5-16 | the constructor's store before storage is read: the background alone, active, with counter 0 |
| Store.Reset | caplayground-local/app.js:235-240 | from any state: the background alone, active, with counter 0 |
| Store.ActiveIndex | caplayground-local/app.js:129-131 | the active index is the first layer whose id is the active id; none when the id is null or unmatched |
| Store.ActiveLayer | caplayground-local/app.js:129-131 | a layer is returned exactly when some layer has the active id; it has that id and is the first such layer |
| Store.AddLayer | caplayground-local/app.js:55-73 | counter goes up by one; exactly one layer is appended, earlier layers unchanged; it has id `layer-{counter}`, name `Layer {counter}`, zIndex = old length, 100x100, opacity 0.7, no animation, duration 2, type shape, bounded position and palette fill; it becomes active |
| Store.Select | caplayground-local/app.js:79-80 | the id becomes active, unconditionally, and layers and counter are unchanged |
| Store.UpdateProperty | caplayground-local/app.js:133-140 | no change without an active layer; otherwise only the first matching layer changes, by SetProperty |
| Store.UpdateLayerType | caplayground-local/app.js:142-149 | no change without an active layer; otherwise only that layer's type changes |
| Store.UpdateAnimation | caplayground-local/app.js:151-159 | no change without an active layer; otherwise only that layer's animation and duration change |
| Store.ResetState | caplayground-local/app.js:235-240 | from any state, reset gives exactly the default background (id background, zIndex 0, 375x812, opacity 1), active, with counter 0, and the invariant holds |
| Store.StartupState | caplayground-local/app.js:5-16 | before storage is read the store is the single active background, satisfying the invariant |
| Store.AddLayerKeepsInvariant | caplayground-local/app.js:55-73 | adding keeps the invariant (background first and unique, zIndex = position, distinct ids, none ahead of the counter); the new id was not in use; the new layer is the one found as active |
| Store.OperationsKeepInvariant | caplayground-local/app.js:79-159 | select and the three edits keep the invariant |
| Store.SelectUnknownId | caplayground-local/app.js:79-80 | selecting an unknown id still changes the active id, and later property, type and animation edits then do nothing |
| Store.SessionRender | caplayground-local/app.js:161-206 | under the invariant the canvas fill is the background's colour and box i is the box of layer i+1 |
| Persistence.Save | caplayground-local/app.js:262-271 | the saved record always holds the layers and the counter, and the active id as it is |
| Persistence.NonEmpty | caplayground-local/app.js:279 | a stored active id is kept exactly when it is a non-empty string |
| Persistence.Load | caplayground-local/app.js:273-296 | absent storage changes nothing; unparsable storage appends a background and activates it, keeping the counter; a record gives a non-empty layer list and the stored counter or 0 |
| Persistence.SaveLoadRoundTrip | caplayground-local/app.js:262-296 | save then load restores layers, active id and counter exactly, for non-empty layers and an active id other than the empty string |
| Persistence.SaveLoadDropsEmptyActiveId | caplayground-local/app.js:279 | an empty-string active id comes back as null |
| Persistence.LoadRecord | caplayground-local/app.js:277-288 | a record with layers is adopted as is, with missing active id and counter defaulting to null and 0 |
| Persistence.LoadWithoutLayers | caplayground-local/app.js:278-283 | a record without layers loads as a reset but keeps the stored counter, and the invariant holds |
| Persistence.CorruptStartup | caplayground-local/app.js:291-293 | unparsable storage at start-up leaves two background layers, which breaks the invariant |
| App.Playground.constructor | caplayground-local/app.js:5-17 | the new editor is the start-up store loaded from storage, rendered, not in preview, with no pending save |
| App.Playground.AddDefaultLayer | caplayground-local/app.js:33-53 | appends the background, makes it active and re-renders |
| App.Playground.AddLayer | caplayground-local/app.js:55-77 | the new state is Store.AddLayer of the old; the canvas is re-rendered and no box stays outlined |
| App.Playground.SelectLayer | caplayground-local/app.js:79-84 | new state is Store.Select; the outline moves to the first box with the id |
| App.Playground.UpdateProperty | caplayground-local/app.js:133-140 | new state is Store.UpdateProperty; with no active layer nothing at all changes, otherwise re-render and arm the auto-save |
| App.Playground.UpdateLayerType | caplayground-local/app.js:142-149 | new state is Store.UpdateLayerType; re-render without arming the auto-save |
| App.Playground.UpdateAnimation | caplayground-local/app.js:151-159 | new state is Store.UpdateAnimation; re-render and arm the auto-save |
| App.Playground.RenderCanvas | caplayground-local/app.js:161-206 | the canvas shows Render of the layers, the fill is kept when no background is painted, outlines are gone, layers untouched |
| App.Playground.HighlightActiveLayer | caplayground-local/app.js:208-219 | only the box found for the active id (printed `null` when unset) is outlined |
| App.Playground.TogglePreview | caplayground-local/app.js:221-233 | flips preview mode; entering clears the outline, leaving restores the active layer's outline |
| App.Playground.ResetCanvas | caplayground-local/app.js:235-240 | new state is Store.Reset of the old, rendered |
| App.Playground.SaveProject | caplayground-local/app.js:262-271 | storage holds the saved record of the current state |
| App.Playground.AutoSave | caplayground-local/app.js:298-304 | the single save timer is armed |
| App.Playground.AutoSaveTimerFires | caplayground-local/app.js:298-304 | an armed timer saves the state as it is when it fires, then is disarmed |
| App.Playground.LoadFromStorage | caplayground-local/app.js:273-296 | new state is Persistence.Load of the old state and storage; absent storage changes nothing |

## Left out

- `main.js` (window creation, the local web server, its inline page and the `eval` code runner) is not part of this model: it is host glue.
- DOM writes other than the box list, canvas fill and outline are left out: the layer list (`updateLayersList`), the properties panel (`updatePropertiesPanel`), element styles beyond the box fields, and toasts (`showToast`). They only write to the page.
- `exportProject` is left out: it builds a download from `Date.now()`, a Blob and an anchor click, and nothing reads it back.
- `bindEvents`, the global handler functions and the `DOMContentLoaded` start-up are left out. They only forward events. The document-wide change and input listeners that arm the auto-save correspond to `App.Playground.AutoSave`.
- The timer behind `autoSave` is a single pending flag. Time and the 1000 ms delay are not modelled.
- JSON and `localStorage` are abstract. In particular, JSON turns NaN into `null`, so a layer with a NaN field would not come back as saved; the round trip assumes the JSON text reproduces the record.
- Stored records whose fields have the wrong JSON type (a string where the layer array belongs, a fractional counter, a non-integer zIndex) are not modelled. Neither are the exceptions such values would raise during rendering.
- Layer records are values in a sequence, and an in-place field write is replacing the element at the found index. This is exact because the source never shares one layer object between two entries and keeps no reference to one across calls.
- `updateProperty` is modelled for the six properties the panel shows: x, y, width, height, opacity and backgroundColor. A call with any other key would create or overwrite that field (id, zIndex, ...); that is not modelled.
- `parseFloat` is modelled as an arbitrary function; its infinities and the floating-point values of positions and opacity are modelled as reals.
- `getLayerIcon` does not model keys that hit `Object.prototype` members (a type named `toString`, for example).
- CSS escaping of ids inside the outline selector is not modelled.
- Store.AddLayerKeepsInvariant: the layer counter is an unbounded integer here (also in `Layers.LayerId`, `Persistence.LoadWithoutLayers` and `Decimal.IntToString`). In the source it is a double: from 2^53 on `layerCounter++` no longer changes it, so two additions hand out the same id, and from 10^21 on `${n}` prints exponent notation. Neither is modelled, so distinct ids hold only below 2^53.
