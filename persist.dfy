/**
 * Local persistence of the store: what `saveProject` writes under the key `caplayground-project`
 * and how `loadFromStorage` turns what it reads back into a store state. The JSON text itself is
 * abstracted: a stored value is either absent, unparsable, or a parsed record.
 */
module Persistence {
  import opened Opt
  import opened Layers
  import opened Store

  /**
   * A parsed project object; `None` is a missing or `null` field. A falsy value that is present
   * (`0`, the empty string) is `Some`, and `Load` treats it as missing, as `|| 0` and `|| null` do.
   */
  datatype ProjectRecord = ProjectRecord(
    layers: Option<seq<Layer>>,
    activeLayerId: Option<string>,
    layerCounter: Option<int>)

  /**
   * What `localStorage.getItem` yields: nothing (or the empty string), text that does not parse
   * (or parses to `null`, which makes reading a field throw), or a parsed record.
   */
  datatype StoredValue = Absent | Unparsable | Parsed(record: ProjectRecord)

  /** `saveProject`: the three fields of the store, as they are. */
  function Save(p: Project): (rec: ProjectRecord)
    ensures rec.layers.Some? && rec.layerCounter.Some?
    ensures rec.activeLayerId == p.activeLayerId
  {
    ProjectRecord(Some(p.layers), p.activeLayerId, Some(p.layerCounter))
  }

  /** `x || null` for a string field: the empty string counts as missing. */
  function NonEmpty(s: Option<string>): (r: Option<string>)
    ensures r.Some? <==> s.Some? && s.value != ""
    ensures r.Some? ==> r == s
  {
    if s.Some? && s.value != "" then s else None
  }

  /** `loadFromStorage`: keep the state, fall back to adding a background, or adopt the record. */
  function Load(p: Project, v: StoredValue): (r: Project)
    ensures v.Absent? ==> r == p
    ensures v.Unparsable? ==> r.layers == p.layers + [Background]
                              && r.activeLayerId == Some(BackgroundId) && r.layerCounter == p.layerCounter
    ensures v.Parsed? ==> 0 < |r.layers| && r.layerCounter == v.record.layerCounter.GetOr(0)
    ensures 0 < |p.layers| ==> 0 < |r.layers|
  {
    match v
    case Absent => p
    case Unparsable => AddDefaultLayer(p)
    case Parsed(rec) =>
      var loaded := Project(rec.layers.GetOr([]), NonEmpty(rec.activeLayerId), rec.layerCounter.GetOr(0));
      if loaded.layers == [] then AddDefaultLayer(loaded) else loaded
  }

  /** Saving and loading again restores the state, unless it has no layers or an empty active id. */
  lemma SaveLoadRoundTrip(p: Project, q: Project)
    requires p.layers != [] && p.activeLayerId != Some("")
    ensures Load(q, Parsed(Save(p))) == p
  {
  }

  /** An empty active id does not survive the round trip: it comes back as no active layer. */
  lemma SaveLoadDropsEmptyActiveId(p: Project, q: Project)
    requires p.layers != [] && p.activeLayerId == Some("")
    ensures Load(q, Parsed(Save(p))) == p.(activeLayerId := None)
  {
  }

  /** A record with layers is adopted field by field, missing fields taking `null` and `0`. */
  lemma LoadRecord(p: Project, rec: ProjectRecord)
    requires rec.layers.Some? && rec.layers.value != []
    ensures Load(p, Parsed(rec)) ==
      Project(rec.layers.value, NonEmpty(rec.activeLayerId), rec.layerCounter.GetOr(0))
  {
  }

  /**
   * A record without layers gives the single default background, like a reset, but keeps the
   * stored counter, so that the next ids continue after it.
   */
  lemma LoadWithoutLayers(p: Project, rec: ProjectRecord)
    requires rec.layers.GetOr([]) == []
    ensures Load(p, Parsed(rec)) == Reset(p).(layerCounter := rec.layerCounter.GetOr(0))
    ensures SessionInvariant(Load(p, Parsed(rec)))
  {
    var r := Load(p, Parsed(rec));
    forall k | r.layerCounter < k ensures Background.id != LayerId(k) {
      LayerIdNotBackground(k);
    }
  }

  /**
   * Unparsable storage at start-up leaves two background layers: the constructor's and the one
   * the failed load adds. The background is then no longer the only layer with its id.
   */
  lemma CorruptStartup()
    ensures Load(Startup(), Unparsable).layers == [Background, Background]
    ensures Load(Startup(), Unparsable).activeLayerId == Some(BackgroundId)
    ensures !SessionInvariant(Load(Startup(), Unparsable))
  {
    var r := Load(Startup(), Unparsable);
    assert r.layers[1].id == BackgroundId;
  }
}
