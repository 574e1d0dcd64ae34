/**
 * The tile-neighbourhood orchestration of App.cs: ProcessTile with its
 * process-wide deduplication table (MapStore.XY) and the 3x3 pass run on
 * every change of the map's visible region (Map_PropertyChanged).
 *
 * The network fetch, the vector tile decoder and the GeoJSON conversion are
 * one oracle, a TileSource, from (z, x, y) to Fail (any exception they throw)
 * or the decoded layers.
 */
module MapFilterApp {
  import opened Wrappers
  import opened Tiles
  import opened PoiLayer

  /** What fetching and decoding tile (z, x, y) gives: an exception, or its layers. */
  datatype TileFetch = Fail | Layers(layers: seq<Layer>)

  /** Fetch + decode + GeoJSON conversion, called with (z, x, y). */
  type TileSource = (int, int, int) -> TileFetch

  /** A defined visible region: its centre projected to pixels at its zoom level. */
  datatype Viewport = Viewport(centerPixelX: int, centerPixelY: int, zoom: int)

  /** How a ProcessTile call ends: it returns a bool, or it throws. */
  datatype Outcome = Returned(value: bool) | Thrown

  /**
   * The state the orchestration changes: the (x, y) pairs whose keys are in
   * the deduplication table, the map's pins and, for the proofs, the log of
   * tiles fetched so far (in call order). The App class below keeps the table
   * itself, as the strings Key(x, y).
   */
  datatype Store = Store(seen: set<(int, int)>, pins: seq<Pin>, fetches: seq<TileData>)

  const EmptyStore: Store := Store({}, [], [])

  /** The (x, y) pairs of the fetched tiles. */
  function FetchedPairs(fetches: seq<TileData>): set<(int, int)> {
    set i | 0 <= i < |fetches| :: (fetches[i].X, fetches[i].Y)
  }

  /**
   * The table holds exactly the pairs of the fetched tiles, and no (x, y)
   * pair was fetched twice.
   */
  ghost predicate Inv(s: Store) {
    && s.seen == FetchedPairs(s.fetches)
    && forall i, j :: 0 <= i < j < |s.fetches| ==>
         (s.fetches[i].X, s.fetches[i].Y) != (s.fetches[j].X, s.fetches[j].Y)
  }

  /** `s` is `s0` with more pairs recorded and more pins and fetches appended (nothing removed). */
  ghost predicate Extends(s0: Store, s: Store) {
    && s0.seen <= s.seen
    && s0.pins <= s.pins
    && s0.fetches <= s.fetches
  }

  /** ProcessTile(t, m, xOffset, yOffset): the new state and how the call ends. */
  function ProcessTileSpec(s: Store, t: TileData, dx: int, dy: int, source: TileSource): (Store, Outcome) {
    var x, y := t.X + dx, t.Y + dy;
    if (x, y) in s.seen then (s, Returned(false))
    else
      var recorded := s.(seen := s.seen + {(x, y)}, fetches := s.fetches + [TileData(x, y, t.Z)]);
      match source(t.Z, x, y)
      case Fail => (recorded, Thrown)
      case Layers(layers) =>
        if |layers| == 0 then (recorded, Returned(false))
        else
          match SelectPoiLayer(layers)
          case None => (recorded, Thrown)
          case Some(poi) => (recorded.(pins := recorded.pins + PinsOf(poi.features)), Returned(true))
  }

  /** The neighbourhood offsets (dx, dy) in the order the nested loops visit them. */
  const Offsets: seq<(int, int)> :=
    [(-1, -1), (-1, 0), (-1, 1), (0, -1), (0, 0), (0, 1), (1, -1), (1, 0), (1, 1)]

  /**
   * ProcessTile on each offset in turn, stopping at the first call that
   * throws; the bool says whether one threw.
   */
  function RunTiles(s: Store, t: TileData, offsets: seq<(int, int)>, source: TileSource): (Store, bool)
    decreases |offsets|
  {
    if offsets == [] then (s, false)
    else
      var (s1, thrown) := RunTiles(s, t, offsets[..|offsets| - 1], source);
      if thrown then (s1, true)
      else
        var d := offsets[|offsets| - 1];
        var (s2, r) := ProcessTileSpec(s1, t, d.0, d.1, source);
        (s2, r.Thrown?)
  }

  /** One Map_PropertyChanged pass: the new state and whether an alert is shown. */
  function PassSpec(s: Store, region: Option<Viewport>, source: TileSource): (Store, bool) {
    match region
    case None => (s, false)
    case Some(v) => RunTiles(s, WorldToTilePos(v.centerPixelX, v.centerPixelY, v.zoom), Offsets, source)
  }

  /** A session: one pass per region-change event, in order. */
  function RunSession(s: Store, events: seq<Option<Viewport>>, source: TileSource): Store
    decreases |events|
  {
    if events == [] then s
    else PassSpec(RunSession(s, events[..|events| - 1], source), events[|events| - 1], source).0
  }

  // ---------------------------------------------------------------------------
  // ProcessTile

  lemma FetchedPairsAppend(f: seq<TileData>, t: TileData)
    ensures FetchedPairs(f + [t]) == FetchedPairs(f) + {(t.X, t.Y)}
  {
    var g := f + [t];
    assert forall i :: 0 <= i < |f| ==> g[i] == f[i];
    assert g[|f|] == t;
  }

  /**
   * Under the invariant, ProcessTile fetches (x, y) exactly when that pair
   * was never fetched, and then records its key before the fetch (so the key
   * stays whatever the fetch gives); otherwise it returns false and changes
   * nothing.
   */
  lemma ProcessTileFetchesUnseenOnly(s: Store, t: TileData, dx: int, dy: int, source: TileSource)
    requires Inv(s)
    ensures var (s', r) := ProcessTileSpec(s, t, dx, dy, source);
      && ((t.X + dx, t.Y + dy) in FetchedPairs(s.fetches) ==> s' == s && r == Returned(false))
      && ((t.X + dx, t.Y + dy) !in FetchedPairs(s.fetches) ==>
            && s'.seen == s.seen + {(t.X + dx, t.Y + dy)}
            && s'.fetches == s.fetches + [TileData(t.X + dx, t.Y + dy, t.Z)])
  {
  }

  lemma ProcessTileKeepsInv(s: Store, t: TileData, dx: int, dy: int, source: TileSource)
    requires Inv(s)
    ensures Inv(ProcessTileSpec(s, t, dx, dy, source).0)
  {
    var x, y := t.X + dx, t.Y + dy;
    var s' := ProcessTileSpec(s, t, dx, dy, source).0;
    ProcessTileFetchesUnseenOnly(s, t, dx, dy, source);
    if (x, y) !in FetchedPairs(s.fetches) {
      FetchedPairsAppend(s.fetches, TileData(x, y, t.Z));
      var ps := FetchedPairs(s.fetches);
      forall i, j | 0 <= i < j < |s'.fetches|
        ensures (s'.fetches[i].X, s'.fetches[i].Y) != (s'.fetches[j].X, s'.fetches[j].Y)
      {
        if j == |s.fetches| {
          assert (s.fetches[i].X, s.fetches[i].Y) in ps;
        }
      }
    }
  }

  /** A tile of an already fetched (x, y) is skipped at every other zoom too: the key ignores zoom. */
  lemma SameXYOtherZoomIsSkipped(s: Store, t: TileData, dx: int, dy: int, z: int, source: TileSource)
    ensures var s1 := ProcessTileSpec(s, t, dx, dy, source).0;
      ProcessTileSpec(s1, t.(Z := z), dx, dy, source) == (s1, Returned(false))
  {
  }

  /**
   * What a call on a new key adds: no pins when the fetch throws, when the
   * tile has no layers or when no layer is named "pois"; otherwise the pins
   * of the first "pois" layer's Point features, in order.
   */
  lemma ProcessTilePins(s: Store, t: TileData, dx: int, dy: int, source: TileSource)
    requires (t.X + dx, t.Y + dy) !in s.seen
    ensures var (s', r) := ProcessTileSpec(s, t, dx, dy, source);
      var f := source(t.Z, t.X + dx, t.Y + dy);
      && (f.Fail? ==> r == Thrown && s'.pins == s.pins)
      && (f.Layers? && f.layers == [] ==> r == Returned(false) && s'.pins == s.pins)
      && (f.Layers? && f.layers != [] && (forall j :: 0 <= j < |f.layers| ==> f.layers[j].name != PoiLayerName) ==>
            r == Thrown && s'.pins == s.pins)
      && (r == Returned(true) <==>
            f.Layers? && f.layers != [] && exists j :: 0 <= j < |f.layers| && f.layers[j].name == PoiLayerName)
      && (r == Returned(true) ==>
            var poi := f.layers[FirstPoisIndex(f.layers)];
            && poi.name == PoiLayerName
            && s'.pins == s.pins + PinsOf(poi.features)
            && |s'.pins| == |s.pins| + CountPoints(poi.features))
  {
    var f := source(t.Z, t.X + dx, t.Y + dy);
    if f.Layers? {
      SelectPoiLayerIsFirstMatch(f.layers);
      if f.layers != [] && FirstPoisIndex(f.layers) < |f.layers| {
        PinsOfOnePerPoint(f.layers[FirstPoisIndex(f.layers)].features);
      }
    }
  }

  // ---------------------------------------------------------------------------
  // Passes

  lemma {:induction false} RunTilesKeepsInv(s: Store, t: TileData, offsets: seq<(int, int)>, source: TileSource)
    requires Inv(s)
    ensures Inv(RunTiles(s, t, offsets, source).0)
    decreases |offsets|
  {
    if offsets != [] {
      var init := offsets[..|offsets| - 1];
      RunTilesKeepsInv(s, t, init, source);
      var d := offsets[|offsets| - 1];
      ProcessTileKeepsInv(RunTiles(s, t, init, source).0, t, d.0, d.1, source);
    }
  }

  /**
   * A pass only adds: keys, pins and fetches of earlier passes all stay,
   * and each tile it fetches is one of the neighbours, at the centre's zoom.
   */
  lemma {:induction false} RunTilesGrows(s: Store, t: TileData, offsets: seq<(int, int)>, source: TileSource)
    ensures var s' := RunTiles(s, t, offsets, source).0;
      && Extends(s, s')
      && forall i :: |s.fetches| <= i < |s'.fetches| ==>
           s'.fetches[i].Z == t.Z && (s'.fetches[i].X - t.X, s'.fetches[i].Y - t.Y) in offsets
    decreases |offsets|
  {
    if offsets != [] {
      var init := offsets[..|offsets| - 1];
      RunTilesGrows(s, t, init, source);
      var s1 := RunTiles(s, t, init, source).0;
      var s' := RunTiles(s, t, offsets, source).0;
      forall i | |s.fetches| <= i < |s'.fetches|
        ensures s'.fetches[i].Z == t.Z && (s'.fetches[i].X - t.X, s'.fetches[i].Y - t.Y) in offsets
      {
        if i < |s1.fetches| {
          assert s'.fetches[i] == s1.fetches[i];
          assert (s1.fetches[i].X - t.X, s1.fetches[i].Y - t.Y) in init;
        }
      }
    }
  }

  /**
   * Once a call in the pass has thrown, the later offsets are neither
   * recorded nor fetched: the pass ends with the state it had right after
   * the throwing call, keys and pins of the earlier tiles included.
   */
  lemma {:induction false} RunTilesAbortIsFinal(s: Store, t: TileData, offsets: seq<(int, int)>, k: nat, source: TileSource)
    requires k <= |offsets|
    requires RunTiles(s, t, offsets[..k], source).1
    ensures RunTiles(s, t, offsets, source) == RunTiles(s, t, offsets[..k], source)
    decreases |offsets|
  {
    if k < |offsets| {
      var init := offsets[..|offsets| - 1];
      assert init[..k] == offsets[..k];
      RunTilesAbortIsFinal(s, t, init, k, source);
    } else {
      assert offsets[..k] == offsets;
    }
  }

  /** After a pass that did not throw, every tile it visited has its key in the table. */
  lemma {:induction false} RunTilesRecordsVisited(s: Store, t: TileData, offsets: seq<(int, int)>, source: TileSource)
    requires !RunTiles(s, t, offsets, source).1
    ensures forall i :: 0 <= i < |offsets| ==>
      (t.X + offsets[i].0, t.Y + offsets[i].1) in RunTiles(s, t, offsets, source).0.seen
    decreases |offsets|
  {
    if offsets != [] {
      var init := offsets[..|offsets| - 1];
      RunTilesRecordsVisited(s, t, init, source);
    }
  }

  /**
   * When the call at offset k throws, its tile's key stays in the table and so
   * do those of the tiles before it; the pass ends throwing, in a state that
   * extends the one before the throwing call.
   */
  lemma RunTilesThrowRecordsTile(s: Store, t: TileData, offsets: seq<(int, int)>, k: nat, source: TileSource)
    requires k < |offsets|
    requires !RunTiles(s, t, offsets[..k], source).1
    requires ProcessTileSpec(RunTiles(s, t, offsets[..k], source).0, t, offsets[k].0, offsets[k].1, source).1 == Thrown
    ensures RunTiles(s, t, offsets, source).1
    ensures (t.X + offsets[k].0, t.Y + offsets[k].1) in RunTiles(s, t, offsets, source).0.seen
    ensures forall i :: 0 <= i < k ==>
      (t.X + offsets[i].0, t.Y + offsets[i].1) in RunTiles(s, t, offsets, source).0.seen
    ensures Extends(RunTiles(s, t, offsets[..k], source).0, RunTiles(s, t, offsets, source).0)
  {
    RunTilesStep(s, t, offsets, k, source);
    RunTilesAbortIsFinal(s, t, offsets, k + 1, source);
    RunTilesRecordsVisited(s, t, offsets[..k], source);
    assert forall i :: 0 <= i < k ==> offsets[..k][i] == offsets[i];
  }

  /** When all neighbours' keys are already in the table, a pass changes nothing and throws nothing. */
  lemma {:induction false} RunTilesAllSeen(s: Store, t: TileData, offsets: seq<(int, int)>, source: TileSource)
    requires forall i :: 0 <= i < |offsets| ==> (t.X + offsets[i].0, t.Y + offsets[i].1) in s.seen
    ensures RunTiles(s, t, offsets, source) == (s, false)
    decreases |offsets|
  {
    if offsets != [] {
      RunTilesAllSeen(s, t, offsets[..|offsets| - 1], source);
    }
  }

  /** The tiles at `offsets` around `t`, in order. */
  function Neighbours(t: TileData, offsets: seq<(int, int)>): seq<TileData>
    decreases |offsets|
  {
    if offsets == [] then []
    else
      var d := offsets[|offsets| - 1];
      Neighbours(t, offsets[..|offsets| - 1]) + [TileData(t.X + d.0, t.Y + d.1, t.Z)]
  }

  lemma {:induction false} NeighboursAt(t: TileData, offsets: seq<(int, int)>)
    ensures |Neighbours(t, offsets)| == |offsets|
    ensures forall i :: 0 <= i < |offsets| ==>
      Neighbours(t, offsets)[i] == TileData(t.X + offsets[i].0, t.Y + offsets[i].1, t.Z)
    decreases |offsets|
  {
    if offsets != [] {
      NeighboursAt(t, offsets[..|offsets| - 1]);
    }
  }

  lemma FetchedPairsConcat(a: seq<TileData>, b: seq<TileData>)
    ensures FetchedPairs(a + b) == FetchedPairs(a) + FetchedPairs(b)
  {
    var c := a + b;
    assert forall i :: 0 <= i < |a| ==> c[i] == a[i];
    assert forall i :: 0 <= i < |b| ==> c[|a| + i] == b[i];
  }

  /** A pair of an offset outside `offsets` is not among their tiles' pairs. */
  lemma {:induction false} OtherOffsetNotInNeighbours(t: TileData, offsets: seq<(int, int)>, d: (int, int))
    requires forall i :: 0 <= i < |offsets| ==> offsets[i] != d
    ensures (t.X + d.0, t.Y + d.1) !in FetchedPairs(Neighbours(t, offsets))
    decreases |offsets|
  {
    if offsets != [] {
      var n := |offsets| - 1;
      OtherOffsetNotInNeighbours(t, offsets[..n], d);
      FetchedPairsAppend(Neighbours(t, offsets[..n]), TileData(t.X + offsets[n].0, t.Y + offsets[n].1, t.Z));
    }
  }

  /**
   * A pass over distinct offsets, none of whose tiles was recorded before
   * and in which nothing throws, fetches every neighbour once, in offset order.
   */
  lemma {:induction false} RunTilesFetchesInOrder(s: Store, t: TileData, offsets: seq<(int, int)>, source: TileSource)
    requires Inv(s)
    requires forall i, j :: 0 <= i < j < |offsets| ==> offsets[i] != offsets[j]
    requires forall i :: 0 <= i < |offsets| ==> (t.X + offsets[i].0, t.Y + offsets[i].1) !in s.seen
    requires !RunTiles(s, t, offsets, source).1
    ensures RunTiles(s, t, offsets, source).0.fetches == s.fetches + Neighbours(t, offsets)
    decreases |offsets|
  {
    if offsets != [] {
      var n := |offsets| - 1;
      var init := offsets[..n];
      var d := offsets[n];
      RunTilesFetchesInOrder(s, t, init, source);
      var s1 := RunTiles(s, t, init, source).0;
      RunTilesKeepsInv(s, t, init, source);
      var added := Neighbours(t, init);
      assert (t.X + d.0, t.Y + d.1) !in s1.seen by {
        FetchedPairsConcat(s.fetches, added);
        OtherOffsetNotInNeighbours(t, init, d);
      }
      ProcessTileFetchesUnseenOnly(s1, t, d.0, d.1, source);
      var tile := TileData(t.X + d.0, t.Y + d.1, t.Z);
      assert RunTiles(s, t, offsets, source).0.fetches == s1.fetches + [tile];
      calc {
        RunTiles(s, t, offsets, source).0.fetches;
        s1.fetches + [tile];
        (s.fetches + added) + [tile];
        s.fetches + (added + [tile]);
        s.fetches + Neighbours(t, offsets);
      }
    }
  }

  /** Extending the visited prefix by one offset runs one more ProcessTile, unless the prefix threw. */
  lemma RunTilesStep(s: Store, t: TileData, offsets: seq<(int, int)>, k: nat, source: TileSource)
    requires k < |offsets|
    ensures var prev := RunTiles(s, t, offsets[..k], source);
      var next := ProcessTileSpec(prev.0, t, offsets[k].0, offsets[k].1, source);
      RunTiles(s, t, offsets[..k + 1], source) == if prev.1 then prev else (next.0, next.1.Thrown?)
  {
    assert offsets[..k + 1][..k] == offsets[..k];
  }

  /** The nine offsets are distinct, dx outer and dy inner. */
  lemma OffsetsOrder()
    ensures |Offsets| == 9
    ensures forall dx, dy :: -1 <= dx <= 1 && -1 <= dy <= 1 ==> Offsets[3 * (dx + 1) + (dy + 1)] == (dx, dy)
    ensures forall i, j :: 0 <= i < j < |Offsets| ==> Offsets[i] != Offsets[j]
  {
  }

  /** A pass with an undefined region changes nothing and shows no alert. */
  lemma UndefinedRegionIsNoOp(s: Store, source: TileSource)
    ensures PassSpec(s, None, source) == (s, false)
  {
  }

  /**
   * A pass from the empty store in which nothing throws fetches the nine
   * tiles around the centre, dx outer and dy inner.
   */
  lemma FirstPassFetchesNine(v: Viewport, source: TileSource)
    requires !PassSpec(EmptyStore, Some(v), source).1
    ensures var t := WorldToTilePos(v.centerPixelX, v.centerPixelY, v.zoom);
      && PassSpec(EmptyStore, Some(v), source).0.fetches == Neighbours(t, Offsets)
      && |Neighbours(t, Offsets)| == 9
  {
    var t := WorldToTilePos(v.centerPixelX, v.centerPixelY, v.zoom);
    OffsetsOrder();
    NeighboursAt(t, Offsets);
    assert Inv(EmptyStore);
    RunTilesFetchesInOrder(EmptyStore, t, Offsets, source);
  }

  /** Running the same pass again after one that completed changes nothing and shows no alert. */
  lemma PassIdempotent(s: Store, region: Option<Viewport>, source: TileSource)
    requires !PassSpec(s, region, source).1
    ensures var s1 := PassSpec(s, region, source).0;
      PassSpec(s1, region, source) == (s1, false)
  {
    if region.Some? {
      var v := region.value;
      var t := WorldToTilePos(v.centerPixelX, v.centerPixelY, v.zoom);
      RunTilesRecordsVisited(s, t, Offsets, source);
      RunTilesAllSeen(RunTiles(s, t, Offsets, source).0, t, Offsets, source);
    }
  }

  lemma PassKeepsInv(s: Store, region: Option<Viewport>, source: TileSource)
    requires Inv(s)
    ensures Inv(PassSpec(s, region, source).0)
  {
    if region.Some? {
      var v := region.value;
      RunTilesKeepsInv(s, WorldToTilePos(v.centerPixelX, v.centerPixelY, v.zoom), Offsets, source);
    }
  }

  /**
   * Across any sequence of passes from the empty store, no (x, y) pair is
   * fetched twice, and the table holds exactly the keys of the pairs fetched.
   */
  lemma {:induction false} SessionFetchesEachPairOnce(events: seq<Option<Viewport>>, source: TileSource)
    ensures var s := RunSession(EmptyStore, events, source);
      && s.seen == FetchedPairs(s.fetches)
      && forall i, j :: 0 <= i < j < |s.fetches| ==>
           (s.fetches[i].X, s.fetches[i].Y) != (s.fetches[j].X, s.fetches[j].Y)
    decreases |events|
  {
    if events == [] {
      assert Inv(EmptyStore);
    } else {
      var init := events[..|events| - 1];
      SessionFetchesEachPairOnce(init, source);
      PassKeepsInv(RunSession(EmptyStore, init, source), events[|events| - 1], source);
    }
  }

  // ---------------------------------------------------------------------------
  // The application object

  /**
   * The map page: the deduplication table MapStore.XY (its keys; the bool
   * stored with each is always true) and the map's pins. The ghost fields
   * hold the pairs behind the keys and the log of tile fetches.
   */
  class App {
    var xy: set<string>
    var pins: seq<Pin>
    ghost var seen: set<(int, int)>
    ghost var fetches: seq<TileData>

    ghost function State(): Store
      reads this
    {
      Store(seen, pins, fetches)
    }

    /** The table holds exactly the keys "{x}_{y}" of the recorded pairs. */
    ghost predicate Valid()
      reads this
    {
      xy == KeysOf(seen) && Inv(State())
    }

    constructor ()
      ensures Valid() && State() == EmptyStore && xy == {}
    {
      xy := {};
      pins := [];
      seen := {};
      fetches := [];
    }

    method ProcessTile(t: TileData, dx: int, dy: int, source: TileSource) returns (r: Outcome)
      requires Valid()
      modifies this
      ensures Valid()
      ensures (State(), r) == ProcessTileSpec(old(State()), t, dx, dy, source)
    {
      ProcessTileKeepsInv(State(), t, dx, dy, source);
      var x := t.X + dx;
      var y := t.Y + dy;
      var key := Key(x, y);
      KeyInKeysOfIffPair(seen, x, y);
      if key in xy {
        return Returned(false);
      }
      KeysOfAdd(seen, x, y);
      xy := xy + {key};
      seen := seen + {(x, y)};
      fetches := fetches + [TileData(x, y, t.Z)];
      var fetched := source(t.Z, x, y);
      if fetched.Fail? {
        return Thrown;
      }
      var layers := fetched.layers;
      if |layers| == 0 {
        return Returned(false);
      }
      var poiLayer := SelectPoiLayer(layers);
      if poiLayer.None? {
        return Thrown;
      }
      AddPins(poiLayer.value.features);
      return Returned(true);
    }

    /** The foreach over the POI layer's features: one pin per Point, in order. */
    method AddPins(features: seq<Geometry>)
      modifies this
      ensures pins == old(pins) + PinsOf(features)
      ensures xy == old(xy) && seen == old(seen) && fetches == old(fetches)
    {
      var i := 0;
      while i < |features|
        invariant 0 <= i <= |features|
        invariant xy == old(xy) && seen == old(seen) && fetches == old(fetches)
        invariant pins == old(pins) + PinsOf(features[..i])
      {
        var geo := features[i];
        if geo.Point? {
          pins := pins + [Pin(geo.lat, geo.lon)];
        }
        assert features[..i + 1][..i] == features[..i];
        i := i + 1;
      }
      assert features[..i] == features;
    }

    /** Map_PropertyChanged; returns whether the error alert is shown. */
    method PropertyChanged(region: Option<Viewport>, source: TileSource) returns (alert: bool)
      requires Valid()
      modifies this
      ensures Valid()
      ensures (State(), alert) == PassSpec(old(State()), region, source)
    {
      alert := false;
      if region.None? {
        return;
      }
      var v := region.value;
      var t := WorldToTilePos(v.centerPixelX, v.centerPixelY, v.zoom);
      ghost var s0 := State();
      OffsetsOrder();
      for dx := -1 to 2
        invariant Valid()
        invariant (State(), false) == RunTiles(s0, t, Offsets[..3 * (dx + 1)], source)
      {
        for dy := -1 to 2
          invariant Valid()
          invariant (State(), false) == RunTiles(s0, t, Offsets[..3 * (dx + 1) + (dy + 1)], source)
        {
          ghost var k := 3 * (dx + 1) + (dy + 1);
          assert Offsets[k] == (dx, dy);
          RunTilesStep(s0, t, Offsets, k, source);
          var r := ProcessTile(t, dx, dy, source);
          if r.Thrown? {
            RunTilesAbortIsFinal(s0, t, Offsets, k + 1, source);
            return true;
          }
        }
      }
      assert Offsets[..9] == Offsets;
    }
  }
}
