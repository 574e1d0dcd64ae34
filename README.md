# MapFilter tile orchestration, in Dafny

A model of the tile-neighbourhood logic of the MapFilter Xamarin app
(`MapFilter/MapFilter/App.cs`). Each time the map's visible region changes, the app
does three things. It quantises the region's centre to a 512-pixel Web Mercator tile.
It then visits the 3x3 neighbourhood of that tile, dx outer and dy inner. For each
neighbour not yet in the process-wide table `MapStore.XY`, it records the key
`"{x}_{y}"`, fetches and decodes the vector tile, takes the first layer named `"pois"`,
and adds one pin per Point feature. Any exception ends the pass. Nothing already
recorded or drawn is rolled back.

Files:

- `wrappers.dfy`: `Option`.
- `decimal.dfy`: the decimal text of an `int`, as `$"{x}"` writes it, and a parser that reads it back.
- `tiles.dfy`: `TileData`, `TileSize = 512`, C#'s truncating `/`, `WorldToTilePos` and the key `Key(x, y)`.
- `poi_layer.dfy`: the decoded tile's shape (layers, Point/other features, pins), the `"pois"` selection and the pin filter.
- `app.dfy`: the orchestration.
  - `ProcessTileSpec`, `RunTiles` and `PassSpec` specify one tile, a run of tiles and one pass, as functions on a `Store` value.
  - The `App` class holds the real string table `xy` and the pins. Its methods `ProcessTile` and `PropertyChanged` mirror the C# code and are proved to match those functions.

The fetch, the decoder and the GeoJSON conversion form one oracle, `TileSource`. It maps
(z, x, y) either to `Fail`, which stands for any exception they throw, or to the decoded
layers. The specification functions deduplicate on (x, y) pairs. The class deduplicates
on the strings `Key(x, y)`, exactly as the source does. `Valid()` ties the two together
with `xy == KeysOf(seen)`. Key injectivity (`KeyInjective`) is what makes the string
lookup agree with the pair lookup.

Three behaviours of the code are modelled as written, though a reader might expect otherwise:

- A fetch or decode failure does not skip the tile; it aborts the whole pass.
- A tile with layers but no `"pois"` layer dereferences null at App.cs:102 and also aborts the pass.
- Neighbour coordinates are not clamped to `[0, 2^z)`, so keys such as `"-1_0"` occur.

## Model

| member | source | states |
|---|---|---|
| `Tiles.TruncDiv` | MapFilter/MapFilter/App.cs:61-62 | the quotient brackets the dividend as C#'s truncating `/` does: `q*b <= a < q*b + b` for `a >= 0`, `q*b - b < a <= q*b` for `a < 0` |
| `Tiles.WorldToTilePos` | MapFilter/MapFilter/App.cs:52-67 | `Z` is the zoom; for non-negative pixels `X*512 <= px < (X+1)*512` and likewise for `Y`; for negative pixels the truncated bracket |
| `Tiles.PixelInTileQuantisesToTile` | MapFilter/MapFilter/App.cs:59-64 | every pixel inside tile (x, y) quantises back to (x, y) at the given zoom |
| `Decimal.NatToDecimalDigits` | MapFilter/MapFilter/App.cs:74 | the decimal text of a natural number is a non-empty run of digits with no leading zero |
| `Decimal.DecimalRoundTrip` | MapFilter/MapFilter/App.cs:74 | reading the decimal text of `n` back gives `n` |
| `Decimal.IntToStringChars` | MapFilter/MapFilter/App.cs:74 | the text of an `int` is digits, preceded by `-` exactly when it is negative, so it never contains `_` |
| `Decimal.IntRoundTrip` | MapFilter/MapFilter/App.cs:74 | `ParseInt(IntToString(i)) == Some(i)` for every integer, negative ones included |
| `Decimal.IntToStringInjective` | MapFilter/MapFilter/App.cs:74 | two integers have the same text iff they are equal |
| `Tiles.SeparatorPosition` | MapFilter/MapFilter/App.cs:74 | in two equal `a_b` strings whose heads hold no `_`, the separator stands at the same place |
| `Tiles.KeyInjective` | MapFilter/MapFilter/App.cs:74 | `Key(x1, y1) == Key(x2, y2)` iff `x1 == x2 && y1 == y2`; the zoom is not an argument of the key |
| `Tiles.KeyInKeysOfIffPair` | MapFilter/MapFilter/App.cs:76 | a key is in the table of a set of pairs iff its pair is in the set |
| `PoiLayer.FirstPoisIndex` | MapFilter/MapFilter/App.cs:98 | the result is the index of the first layer named `"pois"`, or the layer count when there is none |
| `PoiLayer.SelectPoiLayerIsFirstMatch` | MapFilter/MapFilter/App.cs:98 | the selection is null iff no layer is named `"pois"`; otherwise it is the first such layer |
| `PoiLayer.PinsOfOnePerPoint` | MapFilter/MapFilter/App.cs:104-113 | one pin per Point feature: the count equals the number of Points, and the pin at position "Points before i" is made from feature i's coordinates |
| `PoiLayer.NoPointsNoPins` | MapFilter/MapFilter/App.cs:107 | features that are not Points produce no pin |
| `MapFilterApp.ProcessTileFetchesUnseenOnly` | MapFilter/MapFilter/App.cs:74-83 | a tile whose pair was already fetched returns false and changes nothing. Otherwise the pair is recorded and the tile is fetched once, whatever the fetch gives |
| `MapFilterApp.ProcessTileKeepsInv` | MapFilter/MapFilter/App.cs:76-88 | the table stays equal to the pairs fetched, and no pair is fetched twice |
| `MapFilterApp.SameXYOtherZoomIsSkipped` | MapFilter/MapFilter/App.cs:74-79 | once (x, y) is processed at one zoom, the same (x, y) at any other zoom is skipped |
| `MapFilterApp.ProcessTilePins` | MapFilter/MapFilter/App.cs:88-114 | on a new key: a fetch failure throws with no pins added; an empty layer list returns false with no pins added; layers without `"pois"` throw with no pins added; otherwise it returns true and appends the first `"pois"` layer's pins, one per Point |
| `MapFilterApp.RunTilesKeepsInv` | MapFilter/MapFilter/App.cs:133-139 | a run of ProcessTile calls keeps the table/fetch-log invariant |
| `MapFilterApp.RunTilesGrows` | MapFilter/MapFilter/App.cs:126-148 | a pass only adds pairs, pins and fetches. Every tile it fetches is a neighbour of the centre, at the centre's zoom |
| `MapFilterApp.RunTilesAbortIsFinal` | MapFilter/MapFilter/App.cs:126-148 | once a call throws, later offsets are neither recorded nor fetched. The pass ends in the state just after the throwing call, and earlier keys and pins remain |
| `MapFilterApp.RunTilesStep` | MapFilter/MapFilter/App.cs:133-139 | visiting one more offset runs one more ProcessTile, unless an earlier call threw |
| `MapFilterApp.RunTilesRecordsVisited` | MapFilter/MapFilter/App.cs:133-139 | after a pass that did not throw, every neighbour's pair is in the table |
| `MapFilterApp.RunTilesThrowRecordsTile` | MapFilter/MapFilter/App.cs:126-148 | when the call at an offset throws, the pass ends throwing. That tile's key and the keys of the tiles before it remain in the table, and the final state extends the one before the throwing call |
| `MapFilterApp.RunTilesAllSeen` | MapFilter/MapFilter/App.cs:76-79 | when every neighbour is already recorded, a pass changes nothing and throws nothing |
| `MapFilterApp.NeighboursAt` | MapFilter/MapFilter/App.cs:71-72 | neighbour i is tile (X+dx_i, Y+dy_i) at the centre's zoom, with no clamping |
| `MapFilterApp.OtherOffsetNotInNeighbours` | MapFilter/MapFilter/App.cs:71-72 | an offset outside a list gives a pair that none of the list's tiles has |
| `MapFilterApp.RunTilesFetchesInOrder` | MapFilter/MapFilter/App.cs:133-139 | over distinct, unrecorded offsets with no throw, the fetches are exactly the neighbours in offset order |
| `MapFilterApp.OffsetsOrder` | MapFilter/MapFilter/App.cs:133-136 | the nine offsets are distinct, and offset 3(dx+1)+(dy+1) is (dx, dy): dx outer, dy inner |
| `MapFilterApp.UndefinedRegionIsNoOp` | MapFilter/MapFilter/App.cs:121-122 | a pass with an undefined region changes nothing and shows no alert |
| `MapFilterApp.FirstPassFetchesNine` | MapFilter/MapFilter/App.cs:131-139 | a first pass that does not throw fetches the nine neighbours of the centre tile in loop order |
| `MapFilterApp.PassIdempotent` | MapFilter/MapFilter/App.cs:117-149 | repeating a pass that completed changes nothing and shows no alert |
| `MapFilterApp.PassKeepsInv` | MapFilter/MapFilter/App.cs:117-149 | a pass keeps the table/fetch-log invariant |
| `MapFilterApp.SessionFetchesEachPairOnce` | MapFilter/MapFilter/App.cs:76-83 | over any sequence of passes from an empty table, no (x, y) pair is fetched twice, and the table holds exactly the fetched pairs |
| `MapFilterApp.App.constructor` | MapFilter/MapFilter/App.cs:19-30 | the first `App` of the process starts with a new map that has no pins. The table is empty only because nothing has been stored in it yet, and no tile has been fetched |
| `MapFilterApp.App.ProcessTile` | MapFilter/MapFilter/App.cs:69-115 | the string table, pins, fetch log and outcome are those `ProcessTileSpec` gives; the table stays the key set `"{x}_{y}"` of the recorded pairs |
| `MapFilterApp.App.AddPins` | MapFilter/MapFilter/App.cs:104-113 | the foreach appends `PinsOf(features)`, one pin per Point in order, and changes nothing else |
| `MapFilterApp.App.PropertyChanged` | MapFilter/MapFilter/App.cs:117-149 | the nested dx/dy loop with early exit on a throw yields the state and alert that `PassSpec` gives |

## Left out

- `ZoomLevel` (App.cs:32-37) uses a floating-point logarithm and average. The zoom is an integer field of `Viewport`.
- `TileSystem.LatLongToPixelXY` (App.cs:57) is floating-point Mercator projection code that is not part of this model. The centre's pixel coordinates are integer fields of `Viewport`. Any exception thrown while computing them is not modelled.
- `GetTileFromWeb` (App.cs:39-49), `VectorTileParser.Parse` (App.cs:92) and `ToGeoJSON` (App.cs:102): the HTTP fetch, the Mapbox vector tile decoder and the GeoJSON conversion. Only their result is modelled, as the `TileSource` oracle: an exception, or the decoded layers.
- The `stream == null` branch (App.cs:89-90) is unreachable, because `GetTileFromWeb` never returns null. It is not modelled as a separate outcome.
- The casts of a Point's coordinates to a geographic position (App.cs:109-110) are assumed to succeed.
- Pin labels (App.cs:111) use double-to-string formatting, which is left out. Coordinates are opaque `real` values.
- The alert (App.cs:147-148) is the `alert` result of `PropertyChanged`. Its message text is left out.
- The Xamarin UI is left out: `Map`, `ContentPage`, the event subscription, the `async void` plumbing and the empty lifecycle hooks (App.cs:151-164).
- `App.constructor`: assumes one `App` per process. `MapStore.XY` is static (App.cs:76, 82), so it survives a new `App` and its new map. A second `App` would start with no pins but with every earlier key, and would skip those tiles without drawing them again. This model does not capture that static lifetime.
- `MapStore` is not part of this model. Its table is a set of key strings, because the stored `bool` is always `true`.
- `Decimal.IntToString`: does not model current-culture formatting. Negative numbers use an ASCII `-`, as in the invariant culture.
- `App.ProcessTile`: does not model 32-bit overflow of `t.X + xOffset`. Integers are unbounded; tile indices stay far from the `int` bounds.
