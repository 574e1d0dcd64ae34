/**
 * Tile addressing of the map: the (X, Y, Z) record, the pixel-to-tile
 * quantisation of App.WorldToTilePos and the "{x}_{y}" deduplication key.
 */
module Tiles {
  import opened Decimal

  /** Edge length of one tile in pixels (App.TileSize). */
  const TileSize: int := 512

  /** A tile address: column X, row Y, zoom Z (the source's TileData). */
  datatype TileData = TileData(X: int, Y: int, Z: int)

  /** C#'s integer `/`, which truncates toward zero, for a positive divisor. */
  function TruncDiv(a: int, b: int): (q: int)
    requires b > 0
    ensures a >= 0 ==> q * b <= a < q * b + b
    ensures a < 0 ==> q * b - b < a <= q * b
  {
    if a >= 0 then a / b else -((-a) / b)
  }

  /**
   * Quantises the centre's pixel coordinates (already projected at `zoom`)
   * to the tile that contains them.
   */
  function WorldToTilePos(pixelX: int, pixelY: int, zoom: int): (t: TileData)
    ensures t.Z == zoom
    ensures pixelX >= 0 ==> t.X * TileSize <= pixelX < (t.X + 1) * TileSize
    ensures pixelY >= 0 ==> t.Y * TileSize <= pixelY < (t.Y + 1) * TileSize
    ensures pixelX < 0 ==> (t.X - 1) * TileSize < pixelX <= t.X * TileSize
    ensures pixelY < 0 ==> (t.Y - 1) * TileSize < pixelY <= t.Y * TileSize
  {
    TileData(TruncDiv(pixelX, TileSize), TruncDiv(pixelY, TileSize), zoom)
  }

  /** Every pixel of tile (x, y) quantises back to (x, y). */
  lemma PixelInTileQuantisesToTile(x: nat, y: nat, zoom: int, offX: int, offY: int)
    requires 0 <= offX < TileSize && 0 <= offY < TileSize
    ensures WorldToTilePos(x * TileSize + offX, y * TileSize + offY, zoom) == TileData(x, y, zoom)
  {
  }

  /** The deduplication key `$"{x}_{y}"`; the zoom is not part of it. */
  function Key(x: int, y: int): string {
    IntToString(x) + "_" + IntToString(y)
  }

  /** Two "a_b" strings whose heads hold no '_' agree on where the '_' stands. */
  lemma SeparatorPosition(a1: string, b1: string, a2: string, b2: string)
    requires forall k :: 0 <= k < |a1| ==> a1[k] != '_'
    requires forall k :: 0 <= k < |a2| ==> a2[k] != '_'
    requires a1 + "_" + b1 == a2 + "_" + b2
    ensures |a1| == |a2|
  {
    var s := a1 + "_" + b1;
    assert s[|a1|] == '_';
    assert s == a2 + "_" + b2 && s[|a2|] == '_';
  }

  /** Distinct (x, y) pairs never share a key. */
  lemma KeyInjective(x1: int, y1: int, x2: int, y2: int)
    ensures Key(x1, y1) == Key(x2, y2) <==> x1 == x2 && y1 == y2
  {
    var a1, a2 := IntToString(x1), IntToString(x2);
    var b1, b2 := IntToString(y1), IntToString(y2);
    var k := Key(x1, y1);
    IntToStringChars(x1);
    IntToStringChars(x2);
    if k == Key(x2, y2) {
      SeparatorPosition(a1, b1, a2, b2);
      assert a1 == k[..|a1|] == a2;
      assert b1 == k[|a1| + 1..] == b2;
      IntToStringInjective(x1, x2);
      IntToStringInjective(y1, y2);
    }
  }

  /** The keys of a set of (x, y) pairs, as the deduplication table holds them. */
  function KeysOf(pairs: set<(int, int)>): set<string> {
    set p | p in pairs :: Key(p.0, p.1)
  }

  /** Looking a key up in the table coincides with looking the pair up. */
  lemma KeyInKeysOfIffPair(pairs: set<(int, int)>, x: int, y: int)
    ensures Key(x, y) in KeysOf(pairs) <==> (x, y) in pairs
  {
    if Key(x, y) in KeysOf(pairs) {
      var p :| p in pairs && Key(p.0, p.1) == Key(x, y);
      KeyInjective(p.0, p.1, x, y);
    }
  }

  /** Adding a pair to the table adds its key. */
  lemma KeysOfAdd(pairs: set<(int, int)>, x: int, y: int)
    ensures KeysOf(pairs + {(x, y)}) == KeysOf(pairs) + {Key(x, y)}
  {
  }
}
