/** The tile map system: at setup it decodes the tile-index image into one
    atlas rectangle per map cell, and each frame it blits the whole map,
    row by row, relative to the camera. */
module TileMap {
  import opened Components
  import opened Rects

  /** Rows `0 .. rows-1` of a map `width` cells wide start at `row * width`
      in the row-major cell array. */
  lemma RowBounds(row: int, width: nat, rows: nat)
    requires 0 <= row < rows
    ensures 0 <= row * width <= row * width + width == (row + 1) * width <= rows * width
  {
    assert (row + 1) * width == row * width + width;
    assert rows * width == (row + 1) * width + (rows - row - 1) * width;
  }

  /** The blits of the first `|row|` tiles of map row `i`. */
  function RowBlits(row: seq<Rect>, i: int, camera: Transform, zoom: int): (bs: seq<Blit>)
    ensures |bs| == |row|
    decreases |row|
  {
    if row == [] then []
    else RowBlits(row[..|row| - 1], i, camera, zoom)
         + [Blit(TileAtlas, row[|row| - 1], TileDestination(i, |row| - 1, camera, zoom))]
  }

  /** The blits of the first `rows` map rows, `width` cells each. */
  function TileLayout(cells: seq<Rect>, width: nat, rows: nat, camera: Transform, zoom: int): seq<Blit>
    requires rows * width <= |cells|
    decreases rows
  {
    if rows == 0 then []
    else
      RowBounds(rows - 1, width, rows);
      TileLayout(cells, width, rows - 1, camera, zoom)
      + RowBlits(cells[(rows - 1) * width .. rows * width], rows - 1, camera, zoom)
  }

  /** The `j`-th blit of a row draws the row's `j`-th cell at column `j`. */
  lemma {:induction false} RowBlitsAt(row: seq<Rect>, i: int, camera: Transform, zoom: int, j: nat)
    requires j < |row|
    ensures RowBlits(row, i, camera, zoom)[j] == Blit(TileAtlas, row[j], TileDestination(i, j, camera, zoom))
    decreases |row|
  {
    if j < |row| - 1 {
      RowBlitsAt(row[..|row| - 1], i, camera, zoom, j);
    }
  }

  /** The map is drawn in row-major order: blit `i * width + j` draws map
      cell (i, j) at tile position (i, j), and there is one blit per cell. */
  lemma {:induction false} TileLayoutAt(cells: seq<Rect>, width: nat, rows: nat, camera: Transform, zoom: int, i: nat, j: nat)
    requires rows * width <= |cells| && i < rows && j < width
    ensures |TileLayout(cells, width, rows, camera, zoom)| == rows * width
    ensures i * width + j < rows * width
    ensures TileLayout(cells, width, rows, camera, zoom)[i * width + j]
         == Blit(TileAtlas, cells[i * width + j], TileDestination(i, j, camera, zoom))
    decreases rows
  {
    RowBounds(i, width, rows);
    RowBounds(rows - 1, width, rows);
    var prefix := TileLayout(cells, width, rows - 1, camera, zoom);
    var row := cells[(rows - 1) * width .. rows * width];
    if i < rows - 1 {
      TileLayoutAt(cells, width, rows - 1, camera, zoom, i, j);
      RowBounds(i, width, rows - 1);
    } else {
      if rows - 1 > 0 {
        TileLayoutAt(cells, width, rows - 1, camera, zoom, 0, j);
      }
      assert |prefix| == (rows - 1) * width;
      RowBlitsAt(row, rows - 1, camera, zoom, j);
    }
  }

  class TileMapSystem {
    var tilesWidth: nat
    var tilesHeight: nat
    /** One atlas rectangle per map cell, row-major. */
    var tilemap: array<Rect>

    ghost predicate Valid()
      reads this
    {
      tilemap.Length == tilesWidth * tilesHeight
    }

    constructor ()
      ensures Valid() && tilesWidth == 0 && tilesHeight == 0
    {
      tilesWidth, tilesHeight := 0, 0;
      tilemap := new Rect[0];
    }

    /** Setup: `pixels` is the tile-index image, `width` by `height`, pixel
        `i` in row-major order. */
    method Setup(pixels: seq<bv32>, width: nat, height: nat)
      requires |pixels| == width * height
      modifies this
      ensures Valid() && fresh(tilemap)
      ensures tilesWidth == width && tilesHeight == height
      ensures forall k :: 0 <= k < tilemap.Length ==> tilemap[k] == DecodeTile(pixels[k])
    {
      var totalTiles := width * height;
      var cells := new Rect[totalTiles];
      for i := 0 to totalTiles
        invariant forall k :: 0 <= k < i ==> cells[k] == DecodeTile(pixels[k])
      {
        var currentColor := pixels[i];
        var r := ((currentColor >> 16) & 0xff) as int;
        var g := ((currentColor >> 8) & 0xff) as int;
        cells[i] := Rect(r * TILE_EDGE, g * TILE_EDGE, TILE_EDGE, TILE_EDGE);
      }
      tilesWidth, tilesHeight, tilemap := width, height, cells;
    }

    /** Render: every map cell, row by row, at its tile position relative to
        the camera. */
    method Render(camera: Transform, zoom: int) returns (blits: seq<Blit>)
      requires Valid()
      ensures blits == TileLayout(tilemap[..], tilesWidth, tilesHeight, camera, zoom)
    {
      var dstTileSize := zoom * TILE_EDGE;
      var cx, cy := camera.x, camera.y;
      var rect := Rect(-cx, -cy, dstTileSize, dstTileSize);
      blits := [];
      for i := 0 to tilesHeight
        invariant i * tilesWidth <= tilemap.Length
        invariant blits == TileLayout(tilemap[..], tilesWidth, i, camera, zoom)
        invariant rect == TileDestination(i, 0, camera, zoom)
      {
        RowBounds(i, tilesWidth, tilesHeight);
        var start := i * tilesWidth;
        var done := blits;
        for j := 0 to tilesWidth
          invariant blits == done + RowBlits(tilemap[start .. start + j], i, camera, zoom)
          invariant rect == TileDestination(i, j, camera, zoom)
        {
          var src := tilemap[i * tilesWidth + j];
          assert tilemap[start .. start + j + 1][..j] == tilemap[start .. start + j];
          blits := blits + [Blit(TileAtlas, src, rect)];
          rect := rect.(x := rect.x + TILE_WIDTH);
        }
        rect := rect.(x := -cx);
        assert zoom * TILE_EDGE * (i + 1) == zoom * TILE_EDGE * i + dstTileSize;
        rect := rect.(y := rect.y + dstTileSize);
      }
    }
  }
}
