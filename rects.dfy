/** The rectangle arithmetic of the two render systems: the source and
    destination of each sprite blit, the decoding of the tile-index image's
    pixels into source rectangles, and where each map tile is drawn. The draw
    calls themselves are left to the host renderer; a `Blit` records the
    arguments one call would receive. */
module Rects {
  import opened Components
  import CInt

  /** An SDL_Rect: top-left corner, width, height. */
  datatype Rect = Rect(x: int, y: int, w: int, h: int)

  /** The texture a blit reads from: one of the preloaded sprite sheets, or
      the tile atlas. */
  datatype Texture = SpriteSheet(index: int) | TileAtlas

  /** One textured-rectangle copy handed to the renderer. */
  datatype Blit = Blit(texture: Texture, src: Rect, dst: Rect)

  /** Edge of one tile in the tile atlas, in pixels. */
  const TILE_EDGE := 16
  /** Horizontal distance between map tiles on screen (`tileWidth`). */
  const TILE_WIDTH := 60

  /** The cell of the sprite sheet showing frame column `s.x`, row `s.y`. */
  function SpriteSource(s: Sprite): (r: Rect)
    ensures r.w == s.size && r.h == s.size
    ensures s.size > 0 ==> r.x % s.size == 0 && r.x / s.size == s.x
    ensures s.size > 0 ==> r.y % s.size == 0 && r.y / s.size == s.y
  {
    if s.size > 0 then
      CInt.EuclidUnique(s.x * s.size, s.size, s.x, 0);
      CInt.EuclidUnique(s.y * s.size, s.size, s.y, 0);
      Rect(s.x * s.size, s.y * s.size, s.size, s.size)
    else
      Rect(s.x * s.size, s.y * s.size, s.size, s.size)
  }

  /** Where a sprite at world position `pos` appears on screen: camera
      relative, scaled by the camera's zoom. */
  function SpriteDestination(pos: Transform, s: Sprite, camera: Transform, zoom: int): (r: Rect)
    ensures r.x + camera.x == pos.x && r.y + camera.y == pos.y
    ensures r.w == zoom * s.size && r.h == zoom * s.size
    ensures zoom > 0 && s.size > 0 ==> r.w >= s.size
  {
    var edge := zoom * s.size;
    assert zoom > 0 && s.size > 0 ==> edge >= s.size by {
      if zoom > 0 && s.size > 0 {
        assert edge == s.size + (zoom - 1) * s.size;
      }
    }
    Rect(pos.x - camera.x, pos.y - camera.y, edge, edge)
  }

  /** The blit for one sprite-bearing entity. */
  function SpriteBlit(pos: Transform, s: Sprite, camera: Transform, zoom: int): Blit {
    Blit(SpriteSheet(s.sheetIndex), SpriteSource(s), SpriteDestination(pos, s, camera, zoom))
  }

  /** The tile-index image encodes, per map cell, the atlas tile to draw: its
      red channel (bits 16-23) is the tile's column and its green channel
      (bits 8-15) the tile's row, in 16-pixel steps. */
  function DecodeTile(colour: bv32): (r: Rect)
    ensures r.w == TILE_EDGE && r.h == TILE_EDGE
    ensures 0 <= r.x <= 255 * TILE_EDGE && r.x % TILE_EDGE == 0
    ensures 0 <= r.y <= 255 * TILE_EDGE && r.y % TILE_EDGE == 0
    ensures r.x / TILE_EDGE == ((colour >> 16) & 0xff) as int
    ensures r.y / TILE_EDGE == ((colour >> 8) & 0xff) as int
  {
    var red := ((colour >> 16) & 0xff) as int;
    var green := ((colour >> 8) & 0xff) as int;
    Rect(red * TILE_EDGE, green * TILE_EDGE, TILE_EDGE, TILE_EDGE)
  }

  /** A 32-bit pixel with alpha, red, green and blue in that order from the
      most significant byte. */
  function PackPixel(alpha: bv8, red: bv8, green: bv8, blue: bv8): bv32 {
    (alpha as bv32 << 24) | (red as bv32 << 16) | (green as bv32 << 8) | blue as bv32
  }

  /** Decoding reads back the tile coordinates a pixel was painted with,
      whatever its blue and alpha channels. */
  lemma DecodePackedPixel(alpha: bv8, red: bv8, green: bv8, blue: bv8)
    ensures DecodeTile(PackPixel(alpha, red, green, blue))
      == Rect(red as int * TILE_EDGE, green as int * TILE_EDGE, TILE_EDGE, TILE_EDGE)
  {
    var a, r, g, b := alpha as bv32, red as bv32, green as bv32, blue as bv32;
    assert a < 256 && r < 256 && g < 256 && b < 256;
    var c := PackPixel(alpha, red, green, blue);
    assert (c >> 16) & 0xff == r;
    assert (c >> 8) & 0xff == g;
    Widen(red);
    Widen(green);
  }

  lemma Widen(v: bv8)
    ensures (v as bv32) as int == v as int
  {
  }

  /** The screen rectangle of map tile (row `i`, column `j`). The drawing loop
      starts at `(-cx, -cy)` and steps `TILE_WIDTH` (60) to the right per
      column but `zoom * 16` down per row, while each tile is drawn
      `zoom * 16` wide. */
  function TileDestination(i: int, j: int, camera: Transform, zoom: int): (r: Rect)
    ensures r.x + camera.x == TILE_WIDTH * j
    ensures r.y + camera.y == zoom * TILE_EDGE * i
    ensures r.w == zoom * TILE_EDGE && r.h == zoom * TILE_EDGE
  {
    Rect(-camera.x + TILE_WIDTH * j, -camera.y + zoom * TILE_EDGE * i, zoom * TILE_EDGE, zoom * TILE_EDGE)
  }

  /** The two strides never agree: for no integer zoom are the tiles laid out
      on a square grid, and horizontally neighbouring tiles are spaced apart
      from (zoom <= 3) or overlap (zoom >= 4) each other. */
  lemma TileStridesDiffer(i: int, j: int, camera: Transform, zoom: int)
    ensures TileDestination(i, j + 1, camera, zoom).x - TileDestination(i, j, camera, zoom).x
         != TileDestination(i + 1, j, camera, zoom).y - TileDestination(i, j, camera, zoom).y
    ensures zoom <= 3 ==> TileDestination(i, j, camera, zoom).x + TileDestination(i, j, camera, zoom).w
                          < TileDestination(i, j + 1, camera, zoom).x
    ensures zoom >= 4 ==> TileDestination(i, j, camera, zoom).x + TileDestination(i, j, camera, zoom).w
                          > TileDestination(i, j + 1, camera, zoom).x
  {
  }
}
