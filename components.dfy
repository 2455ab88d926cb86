/** The plain component records of the game's entity registry, with the
    default member initialisers of their declarations. C++ aggregate
    initialisation (`addComponent<SpriteComponent>(0, 2, 15, 0, 0, 50)`) fills
    the fields in declaration order and leaves the rest at their defaults;
    `Fields` lists a record's fields in that order and the `...Of` functions
    build a record from such a prefix of values. */
module Components {

  /** Identifies an entity's role by name ("PLAYER", "ENEMY", "CAMERA"). */
  datatype Tag = Tag(tag: string)

  /** World position, origin top-left. */
  datatype Transform = Transform(x: int, y: int)

  /** Velocity in world units per second. */
  datatype Movement = Movement(vx: int, vy: int)

  /** Zoom factor, viewport size (vw, vh) and world size (ww, wh). */
  datatype Camera = Camera(zoom: int, vw: int, vh: int, ww: int, wh: int)

  /** A sprite-sheet animation: `x` is the frame column (the facing), `y` the
      animation row, `size` the cell's edge in pixels. `durationSeconds` is a
      `float` in the declaration; every value the program gives it is an
      integer literal. */
  datatype Sprite = Sprite(
    sheetIndex: int,
    frames: int,
    durationSeconds: int,
    x: int,
    y: int,
    size: int,
    lastUpdate: int)

  const DEFAULT_TRANSFORM := Transform(0, 0)
  const DEFAULT_MOVEMENT := Movement(0, 0)
  const DEFAULT_CAMERA := Camera(1, 0, 0, 0, 0)
  const DEFAULT_SPRITE := Sprite(0, 1, 0, 0, 0, 24, 0)

  function TransformFields(t: Transform): seq<int> {
    [t.x, t.y]
  }

  function MovementFields(m: Movement): seq<int> {
    [m.vx, m.vy]
  }

  function CameraFields(c: Camera): seq<int> {
    [c.zoom, c.vw, c.vh, c.ww, c.wh]
  }

  function SpriteFields(s: Sprite): seq<int> {
    [s.sheetIndex, s.frames, s.durationSeconds, s.x, s.y, s.size, s.lastUpdate]
  }

  /** Aggregate initialisation of a TransformComponent. */
  function TransformOf(args: seq<int>): (t: Transform)
    requires |args| <= 2
    ensures TransformFields(t) == args + TransformFields(DEFAULT_TRANSFORM)[|args|..]
  {
    var f := args + TransformFields(DEFAULT_TRANSFORM)[|args|..];
    Transform(f[0], f[1])
  }

  /** Aggregate initialisation of a MovementComponent. */
  function MovementOf(args: seq<int>): (m: Movement)
    requires |args| <= 2
    ensures MovementFields(m) == args + MovementFields(DEFAULT_MOVEMENT)[|args|..]
  {
    var f := args + MovementFields(DEFAULT_MOVEMENT)[|args|..];
    Movement(f[0], f[1])
  }

  /** Aggregate initialisation of a CameraComponent. */
  function CameraOf(args: seq<int>): (c: Camera)
    requires |args| <= 5
    ensures CameraFields(c) == args + CameraFields(DEFAULT_CAMERA)[|args|..]
  {
    var f := args + CameraFields(DEFAULT_CAMERA)[|args|..];
    Camera(f[0], f[1], f[2], f[3], f[4])
  }

  /** Aggregate initialisation of a SpriteComponent. */
  function SpriteOf(args: seq<int>): (s: Sprite)
    requires |args| <= 7
    ensures SpriteFields(s) == args + SpriteFields(DEFAULT_SPRITE)[|args|..]
  {
    var f := args + SpriteFields(DEFAULT_SPRITE)[|args|..];
    Sprite(f[0], f[1], f[2], f[3], f[4], f[5], f[6])
  }

  /** A default Transform is the origin and a default Movement is at rest. */
  lemma DefaultTransformAndMovement()
    ensures TransformOf([]) == Transform(0, 0)
    ensures MovementOf([]).vx == 0 && MovementOf([]).vy == 0
  {
  }

  /** A default Camera has zoom 1 and empty viewport and world. */
  lemma DefaultCamera()
    ensures CameraOf([]) == Camera(1, 0, 0, 0, 0)
  {
  }

  /** A default Sprite: sheet 0, one frame, no duration (so it never
      animates), cell (0, 0), size 24, never updated. */
  lemma DefaultSprite()
    ensures var s := SpriteOf([]);
      s.sheetIndex == 0 && s.frames == 1 && s.durationSeconds == 0 &&
      s.x == 0 && s.y == 0 && s.size == 24 && s.lastUpdate == 0
  {
  }

  /** The field order fixes what the player's initialiser means: frames 2,
      duration 15, size 50, and lastUpdate left at its default. */
  lemma PlayerSpriteInitialiser()
    ensures var s := SpriteOf([0, 2, 15, 0, 0, 50]);
      s.frames == 2 && s.durationSeconds == 15 && s.size == 50 &&
      s.x == 0 && s.y == 0 && s.sheetIndex == 0 && s.lastUpdate == 0
  {
    var s := SpriteOf([0, 2, 15, 0, 0, 50]);
    assert SpriteFields(s) == [0, 2, 15, 0, 0, 50, 0];
  }

  /** Attaching a component built from all of its fields and reading it back
      gives the same record, for every component kind. */
  lemma FieldsRoundTrip(t: Transform, m: Movement, c: Camera, s: Sprite)
    ensures TransformOf(TransformFields(t)) == t
    ensures MovementOf(MovementFields(m)) == m
    ensures CameraOf(CameraFields(c)) == c
    ensures SpriteOf(SpriteFields(s)) == s
  {
  }
}
