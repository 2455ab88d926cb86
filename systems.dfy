/** The scene's registry and the systems that run over it. Each system is a
    method that changes the registry in place, as the game's systems change
    components through references, and each is proved to do exactly what the
    matching rule of `Input` or `Gameplay` says. The registry is a sequence
    of entities; a view visits the entities holding all the components it
    asks for, in index order. */
module Systems {
  import opened Components
  import opened Rects
  import opened Input
  import Gameplay
  import CInt

  datatype Option<T> = None | Some(value: T)

  /** One registry entry. Tag and Transform are attached when the entity is
      created; the other components are attached by the setup systems. */
  datatype Entity = Entity(
    tag: Tag,
    transform: Transform,
    movement: Option<Movement>,
    camera: Option<Camera>,
    sprite: Option<Sprite>)

  const PLAYER_TAG := "PLAYER"
  const ENEMY_TAG := "ENEMY"
  const CAMERA_TAG := "CAMERA"

  /** The shared registry and the three privileged entity handles. */
  class Scene {
    var entities: seq<Entity>
    var player: nat
    var enemy: nat
    var mainCamera: nat

    constructor ()
      ensures entities == [] && player == 0 && enemy == 0 && mainCamera == 0
    {
      entities := [];
      player, enemy, mainCamera := 0, 0, 0;
    }

    /** A new entity with its Tag and Transform attached. */
    method CreateEntity(name: string, x: int, y: int) returns (e: nat)
      modifies this`entities
      ensures e == |old(entities)|
      ensures entities == old(entities) + [Entity(Tag(name), TransformOf([x, y]), None, None, None)]
    {
      e := |entities|;
      entities := entities + [Entity(Tag(name), TransformOf([x, y]), None, None, None)];
    }

    method AddMovement(e: nat, m: Movement)
      requires e < |entities|
      modifies this`entities
      ensures entities == old(entities)[e := old(entities)[e].(movement := Some(m))]
    {
      entities := entities[e := entities[e].(movement := Some(m))];
    }

    method AddSprite(e: nat, s: Sprite)
      requires e < |entities|
      modifies this`entities
      ensures entities == old(entities)[e := old(entities)[e].(sprite := Some(s))]
    {
      entities := entities[e := entities[e].(sprite := Some(s))];
    }

    method AddCamera(e: nat, c: Camera)
      requires e < |entities|
      modifies this`entities
      ensures entities == old(entities)[e := old(entities)[e].(camera := Some(c))]
    {
      entities := entities[e := entities[e].(camera := Some(c))];
    }

    /** The player handle refers to an entity with Movement and Sprite. */
    ghost predicate PlayerReady()
      reads this
    {
      player < |entities| && entities[player].movement.Some? && entities[player].sprite.Some?
    }

    /** The camera handle refers to an entity with a Camera. */
    ghost predicate CameraReady()
      reads this
    {
      mainCamera < |entities| && entities[mainCamera].camera.Some?
    }
  }

  /** The program-wide `playedAction` flag of the player input system. */
  class ActionLatch {
    var playedAction: bool

    constructor ()
      ensures !playedAction
    {
      playedAction := false;
    }
  }

  const INITIAL_PLAYER :=
    Entity(Tag(PLAYER_TAG), Transform(200, 250), Some(Movement(0, 0)), None, Some(Sprite(0, 2, 15, 0, 0, 50, 0)))
  const INITIAL_ENEMY :=
    Entity(Tag(ENEMY_TAG), Transform(1100, 650), Some(Movement(200, 0)), None, Some(Sprite(1, 2, 25, 0, 0, 55, 0)))

  function InitialCamera(zoom: int, vw: int, vh: int, ww: int, wh: int): Entity {
    Entity(Tag(CAMERA_TAG), Transform(0, 0), None, Some(Camera(zoom, vw, vh, ww, wh)), None)
  }

  /** Creates the player at (200, 250), at rest, with sprite sheet 0. */
  method CharacterSetup(scene: Scene)
    modifies scene
    ensures scene.entities == old(scene.entities) + [INITIAL_PLAYER]
    ensures scene.player == |old(scene.entities)|
    ensures scene.enemy == old(scene.enemy) && scene.mainCamera == old(scene.mainCamera)
  {
    var player := scene.CreateEntity(PLAYER_TAG, 200, 250);
    scene.AddMovement(player, MovementOf([0, 0]));
    assert SpriteFields(SpriteOf([0, 2, 15, 0, 0, 50])) == SpriteFields(Sprite(0, 2, 15, 0, 0, 50, 0));
    scene.AddSprite(player, SpriteOf([0, 2, 15, 0, 0, 50]));
    scene.player := player;
  }

  /** Creates the enemy at (1100, 650), moving right at 200, with sheet 1. */
  method EnemySetup(scene: Scene)
    modifies scene
    ensures scene.entities == old(scene.entities) + [INITIAL_ENEMY]
    ensures scene.enemy == |old(scene.entities)|
    ensures scene.player == old(scene.player) && scene.mainCamera == old(scene.mainCamera)
  {
    var enemy := scene.CreateEntity(ENEMY_TAG, 1100, 650);
    scene.AddMovement(enemy, MovementOf([200, 0]));
    assert SpriteFields(SpriteOf([1, 2, 25, 0, 0, 55])) == SpriteFields(Sprite(1, 2, 25, 0, 0, 55, 0));
    scene.AddSprite(enemy, SpriteOf([1, 2, 25, 0, 0, 55]));
    scene.enemy := enemy;
  }

  /** Creates the camera at (0, 0) with the given zoom, viewport and world. */
  method CameraSetup(scene: Scene, zoom: int, vw: int, vh: int, ww: int, wh: int)
    modifies scene
    ensures scene.entities == old(scene.entities) + [InitialCamera(zoom, vw, vh, ww, wh)]
    ensures scene.mainCamera == |old(scene.entities)|
    ensures scene.player == old(scene.player) && scene.enemy == old(scene.enemy)
  {
    var camera := scene.CreateEntity(CAMERA_TAG, 0, 0);
    scene.AddCamera(camera, CameraOf([zoom, vw, vh, ww, wh]));
    scene.mainCamera := camera;
  }

  /** The three entity setups in the order they are declared, on a new scene. */
  method Setup(zoom: int, vw: int, vh: int, ww: int, wh: int) returns (scene: Scene)
    ensures fresh(scene)
    ensures scene.entities == [INITIAL_PLAYER, INITIAL_ENEMY, InitialCamera(zoom, vw, vh, ww, wh)]
    ensures scene.player == 0 && scene.enemy == 1 && scene.mainCamera == 2
    ensures scene.PlayerReady() && scene.CameraReady()
  {
    scene := new Scene();
    CharacterSetup(scene);
    EnemySetup(scene);
    CameraSetup(scene, zoom, vw, vh, ww, wh);
  }

  /** The player starts strictly inside its playfield; the enemy starts on
      its right turning point. */
  lemma InitialPositions()
    ensures Gameplay.InPlayfield(INITIAL_PLAYER.transform.x, INITIAL_PLAYER.transform.y)
    ensures INITIAL_ENEMY.transform.x >= Gameplay.PATROL_RIGHT
    ensures INITIAL_PLAYER.sprite.value == SpriteOf([0, 2, 15, 0, 0, 50])
  {
    assert SpriteFields(SpriteOf([0, 2, 15, 0, 0, 50])) == SpriteFields(INITIAL_PLAYER.sprite.value);
  }

  /** The player input system on one event: the player's Movement and Sprite
      and the latch end up as `Input.Step` says. */
  method PlayerInput(scene: Scene, latch: ActionLatch, e: Event)
    requires scene.PlayerReady()
    modifies scene`entities, latch
    ensures var p := old(scene.entities[scene.player]);
      var r := Step(InputState(p.movement.value, p.sprite.value, old(latch.playedAction)), e);
      && scene.entities == old(scene.entities)[scene.player := p.(movement := Some(r.movement), sprite := Some(r.sprite))]
      && latch.playedAction == r.playedAction
  {
    var p := scene.entities[scene.player];
    var movement := p.movement.value;
    var sprite := p.sprite.value;
    var speed := Input.SPEED;
    match e {
      case KeyDown(k) =>
        if k == KeyA {
          movement := movement.(vx := -speed);
        } else if k == KeyD {
          movement := movement.(vx := speed);
        } else if k == KeyW {
          movement := movement.(vy := -speed);
        } else if k == KeyS {
          movement := movement.(vy := speed);
        } else if k == KeyO {
          if !latch.playedAction {
            sprite := sprite.(y := 2);
            latch.playedAction := true;
          }
        } else if k == KeyP {
          if !latch.playedAction {
            sprite := sprite.(y := 3);
            latch.playedAction := true;
          }
        }
      case KeyUp(k) =>
        if k == KeyA {
          movement := movement.(vx := 0);
        } else if k == KeyD {
          movement := movement.(vx := 0);
        } else if k == KeyW || k == KeyS || k == KeyO {
          // the w and s cases have no `break`: w runs on into s, s into o
          if k == KeyW {
            movement := movement.(vy := 0);
          }
          if k == KeyW || k == KeyS {
            movement := movement.(vy := 0);
          }
          latch.playedAction := false;
        } else if k == KeyP {
          latch.playedAction := false;
        }
      case OtherEvent =>
    }
    if movement.vx < 0 {
      sprite := sprite.(x := 1);
    } else if movement.vx > 0 {
      sprite := sprite.(x := 0);
    }
    scene.entities := scene.entities[scene.player := p.(movement := Some(movement), sprite := Some(sprite))];
  }

  /** What the movement system does to one entity of the registry: entities
      outside its view (no Movement or no Sprite) are skipped, the one
      tagged PLAYER moves within the playfield, every other one patrols. */
  function MoveEntity(e: Entity, travel: int -> int): (r: Entity)
    ensures r.tag == e.tag && r.camera == e.camera
    ensures !(e.movement.Some? && e.sprite.Some?) ==> r == e
    ensures e.movement.Some? && e.sprite.Some? && e.tag.tag == PLAYER_TAG ==>
              r.movement == e.movement && r.sprite == e.sprite
              && r.transform == Gameplay.MovePlayer(e.transform, e.movement.value, travel)
    ensures e.movement.Some? && e.sprite.Some? && e.tag.tag != PLAYER_TAG ==>
              r.movement.Some? && r.sprite.Some?
              && Gameplay.Patroller(r.transform, r.movement.value, r.sprite.value)
                 == Gameplay.Patrol(Gameplay.Patroller(e.transform, e.movement.value, e.sprite.value), travel)
  {
    if e.movement.Some? && e.sprite.Some? then
      if e.tag.tag == PLAYER_TAG then
        e.(transform := Gameplay.MovePlayer(e.transform, e.movement.value, travel))
      else
        var r := Gameplay.Patrol(Gameplay.Patroller(e.transform, e.movement.value, e.sprite.value), travel);
        e.(transform := r.transform, movement := Some(r.movement), sprite := Some(r.sprite))
    else
      e
  }

  /** The movement system over its view, `travel` being this frame's
      velocity-to-displacement step. */
  method MovementUpdate(scene: Scene, travel: int -> int)
    modifies scene`entities
    ensures |scene.entities| == |old(scene.entities)|
    ensures forall k :: 0 <= k < |scene.entities| ==> scene.entities[k] == MoveEntity(old(scene.entities)[k], travel)
  {
    for i := 0 to |scene.entities|
      invariant |scene.entities| == |old(scene.entities)|
      invariant forall k :: 0 <= k < i ==> scene.entities[k] == MoveEntity(old(scene.entities)[k], travel)
      invariant forall k :: i <= k < |scene.entities| ==> scene.entities[k] == old(scene.entities)[k]
    {
      var e := scene.entities[i];
      if e.movement.Some? && e.sprite.Some? {
        var pos, vel := e.transform, e.movement.value;
        if e.tag.tag == PLAYER_TAG {
          var newX := pos.x + travel(vel.vx);
          var newY := pos.y + travel(vel.vy);
          if newX > Gameplay.PLAY_LEFT && newX < Gameplay.PLAY_RIGHT && newY > Gameplay.PLAY_TOP && newY < Gameplay.PLAY_BOTTOM {
            pos := Transform(newX, newY);
          }
          scene.entities := scene.entities[i := e.(transform := pos)];
        } else {
          var sprite := e.sprite.value;
          if pos.x <= Gameplay.PATROL_LEFT {
            vel := vel.(vx := Gameplay.PATROL_SPEED);
            sprite := sprite.(x := 0);
          }
          if pos.x == Gameplay.PATROL_CUE_ONE {
            sprite := sprite.(y := 2);
          }
          if pos.x == Gameplay.PATROL_CUE_TWO {
            sprite := sprite.(y := 3);
          }
          if pos.x >= Gameplay.PATROL_RIGHT {
            vel := vel.(vx := -Gameplay.PATROL_SPEED);
            sprite := sprite.(x := 1);
          }
          pos := pos.(x := pos.x + travel(vel.vx));
          scene.entities := scene.entities[i := e.(transform := pos, movement := Some(vel), sprite := Some(sprite))];
        }
      }
    }
  }

  /** Movement keeps every PLAYER-tagged entity that is inside the
      playfield inside it. */
  lemma MovementKeepsPlayerInPlayfield(e: Entity, travel: int -> int)
    requires e.tag.tag == PLAYER_TAG && Gameplay.InPlayfield(e.transform.x, e.transform.y)
    ensures Gameplay.InPlayfield(MoveEntity(e, travel).transform.x, MoveEntity(e, travel).transform.y)
    ensures MoveEntity(e, travel).movement == e.movement && MoveEntity(e, travel).sprite == e.sprite
  {
  }

  /** The camera-follow system: only the camera's Transform changes. */
  method CameraFollowUpdate(scene: Scene)
    requires scene.player < |scene.entities| && scene.CameraReady()
    modifies scene`entities
    ensures var c := old(scene.entities[scene.mainCamera]);
      scene.entities == old(scene.entities)[scene.mainCamera := c.(transform :=
        Gameplay.Follow(old(scene.entities[scene.player].transform), c.camera.value, c.transform))]
  {
    var playerTransform := scene.entities[scene.player].transform;
    var cameraEntity := scene.entities[scene.mainCamera];
    var cameraComponent := cameraEntity.camera.value;
    var cameraTransform := cameraEntity.transform;
    var px := playerTransform.x - CInt.Div(cameraComponent.vw, 2) + Gameplay.FOLLOW_OFFSET * cameraComponent.zoom;
    var py := playerTransform.y - CInt.Div(cameraComponent.vh, 2) + Gameplay.FOLLOW_OFFSET * cameraComponent.zoom;
    if px > 0 && px < cameraComponent.ww - cameraComponent.vw {
      cameraTransform := cameraTransform.(x := playerTransform.x - CInt.Div(cameraComponent.vw, 2) + Gameplay.FOLLOW_OFFSET * cameraComponent.zoom);
    }
    if py > 0 && py < cameraComponent.wh - cameraComponent.vh {
      cameraTransform := cameraTransform.(y := playerTransform.y - CInt.Div(cameraComponent.vh, 2) + Gameplay.FOLLOW_OFFSET * cameraComponent.zoom);
    }
    scene.entities := scene.entities[scene.mainCamera := cameraEntity.(transform := cameraTransform)];
  }

  /** Every sprite can be advanced by the frames elapsed for it. */
  ghost predicate Advanceable(es: seq<Entity>, framesFor: Sprite -> int) {
    forall k :: 0 <= k < |es| && es[k].sprite.Some? ==>
      Gameplay.CanAdvance(es[k].sprite.value, framesFor(es[k].sprite.value))
  }

  function AnimateEntity(e: Entity, current: int, framesFor: Sprite -> int): Entity
    requires 0 <= current < CInt.UINT32_LIMIT
    requires e.sprite.Some? ==> Gameplay.CanAdvance(e.sprite.value, framesFor(e.sprite.value))
  {
    if e.sprite.Some? then
      e.(sprite := Some(Gameplay.Animate(e.sprite.value, current, framesFor(e.sprite.value))))
    else
      e
  }

  /** The sprite system's update over every sprite: `current` is the clock
      read once per frame, `framesFor` the whole animation frames that have
      elapsed for a sprite since its last update. */
  method SpriteAnimationUpdate(scene: Scene, current: int, framesFor: Sprite -> int)
    requires 0 <= current < CInt.UINT32_LIMIT
    requires Advanceable(scene.entities, framesFor)
    modifies scene`entities
    ensures |scene.entities| == |old(scene.entities)|
    ensures forall k :: 0 <= k < |scene.entities| ==>
      scene.entities[k] == AnimateEntity(old(scene.entities)[k], current, framesFor)
  {
    for i := 0 to |scene.entities|
      invariant |scene.entities| == |old(scene.entities)|
      invariant forall k :: 0 <= k < i ==>
        scene.entities[k] == AnimateEntity(old(scene.entities)[k], current, framesFor)
      invariant forall k :: i <= k < |scene.entities| ==> scene.entities[k] == old(scene.entities)[k]
    {
      var e := scene.entities[i];
      if e.sprite.Some? {
        var sprite := e.sprite.value;
        if sprite.durationSeconds > 0 {
          var framesToUpdate := framesFor(sprite);
          if framesToUpdate > 0 {
            sprite := sprite.(y := sprite.y + framesToUpdate);
            sprite := sprite.(y := CInt.Rem(sprite.y, sprite.frames));
            sprite := sprite.(lastUpdate := CInt.FromUint32(current));
          }
        }
        scene.entities := scene.entities[i := e.(sprite := Some(sprite))];
      }
    }
  }

  /** The blits of the sprite render pass, in view order, for the camera at
      `camera` with zoom `zoom`. */
  function SpriteBlits(es: seq<Entity>, camera: Transform, zoom: int): seq<Blit>
    decreases |es|
  {
    if es == [] then []
    else
      var last := es[|es| - 1];
      SpriteBlits(es[..|es| - 1], camera, zoom) +
      (if last.sprite.Some? then [SpriteBlit(last.transform, last.sprite.value, camera, zoom)] else [])
  }

  /** Moving the camera changes nothing in a frame's sprite blits but their
      screen position, which shifts by the opposite amount. */
  lemma {:induction false} SpriteBlitsFollowCamera(es: seq<Entity>, c1: Transform, c2: Transform, zoom: int)
    ensures |SpriteBlits(es, c1, zoom)| == |SpriteBlits(es, c2, zoom)|
    ensures forall k :: 0 <= k < |SpriteBlits(es, c1, zoom)| ==>
      var b1, b2 := SpriteBlits(es, c1, zoom)[k], SpriteBlits(es, c2, zoom)[k];
      && b1.texture == b2.texture && b1.src == b2.src
      && b2.dst == b1.dst.(x := b1.dst.x + c1.x - c2.x, y := b1.dst.y + c1.y - c2.y)
    decreases |es|
  {
    if es != [] {
      SpriteBlitsFollowCamera(es[..|es| - 1], c1, c2, zoom);
    }
  }

  /** The sprite system's render pass: one blit per entity holding a
      Transform and a Sprite, relative to the main camera. */
  method SpriteRender(scene: Scene) returns (blits: seq<Blit>)
    requires scene.CameraReady()
    ensures var c := scene.entities[scene.mainCamera];
      blits == SpriteBlits(scene.entities, c.transform, c.camera.value.zoom)
  {
    var cameraTransform := scene.entities[scene.mainCamera].transform;
    var cameraZoom := scene.entities[scene.mainCamera].camera.value.zoom;
    var cx, cy := cameraTransform.x, cameraTransform.y;
    blits := [];
    for i := 0 to |scene.entities|
      invariant blits == SpriteBlits(scene.entities[..i], cameraTransform, cameraZoom)
    {
      var e := scene.entities[i];
      assert scene.entities[..i + 1][..i] == scene.entities[..i];
      if e.sprite.Some? {
        var pos, sprite := e.transform, e.sprite.value;
        var dstTileSize := cameraZoom * sprite.size;
        var spriteX := sprite.x * sprite.size;
        var spriteY := sprite.y * sprite.size;
        var src := Rect(spriteX, spriteY, sprite.size, sprite.size);
        var dst := Rect(pos.x - cx, pos.y - cy, dstTileSize, dstTileSize);
        blits := blits + [Blit(SpriteSheet(sprite.sheetIndex), src, dst)];
      }
    }
    assert scene.entities[..|scene.entities|] == scene.entities;
  }
}
