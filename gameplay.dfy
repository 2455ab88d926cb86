/** The per-frame update rules as transitions on component records: the
    player's bounded move, the enemy's patrol, the camera follow and the
    sprite row advance. `Systems` applies them in place to the registry.

    Movement over a frame is `velocity * dT` truncated to whole units; the
    frame's time step is a `travel` function that gives, for a velocity, the
    whole-unit displacement it produces this frame. */
module Gameplay {
  import opened Components
  import CInt

  /** The player's playfield, exclusive on every side. */
  const PLAY_LEFT := 130
  const PLAY_RIGHT := 1200
  const PLAY_TOP := 245
  const PLAY_BOTTOM := 890

  predicate InPlayfield(x: int, y: int) {
    PLAY_LEFT < x < PLAY_RIGHT && PLAY_TOP < y < PLAY_BOTTOM
  }

  /** The player moves by its full displacement or not at all: the candidate
      pair is committed exactly when it lies strictly inside the playfield. */
  function MovePlayer(t: Transform, m: Movement, travel: int -> int): (r: Transform)
    ensures r == t || r == Transform(t.x + travel(m.vx), t.y + travel(m.vy))
    ensures r != t ==> InPlayfield(r.x, r.y)
    ensures var c := Transform(t.x + travel(m.vx), t.y + travel(m.vy));
      r == (if InPlayfield(c.x, c.y) then c else t)
    ensures InPlayfield(t.x, t.y) ==> InPlayfield(r.x, r.y)
  {
    var x := t.x + travel(m.vx);
    var y := t.y + travel(m.vy);
    if x > PLAY_LEFT && x < PLAY_RIGHT && y > PLAY_TOP && y < PLAY_BOTTOM then Transform(x, y) else t
  }

  /** One frame of the player's movement: the velocity input left it with,
      and the frame's time step. */
  datatype PlayerFrame = PlayerFrame(movement: Movement, travel: int -> int)

  /** The player's position over several frames, each with its own velocity
      and time step. */
  function MovePlayerFrames(t: Transform, frames: seq<PlayerFrame>): Transform
    decreases |frames|
  {
    if frames == [] then t
    else
      var f := frames[|frames| - 1];
      MovePlayer(MovePlayerFrames(t, frames[..|frames| - 1]), f.movement, f.travel)
  }

  /** A player that starts inside the playfield never leaves it, whatever
      velocities input gives it between frames. */
  lemma {:induction false} PlayerStaysInPlayfield(t: Transform, frames: seq<PlayerFrame>)
    requires InPlayfield(t.x, t.y)
    ensures var r := MovePlayerFrames(t, frames); InPlayfield(r.x, r.y)
    decreases |frames|
  {
    if frames != [] {
      PlayerStaysInPlayfield(t, frames[..|frames| - 1]);
    }
  }

  /** An out-of-bounds candidate leaves the position exactly as it was; an
      in-bounds one is taken whole (no clamping to the edge). The pair is
      rejected together: a valid x does not move when y is out of range. */
  lemma PlayerRejectNotClamp()
    ensures MovePlayer(Transform(150, 250), Movement(500, 0), v => v) == Transform(650, 250)
    ensures MovePlayer(Transform(1150, 250), Movement(500, 0), v => v) == Transform(1150, 250)
    ensures MovePlayer(Transform(1150, 250), Movement(40, 7000), v => v / 10) == Transform(1150, 250)
  {
  }

  /** The patrol waypoints and turning points on the x axis. */
  const PATROL_LEFT := 600
  const PATROL_CUE_ONE := 700
  const PATROL_CUE_TWO := 1000
  const PATROL_RIGHT := 1100
  const PATROL_SPEED := 200

  /** The components a non-player entity's update touches. */
  datatype Patroller = Patroller(transform: Transform, movement: Movement, sprite: Sprite)

  /** One patrol update: the four threshold rules in order, then x is
      integrated with the velocity as it stands after them. */
  function Patrol(p: Patroller, travel: int -> int): (r: Patroller)
    ensures r.transform.y == p.transform.y && r.movement.vy == p.movement.vy
    ensures r.transform.x == p.transform.x + travel(r.movement.vx)
    ensures r.sprite.(x := p.sprite.x, y := p.sprite.y) == p.sprite
    ensures p.transform.x <= PATROL_LEFT ==> r.movement.vx == PATROL_SPEED && r.sprite.x == 0
    ensures p.transform.x >= PATROL_RIGHT ==> r.movement.vx == -PATROL_SPEED && r.sprite.x == 1
    ensures PATROL_LEFT < p.transform.x < PATROL_RIGHT ==>
              r.movement.vx == p.movement.vx && r.sprite.x == p.sprite.x
    ensures r.sprite.y == (if p.transform.x == PATROL_CUE_ONE then 2
                           else if p.transform.x == PATROL_CUE_TWO then 3
                           else p.sprite.y)
  {
    var x := p.transform.x;
    var m, s := p.movement, p.sprite;
    var (m, s) := if x <= PATROL_LEFT then (m.(vx := PATROL_SPEED), s.(x := 0)) else (m, s);
    var s := if x == PATROL_CUE_ONE then s.(y := 2) else s;
    var s := if x == PATROL_CUE_TWO then s.(y := 3) else s;
    var (m, s) := if x >= PATROL_RIGHT then (m.(vx := -PATROL_SPEED), s.(x := 1)) else (m, s);
    Patroller(p.transform.(x := x + travel(m.vx)), m, s)
  }

  /** At the right turning point the patroller turns and, in the same
      update, already moves left. */
  lemma PatrolTurnsAndMovesSameTick(p: Patroller, travel: int -> int)
    requires p.transform.x >= PATROL_RIGHT && travel(-PATROL_SPEED) < 0
    ensures Patrol(p, travel).movement.vx == -PATROL_SPEED
    ensures Patrol(p, travel).sprite.x == 1
    ensures Patrol(p, travel).transform.x < p.transform.x
  {
  }

  /** A time step is bounded by `d` when a patrol-speed entity moves at most
      `d` units, and never backwards (a short frame may move it not at all). */
  ghost predicate BoundedStep(travel: int -> int, d: int) {
    0 <= travel(PATROL_SPEED) <= d && -d <= travel(-PATROL_SPEED) <= 0
  }

  /** Where a patroller may be: patrol velocity, and within one step of the
      turning points. */
  ghost predicate InPatrolBand(p: Patroller, d: int) {
    && (p.movement.vx == PATROL_SPEED || p.movement.vx == -PATROL_SPEED)
    && PATROL_LEFT - d < p.transform.x < PATROL_RIGHT + d
  }

  function PatrolFrames(p: Patroller, steps: seq<int -> int>): Patroller
    decreases |steps|
  {
    if steps == [] then p else Patrol(PatrolFrames(p, steps[..|steps| - 1]), steps[|steps| - 1])
  }

  /** With time steps of at most `d` units, the patroller keeps its patrol speed and stays within `d` of the
      turning points forever. */
  lemma {:induction false} PatrolStaysInBand(p: Patroller, d: int, steps: seq<int -> int>)
    requires 0 < d
    requires InPatrolBand(p, d)
    requires forall k :: 0 <= k < |steps| ==> BoundedStep(steps[k], d)
    ensures InPatrolBand(PatrolFrames(p, steps), d)
    decreases |steps|
  {
    if steps != [] {
      var init := steps[..|steps| - 1];
      PatrolStaysInBand(p, d, init);
      assert BoundedStep(steps[|steps| - 1], d);
    }
  }

  /** The enemy's first updates from its starting point (1100, 650) with
      velocity 200: it turns left at once. */
  lemma EnemyTurnsAtStart(s: Sprite, travel: int -> int)
    requires travel(-PATROL_SPEED) == -10
    ensures Patrol(Patroller(Transform(1100, 650), Movement(200, 0), s), travel)
         == Patroller(Transform(1090, 650), Movement(-200, 0), s.(x := 1))
  {
  }

  /** Half a player sprite cell, added per unit of zoom to centre the player. */
  const FOLLOW_OFFSET := 12

  /** The camera's offset on one axis that centres the player, and the
      commit rule: only a value strictly inside (0, world - viewport) is
      taken; otherwise the axis stays put (no clamping to the edge). */
  function FollowAxis(player: int, viewport: int, world: int, zoom: int, current: int): int {
    var c := player - CInt.Div(viewport, 2) + FOLLOW_OFFSET * zoom;
    if c > 0 && c < world - viewport then c else current
  }

  /** One camera-follow update of the camera's Transform. */
  function Follow(player: Transform, cam: Camera, t: Transform): (r: Transform)
    ensures r.x == t.x || 0 < r.x < cam.ww - cam.vw
    ensures r.y == t.y || 0 < r.y < cam.wh - cam.vh
    ensures r.x != t.x ==> r.x + CInt.Div(cam.vw, 2) - FOLLOW_OFFSET * cam.zoom == player.x
    ensures r.y != t.y ==> r.y + CInt.Div(cam.vh, 2) - FOLLOW_OFFSET * cam.zoom == player.y
    ensures var cx := player.x - CInt.Div(cam.vw, 2) + FOLLOW_OFFSET * cam.zoom;
      r.x == (if 0 < cx < cam.ww - cam.vw then cx else t.x)
    ensures var cy := player.y - CInt.Div(cam.vh, 2) + FOLLOW_OFFSET * cam.zoom;
      r.y == (if 0 < cy < cam.wh - cam.vh then cy else t.y)
  {
    Transform(FollowAxis(player.x, cam.vw, cam.ww, cam.zoom, t.x),
              FollowAxis(player.y, cam.vh, cam.wh, cam.zoom, t.y))
  }

  /** Each axis is decided on its own: the new x depends only on the x
      inputs, the new y only on the y inputs. */
  lemma FollowAxesIndependent(p1: Transform, c1: Camera, t1: Transform,
                              p2: Transform, c2: Camera, t2: Transform)
    ensures p1.x == p2.x && c1.vw == c2.vw && c1.ww == c2.ww && c1.zoom == c2.zoom && t1.x == t2.x
            ==> Follow(p1, c1, t1).x == Follow(p2, c2, t2).x
    ensures p1.y == p2.y && c1.vh == c2.vh && c1.wh == c2.wh && c1.zoom == c2.zoom && t1.y == t2.y
            ==> Follow(p1, c1, t1).y == Follow(p2, c2, t2).y
  {
  }

  /** A camera at the world's edge stalls: a candidate out of range on one
      axis does not stop the other axis from following. */
  lemma FollowStallsAtEdge()
    ensures Follow(Transform(100, 500), Camera(1, 800, 600, 2000, 1500), Transform(0, 0))
         == Transform(0, 212)
  {
  }

  /** The camera's position over frames, given the player's position in each. */
  function FollowFrames(players: seq<Transform>, cam: Camera, t: Transform): Transform
    decreases |players|
  {
    if players == [] then t else Follow(players[|players| - 1], cam, FollowFrames(players[..|players| - 1], cam, t))
  }

  /** Over any number of frames, each camera axis is either still where it
      started or strictly inside the scrollable range. */
  lemma {:induction false} FollowStaysInRange(players: seq<Transform>, cam: Camera, t: Transform)
    ensures var r := FollowFrames(players, cam, t);
      && (r.x == t.x || 0 < r.x < cam.ww - cam.vw)
      && (r.y == t.y || 0 < r.y < cam.wh - cam.vh)
    decreases |players|
  {
    if players != [] {
      FollowStaysInRange(players[..|players| - 1], cam, t);
    }
  }

  /** The frame rows the animation advances over: `frames` must not be zero
      when a row advance happens (C++ `%` by zero). */
  ghost predicate CanAdvance(s: Sprite, n: int) {
    s.durationSeconds > 0 && n > 0 ==> s.frames != 0
  }

  /** One animation update of one sprite, `n` being the whole frames elapsed
      since its last update and `current` the clock (a Uint32 in
      milliseconds). Sprites without a duration never animate. */
  function Animate(s: Sprite, current: int, n: int): (r: Sprite)
    requires 0 <= current < CInt.UINT32_LIMIT
    requires CanAdvance(s, n)
    ensures r.(y := s.y, lastUpdate := s.lastUpdate) == s
    ensures s.durationSeconds <= 0 || n <= 0 ==> r == s
    ensures s.durationSeconds > 0 && n > 0 ==> r.lastUpdate == CInt.FromUint32(current)
    ensures s.durationSeconds > 0 && n > 0 && 0 <= s.y && 0 < s.frames ==>
              0 <= r.y < s.frames && r.y == (s.y + n) % s.frames
  {
    if s.durationSeconds > 0 && n > 0 then
      s.(y := CInt.Rem(s.y + n, s.frames), lastUpdate := CInt.FromUint32(current))
    else
      s
  }

  /** One animation frame: the clock and the frames elapsed for this sprite. */
  datatype Tick = Tick(current: int, frames: int)

  ghost predicate ValidTicks(s: Sprite, ticks: seq<Tick>) {
    forall k :: 0 <= k < |ticks| ==> 0 <= ticks[k].current < CInt.UINT32_LIMIT && (ticks[k].frames > 0 ==> s.frames != 0)
  }

  function AnimateFrames(s: Sprite, ticks: seq<Tick>): (r: Sprite)
    requires ValidTicks(s, ticks)
    ensures r.frames == s.frames && r.durationSeconds == s.durationSeconds
    decreases |ticks|
  {
    if ticks == [] then s
    else
      var prev := AnimateFrames(s, ticks[..|ticks| - 1]);
      var t := ticks[|ticks| - 1];
      Animate(prev, t.current, t.frames)
  }

  /** A sprite without a duration (the default Sprite) keeps its row and
      timestamp whatever time passes. */
  lemma {:induction false} NoDurationNeverAnimates(s: Sprite, ticks: seq<Tick>)
    requires s.durationSeconds <= 0 && ValidTicks(s, ticks)
    ensures AnimateFrames(s, ticks) == s
    decreases |ticks|
  {
    if ticks != [] {
      NoDurationNeverAnimates(s, ticks[..|ticks| - 1]);
    }
  }

  /** Once a row is in [0, frames) it stays there through every advance. */
  lemma {:induction false} RowStaysInRange(s: Sprite, ticks: seq<Tick>)
    requires 0 <= s.y < s.frames && ValidTicks(s, ticks)
    ensures 0 <= AnimateFrames(s, ticks).y < s.frames
    decreases |ticks|
  {
    if ticks != [] {
      RowStaysInRange(s, ticks[..|ticks| - 1]);
    }
  }

  /** A row outside the range, such as an action row set by input or patrol,
      is brought back into [0, frames) by the first advance. */
  lemma AdvanceRestoresRange(s: Sprite, current: int, n: int)
    requires 0 <= current < CInt.UINT32_LIMIT
    requires s.durationSeconds > 0 && n > 0 && 0 <= s.y && 0 < s.frames
    ensures 0 <= Animate(s, current, n).y < s.frames
  {
  }
}
