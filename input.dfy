/** The player's key handling as a transition on the player's Movement and
    Sprite records and the program-wide `playedAction` latch. `Systems`
    runs it in place on the scene; this module states what one event does
    and what any sequence of events preserves. */
module Input {
  import opened Components

  /** The keys the input systems look at; every other key is `OtherKey`. */
  datatype Key = KeyA | KeyD | KeyW | KeyS | KeyO | KeyP | OtherKey

  /** A polled event: a key press, a key release, or anything else. */
  datatype Event = KeyDown(key: Key) | KeyUp(key: Key) | OtherEvent

  /** What the player input system reads and writes. */
  datatype InputState = InputState(movement: Movement, sprite: Sprite, playedAction: bool)

  const SPEED := 400

  /** Key presses: a/d/w/s set one velocity axis; o/p start an action
      animation (row 2 or 3) unless one is already latched. */
  function OnKeyDown(st: InputState, k: Key): (r: InputState)
    ensures r.sprite.x == st.sprite.x
    ensures (k == KeyA || k == KeyD) ==>
              r.movement.vy == st.movement.vy && r.movement.vx == (if k == KeyA then -SPEED else SPEED)
    ensures (k == KeyW || k == KeyS) ==>
              r.movement.vx == st.movement.vx && r.movement.vy == (if k == KeyW then -SPEED else SPEED)
    ensures k !in {KeyO, KeyP} ==> r.sprite == st.sprite && r.playedAction == st.playedAction
    ensures k in {KeyO, KeyP} ==> r.movement == st.movement && r.playedAction
    ensures k in {KeyO, KeyP} && st.playedAction ==> r == st
    ensures k in {KeyO, KeyP} && !st.playedAction ==> r.sprite.y == (if k == KeyO then 2 else 3)
    ensures k in {KeyO, KeyP} ==> r.sprite.(y := st.sprite.y) == st.sprite
    ensures k == OtherKey ==> r == st
  {
    match k
    case KeyA => st.(movement := st.movement.(vx := -SPEED))
    case KeyD => st.(movement := st.movement.(vx := SPEED))
    case KeyW => st.(movement := st.movement.(vy := -SPEED))
    case KeyS => st.(movement := st.movement.(vy := SPEED))
    case KeyO => if !st.playedAction then st.(sprite := st.sprite.(y := 2), playedAction := true) else st
    case KeyP => if !st.playedAction then st.(sprite := st.sprite.(y := 3), playedAction := true) else st
    case OtherKey => st
  }

  /** The release switch has no `break` after the cases for w and s, so
      control falls from w into s and from s into o. Each function below is
      one case label and what runs from it to the next `break`. */
  function ReleaseFromO(st: InputState): InputState {
    st.(playedAction := false)
  }

  function ReleaseFromS(st: InputState): InputState {
    ReleaseFromO(st.(movement := st.movement.(vy := 0)))
  }

  function ReleaseFromW(st: InputState): InputState {
    ReleaseFromS(st.(movement := st.movement.(vy := 0)))
  }

  /** What a release does, once the fall-through is followed: a/d zero vx,
      w and s zero vy, and every one of w, s, o and p clears the latch. */
  function OnKeyUp(st: InputState, k: Key): (r: InputState)
    ensures r.sprite == st.sprite
    ensures r.movement.vx == (if k in {KeyA, KeyD} then 0 else st.movement.vx)
    ensures r.movement.vy == (if k in {KeyW, KeyS} then 0 else st.movement.vy)
    ensures r.playedAction == (st.playedAction && k !in {KeyW, KeyS, KeyO, KeyP})
  {
    match k
    case KeyA => st.(movement := st.movement.(vx := 0))
    case KeyD => st.(movement := st.movement.(vx := 0))
    case KeyW => ReleaseFromW(st)
    case KeyS => ReleaseFromS(st)
    case KeyO => ReleaseFromO(st)
    case KeyP => st.(playedAction := false)
    case OtherKey => st
  }

  /** The facing column follows the sign of the horizontal velocity and is
      kept when the player stands still horizontally. */
  function Face(st: InputState): (r: InputState)
    ensures r.movement == st.movement && r.playedAction == st.playedAction
    ensures r.sprite.(x := st.sprite.x) == st.sprite
    ensures r.sprite.x == (if st.movement.vx < 0 then 1 else if st.movement.vx > 0 then 0 else st.sprite.x)
  {
    if st.movement.vx < 0 then st.(sprite := st.sprite.(x := 1))
    else if st.movement.vx > 0 then st.(sprite := st.sprite.(x := 0))
    else st
  }

  /** One run of the player input system on one event: it touches only the
      velocity, the row, the column and the latch, and it keeps the speed
      grid and the latch-shows-action invariants. */
  function Step(st: InputState, e: Event): (r: InputState)
    ensures r.sprite.(x := st.sprite.x, y := st.sprite.y) == st.sprite
    ensures OnSpeedGrid(st.movement) ==> OnSpeedGrid(r.movement)
    ensures LatchShowsAction(st) ==> LatchShowsAction(r)
  {
    var handled :=
      match e
      case KeyDown(k) => OnKeyDown(st, k)
      case KeyUp(k) => OnKeyUp(st, k)
      case OtherEvent => st;
    Face(handled)
  }

  /** The events of a frame, handled in the order they were polled. */
  function Run(st: InputState, events: seq<Event>): InputState
    decreases |events|
  {
    if events == [] then st else Step(Run(st, events[..|events| - 1]), events[|events| - 1])
  }

  /** A press of a/d/w/s sets exactly one velocity axis to plus or minus the
      speed and leaves the other axis and the latch alone; so the last
      pressed key of an axis wins. */
  lemma KeyDownSetsOneAxis(st: InputState, k: Key)
    requires k in {KeyA, KeyD, KeyW, KeyS}
    ensures var r := Step(st, KeyDown(k));
      && r.playedAction == st.playedAction
      && r.sprite.y == st.sprite.y
      && (k == KeyA ==> r.movement == Movement(-SPEED, st.movement.vy))
      && (k == KeyD ==> r.movement == Movement(SPEED, st.movement.vy))
      && (k == KeyW ==> r.movement == Movement(st.movement.vx, -SPEED))
      && (k == KeyS ==> r.movement == Movement(st.movement.vx, SPEED))
  {
  }

  /** A press of o/p sets the action row (2 or 3) and the latch exactly when
      the latch was clear; the velocity is untouched. */
  lemma ActionKeyLatches(st: InputState, k: Key)
    requires k == KeyO || k == KeyP
    ensures var r := Step(st, KeyDown(k));
      && r.movement == st.movement
      && r.playedAction
      && (st.playedAction ==> r.sprite == Face(st).sprite)
      && (!st.playedAction ==> r.sprite.y == (if k == KeyO then 2 else 3))
  {
  }

  /** Releases: a/d zero only vx; w and s (falling through) zero vy and also
      clear the latch; o/p only clear the latch; other keys and other events
      change nothing (beyond the facing refresh). */
  lemma KeyUpEffects(st: InputState, k: Key)
    ensures var r := Step(st, KeyUp(k));
      && r.sprite.y == st.sprite.y
      && ((k == KeyA || k == KeyD) ==>
            r.movement == Movement(0, st.movement.vy) && r.playedAction == st.playedAction)
      && ((k == KeyW || k == KeyS) ==>
            r.movement == Movement(st.movement.vx, 0) && !r.playedAction)
      && ((k == KeyO || k == KeyP) ==>
            r.movement == st.movement && !r.playedAction)
      && (k == OtherKey ==> r == Face(st))
  {
  }

  /** A press of a key the switch does not list changes nothing but the
      facing refresh. */
  lemma OtherKeyPress(st: InputState)
    ensures Step(st, KeyDown(OtherKey)) == Face(st)
  {
  }

  lemma OtherEventChangesNothing(st: InputState)
    ensures Step(st, OtherEvent) == Face(st)
    ensures Face(st).movement == st.movement && Face(st).playedAction == st.playedAction
  {
  }

  /** After every event the facing column agrees with the sign of vx, and is
      the previous column when vx is zero. */
  lemma FacingFollowsVelocity(st: InputState, e: Event)
    ensures var r := Step(st, e);
      && (r.movement.vx < 0 ==> r.sprite.x == 1)
      && (r.movement.vx > 0 ==> r.sprite.x == 0)
      && (r.movement.vx == 0 ==> r.sprite.x == st.sprite.x)
  {
  }

  /** Velocity components only ever take the values -400, 0 and 400. */
  ghost predicate OnSpeedGrid(m: Movement) {
    m.vx in {-SPEED, 0, SPEED} && m.vy in {-SPEED, 0, SPEED}
  }

  lemma {:induction false} VelocityStaysOnGrid(st: InputState, events: seq<Event>)
    requires OnSpeedGrid(st.movement)
    ensures OnSpeedGrid(Run(st, events).movement)
    decreases |events|
  {
    if events != [] {
      VelocityStaysOnGrid(st, events[..|events| - 1]);
    }
  }

  /** While the latch is set the sprite shows an action row. This is an
      invariant of the input system alone: input sets the latch only together
      with row 2 or 3 and changes the row only by an action press while the
      latch is clear. The animation and patrol updates rewrite the row
      without looking at the latch, so over a whole frame it need not hold. */
  ghost predicate LatchShowsAction(st: InputState) {
    st.playedAction ==> st.sprite.y == 2 || st.sprite.y == 3
  }

  lemma {:induction false} LatchImpliesActionRow(st: InputState, events: seq<Event>)
    requires LatchShowsAction(st)
    ensures LatchShowsAction(Run(st, events))
    decreases |events|
  {
    if events != [] {
      LatchImpliesActionRow(st, events[..|events| - 1]);
    }
  }

  /** The release of "down" zeroes vy even though "up" is still held: the
      input does not track which keys are down. */
  lemma ReleaseDoesNotResumeHeldKey(st: InputState)
    ensures Run(st, [KeyDown(KeyW), KeyDown(KeyS), KeyUp(KeyS)]).movement.vy == 0
  {
  }

  /** Because of the fall-through, releasing a movement key re-arms the
      action latch: o pressed, w released, then p starts a second action
      without o ever being released. */
  lemma MovementReleaseRearmsAction(st: InputState)
    requires !st.playedAction
    ensures Run(st, [KeyDown(KeyO), KeyUp(KeyW), KeyDown(KeyP)]).sprite.y == 3
  {
    assert [KeyDown(KeyO), KeyUp(KeyW), KeyDown(KeyP)][..2] == [KeyDown(KeyO), KeyUp(KeyW)];
    assert [KeyDown(KeyO), KeyUp(KeyW)][..1] == [KeyDown(KeyO)];
    assert [KeyDown(KeyO)][..0] == [];
  }

  /** Releasing an action key does not fall into the movement cases: vy is
      kept. */
  lemma ActionReleaseKeepsVelocity(st: InputState, k: Key)
    requires k == KeyO || k == KeyP
    ensures Step(st, KeyUp(k)).movement == st.movement
  {
  }
}
