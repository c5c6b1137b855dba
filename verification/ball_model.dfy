/** The data every ball carries, the events the host engine delivers to it
    and the effects the state machine asks the engine to perform.

    The same fields are set on a `Ball` sprite and on the `owner` of a
    `Drag` behaviour, so both are modelled by the one record `Ball`.
 */
module BallModel {
  import opened Geometry

  /** Launch impulse factor: velocity is the pull-back vector times this. */
  const SPEED: real := 0.15
  /** A ball further than this from the cup dies. */
  const RESET_DISTANCE: real := 650.0
  /** Below these linear and angular speeds a ball on the table is at rest. */
  const IMMOBILE_SPEED: real := 0.2222222222229
  const IMMOBILE_ANGULAR_SPEED: real := 0.03
  /** Delay, in engine time units, between a death and the call to kill. */
  const DEATH_DELAY: int := 650
  /** Pull-back radius around the start point. */
  const DRAG_RADIUS: real := 95.0
  /** Audio cue played on a ball/table contact. */
  const TABLE_BOUNCE: string := "table_bounce"

  /** One collision pair of a physics event; only its sensor flag is read. */
  datatype Pair = Pair(idA: int, idB: int, isSensor: bool)

  /** What a ball's listeners read besides the ball itself: the ids of the
      parts of its own physics body (captured once by the constructor), the
      scene's table body ids and cup position, the `isInCircle` and `closestPointToCircle` helpers,
      and the engine's `Distance.Between`. The three functions are given with
      their contracts (`ValidInCircle`, `ValidClosest`, `ValidDistance`). */
  datatype Env = Env(
    ballIds: set<int>,
    tableIds: set<int>,
    cup: Vec,
    inCircle: (Vec, Vec, real) -> bool,
    closest: (Vec, Vec, real) -> Vec,
    distance: (Vec, Vec) -> real)

  /** The helpers behave as their contracts say. */
  ghost predicate ValidEnv(env: Env) {
    ValidInCircle(env.inCircle) && ValidClosest(env.closest) && ValidDistance(env.distance)
  }

  /** Where the body is and how it is turned. */
  datatype Pose = Pose(pos: Vec, rotation: real)

  /** The game object's standing in the engine: `isStatic` (the physics
      body does not move), `interactive` (it accepts drag input) and
      `destroyed` (it was destroyed by a sensor contact). */
  datatype Body = Body(isStatic: bool, interactive: bool, destroyed: bool)

  /** The rest pose, `startPos` and `angleRad`, fixed at construction. */
  datatype Rest = Rest(startPos: Vec, angleRad: real)

  /** The drag state: the last clamped pointer target (`dragX`, `dragY`)
      and whether the pointer is pressed on the ball. */
  datatype Aim = Aim(dragPos: Vec, isPressed: bool)

  /** The flight state. */
  datatype Flight = Flight(launched: bool, touchesTable: bool)

  /** The spring constraint: the `hasConstraint` flag, and whether the
      constraint is currently part of the physics world. */
  datatype Spring = Spring(hasConstraint: bool, inWorld: bool)

  /** The life state: the `isDead` flag, the `livesNumber` counter and the
      number of delayed `kill` calls scheduled but not yet run. */
  datatype Life = Life(isDead: bool, livesNumber: int, pendingKills: nat)

  /** The state of one ball, grouped by concern. */
  datatype Ball = Ball(
    pose: Pose,
    body: Body,
    rest: Rest,
    aim: Aim,
    flight: Flight,
    spring: Spring,
    life: Life)

  /** Requests the state machine makes of the engine. */
  datatype Effect =
    | PlaySound(name: string)
    | SetVelocity(v: Vec)
    | ScheduleKill(delay: int)
    | EmitDead

  /** The state after an event together with the effects it requested. */
  datatype Outcome = Outcome(ball: Ball, effects: seq<Effect>)

  /** Events delivered to a ball by the single-threaded engine loop:
      `Pressed`, `Dragged` and `Released` are the pointer's `dragstart`,
      `drag` and `dragend` (`contained` is whether the ball's bounds lie
      inside the ghost image's bounds); `Contacted` and `Separated` are the
      physics `collisionstart` and `collisionend`; `Frame` is the per-frame
      `update` with the body's speeds; `TimerDue` is the delayed kill coming
      due; `Moved` is the physics step moving the body. */
  datatype Event =
    | Pressed
    | Dragged(pointer: Vec)
    | Released(contained: bool)
    | Contacted(bodyA: int, bodyB: int, pairs: seq<Pair>)
    | Separated(bodyA: int, bodyB: int)
    | Frame(speed: real, angularSpeed: real)
    | TimerDue
    | Moved(newPos: Vec, newRotation: real)

  /** The source's test `[a, b].some(in ballIds) && [a, b].some(in tableIds)`. */
  predicate IsBallTablePair(ballIds: set<int>, tableIds: set<int>, a: int, b: int) {
    (a in ballIds || b in ballIds) && (a in tableIds || b in tableIds)
  }

  /** The same test as set membership: the pair's ids meet both sets. */
  lemma BallTablePairBySets(ballIds: set<int>, tableIds: set<int>, a: int, b: int)
    ensures IsBallTablePair(ballIds, tableIds, a, b)
        <==> ({a, b} * ballIds != {} && {a, b} * tableIds != {})
  {
    if a in ballIds { assert a in {a, b} * ballIds; }
    if b in ballIds { assert b in {a, b} * ballIds; }
    if a in tableIds { assert a in {a, b} * tableIds; }
    if b in tableIds { assert b in {a, b} * tableIds; }
  }

  /** Some pair of the event is a sensor contact. */
  predicate HasSensorPair(pairs: seq<Pair>) {
    exists i :: 0 <= i < |pairs| && pairs[i].isSensor
  }

  /** The sensor-kill test as written: a sensor pair anywhere in the event
      together with the handler's own `bodyA` argument being a ball part;
      the ids of the sensor pair itself are not consulted. */
  predicate SensorHit(ballIds: set<int>, bodyA: int, pairs: seq<Pair>) {
    bodyA in ballIds && HasSensorPair(pairs)
  }

  /** Number of `EmitDead` effects, that is, of `kill` calls. */
  function DeadCount(fx: seq<Effect>): (n: nat)
    ensures n <= |fx|
  {
    if fx == [] then 0 else DeadCount(fx[..|fx| - 1]) + (if fx[|fx| - 1] == EmitDead then 1 else 0)
  }

  /** Number of `ScheduleKill` effects, that is, of `delayedCall`s. */
  function ScheduleCount(fx: seq<Effect>): (n: nat)
    ensures n <= |fx|
  {
    if fx == [] then 0 else ScheduleCount(fx[..|fx| - 1]) + (if fx[|fx| - 1].ScheduleKill? then 1 else 0)
  }

  lemma {:induction false} CountsOfConcat(a: seq<Effect>, b: seq<Effect>)
    ensures DeadCount(a + b) == DeadCount(a) + DeadCount(b)
    ensures ScheduleCount(a + b) == ScheduleCount(a) + ScheduleCount(b)
    decreases |b|
  {
    if b == [] {
      assert a + b == a;
    } else {
      var b' := b[..|b| - 1];
      assert (a + b)[..|a + b| - 1] == a + b';
      CountsOfConcat(a, b');
    }
  }
}
