/** The `Ball` sprite (src/js/sprite/Ball.ts): its constructor state, the
    drag and collision listeners it registers, and `update`, `kill` and
    `reset`. Each listener is a pure function from the ball's state to an
    `Outcome`; `Apply` dispatches one event and `Run` folds a trace.

    Drag events reach a game object only while it is interactive, so the
    three drag listeners leave a non-interactive ball untouched. The
    listeners close over the constructor's `x` and `y`; they are read here
    as `rest.startPos`, which holds the same point for the ball's lifetime
    (`Lifecycle.RestStable`).
 */
module BallSprite {
  import opened Geometry
  import opened BallModel

  /** The ball stands at rest: at its start pose, off the table, static
      and draggable. This is what `reset` establishes. */
  predicate AtRest(b: Ball) {
    && b.pose == Pose(b.rest.startPos, b.rest.angleRad)
    && !b.flight.touchesTable
    && b.body.isStatic
    && b.body.interactive
  }

  /** The constructor's state. `rotation` is whatever the body set-up left,
      `maxLives` is the configured number of lives. */
  function Init(x: real, y: real, angleRad: real, rotation: real, maxLives: int): (b: Ball)
    ensures b.body.isStatic && b.body.interactive && !b.body.destroyed
    ensures !b.flight.launched && !b.flight.touchesTable
    ensures !b.spring.hasConstraint && !b.spring.inWorld
    ensures b.aim.dragPos == b.rest.startPos == b.pose.pos == Vec(x, y) && !b.aim.isPressed
    ensures b.rest.angleRad == angleRad && b.pose.rotation == rotation
    ensures b.life.livesNumber == maxLives && b.life.pendingKills == 0 && !b.life.isDead
  {
    Ball(
      pose := Pose(Vec(x, y), rotation),
      body := Body(isStatic := true, interactive := true, destroyed := false),
      rest := Rest(Vec(x, y), angleRad),
      aim := Aim(Vec(x, y), isPressed := false),
      flight := Flight(launched := false, touchesTable := false),
      spring := Spring(hasConstraint := false, inWorld := false),
      life := Life(isDead := false, livesNumber := maxLives, pendingKills := 0))
  }

  /** `dragstart`: the ball becomes pressed and not launched, the drag target
      snapshots the current position, an attached constraint is taken out of
      the world and the body turns dynamic. `hasConstraint` keeps its value. */
  function DragStart(b: Ball): (o: Outcome)
    ensures o.effects == []
    ensures !b.body.interactive ==> o.ball == b
    ensures b.body.interactive ==>
      && o.ball.aim == Aim(b.pose.pos, true)
      && !o.ball.flight.launched && o.ball.flight.touchesTable == b.flight.touchesTable
      && o.ball.body == b.body.(isStatic := false)
      && o.ball.spring.hasConstraint == b.spring.hasConstraint
      && (b.spring.hasConstraint ==> !o.ball.spring.inWorld)
      && (!b.spring.hasConstraint ==> o.ball.spring == b.spring)
      && o.ball.pose == b.pose && o.ball.rest == b.rest && o.ball.life == b.life
  {
    if !b.body.interactive then Outcome(b, [])
    else
      Outcome(b.(aim := Aim(b.pose.pos, true),
                 flight := b.flight.(launched := false),
                 spring := if b.spring.hasConstraint then b.spring.(inWorld := false) else b.spring,
                 body := b.body.(isStatic := false)), [])
  }

  /** The clamped drag target for a pointer: the pointer itself inside the
      drag circle around `start`, its projection onto the circle outside. */
  function DragTarget(env: Env, start: Vec, pointer: Vec): Vec {
    if env.inCircle(start, pointer, DRAG_RADIUS) then pointer
    else env.closest(start, pointer, DRAG_RADIUS)
  }

  /** One `drag` listener: it presses the dragged ball and sets its drag
      target to the pointer clamped around the start point the listener
      captured; nothing else changes. */
  function DragWith(env: Env, start: Vec, b: Ball, pointer: Vec): (o: Outcome)
    ensures o.effects == []
    ensures !b.body.interactive ==> o.ball == b
    ensures b.body.interactive ==>
      o.ball.aim == Aim(DragTarget(env, start, pointer), true) && o.ball.(aim := b.aim) == b
  {
    if !b.body.interactive then Outcome(b, [])
    else Outcome(b.(aim := Aim(DragTarget(env, start, pointer), true)), [])
  }

  /** `drag` on the ball whose own listener handles it: the ball is pressed
      and its drag target is the pointer inside the drag circle around its
      start point, and the clamped point outside it; nothing else changes. */
  function DragMove(env: Env, b: Ball, pointer: Vec): (o: Outcome)
    ensures o.effects == []
    ensures !b.body.interactive ==> o.ball == b
    ensures b.body.interactive ==>
      && o.ball.aim.isPressed
      && (env.inCircle(b.rest.startPos, pointer, DRAG_RADIUS) ==> o.ball.aim.dragPos == pointer)
      && (!env.inCircle(b.rest.startPos, pointer, DRAG_RADIUS) ==>
            o.ball.aim.dragPos == env.closest(b.rest.startPos, pointer, DRAG_RADIUS))
      && o.ball.(aim := b.aim) == b
  {
    DragWith(env, b.rest.startPos, b, pointer)
  }

  /** The launch impulse: the pull-back vector scaled by `SPEED`. */
  function LaunchVelocity(b: Ball): Vec {
    Scale(Sub(b.rest.startPos, b.pose.pos), SPEED)
  }

  /** `dragend`: the ball is released and counts as launched. A release whose
      bounds stay inside the ghost image re-attaches the constraint and
      imparts nothing; any other release imparts the launch impulse and
      ends drag input. */
  function DragEnd(b: Ball, contained: bool): (o: Outcome)
    ensures !b.body.interactive ==> o == Outcome(b, [])
    ensures b.body.interactive ==>
      && o.ball.flight.launched && !o.ball.aim.isPressed
      && o.ball.aim.dragPos == b.aim.dragPos
      && o.ball.pose == b.pose && o.ball.life == b.life && o.ball.rest == b.rest
      && o.ball.flight.touchesTable == b.flight.touchesTable
    ensures b.body.interactive && contained ==>
      && o.effects == []
      && o.ball.spring == Spring(true, true)
      && o.ball.body == b.body
    ensures b.body.interactive && !contained ==>
      && o.effects == [SetVelocity(Vec((b.rest.startPos.x - b.pose.pos.x) * SPEED,
                                       (b.rest.startPos.y - b.pose.pos.y) * SPEED))]
      && o.ball.body == b.body.(isStatic := false, interactive := false)
      && o.ball.spring == b.spring
  {
    if !b.body.interactive then Outcome(b, [])
    else
      var released := b.(aim := b.aim.(isPressed := false), flight := b.flight.(launched := true));
      if contained then
        Outcome(released.(spring := Spring(hasConstraint := true, inWorld := true)), [])
      else
        Outcome(released.(body := b.body.(isStatic := false, interactive := false)),
                [SetVelocity(LaunchVelocity(b))])
  }

  /** `destroy()` on the game object: it leaves the world and takes no input. */
  function Destroy(b: Ball): Ball {
    b.(body := b.body.(destroyed := true, interactive := false))
  }

  /** `collisionstart`: ignored unless launched and alive. A ball/table pair
      marks table contact and plays the bounce cue; a sensor pair in the
      event, with `bodyA` a ball part, destroys the ball and marks it dead
      without spending a life. */
  function CollisionStart(env: Env, b: Ball, bodyA: int, bodyB: int, pairs: seq<Pair>): (o: Outcome)
    ensures b.life.isDead || !b.flight.launched ==> o == Outcome(b, [])
    ensures !b.life.isDead && b.flight.launched ==>
      && (o.ball.flight.touchesTable <==>
            b.flight.touchesTable || IsBallTablePair(env.ballIds, env.tableIds, bodyA, bodyB))
      && (IsBallTablePair(env.ballIds, env.tableIds, bodyA, bodyB) ==> o.effects == [PlaySound(TABLE_BOUNCE)])
      && (!IsBallTablePair(env.ballIds, env.tableIds, bodyA, bodyB) ==> o.effects == [])
      && (o.ball.life.isDead <==> SensorHit(env.ballIds, bodyA, pairs))
      && (SensorHit(env.ballIds, bodyA, pairs) ==>
            o.ball.body == b.body.(destroyed := true, interactive := false))
      && (!SensorHit(env.ballIds, bodyA, pairs) ==> o.ball.body == b.body)
      && o.ball.rest == b.rest && o.ball.flight.launched == b.flight.launched
      && o.ball.life.livesNumber == b.life.livesNumber
      && o.ball.life.pendingKills == b.life.pendingKills
      && o.ball.pose == b.pose && o.ball.aim == b.aim && o.ball.spring == b.spring
  {
    if b.life.isDead || !b.flight.launched then Outcome(b, [])
    else Outcome(AfterContact(env, b, bodyA, bodyB, pairs), BounceCue(env, bodyA, bodyB))
  }

  /** The state change of a `collisionstart` that passed the guard: table
      contact first, then the scan of the event's pairs for a sensor. */
  function AfterContact(env: Env, b: Ball, bodyA: int, bodyB: int, pairs: seq<Pair>): Ball {
    var touched :=
      if IsBallTablePair(env.ballIds, env.tableIds, bodyA, bodyB)
      then b.(flight := b.flight.(touchesTable := true)) else b;
    if SensorHit(env.ballIds, bodyA, pairs) then Destroy(touched).(life := touched.life.(isDead := true))
    else touched
  }

  /** The audio cue of a `collisionstart` that passed the guard. */
  function BounceCue(env: Env, bodyA: int, bodyB: int): seq<Effect> {
    if IsBallTablePair(env.ballIds, env.tableIds, bodyA, bodyB) then [PlaySound(TABLE_BOUNCE)] else []
  }

  /** `collisionend`: ignored unless launched and alive. Table contact is
      cleared only by a ball/table pair ending while the ball lies outside
      the drag circle around the start point. */
  function CollisionEnd(env: Env, b: Ball, bodyA: int, bodyB: int): (o: Outcome)
    ensures o.effects == []
    ensures b.life.isDead || !b.flight.launched ==> o.ball == b
    ensures o.ball.flight.touchesTable != b.flight.touchesTable ==>
      && !b.life.isDead && b.flight.launched
      && !env.inCircle(b.rest.startPos, b.pose.pos, DRAG_RADIUS)
      && IsBallTablePair(env.ballIds, env.tableIds, bodyA, bodyB)
      && !o.ball.flight.touchesTable
    ensures (&& !b.life.isDead && b.flight.launched
             && !env.inCircle(b.rest.startPos, b.pose.pos, DRAG_RADIUS)
             && IsBallTablePair(env.ballIds, env.tableIds, bodyA, bodyB)) ==> !o.ball.flight.touchesTable
    ensures o.ball.(flight := b.flight) == b && o.ball.flight.launched == b.flight.launched
  {
    if b.life.isDead || !b.flight.launched then Outcome(b, [])
    else if !env.inCircle(b.rest.startPos, b.pose.pos, DRAG_RADIUS)
            && IsBallTablePair(env.ballIds, env.tableIds, bodyA, bodyB) then
      Outcome(b.(flight := b.flight.(touchesTable := false)), [])
    else Outcome(b, [])
  }

  /** The ball has come to rest on the table. */
  predicate Immobile(b: Ball, speed: real, angularSpeed: real) {
    speed < IMMOBILE_SPEED && angularSpeed < IMMOBILE_ANGULAR_SPEED && b.flight.touchesTable
  }

  /** The ball is further than `RESET_DISTANCE` from the cup. */
  predicate TooFar(env: Env, b: Ball) {
    env.distance(b.pose.pos, env.cup) > RESET_DISTANCE
  }

  /** A pressed ball is put on its drag target before anything else. */
  function PressCorrection(b: Ball): Ball {
    if b.aim.isPressed then b.(pose := b.pose.(pos := b.aim.dragPos)) else b
  }

  /** The death test of `update`, on the corrected ball. */
  function Judge(env: Env, b: Ball, speed: real, angularSpeed: real): Outcome {
    if TooFar(env, b) || Immobile(b, speed, angularSpeed) then
      Outcome(b.(life := b.life.(isDead := true, pendingKills := b.life.pendingKills + 1)),
              [ScheduleKill(DEATH_DELAY)])
    else Outcome(b, [])
  }

  /** `update`: nothing happens to a dying ball or one without lives. A
      pressed ball is first moved onto its drag target; then a ball too far
      from the cup, or at rest on the table, starts dying and exactly one
      delayed kill is scheduled. */
  function Update(env: Env, b: Ball, speed: real, angularSpeed: real): (o: Outcome)
    ensures b.life.isDead || b.life.livesNumber == 0 ==> o == Outcome(b, [])
    ensures !b.life.isDead && b.life.livesNumber != 0 ==>
      && (b.aim.isPressed ==> o.ball.pose.pos == b.aim.dragPos)
      && (!b.aim.isPressed ==> o.ball.pose.pos == b.pose.pos)
      && (o.ball.life.isDead <==> TooFar(env, PressCorrection(b)) || Immobile(b, speed, angularSpeed))
      && (o.ball.life.isDead ==>
            o.ball.life.pendingKills == b.life.pendingKills + 1 && o.effects == [ScheduleKill(DEATH_DELAY)])
      && (!o.ball.life.isDead ==> o.ball.life == b.life && o.effects == [])
    ensures o.ball.life.livesNumber == b.life.livesNumber
    ensures o.ball.(pose := b.pose, life := b.life) == b && o.ball.pose.rotation == b.pose.rotation
  {
    if b.life.isDead || b.life.livesNumber == 0 then Outcome(b, [])
    else Judge(env, PressCorrection(b), speed, angularSpeed)
  }

  /** `reset`: back to the rest pose, static and draggable, off the table;
      nothing else changes. */
  function Reset(b: Ball): (r: Ball)
    ensures AtRest(r)
    ensures r.rest == b.rest && r.aim == b.aim && r.spring == b.spring && r.life == b.life
    ensures r.flight.launched == b.flight.launched
    ensures r.body.destroyed == b.body.destroyed
  {
    b.(body := b.body.(interactive := true, isStatic := true),
       flight := b.flight.(touchesTable := false),
       pose := Pose(b.rest.startPos, b.rest.angleRad))
  }

  /** `kill`: spends exactly one life and announces the death; the ball is
      reset exactly when lives remain, and is never left dying. */
  function Kill(b: Ball): (o: Outcome)
    ensures o.ball.life == b.life.(livesNumber := b.life.livesNumber - 1, isDead := false)
    ensures o.effects == [EmitDead]
    ensures o.ball.life.livesNumber != 0 ==> o.ball == Reset(b).(life := o.ball.life)
    ensures o.ball.life.livesNumber == 0 ==> o.ball == b.(life := o.ball.life)
    ensures !AtRest(b) ==> (AtRest(o.ball) <==> o.ball.life.livesNumber != 0)
  {
    var spent := b.(life := b.life.(livesNumber := b.life.livesNumber - 1));
    var after := if spent.life.livesNumber != 0 then Reset(spent) else spent;
    Outcome(after.(life := after.life.(isDead := false)), [EmitDead])
  }

  /** The delayed call comes due: one pending kill is consumed and runs
      `kill`. With no kill pending there is no timer to fire. */
  function TimerFires(b: Ball): (o: Outcome)
    ensures b.life.pendingKills == 0 ==> o == Outcome(b, [])
    ensures b.life.pendingKills > 0 ==>
      && o.ball.life.pendingKills == b.life.pendingKills - 1
      && o.ball.life.livesNumber == b.life.livesNumber - 1
      && !o.ball.life.isDead
      && o.effects == [EmitDead]
    ensures b.life.pendingKills > 0 && b.life.livesNumber != 1 ==> o.ball == Reset(b).(life := o.ball.life)
    ensures b.life.pendingKills > 0 && b.life.livesNumber == 1 ==> o.ball == b.(life := o.ball.life)
  {
    if b.life.pendingKills == 0 then Outcome(b, [])
    else Kill(b.(life := b.life.(pendingKills := b.life.pendingKills - 1)))
  }

  /** The physics step moves a dynamic body that is still in the world. */
  function EngineMove(b: Ball, newPose: Pose): (o: Outcome)
    ensures o.effects == []
    ensures b.body.isStatic || b.body.destroyed ==> o.ball == b
    ensures o.ball.(pose := b.pose) == b
  {
    if b.body.isStatic || b.body.destroyed then Outcome(b, [])
    else Outcome(b.(pose := newPose), [])
  }

  /** One event of the engine loop. */
  function Apply(env: Env, b: Ball, e: Event): Outcome {
    match e
    case Pressed => DragStart(b)
    case Dragged(p) => DragMove(env, b, p)
    case Released(contained) => DragEnd(b, contained)
    case Contacted(a, c, pairs) => CollisionStart(env, b, a, c, pairs)
    case Separated(a, c) => CollisionEnd(env, b, a, c)
    case Frame(speed, angularSpeed) => Update(env, b, speed, angularSpeed)
    case TimerDue => TimerFires(b)
    case Moved(p, r) => EngineMove(b, Pose(p, r))
  }

  /** A trace of events applied in order; the effects are concatenated. */
  function Run(env: Env, b: Ball, es: seq<Event>): Outcome
    decreases |es|
  {
    if es == [] then Outcome(b, [])
    else
      var prev := Run(env, b, es[..|es| - 1]);
      var next := Apply(env, prev.ball, es[|es| - 1]);
      Outcome(next.ball, prev.effects + next.effects)
  }
}
