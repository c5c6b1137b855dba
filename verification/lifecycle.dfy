/** Properties of the ball state machine over single events and over
    traces: the bookkeeping invariant, life accounting, the death rules,
    the sensor kill, the respawn, and the clamped drag target. */
module Lifecycle {
  import opened Geometry
  import opened BallModel
  import opened BallSprite

  /** What every reachable ball state satisfies: lives never negative; at
      most one delayed kill pending, and only for a dying ball that still
      has a life to spend; a destroyed ball is dead for good, with nothing
      pending and no input; the constraint is in the world only while
      `hasConstraint` is set. */
  predicate Inv(b: Ball) {
    && b.life.livesNumber >= 0
    && b.life.pendingKills <= 1
    && (b.life.pendingKills == 1 ==> b.life.isDead && b.life.livesNumber >= 1 && !b.body.destroyed)
    && (b.body.destroyed ==> b.life.isDead && b.life.pendingKills == 0 && !b.body.interactive)
    && (b.spring.inWorld ==> b.spring.hasConstraint)
  }

  /** A new ball with a non-negative number of lives satisfies the invariant. */
  lemma InitSatisfiesInv(x: real, y: real, angleRad: real, rotation: real, maxLives: int)
    requires maxLives >= 0
    ensures Inv(Init(x, y, angleRad, rotation, maxLives))
    ensures Init(x, y, angleRad, rotation, maxLives).life.pendingKills == 0
  {
  }

  /** Every event preserves the invariant. */
  lemma ApplyPreservesInv(env: Env, b: Ball, e: Event)
    requires Inv(b)
    ensures Inv(Apply(env, b, e).ball)
  {
  }

  lemma {:induction false} RunPreservesInv(env: Env, b: Ball, es: seq<Event>)
    requires Inv(b)
    ensures Inv(Run(env, b, es).ball)
    decreases |es|
  {
    if es != [] {
      RunPreservesInv(env, b, es[..|es| - 1]);
      ApplyPreservesInv(env, Run(env, b, es[..|es| - 1]).ball, es[|es| - 1]);
    }
  }

  /** Along any trace from a new ball: at most one kill is pending, a
      pending kill belongs to a dying ball, and lives never go negative. */
  lemma AtMostOnePendingKill(env: Env, x: real, y: real, angleRad: real,
                             rotation: real, maxLives: int, es: seq<Event>)
    requires maxLives >= 0
    ensures var b := Run(env, Init(x, y, angleRad, rotation, maxLives), es).ball;
      && b.life.pendingKills <= 1
      && (b.life.pendingKills == 1 ==> b.life.isDead)
      && b.life.livesNumber >= 0
  {
    InitSatisfiesInv(x, y, angleRad, rotation, maxLives);
    RunPreservesInv(env, Init(x, y, angleRad, rotation, maxLives), es);
  }

  /** A dying ball schedules nothing more: `update` leaves it alone. */
  lemma NoSecondSchedule(env: Env, b: Ball, speed: real, angularSpeed: real)
    requires Inv(b) && b.life.pendingKills == 1
    ensures Update(env, b, speed, angularSpeed) == Outcome(b, [])
  {
  }

  /** One event: the lives spent equal the `kill` calls made, and every
      scheduled kill has either run or is still pending. */
  lemma ApplyAccounting(env: Env, b: Ball, e: Event)
    ensures var o := Apply(env, b, e);
      && b.life.livesNumber - o.ball.life.livesNumber == DeadCount(o.effects)
      && ScheduleCount(o.effects) + b.life.pendingKills == DeadCount(o.effects) + o.ball.life.pendingKills
  {
    var o := Apply(env, b, e);
    match e
    case TimerDue =>
      if b.life.pendingKills > 0 {
        assert o.effects == [EmitDead];
        assert [EmitDead][..0] == [];
      }
    case Frame(speed, angularSpeed) =>
      if o.effects != [] {
        assert o.effects == [ScheduleKill(DEATH_DELAY)];
        assert [ScheduleKill(DEATH_DELAY)][..0] == [];
      }
    case Contacted(a, c, pairs) =>
      if o.effects != [] {
        assert o.effects == [PlaySound(TABLE_BOUNCE)];
        assert [PlaySound(TABLE_BOUNCE)][..0] == [];
      }
    case Released(contained) =>
      if o.effects != [] {
        assert o.effects == [SetVelocity(LaunchVelocity(b))];
        assert [SetVelocity(LaunchVelocity(b))][..0] == [];
      }
    case _ =>
  }

  /** Over any trace, lives are spent exactly once per `kill`, and the
      delayed calls scheduled equal the kills run plus the kill pending. */
  lemma {:induction false} LivesSpentOncePerKill(env: Env, b: Ball, es: seq<Event>)
    ensures var o := Run(env, b, es);
      && b.life.livesNumber - o.ball.life.livesNumber == DeadCount(o.effects)
      && ScheduleCount(o.effects) + b.life.pendingKills == DeadCount(o.effects) + o.ball.life.pendingKills
    decreases |es|
  {
    if es != [] {
      var prev := Run(env, b, es[..|es| - 1]);
      var next := Apply(env, prev.ball, es[|es| - 1]);
      LivesSpentOncePerKill(env, b, es[..|es| - 1]);
      ApplyAccounting(env, prev.ball, es[|es| - 1]);
      CountsOfConcat(prev.effects, next.effects);
    }
  }

  /** A ball that is not on the table can start dying only by being too far
      from the cup; at rest on the table is the only other way. */
  lemma DeathWithoutTableIsDistance(env: Env, b: Ball, speed: real, angularSpeed: real)
    requires !b.life.isDead && !b.flight.touchesTable
    requires Update(env, b, speed, angularSpeed).ball.life.isDead
    ensures TooFar(env, Update(env, b, speed, angularSpeed).ball)
    ensures b.life.livesNumber != 0
  {
  }

  /** A sensor contact kills without spending a life, and the destroyed ball
      then ignores every later event for good. */
  lemma {:induction false} SensorDeathIsFinal(env: Env, b: Ball, es: seq<Event>)
    requires Inv(b) && b.body.destroyed
    ensures Run(env, b, es) == Outcome(b, [])
    decreases |es|
  {
    if es != [] {
      SensorDeathIsFinal(env, b, es[..|es| - 1]);
      assert Apply(env, b, es[|es| - 1]) == Outcome(b, []);
    }
  }

  /** No event moves the rest pose. */
  lemma ApplyKeepsRest(env: Env, b: Ball, e: Event)
    ensures Apply(env, b, e).ball.rest == b.rest
  {
  }

  /** The rest pose never changes along a trace. */
  lemma {:induction false} RestStable(env: Env, b: Ball, es: seq<Event>)
    ensures Run(env, b, es).ball.rest == b.rest
    decreases |es|
  {
    if es != [] {
      RestStable(env, b, es[..|es| - 1]);
      ApplyKeepsRest(env, Run(env, b, es[..|es| - 1]).ball, es[|es| - 1]);
    }
  }

  /** When a pending kill fires and lives remain, the ball is back at the
      position and angle it was created with, static, draggable, off the
      table and no longer dying. */
  lemma RespawnRestoresStart(env: Env, x: real, y: real, angleRad: real,
                             rotation: real, maxLives: int, es: seq<Event>)
    requires var b := Run(env, Init(x, y, angleRad, rotation, maxLives), es).ball;
      b.life.pendingKills > 0 && b.life.livesNumber != 1
    ensures var b := Run(env, Init(x, y, angleRad, rotation, maxLives), es).ball;
      var k := TimerFires(b).ball;
      && k.pose.pos == Vec(x, y) && k.pose.rotation == angleRad
      && k.body.isStatic && k.body.interactive && !k.flight.touchesTable && !k.life.isDead
      && k.life.livesNumber == b.life.livesNumber - 1
  {
    RestStable(env, Init(x, y, angleRad, rotation, maxLives), es);
  }

  /** With a `closestPointToCircle` that meets its contract, the drag target
      never leaves the drag circle around the start point. */
  lemma DragTargetInCircle(env: Env, b: Ball, pointer: Vec)
    requires ValidEnv(env) && b.body.interactive
    ensures InCircle(b.rest.startPos, DragMove(env, b, pointer).ball.aim.dragPos, DRAG_RADIUS)
  {
    if !InCircle(b.rest.startPos, pointer, DRAG_RADIUS) {
      OnRayIsInCircle(b.rest.startPos, pointer, DRAG_RADIUS, env.closest(b.rest.startPos, pointer, DRAG_RADIUS));
    }
  }

  /** Outside the drag circle the target lies on the circle. */
  lemma ClampedTargetOnCircle(env: Env, c: Vec, p: Vec)
    requires ValidEnv(env) && !InCircle(c, p, DRAG_RADIUS)
    ensures Dist2(c, DragTarget(env, c, p)) == DRAG_RADIUS * DRAG_RADIUS
  {
    assert !env.inCircle(c, p, DRAG_RADIUS);
  }

  /** Start at (100, 100), pointer at (300, 100): the target is (195, 100). */
  lemma DragClampExample(env: Env, b: Ball)
    requires ValidEnv(env) && b.body.interactive
    requires b.rest.startPos == Vec(100.0, 100.0)
    ensures DragMove(env, b, Vec(300.0, 100.0)).ball.aim.dragPos == Vec(195.0, 100.0)
  {
    var c := Vec(100.0, 100.0);
    var p := Vec(300.0, 100.0);
    assert Dist2(c, p) == 40000.0;
    assert !InCircle(c, p, DRAG_RADIUS);
    assert !env.inCircle(c, p, DRAG_RADIUS);
    OnRayAlongX(c, p, DRAG_RADIUS, env.closest(c, p, DRAG_RADIUS));
  }

  /** A launched ball 700 units from the cup starts dying in that frame;
      when the delayed kill fires one life is spent and, if any remain,
      the ball is back at its start pose. */
  lemma TooFarExample(env: Env, b: Ball, speed: real, angularSpeed: real)
    requires Inv(b) && b.flight.launched && !b.life.isDead && !b.aim.isPressed && b.life.livesNumber >= 1
    requires ValidEnv(env)
    requires Dist2(b.pose.pos, env.cup) == 700.0 * 700.0
    ensures var u := Update(env, b, speed, angularSpeed);
      && u.ball.life.isDead && u.ball.life.pendingKills == 1 && u.effects == [ScheduleKill(DEATH_DELAY)]
      && TimerFires(u.ball).ball.life.livesNumber == b.life.livesNumber - 1
      && !TimerFires(u.ball).ball.life.isDead
      && (b.life.livesNumber > 1 ==>
            TimerFires(u.ball).ball.pose == Pose(b.rest.startPos, b.rest.angleRad))
  {
    FartherIffSquares(env.distance, b.pose.pos, env.cup, RESET_DISTANCE);
    assert TooFar(env, b);
  }

  /** `dragstart` does not clear `hasConstraint`: after a short release and
      a new drag, the flag is set although the constraint is out of the
      world; and a short release leaves the body dynamic while the flag is
      set. */
  lemma ConstraintFlagOutlivesConstraint(env: Env, x: real, y: real,
                                         angleRad: real, rotation: real, maxLives: int)
    ensures var b := Run(env, Init(x, y, angleRad, rotation, maxLives),
                         [Pressed, Released(true)]).ball;
      b.spring == Spring(true, true) && !b.body.isStatic
    ensures var b := Run(env, Init(x, y, angleRad, rotation, maxLives),
                         [Pressed, Released(true), Pressed]).ball;
      b.spring.hasConstraint && !b.spring.inWorld
  {
    var b0 := Init(x, y, angleRad, rotation, maxLives);
    var es := [Pressed, Released(true), Pressed];
    assert es[..2][..1] == [Pressed];
    assert [Pressed][..0] == [];
    assert es[..2] == [Pressed, Released(true)];
  }

  /** Resetting a ball that was just reset changes nothing. */
  lemma ResetIdempotent(b: Ball)
    ensures Reset(Reset(b)) == Reset(b)
    ensures AtRest(b) ==> Reset(b) == b
  {
  }

  /** `kill` on the last life spends it and leaves the ball where it died;
      the game is then over for this ball: `update` ignores it. */
  lemma LastLifeIsNotReset(env: Env, b: Ball, speed: real, angularSpeed: real)
    requires b.life.livesNumber == 1
    ensures var k := Kill(b).ball;
      && k.life.livesNumber == 0 && k.pose == b.pose && k.body == b.body
      && Update(env, k, speed, angularSpeed) == Outcome(k, [])
  {
  }

  /** The launch impulse points from the release position back to the start
      point, and vanishes exactly when the ball is released on it. */
  lemma LaunchPointsHome(b: Ball)
    ensures Add(b.pose.pos, Scale(LaunchVelocity(b), 1.0 / SPEED)) == b.rest.startPos
    ensures LaunchVelocity(b) == Vec(0.0, 0.0) <==> b.pose.pos == b.rest.startPos
  {
    var v := LaunchVelocity(b);
    assert v.x * (1.0 / SPEED) == b.rest.startPos.x - b.pose.pos.x;
    assert v.y * (1.0 / SPEED) == b.rest.startPos.y - b.pose.pos.y;
  }

  /** A launched ball hits the table and the contact ends again: away from
      the start point table contact is cleared, within the drag circle it is
      kept. */
  lemma TableContactCycle(env: Env, b: Ball, bodyA: int, bodyB: int)
    requires b.flight.launched && !b.life.isDead
    requires IsBallTablePair(env.ballIds, env.tableIds, bodyA, bodyB)
    ensures var hit := CollisionStart(env, b, bodyA, bodyB, []).ball;
      && hit.flight.touchesTable
      && (CollisionEnd(env, hit, bodyA, bodyB).ball.flight.touchesTable <==>
          env.inCircle(b.rest.startPos, b.pose.pos, DRAG_RADIUS))
  {
    assert !HasSensorPair([]);
  }
}
