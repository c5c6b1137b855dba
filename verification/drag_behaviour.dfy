/** The `Drag` behaviour (src/js/behaviour/Drag.ts): the same state machine
    as the `Ball` sprite, attached to an `owner` game object. Its handlers
    are written here statement by statement, in the order of the source, as
    methods over the owner's state, and each is proved to produce exactly
    the outcome of the corresponding `BallSprite` function.

    The behaviour's listeners close over the constructor's `x` and `y`;
    `Drag` keeps them as `anchor`. */
module DragBehaviour {
  import opened Geometry
  import opened BallModel
  import BallSprite

  datatype Drag = Drag(owner: Ball, anchor: Vec)

  /** The captured start point agrees with the owner's own. */
  predicate Bound(d: Drag) {
    d.anchor == d.owner.rest.startPos
  }

  /** The constructor: it sets the flags, the rest pose and the drag target
      on the owner, makes it draggable and static, and creates a constraint
      that is not yet in the world. The owner's position, rotation and lives
      are left as the owner had them, and so are delayed calls it has
      pending. */
  function Attach(owner: Ball, x: real, y: real, angleRad: real): (d: Drag)
    ensures Bound(d) && d.anchor == Vec(x, y)
    ensures d.owner.pose == owner.pose
    ensures d.owner.life == owner.life.(isDead := false)
    ensures BallSprite.AtRest(d.owner) <==> owner.pose == Pose(Vec(x, y), angleRad)
    ensures d.owner.flight == Flight(launched := false, touchesTable := false)
    ensures d.owner.spring == Spring(hasConstraint := false, inWorld := false)
    ensures d.owner.aim == Aim(Vec(x, y), isPressed := false)
    ensures d.owner.rest == Rest(Vec(x, y), angleRad)
    ensures d.owner.body == owner.body.(interactive := true, isStatic := true)
  {
    var o := owner.(
      flight := Flight(launched := false, touchesTable := false),
      spring := Spring(hasConstraint := false, inWorld := false),
      life := owner.life.(isDead := false),
      rest := Rest(Vec(x, y), angleRad),
      aim := Aim(Vec(x, y), isPressed := false),
      body := owner.body.(interactive := true, isStatic := true));
    Drag(o, Vec(x, y))
  }

  /** Attached to an owner that stands at (x, y), alive, with the configured
      lives, the behaviour starts in the state the `Ball` constructor sets up. */
  lemma AttachMatchesBallInit(owner: Ball, x: real, y: real, angleRad: real, maxLives: int)
    requires owner.pose.pos == Vec(x, y) && !owner.body.destroyed
    requires owner.life.livesNumber == maxLives && owner.life.pendingKills == 0
    ensures Attach(owner, x, y, angleRad).owner
         == BallSprite.Init(x, y, angleRad, owner.pose.rotation, maxLives)
  {
  }

  /** The `dragstart` listener. */
  method OnDragStart(d: Drag) returns (d': Drag, fx: seq<Effect>)
    requires Bound(d)
    ensures Bound(d') && d'.anchor == d.anchor
    ensures Outcome(d'.owner, fx) == BallSprite.DragStart(d.owner)
  {
    var o := d.owner;
    fx := [];
    if !o.body.interactive {
      return d, fx;
    }
    o := o.(aim := o.aim.(isPressed := true));
    o := o.(flight := o.flight.(launched := false));
    o := o.(aim := o.aim.(dragPos := o.pose.pos));
    if o.spring.hasConstraint {
      o := o.(spring := o.spring.(inWorld := false));
    }
    o := o.(body := o.body.(isStatic := false));
    d' := d.(owner := o);
  }

  /** The `drag` listener; it clamps around the captured start point. */
  method OnDrag(env: Env, d: Drag, pointer: Vec) returns (d': Drag, fx: seq<Effect>)
    requires Bound(d)
    ensures Bound(d') && d'.anchor == d.anchor
    ensures Outcome(d'.owner, fx) == BallSprite.DragMove(env, d.owner, pointer)
  {
    var o := d.owner;
    fx := [];
    if !o.body.interactive {
      return d, fx;
    }
    o := o.(aim := o.aim.(isPressed := true));
    var point := pointer;
    if !env.inCircle(d.anchor, pointer, DRAG_RADIUS) {
      point := env.closest(d.anchor, pointer, DRAG_RADIUS);
    }
    o := o.(aim := o.aim.(dragPos := point));
    d' := d.(owner := o);
  }

  /** The `dragend` listener; `contained` is the bounds test against the
      ghost image. */
  method OnDragEnd(d: Drag, contained: bool) returns (d': Drag, fx: seq<Effect>)
    requires Bound(d)
    ensures Bound(d') && d'.anchor == d.anchor
    ensures Outcome(d'.owner, fx) == BallSprite.DragEnd(d.owner, contained)
  {
    var o := d.owner;
    fx := [];
    if !o.body.interactive {
      return d, fx;
    }
    o := o.(aim := o.aim.(isPressed := false));
    o := o.(flight := o.flight.(launched := true));
    if contained {
      o := o.(spring := o.spring.(inWorld := true));
      o := o.(spring := o.spring.(hasConstraint := true));
      return d.(owner := o), fx;
    }
    o := o.(body := o.body.(isStatic := false));
    fx := fx + [SetVelocity(Vec((o.rest.startPos.x - o.pose.pos.x) * SPEED, (o.rest.startPos.y - o.pose.pos.y) * SPEED))];
    o := o.(body := o.body.(interactive := false));
    d' := d.(owner := o);
  }

  /** The `collisionstart` listener, scanning every pair of the event. */
  method OnCollisionStart(env: Env, d: Drag, bodyA: int, bodyB: int, pairs: seq<Pair>)
    returns (d': Drag, fx: seq<Effect>)
    requires Bound(d)
    ensures Bound(d') && d'.anchor == d.anchor
    ensures Outcome(d'.owner, fx) == BallSprite.CollisionStart(env, d.owner, bodyA, bodyB, pairs)
  {
    var o := d.owner;
    fx := [];
    if o.life.isDead || !o.flight.launched {
      return d, fx;
    }
    if (bodyA in env.ballIds || bodyB in env.ballIds) && (bodyA in env.tableIds || bodyB in env.tableIds) {
      fx := fx + [PlaySound(TABLE_BOUNCE)];
      o := o.(flight := o.flight.(touchesTable := true));
    }
    ghost var touched := o;
    ghost var killed := BallSprite.Destroy(touched).(life := touched.life.(isDead := true));
    assert fx == BallSprite.BounceCue(env, bodyA, bodyB);
    var i := 0;
    while i < |pairs|
      invariant 0 <= i <= |pairs|
      invariant bodyA in env.ballIds && (exists j :: 0 <= j < i && pairs[j].isSensor) ==> o == killed
      invariant !(bodyA in env.ballIds && (exists j :: 0 <= j < i && pairs[j].isSensor)) ==> o == touched
    {
      if pairs[i].isSensor {
        if bodyA in env.ballIds {
          o := BallSprite.Destroy(o);
          o := o.(life := o.life.(isDead := true));
        }
      }
      i := i + 1;
    }
    assert o == BallSprite.AfterContact(env, d.owner, bodyA, bodyB, pairs);
    d' := d.(owner := o);
  }

  /** The `collisionend` listener; the circle test uses the captured start. */
  method OnCollisionEnd(env: Env, d: Drag, bodyA: int, bodyB: int) returns (d': Drag, fx: seq<Effect>)
    requires Bound(d)
    ensures Bound(d') && d'.anchor == d.anchor
    ensures Outcome(d'.owner, fx) == BallSprite.CollisionEnd(env, d.owner, bodyA, bodyB)
  {
    var o := d.owner;
    fx := [];
    if o.life.isDead || !o.flight.launched {
      return d, fx;
    }
    if !env.inCircle(d.anchor, o.pose.pos, DRAG_RADIUS) {
      if (bodyA in env.ballIds || bodyB in env.ballIds) && (bodyA in env.tableIds || bodyB in env.tableIds) {
        o := o.(flight := o.flight.(touchesTable := false));
      }
    }
    d' := d.(owner := o);
  }

  /** `update()`, called once per frame with the body's speeds. */
  method Update(env: Env, d: Drag, speed: real, angularSpeed: real) returns (d': Drag, fx: seq<Effect>)
    requires Bound(d)
    ensures Bound(d') && d'.anchor == d.anchor
    ensures Outcome(d'.owner, fx) == BallSprite.Update(env, d.owner, speed, angularSpeed)
  {
    var o := d.owner;
    fx := [];
    if o.life.isDead || o.life.livesNumber == 0 {
      return d, fx;
    }
    if o.aim.isPressed {
      o := o.(pose := o.pose.(pos := o.aim.dragPos));
    }
    ghost var moved := o;
    assert moved == BallSprite.PressCorrection(d.owner);
    var isImmobile := speed < IMMOBILE_SPEED && angularSpeed < IMMOBILE_ANGULAR_SPEED && o.flight.touchesTable;
    assert isImmobile == BallSprite.Immobile(moved, speed, angularSpeed);
    var tooFar := env.distance(o.pose.pos, env.cup) > RESET_DISTANCE;
    assert tooFar == BallSprite.TooFar(env, moved);
    if tooFar || isImmobile {
      o := o.(life := o.life.(isDead := true));
      o := o.(life := o.life.(pendingKills := o.life.pendingKills + 1));
      fx := fx + [ScheduleKill(DEATH_DELAY)];
    }
    assert Outcome(o, fx) == BallSprite.Judge(env, moved, speed, angularSpeed);
    d' := d.(owner := o);
  }

  /** `reset()`. */
  method Reset(d: Drag) returns (d': Drag)
    requires Bound(d)
    ensures Bound(d') && d'.anchor == d.anchor
    ensures d'.owner == BallSprite.Reset(d.owner)
  {
    var o := d.owner;
    o := o.(body := o.body.(interactive := true));
    o := o.(flight := o.flight.(touchesTable := false));
    o := o.(body := o.body.(isStatic := true));
    o := o.(pose := o.pose.(pos := o.rest.startPos));
    o := o.(pose := o.pose.(rotation := o.rest.angleRad));
    d' := d.(owner := o);
  }

  /** `kill()`, the target of the delayed call. */
  method Kill(d: Drag) returns (d': Drag, fx: seq<Effect>)
    requires Bound(d)
    ensures Bound(d') && d'.anchor == d.anchor
    ensures Outcome(d'.owner, fx) == BallSprite.Kill(d.owner)
  {
    var o := d.owner;
    o := o.(life := o.life.(livesNumber := o.life.livesNumber - 1));
    fx := [EmitDead];
    d' := d.(owner := o);
    if o.life.livesNumber != 0 {
      d' := Reset(d');
    }
    o := d'.owner;
    o := o.(life := o.life.(isDead := false));
    d' := d'.(owner := o);
  }

  /** One event. The physics step is the engine's own and is shared with
      the sprite; a due timer runs this behaviour's `kill`. */
  method Dispatch(env: Env, d: Drag, e: Event) returns (d': Drag, fx: seq<Effect>)
    requires Bound(d)
    ensures Bound(d') && d'.anchor == d.anchor
    ensures Outcome(d'.owner, fx) == BallSprite.Apply(env, d.owner, e)
  {
    match e
    case Pressed => d', fx := OnDragStart(d);
    case Dragged(p) => d', fx := OnDrag(env, d, p);
    case Released(contained) => d', fx := OnDragEnd(d, contained);
    case Contacted(a, c, pairs) => d', fx := OnCollisionStart(env, d, a, c, pairs);
    case Separated(a, c) => d', fx := OnCollisionEnd(env, d, a, c);
    case Frame(speed, angularSpeed) => d', fx := Update(env, d, speed, angularSpeed);
    case TimerDue =>
      if d.owner.life.pendingKills == 0 {
        d', fx := d, [];
      } else {
        var o := d.owner.(life := d.owner.life.(pendingKills := d.owner.life.pendingKills - 1));
        d', fx := Kill(d.(owner := o));
      }
    case Moved(p, r) =>
      var m := BallSprite.EngineMove(d.owner, Pose(p, r));
      d', fx := d.(owner := m.ball), m.effects;
  }

  /** A whole trace through the behaviour ends in the same state, with the
      same effects, as the trace through the sprite. */
  method RunDrag(env: Env, d: Drag, es: seq<Event>) returns (d': Drag, fx: seq<Effect>)
    requires Bound(d)
    ensures Bound(d')
    ensures Outcome(d'.owner, fx) == BallSprite.Run(env, d.owner, es)
  {
    d', fx := d, [];
    var i := 0;
    while i < |es|
      invariant 0 <= i <= |es|
      invariant Bound(d')
      invariant Outcome(d'.owner, fx) == BallSprite.Run(env, d.owner, es[..i])
    {
      assert es[..i + 1][..i] == es[..i];
      var step;
      d', step := Dispatch(env, d', es[i]);
      fx := fx + step;
      i := i + 1;
    }
    assert es[..|es|] == es;
  }
}
