/** Several balls in one scene. Every `Ball` (and every `Drag`) registers its
    `drag` listener on the scene's input plugin, so a drag on any game object
    reaches the listener of every ball, in registration order. Each listener
    writes to the dragged object, clamping around the start point it
    captured itself, and none checks whose ball is being dragged.

    `DragAllListeners` is that behaviour as written; `DragOwnListener` is
    the intended one, in which a listener acts only on its own ball, and
    which coincides with the single-ball `BallSprite.DragMove`. */
module SharedInput {
  import opened Geometry
  import opened BallModel
  import BallSprite
  import Lifecycle

  /** A registered `drag` listener: the ball it was created for and the
      start point its closure captured. */
  datatype Listener = Listener(ownerId: int, start: Vec)

  /** As written: the listeners run in order on the dragged ball, each
      clamping the pointer around its own captured start point. The last
      registered listener decides the drag target. */
  function DragAllListeners(env: Env, ls: seq<Listener>, b: Ball, pointer: Vec): (o: Outcome)
    ensures o.effects == []
    ensures ls == [] || !b.body.interactive ==> o.ball == b
    ensures ls != [] && b.body.interactive ==>
      o.ball == b.(aim := Aim(BallSprite.DragTarget(env, ls[|ls| - 1].start, pointer), true))
    decreases |ls|
  {
    if ls == [] then Outcome(b, [])
    else
      var prev := DragAllListeners(env, ls[..|ls| - 1], b, pointer);
      BallSprite.DragWith(env, ls[|ls| - 1].start, prev.ball, pointer)
  }

  /** Two balls resting at (0, 0) and (1000, 0). Ball 0 is dragged to
      (10, 0), well inside its own drag circle, yet its drag target is not
      the pointer: ball 1's listener, registered last, clamps the pointer
      onto the circle around (1000, 0). */
  lemma SharedDragClampsAroundOtherStart(env: Env, b: Ball)
    requires ValidEnv(env)
    requires b.body.interactive && b.rest.startPos == Vec(0.0, 0.0)
    ensures InCircle(b.rest.startPos, Vec(10.0, 0.0), DRAG_RADIUS)
    ensures BallSprite.DragMove(env, b, Vec(10.0, 0.0)).ball.aim.dragPos == Vec(10.0, 0.0)
    ensures var ls := [Listener(0, Vec(0.0, 0.0)), Listener(1, Vec(1000.0, 0.0))];
      DragAllListeners(env, ls, b, Vec(10.0, 0.0)).ball.aim.dragPos != Vec(10.0, 0.0)
  {
    var o := Vec(0.0, 0.0);
    var c := Vec(1000.0, 0.0);
    var p := Vec(10.0, 0.0);
    TwoStarts();
    var q := BallSprite.DragTarget(env, c, p);
    Lifecycle.ClampedTargetOnCircle(env, c, p);
    assert Dist2(c, q) != Dist2(c, p);
    var ls := [Listener(0, o), Listener(1, c)];
    assert DragAllListeners(env, ls, b, p).ball.aim.dragPos == q;
  }

  /** The distances in the example above. */
  lemma TwoStarts()
    ensures InCircle(Vec(0.0, 0.0), Vec(10.0, 0.0), DRAG_RADIUS)
    ensures Dist2(Vec(1000.0, 0.0), Vec(10.0, 0.0)) == 980100.0
    ensures !InCircle(Vec(1000.0, 0.0), Vec(10.0, 0.0), DRAG_RADIUS)
  {
    assert DRAG_RADIUS == 95.0;
    assert DRAG_RADIUS * DRAG_RADIUS == 9025.0;
    assert Sq(0.0 - 10.0) == 100.0;
    assert Sq(0.0 - 0.0) == 0.0;
    assert Sq(1000.0 - 10.0) == 980100.0;
  }

  /** Intended: a listener acts only when the dragged ball is its own. */
  function DragOwnListener(env: Env, ls: seq<Listener>, id: int, b: Ball, pointer: Vec): (o: Outcome)
    ensures o.effects == []
    ensures o.ball.(aim := b.aim) == b
    decreases |ls|
  {
    if ls == [] then Outcome(b, [])
    else
      var prev := DragOwnListener(env, ls[..|ls| - 1], id, b, pointer);
      if ls[|ls| - 1].ownerId == id then BallSprite.DragWith(env, ls[|ls| - 1].start, prev.ball, pointer)
      else prev
  }

  /** Each ball's listeners captured that ball's own start point. */
  predicate Registered(ls: seq<Listener>, id: int, b: Ball) {
    forall i :: 0 <= i < |ls| && ls[i].ownerId == id ==> ls[i].start == b.rest.startPos
  }

  /** Listeners of other balls leave the dragged ball alone. */
  lemma {:induction false} OtherListenersIgnore(env: Env, ls: seq<Listener>, id: int, b: Ball, pointer: Vec)
    requires forall i :: 0 <= i < |ls| ==> ls[i].ownerId != id
    ensures DragOwnListener(env, ls, id, b, pointer) == Outcome(b, [])
    decreases |ls|
  {
    if ls != [] {
      OtherListenersIgnore(env, ls[..|ls| - 1], id, b, pointer);
    }
  }

  /** Handling the same drag twice around the same start is handling it once. */
  lemma DragWithIdempotent(env: Env, start: Vec, b: Ball, pointer: Vec)
    ensures var once := BallSprite.DragWith(env, start, b, pointer).ball;
      BallSprite.DragWith(env, start, once, pointer).ball == once
  {
  }

  /** With identity filtering, a drag on a registered ball is exactly the
      single-ball `drag`, whatever other balls share the scene. */
  lemma {:induction false} OwnListenerIsDragMove(env: Env, ls: seq<Listener>, id: int, b: Ball, pointer: Vec)
    requires Registered(ls, id, b)
    requires exists i :: 0 <= i < |ls| && ls[i].ownerId == id
    ensures DragOwnListener(env, ls, id, b, pointer) == BallSprite.DragMove(env, b, pointer)
    decreases |ls|
  {
    var init := ls[..|ls| - 1];
    var last := ls[|ls| - 1];
    assert Registered(init, id, b) by {
      forall i | 0 <= i < |init| && init[i].ownerId == id
        ensures init[i].start == b.rest.startPos
      {
        assert init[i] == ls[i];
      }
    }
    if exists i :: 0 <= i < |init| && init[i].ownerId == id {
      OwnListenerIsDragMove(env, init, id, b, pointer);
      if last.ownerId == id {
        DragWithIdempotent(env, b.rest.startPos, b, pointer);
      }
    } else {
      OtherListenersIgnore(env, init, id, b, pointer);
      assert last.ownerId == id by {
        var i :| 0 <= i < |ls| && ls[i].ownerId == id;
      }
    }
  }
}
