# Ball state machine of weird-pong

weird-pong is a slingshot game. The player pulls a ball back from its rest
point and releases it at a cup. This project models the life of one ball
and proves properties of that model:

- drag → launch;
- table and sensor collisions;
- the death test on every frame;
- the delayed `kill`, which spends a life and respawns the ball.

The same logic exists twice in the repository:

- the `Ball` sprite, in `src/js/sprite/Ball.ts`;
- the `Drag` behaviour, which applies it to an `owner` object, in `src/js/behaviour/Drag.ts`.

The modules are:

- `Geometry` holds plane vectors, squared distances and the contracts of the three helpers the code calls:
  - `isInCircle`, stated as squared distance at most r²;
  - `closestPointToCircle`, stated as the point on the circle along the ray from the centre through the pointer;
  - Phaser's `Distance.Between`, stated as non-negative with its square equal to the squared distance.

  The bodies of these helpers are not part of this model. They are function parameters of `BallModel.Env`, bound by `ValidEnv`.
- `BallModel` holds the ball record, nested by concern:
  - `Pose`, `Body`, `Rest`, `Aim`, `Flight`, `Spring`, `Life`;
  - the engine events;
  - the effects the code asks of the engine: play a sound, set a velocity, schedule the delayed kill, emit `dead`;
  - the constants of both source files.

  The `delayedCall` timer is modelled as a counter, `pendingKills`. The `TimerDue` event fires one pending kill.
- `BallSprite` has one pure function per listener of `Ball.ts`. `Apply` dispatches one event and `Run` folds a trace.
- `DragBehaviour` has the handlers of `Drag.ts` as methods, written statement by statement. Each is proved to give exactly the outcome of the matching `BallSprite` function. `RunDrag` proves this over whole traces.
- `Lifecycle` proves properties over single events and over traces:
  - the bookkeeping invariant;
  - lives are spent once per kill;
  - at most one kill is pending;
  - the sensor kill is final;
  - respawn restores the rest pose;
  - the drag target stays clamped.
- `SharedInput` models several balls sharing the scene's input channels (see Findings).

Drag events reach a game object only while it is interactive, so the drag handlers are no-ops on a non-interactive ball. The physics step is the engine event `Moved`. It moves a body only while it is dynamic and not destroyed.

Some behaviours of the code are easy to miss; the model follows the code:

- `dragstart` does not clear `hasConstraint`, so the flag can be set while the constraint is out of the world. `Lifecycle.ConstraintFlagOutlivesConstraint` shows this.
- A contained `dragend` re-adds the constraint but does not make the body static again.
- The sensor check tests the handler's `bodyA` argument, not the ids of the sensor pair.
- A sensor kill never calls `kill`, so it spends no life. The destroyed ball then ignores every event (`Lifecycle.SensorDeathIsFinal`).
- `kill` on the last life neither destroys the ball nor removes its interactivity.
- While a ball is dying, the drag handlers do not test `isDead`. Only interactivity guards them.
- No drag listener filters by the dragged object's identity (see Findings).

## Model

| member | source | states |
|---|---|---|
| BallSprite.Init | src/js/sprite/Ball.ts:18-54 | the new ball stands at (x, y) with that point as start and drag target, the given rest angle, static and draggable, not launched and off the table, with no constraint flag and no constraint in the world, with the configured lives, nothing pending and not dying |
| BallSprite.DragStart | src/js/sprite/Ball.ts:56-66 | an interactive ball becomes pressed and not launched, its drag target is its position, and its body becomes dynamic with its other body flags kept; an attached constraint leaves the world while `hasConstraint` keeps its value; pose, rest pose and lives are untouched; a non-interactive ball is unchanged |
| BallSprite.DragWith | src/js/sprite/Ball.ts:68-81 | one drag listener presses the dragged ball and sets its target to the pointer clamped around the listener's captured start; only the drag state changes |
| BallSprite.DragMove | src/js/sprite/Ball.ts:68-81 | on an interactive ball the drag target is the pointer when it is inside the radius-95 circle around the start point, and the clamped point otherwise; nothing else changes |
| BallSprite.DragEnd | src/js/sprite/Ball.ts:83-105 | release always sets launched and clears pressed; a contained release attaches the constraint, keeps interactivity and imparts nothing; any other release imparts `(startPos - pos) * 0.15`, makes the body dynamic and non-interactive; pose, rest pose, lives and table contact are untouched |
| BallSprite.CollisionStart | src/js/sprite/Ball.ts:107-130 | no-op when dead or not launched; table contact is set exactly for a ball/table id pair, which also plays the bounce cue; the ball is destroyed (leaving no drag input) and marked dead exactly when `bodyA` is a ball part and some pair is a sensor, and its body flags are otherwise unchanged; `launched`, pose, rest pose, drag state, constraint, lives and pending kills are untouched |
| BallSprite.CollisionEnd | src/js/sprite/Ball.ts:132-153 | no-op when dead or not launched; table contact is cleared exactly when the ball lies outside the drag circle and the pair is ball/table, and only table contact can change |
| BallSprite.Update | src/js/sprite/Ball.ts:156-182 | no-op when dying or out of lives; otherwise a pressed ball moves to its drag target, and the ball starts dying (with one more pending kill and one scheduled call) exactly when it is too far from the cup or at rest on the table; lives and rotation never change, and only position and life state can change |
| BallSprite.Reset | src/js/sprite/Ball.ts:197-206 | the ball is back at its start position and angle, off the table, static and draggable; rest pose, drag state, constraint, lives and the launched and destroyed flags are unchanged |
| BallSprite.Kill | src/js/sprite/Ball.ts:188-195 | exactly one life is spent, `isDead` is cleared and `dead` is emitted; the ball is reset if and only if lives remain, and is otherwise left as it was |
| BallSprite.TimerFires | src/js/sprite/Ball.ts:180-195 | a due delayed call consumes one pending kill and runs `kill`: one life is spent, `isDead` is cleared and `dead` is emitted; with lives remaining the ball is exactly `Reset` of its state, on the last life it is otherwise left as it was; with none pending nothing happens |
| BallModel.BallTablePairBySets | src/js/sprite/Ball.ts:112-115 | the two `some(includes)` tests are the same as the pair of ids meeting both the ball-part set and the table set |
| Lifecycle.InitSatisfiesInv | src/js/sprite/Ball.ts:18-54 | the constructed ball satisfies the bookkeeping invariant with no kill pending |
| Lifecycle.ApplyPreservesInv | src/js/sprite/Ball.ts:56-206 | every event keeps the invariant: lives non-negative, at most one pending kill and only for a dying ball with a life left, a destroyed ball dead with nothing pending and no input, and the constraint in the world only while `hasConstraint` is set |
| Lifecycle.RunPreservesInv | src/js/sprite/Ball.ts:56-206 | the invariant holds after any trace |
| Lifecycle.AtMostOnePendingKill | src/js/sprite/Ball.ts:156-195 | from a new ball, along any trace, at most one kill is pending, it belongs to a dying ball, and lives never go negative |
| Lifecycle.NoSecondSchedule | src/js/sprite/Ball.ts:156-159 | with a kill pending, `update` schedules nothing and changes nothing |
| Lifecycle.ApplyAccounting | src/js/sprite/Ball.ts:180-195 | for one event, lives spent equal `kill` calls, and scheduled calls equal kills run plus the change in pending kills |
| Lifecycle.LivesSpentOncePerKill | src/js/sprite/Ball.ts:188-195 | over any trace, lives spent equal the `dead` emissions, and every scheduled kill has run or is still pending |
| Lifecycle.DeathWithoutTableIsDistance | src/js/sprite/Ball.ts:167-182 | a ball off the table that starts dying in `update` is further than 650 from the cup |
| Lifecycle.SensorDeathIsFinal | src/js/sprite/Ball.ts:120-130 | a destroyed ball ignores every trace of events |
| Lifecycle.ApplyKeepsRest | src/js/sprite/Ball.ts:26-31 | no event changes the rest pose |
| Lifecycle.RestStable | src/js/sprite/Ball.ts:26-31 | no trace changes the rest pose |
| Lifecycle.RespawnRestoresStart | src/js/sprite/Ball.ts:188-206 | when a pending kill fires with lives to spare, the ball is at the constructor's position and angle, static, draggable, off the table, not dying, with one life fewer |
| Lifecycle.DragTargetInCircle | src/js/sprite/Ball.ts:68-81 | after every drag, whatever the pointer, the drag target lies within the drag circle around the start point |
| Lifecycle.ClampedTargetOnCircle | src/js/sprite/Ball.ts:73-77 | when the pointer is outside the drag circle, the clamped target lies exactly on the circle |
| Lifecycle.DragClampExample | src/js/sprite/Ball.ts:73-80 | start (100, 100) and pointer (300, 100) give the drag target (195, 100) |
| Lifecycle.TooFarExample | src/js/sprite/Ball.ts:171-182 | a ball 700 from the cup starts dying with one kill scheduled; when the kill fires one life is spent and, if any remain, the ball is back at its start pose |
| Lifecycle.ConstraintFlagOutlivesConstraint | src/js/sprite/Ball.ts:56-96 | after press and contained release the constraint is attached and the body dynamic; a second press leaves `hasConstraint` set with the constraint out of the world |
| Lifecycle.ResetIdempotent | src/js/sprite/Ball.ts:197-206 | reset twice is reset once, and a ball at rest is unchanged by reset |
| Lifecycle.LastLifeIsNotReset | src/js/sprite/Ball.ts:188-195 | `kill` on the last life leaves the ball's pose and body as they were, and `update` ignores it afterwards |
| Lifecycle.LaunchPointsHome | src/js/sprite/Ball.ts:98-102 | the launch velocity divided by 0.15 leads from the release point back to the start, and is zero exactly when the ball is released on the start |
| Lifecycle.TableContactCycle | src/js/sprite/Ball.ts:112-152 | after a ball/table contact starts, its end clears table contact exactly when the ball is outside the drag circle |
| Geometry.FartherIffSquares | src/js/sprite/Ball.ts:171-177 | the distance exceeds a limit exactly when the squared distance exceeds the squared limit |
| DragBehaviour.Attach | src/js/behaviour/Drag.ts:16-51 | the owner is not launched, off the table, not pressed, with no constraint flag and no constraint in the world; its start and drag target are (x, y) and its rest angle is `angleRad`; it becomes static and draggable with its destroyed flag kept; its pose, lives and pending kills are kept and it is no longer dying |
| DragBehaviour.AttachMatchesBallInit | src/js/behaviour/Drag.ts:16-51 | on an owner standing at the start point with the configured lives, the behaviour starts in the state the sprite's constructor builds |
| DragBehaviour.OnDragStart | src/js/behaviour/Drag.ts:53-63 | the handler's outcome equals `BallSprite.DragStart` |
| DragBehaviour.OnDrag | src/js/behaviour/Drag.ts:65-78 | the handler's outcome equals `BallSprite.DragMove` |
| DragBehaviour.OnDragEnd | src/js/behaviour/Drag.ts:80-102 | the handler's outcome equals `BallSprite.DragEnd` |
| DragBehaviour.OnCollisionStart | src/js/behaviour/Drag.ts:104-127 | the pair-scanning loop ends in the outcome of `BallSprite.CollisionStart` |
| DragBehaviour.OnCollisionEnd | src/js/behaviour/Drag.ts:129-150 | the handler's outcome equals `BallSprite.CollisionEnd` |
| DragBehaviour.Update | src/js/behaviour/Drag.ts:153-183 | the handler's outcome equals `BallSprite.Update` |
| DragBehaviour.Kill | src/js/behaviour/Drag.ts:185-192 | the handler's outcome equals `BallSprite.Kill` |
| DragBehaviour.Reset | src/js/behaviour/Drag.ts:194-203 | the handler's result equals `BallSprite.Reset` |
| DragBehaviour.Dispatch | src/js/behaviour/Drag.ts:53-203 | every event through the behaviour gives the sprite's outcome |
| DragBehaviour.RunDrag | src/js/behaviour/Drag.ts:53-203 | any trace through the behaviour ends in the sprite's final state with the same effects |
| SharedInput.DragAllListeners | src/js/sprite/Ball.ts:68-81 | with every ball's listener running on the dragged ball, the last registered listener's clamp decides the drag target |
| SharedInput.SharedDragClampsAroundOtherStart | src/js/sprite/Ball.ts:68-81 | with balls at (0, 0) and (1000, 0), dragging the first to (10, 0) gives it a target other than the pointer, although the pointer is inside its own circle |
| SharedInput.DragOwnListener | src/js/sprite/Ball.ts:68-81 | with listeners filtered by identity, only the drag state of the dragged ball can change |
| SharedInput.OtherListenersIgnore | src/js/sprite/Ball.ts:68-81 | listeners of other balls leave the dragged ball unchanged under identity filtering |
| SharedInput.DragWithIdempotent | src/js/sprite/Ball.ts:68-81 | the same drag handled twice around the same start equals handling it once |
| SharedInput.OwnListenerIsDragMove | src/js/sprite/Ball.ts:68-81 | under identity filtering, a drag on a registered ball is exactly the single-ball `drag` |

## Left out

- Rendering and audio are left out: the projection line, point and ball traces, and the ghost image. A sound and the `dead` event are recorded only as effects.
- Matter physics is left out. Body speeds, the bounds containment of `dragend`, collision pairs and engine moves are event inputs. `setVelocity` is recorded as an effect, not simulated.
- `collisionend` reads `body.position` while the other handlers read `x`, `y`. A Matter sprite keeps them equal, so both are the model's `pos`.
- Timer timing is left out. `delayedCall` is a pending-kill count fired by the explicit `TimerDue` event. The 650 ms delay is recorded in the effect only.
- The bodies of `isInCircle`, `closestPointToCircle` and `Distance.Between` are left out. They live in utils and in Phaser, which are not part of this model, and are modelled by their contracts.
- `MAX_LIVES` is left out. It lives in constants, which is not part of this model, so it is the `maxLives` parameter of `BallSprite.Init`.
- BallSprite.Init: the body set-up behaviour `SetBody` is not part of this model, so the initial rotation is a parameter.
- DragBehaviour.Attach: the constructor leaves the owner's lives and any timers it has pending untouched. `AttachMatchesBallInit` therefore assumes an owner with the configured lives and nothing pending.
- Leaving `dragend` with several balls is left out. Each listener tests its own ball's bounds against its own ghost image, whichever object was dragged. Only the `drag` half of the shared-listener problem is modelled.
- Listener registration and deregistration are left out, as are AdminBar, Fountain and ScaleManager. These are presentation and browser plumbing.
- Floating-point rounding is left out. Coordinates are exact reals.

## Findings

| source | as written | input that shows it | evidently intended | confidence | as-written member | corrected member |
|---|---|---|---|---|---|---|
| src/js/sprite/Ball.ts:68-81 | every ball registers a scene-wide `drag` listener that writes to whichever object is dragged, clamping around its own captured start; the same holds in src/js/behaviour/Drag.ts:65-78 | balls resting at (0, 0) and (1000, 0); drag the first to (10, 0); the last listener clamps it onto the circle around (1000, 0) | a ball's listener acts only on its own ball, so the target is the pointer clamped around the dragged ball's own start | not executed; certain as written for two or more balls, but it depends on a level holding several balls | SharedInput.SharedDragClampsAroundOtherStart | SharedInput.OwnListenerIsDragMove |
