# PeasyCam motion kernel in Dafny

PeasyCam is a mouse-driven orbit camera for Processing sketches. The camera
has a pose: a `rotation`, the `center` it looks at, and its `distance` from
that center. The user moves the pose in three ways:

- Direct mutation: `pan`, `rotateX/Y/Z`, `setRotations`, mouse zoom.
- Inertial spin: mouse drags push three `DampedAction`s, one per rotation
  axis. Each frame, each damper decays its velocity by `1 - friction` and
  turns the camera by what remains, until the velocity falls below 0.001.
- Timed transitions: `setState`, `reset`, `lookAt`, `setDistance`. Each
  starts an `AbstractInterp` held by an `InterpolationManager`. Each frame,
  the animation eases the pose with a smoothstep (or a quaternion slerp, for
  rotation). Once more than 99% of its duration has elapsed, it snaps the
  pose to the exact end value and cancels itself.

After every change, `feed()` hands the eye, center and up vector to the
renderer.

The model has seven modules:

- `Wrappers` (`wrappers.dfy`): `Option`.
- `Geometry` (`geometry.dfy`): the vector and quaternion values. The
  commons-math and `java.lang.Math` operations are passed in as a `Library`
  of uninterpreted functions.
- `Easing` (`easing.dfy`): `InterpolationUtil`'s `smooth`, `linear` and
  `slerp`.
- `Damping` (`damping.dfy`): the decay rule, and the `DampedAction` class.
  `behave` is modelled as a returned value plus a ghost log.
- `Interpolation` (`interpolation.dfy`): an animation's progress and
  completion rule, and the one-slot `InterpolationManager` class.
- `Pose` (`pose.dfy`): the pure rules of the controller:
  - distance clamping;
  - the start and end values of each animation, and its value at each tick;
  - the Euler-angle fallback of `getRotations`;
  - the shift-drag constraint;
  - the pan and rotate gating;
  - the button dispatch.
- `Camera` (`camera.dfy`): the `PeasyCam` class. Its fields are updated in
  place. The ghost log `published` records every frame `feed()` sends.

Java `double` is modelled as `real`. The host clock (`p.millis()`) becomes
the `now` argument. The host's per-frame callbacks become the single method
`PeasyCam.Tick(now)`.

## Model

| member | source | states |
|---|---|---|
| Damping.DampedAction.Default | src/peasy/DampedAction.java:16-19 | a new damper is at rest, with dampening 1 - 0.16, and has not behaved |
| Damping.DampedAction.constructor | src/peasy/DampedAction.java:21-27 | a new damper is at rest, with dampening 1 - friction |
| Damping.DampedAction.Impulse | src/peasy/DampedAction.java:29-32 | impulses add to the velocity, so two impulses before a draw accumulate |
| Damping.DampedAction.Tick | src/peasy/DampedAction.java:34-48 | the new velocity is the decay of the old one; `behave` receives the decayed velocity exactly when the damper fires, and is logged once; otherwise nothing is logged |
| Damping.DampedAction.Stop | src/peasy/PeasyCam.java:558-560 | `stop()` leaves the damper at rest |
| Damping.Decay | src/peasy/DampedAction.java:36-42 | rest stays rest; the result is non-zero iff the velocity is non-zero and its decayed magnitude reaches 0.001; a non-zero result is the velocity times the dampening |
| Damping.Iterate | src/peasy/DampedAction.java:34-48 | the velocity after n draws without impulses; with 0 < dampening < 1 it never changes sign and never grows in magnitude |
| Damping.DecayKeepsSignAndShrinks | src/peasy/DampedAction.java:38-42 | with 0 < dampening < 1, a draw never flips the sign of the velocity and strictly shrinks its magnitude |
| Damping.RestIsFinal | src/peasy/DampedAction.java:36-37 | a damper at rest stays at rest through any number of draws |
| Damping.DecayStepSlows | src/peasy/DampedAction.java:38-42 | every draw that does not snap to rest removes at least (1 - dampening)/1000 of magnitude |
| Damping.RestsWithin | src/peasy/DampedAction.java:34-48 | without impulses, a damper is at rest after n draws once 1000·\|v\| < (1 - dampening)·n |
| Damping.ComesToRest | src/peasy/DampedAction.java:34-48 | without impulses, a damper is at rest after `DrawsToRest(v, dampening)` draws, a bound computed from \|v\| and the dampening |
| Damping.UnitFlickRestsAfterFortyDraws | src/peasy/DampedAction.java:34-48 | at the default friction, a unit impulse is still spinning after 39 draws and at rest after 40 |
| Easing.Smooth | src/peasy/InterpolationUtil.java:49-54 | `smooth` gives a at 0, b at 1 and (a + b)/2 at 1/2, and `smooth(a, a, t)` is a for every t |
| Easing.Linear | src/peasy/InterpolationUtil.java:62-65 | `linear` gives a at 0 and b at 1 |
| Easing.SmoothVec | src/peasy/InterpolationUtil.java:56-60 | vector `smooth` gives a at 0 and b at 1, and a vector blended with itself is itself |
| Easing.LinearVec | src/peasy/InterpolationUtil.java:67-71 | vector `linear` gives a at 0 and b at 1 |
| Easing.SmoothStepEndpoints | src/peasy/InterpolationUtil.java:51 | the smoothstep factor is 0 at t = 0, 1 at t = 1 and 1/2 at t = 1/2 |
| Easing.SmoothStepBounded | src/peasy/InterpolationUtil.java:51 | for t in [0, 1] the factor lies in [0, 1] |
| Easing.SmoothStepMonotonic | src/peasy/InterpolationUtil.java:51 | on [0, 1] the factor never decreases |
| Easing.SmoothStepSymmetric | src/peasy/InterpolationUtil.java:51 | the factor at 1 - t is one minus the factor at t |
| Easing.SmoothStepFlatAtEnds | src/peasy/InterpolationUtil.java:51 | within h of either end of [0, 1], the factor is within 3h² of that end's value, so the ease starts and stops gently |
| Easing.SmoothIsEasedLinear | src/peasy/InterpolationUtil.java:49-54 | `smooth(a, b, t)` equals `linear(a, b, ·)` taken at the smoothstep factor of t |
| Easing.SmoothBetween | src/peasy/InterpolationUtil.java:49-54 | for t in [0, 1], `smooth(a, b, t)` lies between a and b |
| Easing.SmoothProgresses | src/peasy/InterpolationUtil.java:49-54 | on [0, 1], `smooth` moves monotonically from a towards b |
| Easing.LinearIsAffine | src/peasy/InterpolationUtil.java:62-65 | `linear` maps an affine combination of parameters to the same combination of results |
| Easing.VecBlendsPerCoordinate | src/peasy/InterpolationUtil.java:56-71 | the vector blends are the scalar blends applied to x, y and z independently |
| Easing.SlerpWeights | src/peasy/InterpolationUtil.java:33-43 | when sin θ does not exceed the 0.001f threshold, the weights are exactly the linear 1 - t and t, which sum to 1 |
| Easing.EndWeights | src/peasy/InterpolationUtil.java:33-43 | at t = 0 the weights are (1, 0), and at t = 1 they are (0, 1), on both branches |
| Easing.Slerp | src/peasy/InterpolationUtil.java:26-47 | with sin 0 = 0, slerp at t = 0 is the normalized start rotation and at t = 1 the normalized end rotation, on either branch of the guard; with also acos 1 = 0, slerping a unit quaternion with itself gives it back, normalized, at every t |
| Easing.BlendOfEqual | src/peasy/InterpolationUtil.java:44-46 | weights summing to 1 blend a quaternion with itself to itself |
| Interpolation.Progress | src/peasy/PeasyCam.java:479 | the progress t is 0 when the animation starts and non-negative after |
| Interpolation.CompletesIffElapsed | src/peasy/PeasyCam.java:479-480 | a tick finishes the animation iff the elapsed time exceeds 0.99 of its duration |
| Interpolation.DefaultDurationFinishesAt298 | src/peasy/PeasyCam.java:477-488 | a 300 ms animation still eases 297 ms after its start, because t = 297/300 = 0.99 is not > .99, and snaps from 298 ms |
| Interpolation.RunningProgressInRange | src/peasy/PeasyCam.java:479-486 | on an easing tick, t lies in [0, 0.99] |
| Interpolation.AfterTick | src/peasy/PeasyCam.java:480-483 | after a tick, the slot still holds the animation iff that tick did not finish it |
| Interpolation.InterpolationManager.constructor | src/peasy/PeasyCam.java:64-66 | a new manager holds nothing |
| Interpolation.InterpolationManager.StartInterpolation | src/peasy/PeasyCam.java:466-470 | starting an animation replaces whatever was held, stamped with the current time |
| Interpolation.InterpolationManager.CancelInterpolation | src/peasy/PeasyCam.java:472-475 | cancelling leaves nothing held |
| Pose.FrameOf | src/peasy/PeasyCam.java:280-287 | the published frame's center is the pose's center, and its up vector is the rotated UP; at distance 0 the eye is at the center |
| Pose.Clamp | src/peasy/PeasyCam.java:274-277 | the clamped distance never exceeds the maximum; it lies in [min, max] whenever min ≤ max; it is unchanged when already in range; below range it becomes the minimum; above range, or when min > max, it becomes the maximum |
| Pose.ClampIdempotent | src/peasy/PeasyCam.java:274-277 | clamping twice is clamping once |
| Pose.DistanceInterp | src/peasy/PeasyCam.java:495-505 | a distance animation starts at the current distance; its end is clamped to [min, max] when it is built, and is the requested end when that is in range |
| Pose.CenterInterp | src/peasy/PeasyCam.java:520-529 | a center animation runs from the current center to the requested one |
| Pose.RotationInterp | src/peasy/PeasyCam.java:544-553 | a rotation animation runs from the current rotation to the requested one |
| Pose.DistanceAt | src/peasy/PeasyCam.java:507-517 | a finishing tick sets exactly the end distance |
| Pose.CenterAt | src/peasy/PeasyCam.java:531-541 | a finishing tick sets exactly the end center |
| Pose.RotationAt | src/peasy/PeasyCam.java:564-574 | a finishing tick sets exactly the end rotation |
| Pose.AnimationsStartWhereTheyAre | src/peasy/PeasyCam.java:507-541 | a tick at the start time gives back the distance and center the animation started from |
| Pose.RotationAnimationStartsWhereItIs | src/peasy/PeasyCam.java:564-568 | a tick at the start time gives the normalized start rotation |
| Pose.DistanceAtBetween | src/peasy/PeasyCam.java:507-517 | at every tick after its start, a distance animation lies between its two ends |
| Pose.DistanceAnimationStaysInBounds | src/peasy/PeasyCam.java:497-517 | an animation between in-range distances never leaves [min, max] |
| Pose.HalfwayZoomScenario | src/peasy/PeasyCam.java:477-517 | zooming from 100 to 50 over 300 ms gives 75 at 150 ms and exactly 50 at 298 ms |
| Pose.FirstRegular | src/peasy/PeasyCam.java:405-432 | an order the library decomposes without a singularity, with its angles, such that every earlier order in the list is singular, so it is the first such order; nothing iff every order is singular |
| Pose.GetRotations | src/peasy/PeasyCam.java:405-432 | the angles of the first of XYZ, YXZ, ZXY without a singularity, each in the slot of its own axis; it falls back to (0, 0, 0) exactly when all three are singular (ZXY corrected, see Findings) |
| Pose.GetRotationsAsWritten | src/peasy/PeasyCam.java:405-432 | the code as written agrees with the axis-labelled result unless only ZXY succeeds |
| Pose.GetRotationsAsWrittenMislabelsZXY | src/peasy/PeasyCam.java:423-427 | a rotation singular in XYZ and YXZ whose ZXY angles are (1, 2, 3) is reported as (3, 1, 2), where the axis-labelled answer is (2, 3, 1) |
| Pose.DragConstraint | src/peasy/PeasyCam.java:163-170 | without shift, the constraint is cleared; with shift, a held one is kept; a new one is chosen only when none is held and \|dx − dy\| > 1, and then it is X iff \|dx\| > \|dy\| |
| Pose.ShiftDragChoosesOnce | src/peasy/PeasyCam.java:163-168 | over a run of shift drags, the constraint is the held one, or else the first decisive drag's choice |
| Pose.PanDelta | src/peasy/PeasyCam.java:187-192 | under constraint Y the pan's x part is 0, and otherwise it is -dx·scale; under X its y part is 0, and otherwise it is -dy·scale |
| Pose.MouseRotateImpulses | src/peasy/PeasyCam.java:194-224 | impulses from vertical motion are produced iff the constraint is not X; from horizontal motion iff it is not Y |
| Pose.RotateImpulseDirections | src/peasy/PeasyCam.java:198-223 | the pitch impulse has the sign of dy, and the yaw impulse the opposite sign of dx |
| Pose.DragActionOf | src/peasy/PeasyCam.java:172-178 | the center button, or left with meta, pans; left alone rotates; right zooms; any other button does nothing |
| Camera.PeasyCam.constructor | src/peasy/PeasyCam.java:75-110 | the start pose is the given center and distance with the identity rotation; resetting on double click is on; the bounds are 1 and Double.MAX_VALUE; three fresh dampers at rest; empty managers; one frame published |
| Camera.PeasyCam.Feed | src/peasy/PeasyCam.java:280-287 | the current pose's frame is appended to what was published |
| Camera.PeasyCam.SafeSetDistance | src/peasy/PeasyCam.java:274-278 | the distance becomes the clamped value, and is published |
| Camera.PeasyCam.SetMinimumDistance | src/peasy/PeasyCam.java:344-348 | the new minimum is stored, and the current distance is re-clamped against it |
| Camera.PeasyCam.SetMaximumDistance | src/peasy/PeasyCam.java:350-354 | the new maximum is stored, and the current distance is re-clamped against it |
| Camera.PeasyCam.SetDistance | src/peasy/PeasyCam.java:237-241 | the distance slot holds a fresh animation from the current distance to the clamped target; the pose is unchanged |
| Camera.PeasyCam.SetResetOnDoubleClick | src/peasy/PeasyCam.java:356-359 | the flag takes the given value |
| Camera.PeasyCam.Pan | src/peasy/PeasyCam.java:310-314 | the center moves by (dx, dy, 0) rotated into world space, and is published |
| Camera.PeasyCam.RotateX | src/peasy/PeasyCam.java:316-320 | the rotation is composed with a turn about +I, and published |
| Camera.PeasyCam.RotateY | src/peasy/PeasyCam.java:322-326 | the rotation is composed with a turn about +J, and published |
| Camera.PeasyCam.RotateZ | src/peasy/PeasyCam.java:328-332 | the rotation is composed with a turn about +K, and published |
| Camera.PeasyCam.GetRotations | src/peasy/PeasyCam.java:405-432 | the camera's rotation read through the corrected `Pose.GetRotations` (not the program's ZXY slotting): the first regular decomposition, axis-labelled, or all zero |
| Camera.PeasyCam.SetRotations | src/peasy/PeasyCam.java:386-391 | any rotation animation is cancelled; the rotation becomes the XYZ Cardan rotation; it is published |
| Camera.PeasyCam.StartRotationInterp | src/peasy/PeasyCam.java:555-562 | starting a rotation animation stops all three dampers and installs it from the current rotation |
| Camera.PeasyCam.SetState | src/peasy/PeasyCam.java:366-384 | with a positive duration, three animations run from the current pose to the target, and the dampers stop; otherwise the pose is taken at once, unclamped, with the animations and dampers untouched; either way one frame is published |
| Camera.PeasyCam.Reset | src/peasy/PeasyCam.java:304-308 | `setState` towards the identity rotation, the start center and the start distance |
| Camera.PeasyCam.LookAt | src/peasy/PeasyCam.java:249-252 | a 300 ms center animation towards the point |
| Camera.PeasyCam.LookAtWithDistance | src/peasy/PeasyCam.java:254-259 | 300 ms center and distance animations towards the point and the clamped distance |
| Camera.PeasyCam.LookAtTimed | src/peasy/PeasyCam.java:261-265 | `setState` with the current rotation and distance and the new center |
| Camera.PeasyCam.LookAtWithDistanceTimed | src/peasy/PeasyCam.java:267-272 | `setState` with the current rotation, the new center and the new distance |
| Camera.Behave | src/peasy/PeasyCam.java:85-107 | the anonymous `behave` overrides: a damper at rest, or one that snaps to rest, leaves the rotation alone; one that fires composes it with a turn about its axis by velocity·dampening |
| Camera.PeasyCam.DrawRotateDamper | src/peasy/PeasyCam.java:85-107 | a damper's draw decays its velocity; when it fires, the camera turns about the damper's axis by the decayed velocity, `behave` logs the decayed velocity and one frame is published; otherwise neither the log nor the frames change |
| Camera.PeasyCam.DrawRotationInterp | src/peasy/PeasyCam.java:477-488 | with a rotation animation held, the rotation takes its value at this tick, the slot empties iff the animation finishes, and a frame is published; with none held, nothing changes |
| Camera.PeasyCam.DrawCenterInterp | src/peasy/PeasyCam.java:477-488 | the same, for the center |
| Camera.PeasyCam.DrawDistanceInterp | src/peasy/PeasyCam.java:477-488 | the same, for the distance |
| Camera.PeasyCam.DrawDampers | src/peasy/PeasyCam.java:85-107 | the three dampers decay, and the rotation is turned by each one that fires, in X, Y, Z order; each firing damper logs its decayed velocity and publishes exactly one frame, so the number of new frames is the number of dampers that fire |
| Camera.PeasyCam.DrawInterps | src/peasy/PeasyCam.java:477-488 | each held animation sets its field to its value at this tick, and leaves its slot if it finishes; exactly one frame is published per held animation |
| Camera.PeasyCam.Tick | src/peasy/PeasyCam.java:477-488 | one frame: damper decay and spin; a held rotation animation overrides that spin; the center and distance animations; frames are only appended, one per firing damper and one per held animation, so a tick with every damper at rest and no animation held publishes nothing |
| Camera.PeasyCam.MouseZoom | src/peasy/PeasyCam.java:182-185 | the distance moves by delta·sqrt(0.2·distance), and is clamped |
| Camera.PeasyCam.MousePan | src/peasy/PeasyCam.java:187-192 | the camera pans by the gated, reversed mouse motion, scaled by sqrt(0.005·distance) |
| Camera.PeasyCam.MouseRotate | src/peasy/PeasyCam.java:194-224 | the dampers receive the gated impulses; constraint X leaves the X damper alone, and constraint Y the Y damper |
| Camera.PeasyCam.KeyEventHandler | src/peasy/PeasyCam.java:145-149 | releasing shift clears the drag constraint; every other key event changes nothing |
| Camera.PeasyCam.MouseDragHandler | src/peasy/PeasyCam.java:158-179 | a drag updates the constraint first; then a pan moves only the center, a zoom only the distance, and a rotation only pushes the three dampers (Z from both motions); the rotation and the animation slots stay |
| Camera.PeasyCam.MouseEventHandler | src/peasy/PeasyCam.java:151-180 | if enabled, a double click resets over 300 ms; a release clears the constraint and leaves the pose, dampers, slots and published frames alone; a drag is `MouseDragHandler` and keeps the slots; every other click and other events change nothing, and drags with no button action change only the drag constraint |
| Camera.ResetReturnsToStart | src/peasy/PeasyCam.java:304-308 | after `reset(ms)`, any run of mouse drags (pan, zoom or rotate) each followed by an easing tick, then one tick past 0.99 of the duration, leaves the camera exactly at its starting pose with no animation held (given a start distance within the bounds) |

## Left out

- Host plumbing is outside the model:
  - `registerDraw`/`unregisterDraw` and `setMouseControlled`;
  - `registerMouseEvent`/`registerKeyEvent`;
  - `println` and `version()`.

  `Tick` replaces the draw registrations. It runs the three dampers, then the
  rotation, center and distance animations. In the program, the animations
  run in the order of their latest `start()` calls. Each held animation
  publishes exactly one frame in either order, and each writes only its own
  field. So the order changes the contents of the intermediate frames of a
  tick, but not their number and not the pose after the tick.
- `p.camera(...)` is the ghost `published` log. `getApplet` is left out.
- `beginHUD`/`endHUD`: left out, because they only push and pop the
  renderer's matrix stack.
- The overloads `setDistance(d)`, `reset()` and `setState(s)`: left out,
  because each only passes 300 ms to the timed version, which is modelled.
  The two-argument constructor `PeasyCam(parent, distance)`
  (`src/peasy/PeasyCam.java:70-73`) is left out too: it only passes the
  center (0, 0, 0) to the modelled constructor.
  `reset()` does appear through `MouseEventHandler`'s double click.
- The getters `getDistance`, `getState`, `getLookAt` and `getPosition`: left
  out, because they only read fields. Their float casts are not modelled.
  `Camera.PeasyCam.GetRotations` returns the corrected reading
  `Pose.GetRotations`, not the program's ZXY slotting, which is
  `Pose.GetRotationsAsWritten` (see Findings). Its final float cast is not
  modelled.
- Commons-math and `java.lang.Math` stay uninterpreted functions in a
  `Library` value:
  - `Rotation.applyTo` and the axis-angle and Cardan constructors;
  - `getAngles`, whose `CardanEulerSingularityException` becomes `None`;
  - `Vector3D.angle`;
  - `Math.sqrt`, `acos` and `sin`;
  - the normalizing `Rotation` constructor.

  Facts about them appear only as lemma hypotheses (for example
  `sin(0) = 0`).
- The slerp copy in `src/peasy/RotationUtil.java` is not part of this
  model.
- `Damping.Decay`: does not model the rounding of IEEE doubles. The products
  are exact reals, and the 0.001 of `draw` is the exact decimal.
  `Easing.SlerpThreshold` is the exact value of the float literal 0.001f.
- `Damping.DampedAction.Stop`: `stop()` is called by `RotationInterp.start`,
  but `DampedAction.java` does not define it. It is modelled as setting the
  velocity to 0.
- `Interpolation.InterpolationManager.StartInterpolation`: the
  `InterpolationManager` source is not part of this model. Its use suggests
  one slot, where starting cancels the held animation and installs the new
  one. An animation's own `cancel()` on completion empties that slot. Both
  are assumptions.
- `Camera.PeasyCam.SetDistance`: the model requires a positive duration for
  started animations. With a duration of 0, `setDistance(d, 0)` starts a
  zero-duration animation, so it is not immediate, and the first tick
  divides by zero. The IEEE result of that division is not modelled. With a
  negative duration, t is never positive once time has passed, so the
  animation never finishes, and `smooth` extrapolates beyond the requested
  distance. Neither case is modelled.
- `Camera.PeasyCam.SetState`, `Camera.PeasyCam.Tick`,
  `Camera.ResetReturnsToStart`: the model takes one clock reading per call.
  The program reads `p.millis()` again at each `start()` in `setState`, and
  at each animation's `draw()`. So the three components of one `setState`
  can have start times a millisecond apart, and can finish one frame apart.
  `ResetReturnsToStart`'s conclusion that all three finish on the same tick
  rests on the shared reading.
- `Camera.PeasyCam.MouseEventHandler`: the drag deltas `mouseX - pmouseX` and
  `mouseY - pmouseY`, the mouse position and the viewport size are assumed
  to be fields of the event. A drag that rotates must come with a positive
  viewport width and height, because `mouseRotate` divides by half of each;
  pans, zooms and drags with no button action do not read the viewport and
  carry no such requirement.
- `Camera.PeasyCam.MouseRotate`: the contract states the dampers' new
  velocities from `Pose.MouseRotateImpulses`. The angle each impulse
  carries is the uninterpreted `Vector3D.angle`.
- Cross-thread delivery of events and ticks is not modelled: every method
  runs to completion before the next one starts.
- The example and test sketches are not part of this model.

## Findings

| source | as written | input that shows it | evidently intended | confidence | as-written member | corrected member |
|---|---|---|---|---|---|---|
| src/peasy/PeasyCam.java:425-426 | after XYZ and YXZ fail, the ZXY angles (about Z, X, Y in that order) are returned as {angles[2], angles[0], angles[1]}, which puts the Y angle in the X slot | a rotation singular in XYZ and YXZ, with ZXY angles (1, 2, 3), is reported as (3, 1, 2) | each angle goes in the slot of its own axis, {angles[1], angles[2], angles[0]} = (2, 3, 1), as the YXZ branch does | low to medium; not executed | Pose.GetRotationsAsWrittenMislabelsZXY | Pose.GetRotations |
