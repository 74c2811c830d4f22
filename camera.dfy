/** The `PeasyCam` controller: the pose fields and every operation that
    changes them.  Host services become explicit: the clock is the `now`
    argument of the methods that read `p.millis()`, the per-frame callbacks
    are the one method `Tick`, mouse and key events arrive as values, and
    `feed()`'s call to the renderer appends the published frame to a ghost
    log. */
module Camera {
  import opened Wrappers
  import opened Geometry
  import opened Damping
  import opened Interpolation
  import opened Pose

  /** The rotation after one damper's draw: when it fires, `behave` turns the
      camera by the decayed velocity about the damper's axis. */
  function Behave(lib: Library, r: Rotation, axis: Vec3, velocity: real, dampening: real): (b: Rotation)
    ensures velocity == 0.0 || Abs(velocity * dampening) < RestThreshold ==> b == r
    ensures velocity != 0.0 && Abs(velocity * dampening) >= RestThreshold
            ==> b == lib.compose(r, lib.axisAngle(axis, velocity * dampening))
  {
    if Fires(velocity, dampening) then lib.compose(r, lib.axisAngle(axis, Decay(velocity, dampening)))
    else r
  }

  /** The mouse events the controller reacts to. */
  datatype MouseEvent =
    | MouseClicked(clickCount: int)
    | MouseReleased
    | MouseDragged(dx: real, dy: real, shiftDown: bool, metaDown: bool, button: Button, view: Viewport)
    | OtherMouseEvent

  /** A key event: whether it is a release, and whether of the shift key. */
  datatype KeyEvent = KeyEvent(released: bool, isShift: bool)

  class PeasyCam {
    const lib: Library
    const startDistance: real
    const startCenter: Vec3
    var resetOnDoubleClick: bool
    var minimumDistance: real
    var maximumDistance: real
    const rotateX: DampedAction
    const rotateY: DampedAction
    const rotateZ: DampedAction
    var distance: real
    var center: Vec3
    var rotation: Rotation
    var dragConstraint: Option<Constraint>
    const rotationInterps: InterpolationManager<Rotation>
    const centerInterps: InterpolationManager<Vec3>
    const distanceInterps: InterpolationManager<real>
    /** Every frame `feed()` has handed to the renderer, oldest first. */
    ghost var published: seq<Frame>

    /** The frame of the current pose. */
    function CurrentFrame(): Frame
      reads this
    {
      FrameOf(lib, rotation, center, distance)
    }

    /** How many of the three dampers fire on their next draw. */
    function FiringDampers(): nat
      reads rotateX, rotateY, rotateZ
    {
      (if Fires(rotateX.velocity, rotateX.dampening) then 1 else 0)
      + (if Fires(rotateY.velocity, rotateY.dampening) then 1 else 0)
      + (if Fires(rotateZ.velocity, rotateZ.dampening) then 1 else 0)
    }

    /** How many animations the three managers hold. */
    function HeldAnimations(): nat
      reads rotationInterps, centerInterps, distanceInterps
    {
      (if rotationInterps.held.Some? then 1 else 0)
      + (if centerInterps.held.Some? then 1 else 0)
      + (if distanceInterps.held.Some? then 1 else 0)
    }

    /** The three dampers are distinct objects, every held animation has a
        positive duration, and the renderer was last sent the current pose. */
    ghost predicate Valid()
      reads this, rotationInterps, centerInterps, distanceInterps
    {
      && rotateX != rotateY && rotateY != rotateZ && rotateX != rotateZ
      && rotationInterps.Valid() && centerInterps.Valid() && distanceInterps.Valid()
      && published != [] && published[|published| - 1] == CurrentFrame()
    }

    /** `new PeasyCam(parent, lookAtX, lookAtY, lookAtZ, distance)`. */
    constructor (lib: Library, lookAtX: real, lookAtY: real, lookAtZ: real, distance: real)
      ensures Valid()
      ensures startCenter == center == Vec3(lookAtX, lookAtY, lookAtZ)
      ensures startDistance == this.distance == distance
      ensures rotation == Identity && dragConstraint == None && resetOnDoubleClick
      ensures minimumDistance == DefaultMinimumDistance && maximumDistance == DoubleMaxValue
      ensures fresh(rotateX) && fresh(rotateY) && fresh(rotateZ)
      ensures fresh(rotationInterps) && fresh(centerInterps) && fresh(distanceInterps)
      ensures rotateX.velocity == 0.0 && rotateY.velocity == 0.0 && rotateZ.velocity == 0.0
      ensures rotateX.dampening == rotateY.dampening == rotateZ.dampening == 1.0 - DefaultFriction
      ensures rotationInterps.held == None && centerInterps.held == None && distanceInterps.held == None
      ensures published == [CurrentFrame()]
    {
      this.lib := lib;
      startCenter := Vec3(lookAtX, lookAtY, lookAtZ);
      center := Vec3(lookAtX, lookAtY, lookAtZ);
      startDistance := distance;
      this.distance := distance;
      rotation := Identity;
      resetOnDoubleClick := true;
      minimumDistance := DefaultMinimumDistance;
      maximumDistance := DoubleMaxValue;
      dragConstraint := None;
      rotationInterps := new InterpolationManager();
      centerInterps := new InterpolationManager();
      distanceInterps := new InterpolationManager();
      rotateX := new DampedAction.Default();
      rotateY := new DampedAction.Default();
      rotateZ := new DampedAction.Default();
      published := [FrameOf(lib, Identity, Vec3(lookAtX, lookAtY, lookAtZ), distance)];
    }

    /** `feed()`: publish the current pose. */
    method Feed()
      modifies this`published
      ensures published == old(published) + [CurrentFrame()]
    {
      published := published + [CurrentFrame()];
    }

    // ---------------------------------------------------------------------
    // Distance

    /** `safeSetDistance(d)`: the distance clamped to the bounds. */
    method SafeSetDistance(d: real)
      requires Valid()
      modifies this`distance, this`published
      ensures Valid()
      ensures distance == Clamp(d, minimumDistance, maximumDistance)
      ensures published == old(published) + [CurrentFrame()]
    {
      distance := Clamp(d, minimumDistance, maximumDistance);
      Feed();
    }

    /** `setMinimumDistance(m)`: the new bound, and the distance re-clamped. */
    method SetMinimumDistance(m: real)
      requires Valid()
      modifies this`minimumDistance, this`distance, this`published
      ensures Valid()
      ensures minimumDistance == m
      ensures distance == Clamp(old(distance), m, maximumDistance)
      ensures published == old(published) + [CurrentFrame()]
    {
      minimumDistance := m;
      SafeSetDistance(distance);
    }

    /** `setMaximumDistance(m)`: the new bound, and the distance re-clamped. */
    method SetMaximumDistance(m: real)
      requires Valid()
      modifies this`maximumDistance, this`distance, this`published
      ensures Valid()
      ensures maximumDistance == m
      ensures distance == Clamp(old(distance), minimumDistance, m)
      ensures published == old(published) + [CurrentFrame()]
    {
      maximumDistance := m;
      SafeSetDistance(distance);
    }

    /** `setDistance(d, ms)`: animate from the current distance towards d,
        clamped; replaces any distance animation. */
    method SetDistance(newDistance: real, ms: int, now: int)
      requires Valid() && ms > 0
      modifies distanceInterps
      ensures Valid()
      ensures distanceInterps.held
           == Some(DistanceInterp(distance, newDistance, minimumDistance, maximumDistance, ms).StartedAt(now))
    {
      distanceInterps.StartInterpolation(
        DistanceInterp(distance, newDistance, minimumDistance, maximumDistance, ms), now);
    }

    method SetResetOnDoubleClick(b: bool)
      modifies this`resetOnDoubleClick
      ensures resetOnDoubleClick == b
    {
      resetOnDoubleClick := b;
    }

    // ---------------------------------------------------------------------
    // Direct pose changes

    /** `pan(dx, dy)`: move the center by (dx, dy) in camera coordinates. */
    method Pan(dx: real, dy: real)
      requires Valid()
      modifies this`center, this`published
      ensures Valid()
      ensures center == old(center).Add(lib.apply(rotation, Vec3(dx, dy, 0.0)))
      ensures published == old(published) + [CurrentFrame()]
    {
      center := center.Add(lib.apply(rotation, Vec3(dx, dy, 0.0)));
      Feed();
    }

    /** `rotateX(angle)`, and with axis +J and +K `rotateY` and `rotateZ`. */
    method RotateX(angle: real)
      requires Valid()
      modifies this`rotation, this`published
      ensures Valid()
      ensures rotation == lib.compose(old(rotation), lib.axisAngle(PlusI, angle))
      ensures published == old(published) + [CurrentFrame()]
    {
      rotation := lib.compose(rotation, lib.axisAngle(PlusI, angle));
      Feed();
    }

    method RotateY(angle: real)
      requires Valid()
      modifies this`rotation, this`published
      ensures Valid()
      ensures rotation == lib.compose(old(rotation), lib.axisAngle(PlusJ, angle))
      ensures published == old(published) + [CurrentFrame()]
    {
      rotation := lib.compose(rotation, lib.axisAngle(PlusJ, angle));
      Feed();
    }

    method RotateZ(angle: real)
      requires Valid()
      modifies this`rotation, this`published
      ensures Valid()
      ensures rotation == lib.compose(old(rotation), lib.axisAngle(PlusK, angle))
      ensures published == old(published) + [CurrentFrame()]
    {
      rotation := lib.compose(rotation, lib.axisAngle(PlusK, angle));
      Feed();
    }

    /** `setRotations(pitch, yaw, roll)`: cancel any rotation animation and
        take the XYZ Cardan rotation. */
    method SetRotations(pitch: real, yaw: real, roll: real)
      requires Valid()
      modifies this`rotation, this`published, rotationInterps
      ensures Valid()
      ensures rotationInterps.held == None
      ensures rotation == lib.fromAngles(XYZ, pitch, yaw, roll)
      ensures published == old(published) + [CurrentFrame()]
    {
      rotationInterps.CancelInterpolation();
      rotation := lib.fromAngles(XYZ, pitch, yaw, roll);
      Feed();
    }

    /** `getRotations()`, in the corrected reading of `Pose.GetRotations`:
        the angles of the first regular decomposition, each in the slot of
        its own axis, or all zero. */
    function GetRotations(): (e: Angles)
      reads this
      ensures e == match FirstRegular(lib.getAngles, rotation, FallbackOrders)
                   case Some(p) => InXYZOrder(p.0, p.1)
                   case None => ZeroAngles
    {
      Pose.GetRotations(lib.getAngles, rotation)
    }

    // ---------------------------------------------------------------------
    // Animated pose changes

    /** `RotationInterp.start()`: stop the three rotation dampers, then
        install the animation from the current rotation. */
    method StartRotationInterp(end: Rotation, ms: int, now: int)
      requires Valid() && ms > 0
      modifies rotateX`velocity, rotateY`velocity, rotateZ`velocity, rotationInterps
      ensures Valid()
      ensures rotateX.velocity == 0.0 && rotateY.velocity == 0.0 && rotateZ.velocity == 0.0
      ensures rotationInterps.held == Some(RotationInterp(rotation, end, ms).StartedAt(now))
    {
      rotateX.Stop();
      rotateY.Stop();
      rotateZ.Stop();
      rotationInterps.StartInterpolation(RotationInterp(rotation, end, ms), now);
    }

    /** What `setState(state, ms)` leaves behind. */
    twostate predicate StateSet(state: CameraState, ms: int, now: int)
      reads this, rotateX, rotateY, rotateZ, rotationInterps, centerInterps, distanceInterps
    {
      && (ms > 0 ==>
          && rotation == old(rotation) && center == old(center) && distance == old(distance)
          && rotationInterps.held == Some(RotationInterp(old(rotation), state.rotation, ms).StartedAt(now))
          && centerInterps.held == Some(CenterInterp(old(center), state.center, ms).StartedAt(now))
          && distanceInterps.held == Some(DistanceInterp(old(distance), state.distance,
                                                         minimumDistance, maximumDistance, ms).StartedAt(now))
          && rotateX.velocity == 0.0 && rotateY.velocity == 0.0 && rotateZ.velocity == 0.0)
      && (ms <= 0 ==>
          && rotation == state.rotation && center == state.center && distance == state.distance
          && rotationInterps.held == old(rotationInterps.held)
          && centerInterps.held == old(centerInterps.held)
          && distanceInterps.held == old(distanceInterps.held)
          && rotateX.velocity == old(rotateX.velocity) && rotateY.velocity == old(rotateY.velocity)
          && rotateZ.velocity == old(rotateZ.velocity))
      && published == old(published) + [CurrentFrame()]
    }

    /** `setState(state, ms)`: with a positive duration, animate rotation,
        center and distance towards the state (the distance clamped);
        otherwise take the state at once, unclamped. */
    method SetState(state: CameraState, ms: int, now: int)
      requires Valid()
      modifies this`rotation, this`center, this`distance, this`published
      modifies rotateX`velocity, rotateY`velocity, rotateZ`velocity
      modifies rotationInterps, centerInterps, distanceInterps
      ensures Valid()
      ensures StateSet(state, ms, now)
    {
      if ms > 0 {
        StartRotationInterp(state.rotation, ms, now);
        centerInterps.StartInterpolation(CenterInterp(center, state.center, ms), now);
        distanceInterps.StartInterpolation(
          DistanceInterp(distance, state.distance, minimumDistance, maximumDistance, ms), now);
      } else {
        rotation := state.rotation;
        center := state.center;
        distance := state.distance;
      }
      Feed();
    }

    /** `reset(ms)`: `setState` towards the starting pose. */
    method Reset(ms: int, now: int)
      requires Valid()
      modifies this`rotation, this`center, this`distance, this`published
      modifies rotateX`velocity, rotateY`velocity, rotateZ`velocity
      modifies rotationInterps, centerInterps, distanceInterps
      ensures Valid()
      ensures StateSet(CameraState(Identity, startCenter, startDistance), ms, now)
    {
      SetState(CameraState(Identity, startCenter, startDistance), ms, now);
    }

    /** `lookAt(x, y, z)`: animate the center over the default duration. */
    method LookAt(x: real, y: real, z: real, now: int)
      requires Valid()
      modifies centerInterps
      ensures Valid()
      ensures centerInterps.held
           == Some(CenterInterp(center, Vec3(x, y, z), DefaultAnimationMillis).StartedAt(now))
    {
      centerInterps.StartInterpolation(CenterInterp(center, Vec3(x, y, z), DefaultAnimationMillis), now);
    }

    /** `lookAt(x, y, z, distance)`: animate center and distance over the
        default duration. */
    method LookAtWithDistance(x: real, y: real, z: real, d: real, now: int)
      requires Valid()
      modifies centerInterps, distanceInterps
      ensures Valid()
      ensures centerInterps.held
           == Some(CenterInterp(center, Vec3(x, y, z), DefaultAnimationMillis).StartedAt(now))
      ensures distanceInterps.held
           == Some(DistanceInterp(distance, d, minimumDistance, maximumDistance,
                                  DefaultAnimationMillis).StartedAt(now))
    {
      LookAt(x, y, z, now);
      SetDistance(d, DefaultAnimationMillis, now);
    }

    /** `lookAt(x, y, z, distance, ms)`: `setState` with the current rotation. */
    method LookAtWithDistanceTimed(x: real, y: real, z: real, d: real, ms: int, now: int)
      requires Valid()
      modifies this`rotation, this`center, this`distance, this`published
      modifies rotateX`velocity, rotateY`velocity, rotateZ`velocity
      modifies rotationInterps, centerInterps, distanceInterps
      ensures Valid()
      ensures StateSet(CameraState(old(rotation), Vec3(x, y, z), d), ms, now)
    {
      SetState(CameraState(rotation, Vec3(x, y, z), d), ms, now);
    }

    /** `lookAt(x, y, z, ms)`: the same, keeping the current distance. */
    method LookAtTimed(x: real, y: real, z: real, ms: int, now: int)
      requires Valid()
      modifies this`rotation, this`center, this`distance, this`published
      modifies rotateX`velocity, rotateY`velocity, rotateZ`velocity
      modifies rotationInterps, centerInterps, distanceInterps
      ensures Valid()
      ensures StateSet(CameraState(old(rotation), Vec3(x, y, z), old(distance)), ms, now)
    {
      LookAtWithDistanceTimed(x, y, z, distance, ms, now);
    }

    // ---------------------------------------------------------------------
    // Per-frame callbacks

    /** One rotation damper's `draw`, with `behave` turning the camera about
        the damper's axis and then feeding. */
    method DrawRotateDamper(d: DampedAction, axis: Vec3)
      requires Valid()
      modifies d`velocity, d`behaved, this`rotation, this`published
      ensures Valid()
      ensures d.velocity == Decay(old(d.velocity), d.dampening)
      ensures rotation == Behave(lib, old(rotation), axis, old(d.velocity), d.dampening)
      ensures d.behaved == old(d.behaved) + (if Fires(old(d.velocity), d.dampening) then [d.velocity] else [])
      ensures published == old(published) + (if Fires(old(d.velocity), d.dampening) then [CurrentFrame()] else [])
    {
      var behave := d.Tick();
      if behave.Some? {
        rotation := lib.compose(rotation, lib.axisAngle(axis, behave.value));
        Feed();
      }
    }

    /** The rotation animation's `draw`: finish at exactly the end rotation
        once t > 0.99, else slerp; then feed. */
    method DrawRotationInterp(now: int)
      requires Valid()
      modifies this`rotation, this`published, rotationInterps
      ensures Valid()
      ensures rotationInterps.held == AfterTick(old(rotationInterps.held), now)
      ensures old(rotationInterps.held).None? ==> rotation == old(rotation) && published == old(published)
      ensures old(rotationInterps.held).Some? ==>
                rotation == RotationAt(lib, old(rotationInterps.held).value, now)
                && published == old(published) + [CurrentFrame()]
    {
      match rotationInterps.held
      case None =>
      case Some(i) =>
        if Progress(i, now) > CompletionPoint {
          rotationInterps.CancelInterpolation();
          rotation := i.to;
        } else {
          rotation := Easing.Slerp(lib, i.from, i.to, Progress(i, now));
        }
        Feed();
    }

    /** The center animation's `draw`. */
    method DrawCenterInterp(now: int)
      requires Valid()
      modifies this`center, this`published, centerInterps
      ensures Valid()
      ensures centerInterps.held == AfterTick(old(centerInterps.held), now)
      ensures old(centerInterps.held).None? ==> center == old(center) && published == old(published)
      ensures old(centerInterps.held).Some? ==>
                center == CenterAt(old(centerInterps.held).value, now)
                && published == old(published) + [CurrentFrame()]
    {
      match centerInterps.held
      case None =>
      case Some(i) =>
        if Progress(i, now) > CompletionPoint {
          centerInterps.CancelInterpolation();
          center := i.to;
        } else {
          center := Easing.SmoothVec(i.from, i.to, Progress(i, now));
        }
        Feed();
    }

    /** The distance animation's `draw`. */
    method DrawDistanceInterp(now: int)
      requires Valid()
      modifies this`distance, this`published, distanceInterps
      ensures Valid()
      ensures distanceInterps.held == AfterTick(old(distanceInterps.held), now)
      ensures old(distanceInterps.held).None? ==> distance == old(distance) && published == old(published)
      ensures old(distanceInterps.held).Some? ==>
                distance == DistanceAt(old(distanceInterps.held).value, now)
                && published == old(published) + [CurrentFrame()]
    {
      match distanceInterps.held
      case None =>
      case Some(i) =>
        if Progress(i, now) > CompletionPoint {
          distanceInterps.CancelInterpolation();
          distance := i.to;
        } else {
          distance := Easing.Smooth(i.from, i.to, Progress(i, now));
        }
        Feed();
    }

    /** The three rotation dampers' draws, in registration order. */
    method DrawDampers()
      requires Valid()
      modifies this`rotation, this`published
      modifies rotateX`velocity, rotateY`velocity, rotateZ`velocity
      modifies rotateX`behaved, rotateY`behaved, rotateZ`behaved
      ensures Valid()
      ensures rotateX.velocity == Decay(old(rotateX.velocity), rotateX.dampening)
      ensures rotateY.velocity == Decay(old(rotateY.velocity), rotateY.dampening)
      ensures rotateZ.velocity == Decay(old(rotateZ.velocity), rotateZ.dampening)
      ensures rotation == Behave(lib, Behave(lib, Behave(lib, old(rotation),
                            PlusI, old(rotateX.velocity), rotateX.dampening),
                            PlusJ, old(rotateY.velocity), rotateY.dampening),
                            PlusK, old(rotateZ.velocity), rotateZ.dampening)
      ensures rotateX.behaved == old(rotateX.behaved)
                + (if Fires(old(rotateX.velocity), rotateX.dampening) then [rotateX.velocity] else [])
      ensures rotateY.behaved == old(rotateY.behaved)
                + (if Fires(old(rotateY.velocity), rotateY.dampening) then [rotateY.velocity] else [])
      ensures rotateZ.behaved == old(rotateZ.behaved)
                + (if Fires(old(rotateZ.velocity), rotateZ.dampening) then [rotateZ.velocity] else [])
      ensures old(published) <= published
      ensures |published| == |old(published)| + old(FiringDampers())
    {
      DrawRotateDamper(rotateX, PlusI);
      DrawRotateDamper(rotateY, PlusJ);
      DrawRotateDamper(rotateZ, PlusK);
    }

    /** The held animations' draws: rotation, center, distance. */
    method DrawInterps(now: int)
      requires Valid()
      modifies this`rotation, this`center, this`distance, this`published
      modifies rotationInterps, centerInterps, distanceInterps
      ensures Valid()
      ensures rotation == match old(rotationInterps.held)
                          case Some(i) => RotationAt(lib, i, now)
                          case None => old(rotation)
      ensures center == match old(centerInterps.held)
                        case Some(i) => CenterAt(i, now)
                        case None => old(center)
      ensures distance == match old(distanceInterps.held)
                          case Some(i) => DistanceAt(i, now)
                          case None => old(distance)
      ensures rotationInterps.held == AfterTick(old(rotationInterps.held), now)
      ensures centerInterps.held == AfterTick(old(centerInterps.held), now)
      ensures distanceInterps.held == AfterTick(old(distanceInterps.held), now)
      ensures old(published) <= published
      ensures |published| == |old(published)| + old(HeldAnimations())
    {
      DrawRotationInterp(now);
      DrawCenterInterp(now);
      DrawDistanceInterp(now);
    }

    /** One frame: the three dampers (registered first, at construction),
        then the held animations.  A running rotation animation overrides
        any damper spin of the same frame. */
    method Tick(now: int)
      requires Valid()
      modifies this`rotation, this`center, this`distance, this`published
      modifies rotateX`velocity, rotateY`velocity, rotateZ`velocity
      modifies rotateX`behaved, rotateY`behaved, rotateZ`behaved
      modifies rotationInterps, centerInterps, distanceInterps
      ensures Valid()
      ensures rotateX.velocity == Decay(old(rotateX.velocity), rotateX.dampening)
      ensures rotateY.velocity == Decay(old(rotateY.velocity), rotateY.dampening)
      ensures rotateZ.velocity == Decay(old(rotateZ.velocity), rotateZ.dampening)
      ensures rotation == match old(rotationInterps.held)
                          case Some(i) => RotationAt(lib, i, now)
                          case None =>
                            Behave(lib, Behave(lib, Behave(lib, old(rotation),
                                     PlusI, old(rotateX.velocity), rotateX.dampening),
                                     PlusJ, old(rotateY.velocity), rotateY.dampening),
                                     PlusK, old(rotateZ.velocity), rotateZ.dampening)
      ensures center == match old(centerInterps.held)
                        case Some(i) => CenterAt(i, now)
                        case None => old(center)
      ensures distance == match old(distanceInterps.held)
                          case Some(i) => DistanceAt(i, now)
                          case None => old(distance)
      ensures rotationInterps.held == AfterTick(old(rotationInterps.held), now)
      ensures centerInterps.held == AfterTick(old(centerInterps.held), now)
      ensures distanceInterps.held == AfterTick(old(distanceInterps.held), now)
      ensures rotateX.behaved == old(rotateX.behaved)
                + (if Fires(old(rotateX.velocity), rotateX.dampening) then [rotateX.velocity] else [])
      ensures rotateY.behaved == old(rotateY.behaved)
                + (if Fires(old(rotateY.velocity), rotateY.dampening) then [rotateY.velocity] else [])
      ensures rotateZ.behaved == old(rotateZ.behaved)
                + (if Fires(old(rotateZ.velocity), rotateZ.dampening) then [rotateZ.velocity] else [])
      ensures old(published) <= published
      ensures |published| == |old(published)| + old(FiringDampers()) + old(HeldAnimations())
      ensures old(FiringDampers()) + old(HeldAnimations()) == 0 ==> published == old(published)
    {
      DrawDampers();
      DrawInterps(now);
    }

    // ---------------------------------------------------------------------
    // Mouse and keyboard

    /** `mouseZoom(delta)`: zoom faster the farther away the camera is. */
    method MouseZoom(delta: real)
      requires Valid()
      modifies this`distance, this`published
      ensures Valid()
      ensures distance == Clamp(old(distance) + delta * lib.sqrt(old(distance) * ZoomFactor),
                                minimumDistance, maximumDistance)
      ensures published == old(published) + [CurrentFrame()]
    {
      SafeSetDistance(distance + delta * lib.sqrt(distance * ZoomFactor));
    }

    /** `mousePan(dx, dy)`: pan against the mouse motion, gated by the
        drag constraint. */
    method MousePan(dxMouse: real, dyMouse: real)
      requires Valid()
      modifies this`center, this`published
      ensures Valid()
      ensures var d := PanDelta(dragConstraint, dxMouse, dyMouse, lib.sqrt(distance * PanFactor));
              center == old(center).Add(lib.apply(rotation, Vec3(d.0, d.1, 0.0)))
      ensures published == old(published) + [CurrentFrame()]
    {
      var d := PanDelta(dragConstraint, dxMouse, dyMouse, lib.sqrt(distance * PanFactor));
      Pan(d.0, d.1);
    }

    /** `mouseRotate(dx, dy)`: push the rotation dampers; constraint X
        suppresses the vertical motion's pitch and roll, constraint Y the
        horizontal motion's yaw and roll. */
    method MouseRotate(dx: real, dy: real, view: Viewport)
      requires Valid() && view.width > 0 && view.height > 0
      modifies rotateX`velocity, rotateY`velocity, rotateZ`velocity
      ensures Valid()
      ensures var r := MouseRotateImpulses(lib.angle, dragConstraint, dx, dy, view, startDistance);
              && rotateX.velocity == old(rotateX.velocity) + (if r.fromDy.Some? then r.fromDy.value.0 else 0.0)
              && rotateY.velocity == old(rotateY.velocity) + (if r.fromDx.Some? then r.fromDx.value.0 else 0.0)
              && rotateZ.velocity == old(rotateZ.velocity) + (if r.fromDy.Some? then r.fromDy.value.1 else 0.0)
                                                           + (if r.fromDx.Some? then r.fromDx.value.1 else 0.0)
      ensures dragConstraint == Some(ConstrainX) ==> rotateX.velocity == old(rotateX.velocity)
      ensures dragConstraint == Some(ConstrainY) ==> rotateY.velocity == old(rotateY.velocity)
    {
      var r := MouseRotateImpulses(lib.angle, dragConstraint, dx, dy, view, startDistance);
      if r.fromDy.Some? {
        rotateX.Impulse(r.fromDy.value.0);
        rotateZ.Impulse(r.fromDy.value.1);
      }
      if r.fromDx.Some? {
        rotateY.Impulse(r.fromDx.value.0);
        rotateZ.Impulse(r.fromDx.value.1);
      }
    }

    /** `keyEvent`: releasing shift drops the drag constraint. */
    method KeyEventHandler(e: KeyEvent)
      modifies this`dragConstraint
      ensures dragConstraint == if e.released && e.isShift then None else old(dragConstraint)
    {
      if e.released && e.isShift {
        dragConstraint := None;
      }
    }

    /** The three dampers' velocities are as they were. */
    twostate predicate DampersKept()
      reads this, rotateX, rotateY, rotateZ
    {
      && rotateX.velocity == old(rotateX.velocity)
      && rotateY.velocity == old(rotateY.velocity)
      && rotateZ.velocity == old(rotateZ.velocity)
    }

    /** The three animation slots hold what they held. */
    twostate predicate SlotsKept()
      reads this, rotationInterps, centerInterps, distanceInterps
    {
      && rotationInterps.held == old(rotationInterps.held)
      && centerInterps.held == old(centerInterps.held)
      && distanceInterps.held == old(distanceInterps.held)
    }

    /** The mouse events `mouseEvent` does nothing with: a click other than
        an enabled double click, an event of another kind, and a drag with
        no button action. */
    predicate Ignores(e: MouseEvent)
      reads this
    {
      || (e.MouseClicked? && !(resetOnDoubleClick && e.clickCount == 2))
      || e.OtherMouseEvent?
      || (e.MouseDragged? && DragActionOf(e.button, e.metaDown) == IgnoredDrag)
    }

    /** What a drag does, by button, after updating the constraint: a pan
        moves only the center, a zoom only the distance, a rotation only
        pushes the dampers; the rotation and the animations stay. */
    twostate predicate Dragged(e: MouseEvent)
      requires e.MouseDragged? && (DragActionOf(e.button, e.metaDown) == RotateDrag ==> e.view.width > 0 && e.view.height > 0)
      reads this, rotateX, rotateY, rotateZ
    {
      && dragConstraint == DragConstraint(old(dragConstraint), e.shiftDown, e.dx, e.dy)
      && rotation == old(rotation)
      && match DragActionOf(e.button, e.metaDown)
         case PanDrag =>
           && (var d := PanDelta(dragConstraint, e.dx, e.dy, lib.sqrt(distance * PanFactor));
               center == old(center).Add(lib.apply(rotation, Vec3(d.0, d.1, 0.0))))
           && distance == old(distance) && DampersKept()
           && published == old(published) + [CurrentFrame()]
         case ZoomDrag =>
           && distance == Clamp(old(distance) + e.dy * lib.sqrt(old(distance) * ZoomFactor),
                                minimumDistance, maximumDistance)
           && center == old(center) && DampersKept()
           && published == old(published) + [CurrentFrame()]
         case RotateDrag =>
           && (var r := MouseRotateImpulses(lib.angle, dragConstraint, e.dx, e.dy, e.view, startDistance);
               && rotateX.velocity == old(rotateX.velocity) + (if r.fromDy.Some? then r.fromDy.value.0 else 0.0)
               && rotateY.velocity == old(rotateY.velocity) + (if r.fromDx.Some? then r.fromDx.value.0 else 0.0)
               && rotateZ.velocity == old(rotateZ.velocity) + (if r.fromDy.Some? then r.fromDy.value.1 else 0.0)
                                                           + (if r.fromDx.Some? then r.fromDx.value.1 else 0.0))
           && center == old(center) && distance == old(distance) && published == old(published)
         case IgnoredDrag =>
           && center == old(center) && distance == old(distance) && DampersKept()
           && published == old(published)
    }

    /** The `MOUSE_DRAGGED` branch of `mouseEvent`. */
    method MouseDragHandler(e: MouseEvent)
      requires Valid() && e.MouseDragged?
      requires (DragActionOf(e.button, e.metaDown) == RotateDrag ==> e.view.width > 0 && e.view.height > 0)
      modifies this`center, this`distance, this`published, this`dragConstraint
      modifies rotateX`velocity, rotateY`velocity, rotateZ`velocity
      ensures Valid()
      ensures Dragged(e)
    {
      dragConstraint := DragConstraint(dragConstraint, e.shiftDown, e.dx, e.dy);
      match DragActionOf(e.button, e.metaDown)
      case PanDrag => MousePan(e.dx, e.dy);
      case RotateDrag => MouseRotate(e.dx, e.dy, e.view);
      case ZoomDrag =>
        MouseZoom(e.dy);
        assert distance == Clamp(old(distance) + e.dy * lib.sqrt(old(distance) * ZoomFactor),
                                 minimumDistance, maximumDistance);
        assert center == old(center) && DampersKept();
      case IgnoredDrag =>
    }

    /** `mouseEvent`: a double click resets (when enabled), a release drops
        the drag constraint, a drag updates the constraint and then pans,
        rotates or zooms by button; every other event changes nothing. */
    method MouseEventHandler(e: MouseEvent, now: int)
      requires Valid()
      requires e.MouseDragged? && DragActionOf(e.button, e.metaDown) == RotateDrag ==>
                 e.view.width > 0 && e.view.height > 0
      modifies this`rotation, this`center, this`distance, this`published, this`dragConstraint
      modifies rotateX`velocity, rotateY`velocity, rotateZ`velocity
      modifies rotationInterps, centerInterps, distanceInterps
      ensures Valid()
      ensures old(Ignores(e)) && !e.MouseDragged? ==> dragConstraint == old(dragConstraint)
      ensures old(Ignores(e)) ==>
                unchanged(this`rotation, this`center, this`distance, this`published)
                && DampersKept() && SlotsKept()
      ensures resetOnDoubleClick && e.MouseClicked? && e.clickCount == 2 ==>
                StateSet(CameraState(Identity, startCenter, startDistance), DefaultAnimationMillis, now)
                && dragConstraint == old(dragConstraint)
      ensures e.MouseReleased? ==>
                dragConstraint == None
                && unchanged(this`rotation, this`center, this`distance, this`published)
                && DampersKept() && SlotsKept()
      ensures e.MouseDragged? ==> Dragged(e) && SlotsKept()
    {
      if resetOnDoubleClick && e.MouseClicked? && e.clickCount == 2 {
        Reset(DefaultAnimationMillis, now);
      } else if e.MouseReleased? {
        dragConstraint := None;
      } else if e.MouseDragged? {
        MouseDragHandler(e);
      }
    }
  }

  /** A `reset(ms)` brings the camera back to exactly its starting pose, with
      no animation left, at the first tick past 0.99 of the duration,
      whatever mouse drags and easing ticks come in between: drags only push
      the dampers, pan or zoom, and every tick the running animations
      overwrite the pose (given a start distance within the bounds). */
  method ResetReturnsToStart(cam: PeasyCam, ms: int, start: int, drags: seq<MouseEvent>,
                             times: seq<int>, later: int)
    requires cam.Valid() && ms > 0
    requires cam.minimumDistance <= cam.startDistance <= cam.maximumDistance
    requires |drags| == |times|
    requires forall k :: 0 <= k < |drags| ==>
               && drags[k].MouseDragged?
               && (DragActionOf(drags[k].button, drags[k].metaDown) == RotateDrag ==>
                     drags[k].view.width > 0 && drags[k].view.height > 0)
    requires forall k :: 0 <= k < |times| ==> times[k] as real - start as real <= CompletionPoint * ms as real
    requires later as real - start as real > CompletionPoint * ms as real
    modifies cam`rotation, cam`center, cam`distance, cam`published, cam`dragConstraint
    modifies cam.rotateX`velocity, cam.rotateY`velocity, cam.rotateZ`velocity
    modifies cam.rotateX`behaved, cam.rotateY`behaved, cam.rotateZ`behaved
    modifies cam.rotationInterps, cam.centerInterps, cam.distanceInterps
    ensures cam.Valid()
    ensures cam.rotation == Identity && cam.center == cam.startCenter && cam.distance == cam.startDistance
    ensures cam.rotationInterps.held == None && cam.centerInterps.held == None && cam.distanceInterps.held == None
  {
    cam.Reset(ms, start);
    ghost var rotating, centering, zooming :=
      cam.rotationInterps.held, cam.centerInterps.held, cam.distanceInterps.held;
    var k := 0;
    while k < |times|
      invariant 0 <= k <= |times|
      invariant cam.Valid()
      invariant cam.rotationInterps.held == rotating
      invariant cam.centerInterps.held == centering
      invariant cam.distanceInterps.held == zooming
    {
      cam.MouseEventHandler(drags[k], times[k]);
      CompletesIffElapsed(rotating.value, times[k]);
      CompletesIffElapsed(centering.value, times[k]);
      CompletesIffElapsed(zooming.value, times[k]);
      cam.Tick(times[k]);
      k := k + 1;
    }
    CompletesIffElapsed(rotating.value, later);
    CompletesIffElapsed(centering.value, later);
    CompletesIffElapsed(zooming.value, later);
    cam.Tick(later);
  }
}
