/** The value-level rules of `PeasyCam`: the pose and what `feed()`
    publishes, distance clamping, the three animations' start and eased
    values, the Euler-angle fallback of `getRotations`, and the mouse
    rules (shift-drag constraint, pan and rotate gating). */
module Pose {
  import opened Wrappers
  import opened Geometry
  import opened Easing
  import opened Interpolation

  /** The duration the one-argument `setDistance`, `lookAt`, `reset` and
      `setState` use. */
  const DefaultAnimationMillis: int := 300

  const DefaultMinimumDistance: real := 1.0

  /** `Double.MAX_VALUE`, the default maximum distance: (2^53 - 1) 2^971. */
  const DoubleMaxValue: real := 179769313486231570814527423731704356798070567525844996598917476803157260780028538760589558632766878171540458953514382464234321326889464182768467546703537516986049910576551282076245490090389328944075868508455133942304583236903222948165808559332123348274797826204144723168738177180919299881250404026184124858368.0

  /** The camera looks along +Z and its up vector is +Y before rotation. */
  const Look := PlusK
  const Up := PlusJ

  /** `CameraState`: a pose snapshot. */
  datatype CameraState = CameraState(rotation: Rotation, center: Vec3, distance: real)

  /** The nine numbers `feed()` hands to the renderer's `camera` call. */
  datatype Frame = Frame(eye: Vec3, center: Vec3, up: Vec3)

  /** The frame of a pose: the eye sits `distance` along the rotated look
      vector from the center. */
  function FrameOf(lib: Library, rotation: Rotation, center: Vec3, distance: real): (f: Frame)
    ensures f.center == center && f.up == lib.apply(rotation, Up)
    ensures distance == 0.0 ==> f.eye == center
  {
    Frame(lib.apply(rotation, Look).ScalarMultiply(distance).Add(center), center,
          lib.apply(rotation, Up))
  }

  // -----------------------------------------------------------------------
  // Distance clamping

  /** `Math.min(maximum, Math.max(minimum, d))`. */
  function Clamp(d: real, minimum: real, maximum: real): (r: real)
    ensures r <= maximum
    ensures minimum <= maximum ==> minimum <= r
    ensures minimum <= d <= maximum ==> r == d
    ensures d < minimum <= maximum ==> r == minimum
    ensures maximum < d ==> r == maximum
    ensures maximum < minimum ==> r == maximum
  {
    Min(maximum, Max(minimum, d))
  }

  /** Clamping twice against the same bounds is clamping once. */
  lemma ClampIdempotent(d: real, minimum: real, maximum: real)
    ensures Clamp(Clamp(d, minimum, maximum), minimum, maximum) == Clamp(d, minimum, maximum)
  {
    var c := Clamp(d, minimum, maximum);
    if minimum > maximum {
      assert c == maximum;
    }
  }

  // -----------------------------------------------------------------------
  // The three animations

  /** `new DistanceInterp(end, ms)`: starts from the current distance and
      ends at the requested one clamped to the bounds in force now. */
  function DistanceInterp(current: real, end: real, minimum: real, maximum: real, ms: int): (i: Interp<real>)
    ensures i.from == current && i.timeInMillis == ms as real
    ensures minimum <= maximum ==> minimum <= i.to <= maximum
    ensures minimum <= end <= maximum ==> i.to == end
  {
    Interp(current, Clamp(end, minimum, maximum), ms as real, 0.0)
  }

  /** `new CenterInterp(end, ms)`: starts from the current center. */
  function CenterInterp(current: Vec3, end: Vec3, ms: int): (i: Interp<Vec3>)
    ensures i.from == current && i.to == end && i.timeInMillis == ms as real
  {
    Interp(current, end, ms as real, 0.0)
  }

  /** `new RotationInterp(end, ms)`: starts from the current rotation. */
  function RotationInterp(current: Rotation, end: Rotation, ms: int): (i: Interp<Rotation>)
    ensures i.from == current && i.to == end && i.timeInMillis == ms as real
  {
    Interp(current, end, ms as real, 0.0)
  }

  /** The distance a `DistanceInterp` tick at `now` sets: exactly the end
      once finishing, the smoothstep blend at t before. */
  function DistanceAt(i: Interp<real>, now: int): (d: real)
    requires i.Timed()
    ensures Completes(i, now) ==> d == i.to
  {
    if Completes(i, now) then i.to else Smooth(i.from, i.to, Progress(i, now))
  }

  function CenterAt(i: Interp<Vec3>, now: int): (c: Vec3)
    requires i.Timed()
    ensures Completes(i, now) ==> c == i.to
  {
    if Completes(i, now) then i.to else SmoothVec(i.from, i.to, Progress(i, now))
  }

  function RotationAt(lib: Library, i: Interp<Rotation>, now: int): (r: Rotation)
    requires i.Timed()
    ensures Completes(i, now) ==> r == i.to
  {
    if Completes(i, now) then i.to else Slerp(lib, i.from, i.to, Progress(i, now))
  }

  /** A tick at the start time leaves distance and center where they were. */
  lemma AnimationsStartWhereTheyAre(d: Interp<real>, c: Interp<Vec3>, now: int)
    requires d.Timed() && c.Timed()
    requires d.startTime == now as real && c.startTime == now as real
    ensures DistanceAt(d, now) == d.from
    ensures CenterAt(c, now) == c.from
  {
  }

  /** At the start time slerp gives the (renormalised) start rotation, if
      sin(0) = 0. */
  lemma RotationAnimationStartsWhereItIs(lib: Library, i: Interp<Rotation>, now: int)
    requires i.Timed() && i.startTime == now as real
    requires lib.sin(0.0) == 0.0
    ensures RotationAt(lib, i, now) == lib.normalized(i.from.q0, i.from.q1, i.from.q2, i.from.q3)
  {
  }

  /** While the clock does not run backwards, an animated distance stays
      between its start and end values, so it stays within the bounds when
      both ends do. */
  lemma DistanceAtBetween(i: Interp<real>, now: int)
    requires i.Timed() && now as real >= i.startTime
    ensures Min(i.from, i.to) <= DistanceAt(i, now) <= Max(i.from, i.to)
  {
    if !Completes(i, now) {
      RunningProgressInRange(i, now);
      SmoothBetween(i.from, i.to, Progress(i, now));
    }
  }

  lemma DistanceAnimationStaysInBounds(i: Interp<real>, now: int, minimum: real, maximum: real)
    requires i.Timed() && now as real >= i.startTime
    requires minimum <= i.from <= maximum && minimum <= i.to <= maximum
    ensures minimum <= DistanceAt(i, now) <= maximum
  {
    DistanceAtBetween(i, now);
  }

  /** From distance 100 towards 50 over 300 ms: halfway through the distance
      is 75 (the smoothstep factor is 1/2 at t = 1/2); 298 ms in it is
      exactly 50. */
  lemma HalfwayZoomScenario(s: int)
    ensures DistanceAt(Interp(100.0, 50.0, 300.0, s as real), s + 150) == 75.0
    ensures DistanceAt(Interp(100.0, 50.0, 300.0, s as real), s + 298) == 50.0
  {
    var i := Interp(100.0, 50.0, 300.0, s as real);
    assert (s + 150) as real - s as real == 150.0;
    assert Progress(i, s + 150) == 0.5;
    assert !Completes(i, s + 150);
    assert DistanceAt(i, s + 150) == Smooth(100.0, 50.0, 0.5);
    DefaultDurationFinishesAt298(i, s);
  }

  // -----------------------------------------------------------------------
  // Euler angles

  /** Of the three angles of `order`, the one about `axis`. */
  function AngleAbout(order: RotationOrder, angles: Angles, axis: Axis): real
  {
    if order.AxisAt(0) == axis then angles.a0
    else if order.AxisAt(1) == axis then angles.a1
    else angles.a2
  }

  /** The angles of `order` rearranged to (about X, about Y, about Z). */
  function InXYZOrder(order: RotationOrder, angles: Angles): Angles
  {
    Angles(AngleAbout(order, angles, XAxis), AngleAbout(order, angles, YAxis),
           AngleAbout(order, angles, ZAxis))
  }

  /** The orders `getRotations` tries, in turn. */
  const FallbackOrders: seq<RotationOrder> := [XYZ, YXZ, ZXY]

  /** The first of `orders` the library can decompose r in, with its angles. */
  function FirstRegular(getAngles: (Rotation, RotationOrder) -> Option<Angles>, r: Rotation,
                        orders: seq<RotationOrder>): (p: Option<(RotationOrder, Angles)>)
    ensures p.Some? ==> p.value.0 in orders && getAngles(r, p.value.0) == Some(p.value.1)
    ensures p.Some? ==> exists k :: 0 <= k < |orders| && orders[k] == p.value.0
                                && forall j :: 0 <= j < k ==> getAngles(r, orders[j]).None?
    ensures p.None? <==> forall k :: 0 <= k < |orders| ==> getAngles(r, orders[k]).None?
    decreases |orders|
  {
    if orders == [] then None
    else match getAngles(r, orders[0])
      case Some(a) => Some((orders[0], a))
      case None => FirstRegular(getAngles, r, orders[1..])
  }

  /** `getRotations()`, with the ZXY permutation corrected (see
      GetRotationsAsWritten): the angles of the first order without a
      singularity, each placed in the slot of its own axis; all zero when
      every order is singular. */
  function GetRotations(getAngles: (Rotation, RotationOrder) -> Option<Angles>, r: Rotation): (e: Angles)
    ensures e == match FirstRegular(getAngles, r, FallbackOrders)
                 case Some(p) => InXYZOrder(p.0, p.1)
                 case None => ZeroAngles
  {
    match getAngles(r, XYZ)
    case Some(a) => Angles(a.a0, a.a1, a.a2)
    case None =>
      match getAngles(r, YXZ)
      case Some(a) => Angles(a.a1, a.a0, a.a2)
      case None =>
        match getAngles(r, ZXY)
        case Some(a) => Angles(a.a1, a.a2, a.a0)
        case None => ZeroAngles
  }

  /** `getRotations()` as written: the ZXY branch returns
      {angles[2], angles[0], angles[1]}.  It agrees with the axis-labelled
      reading except when only the ZXY decomposition succeeds. */
  function GetRotationsAsWritten(getAngles: (Rotation, RotationOrder) -> Option<Angles>, r: Rotation): (e: Angles)
    ensures getAngles(r, XYZ).Some? || getAngles(r, YXZ).Some? || getAngles(r, ZXY).None?
            ==> e == GetRotations(getAngles, r)
  {
    match getAngles(r, XYZ)
    case Some(a) => Angles(a.a0, a.a1, a.a2)
    case None =>
      match getAngles(r, YXZ)
      case Some(a) => Angles(a.a1, a.a0, a.a2)
      case None =>
        match getAngles(r, ZXY)
        case Some(a) => Angles(a.a2, a.a0, a.a1)
        case None => ZeroAngles
  }

  /** When XYZ and YXZ are singular and ZXY gives angles (1, 2, 3) — 1 about
      Z, 2 about X, 3 about Y — the written code reports 3 as the X angle. */
  lemma GetRotationsAsWrittenMislabelsZXY()
    ensures var ga := (r: Rotation, o: RotationOrder) => if o == ZXY then Some(Angles(1.0, 2.0, 3.0)) else None;
            GetRotationsAsWritten(ga, Identity) == Angles(3.0, 1.0, 2.0)
            && GetRotations(ga, Identity) == Angles(2.0, 3.0, 1.0)
            && InXYZOrder(ZXY, Angles(1.0, 2.0, 3.0)) == Angles(2.0, 3.0, 1.0)
  {
  }

  // -----------------------------------------------------------------------
  // Shift-drag constraint

  /** `Constraint.X` and `Constraint.Y`. */
  datatype Constraint = ConstrainX | ConstrainY

  /** The constraint after one drag event: kept while shift is down, chosen
      by the first decisive drag (|dx - dy| > 1) when none is held, dropped
      when shift is up. */
  function DragConstraint(held: Option<Constraint>, shiftDown: bool, dx: real, dy: real): (c: Option<Constraint>)
    ensures !shiftDown ==> c == None
    ensures shiftDown && held.Some? ==> c == held
    ensures c.Some? && c != held ==> held.None? && Abs(dx - dy) > 1.0
    ensures c.Some? && c != held ==> (c == Some(ConstrainX) <==> Abs(dx) > Abs(dy))
    ensures shiftDown && held.None? && Abs(dx - dy) > 1.0 ==> c.Some?
  {
    if shiftDown then
      if held == None && Abs(dx - dy) > 1.0 then
        Some(if Abs(dx) > Abs(dy) then ConstrainX else ConstrainY)
      else held
    else None
  }

  datatype Drag = Drag(dx: real, dy: real)

  /** The constraint after a run of drags with shift held throughout. */
  function DragsWithShift(held: Option<Constraint>, drags: seq<Drag>): Option<Constraint>
    decreases |drags|
  {
    if drags == [] then held
    else DragsWithShift(DragConstraint(held, true, drags[0].dx, drags[0].dy), drags[1..])
  }

  /** The constraint the first decisive drag of a run picks, if any. */
  function FirstDecisive(drags: seq<Drag>): Option<Constraint>
    decreases |drags|
  {
    if drags == [] then None
    else if Abs(drags[0].dx - drags[0].dy) > 1.0 then
      Some(if Abs(drags[0].dx) > Abs(drags[0].dy) then ConstrainX else ConstrainY)
    else FirstDecisive(drags[1..])
  }

  /** While shift stays down the constraint is sticky: a held one survives
      every drag, and with none held the first decisive drag decides. */
  lemma {:induction false} ShiftDragChoosesOnce(held: Option<Constraint>, drags: seq<Drag>)
    ensures DragsWithShift(held, drags) == if held.Some? then held else FirstDecisive(drags)
    decreases |drags|
  {
    if drags != [] {
      ShiftDragChoosesOnce(DragConstraint(held, true, drags[0].dx, drags[0].dy), drags[1..]);
    }
  }

  // -----------------------------------------------------------------------
  // Mouse pan, zoom and rotate

  /** `mousePan` scales by sqrt(distance * 0.005), `mouseZoom` by
      sqrt(distance * 0.2). */
  const PanFactor: real := 0.005
  const ZoomFactor: real := 0.2

  /** The (dx, dy) `mousePan` hands to `pan`: the negated scaled mouse
      motion, with the x part suppressed under constraint Y and the y part
      under constraint X. */
  function PanDelta(c: Option<Constraint>, dxMouse: real, dyMouse: real, panScale: real): (d: (real, real))
    ensures c == Some(ConstrainY) ==> d.0 == 0.0
    ensures c == Some(ConstrainX) ==> d.1 == 0.0
    ensures c != Some(ConstrainY) ==> d.0 == -dxMouse * panScale
    ensures c != Some(ConstrainX) ==> d.1 == -dyMouse * panScale
    ensures c == None ==> d == (-dxMouse * panScale, -dyMouse * panScale)
  {
    (if c == Some(ConstrainY) then 0.0 else -dxMouse * panScale,
     if c == Some(ConstrainX) then 0.0 else -dyMouse * panScale)
  }

  /** The window size and current mouse position, as the host reports them. */
  datatype Viewport = Viewport(width: int, height: int, mouseX: int, mouseY: int)

  /** The impulses of one `mouseRotate`: the vertical motion's (rotateX,
      rotateZ) pair and the horizontal motion's (rotateY, rotateZ) pair,
      each absent when the constraint suppresses it. */
  datatype RotateImpulses = RotateImpulses(fromDy: Option<(real, real)>, fromDx: Option<(real, real)>)

  /** The vector the drag angles are measured from: -(100 + 0.6 startDistance) along Z. */
  function DragBase(startDistance: real): Vec3
  {
    Look.ScalarMultiply(100.0 + 0.6 * startDistance).Negate()
  }

  function MouseRotateImpulses(angle: (Vec3, Vec3) -> real, c: Option<Constraint>, dx: real, dy: real,
                               view: Viewport, startDistance: real): (r: RotateImpulses)
    requires view.width > 0 && view.height > 0
    ensures r.fromDy.Some? <==> c != Some(ConstrainX)
    ensures r.fromDx.Some? <==> c != Some(ConstrainY)
  {
    var u := DragBase(startDistance);
    var fromDy :=
      if c != Some(ConstrainX) then
        var halfWidth := view.width as real / 2.0;
        var rho := Abs(halfWidth - view.mouseX as real) / halfWidth;
        var adz := Abs(dy) * rho;
        var ady := Abs(dy) * (1.0 - rho);
        var ySign: real := if dy < 0.0 then -1.0 else 1.0;
        var vy := u.Add(Vec3(0.0, ady, 0.0));
        var vz := u.Add(Vec3(0.0, adz, 0.0));
        Some((angle(u, vy) * ySign,
              angle(u, vz) * -ySign * (if view.mouseX < view.width / 2 then -1.0 else 1.0)))
      else None;
    var fromDx :=
      if c != Some(ConstrainY) then
        var halfHeight := view.height as real / 2.0;
        var eccentricity := Abs(halfHeight - view.mouseY as real) / halfHeight;
        var xSign: real := if dx > 0.0 then -1.0 else 1.0;
        var adz := Abs(dx) * eccentricity;
        var adx := Abs(dx) * (1.0 - eccentricity);
        var vx := u.Add(Vec3(adx, 0.0, 0.0));
        var vz := u.Add(Vec3(0.0, adz, 0.0));
        Some((angle(u, vx) * xSign,
              angle(u, vz) * xSign * (if view.mouseY > view.height / 2 then -1.0 else 1.0)))
      else None;
    RotateImpulses(fromDy, fromDx)
  }

  /** With a non-negative angle function, dragging down pitches one way and
      up the other, and dragging right yaws one way and left the other. */
  lemma RotateImpulseDirections(angle: (Vec3, Vec3) -> real, c: Option<Constraint>, dx: real, dy: real,
                                view: Viewport, startDistance: real)
    requires view.width > 0 && view.height > 0
    requires forall u, v :: angle(u, v) >= 0.0
    ensures var r := MouseRotateImpulses(angle, c, dx, dy, view, startDistance);
            (r.fromDy.Some? ==> (dy < 0.0 ==> r.fromDy.value.0 <= 0.0) && (dy >= 0.0 ==> r.fromDy.value.0 >= 0.0))
            && (r.fromDx.Some? ==> (dx > 0.0 ==> r.fromDx.value.0 <= 0.0) && (dx <= 0.0 ==> r.fromDx.value.0 >= 0.0))
  {
  }

  /** Which handler a drag goes to: the middle button, or the left with
      meta held, pans; the left rotates; the right zooms. */
  datatype Button = LeftButton | CenterButton | RightButton | NoButton
  datatype DragAction = PanDrag | RotateDrag | ZoomDrag | IgnoredDrag

  function DragActionOf(b: Button, metaDown: bool): (a: DragAction)
    ensures a == PanDrag <==> b == CenterButton || (b == LeftButton && metaDown)
    ensures a == RotateDrag <==> b == LeftButton && !metaDown
    ensures a == ZoomDrag <==> b == RightButton
  {
    if b == CenterButton || (b == LeftButton && metaDown) then PanDrag
    else if b == LeftButton then RotateDrag
    else if b == RightButton then ZoomDrag
    else IgnoredDrag
  }
}
