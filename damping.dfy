/** `DampedAction`: one scalar velocity that impulses push and every frame
    decays, snapping to rest once it is negligible.  The per-frame `draw`
    is the explicit method `Tick`; what the source's abstract `behave`
    would do is the caller's business, so `Tick` returns the velocity it
    hands to `behave` and records it in a ghost log. */
module Damping {
  import opened Wrappers
  import opened Geometry

  /** The friction of the one-argument constructor. */
  const DefaultFriction: real := 0.16

  /** Below this magnitude the decayed velocity is snapped to exactly zero. */
  const RestThreshold: real := 0.001

  /** Whether a draw with velocity v calls `behave`: v is moving and still
      not negligible once decayed. */
  predicate Fires(v: real, dampening: real)
  {
    v != 0.0 && Abs(v * dampening) >= RestThreshold
  }

  /** The velocity after one draw. */
  function Decay(v: real, dampening: real): (r: real)
    ensures v == 0.0 ==> r == 0.0
    ensures Fires(v, dampening) <==> r != 0.0
    ensures r != 0.0 ==> r == v * dampening && Abs(r) >= RestThreshold
  {
    if v == 0.0 then 0.0
    else if Abs(v * dampening) < RestThreshold then 0.0
    else v * dampening
  }

  /** The velocity after n draws with no impulse in between.  With proper
      dampening the motion never reverses and never speeds up. */
  function Iterate(v: real, dampening: real, n: nat): (r: real)
    ensures n == 0 ==> r == v
    ensures 0.0 < dampening < 1.0 && v >= 0.0 ==> 0.0 <= r <= v
    ensures 0.0 < dampening < 1.0 && v <= 0.0 ==> v <= r <= 0.0
    decreases n
  {
    if n == 0 then v
    else
      var w := Decay(v, dampening);
      assert 0.0 < dampening < 1.0 ==> (v >= 0.0 ==> 0.0 <= w <= v) && (v <= 0.0 ==> v <= w <= 0.0) by {
        if 0.0 < dampening < 1.0 { DecayKeepsSignAndShrinks(v, dampening); }
      }
      Iterate(w, dampening, n - 1)
  }

  /** Proper dampening keeps the direction of motion and strictly slows it. */
  lemma DecayKeepsSignAndShrinks(v: real, dampening: real)
    requires 0.0 < dampening < 1.0
    ensures v > 0.0 ==> 0.0 <= Decay(v, dampening) < v
    ensures v < 0.0 ==> v < Decay(v, dampening) <= 0.0
  {
    if v > 0.0 {
      assert v * dampening < v * 1.0;
      assert v * dampening > 0.0;
    } else if v < 0.0 {
      assert (-v) * dampening < (-v) * 1.0;
      assert (-v) * dampening > 0.0;
    }
  }

  /** Once at rest, a damped action stays at rest. */
  lemma {:induction false} RestIsFinal(dampening: real, n: nat)
    ensures Iterate(0.0, dampening, n) == 0.0
  {
    if n > 0 {
      RestIsFinal(dampening, n - 1);
    }
  }

  /** Every draw that does not snap takes at least 0.001 (1 - dampening) off
      the speed, so n draws bring any velocity with
      1000 |v| < (1 - dampening) n to rest. */
  lemma {:induction false} RestsWithin(v: real, dampening: real, n: nat)
    requires 0.0 < dampening < 1.0
    requires 1000.0 * Abs(v) < (1.0 - dampening) * (n as real)
    ensures Iterate(v, dampening, n) == 0.0
    decreases n
  {
    var w := Decay(v, dampening);
    if w == 0.0 {
      RestIsFinal(dampening, n - 1);
    } else {
      DecayStepSlows(v, dampening);
      assert (1.0 - dampening) * (n as real) - (1.0 - dampening)
          == (1.0 - dampening) * ((n - 1) as real);
      RestsWithin(w, dampening, n - 1);
    }
  }

  /** A draw that leaves the action moving takes at least
      0.001 (1 - dampening) off its speed. */
  lemma DecayStepSlows(v: real, dampening: real)
    requires 0.0 < dampening < 1.0
    requires Decay(v, dampening) != 0.0
    ensures 1000.0 * Abs(Decay(v, dampening)) <= 1000.0 * Abs(v) - (1.0 - dampening)
  {
    var a := Abs(v);
    var k := 1.0 - dampening;
    var w := Decay(v, dampening);
    assert w == v * dampening;
    var p := a * dampening;
    assert Abs(w) == p by {
      if v < 0.0 { assert v * dampening == -(a * dampening); }
    }
    assert p <= a by { MulMonotonic(dampening, 1.0, a); }
    assert a >= RestThreshold;
    assert a * k == a - p;
    MulNonnegative(1000.0 * a - 1.0, k);
    assert (1000.0 * a - 1.0) * k == 1000.0 * (a * k) - k;
  }

  /** A bound on the number of draws to rest, linear in the initial speed. */
  function DrawsToRest(v: real, dampening: real): nat
    requires 0.0 < dampening < 1.0
  {
    var k := (1000.0 * Abs(v) / (1.0 - dampening)).Floor;
    if k < 0 then 1 else k + 1
  }

  /** With no further impulses the velocity reaches exactly zero within
      DrawsToRest(v, dampening) draws, and stays there. */
  lemma ComesToRest(v: real, dampening: real, n: nat)
    requires 0.0 < dampening < 1.0
    requires n >= DrawsToRest(v, dampening)
    ensures Iterate(v, dampening, n) == 0.0
  {
    var q := 1000.0 * Abs(v) / (1.0 - dampening);
    DivNonnegative(1000.0 * Abs(v), 1.0 - dampening);
    assert q < (n as real);
    assert q * (1.0 - dampening) == 1000.0 * Abs(v);
    assert 1000.0 * Abs(v) < (1.0 - dampening) * (n as real);
    RestsWithin(v, dampening, n);
  }

  /** A unit flick with the default friction calls `behave` on 39 draws and
      is snapped to rest on the 40th (0.84^39 >= 0.001 > 0.84^40). */
  lemma UnitFlickRestsAfterFortyDraws()
    ensures Iterate(1.0, 1.0 - DefaultFriction, 39) != 0.0
    ensures Iterate(1.0, 1.0 - DefaultFriction, 40) == 0.0
  {
    var d := 1.0 - DefaultFriction;
    FlickFirstTen();
    FlickSecondTen();
    FlickThirdTen();
    FlickLastTen();
    IterateSplits(1.0, d, 10, 10);
    IterateSplits(1.0, d, 20, 10);
    IterateSplits(1.0, d, 30, 9);
    IterateSplits(1.0, d, 39, 1);
  }

  lemma FlickFirstTen()
    ensures Iterate(1.0, 0.84, 10) == 0.17490122876598091776
  {
    assert Iterate(1.0, 0.84, 10) == Iterate(0.84 * 0.84 * 0.84 * 0.84 * 0.84, 0.84, 5);
  }

  lemma FlickSecondTen()
    ensures Iterate(0.17490122876598091776, 0.84, 10)
         == 0.0305904398238499908683087849324518834176
  {
    assert Iterate(0.17490122876598091776, 0.84, 10)
        == Iterate(0.17490122876598091776 * 0.84 * 0.84 * 0.84 * 0.84 * 0.84, 0.84, 5);
  }

  lemma FlickThirdTen()
    ensures Iterate(0.0305904398238499908683087849324518834176, 0.84, 10)
         == 0.005350305513683160261610661509748513842281030080053773336576
  {
    assert Iterate(0.0305904398238499908683087849324518834176, 0.84, 10)
        == Iterate(0.0305904398238499908683087849324518834176 * 0.84 * 0.84 * 0.84 * 0.84 * 0.84, 0.84, 5);
  }

  lemma FlickLastTen()
    ensures Iterate(0.005350305513683160261610661509748513842281030080053773336576, 0.84, 9)
         == 0.001114017867400699357552287251182196715747409883110512589474470578368454590464
    ensures Iterate(0.001114017867400699357552287251182196715747409883110512589474470578368454590464, 0.84, 1)
         == 0.0
  {
    assert Iterate(0.005350305513683160261610661509748513842281030080053773336576, 0.84, 9)
        == Iterate(0.005350305513683160261610661509748513842281030080053773336576 * 0.84 * 0.84 * 0.84 * 0.84, 0.84, 5);
  }

  /** n + m draws are n draws followed by m more. */
  lemma {:induction false} IterateSplits(v: real, dampening: real, n: nat, m: nat)
    ensures Iterate(v, dampening, n + m) == Iterate(Iterate(v, dampening, n), dampening, m)
    decreases n
  {
    if n > 0 {
      IterateSplits(Decay(v, dampening), dampening, n - 1, m);
    }
  }

  class DampedAction {
    var velocity: real
    const dampening: real
    /** The velocities handed to `behave`, oldest first. */
    ghost var behaved: seq<real>

    /** `new DampedAction(p)`: at rest, with the default friction. */
    constructor Default()
      ensures velocity == 0.0 && dampening == 1.0 - DefaultFriction && behaved == []
    {
      velocity := 0.0;
      dampening := 1.0 - DefaultFriction;
      behaved := [];
    }

    /** `new DampedAction(p, friction)`. */
    constructor (friction: real)
      ensures velocity == 0.0 && dampening == 1.0 - friction && behaved == []
    {
      velocity := 0.0;
      dampening := 1.0 - friction;
      behaved := [];
    }

    /** Impulses add up until the next draw. */
    method Impulse(impulse: real)
      modifies this`velocity
      ensures velocity == old(velocity) + impulse
    {
      velocity := velocity + impulse;
    }

    /** `draw`: decay once; snap to rest or hand the decayed velocity to
        `behave` (returned, and logged). */
    method Tick() returns (behave: Option<real>)
      modifies this`velocity, this`behaved
      ensures velocity == Decay(old(velocity), dampening)
      ensures behave == (if Fires(old(velocity), dampening) then Some(velocity) else None)
      ensures behaved == old(behaved) + (if behave.Some? then [behave.value] else [])
    {
      if velocity == 0.0 {
        return None;
      }
      velocity := velocity * dampening;
      if Abs(velocity) < RestThreshold {
        velocity := 0.0;
        behave := None;
      } else {
        behave := Some(velocity);
        behaved := behaved + [velocity];
      }
    }

    /** `stop()`: come to rest at once. */
    method Stop()
      modifies this`velocity
      ensures velocity == 0.0
    {
      velocity := 0.0;
    }
  }
}
