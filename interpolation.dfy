/** The timed-animation lifecycle of `PeasyCam.AbstractInterp`, and the
    single slot an `InterpolationManager` keeps for each pose component.

    An animation is created with its start and end values and its duration;
    `start()` stamps it with the clock and makes it receive ticks; each tick
    computes t = (now - startTime) / duration and either finishes (t > 0.99)
    or eases.  Receiving ticks is modelled as occupying the manager's slot. */
module Interpolation {
  import opened Wrappers

  /** An animation finishes on the first tick whose t exceeds this. */
  const CompletionPoint: real := 0.99

  /** One animation of a pose component; `startTime` is 0 until `start()`
      stamps it, as the JVM initialises the field. */
  datatype Interp<T> = Interp(from: T, to: T, timeInMillis: real, startTime: real)
  {
    predicate Timed() { timeInMillis > 0.0 }

    /** The animation as `start()` leaves it at time `now`. */
    function StartedAt(now: int): (i: Interp<T>)
      ensures i.from == from && i.to == to && i.timeInMillis == timeInMillis
      ensures i.startTime == now as real
    {
      this.(startTime := now as real)
    }
  }

  /** The parameter t that a tick at `now` computes. */
  function Progress<T>(i: Interp<T>, now: int): (t: real)
    requires i.Timed()
    ensures now as real == i.startTime ==> t == 0.0
    ensures now as real >= i.startTime ==> t >= 0.0
  {
    (now as real - i.startTime) / i.timeInMillis
  }

  /** Whether a tick at `now` finishes the animation. */
  predicate Completes<T>(i: Interp<T>, now: int)
    requires i.Timed()
  {
    Progress(i, now) > CompletionPoint
  }

  /** A tick finishes the animation exactly when more than 99% of its
      duration has elapsed since it started. */
  lemma CompletesIffElapsed<T>(i: Interp<T>, now: int)
    requires i.Timed()
    ensures Completes(i, now) <==> now as real - i.startTime > CompletionPoint * i.timeInMillis
  {
    var e := now as real - i.startTime;
    assert Progress(i, now) * i.timeInMillis == e;
    if Progress(i, now) > CompletionPoint {
      assert Progress(i, now) * i.timeInMillis > CompletionPoint * i.timeInMillis;
    } else {
      assert Progress(i, now) * i.timeInMillis <= CompletionPoint * i.timeInMillis;
    }
  }

  /** With the default 300 ms, a tick 297 ms after the start still eases
      (t = 0.99 is not past the completion point); one at 298 ms finishes. */
  lemma DefaultDurationFinishesAt298<T>(i: Interp<T>, s: int)
    requires i.timeInMillis == 300.0 && i.startTime == s as real
    ensures !Completes(i, s + 297)
    ensures Completes(i, s + 298)
  {
    CompletesIffElapsed(i, s + 297);
    CompletesIffElapsed(i, s + 298);
  }

  /** A tick that is not finishing sees t in [0, 0.99] once the clock has
      reached the start time. */
  lemma RunningProgressInRange<T>(i: Interp<T>, now: int)
    requires i.Timed() && now as real >= i.startTime && !Completes(i, now)
    ensures 0.0 <= Progress(i, now) <= CompletionPoint
  {
  }

  /** What a slot holds after one tick: a finishing animation leaves it. */
  function AfterTick<T>(held: Option<Interp<T>>, now: int): (next: Option<Interp<T>>)
    requires held.Some? ==> held.value.Timed()
    ensures next.Some? <==> held.Some? && !Completes(held.value, now)
    ensures next.Some? ==> next == held
  {
    match held
    case Some(i) => if Completes(i, now) then None else held
    case None => None
  }

  /** The slot of one `InterpolationManager`: the animation, if any, that
      currently receives ticks.  Starting one replaces whatever was held, so
      no two animations of the same component ever run together. */
  class InterpolationManager<T> {
    var held: Option<Interp<T>>

    ghost predicate Valid()
      reads this
    {
      held.Some? ==> held.value.Timed()
    }

    constructor ()
      ensures Valid() && held == None
    {
      held := None;
    }

    /** `startInterpolation(i)`: cancel the held animation, start i. */
    method StartInterpolation(i: Interp<T>, now: int)
      requires i.Timed()
      modifies this
      ensures Valid() && held == Some(i.StartedAt(now))
    {
      held := Some(i.StartedAt(now));
    }

    /** `cancelInterpolation()`, and an animation's own `cancel()` when it
        finishes: the slot is emptied and nothing receives its ticks. */
    method CancelInterpolation()
      modifies this
      ensures Valid() && held == None
    {
      held := None;
    }
  }
}
