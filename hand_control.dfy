/**
  The gesture classifier: a two-field latch (closed flag and last trigger
  time) fed one sample per camera frame. Each sample yields a clamped scale
  factor for the store and possibly one "next shape" event, with hysteresis
  between the closed and open readings and a strict one-second cooldown.
  The two landmark distances and the clock reading arrive as inputs.
*/
module HandControl {
  import opened Store

  /** Milliseconds that must pass, strictly, between two events. */
  const Cooldown: int := 1000
  /** Thumb-to-index distance below which the hand reads as a pinch. */
  const PinchClosed: real := 0.06
  /** Thumb-to-pinky span below which the hand reads as a fist. */
  const SpanClosed: real := 0.15
  /** Thumb-to-pinky span above which the hand reads as open. */
  const SpanOpen: real := 0.25

  /** The classifier's persistent state. */
  datatype Latch = Latch(isClosed: bool, lastTriggerTime: int)

  /** One frame's observation: whether a hand was seen, its two distances, and the clock. */
  datatype Sample = Sample(hasHand: bool, pinchDist: real, spanDist: real, now: int)

  /** What one frame produces: the factor handed to the store and whether an event fired. */
  datatype Reaction = Reaction(factor: real, fired: bool)

  function InitialLatch(): (l: Latch)
    ensures !l.isClosed && l.lastTriggerTime == 0
  {
    Latch(false, 0)
  }

  function Min(a: real, b: real): real { if a <= b then a else b }
  function Max(a: real, b: real): real { if a >= b then a else b }

  /** Math.max(0.5, Math.min(x, 2.0)). */
  function Clamp(x: real): (r: real)
    ensures 0.5 <= r <= 2.0
    ensures 0.5 <= x <= 2.0 ==> r == x
    ensures x < 0.5 ==> r == 0.5
    ensures x > 2.0 ==> r == 2.0
  {
    Max(0.5, Min(x, 2.0))
  }

  predicate IsHandClosed(pinchDist: real, spanDist: real)
  {
    pinchDist < PinchClosed || spanDist < SpanClosed
  }

  predicate IsHandOpen(spanDist: real)
  {
    spanDist > SpanOpen
  }

  /** The frame transition of processLandmarks, written as a function of the old latch. */
  function Step(l: Latch, s: Sample): (r: (Latch, Reaction))
    ensures 0.5 <= r.1.factor <= 2.0
    ensures r.1.factor == if s.hasHand then Clamp(0.8 + s.spanDist * 2.0) else 1.0
    ensures r.1.fired <==>
      s.hasHand && l.isClosed && s.spanDist > 0.25 && s.now - l.lastTriggerTime > 1000
    ensures r.0.lastTriggerTime == if r.1.fired then s.now else l.lastTriggerTime
    ensures !s.hasHand ==> r.0 == l
    ensures s.hasHand && (s.pinchDist < 0.06 || s.spanDist < 0.15) ==> r.0.isClosed
    ensures s.hasHand && !(s.pinchDist < 0.06 || s.spanDist < 0.15) && s.spanDist > 0.25 ==> !r.0.isClosed
    ensures s.hasHand && !(s.pinchDist < 0.06 || s.spanDist < 0.15) && s.spanDist <= 0.25 ==>
      r.0.isClosed == l.isClosed
  {
    if !s.hasHand then
      (l, Reaction(Clamp(1.0), false))
    else
      var currentFactor := 0.8 + s.spanDist * 2.0;
      var isHandClosed := IsHandClosed(s.pinchDist, s.spanDist);
      var isHandOpen := IsHandOpen(s.spanDist);
      var fired := l.isClosed && isHandOpen && s.now - l.lastTriggerTime > Cooldown;
      var last := if fired then s.now else l.lastTriggerTime;
      var closed := if isHandClosed then true else if isHandOpen then false else l.isClosed;
      (Latch(closed, last), Reaction(Clamp(currentFactor), fired))
  }

  /**
    A pinch with the fingers spread fires (when armed and out of cooldown)
    and still leaves the latch closed, because the closed reading wins.
  */
  lemma PinchWhileSpreadFiresAndStaysClosed(l: Latch, s: Sample)
    requires s.hasHand && l.isClosed && s.pinchDist < 0.06 && s.spanDist > 0.25
    requires s.now - l.lastTriggerTime > 1000
    ensures Step(l, s).1.fired && Step(l, s).0.isClosed
  {
  }

  /** Feeds samples one by one; yields the final latch and the clock readings at which events fired. */
  function Run(l: Latch, samples: seq<Sample>): (r: (Latch, seq<int>))
    ensures |r.1| <= |samples|
    decreases |samples|
  {
    if samples == [] then (l, [])
    else
      var (l', reaction) := Step(l, samples[0]);
      var (final, times) := Run(l', samples[1..]);
      (final, (if reaction.fired then [samples[0].now] else []) + times)
  }

  /**
    Events are spaced by more than the cooldown: the first comes more than
    1000 ms after the latch's last trigger time, and each later one more
    than 1000 ms after the one before; the final latch remembers the last.
  */
  lemma {:induction false} RunEventsAreSpaced(l: Latch, samples: seq<Sample>)
    ensures var times := Run(l, samples).1;
      (|times| > 0 ==> times[0] - l.lastTriggerTime > Cooldown) &&
      (forall i :: 0 < i < |times| ==> times[i] - times[i - 1] > Cooldown) &&
      Run(l, samples).0.lastTriggerTime == if |times| == 0 then l.lastTriggerTime else times[|times| - 1]
    decreases |samples|
  {
    if samples != [] {
      var (l', reaction) := Step(l, samples[0]);
      RunEventsAreSpaced(l', samples[1..]);
      var rest := Run(l', samples[1..]).1;
      var times := Run(l, samples).1;
      if reaction.fired {
        assert times == [samples[0].now] + rest;
        forall i | 0 < i < |times|
          ensures times[i] - times[i - 1] > Cooldown
        {
          if i > 1 {
            assert times[i] == rest[i - 1] && times[i - 1] == rest[i - 2];
          }
        }
      } else {
        assert times == rest;
      }
    }
  }

  /** A second open reading within the cooldown of an event fires nothing. */
  lemma {:induction false} NoEventWithinCooldown(l: Latch, s1: Sample, s2: Sample)
    requires Step(l, s1).1.fired
    requires s2.now - s1.now <= Cooldown
    ensures !Step(Step(l, s1).0, s2).1.fired
  {
  }

  /**
    A closed reading, then an open one after the cooldown: exactly one
    event; a further open reading straight after fires nothing more.
  */
  lemma CloseThenOpenFiresOnce(l: Latch, closed: Sample, open1: Sample, open2: Sample)
    requires closed.hasHand && IsHandClosed(closed.pinchDist, closed.spanDist) && !IsHandOpen(closed.spanDist)
    requires open1.hasHand && !IsHandClosed(open1.pinchDist, open1.spanDist) && IsHandOpen(open1.spanDist)
    requires open1.now - l.lastTriggerTime > Cooldown
    requires open2.hasHand && IsHandOpen(open2.spanDist) && open2.now - open1.now <= Cooldown
    ensures Run(l, [closed, open1, open2]).1 == [open1.now]
  {
    var l1 := Step(l, closed).0;
    var l2 := Step(l1, open1).0;
    assert !Step(l, closed).1.fired && l1.isClosed && l1.lastTriggerTime == l.lastTriggerTime;
    assert Step(l1, open1).1.fired && !l2.isClosed;
    assert !Step(l2, open2).1.fired;
    assert [closed, open1, open2][1..] == [open1, open2];
    assert [open1, open2][1..] == [open2];
    assert Run(l2, [open2]).1 == [];
    assert Run(l1, [open1, open2]).1 == [open1.now];
  }

  /** The gesture side effects on the store: nextShape() when an event fired, then setHandFactor(factor). */
  function Dispatch(app: AppState, r: Reaction): (app': AppState)
    ensures app'.handFactor == r.factor && app'.showUI == app.showUI
    ensures app'.currentShape == if r.fired then Successor(app.currentShape) else app.currentShape
  {
    NextShapeFollowsOrder(app);
    SetHandFactor(if r.fired then NextShape(app) else app, r.factor)
  }

  /** The classifier's state as the controller object holds it. */
  class HandController {
    var isClosed: bool
    var lastTriggerTime: int

    constructor ()
      ensures isClosed == false && lastTriggerTime == 0
    {
      isClosed := false;
      lastTriggerTime := 0;
    }

    function State(): Latch
      reads this
    {
      Latch(isClosed, lastTriggerTime)
    }

    /** processLandmarks for one frame; the two distances and Date.now() are inputs. */
    method ProcessLandmarks(hasHand: bool, pinchDist: real, spanDist: real, now: int)
      returns (factor: real, fired: bool)
      modifies this
      ensures (State(), Reaction(factor, fired)) == Step(old(State()), Sample(hasHand, pinchDist, spanDist, now))
      ensures !hasHand ==> isClosed == old(isClosed) && lastTriggerTime == old(lastTriggerTime) && !fired && factor == 1.0
      ensures fired <==> hasHand && old(isClosed) && spanDist > SpanOpen && now - old(lastTriggerTime) > Cooldown
      ensures lastTriggerTime == if fired then now else old(lastTriggerTime)
      ensures 0.5 <= factor <= 2.0
    {
      var currentFactor := 1.0;
      fired := false;
      if hasHand {
        currentFactor := 0.8 + spanDist * 2.0;
        var isHandClosed := pinchDist < PinchClosed || spanDist < SpanClosed;
        var isHandOpen := spanDist > SpanOpen;
        if isClosed && isHandOpen {
          if now - lastTriggerTime > Cooldown {
            fired := true;
            lastTriggerTime := now;
          }
        }
        if isHandClosed {
          isClosed := true;
        } else if isHandOpen {
          isClosed := false;
        }
      }
      factor := Max(0.5, Min(currentFactor, 2.0));
    }
  }
}
