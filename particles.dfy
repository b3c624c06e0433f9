/**
  The blend engine of the particle component: the current position and
  colour buffers move a fixed fraction of the way towards the target
  buffers every frame, a shape change swaps only the targets, and the
  cloud's scale follows the hand factor with its own smoothing.
*/
module Particles {
  import opened Geometry
  import opened Shapes
  import TextPoints
  import ShapeBuffers

  /** lerpSpeed: the fraction of the remaining distance covered per frame. */
  const LerpSpeed: real := 0.08

  /** One frame of blending for one component: current += (target - current) * 0.08. */
  function Approach(current: real, target: real): (r: real)
    ensures current <= target ==> current <= r <= target
    ensures target <= current ==> target <= r <= current
  {
    current + (target - current) * LerpSpeed
  }

  /** The distance to the target shrinks to exactly 0.92 of what it was. */
  lemma ApproachContracts(current: real, target: real)
    ensures Approach(current, target) - target == 0.92 * (current - target)
  {
  }

  /** A component already at its target stays there. */
  lemma ApproachFixed(target: real)
    ensures Approach(target, target) == target
  {
  }

  /** n frames of blending with a fixed target. */
  function ApproachN(current: real, target: real, n: nat): real
  {
    if n == 0 then current else Approach(ApproachN(current, target, n - 1), target)
  }

  function Pow(x: real, n: nat): real
  {
    if n == 0 then 1.0 else x * Pow(x, n - 1)
  }

  /** 0 < 0.92^n <= 1. */
  lemma {:induction false} PowBounds(n: nat)
    ensures 0.0 < Pow(0.92, n) <= 1.0
  {
    if n > 0 {
      PowBounds(n - 1);
    }
  }

  /** After n frames the distance to a fixed target is 0.92^n times the original distance. */
  lemma {:induction false} ApproachNDistance(current: real, target: real, n: nat)
    ensures ApproachN(current, target, n) - target == Pow(0.92, n) * (current - target)
  {
    if n > 0 {
      ApproachNDistance(current, target, n - 1);
      ApproachContracts(ApproachN(current, target, n - 1), target);
      assert ApproachN(current, target, n) - target == 0.92 * (Pow(0.92, n - 1) * (current - target));
    }
  }

  /** x^(a + b) = x^a * x^b. */
  lemma {:induction false} PowAdd(x: real, a: nat, b: nat)
    ensures Pow(x, a + b) == Pow(x, a) * Pow(x, b)
  {
    if a > 0 {
      PowAdd(x, a - 1, b);
    }
  }

  /** x^(a * b) = (x^a)^b. */
  lemma {:induction false} PowMul(x: real, a: nat, b: nat)
    ensures Pow(x, a * b) == Pow(Pow(x, a), b)
  {
    if b > 0 {
      PowMul(x, a, b - 1);
      assert a * b == a + a * (b - 1);
      PowAdd(x, a, a * (b - 1));
    }
  }

  /** Powers are monotone in the base on non-negative reals. */
  lemma {:induction false} PowMono(x: real, y: real, n: nat)
    requires 0.0 <= x <= y
    ensures 0.0 <= Pow(x, n) <= Pow(y, n)
  {
    if n > 0 {
      PowMono(x, y, n - 1);
      assert x * Pow(x, n - 1) <= y * Pow(x, n - 1) <= y * Pow(y, n - 1);
    }
  }

  /** 200 frames leave less than a millionth of the distance: 0.92^200 < 10^-6. */
  lemma Pow200()
    ensures Pow(0.92, 200) < 0.000001
  {
    assert Pow(0.92, 10) < 0.44;
    assert Pow(0.44, 4) < 0.04;
    assert Pow(0.04, 5) < 0.000001;
    PowMul(0.92, 10, 20);
    PowMono(Pow(0.92, 10), 0.44, 20);
    PowMul(0.44, 4, 5);
    PowMono(Pow(0.44, 4), 0.04, 5);
  }

  function Abs(x: real): real { if x < 0.0 then -x else x }

  /** From 200 frames on the factor 0.92^n stays below 10^-6. */
  lemma PowTail(n: nat)
    requires n >= 200
    ensures 0.0 < Pow(0.92, n) < 0.000001
  {
    Pow200();
    PowAdd(0.92, 200, n - 200);
    PowBounds(n - 200);
    PowBounds(n);
    Within(Pow(0.92, n - 200), Pow(0.92, 200));
  }

  /** From 200 frames on, with a fixed target, less than a millionth of the starting distance is left. */
  lemma Converges200(current: real, target: real, n: nat)
    requires current != target && n >= 200
    ensures Abs(ApproachN(current, target, n) - target) < 0.000001 * Abs(current - target)
  {
    ApproachNDistance(current, target, n);
    PowTail(n);
    ScaledAbs(Pow(0.92, n), current - target);
  }

  /** |p * x| = p * |x| < 10^-6 * |x| for 0 < p < 10^-6 and x != 0. */
  lemma ScaledAbs(p: real, x: real)
    requires 0.0 < p < 0.000001 && x != 0.0
    ensures Abs(p * x) < 0.000001 * Abs(x)
  {
    if x < 0.0 {
      assert (0.000001 - p) * (-x) > 0.0;
      assert p * x < 0.0;
    } else {
      assert (0.000001 - p) * x > 0.0;
      assert p * x > 0.0;
    }
  }

  /** After n frames a component lies between where it started and its target. */
  lemma ApproachNBetween(current: real, target: real, n: nat)
    ensures current <= target ==> current <= ApproachN(current, target, n) <= target
    ensures target <= current ==> target <= ApproachN(current, target, n) <= current
  {
    ApproachNDistance(current, target, n);
    PowBounds(n);
    var p := Pow(0.92, n);
    if current <= target {
      assert p * (target - current) <= target - current;
    } else {
      assert p * (current - target) <= current - target;
    }
  }

  /** One frame of blending for a whole buffer. */
  function Blend(current: seq<real>, target: seq<real>): (r: seq<real>)
    requires |current| == |target|
    ensures |r| == |current|
  {
    seq(|current|, i requires 0 <= i < |current| => Approach(current[i], target[i]))
  }

  /** n frames of blending for a whole buffer with fixed targets. */
  function BlendN(current: seq<real>, target: seq<real>, n: nat): (r: seq<real>)
    requires |current| == |target|
    ensures |r| == |current|
  {
    if n == 0 then current else Blend(BlendN(current, target, n - 1), target)
  }

  /** Each component of a buffer blended for n frames has been blended on its own for n frames. */
  lemma {:induction false} BlendNAt(current: seq<real>, target: seq<real>, n: nat, i: nat)
    requires |current| == |target| && i < |current|
    ensures BlendN(current, target, n)[i] == ApproachN(current[i], target[i], n)
  {
    if n > 0 {
      BlendNAt(current, target, n - 1, i);
    }
  }

  /** A buffer equal to its target stays equal to it. */
  lemma BlendFixed(target: seq<real>)
    ensures Blend(target, target) == target
  {
  }

  /** THREE.MathUtils.lerp(x, y, t) = (1 - t) x + t y. */
  function Lerp(x: real, y: real, t: real): (r: real)
    ensures 0.0 <= t <= 1.0 && x <= y ==> x <= r <= y
    ensures 0.0 <= t <= 1.0 && y <= x ==> y <= r <= x
  {
    Within(t, y - x);
    assert (1.0 - t) * x + t * y == x + t * (y - x);
    (1.0 - t) * x + t * y
  }

  /** A fraction t in [0, 1] of a distance d lies between 0 and d. */
  lemma Within(t: real, d: real)
    ensures 0.0 <= t <= 1.0 && 0.0 <= d ==> 0.0 <= t * d <= d
    ensures 0.0 <= t <= 1.0 && d <= 0.0 ==> d <= t * d <= 0.0
  {
    if 0.0 <= t <= 1.0 {
      assert (1.0 - t) * d == d - t * d;
    }
  }

  /** The smoothed scale, lerp(scale, handFactor, 0.1). */
  function Smooth(scale: real, handFactor: real): (r: real)
    ensures r - handFactor == 0.9 * (scale - handFactor)
  {
    Lerp(scale, handFactor, 0.1)
  }

  /** Smoothing keeps the scale in [0.5, 2]. */
  lemma SmoothBounds(scale: real, handFactor: real)
    requires 0.5 <= scale <= 2.0 && 0.5 <= handFactor <= 2.0
    ensures 0.5 <= Smooth(scale, handFactor) <= 2.0
  {
  }

  /** The size of particle i from its draw: 0.5 + u * 0.5. */
  function Size(u: Unit): (s: real)
    ensures 0.5 <= s < 1.0
  {
    0.5 + u * 0.5
  }

  /** The sizes of n particles, particle i from draw i. */
  function Sizes(rand: Random, n: nat): (r: seq<real>)
    ensures |r| == n
    ensures forall i :: 0 <= i < n ==> 0.5 <= r[i] < 1.0
  {
    var r := seq(n, i requires 0 <= i < n => Size(rand(i)));
    assert forall i :: 0 <= i < n ==> r[i] == Size(rand(i));
    r
  }

  /** The sizes loop: particle i gets the size of draw i. */
  method FillSizes(rand: Random, count: nat) returns (sizes: array<real>)
    ensures fresh(sizes) && sizes[..] == Sizes(rand, count)
  {
    sizes := new real[count];
    for i := 0 to count
      invariant sizes[..i] == Sizes(rand, i)
    {
      sizes[i] := 0.5 + rand(i) * 0.5;
      assert sizes[..i + 1] == sizes[..i] + [Size(rand(i))];
    }
    assert sizes[..] == sizes[..count];
  }

  /** A fresh copy of a buffer: Float32Array.from. */
  method CopyOf(a: array<real>) returns (b: array<real>)
    ensures fresh(b) && b[..] == a[..]
  {
    b := new real[a.Length](i requires 0 <= i < a.Length reads a => a[i]);
  }

  /**
    The geometry's user data (currentPos, targetPos, currentCol,
    targetCol), the particle sizes and the cloud's scale.
  */
  class ParticleSystem {
    var currentPos: array<real>
    var targetPos: array<real>
    var currentCol: array<real>
    var targetCol: array<real>
    var sizes: array<real>
    var scale: real

    /**
      All four buffers have one length, three components per particle and
      one size each; the buffers a frame writes are distinct from each
      other and from the ones it reads.
    */
    predicate Valid()
      reads this
    {
      currentPos.Length == targetPos.Length == currentCol.Length == targetCol.Length == 3 * sizes.Length &&
      currentPos != currentCol &&
      currentPos != targetPos && currentPos != targetCol && currentCol != targetPos && currentCol != targetCol &&
      sizes != currentPos && sizes != currentCol
    }

    /**
      The geometry's buffers from the memoised initial ones: current and
      target are copies of the same positions and colours, and there is
      one size per particle.
    */
    constructor (initialPos: array<real>, initialCol: array<real>, sizeRand: Random)
      requires initialPos.Length == initialCol.Length && initialPos.Length % 3 == 0
      ensures Valid()
      ensures fresh(currentPos) && fresh(targetPos) && fresh(currentCol) && fresh(targetCol) && fresh(sizes)
      ensures currentPos[..] == targetPos[..] == initialPos[..]
      ensures currentCol[..] == targetCol[..] == initialCol[..]
      ensures sizes[..] == Sizes(sizeRand, initialPos.Length / 3)
      ensures scale == 1.0
    {
      var count := initialPos.Length / 3;
      var sz := FillSizes(sizeRand, count);
      var cp := CopyOf(initialPos);
      var tp := CopyOf(initialPos);
      var cc := CopyOf(initialCol);
      var tc := CopyOf(initialCol);
      sizes, currentPos, targetPos, currentCol, targetCol := sz, cp, tp, cc, tc;
      scale := 1.0;
    }

    /** The target-replacing effect: the new shape's buffers become the targets; nothing else changes. */
    method Retarget(shape: ShapeType, image: Option<seq<TextPoints.byte>>, m: Maths, posRand: Random,
                    colRand: Random, toRgb: ShapeBuffers.Colour -> Vec3)
      requires Valid() && currentPos.Length == 3 * Count
      modifies this`targetPos, this`targetCol
      ensures Valid()
      ensures targetPos[..] == ShapeBuffers.Positions(shape, image, m, posRand)
      ensures targetCol[..] == ShapeBuffers.Colours(shape, colRand, toRgb)
      ensures currentPos == old(currentPos) && currentCol == old(currentCol) && sizes == old(sizes) && scale == old(scale)
      ensures currentPos[..] == old(currentPos[..]) && currentCol[..] == old(currentCol[..])
    {
      var newPos := ShapeBuffers.GetPointsForShape(shape, image, m, posRand);
      var newCol := ShapeBuffers.GetColorsForShape(shape, colRand, toRgb);
      targetPos := newPos;
      targetCol := newCol;
    }

    /**
      One frame: the scale is smoothed towards the hand factor, and every
      component of the current buffers moves 0.08 of the way to its target.
      The targets, the sizes and every length stay as they were.
    */
    method Tick(handFactor: real)
      requires Valid()
      modifies this`scale, currentPos, currentCol
      ensures Valid()
      ensures scale == Smooth(old(scale), handFactor)
      ensures currentPos[..] == Blend(old(currentPos[..]), targetPos[..])
      ensures currentCol[..] == Blend(old(currentCol[..]), targetCol[..])
      ensures targetPos[..] == old(targetPos[..]) && targetCol[..] == old(targetCol[..]) && sizes[..] == old(sizes[..])
    {
      scale := (1.0 - 0.1) * scale + 0.1 * handFactor;
      for i := 0 to currentPos.Length
        invariant scale == Smooth(old(scale), handFactor)
        invariant forall j :: 0 <= j < i ==> currentPos[j] == Approach(old(currentPos[j]), targetPos[j])
        invariant forall j :: i <= j < currentPos.Length ==> currentPos[j] == old(currentPos[j])
        invariant forall j :: 0 <= j < i ==> currentCol[j] == Approach(old(currentCol[j]), targetCol[j])
        invariant forall j :: i <= j < currentCol.Length ==> currentCol[j] == old(currentCol[j])
        invariant targetPos[..] == old(targetPos[..]) && targetCol[..] == old(targetCol[..]) && sizes[..] == old(sizes[..])
      {
        currentPos[i] := currentPos[i] + (targetPos[i] - currentPos[i]) * LerpSpeed;
        currentCol[i] := currentCol[i] + (targetCol[i] - currentCol[i]) * LerpSpeed;
      }
      assert currentPos[..] == Blend(old(currentPos[..]), targetPos[..]);
      assert currentCol[..] == Blend(old(currentCol[..]), targetCol[..]);
    }
  }

  /**
    Mounting the component: the memo builds the system from the initial
    shape's positions and colours, then the target-replacing effect runs
    once after the first commit and draws that shape's buffers again. The
    two runs take fresh random draws, so afterwards the targets are the
    second draw while the current buffers hold the first.
  */
  method Mount(shape: ShapeType, image: Option<seq<TextPoints.byte>>, m: Maths, posRand: Random,
               colRand: Random, toRgb: ShapeBuffers.Colour -> Vec3, sizeRand: Random,
               posRand2: Random, colRand2: Random) returns (system: ParticleSystem)
    ensures fresh(system) && system.Valid() && system.currentPos.Length == 3 * Count
    ensures system.currentPos[..] == ShapeBuffers.Positions(shape, image, m, posRand)
    ensures system.currentCol[..] == ShapeBuffers.Colours(shape, colRand, toRgb)
    ensures system.targetPos[..] == ShapeBuffers.Positions(shape, image, m, posRand2)
    ensures system.targetCol[..] == ShapeBuffers.Colours(shape, colRand2, toRgb)
    ensures system.sizes[..] == Sizes(sizeRand, Count)
    ensures system.scale == 1.0
  {
    var initialPos := ShapeBuffers.GetPointsForShape(shape, image, m, posRand);
    var initialCol := ShapeBuffers.GetColorsForShape(shape, colRand, toRgb);
    system := new ParticleSystem(initialPos, initialCol, sizeRand);
    system.Retarget(shape, image, m, posRand2, colRand2, toRgb);
  }

  /** A buffer that has reached its target stays there for as many frames as the target stays. */
  lemma AtRestStays(target: seq<real>, n: nat)
    ensures BlendN(target, target, n) == target
  {
    if n > 0 {
      AtRestStays(target, n - 1);
      BlendFixed(target);
    }
  }
}
