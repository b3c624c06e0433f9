/**
  generateFireworksPoints: three bursts of 40 trails each, then background
  sky points up to Count. Math.random arrives as rand (rand(k) is the k-th
  draw of the call), trigonometry and pow as m. What is modelled exactly is
  the index structure: how many points each burst contributes, where it sits
  in the list and which draws feed which point.
*/
module FireworksPoints {
  import opened Geometry

  const NumTrails: nat := 40

  /** A burst: its centre, its nominal point count and its size. */
  datatype Burst = Burst(centre: Vec3, count: nat, scale: real)

  const MainBurst := Burst(Vec3(0.0, 10.0, 0.0), FwBurst1, 1.2)
  const LeftBurst := Burst(Vec3(-20.0, -5.0, -5.0), FwBurst2, 0.8)
  const RightBurst := Burst(Vec3(20.0, -2.0, 5.0), FwBurst3, 0.7)

  /** Points per trail, floor(count / 40). */
  function PtsPerTrail(b: Burst): nat
  {
    b.count / NumTrails
  }

  /** The points a burst actually contributes: 40 trails of floor(count / 40). */
  function BurstSize(b: Burst): nat
  {
    NumTrails * PtsPerTrail(b)
  }

  /** The unit direction with polar angle phi and azimuth theta. */
  function Direction(m: Maths, theta: real, phi: real): Vec3
  {
    Vec3(m.sin(phi) * m.cos(theta), m.sin(phi) * m.sin(theta), m.cos(phi))
  }

  /**
    The point at a given progress along a trail of the given direction and
    length: out along the direction by progress^0.8 of the length, dropped
    by progress^2 times eight times the burst's scale, moved to the centre.
  */
  function TrailPointAt(m: Maths, b: Burst, dir: Vec3, len: real, progress: real): Vec3
  {
    var p := Scale(dir, m.pow(progress, 0.8) * len);
    Add(p.(y := p.y - m.pow(progress, 2.0) * (8.0 * b.scale)), b.centre)
  }

  /** A point of a trail, from the trail's three draws and its progress along the trail. */
  function TrailPoint(m: Maths, b: Burst, u1: Unit, u2: Unit, u3: Unit, progress: real): Vec3
  {
    TrailPointAt(m, b, Direction(m, u1 * Pi * 2.0, m.acos(u2 * 2.0 - 1.0)), (12.0 + u3 * 8.0) * b.scale, progress)
  }

  /**
    Point j of a burst whose first draw is number k: it is point j % n of
    trail j / n, n being the points per trail, and trail t uses draws
    k + 3t, k + 3t + 1 and k + 3t + 2.
  */
  function BurstPoint(m: Maths, rand: Random, k: nat, b: Burst, j: nat): Vec3
    requires j < BurstSize(b)
  {
    var n := PtsPerTrail(b);
    var t := j / n;
    TrailPoint(m, b, rand(k + 3 * t), rand(k + 3 * t + 1), rand(k + 3 * t + 2), (j % n) as real / n as real)
  }

  lemma DivModOf(t: nat, i: nat, n: nat)
    requires i < n
    ensures (t * n + i) / n == t && (t * n + i) % n == i
  {
    var j := t * n + i;
    var q, r := j / n, j % n;
    assert j == q * n + r;
    if q < t {
      MulMonotone(q + 1, t, n);
      assert false;
    } else if q > t {
      MulMonotone(t + 1, q, n);
      assert false;
    }
  }

  lemma MulMonotone(a: int, b: int, n: nat)
    requires a <= b
    ensures a * n <= b * n
  {
    assert b * n - a * n == (b - a) * n;
  }

  /** The first i points of a trail of n points, point j at progress j / n. */
  function TrailPoints(m: Maths, b: Burst, u1: Unit, u2: Unit, u3: Unit, n: nat, i: nat): (r: seq<Vec3>)
    requires i <= n
    ensures |r| == i
  {
    seq(i, j requires 0 <= j < i => TrailPoint(m, b, u1, u2, u3, j as real / n as real))
  }

  /** The first t trails of a burst whose first draw is number k. */
  function BurstTrails(m: Maths, rand: Random, k: nat, b: Burst, t: nat): seq<Vec3>
    // m is named in the measure so that a literal trail count never unfolds every trail
    decreases t, m
  {
    if t == 0 then []
    else
      var n := PtsPerTrail(b);
      var u := k + 3 * (t - 1);
      BurstTrails(m, rand, k, b, t - 1) + TrailPoints(m, b, rand(u), rand(u + 1), rand(u + 2), n, n)
  }

  lemma {:induction false} BurstTrailsLength(m: Maths, rand: Random, k: nat, b: Burst, t: nat)
    ensures |BurstTrails(m, rand, k, b, t)| == t * PtsPerTrail(b)
  {
    if t > 0 {
      BurstTrailsLength(m, rand, k, b, t - 1);
      assert t * PtsPerTrail(b) == (t - 1) * PtsPerTrail(b) + PtsPerTrail(b);
    }
  }

  /** Point j of the first t trails is the point BurstPoint describes by index arithmetic. */
  lemma {:induction false} BurstTrailsAt(m: Maths, rand: Random, k: nat, b: Burst, t: nat, j: nat)
    requires t <= NumTrails && j < t * PtsPerTrail(b)
    ensures j < BurstSize(b) && j < |BurstTrails(m, rand, k, b, t)|
    ensures BurstTrails(m, rand, k, b, t)[j] == BurstPoint(m, rand, k, b, j)
  {
    var n := PtsPerTrail(b);
    BurstTrailsLength(m, rand, k, b, t);
    MulMonotone(t, NumTrails, n);
    if j < (t - 1) * n {
      BurstTrailsAt(m, rand, k, b, t - 1, j);
    } else {
      var i := j - (t - 1) * n;
      assert t * n == (t - 1) * n + n;
      DivModOf(t - 1, i, n);
    }
  }

  /** A trail point computed from the trail's direction and length is the one its draws determine. */
  lemma TrailPointFromDraws(m: Maths, b: Burst, dir: Vec3, len: real, progress: real, u1: Unit, u2: Unit, u3: Unit)
    requires dir == Direction(m, u1 * Pi * 2.0, m.acos(u2 * 2.0 - 1.0)) && len == (12.0 + u3 * 8.0) * b.scale
    ensures TrailPointAt(m, b, dir, len, progress) == TrailPoint(m, b, u1, u2, u3, progress)
  {
  }

  /**
    One trail of createBurst, from its three draws: the direction and length
    of the trail, then its n points, point i at progress i / n.
  */
  method Trail(m: Maths, b: Burst, u1: Unit, u2: Unit, u3: Unit, n: nat) returns (trail: seq<Vec3>)
    ensures trail == TrailPoints(m, b, u1, u2, u3, n, n)
  {
    var theta := u1 * Pi * 2.0;
    var phi := m.acos((u2 * 2.0) - 1.0);
    var len := (12.0 + u3 * 8.0) * b.scale;
    var dir := Direction(m, theta, phi);
    trail := [];
    for i := 0 to n
      invariant trail == TrailPoints(m, b, u1, u2, u3, n, i)
    {
      var progress := i as real / n as real;
      var p := TrailPointAt(m, b, dir, len, progress);
      TrailPointFromDraws(m, b, dir, len, progress, u1, u2, u3);
      trail := trail + [p];
    }
  }

  lemma BurstTrailsStep(m: Maths, rand: Random, k: nat, b: Burst, t: nat)
    ensures BurstTrails(m, rand, k, b, t + 1) == BurstTrails(m, rand, k, b, t) + TrailPoints(m, b, rand(k + 3 * t), rand(k + 3 * t + 1), rand(k + 3 * t + 2), PtsPerTrail(b), PtsPerTrail(b))
  {
  }

  /** createBurst: appends 40 trails to the points and consumes three draws per trail. */
  method CreateBurst(m: Maths, rand: Random, points: seq<Vec3>, k: nat, b: Burst)
    returns (out: seq<Vec3>, k': nat)
    ensures out == points + BurstTrails(m, rand, k, b, NumTrails) && k' == k + 3 * NumTrails
    ensures |out| == |points| + BurstSize(b)
  {
    var burst := [];
    k' := k;
    var ptsPerTrail := b.count / NumTrails;
    for t := 0 to NumTrails
      invariant burst == BurstTrails(m, rand, k, b, t) && k' == k + 3 * t
    {
      var trail := Trail(m, b, rand(k'), rand(k' + 1), rand(k' + 2), ptsPerTrail);
      BurstTrailsStep(m, rand, k, b, t);
      burst := burst + trail;
      k' := k' + 3;
    }
    out := points + burst;
    BurstTrailsLength(m, rand, k, b, NumTrails);
  }

  /** Where the trails end and the background sky begins: 4000 + 2480 + 2480. */
  const SkyStart: nat := 8960

  /** A background point from its three draws: a 120 x 120 x 80 box around the origin. */
  function SkyPoint(u1: Unit, u2: Unit, u3: Unit): (p: Vec3)
    ensures -60.0 <= p.x < 60.0 && -60.0 <= p.y < 60.0 && -40.0 <= p.z < 40.0
  {
    Vec3(Spread(u1, 120.0), Spread(u2, 120.0), Spread(u3, 80.0))
  }

  /** The generator's three bursts end exactly where the sky begins, and the draw counts line up. */
  lemma BurstLayout()
    ensures BurstSize(MainBurst) == 4000 && BurstSize(LeftBurst) == 2480 && BurstSize(RightBurst) == 2480
    ensures BurstSize(MainBurst) + BurstSize(LeftBurst) + BurstSize(RightBurst) == SkyStart
  {
  }

  /** n background points, the j-th from draws k + 3j, k + 3j + 1 and k + 3j + 2. */
  function Sky(rand: Random, k: nat, n: nat): (r: seq<Vec3>)
    ensures |r| == n
  {
    seq(n, j requires 0 <= j < n => SkyPoint(rand(k + 3 * j), rand(k + 3 * j + 1), rand(k + 3 * j + 2)))
  }

  /** The three bursts, then the sky up to the particle count. */
  function Fireworks(m: Maths, rand: Random): seq<Vec3>
  {
    BurstTrails(m, rand, 0, MainBurst, NumTrails) + BurstTrails(m, rand, 120, LeftBurst, NumTrails)
      + BurstTrails(m, rand, 240, RightBurst, NumTrails) + Sky(rand, 360, Count - SkyStart)
  }

  /**
    The background loop of generateFireworks: points from draws k, k + 1,
    k + 2, ... are pushed until there are Count of them, and the result is
    cut to Count.
  */
  method FillSky(rand: Random, points: seq<Vec3>, k: nat) returns (out: seq<Vec3>)
    ensures |points| <= Count ==> out == points + Sky(rand, k, Count - |points|)
    ensures Count < |points| ==> out == points[..Count]
  {
    out := points;
    var k' := k;
    ghost var n: nat := 0;
    while |out| < Count
      invariant |points| <= Count ==> |out| <= Count
      invariant out == points + Sky(rand, k, n) && k' == k + 3 * n
    {
      var p := Vec3((rand(k') - 0.5) * 120.0, (rand(k' + 1) - 0.5) * 120.0, (rand(k' + 2) - 0.5) * 80.0);
      k' := k' + 3;
      out := out + [p];
      n := n + 1;
    }
    out := out[..Count];
  }

  method GenerateFireworks(m: Maths, rand: Random) returns (points: seq<Vec3>)
    ensures points == Fireworks(m, rand)
  {
    points := [];
    var k := 0;
    points, k := CreateBurst(m, rand, points, k, MainBurst);
    ghost var trails := BurstTrails(m, rand, 0, MainBurst, NumTrails);
    assert points == trails;
    points, k := CreateBurst(m, rand, points, k, LeftBurst);
    trails := trails + BurstTrails(m, rand, 120, LeftBurst, NumTrails);
    assert points == trails;
    points, k := CreateBurst(m, rand, points, k, RightBurst);
    trails := trails + BurstTrails(m, rand, 240, RightBurst, NumTrails);
    assert points == trails && |trails| == SkyStart && k == 360;
    points := FillSky(rand, points, k);
  }

  /**
    The fireworks layout: exactly Count points; [0, 4000), [4000, 6480) and
    [6480, 8960) are the trails of the three bursts, the rest is sky.
  */
  lemma FireworksLayout(m: Maths, rand: Random)
    ensures |Fireworks(m, rand)| == Count &&
      Fireworks(m, rand)[..4000] == BurstTrails(m, rand, 0, MainBurst, NumTrails)
    ensures |Fireworks(m, rand)| == Count && Fireworks(m, rand)[4000..6480] == BurstTrails(m, rand, 120, LeftBurst, NumTrails)
    ensures |Fireworks(m, rand)| == Count && Fireworks(m, rand)[6480..SkyStart] == BurstTrails(m, rand, 240, RightBurst, NumTrails)
    ensures |Fireworks(m, rand)| == Count && Fireworks(m, rand)[SkyStart..] == Sky(rand, 360, Count - SkyStart)
  {
    BurstTrailsLength(m, rand, 0, MainBurst, NumTrails);
    BurstTrailsLength(m, rand, 120, LeftBurst, NumTrails);
    BurstTrailsLength(m, rand, 240, RightBurst, NumTrails);
    var a := BurstTrails(m, rand, 0, MainBurst, NumTrails);
    var b := BurstTrails(m, rand, 120, LeftBurst, NumTrails);
    var c := BurstTrails(m, rand, 240, RightBurst, NumTrails);
    var f := Fireworks(m, rand);
    assert f[..4000] == a;
    assert f[4000..6480] == b;
    assert f[6480..SkyStart] == c;
    assert f[SkyStart..] == Sky(rand, 360, Count - SkyStart);
  }

  /** Point i from 8960 on is sky point i - 8960, from draws 360 on; it lies in the 120 x 120 x 80 box. */
  lemma FireworksSky(m: Maths, rand: Random, i: nat)
    requires SkyStart <= i < Count
    ensures |Fireworks(m, rand)| == Count
    ensures Fireworks(m, rand)[i] == Sky(rand, 360, Count - SkyStart)[i - SkyStart]
    ensures -60.0 <= Fireworks(m, rand)[i].x < 60.0 && -60.0 <= Fireworks(m, rand)[i].y < 60.0 && -40.0 <= Fireworks(m, rand)[i].z < 40.0
  {
    FireworksLayout(m, rand);
    assert Fireworks(m, rand)[i] == Fireworks(m, rand)[SkyStart..][i - SkyStart];
  }

  /** Trail point j of a burst, by index: trail j / n at progress (j % n) / n, n the points per trail. */
  lemma FireworksTrailPoint(m: Maths, rand: Random, i: nat)
    requires i < SkyStart
    ensures |Fireworks(m, rand)| == Count
    ensures i < 4000 ==> Fireworks(m, rand)[i] == BurstPoint(m, rand, 0, MainBurst, i)
    ensures 4000 <= i < 6480 ==> Fireworks(m, rand)[i] == BurstPoint(m, rand, 120, LeftBurst, i - 4000)
    ensures 6480 <= i ==> Fireworks(m, rand)[i] == BurstPoint(m, rand, 240, RightBurst, i - 6480)
  {
    FireworksLayout(m, rand);
    var f := Fireworks(m, rand);
    if i < 4000 {
      assert f[i] == f[..4000][i];
      BurstTrailsAt(m, rand, 0, MainBurst, NumTrails, i);
    } else if i < 6480 {
      assert f[i] == f[4000..6480][i - 4000];
      BurstTrailsAt(m, rand, 120, LeftBurst, NumTrails, i - 4000);
    } else {
      assert f[i] == f[6480..SkyStart][i - 6480];
      BurstTrailsAt(m, rand, 240, RightBurst, NumTrails, i - 6480);
    }
  }
}
