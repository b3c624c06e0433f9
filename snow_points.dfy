/**
  generateSnowPoints: 15 crystal flakes of 200 points each, every flake in a
  plane of constant depth, then ambient dust up to Count. A flake point
  takes three draws, or five when it grows a feather, so where each point's
  draws start depends on the draws before it. Math.random arrives as rand
  (rand(k) is the k-th draw of the call), trigonometry as m.
*/
module SnowPoints {
  import opened Geometry

  const NumFlakes: nat := 15
  /** Points per flake; index arithmetic below writes it out as 200. */
  const PtsPerFlake: nat := 200
  /** Points in all the flakes together. */
  const FlakesSize: nat := 3000

  /** A flake: its centre and its size. */
  datatype Flake = Flake(cx: real, cy: real, cz: real, scale: real)

  /** A flake from its four draws: centre in a 90 x 70 x 50 box, size in [2, 4). */
  function FlakeOf(u1: Unit, u2: Unit, u3: Unit, u4: Unit): (f: Flake)
    ensures -45.0 <= f.cx < 45.0 && -35.0 <= f.cy < 35.0 && -25.0 <= f.cz < 25.0
    ensures 2.0 <= f.scale < 4.0
  {
    Flake(Spread(u1, 90.0), Spread(u2, 70.0), Spread(u3, 50.0), 2.0 + u4 * 2.0)
  }

  /** The flake whose four draws start at draw k. */
  function FlakeAt(rand: Random, k: nat): Flake
  {
    FlakeOf(rand(k), rand(k + 1), rand(k + 2), rand(k + 3))
  }

  /** The point whose draws start at k grows a feather: its third draw exceeds 0.6. */
  predicate Feathered(rand: Random, k: nat)
  {
    rand(k + 2) > 0.6
  }

  /** Draws a flake point takes: branch, distance and feather test, plus two for a feather. */
  function PointDraws(rand: Random, k: nat): (d: nat)
    ensures d == 3 || d == 5
  {
    if Feathered(rand, k) then 5 else 3
  }

  /** The angle of one of six branches, chosen by floor(6u). */
  function BranchAngle(u: Unit): real
  {
    var branchIdx := (u * 6.0).Floor;
    (branchIdx as real / 6.0) * Pi * 2.0
  }

  /** The offset dist along the given angle. */
  function Polar(m: Maths, angle: real, dist: real): Vec2
  {
    Vec2(m.cos(angle) * dist, m.sin(angle) * dist)
  }

  /** A feather at 60 degrees to the branch, each coordinate scaled by its own draw. */
  function Feather(m: Maths, angle: real, featherLen: real, u4: Unit, u5: Unit): Vec2
  {
    var featherAngle := angle + Pi / 3.0;
    Vec2(m.cos(featherAngle) * (u4 * featherLen), m.sin(featherAngle) * (u5 * featherLen))
  }

  function Plus(a: Vec2, b: Vec2): Vec2
  {
    Vec2(a.x + b.x, a.y + b.y)
  }

  /**
    A point of flake f from its draws: one of six branches, a distance along
    it, and when the third draw exceeds 0.6 a feather from the last two
    draws, 0.6 of the rest of the branch long. The point keeps the flake's depth.
  */
  function CrystalPoint(m: Maths, f: Flake, u1: Unit, u2: Unit, u3: Unit, u4: Unit, u5: Unit): (p: Vec3)
    ensures p.z == f.cz
  {
    var angle := BranchAngle(u1);
    var dist := u2 * f.scale;
    var offset := Polar(m, angle, dist);
    var offset' := if u3 > 0.6 then Plus(offset, Feather(m, angle, (f.scale - dist) * 0.6, u4, u5)) else offset;
    Vec3(f.cx + offset'.x, f.cy + offset'.y, f.cz)
  }

  /** The flake point whose draws start at k. */
  function PointAt(m: Maths, rand: Random, f: Flake, k: nat): (p: Vec3)
    ensures p.z == f.cz
  {
    CrystalPoint(m, f, rand(k), rand(k + 1), rand(k + 2), rand(k + 3), rand(k + 4))
  }

  /** Where the draws of point i of a flake start, its first point's starting at k. */
  function PointStart(rand: Random, k: nat, i: nat): (r: nat)
    ensures r >= k + 3 * i
    // rand is named in the measure so that a literal count never unfolds the whole chain of draws
    decreases i, PointDraws(rand, k)
  {
    if i == 0 then k else PointStart(rand, k + PointDraws(rand, k), i - 1)
  }

  /** The draws of point i + 1 start right after those of point i. */
  lemma {:induction false} PointStartStep(rand: Random, k: nat, i: nat)
    ensures PointStart(rand, k, i + 1) == PointStart(rand, k, i) + PointDraws(rand, PointStart(rand, k, i))
    decreases i
  {
    if i > 0 {
      PointStartStep(rand, k + PointDraws(rand, k), i - 1);
    }
  }

  /** A planned flake point: its flake and the draw its own draws start at. */
  datatype Sample = Sample(flake: Flake, k: nat)

  /** The plans of the first i points of flake f, whose first point's draws start at k. */
  function FlakeSamples(rand: Random, f: Flake, k: nat, i: nat): (r: seq<Sample>)
    ensures |r| == i
  {
    seq(i, j requires 0 <= j < i => Sample(f, PointStart(rand, k, j)))
  }

  /** The point a plan yields. */
  function Plot(m: Maths, rand: Random): Sample -> Vec3
  {
    (s: Sample) => PointAt(m, rand, s.flake, s.k)
  }

  /** The points a sequence of plans yields, by the given plotting. */
  function Render(plot: Sample -> Vec3, ss: seq<Sample>): (r: seq<Vec3>)
    ensures |r| == |ss|
  {
    seq(|ss|, i requires 0 <= i < |ss| => plot(ss[i]))
  }

  /** Rendering is pointwise, so it distributes over concatenation. */
  lemma RenderAppend(plot: Sample -> Vec3, a: seq<Sample>, b: seq<Sample>)
    ensures Render(plot, a + b) == Render(plot, a) + Render(plot, b)
  {
    forall i | 0 <= i < |a| + |b|
      ensures Render(plot, a + b)[i] == (Render(plot, a) + Render(plot, b))[i]
    {
      if i < |a| {
        assert (a + b)[i] == a[i];
      } else {
        assert (a + b)[i] == b[i - |a|];
      }
    }
  }

  /** Where the draws after j flakes start, the first flake's starting at k: four per flake, then its points'. */
  function FlakeStart(rand: Random, k: nat, j: nat): nat
    // k is named in the measure so that a literal flake count never unfolds every flake
    decreases j, k
  {
    if j == 0 then k else FlakeStart(rand, PointStart(rand, k + 4, PtsPerFlake), j - 1)
  }

  /** The draws of one more flake follow those of the flakes before it. */
  lemma {:induction false} FlakeStartStep(rand: Random, k: nat, j: nat)
    ensures FlakeStart(rand, k, j + 1) == PointStart(rand, FlakeStart(rand, k, j) + 4, PtsPerFlake)
    decreases j
  {
    if j > 0 {
      FlakeStartStep(rand, PointStart(rand, k + 4, PtsPerFlake), j - 1);
    }
  }

  /** The plans of the points of the first j flakes. */
  function Samples(rand: Random, j: nat): (r: seq<Sample>)
    ensures |r| == 200 * j
    // rand is named in the measure so that a literal count never unfolds every flake
    decreases j, FlakeStart(rand, 0, j)
  {
    if j == 0 then []
    else Samples(rand, j - 1) + FlakeSamples(rand, FlakeAt(rand, FlakeStart(rand, 0, j - 1)), FlakeStart(rand, 0, j - 1) + 4, PtsPerFlake)
  }

  /** A dust point from its three draws: a 150 x 150 x 80 box around the origin. */
  function DustPoint(u1: Unit, u2: Unit, u3: Unit): (p: Vec3)
    ensures -75.0 <= p.x < 75.0 && -75.0 <= p.y < 75.0 && -40.0 <= p.z < 40.0
  {
    Vec3(Spread(u1, 150.0), Spread(u2, 150.0), Spread(u3, 80.0))
  }

  /** n dust points, the j-th from draws k + 3j, k + 3j + 1 and k + 3j + 2. */
  function Dust(rand: Random, k: nat, n: nat): (r: seq<Vec3>)
    ensures |r| == n
  {
    seq(n, j requires 0 <= j < n => DustPoint(rand(k + 3 * j), rand(k + 3 * j + 1), rand(k + 3 * j + 2)))
  }

  function Snow(m: Maths, rand: Random): seq<Vec3>
  {
    Render(Plot(m, rand), Samples(rand, NumFlakes)) + Dust(rand, FlakeStart(rand, 0, NumFlakes), Count - FlakesSize)
  }

  /** The point the inner loop body builds from the draws from k on is PointAt. */
  lemma CrystalFromDraws(m: Maths, rand: Random, f: Flake, k: nat, angle: real, dist: real, offset: Vec2)
    requires angle == BranchAngle(rand(k)) && dist == rand(k + 1) * f.scale
    requires offset == if Feathered(rand, k)
      then Plus(Polar(m, angle, dist), Feather(m, angle, (f.scale - dist) * 0.6, rand(k + 3), rand(k + 4)))
      else Polar(m, angle, dist)
    ensures PointAt(m, rand, f, k) == Vec3(f.cx + offset.x, f.cy + offset.y, f.cz)
  {
  }

  lemma FlakeFromDraws(rand: Random, k: nat, cx: real, cy: real, cz: real, scale: real)
    requires cx == (rand(k) - 0.5) * 90.0 && cy == (rand(k + 1) - 0.5) * 70.0
    requires cz == (rand(k + 2) - 0.5) * 50.0 && scale == 2.0 + rand(k + 3) * 2.0
    ensures FlakeAt(rand, k) == Flake(cx, cy, cz, scale)
  {
  }

  /** Point i of a flake follows the points before it. */
  lemma FlakePointsNext(m: Maths, rand: Random, f: Flake, k: nat, i: nat, p: Vec3)
    requires p == PointAt(m, rand, f, PointStart(rand, k, i))
    ensures Render(Plot(m, rand), FlakeSamples(rand, f, k, i)) + [p] == Render(Plot(m, rand), FlakeSamples(rand, f, k, i + 1))
  {
    var s := Sample(f, PointStart(rand, k, i));
    assert FlakeSamples(rand, f, k, i + 1) == FlakeSamples(rand, f, k, i) + [s];
    RenderAppend(Plot(m, rand), FlakeSamples(rand, f, k, i), [s]);
    assert Render(Plot(m, rand), [s]) == [p];
  }

  /** The inner loop of generateSnowPoints: the 200 points of flake f, draws from k on. */
  method DrawPoints(m: Maths, rand: Random, f: Flake, k: nat) returns (pts: seq<Vec3>, k': nat)
    ensures pts == Render(Plot(m, rand), FlakeSamples(rand, f, k, PtsPerFlake)) && k' == PointStart(rand, k, PtsPerFlake)
  {
    pts := [];
    k' := k;
    for i := 0 to PtsPerFlake
      invariant pts == Render(Plot(m, rand), FlakeSamples(rand, f, k, i)) && k' == PointStart(rand, k, i)
    {
      var angle := BranchAngle(rand(k'));
      var dist := rand(k' + 1) * f.scale;
      var offset := Polar(m, angle, dist);
      var feathered := rand(k' + 2) > 0.6;
      if feathered {
        var featherLen := (f.scale - dist) * 0.6;
        offset := Plus(offset, Feather(m, angle, featherLen, rand(k' + 3), rand(k' + 4)));
      }
      CrystalFromDraws(m, rand, f, k', angle, dist, offset);
      PointStartStep(rand, k, i);
      var p := Vec3(f.cx + offset.x, f.cy + offset.y, f.cz);
      FlakePointsNext(m, rand, f, k, i, p);
      pts := pts + [p];
      k' := k' + if feathered then 5 else 3;
    }
  }

  /** One pass of the outer loop of generateSnowPoints: a flake's centre and scale, then its points. */
  method DrawFlake(m: Maths, rand: Random, k: nat) returns (pts: seq<Vec3>, k': nat)
    ensures pts == Render(Plot(m, rand), FlakeSamples(rand, FlakeAt(rand, k), k + 4, PtsPerFlake))
    ensures k' == PointStart(rand, k + 4, PtsPerFlake)
  {
    var cx := (rand(k) - 0.5) * 90.0;
    var cy := (rand(k + 1) - 0.5) * 70.0;
    var cz := (rand(k + 2) - 0.5) * 50.0;
    var scale := 2.0 + rand(k + 3) * 2.0;
    FlakeFromDraws(rand, k, cx, cy, cz, scale);
    pts, k' := DrawPoints(m, rand, Flake(cx, cy, cz, scale), k + 4);
  }

  /** The dust loop of generateSnowPoints, with the final cut to Count. */
  method FillDust(rand: Random, points: seq<Vec3>, k: nat) returns (out: seq<Vec3>)
    ensures |points| <= Count ==> out == points + Dust(rand, k, Count - |points|)
    ensures Count < |points| ==> out == points[..Count]
  {
    out := points;
    var k' := k;
    ghost var n: nat := 0;
    while |out| < Count
      invariant |points| <= Count ==> |out| <= Count
      invariant out == points + Dust(rand, k, n) && k' == k + 3 * n
    {
      var p := Vec3((rand(k') - 0.5) * 150.0, (rand(k' + 1) - 0.5) * 150.0, (rand(k' + 2) - 0.5) * 80.0);
      k' := k' + 3;
      out := out + [p];
      n := n + 1;
    }
    out := out[..Count];
  }

  /** The points of flake j follow those of the flakes before it. */
  lemma FlakesNext(m: Maths, rand: Random, j: nat, flake: seq<Vec3>)
    requires flake == Render(Plot(m, rand), FlakeSamples(rand, FlakeAt(rand, FlakeStart(rand, 0, j)), FlakeStart(rand, 0, j) + 4, PtsPerFlake))
    ensures Render(Plot(m, rand), Samples(rand, j)) + flake == Render(Plot(m, rand), Samples(rand, j + 1))
  {
    RenderAppend(Plot(m, rand), Samples(rand, j), FlakeSamples(rand, FlakeAt(rand, FlakeStart(rand, 0, j)), FlakeStart(rand, 0, j) + 4, PtsPerFlake));
  }

  method GenerateSnow(m: Maths, rand: Random) returns (points: seq<Vec3>)
    ensures points == Snow(m, rand)
  {
    points := [];
    var k := 0;
    for j := 0 to NumFlakes
      invariant points == Render(Plot(m, rand), Samples(rand, j)) && k == FlakeStart(rand, 0, j)
    {
      FlakeStartStep(rand, 0, j);
      var flake;
      flake, k := DrawFlake(m, rand, k);
      FlakesNext(m, rand, j, flake);
      points := points + flake;
    }
    ghost var flakes := points;
    assert |flakes| == FlakesSize;
    points := FillDust(rand, points, k);
  }

  /** The first j flakes begin with the first j - 1. */
  lemma SamplesPrefix(rand: Random, j: nat, n: nat)
    requires 0 < j && n < 200 * (j - 1)
    ensures Samples(rand, j)[n] == Samples(rand, j - 1)[n]
  {
  }

  /** Plan r of flake q, among the plans of the first j flakes, belongs to flake q. */
  lemma {:induction false} SamplesFlake(rand: Random, j: nat, q: nat, r: nat)
    requires q < j && r < 200
    ensures Samples(rand, j)[200 * q + r].flake == FlakeAt(rand, FlakeStart(rand, 0, q))
  {
    if q + 1 < j {
      SamplesPrefix(rand, j, 200 * q + r);
      SamplesFlake(rand, j - 1, q, r);
    }
  }

  /** Flake point i lies at the depth of flake i / 200. */
  lemma FlakesDepth(m: Maths, rand: Random, i: nat)
    requires i < FlakesSize
    ensures |Render(Plot(m, rand), Samples(rand, NumFlakes))| == FlakesSize
    ensures Render(Plot(m, rand), Samples(rand, NumFlakes))[i].z == FlakeAt(rand, FlakeStart(rand, 0, i / 200)).cz
  {
    assert i == 200 * (i / 200) + i % 200;
    SamplesFlake(rand, NumFlakes, i / 200, i % 200);
  }

  /** The dust points lie in the 150 x 150 x 80 box. */
  lemma DustBox(m: Maths, rand: Random, i: nat)
    requires FlakesSize <= i < Count
    ensures |Snow(m, rand)| == Count
    ensures -75.0 <= Snow(m, rand)[i].x < 75.0 && -75.0 <= Snow(m, rand)[i].y < 75.0 && -40.0 <= Snow(m, rand)[i].z < 40.0
  {
    var f := Render(Plot(m, rand), Samples(rand, NumFlakes));
    var d := Dust(rand, FlakeStart(rand, 0, NumFlakes), Count - FlakesSize);
    assert Snow(m, rand)[i] == d[i - FlakesSize];
  }

  /**
    The snow layout: exactly Count points; [0, 3000) are the 15 flakes of 200
    points, point i in flake i / 200 and at that flake's depth, within
    [-25, 25); the rest is dust, in the 150 x 150 x 80 box.
  */
  lemma SnowLayout(m: Maths, rand: Random, i: nat)
    requires i < Count
    ensures |Snow(m, rand)| == Count
    ensures i < FlakesSize ==>
      Snow(m, rand)[i].z == FlakeAt(rand, FlakeStart(rand, 0, i / 200)).cz && -25.0 <= Snow(m, rand)[i].z < 25.0
    ensures FlakesSize <= i ==>
      -75.0 <= Snow(m, rand)[i].x < 75.0 && -75.0 <= Snow(m, rand)[i].y < 75.0 && -40.0 <= Snow(m, rand)[i].z < 40.0
  {
    if i < FlakesSize {
      var f := Render(Plot(m, rand), Samples(rand, NumFlakes));
      assert Snow(m, rand)[i] == f[i];
      FlakesDepth(m, rand, i);
    } else {
      DustBox(m, rand, i);
    }
  }

  /** Two points of the same flake lie at the same depth: each flake is flat. */
  lemma FlakeIsFlat(m: Maths, rand: Random, i: nat, j: nat)
    requires i < FlakesSize && j < FlakesSize && i / 200 == j / 200
    ensures |Snow(m, rand)| == Count && Snow(m, rand)[i].z == Snow(m, rand)[j].z
  {
    SnowLayout(m, rand, i);
    SnowLayout(m, rand, j);
  }
}
