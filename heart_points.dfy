/**
  generateHeartPoints: Count points along ten turns of the heart curve, each
  on one of three nested layers and at a random depth. Math.random arrives as
  rand (rand(k) is the k-th draw of the call), trigonometry as m.
*/
module HeartPoints {
  import opened Geometry

  /** The parameter of point i: ten turns around the curve over the list. */
  function HeartT(i: nat): real
  {
    (i as real / Count as real) * Pi * 2.0 * 10.0
  }

  /** The heart curve x = 16 sin^3 t, y = 13 cos t - 5 cos 2t - 2 cos 3t - cos 4t. */
  function HeartCurve(m: Maths, t: real): Vec3
  {
    Vec3(16.0 * m.pow(m.sin(t), 3.0),
         13.0 * m.cos(t) - 5.0 * m.cos(2.0 * t) - 2.0 * m.cos(3.0 * t) - m.cos(4.0 * t),
         0.0)
  }

  /** One of three nested layers, 1.0 - floor(3u) * 0.1. */
  function LayerScale(u: Unit): (s: real)
    ensures s == 1.0 || s == 0.9 || s == 0.8
  {
    var layer := (u * 3.0).Floor;
    assert 0 <= layer <= 2;
    1.0 - layer as real * 0.1
  }

  /** Point i of the heart from its two draws: layer, then depth. */
  function HeartPoint(m: Maths, i: nat, layerDraw: Unit, depthDraw: Unit): Vec3
  {
    var c := HeartCurve(m, HeartT(i));
    var scale := LayerScale(layerDraw);
    Vec3(c.x * scale * 0.8, c.y * scale * 0.8, (depthDraw - 0.5) * 2.0)
  }

  /** The point the loop body builds from t, x, y, the layer's scale and z is HeartPoint. */
  lemma HeartPointFromDraws(m: Maths, i: nat, t: real, x: real, y: real, scale: real, z: real, u1: Unit, u2: Unit)
    requires t == HeartT(i) && HeartCurve(m, t) == Vec3(x, y, 0.0)
    requires scale == 1.0 - (u1 * 3.0).Floor as real * 0.1 && z == (u2 - 0.5) * 2.0
    ensures HeartPoint(m, i, u1, u2) == Vec3(x * scale * 0.8, y * scale * 0.8, z)
  {
  }

  /** The first n points of the heart, point i from draws 2i and 2i + 1. */
  function Heart(m: Maths, rand: Random, n: nat): (r: seq<Vec3>)
    ensures |r| == n
  {
    seq(n, i requires 0 <= i < n => HeartPoint(m, i, rand(2 * i), rand(2 * i + 1)))
  }

  method GenerateHeart(m: Maths, rand: Random) returns (points: seq<Vec3>)
    ensures points == Heart(m, rand, Count)
  {
    points := [];
    var k := 0;
    for i := 0 to Count
      invariant points == Heart(m, rand, i) && k == 2 * i
    {
      var t := (i as real / Count as real) * Pi * 2.0 * 10.0;
      var x := 16.0 * m.pow(m.sin(t), 3.0);
      var y := 13.0 * m.cos(t) - 5.0 * m.cos(2.0 * t) - 2.0 * m.cos(3.0 * t) - m.cos(4.0 * t);
      var layer := (rand(k) * 3.0).Floor;
      k := k + 1;
      var scale := 1.0 - layer as real * 0.1;
      var z := (rand(k) - 0.5) * 2.0;
      k := k + 1;
      HeartPointFromDraws(m, i, t, x, y, scale, z, rand(2 * i), rand(2 * i + 1));
      points := points + [Vec3(x * scale * 0.8, y * scale * 0.8, z)];
    }
  }

  /** p is the curve point c shrunk to the layer of scale s (and by the overall 0.8). */
  predicate OnLayer(p: Vec3, c: Vec3, s: real)
  {
    p.x == c.x * s * 0.8 && p.y == c.y * s * 0.8
  }

  /**
    The heart has exactly Count points, every one at depth in [-1, 1) and on
    the curve at parameter HeartT(i), shrunk to one of the three layers.
  */
  lemma HeartLayout(m: Maths, rand: Random, i: nat)
    requires i < Count
    ensures |Heart(m, rand, Count)| == Count
    ensures -1.0 <= Heart(m, rand, Count)[i].z < 1.0
    ensures var p, c := Heart(m, rand, Count)[i], HeartCurve(m, HeartT(i));
      OnLayer(p, c, 1.0) || OnLayer(p, c, 0.9) || OnLayer(p, c, 0.8)
  {
    assert Heart(m, rand, Count)[i] == HeartPoint(m, i, rand(2 * i), rand(2 * i + 1));
  }
}
