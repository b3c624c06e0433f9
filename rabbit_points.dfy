/**
  generateRabbitPoints: a line drawing of seven strokes and a filled eye, all
  in the plane z = 0, followed by aura points up to Count. Math.random
  arrives as rand (rand(k) is the k-th draw of the call), trigonometry as m.
*/
module RabbitPoints {
  import opened Geometry

  /** The seven curves drawLine is given, in the order they are drawn. */
  datatype Path = Head | Ear | Back | Belly | Tail | FrontPaw | BackPaw

  /** The point of a path at parameter t. */
  function PathAt(m: Maths, path: Path, t: real): Vec2
  {
    match path
    case Head => Vec2(-3.0 + 2.5 * m.cos(t), 3.0 + 2.5 * m.sin(t))
    case Ear => Vec2(-3.5 + 1.2 * m.cos(t), 2.0 + 3.5 * m.sin(t))
    case Back => Vec2(-2.0 + t * 7.0, 1.0 + m.sin(t * Pi) * 1.5)
    case Belly => Vec2(-2.0 + t * 7.0, 1.0 - m.sin(t * Pi) * 1.0 - 2.0)
    case Tail => Vec2(5.5 + 0.8 * m.cos(t), 0.0 + 0.8 * m.sin(t))
    case FrontPaw => Vec2(-2.0, -1.0 - t)
    case BackPaw => Vec2(4.0, -1.0 - t)
  }

  /** One call of drawLine: the path, the parameter range and the number of points. */
  datatype Stroke = Stroke(path: Path, startT: real, endT: real, density: nat)

  const HeadStroke := Stroke(Head, 0.0, Pi * 2.0, 2500)
  const EarStroke := Stroke(Ear, Pi * 0.1, Pi * 2.9, 2500)
  const BackStroke := Stroke(Back, 0.0, 1.0, 2000)
  const BellyStroke := Stroke(Belly, 0.1, 0.9, 1500)
  const TailStroke := Stroke(Tail, 0.0, Pi * 2.0, 800)
  const FrontPawStroke := Stroke(FrontPaw, 0.0, 1.5, 600)
  const BackPawStroke := Stroke(BackPaw, 0.0, 1.5, 600)

  /** Points in the eye. */
  const EyeCount: nat := 200
  /** Points of the drawing: the seven strokes and the eye. */
  const DrawingSize: nat := 10700
  /** The first draw the aura uses: two per stroke point and two per eye point before it. */
  const AuraDraw: nat := 2 * DrawingSize

  /** The parameter of point i of a stroke: the range split into density equal steps. */
  function StrokeT(s: Stroke, i: nat): real
    requires i < s.density
  {
    s.startT + (i as real / s.density as real) * (s.endT - s.startT)
  }

  /** Point i of a stroke, jittered by at most 0.025 each way by its two draws. */
  function LinePoint(m: Maths, s: Stroke, i: nat, u1: Unit, u2: Unit): (p: Vec3)
    requires i < s.density
    ensures p.z == 0.0
    ensures var c := PathAt(m, s.path, StrokeT(s, i));
      -0.025 <= p.x - c.x < 0.025 && -0.025 <= p.y - c.y < 0.025
  {
    var pos := PathAt(m, s.path, StrokeT(s, i));
    Vec3(pos.x + Spread(u1, 0.05), pos.y + Spread(u2, 0.05), 0.0)
  }

  /** The first n points of a stroke whose first draw is number k. */
  function Line(m: Maths, rand: Random, k: nat, s: Stroke, n: nat): (r: seq<Vec3>)
    requires n <= s.density
    ensures |r| == n
  {
    seq(n, i requires 0 <= i < n => LinePoint(m, s, i, rand(k + 2 * i), rand(k + 2 * i + 1)))
  }

  /** The point the loop body of drawLine builds from t and its two draws is LinePoint. */
  lemma LinePointFromDraws(m: Maths, s: Stroke, i: nat, t: real, p: Vec3, u1: Unit, u2: Unit)
    requires i < s.density && t == s.startT + (i as real / s.density as real) * (s.endT - s.startT)
    requires p == Vec3(PathAt(m, s.path, t).x + (u1 - 0.5) * 0.05, PathAt(m, s.path, t).y + (u2 - 0.5) * 0.05, 0.0)
    ensures p == LinePoint(m, s, i, u1, u2)
  {
    assert StrokeT(s, i) == t;
    assert Spread(u1, 0.05) == (u1 - 0.5) * 0.05;
    assert Spread(u2, 0.05) == (u2 - 0.5) * 0.05;
    var pos := PathAt(m, s.path, t);
    assert LinePoint(m, s, i, u1, u2) == Vec3(pos.x + Spread(u1, 0.05), pos.y + Spread(u2, 0.05), 0.0);
  }

  /** drawLine: pushes the stroke's points, two draws each. */
  method DrawLine(m: Maths, rand: Random, points: seq<Vec3>, k: nat, s: Stroke)
    returns (out: seq<Vec3>, k': nat)
    ensures out == points + Line(m, rand, k, s, s.density) && k' == k + 2 * s.density
  {
    var num := s.density;
    var line := [];
    k' := k;
    for i := 0 to num
      invariant line == Line(m, rand, k, s, i) && k' == k + 2 * i
    {
      var t := s.startT + (i as real / num as real) * (s.endT - s.startT);
      var pos := PathAt(m, s.path, t);
      var jitter := 0.05;
      var p := Vec3(pos.x + (rand(k') - 0.5) * jitter, pos.y + (rand(k' + 1) - 0.5) * jitter, 0.0);
      LinePointFromDraws(m, s, i, t, p, rand(k'), rand(k' + 1));
      k' := k' + 2;
      line := line + [p];
    }
    out := points + line;
  }

  /** An eye point from its two draws: radius r < 0.3, then the angle, around (-2.2, 4). */
  function EyePoint(m: Maths, u1: Unit, u2: Unit): (p: Vec3)
    ensures p.z == 0.0
  {
    var r := u1 * 0.3;
    var ang := u2 * Pi * 2.0;
    Vec3(-2.2 + m.cos(ang) * r, 4.0 + m.sin(ang) * r, 0.0)
  }

  function Eye(m: Maths, rand: Random, k: nat, n: nat): (r: seq<Vec3>)
    ensures |r| == n
  {
    seq(n, i requires 0 <= i < n => EyePoint(m, rand(k + 2 * i), rand(k + 2 * i + 1)))
  }

  lemma EyePointFromDraws(m: Maths, r: real, ang: real, p: Vec3, u1: Unit, u2: Unit)
    requires r == u1 * 0.3 && ang == u2 * Pi * 2.0
    requires p == Vec3(-2.2 + m.cos(ang) * r, 4.0 + m.sin(ang) * r, 0.0)
    ensures p == EyePoint(m, u1, u2)
  {
  }

  /** The eye loop of generateRabbitPoints. */
  method DrawEye(m: Maths, rand: Random, points: seq<Vec3>, k: nat) returns (out: seq<Vec3>, k': nat)
    ensures out == points + Eye(m, rand, k, EyeCount) && k' == k + 2 * EyeCount
  {
    var eye := [];
    k' := k;
    for i := 0 to EyeCount
      invariant eye == Eye(m, rand, k, i) && k' == k + 2 * i
    {
      var r := rand(k') * 0.3;
      var ang := rand(k' + 1) * Pi * 2.0;
      var p := Vec3(-2.2 + m.cos(ang) * r, 4.0 + m.sin(ang) * r, 0.0);
      EyePointFromDraws(m, r, ang, p, rand(k'), rand(k' + 1));
      k' := k' + 2;
      eye := eye + [p];
    }
    out := points + eye;
  }

  /** An aura point from its three draws: radius in [8, 28), angle, then depth in [-10, 10). */
  function AuraPoint(m: Maths, u1: Unit, u2: Unit, u3: Unit): (p: Vec3)
    ensures -10.0 <= p.z < 10.0
  {
    var r := 8.0 + u1 * 20.0;
    var theta := u2 * Pi * 2.0;
    Vec3(m.cos(theta) * r, m.sin(theta) * r, Spread(u3, 20.0))
  }

  function Aura(m: Maths, rand: Random, k: nat, n: nat): (r: seq<Vec3>)
    ensures |r| == n
  {
    seq(n, i requires 0 <= i < n => AuraPoint(m, rand(k + 3 * i), rand(k + 3 * i + 1), rand(k + 3 * i + 2)))
  }

  lemma AuraPointFromDraws(m: Maths, r: real, theta: real, p: Vec3, u1: Unit, u2: Unit, u3: Unit)
    requires r == 8.0 + u1 * 20.0 && theta == u2 * Pi * 2.0
    requires p == Vec3(m.cos(theta) * r, m.sin(theta) * r, (u3 - 0.5) * 20.0)
    ensures p == AuraPoint(m, u1, u2, u3)
  {
  }

  /** Aura point n follows the ones before it. */
  lemma AuraNext(m: Maths, rand: Random, k: nat, n: nat, p: Vec3)
    requires p == AuraPoint(m, rand(k + 3 * n), rand(k + 3 * n + 1), rand(k + 3 * n + 2))
    ensures Aura(m, rand, k, n) + [p] == Aura(m, rand, k, n + 1)
  {
  }

  /** The aura loop of generateRabbitPoints, with the final cut to Count. */
  method FillAura(m: Maths, rand: Random, points: seq<Vec3>, k: nat) returns (out: seq<Vec3>)
    ensures |points| <= Count ==> out == points + Aura(m, rand, k, Count - |points|)
    ensures Count < |points| ==> out == points[..Count]
  {
    out := points;
    var k' := k;
    ghost var n: nat := 0;
    while |out| < Count
      invariant |points| <= Count ==> |out| <= Count
      invariant out == points + Aura(m, rand, k, n) && k' == k + 3 * n
    {
      var r := 8.0 + rand(k') * 20.0;
      var theta := rand(k' + 1) * Pi * 2.0;
      var x := m.cos(theta) * r;
      var y := m.sin(theta) * r;
      var p := Vec3(x, y, (rand(k' + 2) - 0.5) * 20.0);
      AuraPointFromDraws(m, r, theta, p, rand(k'), rand(k' + 1), rand(k' + 2));
      AuraNext(m, rand, k, n, p);
      k' := k' + 3;
      out := out + [p];
      n := n + 1;
    }
    out := out[..Count];
  }

  /** The line drawing: the seven strokes in order, then the eye. */
  function Drawing(m: Maths, rand: Random): seq<Vec3>
  {
    Line(m, rand, 0, HeadStroke, 2500) + Line(m, rand, 5000, EarStroke, 2500)
      + Line(m, rand, 10000, BackStroke, 2000) + Line(m, rand, 14000, BellyStroke, 1500)
      + Line(m, rand, 17000, TailStroke, 800) + Line(m, rand, 18600, FrontPawStroke, 600)
      + Line(m, rand, 19800, BackPawStroke, 600) + Eye(m, rand, 21000, EyeCount)
  }

  function Rabbit(m: Maths, rand: Random): seq<Vec3>
  {
    Drawing(m, rand) + Aura(m, rand, AuraDraw, Count - DrawingSize)
  }

  method GenerateRabbit(m: Maths, rand: Random) returns (points: seq<Vec3>)
    ensures points == Rabbit(m, rand)
  {
    points := [];
    var k := 0;
    points, k := DrawLine(m, rand, points, k, HeadStroke);
    ghost var drawing := Line(m, rand, 0, HeadStroke, 2500);
    assert points == drawing;
    points, k := DrawLine(m, rand, points, k, EarStroke);
    drawing := drawing + Line(m, rand, 5000, EarStroke, 2500);
    assert points == drawing;
    points, k := DrawLine(m, rand, points, k, BackStroke);
    drawing := drawing + Line(m, rand, 10000, BackStroke, 2000);
    assert points == drawing;
    points, k := DrawLine(m, rand, points, k, BellyStroke);
    drawing := drawing + Line(m, rand, 14000, BellyStroke, 1500);
    assert points == drawing;
    points, k := DrawLine(m, rand, points, k, TailStroke);
    drawing := drawing + Line(m, rand, 17000, TailStroke, 800);
    assert points == drawing;
    points, k := DrawLine(m, rand, points, k, FrontPawStroke);
    drawing := drawing + Line(m, rand, 18600, FrontPawStroke, 600);
    assert points == drawing;
    points, k := DrawLine(m, rand, points, k, BackPawStroke);
    drawing := drawing + Line(m, rand, 19800, BackPawStroke, 600);
    assert points == drawing;
    points, k := DrawEye(m, rand, points, k);
    drawing := drawing + Eye(m, rand, 21000, EyeCount);
    assert points == drawing && |drawing| == DrawingSize && k == AuraDraw;
    points := FillAura(m, rand, points, k);
  }

  /** Every point of s lies in the plane z = 0. */
  predicate InPlane(s: seq<Vec3>)
  {
    forall j :: 0 <= j < |s| ==> s[j].z == 0.0
  }

  lemma InPlaneAppend(a: seq<Vec3>, b: seq<Vec3>)
    requires InPlane(a) && InPlane(b)
    ensures InPlane(a + b)
  {
    forall j | 0 <= j < |a + b|
      ensures (a + b)[j].z == 0.0
    {
      if j < |a| {
        assert (a + b)[j] == a[j];
      } else {
        assert (a + b)[j] == b[j - |a|];
      }
    }
  }

  lemma LineInPlane(m: Maths, rand: Random, k: nat, s: Stroke)
    ensures InPlane(Line(m, rand, k, s, s.density))
  {
    var l := Line(m, rand, k, s, s.density);
    forall j | 0 <= j < |l|
      ensures l[j].z == 0.0
    {
      assert l[j] == LinePoint(m, s, j, rand(k + 2 * j), rand(k + 2 * j + 1));
    }
  }

  /** The whole line drawing, strokes and eye, lies in the plane z = 0. */
  lemma DrawingInPlane(m: Maths, rand: Random)
    ensures |Drawing(m, rand)| == DrawingSize && InPlane(Drawing(m, rand))
  {
    LineInPlane(m, rand, 0, HeadStroke);
    LineInPlane(m, rand, 5000, EarStroke);
    LineInPlane(m, rand, 10000, BackStroke);
    LineInPlane(m, rand, 14000, BellyStroke);
    LineInPlane(m, rand, 17000, TailStroke);
    LineInPlane(m, rand, 18600, FrontPawStroke);
    LineInPlane(m, rand, 19800, BackPawStroke);
    var d := Line(m, rand, 0, HeadStroke, 2500);
    InPlaneAppend(d, Line(m, rand, 5000, EarStroke, 2500));
    d := d + Line(m, rand, 5000, EarStroke, 2500);
    InPlaneAppend(d, Line(m, rand, 10000, BackStroke, 2000));
    d := d + Line(m, rand, 10000, BackStroke, 2000);
    InPlaneAppend(d, Line(m, rand, 14000, BellyStroke, 1500));
    d := d + Line(m, rand, 14000, BellyStroke, 1500);
    InPlaneAppend(d, Line(m, rand, 17000, TailStroke, 800));
    d := d + Line(m, rand, 17000, TailStroke, 800);
    InPlaneAppend(d, Line(m, rand, 18600, FrontPawStroke, 600));
    d := d + Line(m, rand, 18600, FrontPawStroke, 600);
    InPlaneAppend(d, Line(m, rand, 19800, BackPawStroke, 600));
    d := d + Line(m, rand, 19800, BackPawStroke, 600);
    var e := Eye(m, rand, 21000, EyeCount);
    assert InPlane(e) by {
      forall j | 0 <= j < |e|
        ensures e[j].z == 0.0
      {
        assert e[j] == EyePoint(m, rand(21000 + 2 * j), rand(21000 + 2 * j + 1));
      }
    }
    InPlaneAppend(d, e);
  }

  /**
    The rabbit layout: exactly Count points; the drawing fills [0, 10700) and
    lies in the plane z = 0; the rest is aura, at depth in [-10, 10).
  */
  lemma RabbitLayout(m: Maths, rand: Random, i: nat)
    requires i < Count
    ensures |Rabbit(m, rand)| == Count
    ensures i < DrawingSize ==> Rabbit(m, rand)[i] == Drawing(m, rand)[i] && Rabbit(m, rand)[i].z == 0.0
    ensures DrawingSize <= i ==>
      Rabbit(m, rand)[i] == Aura(m, rand, AuraDraw, Count - DrawingSize)[i - DrawingSize] &&
      -10.0 <= Rabbit(m, rand)[i].z < 10.0
  {
    DrawingInPlane(m, rand);
    var d := Drawing(m, rand);
    var a := Aura(m, rand, AuraDraw, Count - DrawingSize);
    if i < DrawingSize {
      assert (d + a)[i] == d[i];
    } else {
      assert (d + a)[i] == a[i - DrawingSize];
    }
  }

  /** The strokes end at 2500, 5000, 7000, 8500, 9300, 9900 and 10500; the eye follows them. */
  lemma DrawingEye(m: Maths, rand: Random)
    ensures |Drawing(m, rand)| == DrawingSize
    ensures Drawing(m, rand)[10500..] == Eye(m, rand, 21000, EyeCount)
  {
  }
}
