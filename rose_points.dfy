/**
  generateRosePoints: a spiral bud, eight petal layers, a stem up to
  RoseMain and a spherical aura up to Count. The bud and the petals take no
  draws; each stem point takes one and each aura point three. Math.random
  arrives as rand (rand(k) is the k-th draw of the call), trigonometry as m.
*/
module RosePoints {
  import opened Geometry

  const BudCount: nat := 2000
  const PetalLayers: nat := 8
  /** floor((RoseMain - BudCount - 1000) / PetalLayers). */
  const PtsPerLayer: nat := (RoseMain - BudCount - 1000) / PetalLayers
  /** Where the petals end and the stem begins. */
  const StemStart: nat := 10000

  /** Bud point i: five turns of a spiral of radius 0.1 t, rising to depth 5. */
  function BudPoint(m: Maths, i: nat): (p: Vec3)
    ensures 0.0 <= p.z && (i < BudCount ==> p.z < 5.0)
  {
    var t := (i as real / 2000.0) * Pi * 10.0;
    var r := 0.1 * t;
    Vec3(m.cos(t) * r, m.sin(t) * r - 5.0, i as real / 2000.0 * 5.0)
  }

  /** The bud rises: each point sits higher than every earlier one. */
  lemma BudRises(m: Maths, i: nat, j: nat)
    requires i < j
    ensures BudPoint(m, i).z < BudPoint(m, j).z
  {
  }

  /** The first n bud points. */
  function Bud(m: Maths, n: nat): (r: seq<Vec3>)
    ensures |r| == n
  {
    seq(n, i requires 0 <= i < n => BudPoint(m, i))
  }

  /** The number of lobes of layer L, 3 + L % 3. */
  function Lobes(L: nat): (n: nat)
    ensures 3 <= n <= 5
  {
    3 + L % 3
  }

  /**
    The point at angle t of petal layer L: a closed curve of Lobes(L) lobes
    around a circle of radius 3 + 1.5 L at height 5 - 0.8 L, turned by L
    radians, moved down by 5.
  */
  function PetalAt(m: Maths, L: nat, t: real): Vec3
  {
    var layerRadius := 3.0 + L as real * 1.5;
    var layerHeight := 5.0 - L as real * 0.8;
    var petals := Lobes(L) as real;
    var r := layerRadius + 1.5 * m.sin(petals * t);
    Vec3(r * m.cos(t + L as real), r * m.sin(t + L as real) - 5.0, layerHeight + 2.0 * m.cos(petals * t))
  }

  /** Point p of petal layer L, at angle p / 1000 of a full turn. */
  function PetalPoint(m: Maths, L: nat, p: nat): Vec3
  {
    PetalAt(m, L, (p as real / 1000.0) * Pi * 2.0)
  }

  /** The first n points of petal layer L. */
  function Layer(m: Maths, L: nat, n: nat): (r: seq<Vec3>)
    ensures |r| == n
  {
    seq(n, p requires 0 <= p < n => PetalPoint(m, L, p))
  }

  /** The first l petal layers, 1000 points each. */
  function Petals(m: Maths, l: nat): (r: seq<Vec3>)
    ensures |r| == 1000 * l
    // m is named in the measure so that a literal layer count never unfolds every layer
    decreases l, m
  {
    if l == 0 then [] else Petals(m, l - 1) + Layer(m, l - 1, PtsPerLayer)
  }

  /** A stem point from its draw: a slight wave, down from y = -5 to y = -25, in the plane z = 0. */
  function StemPoint(m: Maths, u: Unit): (p: Vec3)
    ensures p.z == 0.0 && -25.0 < p.y <= -5.0
  {
    Vec3(m.sin(u * 5.0) * 0.5, -5.0 - u * 20.0, 0.0)
  }

  /** n stem points, the j-th from draw k + j. */
  function Stem(m: Maths, rand: Random, k: nat, n: nat): (r: seq<Vec3>)
    ensures |r| == n
  {
    seq(n, j requires 0 <= j < n => StemPoint(m, rand(k + j)))
  }

  /** An aura point from its three draws: radius in [12, 20), then a point on that sphere, moved down by 5. */
  function AuraPoint(m: Maths, u1: Unit, u2: Unit, u3: Unit): Vec3
  {
    var p := RandomOnSphere(m, 12.0 + u1 * 8.0, u2, u3);
    p.(y := p.y - 5.0)
  }

  /** n aura points, the j-th from draws k + 3j, k + 3j + 1 and k + 3j + 2. */
  function Aura(m: Maths, rand: Random, k: nat, n: nat): (r: seq<Vec3>)
    ensures |r| == n
  {
    seq(n, j requires 0 <= j < n => AuraPoint(m, rand(k + 3 * j), rand(k + 3 * j + 1), rand(k + 3 * j + 2)))
  }

  /** Bud and petals: the part of the rose that takes no draws. */
  function Flower(m: Maths): seq<Vec3>
  {
    Bud(m, BudCount) + Petals(m, PetalLayers)
  }

  function Rose(m: Maths, rand: Random): seq<Vec3>
  {
    Flower(m) + Stem(m, rand, 0, RoseMain - StemStart) + Aura(m, rand, RoseMain - StemStart, Count - RoseMain)
  }

  /** The point the bud loop builds from t and r is BudPoint. */
  lemma BudPointFrom(m: Maths, i: nat, t: real, r: real, p: Vec3)
    requires t == (i as real / 2000.0) * Pi * 10.0 && r == 0.1 * t
    requires p == Vec3(m.cos(t) * r, m.sin(t) * r - 5.0, i as real / 2000.0 * 5.0)
    ensures p == BudPoint(m, i)
  {
  }

  /** The bud loop of generateRosePoints. */
  method DrawBud(m: Maths) returns (points: seq<Vec3>)
    ensures points == Bud(m, BudCount)
  {
    points := [];
    for i := 0 to BudCount
      invariant points == Bud(m, i)
    {
      var t := (i as real / 2000.0) * Pi * 10.0;
      var r := 0.1 * t;
      var z := i as real / 2000.0 * 5.0;
      var p := Vec3(m.cos(t) * r, m.sin(t) * r - 5.0, z);
      BudPointFrom(m, i, t, r, p);
      points := points + [p];
    }
  }

  /** The point the petal loop builds from t, r, x, y and z is PetalAt. */
  lemma PetalPointFrom(m: Maths, L: nat, t: real, a: real, r: real, q: Vec3)
    requires a == Lobes(L) as real * t
    requires r == (3.0 + L as real * 1.5) + 1.5 * m.sin(a)
    requires q == Vec3(r * m.cos(t + L as real), r * m.sin(t + L as real) - 5.0, (5.0 - L as real * 0.8) + 2.0 * m.cos(a))
    ensures q == PetalAt(m, L, t)
  {
  }

  /** One pass of the petal loop: the 1000 points of layer L. */
  method DrawLayer(m: Maths, L: nat) returns (pts: seq<Vec3>)
    ensures pts == Layer(m, L, PtsPerLayer)
  {
    var layerRadius := 3.0 + L as real * 1.5;
    var layerHeight := 5.0 - L as real * 0.8;
    var petalsInLayer := 3 + L % 3;
    pts := [];
    for p := 0 to PtsPerLayer
      invariant pts == Layer(m, L, p)
    {
      var t := (p as real / 1000.0) * Pi * 2.0;
      var r := layerRadius + 1.5 * m.sin(petalsInLayer as real * t);
      var z := layerHeight + 2.0 * m.cos(petalsInLayer as real * t);
      var x := r * m.cos(t + L as real);
      var y := r * m.sin(t + L as real);
      var q := Vec3(x, y - 5.0, z);
      PetalPointFrom(m, L, t, petalsInLayer as real * t, r, q);
      pts := pts + [q];
    }
  }

  /** The petal loops of generateRosePoints. */
  method DrawPetals(m: Maths) returns (points: seq<Vec3>)
    ensures points == Petals(m, PetalLayers)
  {
    points := [];
    for L := 0 to PetalLayers
      invariant points == Petals(m, L)
    {
      var layer := DrawLayer(m, L);
      points := points + layer;
    }
  }

  /** The point the stem loop builds from its draw u is StemPoint. */
  lemma StemPointFrom(m: Maths, u: Unit, t: real, p: Vec3)
    requires t == u && p == Vec3(m.sin(t * 5.0) * 0.5, -5.0 - t * 20.0, 0.0)
    ensures p == StemPoint(m, u)
  {
  }

  /** The stem loop: one point per draw from k on while there are fewer than RoseMain. */
  method FillStem(m: Maths, rand: Random, points: seq<Vec3>, k: nat) returns (out: seq<Vec3>, k': nat)
    ensures |points| <= RoseMain ==> out == points + Stem(m, rand, k, RoseMain - |points|) && k' == k + (RoseMain - |points|)
    ensures RoseMain < |points| ==> out == points && k' == k
  {
    out := points;
    k' := k;
    ghost var n: nat := 0;
    while |out| < RoseMain
      invariant |points| <= RoseMain ==> |out| <= RoseMain
      invariant RoseMain < |points| ==> n == 0
      invariant out == points + Stem(m, rand, k, n) && k' == k + n
    {
      var t: real := rand(k');
      var p := Vec3(m.sin(t * 5.0) * 0.5, -5.0 - t * 20.0, 0.0);
      StemPointFrom(m, rand(k'), t, p);
      k' := k' + 1;
      out := out + [p];
      n := n + 1;
    }
  }

  /** The point the aura loop builds is AuraPoint. */
  lemma AuraPointFrom(m: Maths, radius: real, s: Vec3, p: Vec3, u1: Unit, u2: Unit, u3: Unit)
    requires radius == 12.0 + u1 * 8.0 && s == RandomOnSphere(m, radius, u2, u3) && p == s.(y := s.y - 5.0)
    ensures p == AuraPoint(m, u1, u2, u3)
  {
  }

  /** Aura point n follows the ones before it. */
  lemma AuraNext(m: Maths, rand: Random, k: nat, n: nat, p: Vec3)
    requires p == AuraPoint(m, rand(k + 3 * n), rand(k + 3 * n + 1), rand(k + 3 * n + 2))
    ensures Aura(m, rand, k, n) + [p] == Aura(m, rand, k, n + 1)
  {
  }

  /** The aura loop, with the final cut to Count. */
  method FillAura(m: Maths, rand: Random, points: seq<Vec3>, k: nat) returns (out: seq<Vec3>)
    ensures |points| <= Count ==> out == points + Aura(m, rand, k, Count - |points|)
    ensures Count < |points| ==> out == points[..Count]
  {
    out := points;
    var k' := k;
    ghost var n: nat := 0;
    while |out| < Count
      invariant |points| <= Count ==> |out| <= Count
      invariant out == points + Aura(m, rand, k, n) && k' == k + 3 * n
    {
      var radius := 12.0 + rand(k') * 8.0;
      var s := RandomOnSphere(m, radius, rand(k' + 1), rand(k' + 2));
      var p := s.(y := s.y - 5.0);
      AuraPointFrom(m, radius, s, p, rand(k'), rand(k' + 1), rand(k' + 2));
      AuraNext(m, rand, k, n, p);
      k' := k' + 3;
      out := out + [p];
      n := n + 1;
    }
    out := out[..Count];
  }

  method GenerateRose(m: Maths, rand: Random) returns (points: seq<Vec3>)
    ensures points == Rose(m, rand)
  {
    var bud := DrawBud(m);
    var petals := DrawPetals(m);
    points := bud + petals;
    assert |points| == StemStart;
    var k;
    points, k := FillStem(m, rand, points, 0);
    points := FillAura(m, rand, points, k);
  }

  /** The first l layers begin with the first l - 1. */
  lemma PetalsPrefix(m: Maths, l: nat, n: nat)
    requires 0 < l && n < 1000 * (l - 1)
    ensures Petals(m, l)[n] == Petals(m, l - 1)[n]
  {
  }

  /** Point r of layer L, among the first l layers, is PetalPoint(m, L, r). */
  lemma {:induction false} PetalsAt(m: Maths, l: nat, L: nat, r: nat)
    requires L < l && r < 1000
    ensures Petals(m, l)[1000 * L + r] == PetalPoint(m, L, r)
  {
    if L + 1 < l {
      PetalsPrefix(m, l, 1000 * L + r);
      PetalsAt(m, l - 1, L, r);
    }
  }

  /** Point i of the flower is a bud point below 2000 and a petal point after. */
  lemma FlowerAt(m: Maths, i: nat)
    requires i < StemStart
    ensures |Flower(m)| == StemStart
    ensures i < BudCount ==> Flower(m)[i] == BudPoint(m, i)
    ensures BudCount <= i ==> Flower(m)[i] == PetalPoint(m, (i - 2000) / 1000, (i - 2000) % 1000)
  {
    var b, p := Bud(m, BudCount), Petals(m, PetalLayers);
    if i < BudCount {
      assert (b + p)[i] == b[i];
    } else {
      assert (b + p)[i] == p[i - 2000];
      var j := i - 2000;
      assert j == 1000 * (j / 1000) + j % 1000;
      PetalsAt(m, PetalLayers, j / 1000, j % 1000);
    }
  }

  /** The rose is the flower, then the stem from draw 0, then the aura from draw 1000. */
  lemma RoseParts(m: Maths, rand: Random)
    ensures |Flower(m)| == StemStart && |Rose(m, rand)| == Count
    ensures Rose(m, rand)[..StemStart] == Flower(m)
    ensures Rose(m, rand)[StemStart..RoseMain] == Stem(m, rand, 0, RoseMain - StemStart)
    ensures Rose(m, rand)[RoseMain..] == Aura(m, rand, RoseMain - StemStart, Count - RoseMain)
  {
    var f, s, a := Flower(m), Stem(m, rand, 0, RoseMain - StemStart), Aura(m, rand, RoseMain - StemStart, Count - RoseMain);
    FlowerAt(m, 0);
    assert Rose(m, rand) == f + s + a;
    assert (f + s + a)[..StemStart] == f;
    assert (f + s + a)[StemStart..RoseMain] == s;
    assert (f + s + a)[RoseMain..] == a;
  }

  /**
    The rose layout: exactly Count points; bud on [0, 2000), rising in depth
    from 0 towards 5; petals on [2000, 10000), 1000 per layer, point i in
    layer (i - 2000) / 1000 with 3, 4 or 5 lobes; stem on [10000, 11000), in
    the plane z = 0 from draw i - 10000; aura on [11000, 15000), its draws
    starting at 1000.
  */
  lemma RoseLayout(m: Maths, rand: Random, i: nat)
    requires i < Count
    ensures |Rose(m, rand)| == Count
    ensures i < BudCount ==> Rose(m, rand)[i] == BudPoint(m, i) && 0.0 <= Rose(m, rand)[i].z < 5.0
    ensures BudCount <= i < StemStart ==>
      Rose(m, rand)[i] == PetalPoint(m, (i - 2000) / 1000, (i - 2000) % 1000) && (i - 2000) / 1000 < PetalLayers
    ensures StemStart <= i < RoseMain ==>
      Rose(m, rand)[i] == StemPoint(m, rand(i - StemStart)) && Rose(m, rand)[i].z == 0.0
    ensures RoseMain <= i ==> Rose(m, rand)[i] == Aura(m, rand, 1000, Count - RoseMain)[i - RoseMain]
  {
    RoseParts(m, rand);
    var r := Rose(m, rand);
    if i < StemStart {
      assert r[i] == r[..StemStart][i];
      FlowerAt(m, i);
    } else if i < RoseMain {
      assert r[i] == r[StemStart..RoseMain][i - StemStart];
    } else {
      assert r[i] == r[RoseMain..][i - RoseMain];
    }
  }
}
