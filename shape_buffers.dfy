/**
  getPointsForShape and getColorsForShape: the flat position and colour
  buffers, three reals per particle, that the particle system blends
  towards. The text shape's canvas image, Math.random and trigonometry are
  parameters; the conversion of a colour setting to red, green and blue
  (THREE.Color.setHSL / setHex) is the oracle toRgb.
*/
module ShapeBuffers {
  import opened Geometry
  import opened Shapes
  import TextPoints
  import HeartPoints
  import FireworksPoints
  import RabbitPoints
  import SnowPoints
  import RosePoints

  /** The points a non-text generator returns, in order. */
  function Generated(shape: ShapeType, m: Maths, rand: Random): (r: seq<Vec3>)
    requires shape != Text
  {
    match shape
    case Heart => HeartPoints.Heart(m, rand, Count)
    case Fireworks => FireworksPoints.Fireworks(m, rand)
    case Rabbit => RabbitPoints.Rabbit(m, rand)
    case Snow => SnowPoints.Snow(m, rand)
    case Rose => RosePoints.Rose(m, rand)
  }

  /** Every generator other than the text one returns exactly Count points. */
  lemma GeneratedLength(shape: ShapeType, m: Maths, rand: Random)
    requires shape != Text
    ensures |Generated(shape, m, rand)| == Count
  {
    match shape
    case Heart =>
    case Fireworks => FireworksPoints.FireworksLayout(m, rand);
    case Rabbit => RabbitPoints.RabbitLayout(m, rand, 0);
    case Snow => SnowPoints.SnowLayout(m, rand, 0);
    case Rose => RosePoints.RoseParts(m, rand);
  }

  /** Every entry defined. */
  function Defined(vs: seq<Vec3>): (r: seq<Option<Vec3>>)
    ensures |r| == |vs|
  {
    seq(|vs|, i requires 0 <= i < |vs| => Some(vs[i]))
  }

  /** The list the switch of getPointsForShape picks; an undefined entry is a text padding hole. */
  function Vectors(shape: ShapeType, image: Option<seq<TextPoints.byte>>, m: Maths, rand: Random): seq<Option<Vec3>>
  {
    if shape == Text then TextPoints.TextShape(image) else Defined(Generated(shape, m, rand))
  }

  const Origin := Vec3(0.0, 0.0, 0.0)

  /** vectors[i] || new Vector3(): entry i, or the origin where it is missing or undefined. */
  function PointOrZero(vs: seq<Option<Vec3>>, i: nat): (v: Vec3)
    ensures i < |vs| && vs[i].Some? ==> v == vs[i].value
    ensures !(i < |vs| && vs[i].Some?) ==> v == Origin
  {
    if i < |vs| && vs[i].Some? then vs[i].value else Origin
  }

  /** The Count points getPointsForShape writes out. */
  function Particles(vs: seq<Option<Vec3>>): (r: seq<Vec3>)
    ensures |r| == Count
  {
    seq(Count, i requires 0 <= i < Count => PointOrZero(vs, i))
  }

  /** The position buffer for a shape. */
  function Positions(shape: ShapeType, image: Option<seq<TextPoints.byte>>, m: Maths, rand: Random): (r: seq<real>)
    ensures |r| == 3 * Count
  {
    Flatten(Particles(Vectors(shape, image, m, rand)))
  }

  /** The generator getPointsForShape's switch calls. */
  method Generate(shape: ShapeType, image: Option<seq<TextPoints.byte>>, m: Maths, rand: Random)
    returns (vectors: seq<Option<Vec3>>)
    ensures vectors == Vectors(shape, image, m, rand)
  {
    var points: seq<Vec3>;
    match shape {
      case Text =>
        vectors := TextPoints.GenerateTextPoints(image);
        return;
      case Heart => points := HeartPoints.GenerateHeart(m, rand);
      case Fireworks => points := FireworksPoints.GenerateFireworks(m, rand);
      case Rabbit => points := RabbitPoints.GenerateRabbit(m, rand);
      case Snow => points := SnowPoints.GenerateSnow(m, rand);
      case Rose => points := RosePoints.GenerateRose(m, rand);
    }
    vectors := Defined(points);
  }

  /**
    buffer[i * 3], buffer[i * 3 + 1], buffer[i * 3 + 2] := v.x, v.y, v.z, on
    a buffer whose first i points already agree with flat.
  */
  method PutPoint(buffer: array<real>, i: nat, v: Vec3, ghost flat: seq<real>)
    requires 3 * i + 2 < buffer.Length && 3 * i + 2 < |flat|
    requires forall j :: 0 <= j < 3 * i ==> buffer[j] == flat[j]
    requires flat[3 * i] == v.x && flat[3 * i + 1] == v.y && flat[3 * i + 2] == v.z
    modifies buffer
    ensures forall j :: 0 <= j < 3 * (i + 1) ==> buffer[j] == flat[j]
    ensures forall j :: 3 * (i + 1) <= j < buffer.Length ==> buffer[j] == old(buffer[j])
  {
    buffer[i * 3] := v.x;
    buffer[i * 3 + 1] := v.y;
    buffer[i * 3 + 2] := v.z;
  }

  /**
    The position loop of getPointsForShape: a zeroed buffer of 3 * Count
    reals, entry i of vectors (or the origin) written at 3i, 3i + 1 and 3i + 2.
  */
  method FillPositions(vectors: seq<Option<Vec3>>) returns (positions: array<real>)
    ensures fresh(positions)
    ensures positions[..] == Flatten(Particles(vectors))
  {
    ghost var ps := Particles(vectors);
    ghost var flat := Flatten(ps);
    positions := new real[3 * Count](_ => 0.0);
    for i := 0 to Count
      invariant forall j :: 0 <= j < 3 * i ==> positions[j] == flat[j]
    {
      var v := if i < |vectors| && vectors[i].Some? then vectors[i].value else Vec3(0.0, 0.0, 0.0);
      FlattenAt(ps, i);
      PutPoint(positions, i, v, flat);
    }
    assert positions[..] == flat;
  }

  method GetPointsForShape(shape: ShapeType, image: Option<seq<TextPoints.byte>>, m: Maths, rand: Random)
    returns (positions: array<real>)
    ensures fresh(positions)
    ensures positions[..] == Positions(shape, image, m, rand)
  {
    var vectors := Generate(shape, image, m, rand);
    positions := FillPositions(vectors);
  }

  /** Position component k of particle i sits at 3i + k of the buffer. */
  lemma PositionsAt(shape: ShapeType, image: Option<seq<TextPoints.byte>>, m: Maths, rand: Random, i: nat)
    requires i < Count
    ensures var p, v := Positions(shape, image, m, rand), PointOrZero(Vectors(shape, image, m, rand), i);
      p[3 * i] == v.x && p[3 * i + 1] == v.y && p[3 * i + 2] == v.z
  {
    FlattenAt(Particles(Vectors(shape, image, m, rand)), i);
  }

  /** For every shape but text the buffer reads back as exactly the generator's points. */
  lemma PositionsRoundTrip(shape: ShapeType, m: Maths, rand: Random, image: Option<seq<TextPoints.byte>>)
    requires shape != Text
    ensures Unflatten(Positions(shape, image, m, rand)) == Generated(shape, m, rand)
  {
    GeneratedLength(shape, m, rand);
    var g := Generated(shape, m, rand);
    assert Particles(Vectors(shape, image, m, rand)) == g;
    UnflattenFlatten(g);
  }

  /** No 2D context, or a silhouette with no bright cell: every position is zero. */
  lemma EmptyTextIsZero(image: Option<seq<TextPoints.byte>>, m: Maths, rand: Random, j: nat)
    requires image.None? || |TextPoints.Silhouette(image.value)| == 0
    requires j < 3 * Count
    ensures Positions(Text, image, m, rand)[j] == 0.0
  {
    var vs := Vectors(Text, image, m, rand);
    PositionsAt(Text, image, m, rand, j / 3);
    assert PointOrZero(vs, j / 3) == Origin;
  }

  /** With a nonempty silhouette, particle i sits at point i % len of it. */
  lemma TextPositionsCycle(image: Option<seq<TextPoints.byte>>, m: Maths, rand: Random, i: nat)
    requires image.Some? && |TextPoints.Silhouette(image.value)| > 0 && i < Count
    ensures var s, p := TextPoints.Silhouette(image.value), Positions(Text, image, m, rand);
      p[3 * i] == s[i % |s|].x && p[3 * i + 1] == s[i % |s|].y && p[3 * i + 2] == s[i % |s|].z
  {
    PositionsAt(Text, image, m, rand, i);
  }

  // ----- colours -----

  /** A colour setting: setHSL(h, s, l) or setHex(rgb). */
  datatype Colour = Hsl(h: real, s: real, l: real) | Hex(rgb: nat)

  const White := Hex(0xffffff)
  const LineGreen := Hex(0x55cc55)

  /** The lightness variation of a particle, from its first draw: in [-0.1, 0.1). */
  function LightnessVar(u: Unit): (v: real)
    ensures -0.1 <= v < 0.1
  {
    (u - 0.5) * 0.2
  }

  /** Where the second draw starts: the particles from here on draw twice. */
  function SecondDrawFrom(shape: ShapeType): Option<nat>
  {
    match shape
    case Fireworks => Some(FwBurst1 + FwBurst2 + FwBurst3)
    case Rabbit => Some(11000)
    case Rose => Some(RoseMain)
    case _ => None
  }

  /** Draws particle i takes: the lightness draw, and a second one for the random classes. */
  function Draws(shape: ShapeType, i: nat): (d: nat)
    ensures d == 1 || d == 2
  {
    var c := SecondDrawFrom(shape);
    if c.Some? && c.value <= i then 2 else 1
  }

  /** The draw particle i's draws start at: one per particle before it, two past the cutoff. */
  function DrawStart(shape: ShapeType, i: nat): (k: nat)
    ensures k >= i
  {
    var c := SecondDrawFrom(shape);
    if c.Some? && c.value < i then i + (i - c.value) else i
  }

  lemma DrawStartStep(shape: ShapeType, i: nat)
    ensures DrawStart(shape, i + 1) == DrawStart(shape, i) + Draws(shape, i)
  {
  }

  /** The colour particle i of a shape gets, from its draws u1 (lightness) and u2. */
  function ColourOf(shape: ShapeType, i: nat, u1: Unit, u2: Unit): Colour
  {
    var lv := LightnessVar(u1);
    match shape
    case Text => Hsl(0.6, 0.05, 0.9 + lv)
    case Heart => Hsl(0.98, 0.9, 0.5 + lv)
    case Fireworks =>
      if i < FwBurst1 then Hsl(0.0, 1.0, 0.6 + lv)
      else if i < FwBurst1 + FwBurst2 then Hsl(0.5, 1.0, 0.6 + lv)
      else if i < FwBurst1 + FwBurst2 + FwBurst3 then Hsl(0.8, 1.0, 0.6 + lv)
      else Hsl(u2, 0.8, 0.8)
    case Rabbit =>
      if i < 11000 then LineGreen
      else if u2 < 0.4 then Hex(0xffaa00)
      else if u2 < 0.7 then Hex(0xffff00)
      else White
    case Snow => Hsl(0.6, 0.2, 0.95 + lv)
    case Rose =>
      if i < RoseMain then White
      else if u2 > 0.5 then White
      else Hex(0xaa44ff)
  }

  /** The colours of the Count particles, particle i from its own draws. */
  function Paint(shape: ShapeType, rand: Random, toRgb: Colour -> Vec3): (r: seq<Vec3>)
    ensures |r| == Count
  {
    seq(Count, i requires 0 <= i < Count =>
      toRgb(ColourOf(shape, i, rand(DrawStart(shape, i)), rand(DrawStart(shape, i) + 1))))
  }

  /** The colour buffer for a shape. */
  function Colours(shape: ShapeType, rand: Random, toRgb: Colour -> Vec3): (r: seq<real>)
    ensures |r| == 3 * Count
  {
    Flatten(Paint(shape, rand, toRgb))
  }

  /** The switch of getColorsForShape for particle i, the draws from k on; k' is past the draws it took. */
  method PickColour(shape: ShapeType, i: nat, rand: Random, k: nat) returns (c: Colour, k': nat)
    ensures c == ColourOf(shape, i, rand(k), rand(k + 1)) && k' == k + Draws(shape, i)
  {
    var lightnessVar := (rand(k) - 0.5) * 0.2;
    k' := k + 1;
    match shape {
      case Text => c := Hsl(0.6, 0.05, 0.9 + lightnessVar);
      case Heart => c := Hsl(0.98, 0.9, 0.5 + lightnessVar);
      case Fireworks =>
        if i < FwBurst1 {
          c := Hsl(0.0, 1.0, 0.6 + lightnessVar);
        } else if i < FwBurst1 + FwBurst2 {
          c := Hsl(0.5, 1.0, 0.6 + lightnessVar);
        } else if i < FwBurst1 + FwBurst2 + FwBurst3 {
          c := Hsl(0.8, 1.0, 0.6 + lightnessVar);
        } else {
          c := Hsl(rand(k'), 0.8, 0.8);
          k' := k' + 1;
        }
      case Rabbit =>
        if i < 11000 {
          c := Hex(0x55cc55);
        } else {
          var u := rand(k');
          k' := k' + 1;
          if u < 0.4 {
            c := Hex(0xffaa00);
          } else if u < 0.7 {
            c := Hex(0xffff00);
          } else {
            c := Hex(0xffffff);
          }
        }
      case Snow => c := Hsl(0.6, 0.2, 0.95 + lightnessVar);
      case Rose =>
        if i < RoseMain {
          c := Hex(0xffffff);
        } else {
          var u := rand(k');
          k' := k' + 1;
          if u > 0.5 {
            c := Hex(0xffffff);
          } else {
            c := Hex(0xaa44ff);
          }
        }
    }
  }

  /** The colour particle i takes from its draws is entry i of the paint. */
  lemma PaintAt(shape: ShapeType, rand: Random, toRgb: Colour -> Vec3, i: nat, k: nat, c: Colour)
    requires i < Count && k == DrawStart(shape, i) && c == ColourOf(shape, i, rand(k), rand(k + 1))
    ensures Paint(shape, rand, toRgb)[i] == toRgb(c)
  {
  }

  /** The colour loop of getColorsForShape. */
  method GetColorsForShape(shape: ShapeType, rand: Random, toRgb: Colour -> Vec3) returns (colors: array<real>)
    ensures fresh(colors)
    ensures colors[..] == Colours(shape, rand, toRgb)
  {
    ghost var cs := Paint(shape, rand, toRgb);
    ghost var flat := Flatten(cs);
    colors := new real[3 * Count](_ => 0.0);
    var k := 0;
    for i := 0 to Count
      invariant k == DrawStart(shape, i)
      invariant forall j :: 0 <= j < 3 * i ==> colors[j] == flat[j]
    {
      ghost var k0 := k;
      var c;
      c, k := PickColour(shape, i, rand, k);
      DrawStartStep(shape, i);
      var rgb := toRgb(c);
      PaintAt(shape, rand, toRgb, i, k0, c);
      FlattenAt(cs, i);
      PutPoint(colors, i, rgb, flat);
    }
    assert colors[..] == flat;
  }

  /** Colour component k of particle i sits at 3i + k of the buffer. */
  lemma ColoursAt(shape: ShapeType, rand: Random, toRgb: Colour -> Vec3, i: nat)
    requires i < Count
    ensures var c, rgb := Colours(shape, rand, toRgb), toRgb(ColourOf(shape, i, rand(DrawStart(shape, i)), rand(DrawStart(shape, i) + 1)));
      c[3 * i] == rgb.x && c[3 * i + 1] == rgb.y && c[3 * i + 2] == rgb.z
  {
    FlattenAt(Paint(shape, rand, toRgb), i);
  }

  /**
    The fireworks colour bands are [0, 4000) red, [4000, 6500) cyan,
    [6500, 9000) purple and the rest of random hue, each burst colour at
    lightness 0.6 give or take 0.1.
  */
  lemma FireworksBands(i: nat, u1: Unit, u2: Unit)
    ensures var c := ColourOf(Fireworks, i, u1, u2);
      (i < 4000 <==> c.Hsl? && c.h == 0.0 && c.s == 1.0) &&
      (4000 <= i < 6500 <==> c.Hsl? && c.h == 0.5 && c.s == 1.0) &&
      (6500 <= i < 9000 <==> c.Hsl? && c.h == 0.8 && c.s == 1.0) &&
      (9000 <= i <==> c == Hsl(u2, 0.8, 0.8)) &&
      (i < 9000 ==> 0.5 <= c.l < 0.7)
  {
  }

  /**
    The colour bands follow the nominal burst sizes, not the 4000, 2480
    and 2480 points the bursts contribute: particles 6480 to 6499 belong to
    the third burst but are coloured cyan like the second, and the sky
    particles 8960 to 8999 are coloured purple like the third burst.
  */
  lemma FireworksBandsOffset(m: Maths, rand: Random, i: nat, u1: Unit, u2: Unit)
    requires 6480 <= i < 6500 || 8960 <= i < 9000
    ensures |FireworksPoints.Fireworks(m, rand)| == Count
    ensures i < 6500 ==>
      FireworksPoints.Fireworks(m, rand)[i] == FireworksPoints.BurstPoint(m, rand, 240, FireworksPoints.RightBurst, i - 6480) &&
      ColourOf(Fireworks, i, u1, u2) == Hsl(0.5, 1.0, 0.6 + LightnessVar(u1))
    ensures 8960 <= i ==>
      FireworksPoints.Fireworks(m, rand)[i] == FireworksPoints.Sky(rand, 360, Count - FireworksPoints.SkyStart)[i - FireworksPoints.SkyStart] &&
      ColourOf(Fireworks, i, u1, u2) == Hsl(0.8, 1.0, 0.6 + LightnessVar(u1))
  {
    if i < 6500 {
      FireworksPoints.FireworksTrailPoint(m, rand, i);
    } else {
      FireworksPoints.FireworksSky(m, rand, i);
    }
  }

  /**
    The rabbit's drawing ends at 10700 but its colour cutoff is 11000:
    the first 300 aura points are coloured like the line.
  */
  lemma RabbitAuraColouredAsLine(m: Maths, rand: Random, i: nat, u1: Unit, u2: Unit)
    requires RabbitPoints.DrawingSize <= i < 11000
    ensures |RabbitPoints.Rabbit(m, rand)| == Count
    ensures RabbitPoints.Rabbit(m, rand)[i] == RabbitPoints.Aura(m, rand, RabbitPoints.AuraDraw, Count - RabbitPoints.DrawingSize)[i - RabbitPoints.DrawingSize]
    ensures ColourOf(Rabbit, i, u1, u2) == LineGreen
  {
    RabbitPoints.RabbitLayout(m, rand, i);
  }

  /** The rabbit colours: line green below 11000; orange, yellow or white after, by the second draw. */
  lemma RabbitBands(i: nat, u1: Unit, u2: Unit)
    ensures var c := ColourOf(Rabbit, i, u1, u2);
      (i < 11000 ==> c == LineGreen) &&
      (11000 <= i ==> (c == Hex(0xffaa00) <==> u2 < 0.4) && (c == Hex(0xffff00) <==> 0.4 <= u2 < 0.7) && (c == White <==> 0.7 <= u2))
  {
  }

  /**
    The rose's colour cutoff is its structure cutoff: bud, petals and stem
    are white; an aura point is white or purple, by its second draw.
  */
  lemma RoseBands(m: Maths, rand: Random, i: nat, u1: Unit, u2: Unit)
    requires i < Count
    ensures |RosePoints.Rose(m, rand)| == Count
    ensures i < RoseMain ==> (ColourOf(Rose, i, u1, u2) == White &&
      RosePoints.Rose(m, rand)[i] == (if i < RosePoints.StemStart then RosePoints.Flower(m)[i] else RosePoints.Stem(m, rand, 0, RoseMain - RosePoints.StemStart)[i - RosePoints.StemStart]))
    ensures RoseMain <= i ==> ((ColourOf(Rose, i, u1, u2) == White <==> u2 > 0.5) && (ColourOf(Rose, i, u1, u2) == Hex(0xaa44ff) <==> u2 <= 0.5) &&
      RosePoints.Rose(m, rand)[i] == RosePoints.Aura(m, rand, 1000, Count - RoseMain)[i - RoseMain])
  {
    RosePoints.RoseParts(m, rand);
    var r := RosePoints.Rose(m, rand);
    if i < RosePoints.StemStart {
      assert r[i] == r[..RosePoints.StemStart][i];
    } else if i < RoseMain {
      assert r[i] == r[RosePoints.StemStart..RoseMain][i - RosePoints.StemStart];
    } else {
      assert r[i] == r[RoseMain..][i - RoseMain];
    }
  }

  /** Text, heart and snow take one colour class for every particle, at lightness varied by 0.1 at most. */
  lemma UniformBands(shape: ShapeType, i: nat, j: nat, u1: Unit, u2: Unit, v1: Unit, v2: Unit)
    requires shape == Text || shape == Heart || shape == Snow
    ensures var c, d := ColourOf(shape, i, u1, u2), ColourOf(shape, j, v1, v2);
      c.Hsl? && d.Hsl? && c.h == d.h && c.s == d.s && -0.2 < c.l - d.l < 0.2
  {
  }
}
