/**
  Shared vocabulary of the shape generators: the particle count, points in
  space, the random source and the transcendental functions the generators
  use. Math.random and Math.sin/cos/acos/pow are not interpreted here: a
  generator receives them as parameters, so every property proved below
  holds whatever values they return.
*/
module Geometry {

  /** Number of particles in every distribution. */
  const Count: nat := 15000
  /** Side of the square canvas the text is rasterised onto. */
  const CanvasSize: nat := 1024

  const FwBurst1: nat := 4000
  const FwBurst2: nat := 2500
  const FwBurst3: nat := 2500
  /** Index cutoff between the rose's structure and its aura. */
  const RoseMain: nat := 11000

  const Pi: real := 3.141592653589793

  datatype Vec3 = Vec3(x: real, y: real, z: real)
  datatype Vec2 = Vec2(x: real, y: real)

  /** Vector3.multiplyScalar. */
  function Scale(v: Vec3, s: real): Vec3
  {
    Vec3(v.x * s, v.y * s, v.z * s)
  }

  /** Vector3.add. */
  function Add(a: Vec3, b: Vec3): Vec3
  {
    Vec3(a.x + b.x, a.y + b.y, a.z + b.z)
  }

  /** (u - 0.5) * width: a draw spread evenly around zero. */
  function Spread(u: Unit, width: real): (r: real)
    requires width > 0.0
    ensures -width / 2.0 <= r < width / 2.0
  {
    (u - 0.5) * width
  }

  datatype Option<T> = None | Some(value: T)

  /** A value Math.random can return. */
  type Unit = r: real | 0.0 <= r < 1.0

  /** The k-th value Math.random returns during one call of a generator. */
  type Random = nat -> Unit

  /** Math.sin, Math.cos, Math.acos and Math.pow, left uninterpreted. */
  datatype Maths = Maths(sin: real -> real, cos: real -> real, acos: real -> real, pow: (real, real) -> real)

  /** A uniformly distributed point on a sphere, from two draws u and v. */
  function RandomOnSphere(m: Maths, radius: real, u: Unit, v: Unit): (p: Vec3)
  {
    var theta := 2.0 * Pi * u;
    var phi := m.acos(2.0 * v - 1.0);
    Vec3(radius * m.sin(phi) * m.cos(theta), radius * m.sin(phi) * m.sin(theta), radius * m.cos(phi))
  }

  /** The x, y, z components of each point in turn, as a Float32Array of points holds them. */
  function Flatten(vs: seq<Vec3>): (r: seq<real>)
    ensures |r| == 3 * |vs|
  {
    if vs == [] then [] else [vs[0].x, vs[0].y, vs[0].z] + Flatten(vs[1..])
  }

  /** Reads a flat buffer back as points, three components at a time. */
  function Unflatten(r: seq<real>): (vs: seq<Vec3>)
    requires |r| % 3 == 0
    ensures 3 * |vs| == |r|
    decreases |r|
  {
    if r == [] then [] else [Vec3(r[0], r[1], r[2])] + Unflatten(r[3..])
  }

  lemma {:induction false} FlattenAppend(a: seq<Vec3>, b: seq<Vec3>)
    ensures Flatten(a + b) == Flatten(a) + Flatten(b)
  {
    if a == [] {
      assert a + b == b;
    } else {
      assert (a + b)[1..] == a[1..] + b;
      FlattenAppend(a[1..], b);
    }
  }

  /** Component k of point i sits at index 3i + k of the flat buffer. */
  lemma {:induction false} FlattenAt(vs: seq<Vec3>, i: nat)
    requires i < |vs|
    ensures Flatten(vs)[3 * i] == vs[i].x
    ensures Flatten(vs)[3 * i + 1] == vs[i].y
    ensures Flatten(vs)[3 * i + 2] == vs[i].z
  {
    if i > 0 {
      FlattenAt(vs[1..], i - 1);
    }
  }

  lemma {:induction false} UnflattenFlatten(vs: seq<Vec3>)
    ensures Unflatten(Flatten(vs)) == vs
  {
    if vs != [] {
      var r := Flatten(vs);
      assert r[3..] == Flatten(vs[1..]);
      UnflattenFlatten(vs[1..]);
    }
  }

  lemma {:induction false} FlattenUnflatten(r: seq<real>)
    requires |r| % 3 == 0
    ensures Flatten(Unflatten(r)) == r
    decreases |r|
  {
    if r != [] {
      FlattenUnflatten(r[3..]);
    }
  }

  /** Point i of a flat buffer, for 3i + 2 < |r|. */
  lemma UnflattenAt(r: seq<real>, i: nat)
    requires |r| % 3 == 0 && 3 * i + 2 < |r|
    ensures Unflatten(r)[i] == Vec3(r[3 * i], r[3 * i + 1], r[3 * i + 2])
  {
    FlattenUnflatten(r);
    FlattenAt(Unflatten(r), i);
  }
}
