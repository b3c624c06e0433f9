/**
  The text shape: sampling a rasterised glyph image on a stride-4 grid and
  padding the silhouette cyclically to the particle count. The image is the
  RGBA byte array of a 1024 x 1024 canvas; drawing the glyphs onto it is
  outside this model, so the image arrives as a parameter (None when the
  browser gives no 2D drawing context).
*/
module TextPoints {
  import opened Geometry

  type byte = b: int | 0 <= b < 256

  /** Grid stride in pixels. */
  const Step: nat := 4
  /** Grid cells per row (and rows), CanvasSize / Step. */
  const GridSide: nat := 256
  /** Grid cells in all. */
  const Cells: nat := 65536

  /**
    data[index] > 128. Reading past the end of a typed array yields
    undefined in JavaScript, and undefined > 128 is false.
  */
  predicate Bright(data: seq<byte>, index: int)
  {
    0 <= index < |data| && data[index] > 128
  }

  /** Pixel column and row of grid cell c, cells numbered row by row. */
  function CellX(c: nat): nat { Step * (c % GridSide) }
  function CellY(c: nat): nat { Step * (c / GridSide) }

  /** The red byte of the cell's pixel is above the threshold. */
  predicate CellBright(data: seq<byte>, c: nat)
  {
    Bright(data, (CellY(c) * CanvasSize + CellX(c)) * 4)
  }

  /** World position of pixel (x, y): centred, scaled by 0.05, y pointing up, in the plane z = 0. */
  function PixelPoint(x: int, y: int): Vec3
  {
    Vec3((x - CanvasSize / 2) as real * 0.05, -((y - CanvasSize / 2) as real * 0.05), 0.0)
  }

  function CellPoint(c: nat): Vec3
  {
    PixelPoint(CellX(c), CellY(c))
  }

  /** The points kept from the first c grid cells, in visiting order. */
  function SilhouettePrefix(data: seq<byte>, c: nat): seq<Vec3>
  {
    if c == 0 then []
    else SilhouettePrefix(data, c - 1) + (if CellBright(data, c - 1) then [CellPoint(c - 1)] else [])
  }

  function Silhouette(data: seq<byte>): seq<Vec3>
  {
    SilhouettePrefix(data, Cells)
  }

  /** Cell gy * 256 + gx is column gx of row gy. */
  lemma CellOf(gy: nat, gx: nat)
    requires gx < GridSide
    ensures CellX(gy * GridSide + gx) == Step * gx && CellY(gy * GridSide + gx) == Step * gy
  {
    var c := gy * GridSide + gx;
    assert c / GridSide == gy && c % GridSide == gx;
  }

  /** Visiting column gx of row gy keeps pixel (4gx, 4gy) exactly when its red byte is bright. */
  lemma CellStep(data: seq<byte>, gy: nat, gx: nat, y: int, x: int, index: int)
    requires gx < GridSide && x == Step * gx && y == Step * gy && index == (y * CanvasSize + x) * 4
    ensures SilhouettePrefix(data, gy * GridSide + gx + 1) == SilhouettePrefix(data, gy * GridSide + gx)
      + (if Bright(data, index) then [PixelPoint(x, y)] else [])
  {
    CellOf(gy, gx);
  }

  /** The two nested sampling loops of the text generator. */
  method SampleSilhouette(data: seq<byte>) returns (points: seq<Vec3>)
    ensures points == Silhouette(data)
  {
    points := [];
    var y := 0;
    ghost var gy: nat := 0;
    while y < CanvasSize
      invariant y == Step * gy && gy <= GridSide
      invariant points == SilhouettePrefix(data, gy * GridSide)
    {
      var x := 0;
      ghost var gx: nat := 0;
      while x < CanvasSize
        invariant x == Step * gx && gx <= GridSide
        invariant points == SilhouettePrefix(data, gy * GridSide + gx)
      {
        var index := (y * CanvasSize + x) * 4;
        CellStep(data, gy, gx, y, x, index);
        if index < |data| && data[index] > 128 {
          points := points + [PixelPoint(x, y)];
        }
        x := x + Step;
        gx := gx + 1;
      }
      y := y + Step;
      gy := gy + 1;
    }
  }

  /** At most one point per grid cell, so a silhouette has at most 65536 points. */
  lemma {:induction false} SilhouettePrefixLength(data: seq<byte>, c: nat)
    ensures |SilhouettePrefix(data, c)| <= c
  {
    if c > 0 {
      SilhouettePrefixLength(data, c - 1);
    }
  }

  lemma SilhouetteBound(data: seq<byte>)
    ensures |Silhouette(data)| <= 65536
  {
    SilhouettePrefixLength(data, Cells);
  }

  /** Every kept point is the position of a bright cell visited so far. */
  lemma {:induction false} SilhouetteSound(data: seq<byte>, c: nat, p: Vec3)
    requires p in SilhouettePrefix(data, c)
    ensures exists j :: 0 <= j < c && CellBright(data, j) && p == CellPoint(j)
  {
    if p !in SilhouettePrefix(data, c - 1) {
      assert CellBright(data, c - 1) && p == CellPoint(c - 1);
    } else {
      SilhouetteSound(data, c - 1, p);
    }
  }

  /** Every bright cell visited so far contributes its point. */
  lemma {:induction false} SilhouetteComplete(data: seq<byte>, c: nat, j: nat)
    requires j < c && CellBright(data, j)
    ensures CellPoint(j) in SilhouettePrefix(data, c)
  {
    if j < c - 1 {
      SilhouetteComplete(data, c - 1, j);
    }
  }

  /** The walk is row-major: visiting more cells only appends points. */
  lemma {:induction false} SilhouettePrefixGrows(data: seq<byte>, c1: nat, c2: nat)
    requires c1 <= c2
    ensures SilhouettePrefix(data, c1) <= SilhouettePrefix(data, c2)
    decreases c2
  {
    if c1 < c2 {
      SilhouettePrefixGrows(data, c1, c2 - 1);
    }
  }

  /** An image with no byte above 128 keeps no point. */
  lemma {:induction false} DarkImageIsEmpty(data: seq<byte>, c: nat)
    requires forall i :: 0 <= i < |data| ==> data[i] <= 128
    ensures SilhouettePrefix(data, c) == []
  {
    if c > 0 {
      DarkImageIsEmpty(data, c - 1);
    }
  }

  /**
    The padding loop: exactly Count points, point i being points[i % len].
    With an empty silhouette, i % 0 is NaN and points[NaN] is undefined,
    recorded here as None.
  */
  method PadToCount(points: seq<Vec3>) returns (final: seq<Option<Vec3>>)
    ensures |final| == Count
    ensures |points| > 0 ==> forall i :: 0 <= i < Count ==> final[i] == Some(points[i % |points|])
    ensures |points| == 0 ==> forall i :: 0 <= i < Count ==> final[i] == None
  {
    final := [];
    for i := 0 to Count
      invariant |final| == i
      invariant |points| > 0 ==> forall j :: 0 <= j < i ==> final[j] == Some(points[j % |points|])
      invariant |points| == 0 ==> forall j :: 0 <= j < i ==> final[j] == None
    {
      if i < |points| {
        final := final + [Some(points[i])];
      } else {
        final := final + [if |points| == 0 then None else Some(points[i % |points|])];
      }
    }
  }

  /** Count entries cycling through points; with no points, Count undefined entries. */
  function Padded(points: seq<Vec3>): (r: seq<Option<Vec3>>)
    ensures |r| == Count
  {
    seq(Count, i requires 0 <= i < Count => if |points| == 0 then None else Some(points[i % |points|]))
  }

  /** What generateTextPoints returns for the rasterised canvas; None stands for a missing 2D context. */
  function TextShape(image: Option<seq<byte>>): seq<Option<Vec3>>
  {
    if image.None? then [] else Padded(Silhouette(image.value))
  }

  /** generateTextPoints on the rasterised canvas. */
  method GenerateTextPoints(image: Option<seq<byte>>) returns (final: seq<Option<Vec3>>)
    ensures final == TextShape(image)
    ensures image.None? ==> final == []
    ensures image.Some? ==> |final| == Count
    ensures image.Some? && |Silhouette(image.value)| > 0 ==>
      forall i :: 0 <= i < Count ==>
        final[i] == Some(Silhouette(image.value)[i % |Silhouette(image.value)|])
    ensures image.Some? && |Silhouette(image.value)| == 0 ==>
      forall i :: 0 <= i < Count ==> final[i] == None
  {
    if image.None? {
      return [];
    }
    var points := SampleSilhouette(image.value);
    final := PadToCount(points);
    assert final == Padded(points);
  }
}
