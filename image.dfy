/** `ImageGL`: an image drawn on an aspect-correct quad, its scale setters,
    and the module-level `multiplyMatWithVec`. Arithmetic is over the reals. */
module Image {
  import opened Js

  // ---------------------------------------------------------------------------
  // The quad of #createRect
  // ---------------------------------------------------------------------------

  /** What `#createRect` returns: four homogeneous coordinates per vertex and
      two texture coordinates per vertex, for six vertices. */
  datatype RectData = RectData(coords: seq<real>, texCoords: seq<real>)

  /** The half-width and half-height of the quad for an image of the given
      size: `proportion = width / height`; below 1 the width shrinks to it,
      otherwise the height shrinks to `1 / proportion`. */
  function HalfExtents(width: real, height: real): (real, real)
    requires height != 0.0
  {
    var proportion := width / height;
    if proportion < 1.0 then (1.0 * proportion, 1.0) else (1.0, 1.0 / proportion)
  }

  /** The fixed texture coordinates, one (u, v) pair per vertex. */
  const RectTexCoords: seq<real> := [0.0, 1.0, 1.0, 1.0, 1.0, 0.0,
                                     0.0, 1.0, 1.0, 0.0, 0.0, 0.0]

  /** The two triangles (v1, v2, v3) and (v1, v3, v4) over the corners
      v1 = (-w, -h), v2 = (w, -h), v3 = (w, h), v4 = (-w, h), with z = 0 and w = 1. */
  function Corners(w: real, h: real): seq<real>
  {
    var v1 := [-w, -h, 0.0, 1.0];
    var v2 := [w, -h, 0.0, 1.0];
    var v3 := [w, h, 0.0, 1.0];
    var v4 := [-w, h, 0.0, 1.0];
    v1 + v2 + v3 + v1 + v3 + v4
  }

  function Rect(width: real, height: real): RectData
    requires height != 0.0
  {
    var e := HalfExtents(width, height);
    RectData(Corners(e.0, e.1), RectTexCoords)
  }

  /** The `k`-th vertex (0-based) of a flat list of 4-component coordinates. */
  function Vertex(coords: seq<real>, k: nat): seq<real>
    requires 4 * k + 4 <= |coords|
  {
    coords[4 * k..4 * k + 4]
  }

  /** The `k`-th texture coordinate pair of a flat list of pairs. */
  function Uv(tex: seq<real>, k: nat): (real, real)
    requires 2 * k + 2 <= |tex|
  {
    (tex[2 * k], tex[2 * k + 1])
  }

  /** The quad has 24 coordinates forming the triangles (v1, v2, v3) and
      (v1, v3, v4), where v1..v4 are the corners (-w,-h), (w,-h), (w,h), (-w,h)
      for the half extents (w, h), each with z = 0 and w = 1; and 12 texture
      coordinates, two per vertex. */
  lemma RectLayout(width: real, height: real)
    requires height != 0.0
    ensures var r := Rect(width, height);
            var (w, h) := HalfExtents(width, height);
            |r.coords| == 24 && |r.texCoords| == 12 &&
            Vertex(r.coords, 0) == [-w, -h, 0.0, 1.0] && Vertex(r.coords, 1) == [w, -h, 0.0, 1.0] &&
            Vertex(r.coords, 2) == [w, h, 0.0, 1.0] && Vertex(r.coords, 3) == [-w, -h, 0.0, 1.0] &&
            Vertex(r.coords, 4) == [w, h, 0.0, 1.0] && Vertex(r.coords, 5) == [-w, h, 0.0, 1.0]
    ensures var r := Rect(width, height);
            forall k :: 0 <= k < 6 ==> r.coords[4 * k + 2] == 0.0 && r.coords[4 * k + 3] == 1.0
  {
    var e := HalfExtents(width, height);
    CornersLayout(e.0, e.1);
  }

  lemma CornersLayout(w: real, h: real)
    ensures var c := Corners(w, h);
            |c| == 24 &&
            Vertex(c, 0) == [-w, -h, 0.0, 1.0] && Vertex(c, 1) == [w, -h, 0.0, 1.0] &&
            Vertex(c, 2) == [w, h, 0.0, 1.0] && Vertex(c, 3) == [-w, -h, 0.0, 1.0] &&
            Vertex(c, 4) == [w, h, 0.0, 1.0] && Vertex(c, 5) == [-w, h, 0.0, 1.0]
    ensures var c := Corners(w, h);
            forall k :: 0 <= k < 6 ==> c[4 * k + 2] == 0.0 && c[4 * k + 3] == 1.0
  {
    var v1 := [-w, -h, 0.0, 1.0];
    var v2 := [w, -h, 0.0, 1.0];
    var v3 := [w, h, 0.0, 1.0];
    var v4 := [-w, h, 0.0, 1.0];
    SixVertices(v1, v2, v3, v1, v3, v4);
    var c := Corners(w, h);
    forall k | 0 <= k < 6
      ensures c[4 * k + 2] == 0.0 && c[4 * k + 3] == 1.0
    {
      assert c[4 * k + 2] == Vertex(c, k)[2] && c[4 * k + 3] == Vertex(c, k)[3];
    }
  }

  /** Six 4-component vertices laid end to end. */
  lemma SixVertices(a: seq<real>, b: seq<real>, c: seq<real>, d: seq<real>, e: seq<real>, f: seq<real>)
    requires |a| == 4 && |b| == 4 && |c| == 4 && |d| == 4 && |e| == 4 && |f| == 4
    ensures var s := a + b + c + d + e + f;
            |s| == 24 && Vertex(s, 0) == a && Vertex(s, 1) == b && Vertex(s, 2) == c &&
            Vertex(s, 3) == d && Vertex(s, 4) == e && Vertex(s, 5) == f
  {
    var s := a + b + c + d + e + f;
    assert s[0..4] == a;
    assert s[4..8] == b;
    assert s[8..12] == c;
    assert s[12..16] == d;
    assert s[16..20] == e;
    assert s[20..24] == f;
  }

  /** For a positive size the quad keeps the image's aspect ratio, its longer
      side spans [-1, 1] and both half extents lie in (0, 1]. */
  lemma AspectCorrect(width: real, height: real)
    requires width > 0.0 && height > 0.0
    ensures var (w, h) := HalfExtents(width, height);
            w * height == h * width &&
            0.0 < w <= 1.0 && 0.0 < h <= 1.0 && (w == 1.0 || h == 1.0) &&
            (width < height ==> h == 1.0) && (width >= height ==> w == 1.0)
  {
    var p := width / height;
    Quotient(width, height);
    if p >= 1.0 {
      var q := 1.0 / p;
      Reciprocal(p);
      assert q * width == q * (p * height);
      assert q * (p * height) == (q * p) * height;
    }
  }

  lemma Quotient(a: real, b: real)
    requires a > 0.0 && b > 0.0
    ensures a / b > 0.0 && (a / b) * b == a && (a / b < 1.0 <==> a < b)
  {
    var q := a / b;
    assert q * b == a;
    SignOfProduct(q, b);
    assert (q - 1.0) * b == a - b;
    SignOfProduct(q - 1.0, b);
  }

  lemma SignOfProduct(x: real, b: real)
    requires b > 0.0
    ensures x * b > 0.0 <==> x > 0.0
    ensures x * b < 0.0 <==> x < 0.0
  {
  }

  lemma Reciprocal(p: real)
    requires p >= 1.0
    ensures 0.0 < 1.0 / p <= 1.0 && (1.0 / p) * p == 1.0
  {
  }

  /** Twice the signed area of the triangle (a, b, c) in the x/y plane. */
  function SignedArea2(a: seq<real>, b: seq<real>, c: seq<real>): real
    requires |a| >= 2 && |b| >= 2 && |c| >= 2
  {
    (b[0] - a[0]) * (c[1] - a[1]) - (c[0] - a[0]) * (b[1] - a[1])
  }

  /** For a positive size both triangles wind counter-clockwise. */
  lemma RectCounterClockwise(width: real, height: real)
    requires width > 0.0 && height > 0.0
    ensures var c := Rect(width, height).coords;
            |c| == 24 &&
            SignedArea2(Vertex(c, 0), Vertex(c, 1), Vertex(c, 2)) > 0.0 &&
            SignedArea2(Vertex(c, 3), Vertex(c, 4), Vertex(c, 5)) > 0.0
  {
    RectLayout(width, height);
    AspectCorrect(width, height);
    var (w, h) := HalfExtents(width, height);
    assert (2.0 * w) * (2.0 * h) > 0.0;
  }

  /** Every vertex gets the texture corner of its own quad corner, with v
      running downwards: x = w (2u - 1) and y = h (1 - 2v). */
  lemma RectTexCoordsMatchCorners(width: real, height: real)
    requires height != 0.0
    ensures var r := Rect(width, height);
            var e := HalfExtents(width, height);
            |r.coords| == 24 && |r.texCoords| == 12 &&
            forall k :: 0 <= k < 6 ==>
              r.coords[4 * k] == e.0 * (2.0 * Uv(r.texCoords, k).0 - 1.0) &&
              r.coords[4 * k + 1] == e.1 * (1.0 - 2.0 * Uv(r.texCoords, k).1)
  {
    RectLayout(width, height);
    forall k | 0 <= k < 6
      ensures var r := Rect(width, height);
              var e := HalfExtents(width, height);
              r.coords[4 * k] == e.0 * (2.0 * Uv(r.texCoords, k).0 - 1.0) &&
              r.coords[4 * k + 1] == e.1 * (1.0 - 2.0 * Uv(r.texCoords, k).1)
    {
      TexCornerAt(width, height, k);
    }
  }

  lemma TexCornerAt(width: real, height: real, k: nat)
    requires height != 0.0 && k < 6
    ensures var r := Rect(width, height);
            var e := HalfExtents(width, height);
            |r.coords| == 24 && |r.texCoords| == 12 &&
            r.coords[4 * k] == e.0 * (2.0 * Uv(r.texCoords, k).0 - 1.0) &&
            r.coords[4 * k + 1] == e.1 * (1.0 - 2.0 * Uv(r.texCoords, k).1)
  {
    RectLayout(width, height);
    var c, t := Rect(width, height).coords, Rect(width, height).texCoords;
    var w, h := HalfExtents(width, height).0, HalfExtents(width, height).1;
    assert c[4 * k] == Vertex(c, k)[0] && c[4 * k + 1] == Vertex(c, k)[1];
    var (u, v) := Uv(t, k);
    if k == 0 || k == 3 {
      assert u == 0.0 && v == 1.0 && c[4 * k] == -w && c[4 * k + 1] == -h;
    } else if k == 1 {
      assert u == 1.0 && v == 1.0 && c[4 * k] == w && c[4 * k + 1] == -h;
    } else if k == 2 || k == 4 {
      assert u == 1.0 && v == 0.0 && c[4 * k] == w && c[4 * k + 1] == h;
    } else {
      assert u == 0.0 && v == 0.0 && c[4 * k] == -w && c[4 * k + 1] == h;
    }
  }

  // ---------------------------------------------------------------------------
  // multiplyMatWithVec
  // ---------------------------------------------------------------------------

  /** How many times the inner loop runs: once for each j = 0, 4, 8, ... below `m`. */
  function Passes(m: nat): nat
  {
    (m + 3) / 4
  }

  /** `out[i]` after `k` passes of the inner loop: `out[i] += mat[j + i] * vec[j / 4]`
      for j = 0, 4, ..., 4 (k - 1), starting from 0; a read past either array
      gives NaN. */
  function ColumnFold(mat: seq<real>, vec: seq<real>, i: nat, k: nat): Num
  {
    if k == 0 then Fin(0.0)
    else Add(ColumnFold(mat, vec, i, k - 1), Mul(AtReal(mat, 4 * (k - 1) + i), AtReal(vec, k - 1)))
  }

  /** `multiplyMatWithVec(mat, vec)`: undefined unless `mat` has |vec|^2
      entries; otherwise a new array of |vec| entries, entry i being the fold
      of the inner loop. */
  method MultiplyMatWithVec(mat: seq<real>, vec: seq<real>) returns (out: Option<seq<Num>>)
    ensures out.None? <==> |mat| != |vec| * |vec|
    ensures out.Some? ==> |out.value| == |vec| &&
                          forall i :: 0 <= i < |vec| ==> out.value[i] == ColumnFold(mat, vec, i, Passes(|mat|))
  {
    var n := |vec|;
    var o := new Num[n](_ => Fin(0.0));
    if n * n != |mat| {
      return None;
    }
    var i := 0;
    while i < n
      invariant 0 <= i <= n
      invariant forall p :: 0 <= p < i ==> o[p] == ColumnFold(mat, vec, p, Passes(|mat|))
      invariant forall p :: i <= p < n ==> o[p] == Fin(0.0)
    {
      StrideFourPasses(o, mat, vec, i);
      i := i + 1;
    }
    return Some(o[..]);
  }

  /** The inner loop of `multiplyMatWithVec` for output entry `i`:
      `o[i] += mat[j + i] * vec[j / 4]` for j = 0, 4, 8, ... below |mat|. */
  method StrideFourPasses(o: array<Num>, mat: seq<real>, vec: seq<real>, i: nat)
    requires i < o.Length && o[i] == Fin(0.0)
    modifies o
    ensures o[i] == ColumnFold(mat, vec, i, Passes(|mat|))
    ensures forall p :: 0 <= p < o.Length && p != i ==> o[p] == old(o[p])
  {
    var j := 0;
    ghost var k := 0;
    while j < |mat|
      invariant j == 4 * k && k <= Passes(|mat|)
      invariant o[i] == ColumnFold(mat, vec, i, k)
      invariant forall p :: 0 <= p < o.Length && p != i ==> o[p] == old(o[p])
    {
      NextPass(k, |mat|);
      ColumnFoldStep(mat, vec, i, k);
      o[i] := Add(o[i], Mul(AtReal(mat, j + i), AtReal(vec, j / 4)));
      j := j + 4;
      k := k + 1;
    }
    LastPass(k, |mat|);
  }

  lemma ColumnFoldStep(mat: seq<real>, vec: seq<real>, i: nat, k: nat)
    ensures ColumnFold(mat, vec, i, k + 1) ==
            Add(ColumnFold(mat, vec, i, k), Mul(AtReal(mat, 4 * k + i), AtReal(vec, k)))
  {
  }

  lemma NextPass(k: nat, m: nat)
    requires 4 * k < m
    ensures (4 * k) / 4 == k && k + 1 <= Passes(m)
  {
  }

  lemma LastPass(k: nat, m: nat)
    requires k <= Passes(m) && m <= 4 * k
    ensures k == Passes(m)
  {
  }

  /** For a 4-vector and a 16-entry matrix the result is the column-major
      product: out[i] = mat[i] vec[0] + mat[4 + i] vec[1] + mat[8 + i] vec[2] + mat[12 + i] vec[3]. */
  lemma MultiplyMat4(mat: seq<real>, vec: seq<real>, i: nat)
    requires |mat| == 16 && |vec| == 4 && i < 4
    ensures ColumnFold(mat, vec, i, Passes(|mat|)) ==
            Fin(mat[i] * vec[0] + mat[4 + i] * vec[1] + mat[8 + i] * vec[2] + mat[12 + i] * vec[3])
  {
    assert Passes(16) == 4;
    assert ColumnFold(mat, vec, i, 1) == Fin(mat[i] * vec[0]);
    assert ColumnFold(mat, vec, i, 2) == Fin(mat[i] * vec[0] + mat[4 + i] * vec[1]);
    assert ColumnFold(mat, vec, i, 3) == Fin(mat[i] * vec[0] + mat[4 + i] * vec[1] + mat[8 + i] * vec[2]);
  }

  /** Entry (row r, column c) of a column-major n-by-n matrix. */
  function Entry(mat: seq<real>, n: nat, r: nat, c: nat): real
    requires r < n && c < n && |mat| == n * n
  {
    InSquare(n, r, c);
    mat[c * n + r]
  }

  lemma InSquare(n: nat, r: nat, c: nat)
    requires r < n && c < n
    ensures c * n + r < n * n
  {
    MulLe(c + 1, n, n);
  }

  lemma MulLe(a: nat, b: nat, n: nat)
    requires a <= b
    ensures a * n <= b * n
  {
    MulNat(b - a, n);
    assert b * n == a * n + (b - a) * n;
  }

  lemma MulNat(a: nat, b: nat)
    ensures a * b >= 0
  {
  }

  /** Row `r` of the column-major product, over the first `k` columns. */
  function ColumnMajorRow(mat: seq<real>, vec: seq<real>, r: nat, k: nat): real
    requires r < |vec| && k <= |vec| && |mat| == |vec| * |vec|
  {
    if k == 0 then 0.0
    else ColumnMajorRow(mat, vec, r, k - 1) + Entry(mat, |vec|, r, k - 1) * vec[k - 1]
  }

  /** The matrix-vector product with stride |vec|, valid for every size.
      For |vec| = 4 it agrees with `MultiplyMatWithVec`. */
  method MultiplyColumnMajor(mat: seq<real>, vec: seq<real>) returns (out: Option<seq<real>>)
    ensures out.None? <==> |mat| != |vec| * |vec|
    ensures out.Some? ==> |out.value| == |vec| &&
                          forall r :: 0 <= r < |vec| ==> out.value[r] == ColumnMajorRow(mat, vec, r, |vec|)
  {
    var n := |vec|;
    var o := new real[n](_ => 0.0);
    if n * n != |mat| {
      return None;
    }
    var r := 0;
    while r < n
      invariant 0 <= r <= n
      invariant forall p :: 0 <= p < r ==> o[p] == ColumnMajorRow(mat, vec, p, n)
      invariant forall p :: r <= p < n ==> o[p] == 0.0
    {
      AccumulateRow(o, mat, vec, r);
      r := r + 1;
    }
    return Some(o[..]);
  }

  /** Row `r` of the product accumulated into `o[r]`, column by column. */
  method AccumulateRow(o: array<real>, mat: seq<real>, vec: seq<real>, r: nat)
    requires r < |vec| == o.Length && |mat| == |vec| * |vec| && o[r] == 0.0
    modifies o
    ensures o[r] == ColumnMajorRow(mat, vec, r, |vec|)
    ensures forall p :: 0 <= p < o.Length && p != r ==> o[p] == old(o[p])
  {
    var n := |vec|;
    var c := 0;
    while c < n
      invariant 0 <= c <= n
      invariant o[r] == ColumnMajorRow(mat, vec, r, c)
      invariant forall p :: 0 <= p < o.Length && p != r ==> o[p] == old(o[p])
    {
      o[r] := o[r] + Entry(mat, n, r, c) * vec[c];
      c := c + 1;
    }
  }

  /** For the 4 by 4 case the program uses, the stride-4 loop and the
      column-major product agree. */
  lemma MultiplyAgreesOn4(mat: seq<real>, vec: seq<real>, i: nat)
    requires |mat| == 16 && |vec| == 4 && i < 4
    ensures ColumnFold(mat, vec, i, Passes(|mat|)) == Fin(ColumnMajorRow(mat, vec, i, 4))
  {
    MultiplyMat4(mat, vec, i);
    assert ColumnMajorRow(mat, vec, i, 1) == mat[i] * vec[0];
    assert ColumnMajorRow(mat, vec, i, 2) == mat[i] * vec[0] + mat[4 + i] * vec[1];
    assert ColumnMajorRow(mat, vec, i, 3) == mat[i] * vec[0] + mat[4 + i] * vec[1] + mat[8 + i] * vec[2];
    assert Entry(mat, 4, i, 0) == mat[i];
    assert Entry(mat, 4, i, 1) == mat[4 + i];
    assert Entry(mat, 4, i, 2) == mat[8 + i];
    assert Entry(mat, 4, i, 3) == mat[12 + i];
  }

  ghost predicate IsIdentity(mat: seq<real>, n: nat)
    requires |mat| == n * n
  {
    forall r, c :: 0 <= r < n && 0 <= c < n ==> Entry(mat, n, r, c) == if r == c then 1.0 else 0.0
  }

  lemma {:induction false} IdentityRow(mat: seq<real>, vec: seq<real>, r: nat, k: nat)
    requires r < |vec| && k <= |vec| && |mat| == |vec| * |vec| && IsIdentity(mat, |vec|)
    ensures ColumnMajorRow(mat, vec, r, k) == if r < k then vec[r] else 0.0
  {
    if k > 0 {
      IdentityRow(mat, vec, r, k - 1);
      assert Entry(mat, |vec|, r, k - 1) == if r == k - 1 then 1.0 else 0.0;
    }
  }

  /** The corrected product maps a vector through the identity matrix unchanged. */
  lemma ColumnMajorIdentity(mat: seq<real>, vec: seq<real>, r: nat)
    requires r < |vec| && |mat| == |vec| * |vec| && IsIdentity(mat, |vec|)
    ensures ColumnMajorRow(mat, vec, r, |vec|) == vec[r]
  {
    IdentityRow(mat, vec, r, |vec|);
  }

  /** For a 2-vector the stride-4 loop runs once, so only the first column
      of the matrix is used. */
  lemma StrideFourOn2by2(mat: seq<real>, vec: seq<real>)
    requires |mat| == 4 && |vec| == 2
    ensures ColumnFold(mat, vec, 0, Passes(|mat|)) == Fin(mat[0] * vec[0])
    ensures ColumnFold(mat, vec, 1, Passes(|mat|)) == Fin(mat[1] * vec[0])
    ensures ColumnMajorRow(mat, vec, 1, 2) == mat[1] * vec[0] + mat[3] * vec[1]
  {
    assert Passes(|mat|) == 1;
    assert Entry(mat, 2, 1, 0) == mat[1];
    assert Entry(mat, 2, 1, 1) == mat[3];
    assert ColumnMajorRow(mat, vec, 1, 1) == mat[1] * vec[0];
  }

  /** Through the 2 by 2 identity matrix [1, 0, 0, 1] the vector (0, 1) comes
      out of the stride-4 loop with second entry 0, where the product has 1. */
  lemma StrideFourIdentityCounterexample(mat: seq<real>, vec: seq<real>)
    requires mat == [1.0, 0.0, 0.0, 1.0] && vec == [0.0, 1.0]
    ensures ColumnFold(mat, vec, 1, Passes(|mat|)) == Fin(0.0)
    ensures ColumnMajorRow(mat, vec, 1, 2) == 1.0
  {
    StrideFourOn2by2(mat, vec);
  }

  // ---------------------------------------------------------------------------
  // ImageGL
  // ---------------------------------------------------------------------------

  datatype ImageError = NonPositiveScale | NotAPair

  /** `ImageGL`: the scale vector of its mesh and the half extents recorded by
      `#createRect` (absent until it has run). */
  class ImageGL {
    var scale: seq<Value>
    var width: Option<real>
    var height: Option<real>

    ghost predicate Valid()
      reads this
    {
      |scale| == 3
    }

    /** `ImageGL` declares no constructor: this is the state once `init` has
        created `#mesh` (here its scale vector `meshScale`) and before
        `#createRect` has set `#width` and `#height`. */
    constructor (meshScale: seq<Value>)
      requires |meshScale| == 3
      ensures Valid() && scale == meshScale && width == None && height == None
    {
      scale := meshScale;
      width := None;
      height := None;
    }

    /** `set scaleX(x)`: rejects x <= 0 (a NaN passes the test); otherwise
        sets the x scale only. */
    method SetScaleX(x: Num) returns (err: Option<ImageError>)
      requires Valid()
      modifies this`scale
      ensures Valid()
      ensures err == (if x.Fin? && x.r <= 0.0 then Some(NonPositiveScale) else None)
      ensures scale == if err == None then old(scale)[0 := Number(x)] else old(scale)
    {
      if x.Fin? && x.r <= 0.0 {
        return Some(NonPositiveScale);
      }
      scale := scale[0 := Number(x)];
      return None;
    }

    /** `set scaleY(y)`: rejects y <= 0; otherwise sets the y scale only. */
    method SetScaleY(y: Num) returns (err: Option<ImageError>)
      requires Valid()
      modifies this`scale
      ensures Valid()
      ensures err == (if y.Fin? && y.r <= 0.0 then Some(NonPositiveScale) else None)
      ensures scale == if err == None then old(scale)[1 := Number(y)] else old(scale)
    {
      if y.Fin? && y.r <= 0.0 {
        return Some(NonPositiveScale);
      }
      scale := scale[1 := Number(y)];
      return None;
    }

    /** `set scale(v)`: demands an array of exactly two entries, then sets
        the scale to (v[0], v[1], 1). */
    method SetScale(v: Value) returns (err: Option<ImageError>)
      requires Valid()
      modifies this`scale
      ensures Valid()
      ensures err == (if v.Array? && |v.elems| == 2 then None else Some(NotAPair))
      ensures scale == if err == None then [v.elems[0], v.elems[1], Number(Fin(1.0))] else old(scale)
    {
      if !v.Array? || |v.elems| != 2 {
        return Some(NotAPair);
      }
      scale := [v.elems[0], v.elems[1], Number(Fin(1.0))];
      return None;
    }

    /** `#createRect(width, height)`, step by step: records the half extents
        and returns the quad, whose specification is `Rect`. */
    method CreateRect(w: real, h: real) returns (data: RectData)
      requires h != 0.0
      modifies this`width, this`height
      ensures data == Rect(w, h)
      ensures width == Some(HalfExtents(w, h).0) && height == Some(HalfExtents(w, h).1)
    {
      var proportion := w / h;
      var newWidth := 1.0;
      var newHeight := 1.0;
      if proportion < 1.0 {
        newWidth := newWidth * proportion;
      } else {
        newHeight := newHeight / proportion;
      }
      width := Some(newWidth);
      height := Some(newHeight);
      var v1 := [-newWidth, -newHeight, 0.0, 1.0];
      var v2 := [newWidth, -newHeight, 0.0, 1.0];
      var v3 := [newWidth, newHeight, 0.0, 1.0];
      var v4 := [-newWidth, newHeight, 0.0, 1.0];
      data := RectData(v1 + v2 + v3 + v1 + v3 + v4, RectTexCoords);
      assert data.coords == Corners(newWidth, newHeight);
    }
  }
}
