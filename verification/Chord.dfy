/**
 * The sum of two points of secp256k1 lies on the line through them, reflected, and its x coordinate is
 * the one that the law of the chord gives. Both are stated without divisions, and say nothing about
 * points that are equal, where doubling takes over.
 */
module Chord {
  import opened Zp
  import opened Secp256k1

  /** The products of the coordinates of two points. */
  datatype Cross = Cross(zx: int, xz: int, xy: int, yx: int, yz: int, zy: int, xx: int, yy: int, zz: int)

  function CrossOf(a: Point, b: Point): Cross {
    Cross(b.x * a.z, a.x * b.z, a.x * b.y, b.x * a.y, a.y * b.z, b.y * a.z, a.x * b.x, a.y * b.y, a.z * b.z)
  }

  // --- Monomials in the coordinates are monomials in these products ---

  lemma Exchanged(ac: int, bd: int, a: int, b: int, c: int, d: int, ad: int, bc: int)
    requires ac == a * c && bd == b * d && ad == a * d && bc == b * c
    ensures ac * bd == ad * bc
  {
  }

  lemma Mixed(a: Point, b: Point, c: Cross)
    requires c == CrossOf(a, b)
    ensures c.zy * c.yx == c.zx * c.yy && c.yz * c.xy == c.xz * c.yy
    ensures c.zx * c.xy == c.xx * c.zy && c.xz * c.yx == c.xx * c.yz
    ensures c.yx * c.zz == c.zx * c.yz && c.xy * c.zz == c.xz * c.zy && c.xx * c.zz == c.zx * c.xz
  {
    Exchanged(c.zy, c.yx, b.y, b.x, a.z, a.y, c.yy, c.zx);
    Exchanged(c.yz, c.xy, b.z, b.y, a.y, a.x, c.xz, c.yy);
    Exchanged(c.zx, c.xy, a.z, a.x, b.x, b.y, c.zy, c.xx);
    Exchanged(c.xz, c.yx, b.z, b.x, a.x, a.y, c.yz, c.xx);
    Exchanged(c.yx, c.zz, b.x, b.z, a.y, a.z, c.zx, c.yz);
    Exchanged(c.xy, c.zz, a.x, a.z, b.y, b.z, c.xz, c.zy);
    Exchanged(c.xx, c.zz, b.x, b.z, a.x, a.z, c.zx, c.xz);
  }

  lemma CubeOf(x: int, z: int, n: int)
    requires n == x * z
    ensures n * n * n == z * z * z * (x * x * x)
  {
  }

  lemma SquareTimes(y: int, z: int, w: int, s: int, zz: int)
    requires s == y * z && zz == z * w
    ensures s * s * zz == z * z * z * (y * y * w)
  {
  }

  lemma CubeTimes(x: int, u: int, x': int, n: int, xx: int)
    requires n == x' * u && xx == x * x'
    ensures x * (u * u) * (x' * x' * x') == xx * (n * n)
  {
  }

  lemma SquaresTimes(x: int, u: int, u': int, z': int, m: int, uu: int)
    requires m == x * z' && uu == u * u'
    ensures x * (u * u) * (u' * u' * z') == uu * uu * m
  {
  }

  lemma SquareZ(x: int, z: int, y': int, z': int, p: int, s: int, zz: int)
    requires p == x * y' && s == y' * z && zz == z * z'
    ensures x * (z * z) * (y' * y' * z') == zz * (s * p)
  {
  }

  lemma SquareY(x: int, y: int, z': int, m: int, r: int)
    requires m == x * z' && r == y * z'
    ensures x * (y * y) * (z' * z' * z') == m * (r * r)
  {
  }

  lemma AllY(x': int, y: int, y': int, z: int, z': int, n: int, r: int, yy: int)
    requires n == x' * z && r == y * z' && yy == y * y'
    ensures x' * y' * z' * (y * y * z) == yy * (n * r)
  {
  }

  lemma AllX(x: int, x': int, y: int, z: int, n: int, q: int, xx: int)
    requires n == x' * z && q == x' * y && xx == x * x'
    ensures x * y * z * (x' * x' * x') == n * q * xx
  {
  }

  lemma AllZ(x': int, y': int, z: int, z': int, n: int, s: int, zz: int)
    requires n == x' * z && s == y' * z && zz == z * z'
    ensures x' * y' * z' * (z * z * z) == zz * (s * n)
  {
  }

  lemma Falls(a: Point, k: int)
    ensures k * Miss(a) == k * (a.x * a.x * a.x) + 7 * (k * (a.z * a.z * a.z)) - k * (a.y * a.y * a.z)
  {
  }

  // --- What the curve makes of three products of differences ---

  lemma Powers(n: int, m: int, r: int, s: int, zz: int)
    ensures (s - r) * (r + s) * zz == s * s * zz - r * r * zz
    ensures (n - m) * (n * n + n * m + m * m) == n * n * n - m * m * m
  {
  }

  lemma Swap(a: int, b: int)
    ensures a * b == b * a
  {
  }

  lemma ByCubes(a: Point, b: Point, c: Cross)
    requires c == CrossOf(a, b)
    ensures (c.zy - c.yz) * (c.yz + c.zy) * c.zz ==
      (c.zx - c.xz) * (c.zx * c.zx + c.zx * c.xz + c.xz * c.xz) + b.z * b.z * b.z * Miss(a) - a.z * a.z * a.z * Miss(b)
  {
    hide Miss;
    CubeOf(b.x, a.z, c.zx);
    CubeOf(a.x, b.z, c.xz);
    SquareTimes(b.y, a.z, b.z, c.zy, c.zz);
    SquareTimes(a.y, b.z, a.z, c.yz, c.zz);
    Powers(c.zx, c.xz, c.yz, c.zy, c.zz);
    Falls(a, b.z * b.z * b.z);
    Falls(b, a.z * a.z * a.z);
    Swap(a.z * a.z * a.z, b.z * b.z * b.z);
  }

  lemma Foil(n: int, m: int, p: int, q: int, r: int, s: int, xx: int, yy: int, zz: int)
    requires s * q == n * yy && r * p == m * yy
    ensures zz * ((s - r) * (p + q)) == zz * (s * p) - zz * (r * q) + (n - m) * (zz * yy)
    ensures (n - m) * (xx * (n + m) - 7 * (zz * zz) + zz * yy) ==
      xx * (n * n) - xx * (m * m) - 7 * (zz * zz * n) + 7 * (zz * zz * m) + (n - m) * (zz * yy)
  {
    assert (s - r) * (p + q) == s * p - r * q + (n - m) * yy;
  }

  lemma BySlopes(a: Point, b: Point, c: Cross)
    requires c == CrossOf(a, b)
    ensures c.zz * ((c.zy - c.yz) * (c.xy + c.yx)) ==
      (c.zx - c.xz) * (c.xx * (c.zx + c.xz) - 7 * (c.zz * c.zz) + c.zz * c.yy)
      + b.x * (b.z * b.z) * Miss(a) - a.x * (a.z * a.z) * Miss(b)
  {
    hide Miss;
    Mixed(a, b, c);
    TimesZ(a, b, c);
    TimesZ(b, a, CrossOf(b, a));
    Foil(c.zx, c.xz, c.xy, c.yx, c.yz, c.zy, c.xx, c.yy, c.zz);
  }

  /** What `b` misses the curve by, times x z z of `a`. */
  lemma TimesZ(a: Point, b: Point, c: Cross)
    requires c == CrossOf(a, b)
    ensures a.x * (a.z * a.z) * Miss(b) == c.xx * (c.zx * c.zx) + 7 * (c.zz * c.zz * c.xz) - c.zz * (c.zy * c.xy)
  {
    hide Miss;
    Falls(b, a.x * (a.z * a.z));
    CubeTimes(a.x, a.z, b.x, c.zx, c.xx);
    SquaresTimes(a.x, a.z, b.z, b.z, c.xz, c.zz);
    SquareZ(a.x, a.z, b.y, b.z, c.xy, c.zy, c.zz);
  }

  lemma Minus(k: int, u: int, v: int)
    ensures k * (u - v) == k * u - k * v && (u - v) * k == u * k - v * k
  {
  }

  lemma ByProducts(a: Point, b: Point, c: Cross)
    requires c == CrossOf(a, b)
    ensures c.yy * (c.zx * c.yz - c.xz * c.zy) + (c.zx * c.yx - c.xz * c.xy) * c.xx
        - 7 * (c.zz * (c.zy * c.zx - c.yz * c.xz))
      == a.x * a.y * a.z * Miss(b) - b.x * b.y * b.z * Miss(a)
  {
    hide Miss;
    AllY(b.x, a.y, b.y, a.z, b.z, c.zx, c.yz, c.yy);
    AllY(a.x, b.y, a.y, b.z, a.z, c.xz, c.zy, c.yy);
    AllX(a.x, b.x, a.y, a.z, c.zx, c.yx, c.xx);
    AllX(b.x, a.x, b.y, b.z, c.xz, c.xy, c.xx);
    AllZ(b.x, b.y, a.z, b.z, c.zx, c.zy, c.zz);
    AllZ(a.x, a.y, b.z, a.z, c.xz, c.yz, c.zz);
    Falls(a, b.x * b.y * b.z);
    Falls(b, a.x * a.y * a.z);
    Minus(c.yy, c.zx * c.yz, c.xz * c.zy);
    Minus(c.xx, c.zx * c.yx, c.xz * c.xy);
    Minus(c.zz, c.zy * c.zx, c.yz * c.xz);
  }

  // --- The x coordinate ---

  lemma Cofactors(n: int, m: int, r: int, s: int)
    ensures n * n * r - m * m * s + (n + m) * ((n - m) * (r + s)) - (s - r) * (n * n + n * m + m * m)
        - 2 * ((s - r) * (n * m)) == 3 * ((n + m) * (n * r - m * s))
    ensures n * n * r - m * m * s + (s - r) * (n * n + n * m + m * m) == (n + m) * (s * n - r * m)
  {
  }

  lemma Gathered(u: int, vt: int, vs: int, m: int, xx: int, yy: int, zz: int, k: int, q: int, d: int, e: int)
    requires vt == xx * u + k && k * zz == d && u * (xx * zz) == e
    ensures vt * (zz * (yy - 21 * zz) + 3 * xx * m) + vs * m * yy - u * q * (yy + 21 * zz)
        - 3 * (xx * u) * (xx * m - 7 * (zz * zz) + zz * yy)
      == yy * (d + m * vs - u * q - 2 * e) - 21 * (zz * (d + u * q)) + 3 * (m * (k * xx))
  {
    assert vt * (zz * (yy - 21 * zz)) == (e + d) * (yy - 21 * zz) by {
      assert vt * zz == e + d;
      Assoc(vt, zz, yy - 21 * zz);
    }
    assert xx * u * (zz * yy) == e * yy && xx * u * (zz * zz) == e * zz;
    assert vt * (xx * m) == xx * u * (xx * m) + k * xx * m;
  }

  lemma Assoc(a: int, b: int, c: int)
    ensures a * (b * c) == a * b * c
  {
  }

  lemma Expanded(n: int, m: int, p: int, q: int, r: int, s: int, xx: int, zz: int)
    requires n * p == xx * s && m * q == xx * r && q * zz == n * r && p * zz == m * s && xx * zz == n * m
    ensures (n - m) * (p + q) == xx * (s - r) + (n * q - m * p)
    ensures (n * q - m * p) * zz == n * n * r - m * m * s
    ensures (s - r) * (xx * zz) == (s - r) * (n * m)
  {
    assert (n * q - m * p) * zz == n * (q * zz) - m * (p * zz);
  }

  lemma Third(m: int, yy: int, zz: int, f: int, g: int, h: int)
    ensures yy * (3 * (m * f)) - 21 * (zz * (m * g)) + 3 * (m * h) == 3 * (m * (yy * f + h - 7 * (zz * g)))
  {
  }

  /** The same, with the products of the differences. */
  lemma Bracket(a: Point, b: Point, c: Cross)
    requires c == CrossOf(a, b)
    ensures var u, v, s, t, m := c.zy - c.yz, c.zx - c.xz, c.yz + c.zy, c.xy + c.yx, c.zx + c.xz;
      v * t * (c.zz * (c.yy - 21 * c.zz) + 3 * c.xx * m) + v * s * m * c.yy
        - u * (c.zx * c.zx + c.zx * c.xz + c.xz * c.xz) * (c.yy + 21 * c.zz)
        - 3 * (c.xx * u) * (c.xx * m - 7 * (c.zz * c.zz) + c.zz * c.yy)
      == 3 * (m * (a.x * a.y * a.z * Miss(b) - b.x * b.y * b.z * Miss(a)))
  {
    hide Miss;
    Mixed(a, b, c);
    Expanded(c.zx, c.xz, c.xy, c.yx, c.yz, c.zy, c.xx, c.zz);
    var u, vt, vs, m, k := c.zy - c.yz, (c.zx - c.xz) * (c.xy + c.yx), (c.zx - c.xz) * (c.yz + c.zy), c.zx + c.xz,
      c.zx * c.yx - c.xz * c.xy;
    var q, d, e := c.zx * c.zx + c.zx * c.xz + c.xz * c.xz, c.zx * c.zx * c.yz - c.xz * c.xz * c.zy, u * (c.zx * c.xz);
    Gathered(u, vt, vs, m, c.xx, c.yy, c.zz, k, q, d, e);
    Cofactors(c.zx, c.xz, c.yz, c.zy);
    Third(m, c.yy, c.zz, c.zx * c.yz - c.xz * c.zy, c.zy * c.zx - c.yz * c.xz, k * c.xx);
    ByProducts(a, b, c);
  }

  lemma Pulled(v: int, x: int, z: int, m: int, zz: int)
    ensures x * v * v * zz + m * v * v * z == v * v * (zz * x + m * z)
  {
  }

  lemma Left(v: int, f: int, t: int, s: int, m: int, c: int, yy: int)
    requires f == t * c + s * m * yy
    ensures v * v * f == v * (v * t * c + v * s * m * yy)
  {
  }

  lemma Right(u: int, s: int, t: int, xx: int, zz: int, b: int, z: int)
    requires z == s * b + 3 * xx * t
    ensures u * u * zz * z == u * b * (u * s * zz) + 3 * (xx * u) * (zz * (u * t))
  {
  }

  lemma Plus(k: int, a: int, b: int, c: int)
    requires c == a + b
    ensures k * c == k * a + k * b
  {
  }

  lemma Last(u: int, b: int, v: int, q: int, xu: int, w: int, a: int, h: int)
    requires a - u * q * b - 3 * xu * w == h
    ensures v * h == v * a - u * b * (v * q) - 3 * xu * (v * w)
  {
  }

  lemma Combined(u: int, v: int, s: int, t: int, m: int, xx: int, yy: int, zz: int, q: int, w: int, d: int, e: int,
        h: int, x: int, z: int, b: int, c: int)
    requires u * s * zz == v * q + d && zz * (u * t) == v * w + e
    requires b == yy + 21 * zz && c == zz * (yy - 21 * zz) + 3 * xx * m
    requires v * t * c + v * s * m * yy - u * q * b - 3 * (xx * u) * w == h
    requires z == s * b + 3 * xx * t && zz * x + m * z == t * c + s * m * yy
    ensures x * v * v * zz - (u * u * zz - m * v * v) * z == v * h - u * b * d - 3 * (xx * u) * e
  {
    Pulled(v, x, z, m, zz);
    Left(v, zz * x + m * z, t, s, m, c, yy);
    Right(u, s, t, xx, zz, b, z);
    Plus(u * b, v * q, d, u * s * zz);
    Plus(3 * (xx * u), v * w, e, zz * (u * t));
    Last(u, b, v, q, xx * u, w, v * t * c + v * s * m * yy, h);
    Minus(z, u * u * zz, m * v * v);
  }

  /** The x coordinate of the sum, up to what the points miss the curve by. */
  lemma ChordX(a: Point, b: Point, c: Cross)
    requires c == CrossOf(a, b)
    ensures var u, v, s := c.zy - c.yz, c.zx - c.xz, c.yz + c.zy;
      SumX(a, b) * v * v * c.zz - (u * u * c.zz - (c.zx + c.xz) * v * v) * SumZ(a, b) ==
        v * (3 * ((c.zx + c.xz) * (a.x * a.y * a.z * Miss(b) - b.x * b.y * b.z * Miss(a))))
        - u * (c.yy + 21 * c.zz) * (b.z * b.z * b.z * Miss(a) - a.z * a.z * a.z * Miss(b))
        - 3 * (c.xx * u) * (b.x * (b.z * b.z) * Miss(a) - a.x * (a.z * a.z) * Miss(b))
  {
    ByCubes(a, b, c);
    BySlopes(a, b, c);
    Bracket(a, b, c);
    var u, v, s, t, m := c.zy - c.yz, c.zx - c.xz, c.yz + c.zy, c.xy + c.yx, c.zx + c.xz;
    var q, w := c.zx * c.zx + c.zx * c.xz + c.xz * c.xz, c.xx * m - 7 * (c.zz * c.zz) + c.zz * c.yy;
    var x, z, y, d := SumX(a, b), SumZ(a, b), c.yy + 21 * c.zz, c.zz * (c.yy - 21 * c.zz) + 3 * c.xx * m;
    Folded(a, b, c);
    hide Miss, SumX, SumZ, CrossOf;
    Combined(u, v, s, t, m, c.xx, c.yy, c.zz, q, w, b.z * b.z * b.z * Miss(a) - a.z * a.z * a.z * Miss(b),
      b.x * (b.z * b.z) * Miss(a) - a.x * (a.z * a.z) * Miss(b),
      3 * (m * (a.x * a.y * a.z * Miss(b) - b.x * b.y * b.z * Miss(a))), x, z, y, d);
  }

  /** The sum in terms of the products. */
  lemma Folded(a: Point, b: Point, c: Cross)
    requires c == CrossOf(a, b)
    ensures SumX(a, b) == (c.xy + c.yx) * (c.yy - 21 * c.zz) - 21 * (c.yz + c.zy) * (c.xz + c.zx)
    ensures SumZ(a, b) == (c.yz + c.zy) * (c.yy + 21 * c.zz) + 3 * c.xx * (c.xy + c.yx)
    ensures SumY(a, b) == (c.yy - 21 * c.zz) * (c.yy + 21 * c.zz) + 63 * c.xx * (c.xz + c.zx)
    ensures c.zz * SumX(a, b) + (c.zx + c.xz) * SumZ(a, b) ==
      (c.xy + c.yx) * (c.zz * (c.yy - 21 * c.zz) + 3 * c.xx * (c.zx + c.xz)) + (c.yz + c.zy) * (c.zx + c.xz) * c.yy
  {
    Joined(c.yz + c.zy, c.xy + c.yx, c.zx + c.xz, c.xx, c.yy, c.zz);
  }

  lemma Joined(s: int, t: int, m: int, xx: int, yy: int, zz: int)
    ensures zz * (t * (yy - 21 * zz) - 21 * s * m) + m * (s * (yy + 21 * zz) + 3 * xx * t) ==
      t * (zz * (yy - 21 * zz) + 3 * xx * m) + s * m * yy
  {
  }

  // --- The line ---

  /** What `b` misses the curve by, times x y y of `a`. */
  lemma TimesY(a: Point, b: Point, c: Cross)
    requires c == CrossOf(a, b)
    ensures a.x * (a.y * a.y) * Miss(b) == c.xx * (c.yx * c.yx) + 7 * (c.xz * (c.yz * c.yz)) - c.yy * c.yy * c.xz
  {
    hide Miss;
    Falls(b, a.x * (a.y * a.y));
    CubeTimes(a.x, a.y, b.x, c.yx, c.xx);
    SquareY(a.x, a.y, b.z, c.xz, c.yz);
    SquaresTimes(a.x, a.y, b.y, b.z, c.xz, c.yy);
  }

  lemma Slanted(n: int, m: int, p: int, q: int, r: int, s: int, yy: int, zz: int, j: int)
    requires s * q == n * yy && r * p == m * yy && p * zz == m * s && q * zz == n * r && j == s * p - r * q
    ensures (s - r) * (p + q) == j + yy * (n - m) && (p - q) * (r + s) == j - yy * (n - m)
    ensures zz * j == m * (s * s) - n * (r * r)
  {
    assert zz * j == s * (p * zz) - r * (q * zz);
  }

  lemma Straight(u: int, v: int, s: int, t: int, w: int, m: int, xx: int, yy: int, zz: int, j: int)
    requires u * t == j + yy * v && w * s == j - yy * v
    ensures v * ((yy - 21 * zz) * (yy + 21 * zz) + 63 * xx * m) + u * (t * (yy - 21 * zz) - 21 * s * m)
        - w * (s * (yy + 21 * zz) + 3 * xx * t)
      == 3 * (yy * yy * v) - 441 * (zz * zz * v) - 42 * (zz * j) + 63 * (xx * (v * m)) - 21 * (m * (u * s))
        - 3 * (xx * (w * t))
  {
    assert u * (t * (yy - 21 * zz)) == (j + yy * v) * (yy - 21 * zz);
    assert w * (s * (yy + 21 * zz)) == (j - yy * v) * (yy + 21 * zz);
  }

  lemma Differences(n: int, m: int, p: int, q: int, r: int, s: int, xx: int, yy: int, zz: int)
    ensures xx * ((n - m) * (n + m)) == xx * (n * n) - xx * (m * m)
    ensures xx * ((p - q) * (p + q)) == xx * (p * p) - xx * (q * q)
    ensures (n + m) * ((s - r) * (r + s)) == n * (s * s) + m * (s * s) - n * (r * r) - m * (r * r)
    ensures yy * yy * (n - m) == yy * yy * n - yy * yy * m && zz * zz * (n - m) == zz * zz * n - zz * zz * m
  {
    assert (s - r) * (r + s) == s * s - r * r;
  }

  /** The sum, reflected, lies on the line through the points, up to what they miss the curve by. */
  lemma ChordLine(a: Point, b: Point, c: Cross)
    requires c == CrossOf(a, b)
    ensures (c.zx - c.xz) * SumY(a, b) + (c.zy - c.yz) * SumX(a, b) - (c.xy - c.yx) * SumZ(a, b) ==
      3 * (a.x * (a.y * a.y) * Miss(b) - b.x * (b.y * b.y) * Miss(a))
      + 63 * (a.x * (a.z * a.z) * Miss(b) - b.x * (b.z * b.z) * Miss(a))
  {
    Folded(a, b, c);
    Mixed(a, b, c);
    TimesY(a, b, c);
    TimesY(b, a, CrossOf(b, a));
    TimesZ(a, b, c);
    TimesZ(b, a, CrossOf(b, a));
    var u, v, s, t, w, m := c.zy - c.yz, c.zx - c.xz, c.yz + c.zy, c.xy + c.yx, c.xy - c.yx, c.zx + c.xz;
    var j := c.zy * c.xy - c.yz * c.yx;
    Slanted(c.zx, c.xz, c.xy, c.yx, c.yz, c.zy, c.yy, c.zz, j);
    Straight(u, v, s, t, w, m, c.xx, c.yy, c.zz, j);
    Differences(c.zx, c.xz, c.xy, c.yx, c.yz, c.zy, c.xx, c.yy, c.zz);
    Minus(c.zz, c.zy * c.xy, c.yz * c.yx);
    hide Miss, SumX, SumY, SumZ;
  }

  // --- On the curve ---

  lemma Vanishes(p: int, k: int, e: int)
    requires p > 0 && Eq(p, e, 0)
    ensures Eq(p, k * e, 0)
  {
    ProductEq(p, k, k, e, 0);
  }

  lemma BothVanish(p: int, i: int, e: int, j: int, f: int)
    requires p > 0 && Eq(p, e, 0) && Eq(p, f, 0)
    ensures Eq(p, i * e - j * f, 0) && Eq(p, i * e + j * f, 0)
  {
    Vanishes(p, i, e);
    Vanishes(p, j, f);
    SumEq(p, i * e, 0, j * f, 0);
  }

  lemma LineX(x: int, y: int, z: int, u: int, v: int, w: int, sx: int, sy: int, sz: int)
    requires w * z == u * x - y * v
    ensures sy * v * z - (u * (x * sz - z * sx) - y * v * sz) == z * (v * sy + u * sx - w * sz)
  {
    assert w * sz * z == (u * x - y * v) * sz;
  }

  lemma Aligned(x: int, y: int, z: int, n: int, m: int, p: int, q: int, r: int, s: int, x': int, y': int, z': int)
    requires n == x' * z && m == x * z' && p == x * y' && q == x' * y && r == y * z' && s == y' * z
    ensures (p - q) * z == (s - r) * x - y * (n - m)
  {
    assert p * z == s * x && q * z == n * y && r * x == m * y;
  }

  /**
   * The law of the chord. With X, Y and Z the coordinates of the sum, u / v the slope of the line through
   * two points of the curve, and lower-case coordinates divided by z: X/Z is (u/v)^2 - x1 - x2, and Y/Z is
   * (u/v)(x1 - X/Z) - y1.
   */
  lemma ChordLaw(p: int, a: Point, b: Point)
    requires p > 0 && OnCurve(p, a) && OnCurve(p, b)
    ensures var u, v := b.y * a.z - a.y * b.z, b.x * a.z - a.x * b.z;
      && Eq(p, SumX(a, b) * v * v * a.z * b.z,
            (u * u * a.z * b.z - (a.x * b.z + b.x * a.z) * v * v) * SumZ(a, b))
      && Eq(p, SumY(a, b) * v * a.z, u * (a.x * SumZ(a, b) - a.z * SumX(a, b)) - a.y * v * SumZ(a, b))
  {
    MissIsZero(p, a);
    MissIsZero(p, b);
    OnTheLine(p, a, b, CrossOf(a, b));
    AtTheChord(p, a, b, CrossOf(a, b));
    hide Eq, SumX, SumY, SumZ;
    var u, v := b.y * a.z - a.y * b.z, b.x * a.z - a.x * b.z;
    Assoc(SumX(a, b) * v * v, a.z, b.z);
    Assoc(u * u, a.z, b.z);
    DistinctDiffer(p, SumX(a, b) * v * v * (a.z * b.z),
      (u * u * (a.z * b.z) - (b.x * a.z + a.x * b.z) * v * v) * SumZ(a, b));
    DistinctDiffer(p, SumY(a, b) * v * a.z, u * (a.x * SumZ(a, b) - a.z * SumX(a, b)) - a.y * v * SumZ(a, b));
  }

  lemma OnTheLine(p: int, a: Point, b: Point, c: Cross)
    requires p > 0 && Eq(p, Miss(a), 0) && Eq(p, Miss(b), 0) && c == CrossOf(a, b)
    ensures var u, v := c.zy - c.yz, c.zx - c.xz;
      Eq(p, SumY(a, b) * v * a.z - (u * (a.x * SumZ(a, b) - a.z * SumX(a, b)) - a.y * v * SumZ(a, b)), 0)
  {
    ChordLine(a, b, c);
    var u, v, w := c.zy - c.yz, c.zx - c.xz, c.xy - c.yx;
    Aligned(a.x, a.y, a.z, c.zx, c.xz, c.xy, c.yx, c.yz, c.zy, b.x, b.y, b.z);
    LineX(a.x, a.y, a.z, u, v, w, SumX(a, b), SumY(a, b), SumZ(a, b));
    hide Eq, Miss, SumX, SumY, SumZ, CrossOf;
    BothVanish(p, a.x * (a.y * a.y), Miss(b), b.x * (b.y * b.y), Miss(a));
    BothVanish(p, a.x * (a.z * a.z), Miss(b), b.x * (b.z * b.z), Miss(a));
    var e, f := a.x * (a.y * a.y) * Miss(b) - b.x * (b.y * b.y) * Miss(a),
      a.x * (a.z * a.z) * Miss(b) - b.x * (b.z * b.z) * Miss(a);
    BothVanish(p, 3, e, 63, f);
    Vanishes(p, a.z, 3 * e + 63 * f);
  }

  lemma AtTheChord(p: int, a: Point, b: Point, c: Cross)
    requires p > 0 && Eq(p, Miss(a), 0) && Eq(p, Miss(b), 0) && c == CrossOf(a, b)
    ensures var u, v := c.zy - c.yz, c.zx - c.xz;
      Eq(p, SumX(a, b) * v * v * c.zz - (u * u * c.zz - (c.zx + c.xz) * v * v) * SumZ(a, b), 0)
  {
    ChordX(a, b, c);
    hide Eq, Miss, SumX, SumY, SumZ, CrossOf;
    var u, v, m := c.zy - c.yz, c.zx - c.xz, c.zx + c.xz;
    BothVanish(p, a.x * a.y * a.z, Miss(b), b.x * b.y * b.z, Miss(a));
    BothVanish(p, b.z * b.z * b.z, Miss(a), a.z * a.z * a.z, Miss(b));
    BothVanish(p, b.x * (b.z * b.z), Miss(a), a.x * (a.z * a.z), Miss(b));
    var e, f, g := a.x * a.y * a.z * Miss(b) - b.x * b.y * b.z * Miss(a),
      b.z * b.z * b.z * Miss(a) - a.z * a.z * a.z * Miss(b), b.x * (b.z * b.z) * Miss(a) - a.x * (a.z * a.z) * Miss(b);
    Vanishes(p, m, e);
    Vanishes(p, 3, m * e);
    BothVanish(p, v, 3 * (m * e), u * (c.yy + 21 * c.zz), f);
    Vanishes(p, 3 * (c.xx * u), g);
    SumEq(p, v * (3 * (m * e)) - u * (c.yy + 21 * c.zz) * f, 0, 3 * (c.xx * u) * g, 0);
  }
}
