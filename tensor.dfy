/** Four-dimensional tensor shapes and the flat buffer index of a coordinate,
    in NHWC or NCHW order (the `Shape` struct of cnn.h). */
module Tensor {

  /** Storage order of a 4-D tensor in a flat buffer. */
  datatype Layout = NHWC | NCHW

  /** Extents of a tensor: batch count, rows, columns and channels, and
      the order in which its elements are stored. */
  datatype Shape = Shape(number: int, height: int, width: int, channel: int, layout: Layout)

  /** A coordinate (batch, row, column, channel) into a tensor. */
  datatype Coord = Coord(n: int, y: int, x: int, c: int)

  /** All four extents are positive. */
  predicate Valid(s: Shape)
  {
    s.number >= 1 && s.height >= 1 && s.width >= 1 && s.channel >= 1
  }

  /** Every component of (n, y, x, c) lies within its extent. */
  predicate InBounds(s: Shape, n: int, y: int, x: int, c: int)
  {
    0 <= n < s.number && 0 <= y < s.height && 0 <= x < s.width && 0 <= c < s.channel
  }

  /** Number of elements a buffer of shape `s` holds. */
  function NumElements(s: Shape): (r: int)
    ensures Valid(s) ==> r >= s.number && r >= s.height && r >= s.width && r >= s.channel
  {
    ProductBounds(s.number, s.width, s.height, s.channel);
    s.number * s.width * s.height * s.channel
  }

  /** Flat index of (n, y, x, c). The source asserts only the upper bounds;
      the index lands inside the buffer when the lower bounds hold too. */
  function Offset(s: Shape, n: int, y: int, x: int, c: int): (r: int)
    requires n < s.number && y < s.height && x < s.width && c < s.channel
    ensures InBounds(s, n, y, x, c) ==> 0 <= r < NumElements(s)
  {
    match s.layout
    case NCHW =>
      RadixExpanded(n, c, y, x, s.channel, s.height, s.width);
      RadixRange(n, c, y, x, s.number, s.channel, s.height, s.width);
      ProductOrder(s.number, s.width, s.height, s.channel);
      n * s.channel * s.height * s.width + c * s.height * s.width + y * s.width + x
    case NHWC =>
      RadixExpanded(n, y, x, c, s.height, s.width, s.channel);
      RadixRange(n, y, x, c, s.number, s.height, s.width, s.channel);
      ProductOrder(s.number, s.width, s.height, s.channel);
      n * s.height * s.width * s.channel + y * s.width * s.channel + x * s.channel + c
  }

  /** The coordinate stored at flat index `k`: the inverse of Offset. */
  function Coords(s: Shape, k: int): (p: Coord)
    requires Valid(s) && 0 <= k < NumElements(s)
    ensures InBounds(s, p.n, p.y, p.x, p.c)
    ensures Offset(s, p.n, p.y, p.x, p.c) == k
  {
    ProductOrder(s.number, s.width, s.height, s.channel);
    match s.layout
    case NCHW =>
      var (a, b, d, e) := Digits(k, s.number, s.channel, s.height, s.width);
      RadixExpanded(a, b, d, e, s.channel, s.height, s.width);
      Coord(a, d, e, b)
    case NHWC =>
      var (a, b, d, e) := Digits(k, s.number, s.height, s.width, s.channel);
      RadixExpanded(a, b, d, e, s.height, s.width, s.channel);
      Coord(a, b, d, e)
  }

  /** Offset never sends two coordinates of a valid shape to one index. */
  lemma OffsetInjective(s: Shape, p: Coord, q: Coord)
    requires Valid(s)
    requires InBounds(s, p.n, p.y, p.x, p.c) && InBounds(s, q.n, q.y, q.x, q.c)
    requires Offset(s, p.n, p.y, p.x, p.c) == Offset(s, q.n, q.y, q.x, q.c)
    ensures p == q
  {
    match s.layout
    case NCHW =>
      RadixExpanded(p.n, p.c, p.y, p.x, s.channel, s.height, s.width);
      RadixExpanded(q.n, q.c, q.y, q.x, s.channel, s.height, s.width);
      RadixUnique(p.n, p.c, p.y, p.x, q.n, q.c, q.y, q.x, s.channel, s.height, s.width);
    case NHWC =>
      RadixExpanded(p.n, p.y, p.x, p.c, s.height, s.width, s.channel);
      RadixExpanded(q.n, q.y, q.x, q.c, s.height, s.width, s.channel);
      RadixUnique(p.n, p.y, p.x, p.c, q.n, q.y, q.x, q.c, s.height, s.width, s.channel);
  }

  /** Coords undoes Offset: every in-bounds coordinate is recovered from its index. */
  lemma CoordsOfOffset(s: Shape, n: int, y: int, x: int, c: int)
    requires Valid(s) && InBounds(s, n, y, x, c)
    ensures Coords(s, Offset(s, n, y, x, c)) == Coord(n, y, x, c)
  {
    var p := Coords(s, Offset(s, n, y, x, c));
    OffsetInjective(s, p, Coord(n, y, x, c));
  }

  lemma CoordsOfOffsetAll(s: Shape)
    requires Valid(s)
    ensures forall n, y, x, c :: InBounds(s, n, y, x, c) ==> Coords(s, Offset(s, n, y, x, c)) == Coord(n, y, x, c)
  {
    forall n, y, x, c | InBounds(s, n, y, x, c)
      ensures Coords(s, Offset(s, n, y, x, c)) == Coord(n, y, x, c)
    {
      CoordsOfOffset(s, n, y, x, c);
    }
  }

  /** Index `i` holds an element of batch 0. */
  predicate Batch0(s: Shape, i: int)
  {
    Valid(s) && 0 <= i < NumElements(s) && Coords(s, i).n == 0
  }

  // ---------------------------------------------------------------------
  // Mixed-radix arithmetic behind Offset and Coords.

  /** The number with digits a, b, d, e, where b, d, e have radices B, D, E. */
  function Radix(a: int, b: int, d: int, e: int, B: int, D: int, E: int): int
  {
    ((a * B + b) * D + d) * E + e
  }

  lemma RadixExpanded(a: int, b: int, d: int, e: int, B: int, D: int, E: int)
    ensures Radix(a, b, d, e, B, D, E) == a * B * D * E + b * D * E + d * E + e
  {
    calc {
      ((a * B + b) * D + d) * E + e;
      (a * B * D + b * D + d) * E + e;
      a * B * D * E + b * D * E + d * E + e;
    }
  }

  lemma MulMono(a: int, b: int, m: int)
    requires a <= b && m >= 0
    ensures a * m <= b * m
  {
    assert b * m - a * m == (b - a) * m;
  }

  /** One more digit keeps the value below the enlarged radix product. */
  lemma DigitStep(q: int, r: int, Q: int, m: int)
    requires 0 <= q < Q && 0 <= r < m
    ensures 0 <= q * m + r < Q * m
  {
    MulMono(0, q, m);
    MulMono(q, Q - 1, m);
    assert (Q - 1) * m == Q * m - m;
  }

  lemma RadixRange(a: int, b: int, d: int, e: int, A: int, B: int, D: int, E: int)
    ensures 0 <= a < A && 0 <= b < B && 0 <= d < D && 0 <= e < E ==>
              0 <= Radix(a, b, d, e, B, D, E) < A * B * D * E
  {
    if 0 <= a < A && 0 <= b < B && 0 <= d < D && 0 <= e < E {
      DigitStep(a, b, A, B);
      DigitStep(a * B + b, d, A * B, D);
      DigitStep((a * B + b) * D + d, e, A * B * D, E);
    }
  }

  lemma ProductOrder(N: int, W: int, H: int, C: int)
    ensures N * W * H * C == N * H * W * C == N * C * H * W
  {
    assert N * W * H * C == N * (W * H) * C;
    assert N * C * H * W == N * (C * (H * W));
  }

  lemma ProductBounds(N: int, W: int, H: int, C: int)
    ensures N >= 1 && W >= 1 && H >= 1 && C >= 1 ==>
              N * W * H * C >= N && N * W * H * C >= W && N * W * H * C >= H && N * W * H * C >= C
  {
    if N >= 1 && W >= 1 && H >= 1 && C >= 1 {
      MulMono(1, N, W); MulMono(1, W, N);
      MulMono(1, N * W, H); MulMono(1, H, N * W);
      MulMono(1, N * W * H, C); MulMono(1, C, N * W * H);
    }
  }

  /** Division by a positive radix recovers quotient and remainder. */
  lemma DivModUnique(q: int, r: int, m: int)
    requires m > 0 && 0 <= r < m
    ensures (q * m + r) / m == q && (q * m + r) % m == r
  {
    var k := q * m + r;
    var q' := k / m;
    assert k == q' * m + k % m;
    assert (q - q') * m == k % m - r;
    if q - q' >= 1 {
      MulMono(1, q - q', m);
    } else if q - q' <= -1 {
      MulMono(q - q', -1, m);
    }
  }

  /** A value below Q * m has a quotient by m below Q. */
  lemma DivBelow(k: int, Q: int, m: int)
    requires m > 0 && 0 <= k < Q * m
    ensures 0 <= k / m < Q
  {
    assert k == (k / m) * m + k % m;
    if k / m >= Q {
      MulMono(Q, k / m, m);
    }
    if k / m < 0 {
      MulMono(k / m, -1, m);
    }
  }

  /** The four digits of `k` in radices (A, B, D, E), most significant first. */
  function Digits(k: int, A: int, B: int, D: int, E: int): (r: (int, int, int, int))
    requires A >= 1 && B >= 1 && D >= 1 && E >= 1 && 0 <= k < A * B * D * E
    ensures 0 <= r.0 < A && 0 <= r.1 < B && 0 <= r.2 < D && 0 <= r.3 < E
    ensures Radix(r.0, r.1, r.2, r.3, B, D, E) == k
  {
    var k1 := k / E;
    var k2 := k1 / D;
    DivBelow(k, A * B * D, E);
    DivBelow(k1, A * B, D);
    DivBelow(k2, A, B);
    assert k == k1 * E + k % E;
    assert k1 == k2 * D + k1 % D;
    assert k2 == (k2 / B) * B + k2 % B;
    (k2 / B, k2 % B, k1 % D, k % E)
  }

  lemma RadixUnique(a: int, b: int, d: int, e: int, a': int, b': int, d': int, e': int, B: int, D: int, E: int)
    requires 0 <= b < B && 0 <= d < D && 0 <= e < E
    requires 0 <= b' < B && 0 <= d' < D && 0 <= e' < E
    requires Radix(a, b, d, e, B, D, E) == Radix(a', b', d', e', B, D, E)
    ensures a == a' && b == b' && d == d' && e == e'
  {
    DivModUnique((a * B + b) * D + d, e, E);
    DivModUnique((a' * B + b') * D + d', e', E);
    DivModUnique(a * B + b, d, D);
    DivModUnique(a' * B + b', d', D);
    DivModUnique(a, b, B);
    DivModUnique(a', b', B);
  }
}
