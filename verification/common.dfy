/**
 * Shared vocabulary of the wireframe-portrait model: 8-bit channel values,
 * pixels, optional values, Python's `int(...)` truncation of a float, the
 * decimal rendering `str(int)` used in ids and path data, and the
 * first-maximum selection that both `max(..., key=...)` and `np.argmax` perform.
 */
module Common {

  /** One 8-bit image channel (numpy `uint8`). */
  type Byte = x: int | 0 <= x < 256

  /** A three-channel pixel; the channel order (RGB or BGR) is the caller's. */
  datatype Rgb = Rgb(r: Byte, g: Byte, b: Byte)

  /** A four-channel pixel with its alpha channel. */
  datatype Rgba = Rgba(r: Byte, g: Byte, b: Byte, a: Byte)

  const White: Rgb := Rgb(255, 255, 255)

  /** `cv2.cvtColor(..., COLOR_RGB2RGBA)`: same colour, fully opaque. */
  function Opaque(p: Rgb): (q: Rgba)
    ensures q.a == 255 && RgbOf(q) == p
  {
    Rgba(p.r, p.g, p.b, 255)
  }

  function RgbOf(q: Rgba): Rgb
  {
    Rgb(q.r, q.g, q.b)
  }

  datatype Option<+T> = None | Some(value: T)

  /** A single-channel 8-bit image in row-major order. */
  datatype GrayImage = GrayImage(height: nat, width: nat, px: seq<Byte>)
  {
    predicate Valid() { |px| == height * width }
  }

  /** A three-channel 8-bit image in row-major order. */
  datatype RgbImage = RgbImage(height: nat, width: nat, px: seq<Rgb>)
  {
    predicate Valid() { |px| == height * width }
  }

  /** A four-channel 8-bit image in row-major order. */
  datatype RgbaImage = RgbaImage(height: nat, width: nat, px: seq<Rgba>)
  {
    predicate Valid() { |px| == height * width }
  }

  /** An integer point in pixel coordinates. */
  datatype Point = Point(x: int, y: int)

  function Max(a: int, b: int): int { if a >= b then a else b }
  function Min(a: int, b: int): int { if a <= b then a else b }
  function MaxR(a: real, b: real): real { if a >= b then a else b }
  function MinR(a: real, b: real): real { if a <= b then a else b }

  /** Sign facts about real products, which the solver does not find unaided. */
  lemma NonNegProduct(a: real, b: real)
    requires a >= 0.0 && b >= 0.0
    ensures a * b >= 0.0
  {
  }

  lemma PosProduct(a: real, b: real)
    requires a > 0.0 && b > 0.0
    ensures a * b > 0.0
  {
  }

  lemma ZeroProduct(a: real, b: real)
    requires a * b == 0.0 && b != 0.0
    ensures a == 0.0
  {
  }

  /** Python's `int(x)` for a float: truncation toward zero. */
  function Trunc(x: real): (i: int)
    ensures x >= 0.0 ==> 0 <= i && i as real <= x < i as real + 1.0
    ensures x < 0.0 ==> i <= 0 && i as real - 1.0 < x <= i as real
  {
    if x >= 0.0 then x.Floor else -((-x).Floor)
  }

  /** A fraction in [0, 1] of a size lies between 0 and the size. */
  lemma FractionOfSize(t: real, size: nat)
    ensures 0.0 <= t <= 1.0 ==> 0.0 <= t * size as real <= size as real
  {
    if 0.0 <= t <= 1.0 {
      assert t * size as real <= 1.0 * size as real;
    }
  }

  lemma TruncMonotone(x: real, y: real)
    requires x <= y
    ensures Trunc(x) <= Trunc(y)
  {
  }

  lemma TruncOfInt(i: int)
    ensures Trunc(i as real) == i
  {
  }

  /** Python's `abs` on integers. */
  function Abs(i: int): (r: nat)
    ensures r == i || r == -i
  {
    if i < 0 then -i else i
  }

  function DigitChar(d: nat): (c: char)
    requires d < 10
    ensures '0' <= c <= '9'
  {
    "0123456789"[d]
  }

  function DigitValue(c: char): nat
    requires '0' <= c <= '9'
  {
    (c as int - '0' as int) as nat
  }

  /** `str(n)` for a non-negative integer: its decimal digits, no leading zero. */
  function NatToString(n: nat): (s: string)
    decreases n
  {
    if n < 10 then [DigitChar(n)] else NatToString(n / 10) + [DigitChar(n % 10)]
  }

  predicate IsDigits(s: string)
  {
    forall i :: 0 <= i < |s| ==> '0' <= s[i] <= '9'
  }

  /** The value of a string of decimal digits. */
  function ParseDigits(s: string): nat
    requires IsDigits(s)
  {
    if s == [] then 0 else 10 * ParseDigits(s[..|s| - 1]) + DigitValue(s[|s| - 1])
  }

  lemma {:induction false} NatToStringDigits(n: nat)
    ensures |NatToString(n)| >= 1 && IsDigits(NatToString(n))
    ensures NatToString(n)[0] != '0' || n == 0
    decreases n
  {
    if n >= 10 {
      NatToStringDigits(n / 10);
    }
  }

  /** Reading the decimal rendering back gives the number: `int(str(n)) == n`. */
  lemma {:induction false} NatToStringRoundTrip(n: nat)
    ensures IsDigits(NatToString(n)) && ParseDigits(NatToString(n)) == n
    decreases n
  {
    NatToStringDigits(n);
    var s := NatToString(n);
    if n >= 10 {
      NatToStringRoundTrip(n / 10);
      assert s[..|s| - 1] == NatToString(n / 10);
      assert DigitValue(s[|s| - 1]) == n % 10;
    }
  }

  /** `str(i)` for any integer. */
  function IntToString(i: int): (s: string)
    ensures |s| >= 1
    ensures i >= 0 ==> IsDigits(s) && ParseDigits(s) == i
    ensures i < 0 ==> s[0] == '-' && IsDigits(s[1..]) && ParseDigits(s[1..]) == -i
  {
    NatToStringRoundTrip(Abs(i));
    NatToStringDigits(Abs(i));
    if i < 0 then "-" + NatToString(-i) else NatToString(i)
  }

  /** Distinct integers render to distinct strings. */
  lemma IntToStringInjective(i: int, j: int)
    requires IntToString(i) == IntToString(j)
    ensures i == j
  {
    if i < 0 && j < 0 {
      assert IntToString(i)[1..] == IntToString(j)[1..];
    }
  }

  /**
   * The index of the first maximal element, as `np.argmax` and Python's
   * `max(xs, key=...)` choose it.
   */
  function ArgMaxFirst(xs: seq<real>): (k: nat)
    requires |xs| > 0
    ensures k < |xs|
    ensures forall j :: 0 <= j < |xs| ==> xs[j] <= xs[k]
    ensures forall j :: 0 <= j < k ==> xs[j] < xs[k]
    decreases |xs|
  {
    if |xs| == 1 then 0
    else
      var k := ArgMaxFirst(xs[..|xs| - 1]);
      if xs[|xs| - 1] > xs[k] then |xs| - 1 else k
  }

  function Pow2(k: nat): (r: nat)
    ensures r >= 1
  {
    if k == 0 then 1 else 2 * Pow2(k - 1)
  }

  /** Python's `sum` of a list of numbers. */
  function Sum(xs: seq<real>): real
  {
    if xs == [] then 0.0 else Sum(xs[..|xs| - 1]) + xs[|xs| - 1]
  }

  function Count<T>(xs: seq<T>, p: T -> bool): (n: nat)
    ensures n <= |xs|
  {
    if xs == [] then 0 else Count(xs[..|xs| - 1], p) + (if p(xs[|xs| - 1]) then 1 else 0)
  }

  /** Order-preserving selection, as a list comprehension with an `if` clause. */
  function Filter<T>(xs: seq<T>, p: T -> bool): (ys: seq<T>)
    ensures |ys| == Count(xs, p)
  {
    if xs == [] then []
    else Filter(xs[..|xs| - 1], p) + (if p(xs[|xs| - 1]) then [xs[|xs| - 1]] else [])
  }

  lemma FilterKeepsAll<T>(xs: seq<T>, p: T -> bool)
    requires forall x :: x in xs ==> p(x)
    ensures Filter(xs, p) == xs
  {
    if xs != [] {
      assert xs == xs[..|xs| - 1] + [xs[|xs| - 1]];
      FilterKeepsAll(xs[..|xs| - 1], p);
    }
  }

  lemma {:induction false} FilterMembership<T>(xs: seq<T>, p: T -> bool, x: T)
    ensures x in Filter(xs, p) <==> x in xs && p(x)
  {
    if xs != [] {
      FilterMembership(xs[..|xs| - 1], p, x);
      assert xs == xs[..|xs| - 1] + [xs[|xs| - 1]];
    }
  }

  /** Concatenation is associative; stated once so that proofs can name the regrouping. */
  lemma SeqAssoc<T>(x: seq<T>, y: seq<T>, z: seq<T>)
    ensures x + (y + z) == x + y + z
  {
  }

  /** A prefix one longer is the prefix with the next element appended. */
  lemma PrefixSnoc<T>(s: seq<T>, i: nat)
    requires i < |s|
    ensures s[..i + 1] == s[..i] + [s[i]]
  {
  }

  lemma {:induction false} FilterAppend<T>(xs: seq<T>, ys: seq<T>, p: T -> bool)
    ensures Filter(xs + ys, p) == Filter(xs, p) + Filter(ys, p)
    decreases |ys|
  {
    if ys == [] {
      assert xs + ys == xs;
    } else {
      var zs, init, last := xs + ys, ys[..|ys| - 1], ys[|ys| - 1];
      var tail := if p(last) then [last] else [];
      assert zs[..|zs| - 1] == xs + init && zs[|zs| - 1] == last;
      assert Filter(zs, p) == Filter(xs + init, p) + tail;
      FilterAppend(xs, init, p);
      assert Filter(ys, p) == Filter(init, p) + tail;
      SeqAssoc(Filter(xs, p), Filter(init, p), tail);
    }
  }

  lemma CountAppend<T>(xs: seq<T>, ys: seq<T>, p: T -> bool)
    ensures Count(xs + ys, p) == Count(xs, p) + Count(ys, p)
  {
    FilterAppend(xs, ys, p);
  }
}
