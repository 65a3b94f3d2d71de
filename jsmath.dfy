/**
 * The JavaScript numeric semantics the game relies on, stated on exact reals:
 * `Math.max`/`Math.min`/`Math.floor`/`Math.ceil`, the truncated remainder `%`,
 * the wrap-into-[0, L) idiom `((s % L) + L) % L`, +Infinity, and ASCII
 * `toLowerCase`. The transcendental functions of the global `Math` object are
 * not computed: they are carried as a `Maths` value of function-valued fields.
 */
module JsMath {

  datatype Option<+T> = None | Some(value: T) {
    /** `x ?? default` */
    function GetOr(default: T): T {
      if Some? then value else default
    }
  }

  /** A JavaScript number that is either finite or +Infinity. */
  datatype ExtReal = Finite(r: real) | Infinity

  /** `x < e` where `e` may be +Infinity. */
  predicate Below(x: real, e: ExtReal) {
    e.Infinity? || x < e.r
  }

  /** `a <= b` on the extended line. */
  predicate AtMost(a: ExtReal, b: ExtReal) {
    b.Infinity? || (a.Finite? && a.r <= b.r)
  }

  function Max(a: real, b: real): real {
    if a >= b then a else b
  }

  function Min(a: real, b: real): real {
    if a <= b then a else b
  }

  function Abs(a: real): real {
    if a >= 0.0 then a else -a
  }

  /** `Math.max(lo, Math.min(hi, x))`, the `clamp` helper of several source files. */
  function Clamp(x: real, lo: real, hi: real): (r: real)
    ensures lo <= hi ==> lo <= r <= hi
    ensures lo <= x <= hi ==> r == x
    ensures x <= lo ==> r == lo
    ensures lo <= hi && hi <= x ==> r == hi
  {
    Max(lo, Min(hi, x))
  }

  lemma ClampMonotone(x: real, y: real, lo: real, hi: real)
    requires x <= y
    ensures Clamp(x, lo, hi) <= Clamp(y, lo, hi)
  {
  }

  /** `Math.trunc`: rounds toward zero. */
  function Trunc(x: real): int {
    if x >= 0.0 then x.Floor else -((-x).Floor)
  }

  /** `Math.ceil`: the least integer not below `x`. */
  function Ceil(x: real): (n: int)
    ensures (n - 1) as real < x <= n as real
  {
    -((-x).Floor)
  }

  /** JavaScript `a % n` on numbers: the remainder of truncated division, signed like `a`. */
  function Rem(a: real, n: real): real
    requires n != 0.0
  {
    a - n * (Trunc(a / n) as real)
  }

  /** Scaling by a positive factor preserves order. */
  lemma MulMonotone(n: real, x: real, y: real)
    requires n > 0.0 && x <= y
    ensures n * x <= n * y
    ensures x < y ==> n * x < n * y
  {
    assert n * y - n * x == n * (y - x);
  }

  lemma MulMonotoneNonNegative(n: real, x: real, y: real)
    requires n >= 0.0 && x <= y
    ensures n * x <= n * y
  {
    if n > 0.0 {
      MulMonotone(n, x, y);
    }
  }

  /** Scaling by a non-positive factor reverses order. */
  lemma MulAntitone(n: real, x: real, y: real)
    requires n <= 0.0 && x <= y
    ensures n * y <= n * x
  {
    MulMonotoneNonNegative(-n, x, y);
    assert (-n) * x == -(n * x) && (-n) * y == -(n * y);
  }

  // The four one-sided scalings below are kept apart on purpose: the solver's
  // non-linear reasoning is reliable on one product at a time.

  lemma ScaleBelow(n: real, q: real, a: real, hi: real)
    requires n > 0.0 && n * q == a && q < hi
    ensures a < n * hi
  {
    MulMonotone(n, q, hi);
  }

  lemma ScaleAtMost(n: real, q: real, a: real, hi: real)
    requires n > 0.0 && n * q == a && q <= hi
    ensures a <= n * hi
  {
    MulMonotone(n, q, hi);
  }

  lemma ScaleAbove(n: real, q: real, a: real, lo: real)
    requires n > 0.0 && n * q == a && lo < q
    ensures n * lo < a
  {
    MulMonotone(n, lo, q);
  }

  lemma ScaleAtLeast(n: real, q: real, a: real, lo: real)
    requires n > 0.0 && n * q == a && lo <= q
    ensures n * lo <= a
  {
    MulMonotone(n, lo, q);
  }

  lemma Distribute(n: real, t: real)
    ensures n * (t + 1.0) == n * t + n
    ensures n * (t - 1.0) == n * t - n
  {
  }

  /** A product of two positive numbers is positive. */
  lemma PositiveProduct(a: real, b: real)
    requires a > 0.0 && b > 0.0
    ensures a * b > 0.0
  {
    MulMonotone(a, 0.0, b);
  }

  /** A product of two non-zero numbers is non-zero. */
  lemma NonZeroProduct(a: real, b: real)
    requires a != 0.0 && b != 0.0
    ensures a * b != 0.0
  {
  }

  /** `n` equal parts of `c * len` add up to `c * len`. */
  lemma CancelParts(c: real, len: real, n: real)
    requires n > 0.0
    ensures n * (c * (len / n)) == c * len
  {
    var q := len / n;
    assert q * n == len;
  }

  lemma SquareNonNegative(x: real)
    ensures x * x >= 0.0
  {
    if x < 0.0 {
      PositiveProduct(-x, -x);
    } else if x > 0.0 {
      PositiveProduct(x, x);
    }
  }

  /** A share `k` of `x` is no larger than `x` and has its sign. */
  lemma ScaledDown(x: real, k: real)
    requires 0.0 <= k <= 1.0
    ensures Abs(x * k) <= Abs(x) && (x * k) * x >= 0.0
  {
    SquareNonNegative(x);
    assert (x * k) * x == k * (x * x);
    if x >= 0.0 {
      if k > 0.0 && x > 0.0 { ScaleAtMost(x, k, x * k, 1.0); }
      PositiveProductOrZero(k, x * x);
    } else {
      if k > 0.0 { ScaleAtMost(-x, k, -(x * k), 1.0); }
      PositiveProductOrZero(k, x * x);
    }
  }

  lemma PositiveProductOrZero(a: real, b: real)
    requires a >= 0.0 && b >= 0.0
    ensures a * b >= 0.0
  {
    if a > 0.0 && b > 0.0 { PositiveProduct(a, b); }
  }

  /** The remainder lies strictly between `-n` and `n` and carries the sign of `a`. */
  lemma RemBounds(a: real, n: real)
    requires n > 0.0
    ensures -n < Rem(a, n) < n
    ensures a >= 0.0 ==> Rem(a, n) >= 0.0
    ensures a <= 0.0 ==> Rem(a, n) <= 0.0
  {
    var q := a / n;
    var t := Trunc(q) as real;
    Distribute(n, t);
    if q >= 0.0 {
      ScaleAtLeast(n, q, a, t);
      ScaleBelow(n, q, a, t + 1.0);
      ScaleAtLeast(n, q, a, 0.0);
    } else {
      ScaleAbove(n, q, a, t - 1.0);
      ScaleAtMost(n, q, a, t);
      ScaleBelow(n, q, a, 0.0);
    }
  }

  /** Two representations `s - n*m` in `[0, n)` use the same multiple. */
  lemma SameMultiple(s: real, n: real, m1: int, m2: int)
    requires n > 0.0
    requires 0.0 <= s - n * (m1 as real) < n
    requires 0.0 <= s - n * (m2 as real) < n
    ensures m1 == m2
  {
    var x1, x2 := m1 as real, m2 as real;
    if m2 - m1 >= 1 {
      ScaleAtLeast(n, x2 - x1, n * x2 - n * x1, 1.0);
    } else if m1 - m2 >= 1 {
      ScaleAtLeast(n, x1 - x2, n * x1 - n * x2, 1.0);
    }
  }

  /** `dt` added up `n` times: the time `n` ticks take. */
  function Elapsed(n: nat, dt: real): (t: real)
    ensures t == (n as real) * dt
  {
    if n == 0 then 0.0 else Elapsed(n - 1, dt) + dt
  }

  /** The number of whole laps in `s`: `Math.floor(s / len)`. */
  function LapIndex(s: real, len: real): int
    requires len > 0.0
  {
    (s / len).Floor
  }

  /**
   * The position of `s` within its lap: the floor-based modulus, which
   * `WrapIsJsWrap` shows to be the wrap the source writes out.
   */
  function Wrap(s: real, len: real): (w: real)
    requires len > 0.0
    ensures 0.0 <= w < len
  {
    var q := s / len;
    var f := LapIndex(s, len) as real;
    Distribute(len, f);
    ScaleAtLeast(len, q, s, f);
    ScaleBelow(len, q, s, f + 1.0);
    s - len * f
  }

  /**
   * `((s % len) + len) % len`, the idiom the track, the physics and the bot use
   * to bring an arc position into the current lap.
   */
  function JsWrap(s: real, len: real): real
    requires len > 0.0
  {
    Rem(Rem(s, len) + len, len)
  }

  /** The wrapped value differs from `s` by a whole number of lengths. */
  lemma WrapMultiple(s: real, len: real) returns (m: int)
    requires len > 0.0
    ensures m == LapIndex(s, len)
    ensures Wrap(s, len) == s - len * (m as real)
    ensures s == Wrap(s, len) + len * (m as real)
  {
    m := LapIndex(s, len);
  }

  /** Any `s = len*q + r` with `0 <= r < len` wraps to `r`. */
  lemma WrapUnique(s: real, len: real, q: int, r: real)
    requires len > 0.0
    requires s == len * (q as real) + r && 0.0 <= r < len
    ensures Wrap(s, len) == r
  {
    var m := WrapMultiple(s, len);
    SameMultiple(s, len, m, q);
  }

  /** The JavaScript idiom and the floor-based modulus agree for every `s`. */
  lemma WrapIsJsWrap(s: real, len: real)
    requires len > 0.0
    ensures JsWrap(s, len) == Wrap(s, len)
  {
    var r1 := Rem(s, len);
    var a := r1 + len;
    RemBounds(s, len);
    RemBounds(a, len);
    var t1 := Trunc(s / len);
    var t2 := Trunc(a / len);
    assert s == len * (t1 as real) + r1;
    assert Rem(a, len) == a - len * (t2 as real);
    assert s == len * ((t1 - 1 + t2) as real) + Rem(a, len);
    WrapUnique(s, len, t1 - 1 + t2, Rem(a, len));
  }

  /** The position `s` moved on by `k` whole laps of length `len` (back, for negative `k`). */
  function LapsAhead(s: real, len: real, k: int): real {
    s + len * (k as real)
  }

  /** Adding a whole number of laps does not change the wrapped position. */
  lemma WrapShift(s: real, len: real, k: int)
    requires len > 0.0
    ensures Wrap(LapsAhead(s, len, k), len) == Wrap(s, len)
  {
    var m := WrapMultiple(s, len);
    assert LapsAhead(s, len, k) == len * ((m + k) as real) + Wrap(s, len);
    WrapUnique(LapsAhead(s, len, k), len, m + k, Wrap(s, len));
  }

  /**
   * Moving on by less than a lap either stays in the lap, moving the wrapped
   * position on by `d`, or enters the next lap.
   */
  lemma WrapAdvance(s: real, d: real, len: real)
    requires len > 0.0 && 0.0 <= d < len
    ensures Wrap(s, len) + d < len ==>
      LapIndex(s + d, len) == LapIndex(s, len) && Wrap(s + d, len) == Wrap(s, len) + d
    ensures Wrap(s, len) + d >= len ==>
      LapIndex(s + d, len) == LapIndex(s, len) + 1 && Wrap(s + d, len) == Wrap(s, len) + d - len
  {
    var m := WrapMultiple(s, len);
    var w := Wrap(s, len);
    var m2 := WrapMultiple(s + d, len);
    if w + d < len {
      assert s + d == len * (m as real) + (w + d);
      WrapUnique(s + d, len, m, w + d);
      SameMultiple(s + d, len, m2, m);
    } else {
      assert s + d == LapsAhead(w + d - len, len, m + 1);
      WrapUnique(s + d, len, m + 1, w + d - len);
      SameMultiple(s + d, len, m2, m + 1);
    }
  }

  /** Two positions with the same offset differ by a whole number of lengths. */
  lemma OffsetDifference(x: real, y: real, c: real, wx: real, wy: real, len: real, m1: int, m2: int)
    requires x == wx + len * (m1 as real) && y == wy + len * (m2 as real) && wx == wy
    ensures x + c == (y + c) + len * ((m1 - m2) as real)
  {
  }

  /** `t` lies a whole number of lengths away from `s`, so both wrap alike. */
  lemma WrapShiftTo(s: real, t: real, len: real, k: int)
    requires len > 0.0 && t == LapsAhead(s, len, k)
    ensures Wrap(t, len) == Wrap(s, len)
  {
    WrapShift(s, len, k);
  }

  /** Congruent positions stay congruent when the same amount is added to both. */
  lemma WrapAddCongruent(x: real, y: real, c: real, len: real)
    requires len > 0.0 && Wrap(x, len) == Wrap(y, len)
    ensures Wrap(x + c, len) == Wrap(y + c, len)
  {
    var m1 := WrapMultiple(x, len);
    var m2 := WrapMultiple(y, len);
    OffsetDifference(x, y, c, Wrap(x, len), Wrap(y, len), len, m1, m2);
    assert x + c == LapsAhead(y + c, len, m1 - m2);
    WrapShiftTo(y + c, x + c, len, m1 - m2);
  }

  /** On a non-negative number the plain remainder already is the wrap. */
  lemma RemOfNonNegative(a: real, len: real)
    requires len > 0.0 && a >= 0.0
    ensures Rem(a, len) == Wrap(a, len)
  {
    RemBounds(a, len);
    WrapUnique(a, len, Trunc(a / len), Rem(a, len));
  }

  /** A position is its lap index times the length plus its wrapped offset. */
  lemma LapDecomposition(s: real, len: real)
    requires len > 0.0
    ensures s == len * (LapIndex(s, len) as real) + Wrap(s, len)
  {
  }

  /**
   * The global `Math` object, reduced to what the source uses. The functions are
   * not computed here; `Valid` records the only facts the proofs rely on.
   */
  datatype Maths = Maths(
    PI: real,
    sin: real -> real,
    cos: real -> real,
    hypot: (real, real) -> real,
    sqrt: real -> real)
  {
    ghost predicate Valid() {
      && PI > 0.0
      && (forall x: real, y: real :: hypot(x, y) >= 0.0 && (hypot(x, y) == 0.0 ==> x == 0.0 && y == 0.0))
      && (forall h: real :: cos(h) != 0.0 || sin(h) != 0.0)
    }
  }

  /** `String.prototype.toLowerCase` on ASCII letters; every other character is kept. */
  function LowerChar(c: char): char {
    if 'A' <= c <= 'Z' then (c as int + 32) as char else c
  }

  /**
   * `toLowerCase`: no upper-case letter is left, each upper-case letter
   * becomes the same letter in lower case and every other character is kept.
   */
  function ToLower(s: string): (r: string)
    ensures |r| == |s|
    ensures forall i :: 0 <= i < |r| ==> !('A' <= r[i] <= 'Z')
    ensures forall i :: 0 <= i < |s| && 'A' <= s[i] <= 'Z' ==>
      'a' <= r[i] <= 'z' && r[i] as int - 'a' as int == s[i] as int - 'A' as int
    ensures forall i :: 0 <= i < |s| && !('A' <= s[i] <= 'Z') ==> r[i] == s[i]
  {
    seq(|s|, i requires 0 <= i < |s| => LowerChar(s[i]))
  }

  /** Lower-casing a lower-cased string changes nothing. */
  lemma ToLowerIdempotent(s: string)
    ensures ToLower(ToLower(s)) == ToLower(s)
  {
    var r := ToLower(s);
    assert forall i :: 0 <= i < |r| ==> ToLower(r)[i] == r[i];
  }
}
