/** Math helpers shared by both games (js/utils.js), on exact reals. */
module Utils {

  datatype Option<T> = None | Some(value: T)

  /** Stand-in for Math.sin / Math.cos: any function whose values lie in [-1, 1]. */
  type Wave = f: real -> real | forall x :: -1.0 <= f(x) <= 1.0 witness (x: real) => 0.0

  /** Math.PI * 2 as the double the browser uses. */
  const TAU: real := 6.283185307179586

  lemma MulMonotone(a: real, b: real, c: real)
    requires a <= b && 0.0 <= c
    ensures a * c <= b * c
  {
    assert (b - a) * c >= 0.0;
  }

  lemma MulStrict(a: real, b: real, c: real)
    requires a < b && 0.0 < c
    ensures a * c < b * c
  {
    assert (b - a) * c > 0.0;
  }

  /** Removing index i from s[..i+1] + rest leaves s[..i] + rest. */
  lemma DropAt<T>(s: seq<T>, i: int, rest: seq<T>)
    requires 0 <= i < |s|
    ensures var t := s[..i + 1] + rest; t[..i] + t[i + 1..] == s[..i] + rest
  {
    var t := s[..i + 1] + rest;
    assert t[..i] == s[..i];
    assert t[i + 1..] == rest;
  }

  /** s[..i+1] + rest regrouped around index i. */
  lemma KeepAt<T>(s: seq<T>, i: int, rest: seq<T>)
    requires 0 <= i < |s|
    ensures s[..i + 1] + rest == s[..i] + ([s[i]] + rest)
  {
    assert s[..i + 1] == s[..i] + [s[i]];
  }

  predicate Distinct<T(==)>(s: seq<T>)
  {
    forall i, j :: 0 <= i < j < |s| ==> s[i] != s[j]
  }

  /** The elements of `xs` whose flag in `keep` is set, in their order. */
  function Kept<T>(xs: seq<T>, keep: seq<bool>): (r: seq<T>)
    requires |xs| == |keep|
    ensures |r| <= |xs|
    decreases |xs|
  {
    if xs == [] then [] else (if keep[0] then [xs[0]] else []) + Kept(xs[1..], keep[1..])
  }

  /** Filtering from index i on: the element at i first, then the rest. */
  lemma KeptFrom<T>(xs: seq<T>, keep: seq<bool>, i: int)
    requires |xs| == |keep| && 0 <= i < |xs|
    ensures Kept(xs[i..], keep[i..]) == (if keep[i] then [xs[i]] else []) + Kept(xs[i + 1..], keep[i + 1..])
  {
    assert xs[i..][1..] == xs[i + 1..];
    assert keep[i..][1..] == keep[i + 1..];
  }

  /** Every kept element comes from a flagged position. */
  lemma {:induction false} KeptIndex<T>(xs: seq<T>, keep: seq<bool>, k: int) returns (j: int)
    requires |xs| == |keep| && 0 <= k < |Kept(xs, keep)|
    ensures 0 <= j < |xs| && xs[j] == Kept(xs, keep)[k] && keep[j]
    decreases |xs|
  {
    if keep[0] && k == 0 {
      j := 0;
    } else {
      var k' := if keep[0] then k - 1 else k;
      var j' := KeptIndex(xs[1..], keep[1..], k');
      j := j' + 1;
    }
  }

  /** Every flagged element is kept. */
  lemma {:induction false} KeptComplete<T>(xs: seq<T>, keep: seq<bool>, j: int)
    requires |xs| == |keep| && 0 <= j < |xs| && keep[j]
    ensures xs[j] in Kept(xs, keep)
    decreases |xs|
  {
    if j > 0 {
      KeptComplete(xs[1..], keep[1..], j - 1);
    }
  }

  /** Filtering a list without repeats gives a list without repeats. */
  lemma {:induction false} KeptDistinct<T>(xs: seq<T>, keep: seq<bool>)
    requires |xs| == |keep| && Distinct(xs)
    ensures Distinct(Kept(xs, keep))
    decreases |xs|
  {
    if xs != [] {
      KeptDistinct(xs[1..], keep[1..]);
      var rest := Kept(xs[1..], keep[1..]);
      if keep[0] {
        forall k | 0 <= k < |rest| ensures rest[k] != xs[0]
        {
          var j := KeptIndex(xs[1..], keep[1..], k);
          assert xs[1..][j] == xs[j + 1];
        }
      }
    }
  }

  /** A sine or cosine value times a magnitude (an amplitude, a speed): it
      never leaves [-magnitude, magnitude]. */
  function WaveScale(wave: real, magnitude: real): (v: real)
    ensures -1.0 <= wave <= 1.0 && 0.0 <= magnitude ==> -magnitude <= v <= magnitude
  {
    if -1.0 <= wave <= 1.0 && 0.0 <= magnitude then
      MulMonotone(-1.0, wave, magnitude);
      MulMonotone(wave, 1.0, magnitude);
      wave * magnitude
    else
      wave * magnitude
  }

  /** A part below the whole is a fraction in [0, 1). */
  lemma FractionBelowOne(part: real, whole: real)
    requires 0.0 <= part < whole
    ensures 0.0 <= part / whole < 1.0
  {
    var q := part / whole;
    assert q * whole == part;
    if q >= 1.0 {
      MulMonotone(1.0, q, whole);
    }
    if q < 0.0 {
      MulMonotone(q, 0.0, whole);
    }
  }

  function Min(a: real, b: real): real { if a <= b then a else b }
  function Max(a: real, b: real): real { if a >= b then a else b }

  /** Math.floor on a number. */
  function Floor(x: real): int { x.Floor }

  /** Math.ceil on a number. */
  function Ceil(x: real): (c: int)
    ensures x <= c as real < x + 1.0
  {
    -((-x).Floor)
  }

  /** lerp(a, b, t) */
  function Lerp(a: real, b: real, t: real): (r: real)
    ensures t == 0.0 ==> r == a
    ensures t == 1.0 ==> r == b
    ensures 0.0 <= t <= 1.0 ==> Min(a, b) <= r <= Max(a, b)
  {
    LerpBetween(a, b, t);
    a + (b - a) * t
  }

  lemma LerpBetween(a: real, b: real, t: real)
    ensures 0.0 <= t <= 1.0 ==> Min(a, b) <= a + (b - a) * t <= Max(a, b)
  {
    if 0.0 <= t <= 1.0 {
      if a <= b {
        MulMonotone(0.0, t, b - a);
        MulMonotone(t, 1.0, b - a);
      } else {
        MulMonotone(0.0, t, a - b);
        MulMonotone(t, 1.0, a - b);
      }
    }
  }

  /** clamp(val, min, max): val lowered to max, then raised to min; when the bounds
      are crossed the lower one wins. */
  function Clamp(val: real, lo: real, hi: real): (r: real)
    ensures lo <= hi ==> lo <= r <= hi
    ensures lo <= val <= hi ==> r == val
    ensures r == lo || r == hi || r == val
    ensures hi < lo ==> r == lo
  {
    Max(lo, Min(hi, val))
  }

  /** The squared Euclidean distance between two points. */
  function DistSq(x1: real, y1: real, x2: real, y2: real): (d: real)
    ensures d >= 0.0
  {
    (x2 - x1) * (x2 - x1) + (y2 - y1) * (y2 - y1)
  }

  /** `s` is what Math.sqrt returns for `d`. */
  ghost predicate IsRoot(s: real, d: real) { s >= 0.0 && s * s == d }

  /** distance(x1, y1, x2, y2) <= r, decided without a square root. */
  predicate WithinDistance(x1: real, y1: real, x2: real, y2: real, r: real)
  {
    0.0 <= r && DistSq(x1, y1, x2, y2) <= r * r
  }

  /** The squared comparison agrees with comparing the root itself. */
  lemma RootComparison(s: real, d: real, r: real)
    requires IsRoot(s, d)
    ensures s <= r <==> 0.0 <= r && d <= r * r
  {
    if s <= r {
      MulMonotone(s, r, s);
      MulMonotone(s, r, r);
      calc {
        d;
      == s * s;
      <= r * s;
      == s * r;
      <= r * r;
      }
    } else if 0.0 <= r {
      MulStrict(r, s, s);
      MulMonotone(r, s, r);
      calc {
        r * r;
      <= s * r;
      == r * s;
      <  s * s;
      == d;
      }
    }
  }

  /** distance(x1, y1, x2, y2) <= r iff WithinDistance(x1, y1, x2, y2, r). */
  lemma DistanceTest(x1: real, y1: real, x2: real, y2: real, r: real, s: real)
    requires IsRoot(s, DistSq(x1, y1, x2, y2))
    ensures s <= r <==> WithinDistance(x1, y1, x2, y2, r)
  {
    RootComparison(s, DistSq(x1, y1, x2, y2), r);
  }

  /** distance is symmetric. */
  lemma DistanceSymmetric(x1: real, y1: real, x2: real, y2: real)
    ensures DistSq(x1, y1, x2, y2) == DistSq(x2, y2, x1, y1)
  {
    assert (x2 - x1) * (x2 - x1) == (x1 - x2) * (x1 - x2);
    assert (y2 - y1) * (y2 - y1) == (y1 - y2) * (y1 - y2);
  }

  /** randomFloat(min, max) with Math.random() = roll. */
  function RandomFloat(lo: real, hi: real, roll: real): (r: real)
    requires 0.0 <= roll < 1.0
    ensures lo <= hi ==> lo <= r <= hi
    ensures lo < hi ==> r < hi
  {
    var w := hi - lo;
    RollScale(roll, w);
    roll * w + lo
  }

  lemma RollScale(roll: real, w: real)
    requires 0.0 <= roll < 1.0
    ensures 0.0 <= w ==> 0.0 <= roll * w <= w
    ensures 0.0 < w ==> roll * w < w
  {
    if 0.0 <= w {
      MulMonotone(0.0, roll, w);
      MulMonotone(roll, 1.0, w);
    }
    if 0.0 < w {
      MulStrict(roll, 1.0, w);
    }
  }

  /** randomInt(min, max) with Math.random() = roll. */
  function RandomInt(lo: int, hi: int, roll: real): (r: int)
    requires 0.0 <= roll < 1.0
    ensures lo <= hi ==> lo <= r <= hi
  {
    Floor(RandomFloat(lo as real, (hi + 1) as real, roll))
  }

  /** A uniformly drawn index into n things, from a roll in [0, 1). */
  function RandomIndex(roll: real, n: int): (i: int)
    requires 0.0 <= roll < 1.0 && 0 < n
    ensures 0 <= i < n
  {
    var w := n as real;
    RollScale(roll, w);
    assert 0.0 <= roll * w < w;
    Floor(roll * w)
  }

  /** randomItem(arr): `undefined` (None) for an empty array. */
  function RandomItem<T>(arr: seq<T>, roll: real): (r: Option<T>)
    requires 0.0 <= roll < 1.0
    ensures |arr| > 0 <==> r.Some?
    ensures r.Some? ==> r.value in arr
  {
    var i := RandomInt(0, |arr| - 1, roll);
    if 0 <= i < |arr| then Some(arr[i]) else None
  }

  function EaseOutCubic(t: real): real { 1.0 - (1.0 - t) * (1.0 - t) * (1.0 - t) }

  function EaseOutQuad(t: real): real { 1.0 - (1.0 - t) * (1.0 - t) }

  function EaseInOutQuad(t: real): real
  {
    if t < 0.5 then 2.0 * t * t else 1.0 - (-2.0 * t + 2.0) * (-2.0 * t + 2.0) / 2.0
  }

  /** easeOutElastic: the endpoints are returned as they are; elsewhere the
      value is tail(t) + 1, where tail(t) stands for 2^(-10t)·sin((t − 0.075)·2π/0.3). */
  function EaseOutElastic(t: real, tail: real -> real): real
  {
    if t == 0.0 || t == 1.0 then t else tail(t) + 1.0
  }

  lemma EaseEndpoints(tail: real -> real)
    ensures EaseOutCubic(0.0) == 0.0 && EaseOutCubic(1.0) == 1.0
    ensures EaseOutQuad(0.0) == 0.0 && EaseOutQuad(1.0) == 1.0
    ensures EaseInOutQuad(0.0) == 0.0 && EaseInOutQuad(1.0) == 1.0
    ensures EaseInOutQuad(0.5) == 0.5
    ensures EaseOutElastic(0.0, tail) == 0.0 && EaseOutElastic(1.0, tail) == 1.0
  {
  }

  /** u² and u³ stay in [0, 1] for u in [0, 1]. */
  lemma UnitPowers(u: real)
    requires 0.0 <= u <= 1.0
    ensures 0.0 <= u * u <= u
    ensures 0.0 <= u * u * u <= u * u
  {
    MulMonotone(0.0, u, u);
    MulMonotone(u, 1.0, u);
    MulMonotone(0.0, u, u * u);
    MulMonotone(u, 1.0, u * u);
  }

  lemma EaseOutCubicRange(t: real)
    requires 0.0 <= t <= 1.0
    ensures 0.0 <= EaseOutCubic(t) <= 1.0
  {
    var u := 1.0 - t;
    UnitPowers(u);
    assert EaseOutCubic(t) == 1.0 - u * u * u;
  }

  lemma EaseOutQuadRange(t: real)
    requires 0.0 <= t <= 1.0
    ensures 0.0 <= EaseOutQuad(t) <= 1.0
  {
    var u := 1.0 - t;
    UnitPowers(u);
    assert EaseOutQuad(t) == 1.0 - u * u;
  }

  lemma EaseInOutQuadRange(t: real)
    requires 0.0 <= t <= 1.0
    ensures 0.0 <= EaseInOutQuad(t) <= 1.0
  {
    if t < 0.5 {
      MulMonotone(t, 0.5, t);
      MulMonotone(t, 0.5, 0.5);
      assert 0.0 <= t * t <= 0.25;
    } else {
      var u := -2.0 * t + 2.0;
      assert 0.0 <= u <= 1.0;
      UnitPowers(u);
    }
  }

  /** A channel value: the red, green and blue components of a colour. */
  datatype Rgb = Rgb(r: int, g: int, b: int)

  const WHITE: Rgb := Rgb(255, 255, 255)

  /** [a-f\d] under the regular expression's `i` flag. */
  predicate IsHexDigit(c: char)
  {
    ('0' <= c <= '9') || ('a' <= c <= 'f') || ('A' <= c <= 'F')
  }

  function HexValue(c: char): (v: int)
    requires IsHexDigit(c)
    ensures 0 <= v < 16
  {
    if '0' <= c <= '9' then c as int - '0' as int
    else if 'a' <= c <= 'f' then c as int - 'a' as int + 10
    else c as int - 'A' as int + 10
  }

  /** parseInt of a two-digit hex pair. */
  function PairValue(hi: char, lo: char): (v: int)
    requires IsHexDigit(hi) && IsHexDigit(lo)
    ensures 0 <= v <= 255
  {
    16 * HexValue(hi) + HexValue(lo)
  }

  predicate AllHex(s: string)
  {
    forall i :: 0 <= i < |s| ==> IsHexDigit(s[i])
  }

  /** The strings /^#?([a-f\d]{2})([a-f\d]{2})([a-f\d]{2})$/i matches. */
  ghost predicate IsHexColor(s: string)
  {
    || (|s| == 6 && AllHex(s))
    || (|s| == 7 && s[0] == '#' && AllHex(s[1..]))
  }

  /** The six digits of a string the pattern matches. */
  ghost function ColorDigits(s: string): string
  {
    if |s| == 7 then s[1..] else s
  }

  /** hexToRgb(hex) */
  function HexToRgb(hex: string): (c: Rgb)
    ensures IsHexColor(hex) ==>
      var d := ColorDigits(hex);
      c == Rgb(PairValue(d[0], d[1]), PairValue(d[2], d[3]), PairValue(d[4], d[5]))
    ensures !IsHexColor(hex) ==> c == WHITE
    ensures 0 <= c.r <= 255 && 0 <= c.g <= 255 && 0 <= c.b <= 255
  {
    var d := if |hex| > 0 && hex[0] == '#' then hex[1..] else hex;
    if |d| == 6 && AllHex(d) then
      Rgb(PairValue(d[0], d[1]), PairValue(d[2], d[3]), PairValue(d[4], d[5]))
    else
      WHITE
  }

  /** The hex digit for 0 <= n < 16, in either case. */
  function HexChar(n: int, upper: bool): (c: char)
    requires 0 <= n < 16
    ensures IsHexDigit(c) && HexValue(c) == n
  {
    if n < 10 then ('0' as int + n) as char
    else if upper then ('A' as int + n - 10) as char
    else ('a' as int + n - 10) as char
  }

  /** '#' followed by three two-digit hex pairs. */
  function FormatHex(c: Rgb, upper: bool): (s: string)
    requires 0 <= c.r <= 255 && 0 <= c.g <= 255 && 0 <= c.b <= 255
  {
    ['#', HexChar(c.r / 16, upper), HexChar(c.r % 16, upper),
     HexChar(c.g / 16, upper), HexChar(c.g % 16, upper),
     HexChar(c.b / 16, upper), HexChar(c.b % 16, upper)]
  }

  /** Formatting a colour and parsing it back gives the same channels. */
  lemma HexRoundTrip(c: Rgb, upper: bool)
    requires 0 <= c.r <= 255 && 0 <= c.g <= 255 && 0 <= c.b <= 255
    ensures HexToRgb(FormatHex(c, upper)) == c
  {
    var s := FormatHex(c, upper);
    assert AllHex(s[1..]);
    assert IsHexColor(s);
  }
}
