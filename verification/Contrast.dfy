/** Lifting a palette colour just far enough to be read: a bisection on the blend towards white or
    black.  The factors it tries are 256ths, which binary floating point holds exactly, so a blend is
    integer arithmetic here.  All that is used of the sRGB transfer curve is that it runs from 0 to 1 and
    never falls; that it does is proved from its definition. */
module Contrast {

  type Channel = c: int | 0 <= c <= 255

  datatype Colour = Colour(red: Channel, green: Channel, blue: Channel)

  const WHITE := Colour(255, 255, 255)
  const BLACK := Colour(0, 0, 0)

  const FLOOR: real := 4.5
  const SEARCH_STEPS: nat := 8

  // ------------------------------------------------------- luminance and contrast ratio

  ghost predicate Transfer(linear: Channel -> real) {
    && linear(0) == 0.0 && linear(255) == 1.0
    && forall a: Channel, b: Channel :: a <= b ==> linear(a) <= linear(b)
  }

  function Raised(x: real, n: nat): real {
    if n == 0 then 1.0 else x * Raised(x, n - 1)
  }

  function Share(c: Channel): real {
    c as real / 255.0
  }

  /** The curve itself.  Its power of 2.4 is said without one: the fifth power of the result is the
      twelfth of the base. */
  ghost predicate Srgb(linear: Channel -> real) {
    forall c: Channel ::
      if Share(c) <= 0.03928 then linear(c) == Share(c) / 12.92
      else linear(c) >= 0.0 && Raised(linear(c), 5) == Raised((Share(c) + 0.055) / 1.055, 12)
  }

  lemma {:induction false} ProductLess(x: real, y: real, p: real, q: real)
    requires 0.0 <= x < y && 0.0 <= p <= q && 0.0 < q
    ensures 0.0 <= x * p < y * q
  {
    assert y * q - x * p == (y - x) * q + x * (q - p);
    assert (y - x) * q > 0.0 && x * (q - p) >= 0.0 && x * p >= 0.0;
  }

  lemma {:induction false} RaisedGrows(x: real, y: real, n: nat)
    requires 0.0 <= x < y
    ensures 0.0 <= Raised(x, n) <= Raised(y, n) && 0.0 < Raised(y, n)
    ensures n > 0 ==> Raised(x, n) < Raised(y, n)
  {
    if n > 0 {
      RaisedGrows(x, y, n - 1);
      ProductLess(x, y, Raised(x, n - 1), Raised(y, n - 1));
    }
  }

  /** The curved part lies above what lies below its fifth power, and the other way round. */
  lemma {:induction false} CurveAbove(linear: Channel -> real, c: Channel, base: real, bound: real)
    requires Srgb(linear) && Share(c) > 0.03928 && 0.0 <= base <= (Share(c) + 0.055) / 1.055
    requires 0.0 <= bound && Raised(bound, 5) <= Raised(base, 12)
    ensures bound <= linear(c)
  {
    var x := (Share(c) + 0.055) / 1.055;
    if base < x {
      RaisedGrows(base, x, 12);
    }
    if linear(c) < bound {
      RaisedGrows(linear(c), bound, 5);
    }
  }

  lemma {:induction false} CurveBelow(linear: Channel -> real, c: Channel, base: real, bound: real)
    requires Srgb(linear) && Share(c) > 0.03928 && (Share(c) + 0.055) / 1.055 <= base
    requires 0.0 <= bound && Raised(base, 12) <= Raised(bound, 5)
    ensures linear(c) <= bound
  {
    var x := (Share(c) + 0.055) / 1.055;
    if x < base {
      RaisedGrows(x, base, 12);
    }
    if bound < linear(c) {
      RaisedGrows(bound, linear(c), 5);
    }
  }

  lemma {:induction false} OneRaised(n: nat)
    ensures Raised(1.0, n) == 1.0
  {
    if n > 0 {
      OneRaised(n - 1);
    }
  }

  /** The curve runs from 0 to 1 and never falls. */
  lemma {:induction false} SrgbIsTransfer(linear: Channel -> real)
    requires Srgb(linear)
    ensures Transfer(linear)
  {
    hide Raised;
    assert Share(255) == 1.0 && Share(0) == 0.0 && linear(0) == 0.0;
    OneRaised(5);
    OneRaised(12);
    CurveAbove(linear, 255, 1.0, 1.0);
    CurveBelow(linear, 255, 1.0, 1.0);
    forall a: Channel, b: Channel | a < b ensures linear(a) <= linear(b) {
      NeverFalls(linear, a, b);
    }
  }

  lemma {:induction false} NeverFalls(linear: Channel -> real, a: Channel, b: Channel)
    requires Srgb(linear) && a < b
    ensures linear(a) <= linear(b)
  {
    hide Raised;
    assert Share(a) < Share(b);
    if Share(a) > 0.03928 {
      var x := (Share(a) + 0.055) / 1.055;
      CurveAbove(linear, b, x, linear(a));
    } else if Share(b) > 0.03928 {
      assert a <= 10 && b >= 11;
      AtTheSeam();
      assert linear(a) <= 0.0031;
      CurveAbove(linear, b, 0.093, 0.0031);
    }
  }

  /** Where the straight part ends the curved one is above it. */
  lemma {:induction false} AtTheSeam()
    ensures Raised(0.0031, 5) <= Raised(0.093, 12)
  {
  }

  function RelLuminance(linear: Channel -> real, c: Colour): real {
    0.2126 * linear(c.red) + 0.7152 * linear(c.green) + 0.0722 * linear(c.blue)
  }

  /** Green counts most and blue least: what the primaries are worth, and white and black. */
  lemma {:induction false} Primaries(linear: Channel -> real)
    requires Transfer(linear)
    ensures RelLuminance(linear, Colour(255, 0, 0)) == 0.2126
    ensures RelLuminance(linear, Colour(0, 255, 0)) == 0.7152
    ensures RelLuminance(linear, Colour(0, 0, 255)) == 0.0722
    ensures RelLuminance(linear, WHITE) == 1.0 && RelLuminance(linear, BLACK) == 0.0
  {
  }

  /** `c` is nowhere darker than `d`. */
  predicate Covers(c: Colour, d: Colour) {
    c.red >= d.red && c.green >= d.green && c.blue >= d.blue
  }

  lemma {:induction false} LuminanceGrows(linear: Channel -> real, c: Colour, d: Colour)
    requires Transfer(linear) && Covers(c, d)
    ensures RelLuminance(linear, c) >= RelLuminance(linear, d)
  {
    assert linear(c.red) >= linear(d.red) && linear(c.green) >= linear(d.green) && linear(c.blue) >= linear(d.blue);
  }

  lemma {:induction false} LuminanceRange(linear: Channel -> real, c: Colour)
    requires Transfer(linear)
    ensures 0.0 == RelLuminance(linear, BLACK) <= RelLuminance(linear, c) <= RelLuminance(linear, WHITE) == 1.0
  {
    LuminanceGrows(linear, c, BLACK);
    LuminanceGrows(linear, WHITE, c);
  }

  function Ratio(la: real, lb: real): real
    requires la >= 0.0 && lb >= 0.0
  {
    if la < lb then (lb + 0.05) / (la + 0.05) else (la + 0.05) / (lb + 0.05)
  }

  function ContrastRatio(linear: Channel -> real, a: Colour, b: Colour): real
  {
    var la, lb := RelLuminance(linear, a), RelLuminance(linear, b);
    if la < 0.0 || lb < 0.0 then 0.0 else Ratio(la, lb)
  }

  /** The lighter luminance over the darker, 0.05 added to each, whichever colour is named first. */
  lemma {:induction false} RatioIs(linear: Channel -> real, a: Colour, b: Colour)
    requires Transfer(linear) && RelLuminance(linear, a) >= RelLuminance(linear, b)
    ensures RelLuminance(linear, b) >= 0.0
    ensures ContrastRatio(linear, a, b) == (RelLuminance(linear, a) + 0.05) / (RelLuminance(linear, b) + 0.05)
    ensures ContrastRatio(linear, b, a) == ContrastRatio(linear, a, b)
  {
    LuminanceRange(linear, b);
    hide RelLuminance, Ratio;
    RatioOf(RelLuminance(linear, a), RelLuminance(linear, b));
  }

  lemma {:induction false} RatioOf(la: real, lb: real)
    requires la >= lb >= 0.0
    ensures Ratio(la, lb) == (la + 0.05) / (lb + 0.05) && Ratio(lb, la) == Ratio(la, lb)
  {
  }

  lemma {:induction false} Quotient(x: real, y: real, z: real)
    requires y > 0.0
    ensures x / y >= z <==> x >= z * y
  {
    assert x == x / y * y;
    if x / y >= z {
      assert (x / y - z) * y >= 0.0;
    } else {
      assert (z - x / y) * y > 0.0;
    }
  }

  /** The floor is reached by being lighter enough or darker enough. */
  lemma {:induction false} ClearsIff(la: real, lb: real)
    requires la >= 0.0 && lb >= 0.0
    ensures Ratio(la, lb) >= FLOOR <==>
            la + 0.05 >= FLOOR * (lb + 0.05) || lb + 0.05 >= FLOOR * (la + 0.05)
  {
    Quotient(la + 0.05, lb + 0.05, FLOOR);
    Quotient(lb + 0.05, la + 0.05, FLOOR);
  }

  /** Against one background white or black always reaches the floor. */
  lemma {:induction false} AnExtremeClears(linear: Channel -> real, background: Colour)
    requires Transfer(linear)
    ensures ContrastRatio(linear, WHITE, background) >= FLOOR || ContrastRatio(linear, BLACK, background) >= FLOOR
  {
    LuminanceRange(linear, background);
    var l := RelLuminance(linear, background);
    ClearsIff(1.0, l);
    ClearsIff(0.0, l);
  }

  // ---------------------------------------------------------------------------- blending

  /** A channel mixed towards another by `k` 256ths, rounded half up. */
  function Mix(a: Channel, b: Channel, k: nat): Channel
    requires k <= 256
  {
    MixRange(a, b, k);
    (256 * a + k * (b - a) + 128) / 256
  }

  /** The channel nearest to `k` 256ths of the way, half a unit counted up. */
  lemma {:induction false} MixIsNearest(a: Channel, b: Channel, k: nat)
    requires k <= 256
    ensures 256 * Mix(a, b, k) - 128 <= 256 * a + k * (b - a) < 256 * Mix(a, b, k) + 128
  {
  }

  lemma {:induction false} Multiples(j: nat, k: nat, d: int)
    requires j <= k
    ensures d >= 0 ==> j * d <= k * d
    ensures d <= 0 ==> j * d >= k * d
  {
    if j < k {
      Multiples(j, k - 1, d);
      assert k * d == (k - 1) * d + d;
    }
  }

  lemma {:induction false} MixRange(a: Channel, b: Channel, k: nat)
    requires k <= 256
    ensures 0 <= 256 * a + k * (b - a) <= 256 * 255
  {
    Multiples(0, k, b - a);
    Multiples(k, 256, b - a);
  }

  function Blend(from: Colour, to: Colour, k: nat): Colour
    requires k <= 256
  {
    Colour(Mix(from.red, to.red, k), Mix(from.green, to.green, k), Mix(from.blue, to.blue, k))
  }

  lemma {:induction false} BlendEnds(from: Colour, to: Colour)
    ensures Blend(from, to, 0) == from && Blend(from, to, 256) == to
  {
  }

  /** A mix moves towards its target and never back. */
  lemma {:induction false} MixMoves(a: Channel, b: Channel, j: nat, k: nat)
    requires j <= k <= 256
    ensures a <= b ==> Mix(a, b, j) <= Mix(a, b, k)
    ensures a >= b ==> Mix(a, b, j) >= Mix(a, b, k)
  {
    Multiples(j, k, b - a);
  }

  lemma {:induction false} BlendMoves(from: Colour, j: nat, k: nat)
    requires j <= k <= 256
    ensures Covers(Blend(from, WHITE, k), Blend(from, WHITE, j)) && Covers(Blend(from, BLACK, j), Blend(from, BLACK, k))
  {
    MixMoves(from.red, 255, j, k);
    MixMoves(from.green, 255, j, k);
    MixMoves(from.blue, 255, j, k);
    MixMoves(from.red, 0, j, k);
    MixMoves(from.green, 0, j, k);
    MixMoves(from.blue, 0, j, k);
  }

  // -------------------------------------------------------------------------- bisection

  predicate Clears(fg: Colour, target: Colour, score: Colour -> real, k: nat)
    requires k <= 256
  {
    score(Blend(fg, target, k)) >= FLOOR
  }

  /** Once a blend reaches the floor, every stronger one does. */
  ghost predicate UpwardClosed(fg: Colour, target: Colour, score: Colour -> real) {
    forall j, k :: 0 <= j <= k <= 256 && Clears(fg, target, score, j) ==> Clears(fg, target, score, k)
  }

  /** A blend that reaches the floor where the one a step weaker does not, unless that is no blend at all. */
  predicate Edge(fg: Colour, target: Colour, score: Colour -> real, k: nat) {
    1 <= k <= 256 && Clears(fg, target, score, k) && (k > 1 ==> !Clears(fg, target, score, k - 1))
  }

  ghost predicate Lifted(fg: Colour, target: Colour, score: Colour -> real, c: Colour) {
    exists k :: 1 <= k <= 256 && Edge(fg, target, score, k) && c == Blend(fg, target, k)
  }

  function Power(n: nat): nat {
    if n == 0 then 1 else 2 * Power(n - 1)
  }

  method BlendToContrast(fg: Colour, score: Colour -> real, target: Colour) returns (best: Colour, ok: bool)
    ensures ok <==> score(target) >= FLOOR
    ensures if ok then Lifted(fg, target, score, best) else best == fg
  {
    if score(target) < FLOOR {
      return fg, false;
    }
    var lo, hi: int := 0, 256;
    best := target;
    BlendEnds(fg, target);
    assert Power(8) == 256;
    for step := 0 to SEARCH_STEPS
      invariant 0 <= lo < hi <= 256 && hi - lo == Power(SEARCH_STEPS - step)
      invariant best == Blend(fg, target, hi) && Clears(fg, target, score, hi)
      invariant lo > 0 ==> !Clears(fg, target, score, lo)
    {
      var mid := (lo + hi) / 2;
      var c := Blend(fg, target, mid);
      if score(c) >= FLOOR {
        best, hi := c, mid;
      } else {
        lo := mid;
      }
    }
    assert Edge(fg, target, score, hi);
    return best, true;
  }

  /** Where reaching the floor is upward closed, the lift is the least there is. */
  lemma {:induction false} EdgeIsLeast(fg: Colour, target: Colour, score: Colour -> real, k: nat)
    requires UpwardClosed(fg, target, score) && Edge(fg, target, score, k)
    ensures forall j :: 1 <= j < k ==> !Clears(fg, target, score, j)
    ensures forall j :: k <= j <= 256 ==> Clears(fg, target, score, j)
  {
    forall j | 1 <= j < k ensures !Clears(fg, target, score, j) {
      Upward(fg, target, score, j, k - 1);
    }
  }

  lemma {:induction false} Upward(fg: Colour, target: Colour, score: Colour -> real, j: nat, k: nat)
    requires UpwardClosed(fg, target, score) && j <= k <= 256
    ensures Clears(fg, target, score, j) ==> Clears(fg, target, score, k)
  {
  }

  // The bisection against every real blend.

  /** A mix by any real factor. */
  function RealMix(a: Channel, b: Channel, t: real): Channel
    requires 0.0 <= t <= 1.0
  {
    RealMixRange(a, b, t);
    (a as real + t * (b - a) as real + 0.5).Floor
  }

  lemma {:induction false} RealMixRange(a: Channel, b: Channel, t: real)
    requires 0.0 <= t <= 1.0
    ensures 0 <= (a as real + t * (b - a) as real + 0.5).Floor <= 255
  {
    ProductRange(t, (b - a) as real);
    Rounded(a, b, t * (b - a) as real);
  }

  /** A change of at most the whole difference, in its direction. */
  predicate Toward(p: real, d: real) {
    if d >= 0.0 then 0.0 <= p <= d else d <= p <= 0.0
  }

  lemma {:induction false} ProductRange(t: real, d: real)
    requires 0.0 <= t <= 1.0
    ensures Toward(t * d, d)
  {
    if d >= 0.0 {
      Shrinks(t, d);
    } else {
      Shrinks(t, 0.0 - d);
      Opposite(t, d);
    }
  }

  lemma {:induction false} Rounded(a: Channel, b: Channel, p: real)
    requires Toward(p, (b - a) as real)
    ensures var r := (a as real + p + 0.5).Floor; if a <= b then a <= r <= b else b <= r <= a
  {
    var x := a as real + p + 0.5;
    assert x.Floor as real <= x < x.Floor as real + 1.0;
  }

  lemma {:induction false} Shrinks(t: real, d: real)
    requires 0.0 <= t <= 1.0 && d >= 0.0
    ensures 0.0 <= t * d <= d
  {
    assert d - t * d == (1.0 - t) * d;
  }

  lemma {:induction false} Opposite(t: real, d: real)
    ensures t * (0.0 - d) == 0.0 - t * d
  {
  }

  function RealBlend(from: Colour, to: Colour, t: real): Colour
    requires 0.0 <= t <= 1.0
  {
    Colour(RealMix(from.red, to.red, t), RealMix(from.green, to.green, t), RealMix(from.blue, to.blue, t))
  }

  lemma {:induction false} RealMixAtStep(a: Channel, b: Channel, k: nat)
    requires k <= 256
    ensures 0.0 <= k as real / 256.0 <= 1.0 && RealMix(a, b, k as real / 256.0) == Mix(a, b, k)
  {
    var x := 256 * a + k * (b - a) + 128;
    assert a as real + k as real / 256.0 * (b - a) as real + 0.5 == x as real / 256.0;
    FloorQuotient(x);
  }

  lemma {:induction false} FloorQuotient(x: int)
    ensures (x as real / 256.0).Floor == x / 256
  {
    var q, r := x / 256, x % 256;
    assert x as real / 256.0 == q as real + r as real / 256.0;
  }

  /** Between two steps of the bisection a channel moves by one at most. */
  lemma {:induction false} StepIsFine(a: Channel, b: Channel, k: nat, t: real)
    requires 1 <= k <= 256 && 0.0 <= (k - 1) as real / 256.0 < t <= k as real / 256.0 <= 1.0
    ensures -1 <= RealMix(a, b, t) - Mix(a, b, k) <= 1
  {
    RealMixAtStep(a, b, k);
    var s := k as real / 256.0;
    var d := (b - a) as real;
    assert 0.0 <= s - t <= 1.0 / 256.0 && -255.0 <= d <= 255.0;
    MixesNear(a as real, s, t, d);
    FloorsNear(a as real + s * d + 0.5, a as real + t * d + 0.5);
  }

  lemma {:induction false} MixesNear(a: real, s: real, t: real, d: real)
    requires 0.0 <= s - t <= 1.0 / 256.0 && -255.0 <= d <= 255.0
    ensures -1.0 < (a + s * d + 0.5) - (a + t * d + 0.5) < 1.0
  {
    var x := s - t;
    SmallProduct(x, d);
    Spread(s, t, d);
    Apart(a, s * d, t * d, x * d);
  }

  lemma {:induction false} Spread(s: real, t: real, d: real)
    ensures s * d == (s - t) * d + t * d
  {
  }

  lemma {:induction false} Apart(a: real, p: real, q: real, e: real)
    requires p == e + q && -1.0 < e < 1.0
    ensures -1.0 < (a + p + 0.5) - (a + q + 0.5) < 1.0
  {
  }

  lemma {:induction false} FloorsNear(x: real, y: real)
    requires -1.0 < x - y < 1.0
    ensures -1 <= y.Floor - x.Floor <= 1
  {
    assert x.Floor as real <= x < x.Floor as real + 1.0;
    assert y.Floor as real <= y < y.Floor as real + 1.0;
  }

  /** A step of a 256th, times a difference of two channels, is less than one unit. */
  lemma {:induction false} SmallProduct(x: real, d: real)
    requires 0.0 <= x <= 1.0 / 256.0 && -255.0 <= d <= 255.0
    ensures -1.0 < x * d < 1.0
  {
    var y := 256.0 * x;
    ProductRange(y, d);
    Regrouped(256.0, x, d);
    var p := x * d;
    assert y * d == 256.0 * p;
  }

  lemma {:induction false} Regrouped(x: real, y: real, z: real)
    ensures (x * y) * z == x * (y * z)
  {
  }

  /** Once a real blend reaches the floor, every stronger one does. */
  ghost predicate RealUpwardClosed(fg: Colour, target: Colour, score: Colour -> real) {
    forall s: real, t: real {:trigger RealBlend(fg, target, s), RealBlend(fg, target, t)} ::
      0.0 <= s <= t <= 1.0 && score(RealBlend(fg, target, s)) >= FLOOR ==> score(RealBlend(fg, target, t)) >= FLOOR
  }

  /** No two channels of these are more than one apart. */
  predicate Near(c: Colour, d: Colour) {
    -1 <= c.red - d.red <= 1 && -1 <= c.green - d.green <= 1 && -1 <= c.blue - d.blue <= 1
  }

  /** The lift against the least real one: nothing at or below the step before it reaches the floor, and
      whatever does, up to the step itself, is within one unit per channel of it. */
  lemma {:induction false} LiftIsNearLeast(fg: Colour, target: Colour, score: Colour -> real, k: nat, t: real)
    requires RealUpwardClosed(fg, target, score) && Edge(fg, target, score, k)
    requires k > 1 || score(fg) < FLOOR
    requires 0.0 <= t <= k as real / 256.0 && score(RealBlend(fg, target, t)) >= FLOOR
    ensures (k - 1) as real / 256.0 < t && Near(RealBlend(fg, target, t), Blend(fg, target, k))
  {
    hide RealMix, Mix;
    var below := (k - 1) as real / 256.0;
    BlendEnds(fg, target);
    RealBlendAtStep(fg, target, k - 1);
    RealUpward(fg, target, score, t, below);
    assert below < t;
    StepIsFine(fg.red, target.red, k, t);
    StepIsFine(fg.green, target.green, k, t);
    StepIsFine(fg.blue, target.blue, k, t);
  }

  lemma {:induction false} RealUpward(fg: Colour, target: Colour, score: Colour -> real, s: real, t: real)
    requires RealUpwardClosed(fg, target, score) && 0.0 <= s <= 1.0 && 0.0 <= t <= 1.0
    ensures s <= t && score(RealBlend(fg, target, s)) >= FLOOR ==> score(RealBlend(fg, target, t)) >= FLOOR
  {
  }

  lemma {:induction false} RealBlendAtStep(fg: Colour, target: Colour, k: nat)
    requires k <= 256
    ensures 0.0 <= k as real / 256.0 <= 1.0 && RealBlend(fg, target, k as real / 256.0) == Blend(fg, target, k)
  {
    RealMixAtStep(fg.red, target.red, k);
    RealMixAtStep(fg.green, target.green, k);
    RealMixAtStep(fg.blue, target.blue, k);
  }

  // --------------------------------------------------------------------------- the lift

  /** The two extremes in the order they are tried: away from what the colour is to stand out from. */
  function Directions(linear: Channel -> real, fg: Colour, awayFrom: Colour): (Colour, Colour) {
    if RelLuminance(linear, awayFrom) > RelLuminance(linear, fg) then (BLACK, WHITE) else (WHITE, BLACK)
  }

  /** The first extreme leads away: no blend towards it comes nearer to what it is to stand out from. */
  lemma {:induction false} FirstLeadsAway(linear: Channel -> real, fg: Colour, awayFrom: Colour, k: nat)
    requires Transfer(linear) && k <= 256
    ensures var (first, second) := Directions(linear, fg, awayFrom);
      && ((first == WHITE && second == BLACK) || (first == BLACK && second == WHITE))
      && (RelLuminance(linear, awayFrom) > RelLuminance(linear, fg) ==>
            RelLuminance(linear, Blend(fg, first, k)) <= RelLuminance(linear, fg))
      && (RelLuminance(linear, awayFrom) <= RelLuminance(linear, fg) ==>
            RelLuminance(linear, Blend(fg, first, k)) >= RelLuminance(linear, fg))
  {
    hide RelLuminance, Covers, Blend;
    BlendEnds(fg, WHITE);
    BlendEnds(fg, BLACK);
    BlendMoves(fg, 0, k);
    if RelLuminance(linear, awayFrom) > RelLuminance(linear, fg) {
      LuminanceGrows(linear, fg, Blend(fg, BLACK, k));
    } else {
      LuminanceGrows(linear, Blend(fg, WHITE, k), fg);
    }
  }

  /** What the lift is, for any score: the colour itself when it is legible, else the blend towards the
      first extreme that is, else the extreme that scores best. */
  ghost predicate Ensured(fg: Colour, first: Colour, second: Colour, score: Colour -> real, c: Colour) {
    if score(fg) >= FLOOR then c == fg
    else if score(first) >= FLOOR then Lifted(fg, first, score, c)
    else if score(second) >= FLOOR then Lifted(fg, second, score, c)
    else (c == first || c == second) && score(c) >= score(first) && score(c) >= score(second)
  }

  method EnsureContrast(linear: Channel -> real, fg: Colour, awayFrom: Colour, score: Colour -> real)
    returns (c: Colour)
    ensures var (first, second) := Directions(linear, fg, awayFrom); Ensured(fg, first, second, score, c)
  {
    if score(fg) >= FLOOR {
      return fg;
    }
    var first, second := WHITE, BLACK;
    if RelLuminance(linear, awayFrom) > RelLuminance(linear, fg) {
      first, second := second, first;
    }
    for i := 0 to 2
      invariant i > 0 ==> score(first) < FLOOR
      invariant i > 1 ==> score(second) < FLOOR
    {
      var best, ok := BlendToContrast(fg, score, if i == 0 then first else second);
      if ok {
        return best;
      }
    }
    c := if score(second) > score(first) then second else first;
  }

  /** The lift reaches the floor exactly when the colour, white or black does. */
  lemma {:induction false} EnsuredClearsIff(fg: Colour, first: Colour, second: Colour, score: Colour -> real, c: Colour)
    requires Ensured(fg, first, second, score, c)
    ensures score(c) >= FLOOR <==> score(fg) >= FLOOR || score(first) >= FLOOR || score(second) >= FLOOR
  {
  }

  /** The score of an ink on one background. */
  ghost predicate Against(linear: Channel -> real, background: Colour, score: Colour -> real) {
    forall c :: score(c) == ContrastRatio(linear, c, background)
  }

  /** A colour that does not reach the floor on one side reaches it on the other only by passing the
      background, so along a blend to white or black reaching it is upward closed. */
  lemma {:induction false} InkIsUpwardClosed(linear: Channel -> real, fg: Colour, background: Colour,
                                             score: Colour -> real)
    requires Transfer(linear) && Against(linear, background, score) && score(fg) < FLOOR
    ensures UpwardClosed(fg, WHITE, score) && UpwardClosed(fg, BLACK, score)
  {
    hide RelLuminance, Ratio, ContrastRatio, Mix, Covers;
    BlendEnds(fg, WHITE);
    BlendEnds(fg, BLACK);
    forall j, k | 0 <= j <= k <= 256
      ensures Clears(fg, WHITE, score, j) ==> Clears(fg, WHITE, score, k)
      ensures Clears(fg, BLACK, score, j) ==> Clears(fg, BLACK, score, k)
    {
      BlendMoves(fg, 0, j);
      BlendMoves(fg, j, k);
      StaysClear(linear, background, fg, Blend(fg, WHITE, j), Blend(fg, WHITE, k));
      StaysClear(linear, background, fg, Blend(fg, BLACK, j), Blend(fg, BLACK, k));
    }
  }

  /** The same over all real blends. */
  lemma {:induction false} InkIsRealUpwardClosed(linear: Channel -> real, fg: Colour, background: Colour,
                                                 score: Colour -> real)
    requires Transfer(linear) && Against(linear, background, score) && score(fg) < FLOOR
    ensures RealUpwardClosed(fg, WHITE, score) && RealUpwardClosed(fg, BLACK, score)
  {
    hide RealBlend, ContrastRatio, Covers, RelLuminance, Ratio;
    forall s: real, t: real {:trigger RealBlend(fg, WHITE, s), RealBlend(fg, WHITE, t)} | 0.0 <= s <= t <= 1.0
      ensures score(RealBlend(fg, WHITE, s)) >= FLOOR ==> score(RealBlend(fg, WHITE, t)) >= FLOOR
    {
      RealBlendMoves(fg, s, t);
      StaysClear(linear, background, fg, RealBlend(fg, WHITE, s), RealBlend(fg, WHITE, t));
    }
    forall s: real, t: real {:trigger RealBlend(fg, BLACK, s), RealBlend(fg, BLACK, t)} | 0.0 <= s <= t <= 1.0
      ensures score(RealBlend(fg, BLACK, s)) >= FLOOR ==> score(RealBlend(fg, BLACK, t)) >= FLOOR
    {
      RealBlendMoves(fg, s, t);
      StaysClear(linear, background, fg, RealBlend(fg, BLACK, s), RealBlend(fg, BLACK, t));
    }
  }

  lemma {:induction false} RealMixMoves(a: Channel, b: Channel, s: real, t: real)
    requires 0.0 <= s <= t <= 1.0
    ensures a <= b ==> a <= RealMix(a, b, s) <= RealMix(a, b, t)
    ensures a >= b ==> a >= RealMix(a, b, s) >= RealMix(a, b, t)
  {
    var d := (b - a) as real;
    ProductRange(s, d);
    Rounded(a, b, s * d);
    Spread(t, s, d);
    ProductRange(t - s, d);
    FloorsOrdered(a as real, s * d, t * d, (t - s) * d);
  }

  lemma {:induction false} FloorsOrdered(a: real, p: real, q: real, e: real)
    requires q == e + p
    ensures e >= 0.0 ==> (a + p + 0.5).Floor <= (a + q + 0.5).Floor
    ensures e <= 0.0 ==> (a + p + 0.5).Floor >= (a + q + 0.5).Floor
  {
    var x, y := a + p + 0.5, a + q + 0.5;
    assert x.Floor as real <= x < x.Floor as real + 1.0;
    assert y.Floor as real <= y < y.Floor as real + 1.0;
  }

  lemma {:induction false} RealBlendMoves(fg: Colour, s: real, t: real)
    requires 0.0 <= s <= t <= 1.0
    ensures Covers(RealBlend(fg, WHITE, s), fg) && Covers(RealBlend(fg, WHITE, t), RealBlend(fg, WHITE, s))
    ensures Covers(fg, RealBlend(fg, BLACK, s)) && Covers(RealBlend(fg, BLACK, s), RealBlend(fg, BLACK, t))
  {
    hide RealMix;
    RealMixMoves(fg.red, 255, s, t);
    RealMixMoves(fg.green, 255, s, t);
    RealMixMoves(fg.blue, 255, s, t);
    RealMixMoves(fg.red, 0, s, t);
    RealMixMoves(fg.green, 0, s, t);
    RealMixMoves(fg.blue, 0, s, t);
  }

  /** Moving on in the direction in which the floor was first reached keeps it. */
  lemma {:induction false} StaysClear(linear: Channel -> real, background: Colour, from: Colour, c: Colour, d: Colour)
    requires Transfer(linear) && ContrastRatio(linear, from, background) < FLOOR
    requires (Covers(c, from) && Covers(d, c)) || (Covers(from, c) && Covers(c, d))
    ensures ContrastRatio(linear, c, background) >= FLOOR ==> ContrastRatio(linear, d, background) >= FLOOR
  {
    hide RelLuminance, Ratio;
    var b, lf := RelLuminance(linear, background), RelLuminance(linear, from);
    var lc, ld := RelLuminance(linear, c), RelLuminance(linear, d);
    LuminanceRange(linear, background);
    LuminanceRange(linear, from);
    LuminanceRange(linear, c);
    LuminanceRange(linear, d);
    ClearsIff(lf, b);
    ClearsIff(lc, b);
    ClearsIff(ld, b);
    if Covers(c, from) && Covers(d, c) {
      LuminanceGrows(linear, c, from);
      LuminanceGrows(linear, d, c);
    } else {
      LuminanceGrows(linear, from, c);
      LuminanceGrows(linear, c, d);
    }
  }

  predicate LeastLift(fg: Colour, target: Colour, score: Colour -> real, k: nat)
    requires k <= 256
  {
    Clears(fg, target, score, k) && forall j :: 0 <= j < k ==> !Clears(fg, target, score, j)
  }

  /** Where reaching the floor is upward closed, a lift is the least one. */
  lemma {:induction false} LeastOfEdge(fg: Colour, target: Colour, score: Colour -> real, c: Colour)
    requires UpwardClosed(fg, target, score) && score(fg) < FLOOR && Lifted(fg, target, score, c)
    ensures exists k :: 1 <= k <= 256 && LeastLift(fg, target, score, k) && c == Blend(fg, target, k)
  {
    var k :| 1 <= k <= 256 && Edge(fg, target, score, k) && c == Blend(fg, target, k);
    EdgeIsLeast(fg, target, score, k);
    BlendEnds(fg, target);
    assert LeastLift(fg, target, score, k);
  }

  /** An ink always comes out legible, and lifted no further than one bisection step needs: the last
      fallback is never taken. */
  lemma {:induction false} InkIsLegible(linear: Channel -> real, fg: Colour, background: Colour,
                                        score: Colour -> real, c: Colour)
    requires Transfer(linear) && Against(linear, background, score)
    requires var (first, second) := Directions(linear, fg, background); Ensured(fg, first, second, score, c)
    ensures score(c) >= FLOOR
    ensures score(fg) >= FLOOR ==> c == fg
    ensures score(fg) < FLOOR ==>
      (exists target, k :: target in {WHITE, BLACK} && 1 <= k <= 256 && LeastLift(fg, target, score, k)
                           && c == Blend(fg, target, k))
  {
    hide RelLuminance, Ratio, Clears;
    AnExtremeClears(linear, background);
    var (first, second) := Directions(linear, fg, background);
    if score(fg) < FLOOR {
      InkIsUpwardClosed(linear, fg, background, score);
      var target := if score(first) >= FLOOR then first else second;
      LeastOfEdge(fg, target, score, c);
    }
    EnsuredClearsIff(fg, first, second, score, c);
  }

  // ---------------------------------------------------------------------------- the fills

  /** The least contrast any of the inks has on `c`. */
  function WorstRatio(linear: Channel -> real, inks: seq<Colour>, c: Colour): real
    requires inks != []
  {
    var ratio := ContrastRatio(linear, inks[0], c);
    if |inks| == 1 then ratio
    else
      var rest := WorstRatio(linear, inks[1..], c);
      if ratio <= rest then ratio else rest
  }

  lemma {:induction false} WorstIs(linear: Channel -> real, inks: seq<Colour>, c: Colour)
    requires inks != []
    ensures forall i :: 0 <= i < |inks| ==> WorstRatio(linear, inks, c) <= ContrastRatio(linear, inks[i], c)
    ensures exists i :: 0 <= i < |inks| && WorstRatio(linear, inks, c) == ContrastRatio(linear, inks[i], c)
  {
    hide ContrastRatio;
    if |inks| > 1 {
      WorstIs(linear, inks[1..], c);
      assert forall i :: 1 <= i < |inks| ==> inks[i] == inks[1..][i - 1];
      var n :| 0 <= n < |inks| - 1 && WorstRatio(linear, inks[1..], c) == ContrastRatio(linear, inks[1..][n], c);
      assert inks[1..][n] == inks[n + 1];
    } else {
      assert WorstRatio(linear, inks, c) == ContrastRatio(linear, inks[0], c);
    }
  }

  /** The score of a fill that is to carry every one of these inks. */
  ghost predicate Carries(linear: Channel -> real, inks: seq<Colour>, score: Colour -> real) {
    inks != [] && forall c :: score(c) == WorstRatio(linear, inks, c)
  }

  lemma {:induction false} WorstClearsIff(linear: Channel -> real, inks: seq<Colour>, c: Colour)
    requires inks != []
    ensures WorstRatio(linear, inks, c) >= FLOOR <==>
      forall i :: 0 <= i < |inks| ==> ContrastRatio(linear, inks[i], c) >= FLOOR
  {
    hide ContrastRatio;
    if |inks| > 1 {
      WorstClearsIff(linear, inks[1..], c);
      assert forall i :: 1 <= i < |inks| ==> inks[i] == inks[1..][i - 1];
    }
  }

  /** A fill passed by an ink it does not carry stays on the far side of all of them: were it to carry
      one from the near side, the two would leave no room for the extreme it moves to. */
  lemma {:induction false} FillStaysClear(linear: Channel -> real, inks: seq<Colour>, score: Colour -> real,
                                          from: Colour, c: Colour, d: Colour)
    requires Transfer(linear) && Carries(linear, inks, score) && score(from) < FLOOR
    requires (Covers(c, from) && Covers(d, c) && score(WHITE) >= FLOOR)
          || (Covers(from, c) && Covers(c, d) && score(BLACK) >= FLOOR)
    ensures score(c) >= FLOOR ==> score(d) >= FLOOR
  {
    hide ContrastRatio, WorstRatio, Covers;
    WorstClearsIff(linear, inks, from);
    WorstClearsIff(linear, inks, c);
    WorstClearsIff(linear, inks, d);
    WorstClearsIff(linear, inks, WHITE);
    WorstClearsIff(linear, inks, BLACK);
    var n :| 0 <= n < |inks| && ContrastRatio(linear, inks[n], from) < FLOOR;
    if score(c) >= FLOOR {
      forall i | 0 <= i < |inks| ensures ContrastRatio(linear, inks[i], d) >= FLOOR {
        InkStaysCarried(linear, inks[n], inks[i], from, c, d);
      }
    }
  }

  /** One ink that got carried on the way to an extreme both are carried by, and another one. */
  lemma {:induction false} InkStaysCarried(linear: Channel -> real, passed: Colour, ink: Colour, from: Colour,
                                           c: Colour, d: Colour)
    requires Transfer(linear) && ContrastRatio(linear, passed, from) < FLOOR
    requires ContrastRatio(linear, passed, c) >= FLOOR && ContrastRatio(linear, ink, c) >= FLOOR
    requires (Covers(c, from) && Covers(d, c) && ContrastRatio(linear, ink, WHITE) >= FLOOR)
          || (Covers(from, c) && Covers(c, d) && ContrastRatio(linear, ink, BLACK) >= FLOOR)
    ensures ContrastRatio(linear, ink, d) >= FLOOR
  {
    hide RelLuminance, Ratio;
    var p, i := RelLuminance(linear, passed), RelLuminance(linear, ink);
    var lf, lc, ld := RelLuminance(linear, from), RelLuminance(linear, c), RelLuminance(linear, d);
    LuminanceRange(linear, passed);
    LuminanceRange(linear, ink);
    LuminanceRange(linear, from);
    LuminanceRange(linear, c);
    LuminanceRange(linear, d);
    ClearsIff(p, lf);
    ClearsIff(p, lc);
    ClearsIff(i, lc);
    ClearsIff(i, ld);
    if Covers(c, from) && Covers(d, c) && ContrastRatio(linear, ink, WHITE) >= FLOOR {
      ClearsIff(i, 1.0);
      LuminanceGrows(linear, c, from);
      LuminanceGrows(linear, d, c);
    } else {
      ClearsIff(i, 0.0);
      LuminanceGrows(linear, from, c);
      LuminanceGrows(linear, c, d);
    }
  }

  /** Towards an extreme that carries every ink, carrying them all is upward closed, for any set of inks
      and any fill that does not carry them yet; over the 256ths and over all real blends. */
  lemma {:induction false} FillIsUpwardClosed(linear: Channel -> real, fg: Colour, inks: seq<Colour>, target: Colour,
                                              score: Colour -> real)
    requires Transfer(linear) && Carries(linear, inks, score) && score(fg) < FLOOR
    requires target in {WHITE, BLACK} && score(target) >= FLOOR
    ensures UpwardClosed(fg, target, score) && RealUpwardClosed(fg, target, score)
  {
    hide RealBlend, Blend, WorstRatio, Covers;
    BlendEnds(fg, target);
    forall j, k | 0 <= j <= k <= 256 ensures Clears(fg, target, score, j) ==> Clears(fg, target, score, k) {
      BlendMoves(fg, 0, j);
      BlendMoves(fg, j, k);
      FillStaysClear(linear, inks, score, fg, Blend(fg, target, j), Blend(fg, target, k));
    }
    forall s: real, t: real {:trigger RealBlend(fg, target, s), RealBlend(fg, target, t)} | 0.0 <= s <= t <= 1.0
      ensures score(RealBlend(fg, target, s)) >= FLOOR ==> score(RealBlend(fg, target, t)) >= FLOOR
    {
      RealBlendMoves(fg, s, t);
      FillStaysClear(linear, inks, score, fg, RealBlend(fg, target, s), RealBlend(fg, target, t));
    }
  }

  /** A fill is lifted by the least number of 256ths towards the first extreme that carries every ink. */
  lemma {:induction false} FillIsLeast(linear: Channel -> real, fg: Colour, inks: seq<Colour>, first: Colour,
                                       second: Colour, score: Colour -> real, c: Colour)
    requires Transfer(linear) && Carries(linear, inks, score) && {first, second} == {WHITE, BLACK}
    requires Ensured(fg, first, second, score, c)
    requires score(fg) < FLOOR && (score(first) >= FLOOR || score(second) >= FLOOR)
    ensures var target := if score(first) >= FLOOR then first else second;
      exists k :: 1 <= k <= 256 && LeastLift(fg, target, score, k) && c == Blend(fg, target, k)
  {
    hide Clears, WorstRatio;
    assert first in {WHITE, BLACK} && second in {WHITE, BLACK};
    var target := if score(first) >= FLOOR then first else second;
    FillIsUpwardClosed(linear, fg, inks, target, score);
    LeastOfEdge(fg, target, score, c);
  }

  // -------------------------------------------------------------------- the light greys

  function Grey(v: Channel): Colour {
    Colour(v, v, v)
  }

  predicate Legible(linear: Channel -> real, surface: Colour, v: Channel) {
    ContrastRatio(linear, Grey(v), surface) >= FLOOR
  }

  /** Where the walk up from black ends: every grey up to `last` is legible and the next one is not, or
      not even black is. */
  predicate StopsAt(linear: Channel -> real, surface: Colour, last: Channel) {
    if !Legible(linear, surface, 0) then last == 0
    else
      && (forall v: Channel :: v <= last ==> Legible(linear, surface, v))
      && (last < 255 ==> !Legible(linear, surface, last + 1))
  }

  /** The greys from black up to the first that fails; black itself when even black fails. */
  method DarkestLegibleGrey(linear: Channel -> real, surface: Colour) returns (last: Channel)
    ensures StopsAt(linear, surface, last)
  {
    last := 0;
    for v := 0 to 256
      invariant last == if v == 0 then 0 else v - 1
      invariant forall u: Channel :: u < v ==> Legible(linear, surface, u)
    {
      if ContrastRatio(linear, Grey(v), surface) < FLOOR {
        break;
      }
      last := v;
    }
  }

  lemma {:induction false} GreyOrder(u: Channel, v: Channel)
    requires u <= v
    ensures Covers(Grey(v), Grey(u))
  {
  }

  /** What the walk stops at is the lightest legible grey exactly when white is not legible, or every
      grey is. */
  lemma {:induction false} LightestIff(linear: Channel -> real, surface: Colour, last: Channel)
    requires Transfer(linear) && StopsAt(linear, surface, last)
    ensures (forall v: Channel :: Legible(linear, surface, v) ==> v <= last) <==>
            !Legible(linear, surface, 255) || forall v: Channel :: Legible(linear, surface, v)
  {
    hide ContrastRatio;
    AnExtremeClears(linear, surface);
    if !Legible(linear, surface, 255) {
      assert last < 255;
      forall v: Channel | v > last ensures !Legible(linear, surface, v) {
        GreyOrder(last + 1, v);
        GreyOrder(v, 255);
        StaysClear(linear, surface, Grey(last + 1), Grey(v), Grey(255));
      }
    }
  }

  lemma {:induction false} GreyLuminance(linear: Channel -> real, v: Channel)
    ensures RelLuminance(linear, Grey(v)) == linear(v)
  {
  }

  /** On a grey of middling luminance black and white are legible and the grey itself is not, so the walk
      stops below it, though white would do. */
  lemma {:induction false} LightestFails(linear: Channel -> real, v: Channel, last: Channel)
    requires Transfer(linear) && 0.175 <= linear(v) <= 11.0 / 60.0 && StopsAt(linear, Grey(v), last)
    ensures last < v && Legible(linear, Grey(v), 0) && Legible(linear, Grey(v), 255)
  {
    hide RelLuminance, Ratio;
    GreyLuminance(linear, 0);
    GreyLuminance(linear, v);
    GreyLuminance(linear, 255);
    ClearsIff(0.0, linear(v));
    ClearsIff(linear(v), linear(v));
    ClearsIff(1.0, linear(v));
    assert !Legible(linear, Grey(v), v);
  }

  /** There is such a grey for the script's own curve. */
  lemma {:induction false} LightestCanFail(linear: Channel -> real, last: Channel)
    requires Srgb(linear) && StopsAt(linear, Grey(117), last)
    ensures last < 117 && Legible(linear, Grey(117), 255)
  {
    SrgbIsTransfer(linear);
    MiddleGrey();
    CurveAbove(linear, 117, 0.487, 0.175);
    CurveBelow(linear, 117, 0.4871, 11.0 / 60.0);
    LightestFails(linear, 117, last);
  }

  lemma {:induction false} MiddleGrey()
    ensures Raised(0.175, 5) <= Raised(0.487, 12) && Raised(0.4871, 12) <= Raised(11.0 / 60.0, 5)
  {
  }

  const STEPS: nat := 3

  /** The ramp's `i`th grey, `round(quietest * i / 3)`: a third is never half way between two integers. */
  function RampGrey(quietest: Channel, i: nat): Channel
    requires i <= STEPS
  {
    (2 * quietest * i + 3) / 6
  }

  lemma {:induction false} RampAt(q: Channel)
    ensures RampGrey(q, 0) == 0 <= RampGrey(q, 1) <= RampGrey(q, 2) <= RampGrey(q, 3) == q
    ensures RampGrey(q, 0) < RampGrey(q, 1) < RampGrey(q, 2) < RampGrey(q, 3) <==> q >= 3
    ensures -1 <= 3 * RampGrey(q, 1) - q <= 1 && -1 <= 3 * RampGrey(q, 2) - 2 * q <= 1
  {
    var b, c := (2 * q + 3) / 6, (4 * q + 3) / 6;
    assert RampGrey(q, 0) == 0 && RampGrey(q, 1) == b && RampGrey(q, 2) == c && RampGrey(q, 3) == q;
  }

  /** The four greys run evenly from black to the quietest one; all are as legible as those; and they
      are four different ones exactly when there is room for them. */
  lemma {:induction false} RampLevels(quietest: Channel)
    ensures RampGrey(quietest, 0) == 0 && RampGrey(quietest, 3) == quietest
    ensures -1 <= 3 * RampGrey(quietest, 1) - quietest <= 1 && -1 <= 3 * RampGrey(quietest, 2) - 2 * quietest <= 1
    ensures forall i, j :: 0 <= i <= j <= 3 ==> RampGrey(quietest, i) <= RampGrey(quietest, j) <= quietest
    ensures (forall i, j :: 0 <= i < j <= 3 ==> RampGrey(quietest, i) < RampGrey(quietest, j)) <==> quietest >= 3
  {
    RampAt(quietest);
    hide RampGrey;
    assert forall i, j {:trigger RampGrey(quietest, i), RampGrey(quietest, j)} :: 0 <= i < j <= 3 ==>
             i in {0, 1, 2} && j in {1, 2, 3};
  }
}
