/** `components/portfolio-3d.tsx`: the scroll-progress tracker of the page host
    and the atmosphere (background colour, fog, light intensities) that the
    canvas derives from that progress every render. */
module Portfolio3D {
  import opened Numeric

  // ---------------------------------------------------------------------------
  // Scroll progress
  // ---------------------------------------------------------------------------

  /** The progress `handleScroll` publishes: scroll position over the
      scrollable height (document height less viewport height), clamped to
      [0,1]; a page that cannot scroll has progress 0 and nothing is divided. */
  function ScrollProgress(scrollY: real, documentHeight: real, innerHeight: real): (r: real)
    ensures 0.0 <= r <= 1.0
    ensures documentHeight - innerHeight <= 0.0 ==> r == 0.0
  {
    var scrollHeight := documentHeight - innerHeight;
    var progress := if scrollHeight > 0.0 then scrollY / scrollHeight else 0.0;
    Min(1.0, Max(0.0, progress))
  }

  /** Inside the scrollable range the progress is the plain ratio; at or above
      the top it is 0 and at or below the bottom it is 1. */
  lemma ProgressOnScrollableRange(scrollY: real, documentHeight: real, innerHeight: real)
    requires documentHeight - innerHeight > 0.0
    ensures var h := documentHeight - innerHeight;
            && (scrollY <= 0.0 ==> ScrollProgress(scrollY, documentHeight, innerHeight) == 0.0)
            && (scrollY >= h ==> ScrollProgress(scrollY, documentHeight, innerHeight) == 1.0)
            && (0.0 <= scrollY <= h ==> ScrollProgress(scrollY, documentHeight, innerHeight) == scrollY / h)
  {
    RatioBounds(scrollY, documentHeight - innerHeight);
  }

  /** For a fixed page, scrolling further down never lowers the progress. */
  lemma ProgressMonotone(y1: real, y2: real, documentHeight: real, innerHeight: real)
    requires y1 <= y2
    ensures ScrollProgress(y1, documentHeight, innerHeight) <= ScrollProgress(y2, documentHeight, innerHeight)
  {
    var h := documentHeight - innerHeight;
    if h > 0.0 {
      assert (y2 / h - y1 / h) * h == y2 - y1;
      NonNegativeFactor(y2 / h - y1 / h, h);
    }
  }

  /** The page host's `scrollProgress` state: 0 until the first sample, then
      whatever the last scroll notification computed. The mount effect calls
      `HandleScroll` once eagerly and then on every scroll event. */
  class ScrollTracker {
    var scrollProgress: real

    constructor ()
      ensures scrollProgress == 0.0
    {
      scrollProgress := 0.0;
    }

    /** One scroll notification, with the DOM readings as arguments. */
    method HandleScroll(scrollY: real, documentHeight: real, innerHeight: real)
      modifies this
      ensures 0.0 <= scrollProgress <= 1.0
      ensures scrollProgress == ScrollProgress(scrollY, documentHeight, innerHeight)
    {
      scrollProgress := ScrollProgress(scrollY, documentHeight, innerHeight);
    }
  }

  // ---------------------------------------------------------------------------
  // Tanks window factor
  // ---------------------------------------------------------------------------

  const TanksSectionStart: real := 0.35
  const TanksSectionEnd: real := 0.65
  const MidPoint: real := (TanksSectionStart + TanksSectionEnd) / 2.0

  /** The factor while scrolling into the tanks section. */
  function RisingBranch(p: real): (f: real)
    ensures p == TanksSectionStart ==> f == 0.0
    ensures p == MidPoint ==> f == 1.0
    ensures TanksSectionStart <= p <= MidPoint ==> 0.0 <= f <= 1.0
  {
    (p - TanksSectionStart) / (MidPoint - TanksSectionStart)
  }

  /** The factor while scrolling out of the tanks section. */
  function FallingBranch(p: real): (f: real)
    ensures p == MidPoint ==> f == 1.0
    ensures p == TanksSectionEnd ==> f == 0.0
    ensures MidPoint <= p <= TanksSectionEnd ==> 0.0 <= f <= 1.0
  {
    1.0 - (p - MidPoint) / (TanksSectionEnd - MidPoint)
  }

  /** The factor before easing: 0 outside the open window, rising to 1 at the
      midpoint and falling back to 0. */
  function RawTanksFactor(p: real): (f: real)
    ensures 0.0 <= f <= 1.0
    ensures p <= TanksSectionStart || p >= TanksSectionEnd ==> f == 0.0
  {
    if p > TanksSectionStart && p < TanksSectionEnd then
      if p < MidPoint then RisingBranch(p) else FallingBranch(p)
    else
      0.0
  }

  /** An independent description of the same shape: a tent of height 1 and
      half-width 0.15 centred on the midpoint. */
  function Tent(p: real): real
  {
    Max(0.0, 1.0 - Abs(p - MidPoint) / (MidPoint - TanksSectionStart))
  }

  lemma RawFactorIsTent(p: real)
    ensures RawTanksFactor(p) == Tent(p)
  {
  }

  /** The two branches meet at the midpoint with value 1 and reach 0 at the
      window's edges, so the raw factor has no jump anywhere. */
  lemma BranchesAgree()
    ensures MidPoint == 0.5
    ensures RisingBranch(MidPoint) == 1.0 && FallingBranch(MidPoint) == 1.0
    ensures RisingBranch(TanksSectionStart) == 0.0 && FallingBranch(TanksSectionEnd) == 0.0
    ensures RawTanksFactor(MidPoint) == 1.0
  {
  }

  /** The raw factor is symmetric about the midpoint. */
  lemma RawFactorSymmetric(d: real)
    ensures RawTanksFactor(MidPoint - d) == RawTanksFactor(MidPoint + d)
  {
    RawFactorIsTent(MidPoint - d);
    RawFactorIsTent(MidPoint + d);
    assert Abs(MidPoint - d - MidPoint) == Abs(MidPoint + d - MidPoint);
  }

  /** The raw factor is Lipschitz with constant 1/0.15 = 20/3. */
  lemma RawFactorLipschitz(p: real, q: real)
    ensures Abs(RawTanksFactor(p) - RawTanksFactor(q)) <= 20.0 / 3.0 * Abs(p - q)
  {
    RawFactorIsTent(p);
    RawFactorIsTent(q);
    var u := 1.0 - Abs(p - MidPoint) / 0.15;
    var v := 1.0 - Abs(q - MidPoint) / 0.15;
    assert Abs(u - v) <= Abs(p - q) / 0.15;
    assert Abs(Max(0.0, u) - Max(0.0, v)) <= Abs(u - v);
  }

  lemma RawFactorRisesThenFalls(p: real, q: real)
    requires p <= q
    ensures q <= MidPoint ==> RawTanksFactor(p) <= RawTanksFactor(q)
    ensures MidPoint <= p ==> RawTanksFactor(p) >= RawTanksFactor(q)
  {
    if q <= MidPoint && p > TanksSectionStart {
      assert RisingBranch(p) <= RisingBranch(q);
    }
    if MidPoint <= p && q < TanksSectionEnd {
      assert FallingBranch(p) >= FallingBranch(q);
    }
  }

  /** The cubic ease `f²(3 − 2f)`. */
  function Smoothstep(f: real): real
  {
    f * f * (3.0 - 2.0 * f)
  }

  lemma SmoothstepBounds(f: real)
    requires 0.0 <= f <= 1.0
    ensures 0.0 <= Smoothstep(f) <= 1.0
    ensures Smoothstep(0.0) == 0.0 && Smoothstep(1.0) == 1.0
  {
    SquareNonNegative(f);
    MulNonNegative(f * f, 3.0 - 2.0 * f);
    assert 1.0 - Smoothstep(f) == (1.0 - f) * (1.0 - f) * (1.0 + 2.0 * f);
    SquareNonNegative(1.0 - f);
    MulNonNegative((1.0 - f) * (1.0 - f), 1.0 + 2.0 * f);
  }

  /** On [0,1] the ease never decreases and changes by at most 3/2
      times the change in its argument: `S(b) − S(a) = (b − a)·g` with `0 ≤ g ≤ 3/2`. */
  lemma SmoothstepMonotoneLipschitz(a: real, b: real)
    requires 0.0 <= a <= b <= 1.0
    ensures Smoothstep(a) <= Smoothstep(b)
    ensures Smoothstep(b) - Smoothstep(a) <= 1.5 * (b - a)
  {
    var g := 3.0 * (a + b) - 2.0 * (a * a + a * b + b * b);
    assert Smoothstep(b) - Smoothstep(a) == (b - a) * g;
    assert g >= 0.0 by {
      MulNonNegative(a, 1.0 - a);
      MulNonNegative(b, 1.0 - b);
      MulNonNegative(b, 1.0 - a);
      MulNonNegative(a, 1.0 - b);
    }
    assert g <= 1.5 by {
      var u := a - 0.5;
      var w := b - 0.5;
      assert 1.5 - g == 2.0 * (u * u + u * w + w * w);
      assert u * u + u * w + w * w == (u + w / 2.0) * (u + w / 2.0) + 0.75 * (w * w);
      SquareNonNegative(u + w / 2.0);
      SquareNonNegative(w);
    }
    MulNonNegative(b - a, g);
    MulNonNegative(b - a, 1.5 - g);
  }

  /** The eased tanks factor that drives every blend. */
  function TanksFactor(p: real): (f: real)
    ensures 0.0 <= f <= 1.0
    ensures p <= TanksSectionStart || p >= TanksSectionEnd ==> f == 0.0
  {
    SmoothstepBounds(RawTanksFactor(p));
    Smoothstep(RawTanksFactor(p))
  }

  lemma TanksFactorAtMidpoint()
    ensures TanksFactor(0.5) == 1.0
  {
    BranchesAgree();
  }

  /** The eased factor is symmetric about the midpoint. */
  lemma TanksFactorSymmetric(d: real)
    ensures TanksFactor(MidPoint - d) == TanksFactor(MidPoint + d)
  {
    RawFactorSymmetric(d);
  }

  /** Continuity across the whole scroll range, window edges and midpoint
      included: the eased factor is Lipschitz with constant 10. */
  lemma TanksFactorLipschitz(p: real, q: real)
    ensures Abs(TanksFactor(p) - TanksFactor(q)) <= 10.0 * Abs(p - q)
  {
    var a, b := RawTanksFactor(p), RawTanksFactor(q);
    RawFactorLipschitz(p, q);
    if a <= b {
      SmoothstepMonotoneLipschitz(a, b);
    } else {
      SmoothstepMonotoneLipschitz(b, a);
    }
    assert Abs(Smoothstep(a) - Smoothstep(b)) <= 1.5 * Abs(a - b);
  }

  /** The factor rises over the first half of the window and falls over the
      second. */
  lemma TanksFactorRisesThenFalls(p: real, q: real)
    requires p <= q
    ensures q <= MidPoint ==> TanksFactor(p) <= TanksFactor(q)
    ensures MidPoint <= p ==> TanksFactor(p) >= TanksFactor(q)
  {
    var a, b := RawTanksFactor(p), RawTanksFactor(q);
    RawFactorRisesThenFalls(p, q);
    if q <= MidPoint {
      SmoothstepMonotoneLipschitz(a, b);
    }
    if MidPoint <= p {
      SmoothstepMonotoneLipschitz(b, a);
    }
  }

  // ---------------------------------------------------------------------------
  // Atmosphere
  // ---------------------------------------------------------------------------

  /** The component's local `lerp`. */
  function Lerp(a: real, b: real, t: real): (r: real)
    ensures t == 0.0 ==> r == a
    ensures t == 1.0 ==> r == b
  {
    a + (b - a) * t
  }

  predicate Between(x: real, a: real, b: real)
  {
    Min(a, b) <= x <= Max(a, b)
  }

  /** For a factor in [0,1] the blend stays between its endpoints and meets
      them at 0 and 1. */
  lemma LerpBetween(a: real, b: real, t: real)
    requires 0.0 <= t <= 1.0
    ensures Between(Lerp(a, b, t), a, b)
    ensures Lerp(a, b, 0.0) == a && Lerp(a, b, 1.0) == b
  {
    if a <= b {
      MulNonNegative(b - a, t);
      MulNonNegative(b - a, 1.0 - t);
    } else {
      MulNonNegative(a - b, t);
      MulNonNegative(a - b, 1.0 - t);
    }
  }

  /** A blend changes by the endpoint gap times the change in factor. */
  lemma LerpLipschitz(a: real, b: real, s: real, t: real)
    ensures Abs(Lerp(a, b, s) - Lerp(a, b, t)) == Abs(b - a) * Abs(s - t)
  {
    assert Lerp(a, b, s) - Lerp(a, b, t) == (b - a) * (s - t);
    AbsOfProduct(b - a, s - t);
  }

  /** Everything the canvas derives from the progress in one render. */
  datatype Atmosphere = Atmosphere(
    bgR: real, bgG: real, bgB: real,
    fogNear: real, fogFar: real,
    ambient: real, directional: real)

  /** Colour `#0a0a0f`, open fog and the usual light levels. */
  const BaseAtmosphere := Atmosphere(0.039, 0.039, 0.059, 20.0, 100.0, 0.3, 0.5)
  /** Colour `#0d100d`, denser and closer fog and dimmer lights. */
  const TanksAtmosphere := Atmosphere(0.051, 0.063, 0.051, 15.0, 60.0, 0.25, 0.4)

  function Blend(a: Atmosphere, b: Atmosphere, t: real): (r: Atmosphere)
    ensures t == 0.0 ==> r == a
    ensures t == 1.0 ==> r == b
  {
    Atmosphere(
      Lerp(a.bgR, b.bgR, t), Lerp(a.bgG, b.bgG, t), Lerp(a.bgB, b.bgB, t),
      Lerp(a.fogNear, b.fogNear, t), Lerp(a.fogFar, b.fogFar, t),
      Lerp(a.ambient, b.ambient, t), Lerp(a.directional, b.directional, t))
  }

  function AtmosphereAt(p: real): (r: Atmosphere)
    ensures p <= TanksSectionStart || p >= TanksSectionEnd ==> r == BaseAtmosphere
  {
    Blend(BaseAtmosphere, TanksAtmosphere, TanksFactor(p))
  }

  predicate AtmosphereBetween(x: Atmosphere, a: Atmosphere, b: Atmosphere)
  {
    && Between(x.bgR, a.bgR, b.bgR) && Between(x.bgG, a.bgG, b.bgG) && Between(x.bgB, a.bgB, b.bgB)
    && Between(x.fogNear, a.fogNear, b.fogNear) && Between(x.fogFar, a.fogFar, b.fogFar)
    && Between(x.ambient, a.ambient, b.ambient) && Between(x.directional, a.directional, b.directional)
  }

  /** Every output lies between its two endpoints, equals the base values
      outside the window and the tanks values at the midpoint, and the fog
      always starts before it ends. */
  lemma AtmosphereBounds(p: real)
    ensures AtmosphereBetween(AtmosphereAt(p), BaseAtmosphere, TanksAtmosphere)
    ensures p <= TanksSectionStart || p >= TanksSectionEnd ==> AtmosphereAt(p) == BaseAtmosphere
    ensures p == MidPoint ==> AtmosphereAt(p) == TanksAtmosphere
    ensures AtmosphereAt(p).fogNear < AtmosphereAt(p).fogFar
  {
    var t := TanksFactor(p);
    var a, b := BaseAtmosphere, TanksAtmosphere;
    LerpBetween(a.bgR, b.bgR, t);
    LerpBetween(a.bgG, b.bgG, t);
    LerpBetween(a.bgB, b.bgB, t);
    LerpBetween(a.fogNear, b.fogNear, t);
    LerpBetween(a.fogFar, b.fogFar, t);
    LerpBetween(a.ambient, b.ambient, t);
    LerpBetween(a.directional, b.directional, t);
    if p == MidPoint {
      TanksFactorAtMidpoint();
    }
  }

  /** Continuity of the whole atmosphere: each output moves by at most ten
      times its endpoint gap times the change in progress. */
  lemma AtmosphereLipschitz(p: real, q: real)
    ensures var x, y, d := AtmosphereAt(p), AtmosphereAt(q), 10.0 * Abs(p - q);
            && Abs(x.bgR - y.bgR) <= 0.012 * d
            && Abs(x.bgG - y.bgG) <= 0.024 * d
            && Abs(x.bgB - y.bgB) <= 0.008 * d
            && Abs(x.fogNear - y.fogNear) <= 5.0 * d
            && Abs(x.fogFar - y.fogFar) <= 40.0 * d
            && Abs(x.ambient - y.ambient) <= 0.05 * d
            && Abs(x.directional - y.directional) <= 0.1 * d
  {
    var s, t := TanksFactor(p), TanksFactor(q);
    var d := 10.0 * Abs(p - q);
    TanksFactorLipschitz(p, q);
    var a, b := BaseAtmosphere, TanksAtmosphere;
    LerpLipschitz(a.bgR, b.bgR, s, t);
    LerpLipschitz(a.bgG, b.bgG, s, t);
    LerpLipschitz(a.bgB, b.bgB, s, t);
    LerpLipschitz(a.fogNear, b.fogNear, s, t);
    LerpLipschitz(a.fogFar, b.fogFar, s, t);
    LerpLipschitz(a.ambient, b.ambient, s, t);
    LerpLipschitz(a.directional, b.directional, s, t);
  }
}
