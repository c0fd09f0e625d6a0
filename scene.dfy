/** `components/scene/scene.tsx`: the five stations laid out along the z axis
    and the group that carries them, pulled every frame a tenth of the way
    toward the depth the scroll progress asks for. */
module Scene {
  import opened Numeric

  datatype Station = Intro | Parley | TanksInc | Dini | About

  /** `STATION_Z`: each station's fixed offset along the travel axis. */
  function StationZ(s: Station): (z: real)
    ensures z <= 0.0
    ensures z == -25.0 * (Index(s) as real)
  {
    match s
    case Intro => 0.0
    case Parley => -25.0
    case TanksInc => -50.0
    case Dini => -75.0
    case About => -100.0
  }

  /** A station's place in the travel order. */
  function Index(s: Station): (i: nat)
    ensures i < 5
  {
    match s
    case Intro => 0
    case Parley => 1
    case TanksInc => 2
    case Dini => 3
    case About => 4
  }

  /** The stations lie 25 apart, farther along the order means deeper, and the
      last one is the farthest of all. */
  lemma StationLayout(s: Station, t: Station)
    ensures StationZ(s) == -25.0 * (Index(s) as real)
    ensures Index(s) < Index(t) <==> StationZ(s) > StationZ(t)
    ensures Index(t) == Index(s) + 1 ==> StationZ(s) - StationZ(t) == 25.0
    ensures StationZ(About) <= StationZ(s) <= StationZ(Intro)
  {
  }

  /** `Math.abs(STATION_Z.about)`. */
  function TotalDistance(): (d: real)
    ensures d == StationZ(Intro) - StationZ(About) == 100.0
  {
    Abs(StationZ(About))
  }

  /** The depth the group is pulled toward for a given scroll progress. */
  function TargetZ(scrollProgress: real): (t: real)
    ensures 0.0 <= scrollProgress <= 1.0 ==> 0.0 <= t <= TotalDistance()
    ensures scrollProgress == 1.0 ==> t == -StationZ(About)
  {
    scrollProgress * TotalDistance()
  }

  const Damping: real := 0.1

  /** One frame of smoothing: a tenth of the remaining distance. */
  function Step(z: real, target: real): (r: real)
    ensures r - target == 0.9 * (z - target)
  {
    z + (target - z) * Damping
  }

  /** The position never passes the target, the distance to it shrinks by
      exactly a factor 0.9, so away from the target each frame strictly closes
      in on it, and at the target a frame leaves the position where it is. */
  lemma StepApproaches(z: real, target: real)
    ensures Step(z, target) - target == 0.9 * (z - target)
    ensures Min(z, target) <= Step(z, target) <= Max(z, target)
    ensures Abs(Step(z, target) - target) == 0.9 * Abs(z - target)
    ensures z != target ==> Abs(Step(z, target) - target) < Abs(z - target)
    ensures z == target ==> Step(z, target) == z
  {
  }

  /** The position after `n` frames at a constant target. */
  function Iterate(z: real, target: real, n: nat): real
  {
    if n == 0 then z else Step(Iterate(z, target, n - 1), target)
  }

  /** After `n` frames the error is `0.9ⁿ` times the starting error. */
  lemma {:induction false} IterateError(z: real, target: real, n: nat)
    ensures Iterate(z, target, n) - target == Pow(0.9, n) * (z - target)
  {
    if n > 0 {
      IterateError(z, target, n - 1);
    }
  }

  /** A point at `p` times the offset `e` from a target, with `p` in (0,1],
      lies between the target and the offset point, `p` times as far, and is
      the target only when `e` is zero. */
  lemma ScaledOffset(x: real, target: real, p: real, e: real)
    requires 0.0 < p <= 1.0
    requires x - target == p * e
    ensures Abs(x - target) == p * Abs(e)
    ensures Min(target + e, target) <= x <= Max(target + e, target)
    ensures e != 0.0 ==> x != target
  {
    AbsOfProduct(p, e);
    if e <= 0.0 {
      MulNonNegative(p, -e);
      MulNonNegative(1.0 - p, -e);
    } else {
      MulNonNegative(p, e);
      MulNonNegative(1.0 - p, e);
    }
  }

  /** Geometric decay, no overshoot over any number of frames, and the target
      is never reached from a different start. */
  lemma {:induction false} IterateDistance(z: real, target: real, n: nat)
    ensures Abs(Iterate(z, target, n) - target) == Pow(0.9, n) * Abs(z - target)
    ensures Min(z, target) <= Iterate(z, target, n) <= Max(z, target)
    ensures z != target ==> Iterate(z, target, n) != target
  {
    IterateError(z, target, n);
    DecayFactorInUnitInterval(n);
    ScaledOffset(Iterate(z, target, n), target, Pow(0.9, n), z - target);
  }

  lemma DecayFactorInUnitInterval(n: nat)
    ensures 0.0 < Pow(0.9, n) <= 1.0
  {
    PowPositive(0.9, n);
    PowAtMostOne(0.9, n);
  }

  /** A Bernoulli-style bound: `0.9ⁿ ≤ 9 / (9 + n)`. */
  lemma {:induction false} DecayBound(n: nat)
    ensures Pow(0.9, n) * (9.0 + n as real) <= 9.0
  {
    if n > 0 {
      DecayBound(n - 1);
      var p := Pow(0.9, n - 1);
      PowPositive(0.9, n - 1);
      assert p * (8.0 + n as real) <= 9.0;
      assert Pow(0.9, n) * (9.0 + n as real) == 0.9 * p * (9.0 + n as real);
      MulNonNegative(p, 0.1 * (n as real) - 0.1);
      assert 0.9 * p * (9.0 + n as real) <= p * (8.0 + n as real);
    }
  }

  /** A number of frames after which the position is within `eps` of a
      constant target, from a starting distance `d`. */
  function FramesWithin(d: real, eps: real): (n: nat)
    requires d >= 0.0 && eps > 0.0
    ensures (n as real) * eps > 9.0 * d
  {
    var q := 9.0 * d / eps;
    assert q * eps == 9.0 * d;
    MulNonNegative(9.0 * d, 1.0 / eps);
    var k := q.Floor;
    var m := (k + 1) as real;
    assert m > q;
    assert m * eps - q * eps == (m - q) * eps;
    MulNonNegative(m - q, eps);
    assert (m - q) * eps != 0.0;
    k + 1
  }

  lemma PositiveFactor(a: real, m: real)
    requires m > 0.0 && a * m > 0.0
    ensures a > 0.0
  {
    if a <= 0.0 {
      MulNonNegative(-a, m);
    }
  }

  /** The arithmetic behind convergence, kept apart from the recursion. */
  lemma DecayBelow(p: real, d: real, n: real, eps: real)
    requires p > 0.0 && d >= 0.0 && n >= 0.0 && eps > 0.0
    requires p * (9.0 + n) <= 9.0
    requires n * eps > 9.0 * d
    ensures p * d < eps
  {
    var m := 9.0 + n;
    MulNonNegative(9.0 - p * m, d);
    assert (9.0 - p * m) * d == 9.0 * d - p * d * m;
    assert (eps - p * d) * m == m * eps - p * d * m;
    PositiveFactor(eps - p * d, m);
  }

  /** Convergence: from any start, after `FramesWithin` frames or more the
      position stays within any chosen distance of the target. */
  lemma {:induction false} Converges(z: real, target: real, eps: real, n: nat)
    requires eps > 0.0
    requires n >= FramesWithin(Abs(z - target), eps)
    ensures Abs(Iterate(z, target, n) - target) < eps
  {
    var d := Abs(z - target);
    var k := FramesWithin(d, eps);
    IterateDistance(z, target, n);
    DecayBound(n);
    PowPositive(0.9, n);
    MoreFramesSuffice(k, n, d, eps);
    DecayBelow(Pow(0.9, n), d, n as real, eps);
  }

  lemma MoreFramesSuffice(k: nat, n: nat, d: real, eps: real)
    requires k <= n && eps > 0.0
    requires (k as real) * eps > 9.0 * d
    ensures (n as real) * eps > 9.0 * d
  {
    MulNonNegative((n - k) as real, eps);
    assert (n as real) * eps == (k as real) * eps + ((n - k) as real) * eps;
  }

  /** The position after one frame per scroll-progress sample, in order. */
  function Run(z: real, progresses: seq<real>): real
  {
    if |progresses| == 0 then z
    else Step(Run(z, progresses[..|progresses| - 1]), TargetZ(progresses[|progresses| - 1]))
  }

  predicate InTravelRange(z: real)
  {
    0.0 <= z <= TotalDistance()
  }

  /** However the progress jumps around inside [0,1], a group that starts on
      the travel range never leaves it. */
  lemma {:induction false} RunStaysInRange(z: real, progresses: seq<real>)
    requires InTravelRange(z)
    requires forall i :: 0 <= i < |progresses| ==> 0.0 <= progresses[i] <= 1.0
    ensures InTravelRange(Run(z, progresses))
  {
    if |progresses| > 0 {
      RunStaysInRange(z, progresses[..|progresses| - 1]);
    }
  }

  /** The scene's root group: `attached` says whether `groupRef.current` is
      set; `z` is the group's position on the travel axis. */
  class SceneGroup {
    var attached: bool
    var z: real

    /** Before mount the ref is null; the group is created at the origin. */
    constructor ()
      ensures !attached && z == 0.0
    {
      attached := false;
      z := 0.0;
    }

    /** React assigns the ref once the group exists. */
    method Attach()
      modifies this
      ensures attached && z == old(z)
    {
      attached := true;
    }

    /** The `useFrame` callback: without a group it does nothing; otherwise
      it moves the group one damping step toward the progress's depth. */
    method Frame(scrollProgress: real)
      modifies this
      ensures attached == old(attached)
      ensures !old(attached) ==> z == old(z)
      ensures old(attached) ==> z == Run(old(z), [scrollProgress])
      ensures old(attached) ==> z == Iterate(old(z), TargetZ(scrollProgress), 1)
      ensures InTravelRange(old(z)) && 0.0 <= scrollProgress <= 1.0 ==> InTravelRange(z)
    {
      if !attached {
        return;
      }
      z := Step(z, TargetZ(scrollProgress));
      assert [scrollProgress][..0] == [];
    }
  }
}
