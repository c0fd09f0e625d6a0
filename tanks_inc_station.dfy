/** `components/scene/tanks-inc-station.tsx`: the cannonball whose flight is
    scrubbed by the scroll position, and the textures of the tank sprite, the
    cannonball and the floor, each shown once loaded and replaced by a flat
    colour until then. */
module TanksIncStation {
  import opened Numeric
  import opened Wrappers

  // ---------------------------------------------------------------------------
  // Cannonball pose
  // ---------------------------------------------------------------------------

  const TankSectionStart: real := 0.35
  const TankSectionEnd: real := 0.65

  /** The scroll offset mapped onto the section: 0 at its start, 1 at its end,
      clamped outside. */
  function NormalizedProgress(offset: real): (np: real)
    ensures 0.0 <= np <= 1.0
    ensures offset <= TankSectionStart ==> np == 0.0
    ensures offset >= TankSectionEnd ==> np == 1.0
    ensures TankSectionStart <= offset <= TankSectionEnd ==>
              np == (offset - TankSectionStart) / (TankSectionEnd - TankSectionStart)
  {
    Max(0.0, Min(1.0, (offset - TankSectionStart) / (TankSectionEnd - TankSectionStart)))
  }

  lemma NormalizedProgressMonotone(o1: real, o2: real)
    requires o1 <= o2
    ensures NormalizedProgress(o1) <= NormalizedProgress(o2)
  {
  }

  /** What the model assumes of `Math.sin` and `Math.PI`: sine vanishes at 0
      and at pi, lies in [0,1] on [0,pi], and takes equal values at two points
      that sum to pi. */
  ghost predicate SineLaws(sin: real -> real, pi: real)
  {
    && pi > 0.0
    && sin(0.0) == 0.0 && sin(pi) == 0.0
    && (forall x :: 0.0 <= x <= pi ==> 0.0 <= sin(x) <= 1.0)
    && (forall x, y :: x + y == pi ==> sin(x) == sin(y))
  }

  /** The transform the frame callback writes to the ball's group. */
  datatype Pose = Pose(x: real, y: real, rotationZ: real, scale: real, visible: bool)

  const StartX: real := 0.0
  const EndX: real := 12.0
  const StartY: real := 0.5
  const MaxHeight: real := 2.5

  /** The ball's pose for a scroll offset: along the x axis in proportion to
      the progress, up and down an arc, spinning one and a half turns, swelling
      at the top of the arc, and shown only away from the two ends. */
  function PoseAt(offset: real, sin: real -> real, pi: real): (p: Pose)
    ensures p.x == 12.0 * NormalizedProgress(offset)
    ensures p.visible <==> 0.02 < NormalizedProgress(offset) < 0.98
  {
    var np := NormalizedProgress(offset);
    Pose(
      StartX + np * (EndX - StartX),
      StartY + sin(np * pi) * MaxHeight,
      np * pi * 3.0,
      0.8 + sin(np * pi) * 0.2,
      np > 0.02 && np < 0.98)
  }

  /** The ranges of every pose component. */
  lemma PoseBounds(offset: real, sin: real -> real, pi: real)
    requires SineLaws(sin, pi)
    ensures var p := PoseAt(offset, sin, pi);
            && 0.0 <= p.x <= 12.0 && p.x == 12.0 * NormalizedProgress(offset)
            && 0.5 <= p.y <= 3.0
            && 0.0 <= p.rotationZ <= 3.0 * pi
            && 0.8 <= p.scale <= 1.0
  {
    var np := NormalizedProgress(offset);
    MulNonNegative(np, pi);
    MulNonNegative(1.0 - np, pi);
    assert 0.0 <= np * pi <= pi;
    assert 0.0 <= sin(np * pi) <= 1.0;
  }

  /** Scrolling down never moves the ball back or unwinds its spin. */
  lemma PoseMonotone(o1: real, o2: real, sin: real -> real, pi: real)
    requires o1 <= o2 && pi > 0.0
    ensures PoseAt(o1, sin, pi).x <= PoseAt(o2, sin, pi).x
    ensures PoseAt(o1, sin, pi).rotationZ <= PoseAt(o2, sin, pi).rotationZ
  {
    var n1, n2 := NormalizedProgress(o1), NormalizedProgress(o2);
    NormalizedProgressMonotone(o1, o2);
    MulNonNegative(n2 - n1, pi * 3.0);
    assert n2 * pi * 3.0 - n1 * pi * 3.0 == (n2 - n1) * (pi * 3.0);
  }

  /** The arc is symmetric about the middle of the section: offsets the same
      distance before and after it give the same height and scale. */
  lemma ArcSymmetric(d: real, sin: real -> real, pi: real)
    requires SineLaws(sin, pi)
    ensures PoseAt(0.5 - d, sin, pi).y == PoseAt(0.5 + d, sin, pi).y
    ensures PoseAt(0.5 - d, sin, pi).scale == PoseAt(0.5 + d, sin, pi).scale
  {
    var n1, n2 := NormalizedProgress(0.5 - d), NormalizedProgress(0.5 + d);
    assert sin(n1 * pi) == sin(n2 * pi) by {
      if d > 0.15 {
        assert n1 == 0.0 && n2 == 1.0;
        assert n1 * pi == 0.0 && n2 * pi == pi;
      } else if d < -0.15 {
        assert n1 == 1.0 && n2 == 0.0;
        assert n1 * pi == pi && n2 * pi == 0.0;
      } else {
        assert n1 == (0.15 - d) / 0.3 && n2 == (0.15 + d) / 0.3;
        assert n1 + n2 == 1.0;
        assert n1 * pi + n2 * pi == (n1 + n2) * pi;
      }
    }
  }

  /** The ball shows exactly for offsets strictly between 0.356 and 0.644, so
      it is hidden on either side of the section. */
  lemma VisibilityWindow(offset: real, sin: real -> real, pi: real)
    ensures PoseAt(offset, sin, pi).visible <==> 0.356 < offset < 0.644
    ensures offset <= TankSectionStart || offset >= TankSectionEnd ==> !PoseAt(offset, sin, pi).visible
  {
  }

  /** The ball's group: `attached` says whether `ballRef.current` is set. */
  class BallGroup {
    var attached: bool
    var x: real
    var y: real
    var rotationZ: real
    var scale: real
    var visible: bool

    function CurrentPose(): Pose
      reads this
    {
      Pose(x, y, rotationZ, scale, visible)
    }

    /** The group as declared: x 0, y 0.5, unrotated, unit scale, shown. */
    constructor ()
      ensures !attached && CurrentPose() == Pose(0.0, 0.5, 0.0, 1.0, true)
    {
      attached := false;
      x, y, rotationZ, scale, visible := 0.0, 0.5, 0.0, 1.0, true;
    }

    method Attach()
      modifies this
      ensures attached && CurrentPose() == old(CurrentPose())
    {
      attached := true;
    }

    /** The `useFrame` callback: the whole pose is rewritten from the current
      offset alone, so whatever the frames before, the ball shows the pose of
      the last offset; without a group nothing changes. */
    method Frame(offset: real, sin: real -> real, pi: real)
      modifies this
      ensures attached == old(attached)
      ensures old(attached) ==> CurrentPose() == PoseAt(offset, sin, pi)
      ensures !old(attached) ==> CurrentPose() == old(CurrentPose())
    {
      if attached {
        var pose := PoseAt(offset, sin, pi);
        x, y := pose.x, pose.y;
        rotationZ := pose.rotationZ;
        scale := pose.scale;
        visible := pose.visible;
      }
    }
  }

  /** The poses shown for a run of frames, one per offset. */
  function Poses(offsets: seq<real>, sin: real -> real, pi: real): (ps: seq<Pose>)
    ensures |ps| == |offsets|
    ensures forall i :: 0 <= i < |offsets| ==> ps[i] == PoseAt(offsets[i], sin, pi)
  {
    if offsets == [] then [] else [PoseAt(offsets[0], sin, pi)] + Poses(offsets[1..], sin, pi)
  }

  function Reverse<T>(s: seq<T>): (r: seq<T>)
    ensures |r| == |s|
    ensures forall i :: 0 <= i < |s| ==> r[i] == s[|s| - 1 - i]
  {
    if s == [] then [] else Reverse(s[1..]) + [s[0]]
  }

  /** Scrubbing back over the same offsets retraces the same poses in reverse.
      This holds because `BallGroup.Frame` sets the whole pose from the
      current offset alone, so a run of frames shows `Poses` of its offsets. */
  lemma ScrubBackRetraces(offsets: seq<real>, sin: real -> real, pi: real)
    ensures Poses(Reverse(offsets), sin, pi) == Reverse(Poses(offsets, sin, pi))
  {
  }

  // ---------------------------------------------------------------------------
  // Textures and their fallbacks
  // ---------------------------------------------------------------------------

  /** The parts of the station that load a texture. */
  datatype Part = Tank | Ball | Floor

  /** A loaded texture: the image it came from and its sampling settings. */
  datatype Texture = Texture(url: string, wrapS: int, wrapT: int, repeatU: real, repeatV: real)

  /** `RepeatWrapping`. */
  const RepeatWrapping: int := 1000

  datatype Material =
    | Textured(texture: Texture, transparent: bool, doubleSided: bool)
    | Flat(color: string, transparent: bool, opacity: real)

  /** The bare paths each part asks the loader for. */
  function TexturePath(part: Part): (path: string)
    ensures |path| > 19 && path[..19] == "/textures/tanksinc-"
    ensures path[|path| - 4..] == ".png"
  {
    var name := match part
      case Tank => "tank"
      case Ball => "cannonball"
      case Floor => "floor";
    var path := "/textures/tanksinc-" + name + ".png";
    assert path[..19] == "/textures/tanksinc-" && path[|path| - 4..] == ".png";
    path
  }

  /** Each part loads its own image. */
  lemma TexturePathsDistinct(a: Part, b: Part)
    requires a != b
    ensures TexturePath(a) != TexturePath(b)
  {
  }

  function FallbackColor(part: Part): (c: string)
    ensures |c| == 7 && c[0] == '#'
    ensures forall i :: 1 <= i < 7 ==> c[i] in "0123456789abcdef"
  {
    match part
    case Tank => "#4ade80"
    case Ball => "#1a1a1a"
    case Floor => "#1a1f1a"
  }

  /** What the success callback stores: the floor first sets its texture to
      repeat four times in each direction; the others store it as loaded. */
  function Prepare(part: Part, loaded: Texture): (t: Texture)
    ensures t.url == loaded.url
    ensures part == Floor ==> t.wrapS == t.wrapT == RepeatWrapping && t.repeatU == t.repeatV == 4.0
    ensures part != Floor ==> t == loaded
  {
    if part == Floor then loaded.(wrapS := RepeatWrapping, wrapT := RepeatWrapping, repeatU := 4.0, repeatV := 4.0)
    else loaded
  }

  /** The front-face material each part renders with: the texture when there
      is one, the part's flat fallback colour otherwise. */
  function MaterialFor(part: Part, texture: Option<Texture>): (m: Material)
    ensures m.Flat? <==> texture == None
    ensures m.Flat? ==> m.color == FallbackColor(part)
    ensures m.Textured? ==> m.texture == texture.value
  {
    match texture
    case Some(t) =>
      if part == Floor then Textured(t, false, false) else Textured(t, true, true)
    case None => Flat(FallbackColor(part), part == Tank, if part == Tank then 0.8 else 1.0)
  }

  /** A completion of the load the part starts on mount. */
  datatype LoadEvent = Loaded(texture: Texture) | Failed

  /** The texture state after a series of completions, from `null`: a
      `TextureSlot` that starts empty and receives `OnLoad`/`OnError` for
      `events` in order holds `TextureAfter(part, events)`. */
  function TextureAfter(part: Part, events: seq<LoadEvent>): Option<Texture>
  {
    if events == [] then None
    else
      var last := events[|events| - 1];
      match last
      case Loaded(t) => Some(Prepare(part, t))
      case Failed => TextureAfter(part, events[..|events| - 1])
  }

  /** Only a success sets the texture: with no success among the events the
      state is still `null` and the part shows its fallback colour; after a
      success the state holds the latest prepared texture. */
  lemma {:induction false} OnlySuccessSetsTexture(part: Part, events: seq<LoadEvent>)
    ensures (forall i :: 0 <= i < |events| ==> events[i] == Failed) <==> TextureAfter(part, events) == None
    ensures TextureAfter(part, events) == None ==> MaterialFor(part, TextureAfter(part, events)) == Flat(FallbackColor(part), part == Tank, if part == Tank then 0.8 else 1.0)
  {
    if events != [] {
      var init := events[..|events| - 1];
      OnlySuccessSetsTexture(part, init);
      if events[|events| - 1] == Failed {
        assert forall i :: 0 <= i < |init| ==> init[i] == events[i];
      }
    }
  }

  /** The latest success wins: once a texture has loaded, later failures
      leave it in place. */
  lemma {:induction false} LatestSuccessWins(part: Part, events: seq<LoadEvent>, k: nat)
    requires k < |events| && events[k].Loaded?
    requires forall j :: k < j < |events| ==> events[j] == Failed
    ensures TextureAfter(part, events) == Some(Prepare(part, events[k].texture))
  {
    if k < |events| - 1 {
      var init := events[..|events| - 1];
      assert events[|events| - 1] == Failed;
      assert forall j :: k < j < |init| ==> init[j] == events[j];
      LatestSuccessWins(part, init, k);
    }
  }

  /** A part's texture state (`useState<Texture | null>(null)`). */
  class TextureSlot {
    const part: Part
    var texture: Option<Texture>

    constructor (part: Part)
      ensures this.part == part && texture == None
    {
      this.part := part;
      texture := None;
    }

    /** The success callback, which the loader calls with the image of the
      path this part requested. */
    method OnLoad(loaded: Texture)
      requires loaded.url == TexturePath(part)
      modifies this
      ensures texture == Some(Prepare(part, loaded))
      ensures texture.value.url == TexturePath(part)
    {
      texture := Some(Prepare(part, loaded));
    }

    /** The error callback: the fallback is chosen at render time, so the
      state is left as it is. */
    method OnError()
      ensures texture == old(texture)
    {
    }
  }
}
