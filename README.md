# Scroll-driven 3D portfolio: verified model of its arithmetic core

The site is a single page whose fixed WebGL canvas shows five decorative
"stations" (intro, Parley, Tanks Inc, Dini, about) along one travel axis; the
viewer moves through them by scrolling an overlaid HTML document. This project
models, over exact reals, the four pieces of real logic in that code:

- the **asset path resolver** (`lib/public-path.ts`), which prefixes an asset
  path with the deployment's base path (module `PublicPath`);
- the **scroll tracker and atmosphere** of the page host
  (`components/portfolio-3d.tsx`): scroll position normalised to [0,1], and the
  windowed, smoothstep-eased "tanks factor" that blends background colour, fog
  and light intensities (module `Portfolio3D`);
- the **scene composer** (`components/scene/scene.tsx`): the stations' fixed
  offsets and the group position pulled a tenth of the way toward its target
  every frame (module `Scene`);
- the **Tanks Inc station** (`components/scene/tanks-inc-station.tsx`): the
  cannonball's pose as a function of scroll offset, and the texture state of
  the tank, cannonball and floor with their flat-colour fallbacks (module
  `TanksIncStation`).

`Numeric` holds `Math.min`, `Math.max`, `Math.abs`, powers and small facts of
real arithmetic; `Wrappers` holds `Option`.

State that the source changes in place is a class: `Portfolio3D.ScrollTracker`
(the `scrollProgress` React state), `Scene.SceneGroup` (the root group's z
position), `TanksIncStation.BallGroup` (the cannonball group's transform) and
`TanksIncStation.TextureSlot` (a part's `Texture | null` state). A ref that is
not yet set (`groupRef.current`, `ballRef.current` null) is an `attached` flag.
Everything else is functions and lemmas.

Inputs from the environment are parameters: NEXT_PUBLIC_BASE_PATH is an
`Option<string>` (`None` when unset); `window.scrollY`,
`document.documentElement.scrollHeight` and `window.innerHeight` are reals;
`Math.sin` and `Math.PI` are a function `sin: real -> real` and a real `pi`.
The lemmas about the arc assume only `SineLaws(sin, pi)`: pi is positive, sine is 0 at 0 and at
pi, lies in [0,1] on [0,pi], and is equal at two points summing to pi.

The cannonball's rotation follows the code as written: `3·pi·np`, one and a
half turns over the section (components/scene/tanks-inc-station.tsx:112), not
three full turns.

## Model

| member | source | states |
|---|---|---|
| PublicPath.TrimTrailingSlash | lib/public-path.ts:1 | the result is a prefix of the input at most one character shorter; it is the input less one final `/` exactly when the input ends in `/`, and the input itself otherwise (so `"/app//"` gives `"/app/"`) |
| PublicPath.TrimUndoesAppendedSlash | lib/public-path.ts:1 | trimming is the inverse of appending one `/`, for every string |
| PublicPath.BasePath | lib/public-path.ts:4-6 | an unset or empty variable gives the empty prefix; a non-empty one gives its trimmed value |
| PublicPath.BaseEndsWithSlashOnlyAfterDoubleSlash | lib/public-path.ts:1-5 | the prefix still ends in `/` exactly when the variable ended in `//` |
| PublicPath.Separator | lib/public-path.ts:8 | the separator is empty exactly when the asset path starts with `/`, and `/` otherwise |
| PublicPath.GetPublicPath | lib/public-path.ts:3-9 | the result starts with the base prefix, ends with the asset path unchanged, is at most one character longer than the two together, and what follows the prefix always starts with `/`, even for an empty asset path |
| PublicPath.StripBaseGivesRooted | lib/public-path.ts:8 | removing the prefix gives the asset path back, with a `/` added exactly when it had none |
| PublicPath.ResolveInjective | lib/public-path.ts:8 | two asset paths resolve to the same URL exactly when they agree once made root-relative |
| PublicPath.NoBaseIsRooted | lib/public-path.ts:4-8 | without a base path the result is the root-relative asset path |
| PublicPath.ExampleNoBase | lib/public-path.ts:4-8 | `"/textures/x.png"` with no base resolves to itself |
| PublicPath.ExampleAppBase | lib/public-path.ts:1-8 | with base `"/app/"`, `"/textures/x.png"` resolves to `"/app/textures/x.png"` |
| PublicPath.ExampleTrimsOneSlashOnly | lib/public-path.ts:1 | only one trailing slash is removed |
| PublicPath.ExampleEmptyAsset | lib/public-path.ts:8 | an empty asset path resolves to the prefix followed by `/` |
| Numeric.Min | components/portfolio-3d.tsx:65 | `Math.min`: the result is one of the two arguments and at most both |
| Numeric.Max | components/portfolio-3d.tsx:65 | `Math.max`: the result is one of the two arguments and at least both |
| Numeric.Abs | components/scene/scene.tsx:33 | `Math.abs`: the result is non-negative and is the argument or its negation |
| Portfolio3D.ScrollProgress | components/portfolio-3d.tsx:62-66 | progress always lies in [0,1] and is 0 whenever the page cannot scroll |
| Portfolio3D.ProgressOnScrollableRange | components/portfolio-3d.tsx:63-65 | on a scrollable page progress is 0 at or above the top, 1 at or below the bottom, and the plain ratio in between |
| Portfolio3D.ProgressMonotone | components/portfolio-3d.tsx:63-65 | for a fixed page, progress never decreases as the scroll position grows |
| Portfolio3D.ScrollTracker.constructor | components/portfolio-3d.tsx:60 | the state starts at 0 |
| Portfolio3D.ScrollTracker.HandleScroll | components/portfolio-3d.tsx:62-66 | the state becomes the progress of the given readings and stays in [0,1] |
| Portfolio3D.RawTanksFactor | components/portfolio-3d.tsx:18-28 | the unsmoothed factor lies in [0,1] and is 0 at or outside the window edges 0.35 and 0.65 |
| Portfolio3D.RisingBranch | components/portfolio-3d.tsx:23 | the rising branch is 0 at 0.35, 1 at the midpoint and in [0,1] between them |
| Portfolio3D.FallingBranch | components/portfolio-3d.tsx:26 | the falling branch is 1 at the midpoint, 0 at 0.65 and in [0,1] between them |
| Portfolio3D.RawFactorIsTent | components/portfolio-3d.tsx:18-28 | the two-branch factor equals a tent of height 1 and half-width 0.15 centred on 0.5 |
| Portfolio3D.BranchesAgree | components/portfolio-3d.tsx:20-27 | the midpoint is 0.5, both branches give 1 there, the rising branch is 0 at 0.35 and the falling branch 0 at 0.65 |
| Portfolio3D.RawFactorSymmetric | components/portfolio-3d.tsx:19-28 | the raw factor takes equal values at 0.5−d and 0.5+d |
| Portfolio3D.RawFactorLipschitz | components/portfolio-3d.tsx:18-28 | the raw factor changes by at most 20/3 times the change in progress: no jump at the edges or the midpoint |
| Portfolio3D.RawFactorRisesThenFalls | components/portfolio-3d.tsx:19-28 | the raw factor never decreases up to 0.5 and never increases after it |
| Portfolio3D.SmoothstepBounds | components/portfolio-3d.tsx:31 | the ease maps [0,1] into [0,1], 0 to 0 and 1 to 1 |
| Portfolio3D.SmoothstepMonotoneLipschitz | components/portfolio-3d.tsx:31 | on [0,1] the ease never decreases and changes by at most 3/2 times the change in its argument |
| Portfolio3D.TanksFactor | components/portfolio-3d.tsx:18-31 | the eased factor lies in [0,1] and is 0 whenever progress is at most 0.35 or at least 0.65 |
| Portfolio3D.TanksFactorAtMidpoint | components/portfolio-3d.tsx:19-31 | the eased factor is exactly 1 at progress 0.5 |
| Portfolio3D.TanksFactorSymmetric | components/portfolio-3d.tsx:19-31 | the eased factor is symmetric about 0.5 |
| Portfolio3D.TanksFactorLipschitz | components/portfolio-3d.tsx:18-31 | the eased factor changes by at most 10 times the change in progress, so it is continuous across the whole range |
| Portfolio3D.TanksFactorRisesThenFalls | components/portfolio-3d.tsx:19-31 | the eased factor never decreases up to 0.5 and never increases after it |
| Portfolio3D.Smoothstep | components/portfolio-3d.tsx:31 | the ease; its range, end values, monotonicity and slope are stated by SmoothstepBounds and SmoothstepMonotoneLipschitz |
| Portfolio3D.Lerp | components/portfolio-3d.tsx:15 | the blend gives its first endpoint at factor 0 and its second at factor 1; LerpBetween and LerpLipschitz state the rest |
| Portfolio3D.LerpBetween | components/portfolio-3d.tsx:15 | for a factor in [0,1] a blend lies between its endpoints and meets them at 0 and 1 |
| Portfolio3D.LerpLipschitz | components/portfolio-3d.tsx:15 | a blend moves by the endpoint gap times the change of factor |
| Portfolio3D.Blend | components/portfolio-3d.tsx:35-53 | blending two atmospheres gives the first at factor 0 and the second at factor 1 |
| Portfolio3D.AtmosphereAt | components/portfolio-3d.tsx:35-53 | outside the tanks window the atmosphere is the base one; AtmosphereBounds and AtmosphereLipschitz state its ranges and continuity |
| Portfolio3D.AtmosphereBounds | components/portfolio-3d.tsx:35-53 | background RGB, fog near, fog far and both light intensities lie between their base and tanks values, equal the base values outside the window and the tanks values at 0.5, and fog near stays below fog far |
| Portfolio3D.AtmosphereLipschitz | components/portfolio-3d.tsx:15-53 | each atmosphere output changes by at most ten times its endpoint gap times the change in progress |
| Scene.StationLayout | components/scene/scene.tsx:13-19 | stations lie 25 apart, strictly deeper in travel order, all between intro and about |
| Scene.StationZ | components/scene/scene.tsx:13-19 | each station sits at −25 times its position in travel order, never in front of the origin |
| Scene.TotalDistance | components/scene/scene.tsx:33 | the travel distance is 100, the span from intro to about |
| Scene.TargetZ | components/scene/scene.tsx:33-34 | for progress in [0,1] the target lies in [0,100], and full progress reaches the about station |
| Scene.Step | components/scene/scene.tsx:37-38 | one frame scales the remaining distance to the target by 0.9; StepApproaches states what follows from it |
| Scene.StepApproaches | components/scene/scene.tsx:37-38 | one frame leaves `newZ − target = 0.9·(z − target)`; the new z lies between the old z and the target, strictly closer unless already there, where it stays |
| Scene.IterateError | components/scene/scene.tsx:37-38 | after n frames at a constant target the error is 0.9ⁿ times the first error |
| Scene.Iterate | components/scene/scene.tsx:37-38 | n frames at a constant target; IterateError, IterateDistance and Converges state its error, its side of the target and its convergence |
| Scene.IterateDistance | components/scene/scene.tsx:37-38 | after n frames the distance is 0.9ⁿ times the first distance, z never passes the target, and from a different start it never reaches it |
| Scene.DecayBound | components/scene/scene.tsx:38 | 0.9ⁿ·(9+n) ≤ 9 for every n |
| Scene.FramesWithin | components/scene/scene.tsx:37-38 | gives a frame count n with n·eps > 9·d |
| Scene.Converges | components/scene/scene.tsx:37-38 | from any start, after FramesWithin frames or more the position is within any chosen eps of the target |
| Scene.RunStaysInRange | components/scene/scene.tsx:34-38 | a position in [0,100] stays in [0,100] over any run of frames whose progress values lie in [0,1] |
| Scene.Run | components/scene/scene.tsx:28-38 | the position after a run of frames with changing progress, stepping toward each frame's target in turn; RunStaysInRange keeps it on the travel range |
| Scene.SceneGroup.constructor | components/scene/scene.tsx:26-42 | the ref starts unset with the group at the origin |
| Scene.SceneGroup.Attach | components/scene/scene.tsx:42 | setting the ref leaves the position unchanged |
| Scene.SceneGroup.Frame | components/scene/scene.tsx:28-39 | without a group nothing changes; with one, z takes one damping step toward the progress's target and stays on the travel range |
| TanksIncStation.NormalizedProgress | components/scene/tanks-inc-station.tsx:92-97 | the local progress lies in [0,1], is 0 at or before 0.35, 1 at or after 0.65, and the linear ratio in between |
| TanksIncStation.NormalizedProgressMonotone | components/scene/tanks-inc-station.tsx:95-97 | the local progress never decreases as the offset grows |
| TanksIncStation.PoseAt | components/scene/tanks-inc-station.tsx:95-119 | x is 12 times the local progress and the ball is shown exactly while the local progress is strictly between 0.02 and 0.98; PoseBounds, PoseMonotone, ArcSymmetric and VisibilityWindow state the rest |
| TanksIncStation.PoseBounds | components/scene/tanks-inc-station.tsx:100-116 | x is 12 times the local progress, in [0,12]; height in [0.5,3]; rotation in [0,3·pi]; scale in [0.8,1] |
| TanksIncStation.PoseMonotone | components/scene/tanks-inc-station.tsx:105-112 | x and rotation never decrease as the offset grows |
| TanksIncStation.ArcSymmetric | components/scene/tanks-inc-station.tsx:101-115 | offsets equally far before and after 0.5 give the same height and the same scale |
| TanksIncStation.VisibilityWindow | components/scene/tanks-inc-station.tsx:119 | the ball is shown exactly for offsets strictly between 0.356 and 0.644, so it is hidden at or outside the section edges |
| TanksIncStation.BallGroup.constructor | components/scene/tanks-inc-station.tsx:126 | the group starts at x 0, y 0.5, unrotated, unit scale and shown, with the ref unset |
| TanksIncStation.BallGroup.Attach | components/scene/tanks-inc-station.tsx:126 | setting the ref leaves the pose unchanged |
| TanksIncStation.BallGroup.Frame | components/scene/tanks-inc-station.tsx:89-121 | without a group nothing changes; with one, the pose becomes that of the current offset alone, whatever came before |
| TanksIncStation.Poses | components/scene/tanks-inc-station.tsx:89-121 | a run of frames shows, frame by frame, the pose of each offset |
| TanksIncStation.ScrubBackRetraces | components/scene/tanks-inc-station.tsx:89-121 | scrolling back over the same offsets shows the same poses in reverse order |
| TanksIncStation.Prepare | components/scene/tanks-inc-station.tsx:154-157 | the floor's texture is set to repeat-wrap four times each way before it is stored; the others are stored as loaded |
| TanksIncStation.TexturePath | components/scene/tanks-inc-station.tsx:20-153 | each part asks for a `.png` under `/textures/tanksinc-` |
| TanksIncStation.TexturePathsDistinct | components/scene/tanks-inc-station.tsx:20-153 | no two parts ask the loader for the same path |
| TanksIncStation.FallbackColor | components/scene/tanks-inc-station.tsx:47-172 | each fallback colour is a seven-character `#rrggbb` string of lower-case hex digits |
| TanksIncStation.TextureAfter | components/scene/tanks-inc-station.tsx:15-28 | the texture state after a sequence of loader callbacks; OnlySuccessSetsTexture and LatestSuccessWins state what it holds |
| TanksIncStation.MaterialFor | components/scene/tanks-inc-station.tsx:44-173 | a part renders its texture exactly when it has one, and otherwise its fallback colour: `#4ade80` for the tank, `#1a1a1a` for the ball, `#1a1f1a` for the floor |
| TanksIncStation.OnlySuccessSetsTexture | components/scene/tanks-inc-station.tsx:15-28 | the texture state stays null exactly when no load succeeded, and while null the part shows its flat fallback |
| TanksIncStation.LatestSuccessWins | components/scene/tanks-inc-station.tsx:15-28 | after a success followed only by failures the state holds that success's prepared texture |
| TanksIncStation.TextureSlot.constructor | components/scene/tanks-inc-station.tsx:15 | the texture state starts null |
| TanksIncStation.TextureSlot.OnLoad | components/scene/tanks-inc-station.tsx:21-23 | the success callback, given the image of the path the part requested, stores the prepared texture, which keeps that path |
| TanksIncStation.TextureSlot.OnError | components/scene/tanks-inc-station.tsx:25-27 | the error callback leaves the state as it was |

## Left out

- Listener registration and removal, the `isClient` gate and the canvas setup
  (components/portfolio-3d.tsx:68-106): browser and React plumbing; the eager
  first call of the scroll handler is `HandleScroll` called once.
- The fog colour string built with `Math.round(x*255)`
  (components/portfolio-3d.tsx:46): rounding of floating-point values is not
  modelled; the model works on exact reals.
- IEEE floating point everywhere: all arithmetic is exact, and `Math.sin` and
  `Math.PI` are parameters constrained only by `SineLaws`.
- Frame-rate dependence of the 0.1 damping: the code has no time step, so the
  model has discrete frames only.
- The idle animations driven by the wall clock (the tank's sway,
  components/scene/tanks-inc-station.tsx:31-35, the title bar, and the other
  stations): closed-form sines of elapsed time with nothing to state.
- The other stations, the HTML overlay and the page route: static geometry and
  markup.
- TextureLoader's asynchronous loading: only its two callbacks are modelled,
  as transitions of the texture state; discarding a completion after unmount
  is React's behaviour and is not modelled. The tanks textures use bare paths
  that do not go through the path resolver, so they are not resolved here.
- Static materials and geometry of the station (back faces, side edges, the
  light) are not modelled.
