# oscae-raytracer, modelled in Dafny

A model of the core of a small Rust ray tracer. The program draws a scene of
three spheres and a ground plane. It lights the scene with one point light and
one directional light. A render scheduler fills a 720 x 720 colour grid in raster
order, a fixed number of cells per display tick. Each cell is coloured by casting
one primary ray and shading the nearest hit, with shadow rays toward the lights.
Between ticks a simple bounce physics moves the first sphere, and the space key
makes it jump.

The model has one module per component of `src/main.rs`:

- `Vectors` (vectors.dfy): `Vector3` over exact reals, dot product, and
  normalisation. Also `Options`, the optional values.
- `Colors` (colors.dfy): 8-bit RGBA colours and `darken`.
- `Geometry` (geometry.dfy): the `Object` trait as a closed datatype
  `Sphere | Plane`. It covers intersection, normal, colour (the `color` field)
  and `set_position`.
- `Tracer` (tracer.dfy): `raytracer`. `Raytrace` is the imperative version: its
  loops, its `break`s and `min_t` starting at infinity. It is proved equal to
  `Shade`, a reference definition built from `Nearest` (first strict minimum),
  the occlusion predicates and the intensity sums.
- `Camera` (camera.dfy): `ray_from_pixel`.
- `Scheduler` (scheduler.dfy): the render loop of `main`. `Renderer` holds the
  grid as an `array2<Color>` indexed `[y, x]` and the cursor `draw_process`.
  `Tick` runs one display tick in place. The pixel function is a parameter.
- `Physics` (physics.dfy): the position/velocity update and the jump. `Body`
  keeps the state in place, and `Step`/`Jumped` specify it.
- `MainLoop` (mainloop.dfy): one iteration of `main`'s loop. It runs the
  physics, moves object 0, handles the jump, then runs one render tick that
  shades each pixel with `Shade` on `RayFromPixel`.

What is abstracted:

- `f32` arithmetic becomes exact `real` arithmetic.
- The square root is an abstract parameter `sqrt: real -> real`. It is used by
  the sphere test, `length` and `normalize`. No property depends on its values,
  except `SphereRootsOrdered` and `SphereHitNearest`, which require the root
  to be non-negative.
- The frame time and the "space pressed" signal are parameters of
  `App.Frame`.

Edge cases the model makes explicit:

- `darken` truncates toward zero (`as u8`), so a channel of 255 at the ambient
  floor 0.1 gives 25.5, stored as 25 (`DarkenRedAtAmbientFloor`).
- A tick whose budget is larger than the frame does not end with the cursor at
  `width * height`. After writing the last cell, the next iteration resets the
  cursor to 0 (`NextCursor`). Of the budgets that reach the end of the frame in
  one tick, only one exactly equal to the frame, as in the program
  (`720 * 720`), leaves the cursor at the end; the tick after that writes
  nothing and only resets (`FullFrameBudget`). In general the cursor rests at
  the end for one tick exactly when the budget divides the frame size
  (`NextCursor`, `ScanReturnsToStart`).
- For a zero direction, the sphere test misses. Its roots are `0/0`, and the
  comparisons with zero fail for them.

Sphere radii are positive (`Radius`), because the normal divides by the radius.
The normalisation of a zero vector returns it unchanged. The shading engine
normalises `light - hit point` and `-directional_light`; the first is zero only
when the hit point (the origin on a miss) coincides with a point light, the
second only for a zero directional light. Neither happens in the fixed scene
(`DefaultSceneLightsNonZero`).

## Model

| member | source | states |
|---|---|---|
| `Colors.ScaleChannel` | src/main.rs:176-178 | a product of 255 or more gives 255, of 0 or less gives 0, otherwise the integer part of the product |
| `Colors.Darken` | src/main.rs:174-181 | each of r, g, b is its scaled, clamped, truncated channel; alpha is unchanged |
| `Colors.ScaleChannelMonotone` | src/main.rs:176-178 | a larger non-negative factor never gives a smaller channel |
| `Colors.ScaleChannelNeverBrightens` | src/main.rs:176-178 | a factor in [0, 1] never raises a channel |
| `Colors.DarkenIdentity` | src/main.rs:174-181 | factor 1 returns the colour unchanged |
| `Colors.DarkenBlack` | src/main.rs:174-181 | black stays black for every factor |
| `Colors.DarkenTenthOfGrey` | src/main.rs:174-181 | factor 0.1 on (100,100,100,255) gives (10,10,10,255) |
| `Colors.DarkenRedAtAmbientFloor` | src/main.rs:174-181 | factor 0.1 on (255,0,0,255) gives (25,0,0,255): truncation, not rounding |
| `Vectors.Normalize` | src/main.rs:135-136 | a zero-length vector is returned unchanged; otherwise the result scaled by the length is the vector |
| `Geometry.ChooseRoot` | src/main.rs:218-224 | none exactly when both roots are negative; otherwise a non-negative one of the two roots, the smaller non-negative one when `t1 <= t2` |
| `Geometry.SphereIntersection` | src/main.rs:203-229 | a negative discriminant, or a zero direction, misses; otherwise the ray hits exactly when one of the two roots `(-b ∓ s) / 2a` is non-negative; a hit has `t >= 0` and the point `origin + direction * t` |
| `Geometry.SphereRootsOrdered` | src/main.rs:214-216 | with a non-negative square root, `t1 <= t2` |
| `Geometry.SphereHitFirstRoot` | src/main.rs:215-224 | a hit is at `t1` whenever `t1 >= 0`, and otherwise at `t2` |
| `Geometry.SphereHitNearest` | src/main.rs:214-224 | with a non-negative square root, the sphere test misses iff `t2 < 0`, and a hit is the smallest non-negative root |
| `Geometry.PlaneIntersection` | src/main.rs:251-261 | a ray within 1e-6 of parallel misses; any other ray hits exactly when its crossing parameter `t` is non-negative, at that `t`; the hit point is on the ray and on the plane |
| `Geometry.PlaneHitOnPlane` | src/main.rs:254-256 | the crossing parameter puts the point on the plane |
| `Geometry.Intersect` | src/main.rs:190 | for either primitive, a hit is at a non-negative `t` on the ray |
| `Geometry.NormalAt` | src/main.rs:235-269 | sphere: centre plus radius times the normal is the point; plane: the fixed normal, whatever the point |
| `Geometry.SetPosition` | src/main.rs:239-273 | the position becomes the new one; kind, colour, radius and normal are kept |
| `Tracer.SetObjectPosition` | src/main.rs:68 | object `i` is repositioned; every other object and the lights are unchanged |
| `Tracer.Hits` | src/main.rs:120-121 | one intersection per object, in scene order |
| `Tracer.Nearest` | src/main.rs:115-129 | none iff no object hits; otherwise a hit whose `t` is minimal, strictly smaller than that of every earlier hit (first wins ties) |
| `Tracer.NearerOfTwoWins` | src/main.rs:120-129 | of two objects hit at `t1 < t2`, the farther one is never chosen |
| `Tracer.SurfaceOf` | src/main.rs:115-127 | no hit gives black with zero point and normal; a hit gives that object's colour, hit point and normal there |
| `Tracer.Lambert` | src/main.rs:149 | `max(0, dot)`: non-negative, equal to the dot product when that is non-negative, else 0 |
| `Tracer.PointTerm` | src/main.rs:135-150 | one point light adds nothing when the shadow ray, started 0.001 along the normalised light direction, hits something nearer than the light; otherwise its Lambert term; never negative |
| `Tracer.DirectionalTerm` | src/main.rs:154-167 | the directional light, shining along its negation, adds nothing when the offset shadow ray hits anything; otherwise its Lambert term; never negative |
| `Tracer.LightFactor` | src/main.rs:169 | the factor passed to `darken` equals `max(intensity, 0.1)`: exactly 0.1 at or below the floor, the intensity from 0.1 up |
| `Tracer.Shade` | src/main.rs:114-172 | the reference shading: each of r, g, b is the nearest surface's channel scaled by a light factor of at least 0.1, alpha kept |
| `Tracer.PointIntensityNonNegative` | src/main.rs:132-151 | the sum over point lights is non-negative |
| `Tracer.PointIntensityMonotone` | src/main.rs:134-151 | the running intensity never decreases as lights are added |
| `Tracer.IntensityNonNegative` | src/main.rs:132-167 | point and directional contributions together are non-negative |
| `Tracer.ZeroNormalNoLight` | src/main.rs:134-151 | with the zero normal of the no-hit path, no point light adds anything |
| `Tracer.MissIsBlack` | src/main.rs:114-172 | a primary ray that hits nothing shades to black |
| `Tracer.NearestSurface` | src/main.rs:115-129 | the nearest-hit loop ends with the colour, point and normal of the first primitive at the smallest `t` (`Nearest`), or black and the origin with a zero normal when nothing is hit |
| `Tracer.PointLights` | src/main.rs:132-151 | the point-light loop accumulates exactly `PointIntensity`: the Lambert terms of the unshadowed lights |
| `Tracer.PointShadow` | src/main.rs:139-147 | in shadow iff some object hits the shadow ray at `t` less than the distance to the light |
| `Tracer.DirectionalShadow` | src/main.rs:158-164 | in shadow iff some object hits the shadow ray at all |
| `Tracer.Raytrace` | src/main.rs:114-172 | the imperative loops compute exactly `Shade`: darken(nearest colour or black, max(point-light sum + directional term, 0.1)) |
| `Camera.ViewVector` | src/main.rs:103-107 | the vector through the centre of pixel `(x, y)`: `x - width/2 + 0.5`, `height/2 - y - 0.5` with integer halves, depth `width / 2` (characterised by the three lemmas below) |
| `Camera.RayFromPixel` | src/main.rs:103-112 | the primary direction is the pixel's view vector divided by its length (unchanged when that length is zero) |
| `Camera.FieldOfView90` | src/main.rs:104-107 | for an even width, columns are one unit apart at depth `width / 2`, and the outer edges lie at `-depth` and `+depth`: a 90 degree field of view |
| `Camera.ViewVectorForward` | src/main.rs:105-109 | for a positive width the view vector has positive depth, so it is never normalised from zero |
| `Camera.ColumnsSymmetric` | src/main.rs:105 | for an even width, columns `x` and `width-1-x` have opposite horizontal offsets |
| `Camera.RowsSymmetric` | src/main.rs:106 | for an even height, rows mirror about the centre, and row 0 is above it |
| `Scheduler.RasterDecompose` | src/main.rs:82-83 | the cell `(x, y)` of offset `y*width + x` is recovered as `(p % width, p / width)` |
| `Scheduler.RasterInjective` | src/main.rs:82-86 | distinct cells have distinct raster offsets |
| `Scheduler.RasterCell` | src/main.rs:82-83 | for `0 <= p < width*height`: `p % width < width`, `p / width < height`, and they recompose to `p` |
| `Scheduler.RasterInFrame` | src/main.rs:86 | every cell of the grid has an offset below `width*height` |
| `Scheduler.TickCount` | src/main.rs:75-89 | a tick writes at most `draw_batch` cells, never past the frame, and fewer only when it reaches the end |
| `Scheduler.NextCursor` | src/main.rs:75-89 | the cursor stays in `[0, width*height]`; it advances by the budget if that fits, else it is reset to 0 |
| `Scheduler.Renderer.constructor` | src/main.rs:15-17 | a black `height x width` grid with the cursor at 0 |
| `Scheduler.Renderer.Tick` | src/main.rs:75-89 | writes exactly the cells at offsets `[cursor, cursor + count)`, each once, with `pixel(x, y)`; leaves every other cell; sets the cursor to `NextCursor` |
| `Scheduler.Renderer.PaintNext` | src/main.rs:82-86 | a non-resetting iteration writes the cell at the cursor and no other |
| `Scheduler.CursorAfter` | src/main.rs:75-89 | the cursor after `k` ticks from 0 stays within the frame |
| `Scheduler.CursorAfterWithinFrame` | src/main.rs:75-89 | while `k * batch <= n`, the cursor after `k` ticks is `k * batch` |
| `Scheduler.CellWrittenInScan` | src/main.rs:75-89 | with a positive budget, every cell is written by tick `p / batch` of a scan from 0 |
| `Scheduler.ScanReturnsToStart` | src/main.rs:76-79 | the cursor first returns to 0 after exactly `n / batch + 1` ticks |
| `Scheduler.FullFrameBudget` | src/main.rs:17-18 | with budget = frame size, a tick from 0 writes every cell and stops at the end; the next writes nothing and resets; the cursor alternates |
| `Scheduler.FullFrameAlternates` | src/main.rs:17-18 | with budget = frame size, the cursor after `k` ticks is 0 for even `k` and the frame size for odd `k` |
| `Physics.Step` | src/main.rs:56-66 | after an update the body is never below ground; x and z move by velocity times dt; horizontal velocity is unchanged |
| `Physics.Jumped` | src/main.rs:72 | the jump sets the vertical speed to 5 and changes nothing else |
| `Physics.BelowGroundBounces` | src/main.rs:57-63 | below ground: lands at y = 0 with vertical speed `-0.8 vy`, or 0 when that is slower than 1; the speed never grows |
| `Physics.AboveGroundFalls` | src/main.rs:64-65 | above ground: free motion, and gravity lowers the vertical speed by `2 dt` |
| `Physics.OnGroundCoasts` | src/main.rs:56-66 | landing exactly on the ground: no bounce, no gravity, the velocity is kept even when it points down |
| `Physics.RestIsFixedPoint` | src/main.rs:56-66 | on the ground with no vertical speed, the body stays there with no vertical speed whatever vx and vz; with no velocity at all it is a fixed point |
| `Physics.VerticalPreserved` | src/main.rs:56-72 | update and jump keep horizontal velocity zero and x, z fixed |
| `Physics.RunStaysVertical` | src/main.rs:53-73 | over any number of frames, vertical motion stays vertical and the body is never below ground |
| `Physics.RestPersists` | src/main.rs:53-66 | without jumps, a body at rest stays at rest for every frame |
| `Physics.Body.constructor` | src/main.rs:50-51 | the body starts from the given position and velocity |
| `Physics.Body.Update` | src/main.rs:56-66 | the in-place update produces exactly `Step` of the old state |
| `Physics.Body.Jump` | src/main.rs:70-73 | the in-place jump produces exactly `Jumped` of the old state |
| `MainLoop.DefaultSceneLightsNonZero` | src/main.rs:20-48 | the fixed scene has four primitives with the sphere at (0, 0, 5) first, and the light vectors normalised on a miss are never zero |
| `MainLoop.PixelColor` | src/main.rs:86 | a pixel's colour is `Shade` of its primary ray from the origin in the current scene |
| `MainLoop.App.constructor` | src/main.rs:15-51 | the fixed scene, a black 720 x 720 grid, cursor 0, body at (0, 0, 5) at rest |
| `MainLoop.App.Frame` | src/main.rs:53-89 | physics, then object 0 moved to the new position, then the jump, then one tick whose cells are shaded in the moved scene |

## Left out

- Non-positive sphere radii are not modelled (`Radius` is `> 0`). The source
  accepts any `f32` radius; a negative one would flip the normal. Every radius
  of the fixed scene (1, 10, 3) is positive.
- Window creation, input polling, frame timing and drawing the grid to the
  screen (src/main.rs:9-13, 53, 70, 92-99): these are raylib I/O. The frame time
  and the jump key are parameters of `App.Frame`. The drawing only reads the
  grid.
- IEEE-754 effects: rounding, infinities and NaN. `f32` is modelled as exact
  reals, and `sqrt` is an abstract parameter. No claim is made about the float
  program's metric accuracy, and metric facts about the sphere test (such as
  "the hit point lies on the sphere") are not stated.
- `Vectors.Normalize`: the raylib-rs `normalize` routine is not part of this
  model. The zero-vector guard is the defensive choice described above.
- `Camera.RayFromPixel`: only its integer-to-view-vector arithmetic is
  characterised (forward, symmetric). The normalised direction is abstract
  through `sqrt`.
- Trait-object dispatch through `Box<dyn Object>` is replaced by the closed
  datatype `Object`.
- 32-bit integer wrap-around of `draw_process`, `width * height`, and pixel
  coordinates: none is reachable at 720 x 720 (518400 cells). The model uses
  unbounded integers.
- Whether the bounce always comes to rest, and a bound of 5 on the speed
  without a jump, are not stated: they depend on the frame times, which are
  arbitrary inputs here.
