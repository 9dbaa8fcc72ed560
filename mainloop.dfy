/**
 * The per-frame main loop: the physics update, the animated primitive moved
 * to the new position, the jump key, then one render tick with the shading
 * engine as the pixel function. Window creation, input polling, timing and
 * drawing the grid to the screen are outside the model: the frame time and
 * the jump key arrive as parameters.
 */
module MainLoop {
  import opened Vectors
  import opened Colors
  import opened Geometry
  import opened Tracer
  import opened Camera
  import opened Scheduler
  import opened Physics

  const WIDTH: nat := 720
  const HEIGHT: nat := 720
  /** The per-tick budget: one full frame. */
  const DRAW_BATCH: nat := 720 * 720

  /** The fixed scene: three spheres and a ground plane, one point light, one directional light. */
  const DefaultScene: Scene := Scene(
    [ Sphere(Vector3(0.0, 0.0, 5.0), 1.0, RED),
      Sphere(Vector3(3.0, -1.0, 20.0), 10.0, BLUE),
      Sphere(Vector3(-4.0, 4.0, 10.0), 3.0, Color(0xE8, 0x3D, 0x84, 0xFF)),
      Plane(Vector3(0.0, -1.0, 0.0), Vector3(0.0, 1.0, 0.0), GREEN) ],
    [ Vector3(-2.0, 0.0, 5.0) ],
    Vector3(-2.0, -2.0, 1.0))

  /**
   * In the fixed scene the vectors the shading engine normalises on a miss,
   * where the hit point is the origin, are never zero: the point light is
   * away from the origin and the directional light is not zero.
   */
  lemma DefaultSceneLightsNonZero()
    ensures forall i :: 0 <= i < |DefaultScene.pointLights| ==>
              Sub(DefaultScene.pointLights[i], Zero) != Zero
    ensures Neg(DefaultScene.directionalLight) != Zero
    ensures |DefaultScene.objects| == 4 && DefaultScene.objects[0].Sphere?
    ensures DefaultScene.objects[0].center == Vector3(0.0, 0.0, 5.0)
  {
  }

  /** The colour of pixel `(x, y)`: the shading engine on the pixel's primary ray from the origin. */
  function PixelColor(scene: Scene, sqrt: real -> real, x: nat, y: nat): Color {
    Shade(scene, Zero, RayFromPixel(x, y, WIDTH, HEIGHT, sqrt), sqrt)
  }

  class App {
    /** The square root the vector maths uses, left abstract. */
    const sqrt: real -> real
    var scene: Scene
    const body: Body
    const renderer: Renderer

    ghost predicate Valid()
      reads this, renderer
    {
      renderer.Valid() && renderer.width == WIDTH && renderer.height == HEIGHT &&
      renderer.batch == DRAW_BATCH && |scene.objects| > 0
    }

    /** The start-up state: black grid, cursor 0, the first sphere's centre, no velocity. */
    constructor (sqrt: real -> real)
      ensures Valid() && fresh(body) && fresh(renderer) && fresh(renderer.grid)
      ensures this.sqrt == sqrt && scene == DefaultScene
      ensures body.State() == Motion(Vector3(0.0, 0.0, 5.0), Zero)
      ensures renderer.cursor == 0
      ensures forall y, x :: 0 <= y < HEIGHT && 0 <= x < WIDTH ==> renderer.grid[y, x] == BLACK
    {
      this.sqrt := sqrt;
      scene := DefaultScene;
      body := new Body(Vector3(0.0, 0.0, 5.0), Zero);
      renderer := new Renderer(WIDTH, HEIGHT, DRAW_BATCH);
    }

    /**
     * One frame. The render tick sees the scene with the primitive already
     * moved; the jump only changes the velocity, so it shows from the next
     * frame on.
     */
    method Frame(dt: real, jump: bool) returns (ghost written: seq<nat>)
      requires Valid()
      modifies this, body, renderer, renderer.grid
      ensures Valid()
      ensures var moved := Step(old(body.State()), dt);
              body.State() == (if jump then Jumped(moved) else moved) &&
              scene == SetObjectPosition(old(scene), 0, moved.position)
      ensures |written| == TickCount(old(renderer.cursor), DRAW_BATCH, WIDTH * HEIGHT)
      ensures renderer.cursor == NextCursor(old(renderer.cursor), DRAW_BATCH, WIDTH * HEIGHT)
      ensures forall y, x :: 0 <= y < HEIGHT && 0 <= x < WIDTH ==>
                renderer.grid[y, x] ==
                  if old(renderer.cursor) <= RasterIndex(x, y, WIDTH) < old(renderer.cursor) + |written|
                  then PixelColor(scene, sqrt, x, y) else old(renderer.grid[y, x])
    {
      body.Update(dt);
      scene := SetObjectPosition(scene, 0, body.position);
      if jump {
        body.Jump();
      }
      var s, root := scene, sqrt;
      written := renderer.Tick((x: nat, y: nat) => PixelColor(s, root, x, y));
    }
  }
}
