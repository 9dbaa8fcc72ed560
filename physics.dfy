/**
 * The animation of the first primitive: explicit Euler integration of a
 * position and a velocity, with a damped bounce on the ground plane y = 0,
 * gravity above it, and a jump that sets the vertical speed.
 */
module Physics {
  import opened Vectors

  /** Downward acceleration applied while above the ground. */
  const GRAVITY: real := 2.0
  /** Fraction of the vertical speed kept, reversed, by a bounce. */
  const DAMPING: real := 0.8
  /** A bounce slower than this comes to rest. */
  const REST_SPEED: real := 1.0
  /** The vertical speed a jump sets. */
  const JUMP_SPEED: real := 5.0

  datatype Motion = Motion(position: Vector3, velocity: Vector3)

  /**
   * One physics update over the time step `dt`: move by `velocity * dt`; then
   * below ground clamp to the ground and bounce, coming to rest when the
   * bounce is slower than `REST_SPEED`; above ground apply gravity; exactly on
   * the ground leave the velocity alone.
   */
  function Step(m: Motion, dt: real): (r: Motion)
    ensures r.position.y >= 0.0
    ensures r.position.x == m.position.x + m.velocity.x * dt
    ensures r.position.z == m.position.z + m.velocity.z * dt
    ensures r.velocity.x == m.velocity.x && r.velocity.z == m.velocity.z
  {
    var p := Add(m.position, Scale(m.velocity, dt));
    var v := m.velocity;
    if p.y < 0.0 then
      var bounced := -v.y * DAMPING;
      if Abs(bounced) < REST_SPEED then Motion(p.(y := 0.0), v.(y := 0.0))
      else Motion(p.(y := 0.0), v.(y := bounced))
    else if p.y > 0.0 then
      Motion(p, Sub(v, Scale(Vector3(0.0, GRAVITY, 0.0), dt)))
    else Motion(p, v)
  }

  /** The jump: only the vertical speed changes, to `JUMP_SPEED`. */
  function Jumped(m: Motion): (r: Motion)
    ensures r.position == m.position
    ensures r.velocity.y == JUMP_SPEED
    ensures r.velocity.x == m.velocity.x && r.velocity.z == m.velocity.z
  {
    m.(velocity := m.velocity.(y := JUMP_SPEED))
  }

  /** The height reached by integration alone, before the ground rule. */
  function Projected(m: Motion, dt: real): real {
    m.position.y + m.velocity.y * dt
  }

  /**
   * Below ground: the body lands on the ground, and its vertical speed is the
   * damped reversed speed, or zero when that is slower than `REST_SPEED`; a
   * bounce never speeds the body up.
   */
  lemma BelowGroundBounces(m: Motion, dt: real)
    requires Projected(m, dt) < 0.0
    ensures Step(m, dt).position.y == 0.0
    ensures Step(m, dt).velocity.y ==
              if Abs(-m.velocity.y * DAMPING) < REST_SPEED then 0.0 else -m.velocity.y * DAMPING
    ensures Abs(Step(m, dt).velocity.y) <= DAMPING * Abs(m.velocity.y)
  {
  }

  /** Above ground: the body moves freely and gravity lowers its vertical speed. */
  lemma AboveGroundFalls(m: Motion, dt: real)
    requires Projected(m, dt) > 0.0
    ensures Step(m, dt).position.y == Projected(m, dt)
    ensures Step(m, dt).velocity.y == m.velocity.y - GRAVITY * dt
  {
  }

  /**
   * Exactly on the ground after integration: no bounce and no gravity, the
   * velocity is kept even when it points down.
   */
  lemma OnGroundCoasts(m: Motion, dt: real)
    requires Projected(m, dt) == 0.0
    ensures Step(m, dt) == Motion(Add(m.position, Scale(m.velocity, dt)), m.velocity)
  {
  }

  /**
   * On the ground without vertical speed the body stays on the ground without
   * vertical speed, whatever its horizontal motion; without any speed it is a
   * fixed point of the update.
   */
  lemma RestIsFixedPoint(m: Motion, dt: real)
    requires m.position.y == 0.0 && m.velocity.y == 0.0
    ensures Step(m, dt).position.y == 0.0 && Step(m, dt).velocity.y == 0.0
    ensures m.velocity == Zero ==> Step(m, dt) == m
  {
  }

  /** Motion that is purely vertical. */
  predicate Vertical(m: Motion) {
    m.velocity.x == 0.0 && m.velocity.z == 0.0
  }

  /**
   * The update and the jump keep motion vertical, so the body never leaves
   * its starting x and z.
   */
  lemma VerticalPreserved(m: Motion, dt: real, jump: bool)
    requires Vertical(m)
    ensures var r := Step(m, dt);
            var r' := if jump then Jumped(r) else r;
            Vertical(r') && r'.position.x == m.position.x && r'.position.z == m.position.z
  {
  }

  /** One frame of input: the frame time and whether the jump key was pressed. */
  datatype Input = Input(dt: real, jump: bool)

  /** The motion after a sequence of frames, each an update then an optional jump. */
  function Run(m: Motion, frames: seq<Input>): Motion {
    if |frames| == 0 then m
    else
      var f := frames[|frames| - 1];
      var r := Step(Run(m, frames[..|frames| - 1]), f.dt);
      if f.jump then Jumped(r) else r
  }

  /**
   * However many frames pass, vertical motion stays vertical, the body keeps
   * its x and z, and after at least one frame it is never below the ground.
   */
  lemma {:induction false} RunStaysVertical(m: Motion, frames: seq<Input>)
    requires Vertical(m)
    ensures Vertical(Run(m, frames))
    ensures Run(m, frames).position.x == m.position.x && Run(m, frames).position.z == m.position.z
    ensures |frames| > 0 ==> Run(m, frames).position.y >= 0.0
  {
    if |frames| > 0 {
      RunStaysVertical(m, frames[..|frames| - 1]);
      VerticalPreserved(Run(m, frames[..|frames| - 1]), frames[|frames| - 1].dt, frames[|frames| - 1].jump);
    }
  }

  /** Without jumps, a body at rest on the ground stays at rest for every frame. */
  lemma {:induction false} RestPersists(m: Motion, frames: seq<Input>)
    requires m.position.y == 0.0 && m.velocity == Zero
    requires forall i :: 0 <= i < |frames| ==> !frames[i].jump
    ensures Run(m, frames) == m
  {
    if |frames| > 0 {
      RestPersists(m, frames[..|frames| - 1]);
      RestIsFixedPoint(m, frames[|frames| - 1].dt);
    }
  }

  /**
   * The player-controlled body as the main loop keeps it: a position and a
   * velocity updated in place once per frame.
   */
  class Body {
    var position: Vector3
    var velocity: Vector3

    constructor (position: Vector3, velocity: Vector3)
      ensures this.position == position && this.velocity == velocity
    {
      this.position := position;
      this.velocity := velocity;
    }

    function State(): Motion
      reads this
    {
      Motion(position, velocity)
    }

    /** One physics update, in place. */
    method Update(dt: real)
      modifies this
      ensures State() == Step(old(State()), dt)
    {
      position := Add(position, Scale(velocity, dt));
      if position.y < 0.0 {
        position := position.(y := 0.0);
        velocity := velocity.(y := -velocity.y * DAMPING);
        if Abs(velocity.y) < REST_SPEED {
          velocity := velocity.(y := 0.0);
          position := position.(y := 0.0);
        }
      } else if position.y > 0.0 {
        velocity := Sub(velocity, Scale(Vector3(0.0, GRAVITY, 0.0), dt));
      }
    }

    /** The jump, in place. */
    method Jump()
      modifies this
      ensures State() == Jumped(old(State()))
    {
      velocity := velocity.(y := JUMP_SPEED);
    }
  }
}
