/** One brick of the chimney: a point-like rigid body with a cosmetic
    rotation, integrated by one explicit Euler step per frame once it has
    left the standing structure, and kicked outwards by an explosion.

    `BrickState` is the value of a brick; the functions and predicates on it
    specify the class `Brick`, whose methods update its fields in place.
 */
module Bricks {
  import opened Settings

  datatype BrickState = BrickState(
    x: real,
    y: real,
    index: int,
    width: real,
    height: real,
    vx: real,
    vy: real,
    angle: real,
    angularVelocity: real,
    active: bool,
    connected: bool)

  /** A brick as the constructor makes it: at rest, upright, part of the structure. */
  function Fresh(x: real, y: real, index: int): BrickState
  {
    BrickState(x, y, index, BrickWidth, BrickHeight, 0.0, 0.0, 0.0, 0.0, true, true)
  }

  // ---------------------------------------------------------------------
  // The per-frame step
  // ---------------------------------------------------------------------

  /** Rotation and Euler integration: velocity first, then position. */
  function Advance(s: BrickState, cfg: Config): BrickState
  {
    var vy := s.vy + cfg.gravity;
    s.(angle := s.angle + s.angularVelocity,
       angularVelocity := s.angularVelocity * SpinDecay,
       vy := vy,
       x := s.x + s.vx,
       y := s.y + vy)
  }

  predicate TouchesWall(s: BrickState, canvas: Canvas)
  {
    s.x <= 0.0 || s.x + s.width >= canvas.width
  }

  predicate TouchesFloor(s: BrickState, canvas: Canvas)
  {
    s.y + s.height >= canvas.height
  }

  /** Side walls: clamp, reflect and damp the horizontal velocity, damp the spin. */
  function WallResponse(s: BrickState, cfg: Config, canvas: Canvas): BrickState
  {
    if TouchesWall(s, canvas) then
      s.(vx := -s.vx * cfg.bounce,
         x := if s.x <= 0.0 then 0.0 else canvas.width - s.width,
         angularVelocity := s.angularVelocity * ImpactSpinDamping)
    else s
  }

  /** Floor: clamp, reflect and damp the vertical velocity, apply friction, damp the spin. */
  function FloorResponse(s: BrickState, cfg: Config, canvas: Canvas): BrickState
  {
    if TouchesFloor(s, canvas) then
      s.(vy := -s.vy * cfg.bounce,
         y := canvas.height - s.height,
         vx := s.vx * cfg.friction,
         angularVelocity := s.angularVelocity * ImpactSpinDamping)
    else s
  }

  /** One frame of `Brick.update`. A brick still in the structure does not
      move at all; a free brick ends the frame inside the canvas, and the
      step never touches the flags, the index or the size. */
  function Step(s: BrickState, cfg: Config, canvas: Canvas): (r: BrickState)
    ensures s.active ==> r == s
    ensures r.active == s.active && r.connected == s.connected
    ensures r.index == s.index && r.width == s.width && r.height == s.height
    ensures !s.active ==> r.y + r.height <= canvas.height
    ensures !s.active && s.width <= canvas.width ==> 0.0 <= r.x <= canvas.width - r.width
    ensures !s.active ==> r.angle == s.angle + s.angularVelocity
  {
    if s.active then s
    else FloorResponse(WallResponse(Advance(s, cfg), cfg, canvas), cfg, canvas)
  }

  /** Free flight: no wall and no floor contact after the Euler move. */
  lemma StepFreeFlight(s: BrickState, cfg: Config, canvas: Canvas)
    requires !s.active
    requires 0.0 < s.x + s.vx && s.x + s.vx + s.width < canvas.width
    requires s.y + s.vy + cfg.gravity + s.height < canvas.height
    ensures var r := Step(s, cfg, canvas);
      && r.angle == s.angle + s.angularVelocity
      && r.angularVelocity == 0.99 * s.angularVelocity
      && r.vx == s.vx
      && r.vy == s.vy + cfg.gravity
      && r.x == s.x + s.vx
      && r.y == s.y + s.vy + cfg.gravity
  {
  }

  /** A side wall hit without floor contact. */
  lemma StepWallContact(s: BrickState, cfg: Config, canvas: Canvas)
    requires !s.active
    requires s.x + s.vx <= 0.0 || s.x + s.vx + s.width >= canvas.width
    requires s.y + s.vy + cfg.gravity + s.height < canvas.height
    ensures var r := Step(s, cfg, canvas);
      && r.x == (if s.x + s.vx <= 0.0 then 0.0 else canvas.width - s.width)
      && r.vx == -s.vx * cfg.bounce
      && r.angularVelocity == 0.99 * 0.8 * s.angularVelocity
      && r.vy == s.vy + cfg.gravity
      && r.y == s.y + s.vy + cfg.gravity
  {
  }

  /** A floor hit, with or without a wall hit in the same frame; the
      horizontal velocity it damps is the one the wall test left. */
  lemma StepFloorContact(s: BrickState, cfg: Config, canvas: Canvas)
    requires !s.active
    requires s.y + s.vy + cfg.gravity + s.height >= canvas.height
    ensures var wall := s.x + s.vx <= 0.0 || s.x + s.vx + s.width >= canvas.width;
      var r := Step(s, cfg, canvas);
      && r.x == (if !wall then s.x + s.vx else if s.x + s.vx <= 0.0 then 0.0 else canvas.width - s.width)
      && r.y == canvas.height - s.height
      && r.vy == -(s.vy + cfg.gravity) * cfg.bounce
      && r.vx == (if wall then -s.vx * cfg.bounce else s.vx) * cfg.friction
      && r.angularVelocity == (if wall then 0.99 * 0.8 * 0.8 else 0.99 * 0.8) * s.angularVelocity
  {
  }

  // ---------------------------------------------------------------------
  // The explosion
  // ---------------------------------------------------------------------

  /** The three `Math.random()` draws of one explosion kick, each in [0, 1). */
  datatype Jitter = Jitter(kickX: real, kickY: real, spin: real)

  predicate InUnit(j: Jitter)
  {
    0.0 <= j.kickX < 1.0 && 0.0 <= j.kickY < 1.0 && 0.0 <= j.spin < 1.0
  }

  /** Offset of the brick's centre from the explosion point. */
  function OffsetX(s: BrickState, ex: real): real
  {
    s.x + s.width / 2.0 - ex
  }

  function OffsetY(s: BrickState, ey: real): real
  {
    s.y + s.height / 2.0 - ey
  }

  /** `d` is the Euclidean distance from the explosion point to the centre. */
  predicate IsDistance(s: BrickState, ex: real, ey: real, d: real)
  {
    d >= 0.0 && d * d == OffsetX(s, ex) * OffsetX(s, ex) + OffsetY(s, ey) * OffsetY(s, ey)
  }

  /** Impulse magnitude, decaying linearly from `force` at the centre. */
  function ImpulseMagnitude(distance: real, radius: real, force: real): (r: real)
    requires 0.0 <= distance < radius
    ensures force > 0.0 ==> 0.0 < r <= force
    ensures force > 0.0 ==> (r == force <==> distance == 0.0)
  {
    (1.0 - distance / radius) * force
  }

  lemma ImpulseDecreasing(d1: real, d2: real, radius: real, force: real)
    requires 0.0 <= d1 < d2 < radius
    requires force > 0.0
    ensures ImpulseMagnitude(d2, radius, force) < ImpulseMagnitude(d1, radius, force)
  {
  }

  lemma ImpulseAtHalfRadius(radius: real, force: real)
    requires radius > 0.0
    ensures ImpulseMagnitude(radius / 2.0, radius, force) == force / 2.0
  {
  }

  /** The direction part of the impulse, before the random kick. */
  function Push(offset: real, distance: real, force: real): real
    requires distance > 0.0
  {
    (offset / distance) * force
  }

  /** The direction part has length exactly `force`: it is `force` times
      the unit vector from the explosion point to the brick's centre. */
  lemma PushHasImpulseLength(s: BrickState, ex: real, ey: real, d: real, force: real)
    requires IsDistance(s, ex, ey, d) && d > 0.0
    ensures var px := Push(OffsetX(s, ex), d, force);
      var py := Push(OffsetY(s, ey), d, force);
      px * px + py * py == force * force
  {
    var dx, dy := OffsetX(s, ex), OffsetY(s, ey);
    var ux, uy := dx / d, dy / d;
    assert ux * d == dx && uy * d == dy;
    calc {
      (ux * ux + uy * uy) * (d * d);
      (ux * d) * (ux * d) + (uy * d) * (uy * d);
      dx * dx + dy * dy;
      d * d;
    }
    assert ux * ux + uy * uy == 1.0;
    calc {
      Push(dx, d, force) * Push(dx, d, force) + Push(dy, d, force) * Push(dy, d, force);
      (ux * force) * (ux * force) + (uy * force) * (uy * force);
      (ux * ux + uy * uy) * (force * force);
    }
  }

  /** The explosion reaches the brick: still in the structure and inside the radius. */
  predicate Hit(s: BrickState, d: real, cfg: Config)
  {
    s.active && d < cfg.explosionRadius
  }

  /** `r` is a possible state after `applyExplosionForce` on `s`. Out of
      reach nothing changes. In reach the brick is detached, its spin gets
      the random kick, and, when the distance is positive, each velocity
      component gets the directed push plus the random kick; at distance 0
      the source divides by zero and the velocity is left unconstrained. */
  predicate Blasted(s: BrickState, r: BrickState, ex: real, ey: real, d: real, j: Jitter, cfg: Config)
    requires d >= 0.0
  {
    if !Hit(s, d, cfg) then r == s
    else
      var force := ImpulseMagnitude(d, cfg.explosionRadius, cfg.explosionForce);
      && r == s.(vx := r.vx, vy := r.vy,
                 angularVelocity := s.angularVelocity + (j.spin - 0.5) * SpinJitter,
                 active := false, connected := false)
      && (d > 0.0 ==>
            && r.vx == s.vx + Push(OffsetX(s, ex), d, force) + (j.kickX - 0.5) * force * JitterFactor
            && r.vy == s.vy + Push(OffsetY(s, ey), d, force) + (j.kickY - 0.5) * force * JitterFactor)
  }

  /** An explosion detaches exactly the bricks still in the structure that
      lie strictly inside the radius (the centre included); it never
      re-attaches one. */
  lemma BlastDetachesWithinRadius(s: BrickState, r: BrickState, ex: real, ey: real, d: real, j: Jitter, cfg: Config)
    requires d >= 0.0 && Blasted(s, r, ex, ey, d, j, cfg)
    ensures r.active <==> s.active && d >= cfg.explosionRadius
    ensures !r.active ==> !r.connected || !s.active
    ensures !s.active ==> r == s
  {
  }

  /** Only position-independent quantities move: the brick is not displaced,
      and the random spin kick lies in [-0.1, 0.1). */
  lemma BlastSpinKickBounded(s: BrickState, r: BrickState, ex: real, ey: real, d: real, j: Jitter, cfg: Config)
    requires d >= 0.0 && InUnit(j) && Blasted(s, r, ex, ey, d, j, cfg)
    ensures r.x == s.x && r.y == s.y && r.angle == s.angle
    ensures -0.1 <= r.angularVelocity - s.angularVelocity < 0.1
  {
  }

  // ---------------------------------------------------------------------
  // The object
  // ---------------------------------------------------------------------

  class Brick {
    var x: real
    var y: real
    var index: int
    var width: real
    var height: real
    var vx: real
    var vy: real
    var angle: real
    var angularVelocity: real
    var active: bool
    var connected: bool

    function State(): BrickState
      reads this
    {
      BrickState(x, y, index, width, height, vx, vy, angle, angularVelocity, active, connected)
    }

    constructor (x0: real, y0: real, index0: int)
      ensures State() == Fresh(x0, y0, index0)
    {
      x, y, index := x0, y0, index0;
      width, height := BrickWidth, BrickHeight;
      vx, vy := 0.0, 0.0;
      angle, angularVelocity := 0.0, 0.0;
      active, connected := true, true;
    }

    method Update(cfg: Config, canvas: Canvas)
      modifies this
      ensures State() == Step(old(State()), cfg, canvas)
    {
      if !active {
        Integrate(cfg);
        HitWalls(cfg, canvas);
        HitFloor(cfg, canvas);
      }
    }

    /** Rotation, gravity and the Euler move of `update`. */
    method Integrate(cfg: Config)
      modifies this
      ensures State() == Advance(old(State()), cfg)
    {
      angle := angle + angularVelocity;
      angularVelocity := angularVelocity * SpinDecay;

      vy := vy + cfg.gravity;
      x := x + vx;
      y := y + vy;
    }

    /** The side-wall test of `update`. */
    method HitWalls(cfg: Config, canvas: Canvas)
      modifies this
      ensures State() == WallResponse(old(State()), cfg, canvas)
    {
      if x <= 0.0 || x + width >= canvas.width {
        vx := -vx * cfg.bounce;
        x := if x <= 0.0 then 0.0 else canvas.width - width;
        angularVelocity := angularVelocity * ImpactSpinDamping;
      }
    }

    /** The floor test of `update`. */
    method HitFloor(cfg: Config, canvas: Canvas)
      modifies this
      ensures State() == FloorResponse(old(State()), cfg, canvas)
    {
      if y + height >= canvas.height {
        vy := -vy * cfg.bounce;
        y := canvas.height - height;
        vx := vx * cfg.friction;
        angularVelocity := angularVelocity * ImpactSpinDamping;
      }
    }

    /** `distance` stands for the square root the source takes of the
        squared offset (`IsDistance`); the contract holds for any
        non-negative value. */
    method ApplyExplosionForce(ex: real, ey: real, distance: real, jitter: Jitter, cfg: Config)
      requires distance >= 0.0
      modifies this
      ensures Blasted(old(State()), State(), ex, ey, distance, jitter, cfg)
    {
      if !active {
        return;
      }
      ghost var s0 := State();
      var dx := x + width / 2.0 - ex;
      var dy := y + height / 2.0 - ey;
      if distance < cfg.explosionRadius {
        var force := ImpulseMagnitude(distance, cfg.explosionRadius, cfg.explosionForce);
        if distance > 0.0 {
          vx := vx + (dx / distance) * force + (jitter.kickX - 0.5) * force * JitterFactor;
          vy := vy + (dy / distance) * force + (jitter.kickY - 0.5) * force * JitterFactor;
          assert vx == s0.vx + Push(OffsetX(s0, ex), distance, force) + (jitter.kickX - 0.5) * force * JitterFactor;
          assert vy == s0.vy + Push(OffsetY(s0, ey), distance, force) + (jitter.kickY - 0.5) * force * JitterFactor;
        } else {
          // The source divides by a zero distance here: no real number stands for the result.
          vx := *;
          vy := *;
        }
        angularVelocity := angularVelocity + (jitter.spin - 0.5) * SpinJitter;
        active := false;
        connected := false;
      }
    }
  }
}
