/** Fixed dimensions of the chimney and the live-tunable physics parameters.

    The slider-driven globals of the animation (gravity, friction, bounce,
    initial tilt, explosion force and radius) are gathered into a `Config`
    value that every operation receives, and the drawing surface becomes a
    `Canvas` value.
 */
module Settings {

  const ChimneyWidth: real := 60.0
  const ChimneyHeight: real := 400.0
  const BrickWidth: real := ChimneyWidth
  const BrickHeight: real := 20.0

  /** Number of bricks a chimney is built from: floor(400 / 20). */
  const BrickCount: nat := (ChimneyHeight / BrickHeight).Floor

  /** Per-frame multiplicative decay of a free brick's angular velocity. */
  const SpinDecay: real := 0.99
  /** Extra angular-velocity damping applied on every wall or floor impact. */
  const ImpactSpinDamping: real := 0.8
  /** Share of the impulse magnitude used for the random kick on each axis. */
  const JitterFactor: real := 0.3
  /** Width of the random angular-velocity kick of an explosion. */
  const SpinJitter: real := 0.2
  /** Per-frame probability of peeling the next brick off the stack. */
  const CascadeChance: real := 0.1
  /** Horizontal push and spin given to brick 0 when the collapse starts. */
  const PushVelocity: real := 1.5
  const PushSpin: real := 0.05

  datatype Config = Config(
    gravity: real,
    friction: real,
    bounce: real,
    initialTilt: real,
    explosionForce: real,
    explosionRadius: real)

  /** The values the sliders start from. */
  const Defaults: Config := Config(0.2, 0.95, 0.1, 0.2, 25.0, 120.0)

  datatype Canvas = Canvas(width: real, height: real)

  /** A canvas at least as large as one brick. */
  predicate Fits(canvas: Canvas)
  {
    canvas.width >= BrickWidth && canvas.height >= BrickHeight
  }

  lemma BrickCountIsTwenty()
    ensures BrickCount == 20
  {
  }
}
