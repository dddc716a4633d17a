/**
 * Value types shared by the simulation, the renderer and the editor:
 * colors, the two-stop gradient, the per-particle instance record and a layer
 * (aw::ParticleSystem::ParticleContainer).
 */
module Particles {

  /** An RGBA color; each channel is a real number. */
  datatype Color = Color(r: real, g: real, b: real, a: real)

  const Transparent: Color := Color(0.0, 0.0, 0.0, 0.0)

  /** A gradient is exactly two colors: the begin and the end color (std::array<aw::Color, 2>). */
  type Gradient = g: seq<Color> | |g| == 2 witness [Transparent, Transparent]

  datatype Vec2 = Vec2(x: real, y: real)
  datatype Vec3 = Vec3(x: real, y: real, z: real)

  /**
   * One simulated particle as the renderer streams it: the time to live and the
   * 3-D position form the first vec4 attribute, the velocity and the size the second.
   */
  datatype Particle = Particle(ttl: real, position: Vec3, velocity: Vec3, size: real)

  /** Byte sizes of the packed float layout. */
  const FloatBytes: nat := 4
  const Vec2Bytes: nat := 2 * FloatBytes
  const ParticleBytes: nat := 8 * FloatBytes
  /** offsetof(Particle, velocity): after ttl and position. */
  const VelocityOffset: nat := 4 * FloatBytes

  /** One layer of simulation output: its gradient and its live particles. */
  datatype Layer = Layer(colorGradient: Gradient, particles: seq<Particle>)
}
