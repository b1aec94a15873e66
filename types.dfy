/** Value types shared by every part of the per-frame simulation. */
module Types {
  /** The seven animation styles of `AnimationStyle`. */
  datatype Style = Plexus | Flow | Matrix | Boids | Stars | Dna | Lattice

  /** The fields of `AnimationConfig` that the simulation reads. */
  datatype Config = Config(
    particleCount: nat,
    connectionDistance: real,
    speed: real,
    color: string,
    lineWidth: real,
    matrixRain: bool,
    style: Style)

  /** One value returned by `Math.random()`: a real in [0, 1). */
  type Draw = r: real | 0.0 <= r < 1.0

  /** A cosine/sine pair the host supplies for some angle. */
  datatype Trig = Trig(c: real, s: real) {
    /** The pair really is the cosine and sine of one angle. */
    predicate OnUnitCircle() {
      c * c + s * s == 1.0
    }
  }

  datatype Option<T> = None | Some(value: T)

  function Max(a: real, b: real): real { if a >= b then a else b }

  function Min(a: real, b: real): real { if a <= b then a else b }
}
