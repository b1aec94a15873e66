/** The particle store and its initialisation, `initParticles`. */
module Particles {
  import opened Types
  import opened Arith

  /** A simulated point: position, the position it was created at, velocity, size. */
  datatype Particle = Particle(
    x: real, y: real, z: real,
    ox: real, oy: real, oz: real,
    vx: real, vy: real, vz: real,
    size: real, angle: real)

  /**
   * The `Math.random()` values the construction of one particle reads.
   * `x`, `y`, `z` are read for every style; `starX`, `starY`, `starZ` only
   * for stars; `vz` only for styles other than stars.
   */
  datatype ParticleDraws = ParticleDraws(
    x: Draw, y: Draw, z: Draw,
    starX: Draw, starY: Draw, starZ: Draw,
    vx: Draw, vy: Draw, vz: Draw,
    size: Draw, angle: Draw)

  /** The value of `Math.PI`. */
  const PI: real := 3.141592653589793
  const HELIX_RADIUS: real := 150.0
  const LATTICE_SPACING: real := 100.0
  const DEPTH: real := 1000.0

  /** `(Math.random() - 0.5) * extent`: a value centred on zero. */
  function Centered(d: Draw, extent: real): real {
    (d - 0.5) * extent
  }

  /** A centred draw over a non-negative extent lies in `[-extent/2, extent/2]`. */
  lemma CenteredRange(d: Draw, extent: real)
    requires 0.0 <= extent
    ensures -extent / 2.0 <= Centered(d, extent) <= extent / 2.0
    ensures 0.0 < extent ==> Centered(d, extent) < extent / 2.0
  {
    MulLe(-0.5, d - 0.5, extent);
    MulLe(d - 0.5, 0.5, extent);
    if 0.0 < extent {
      MulLt(d - 0.5, 0.5, extent);
    }
  }

  /** The lattice side is at least one and its cube holds every particle. */
  predicate LatticeSideFits(side: nat, count: nat) {
    1 <= side && count <= side * side * side
  }

  /** Grid coordinates of lattice index `i`: `i % s`, `floor(i / s) % s`, `floor(i / s^2)`. */
  function LatticeCell(i: nat, side: nat): (nat, nat, nat)
    requires 1 <= side
  {
    (i % side, (i / side) % side, i / (side * side))
  }

  /** `(k - side / 2) * spacing`, a grid coordinate centred on zero. */
  function LatticeCoord(k: nat, side: nat): real {
    (k as real - side as real / 2.0) * LATTICE_SPACING
  }

  /** The strand of a helix particle: `1` at even indices, `-1` at odd ones. */
  function HelixSide(i: nat): real {
    if i % 2 == 0 then 1.0 else -1.0
  }

  /**
   * The starting position of particle `i`. For dna, `t` is the cosine and
   * sine of the angle `(i / count) * 4 * PI`; the strand sign multiplies the
   * angle, so `cos(t * side) = cos t` and `sin(t * side) = side * sin t`.
   */
  function Placement(style: Style, count: nat, width: nat, height: nat, side: nat,
                     i: nat, d: ParticleDraws, t: Trig): (real, real, real)
    requires i < count
    requires style == Lattice ==> LatticeSideFits(side, count)
  {
    match style
    case Dna =>
      (t.c * HELIX_RADIUS,
       HelixHeight(i, count, height),
       HelixSide(i) * t.s * HELIX_RADIUS)
    case Lattice =>
      var cell := LatticeCell(i, side);
      (LatticeCoord(cell.0, side), LatticeCoord(cell.1, side), LatticeCoord(cell.2, side))
    case Stars =>
      (Centered(d.starX, width as real * 2.0), Centered(d.starY, height as real * 2.0), d.starZ * DEPTH)
    case _ =>
      (Centered(d.x, width as real), Centered(d.y, height as real), Centered(d.z, DEPTH))
  }

  /** One element of the array `initParticles` builds. */
  function NewParticle(cfg: Config, width: nat, height: nat, side: nat,
                       i: nat, d: ParticleDraws, t: Trig): Particle
    requires i < cfg.particleCount
    requires cfg.style == Lattice ==> LatticeSideFits(side, cfg.particleCount)
  {
    var pos := Placement(cfg.style, cfg.particleCount, width, height, side, i, d, t);
    Particle(pos.0, pos.1, pos.2, pos.0, pos.1, pos.2,
             Centered(d.vx, cfg.speed), Centered(d.vy, cfg.speed),
             if cfg.style == Stars then -cfg.speed else Centered(d.vz, cfg.speed),
             d.size * 2.0 + 1.0, d.angle * PI * 2.0)
  }

  /**
   * `initParticles(width, height)`: exactly `particleCount` particles, each
   * starting at its own original position.
   */
  function InitParticles(cfg: Config, width: nat, height: nat, side: nat,
                         draws: seq<ParticleDraws>, helix: seq<Trig>): (ps: seq<Particle>)
    requires |draws| == cfg.particleCount && |helix| == cfg.particleCount
    requires cfg.style == Lattice ==> LatticeSideFits(side, cfg.particleCount)
    ensures |ps| == cfg.particleCount
    ensures forall i :: 0 <= i < |ps| ==>
      ps[i].ox == ps[i].x && ps[i].oy == ps[i].y && ps[i].oz == ps[i].z
    ensures forall i :: 0 <= i < |ps| ==>
      ps[i].vz == if cfg.style == Stars then -cfg.speed else (draws[i].vz - 0.5) * cfg.speed
    ensures forall i :: 0 <= i < |ps| ==>
      ps[i].vx == (draws[i].vx - 0.5) * cfg.speed && ps[i].vy == (draws[i].vy - 0.5) * cfg.speed
    ensures forall i :: 0 <= i < |ps| ==> 1.0 <= ps[i].size < 3.0
  {
    seq(cfg.particleCount, i requires 0 <= i < cfg.particleCount =>
      NewParticle(cfg, width, height, side, i, draws[i], helix[i]))
  }

  // ---------------------------------------------------------------------
  // Lattice arithmetic
  // ---------------------------------------------------------------------

  /**
   * Lattice placement: for `i < s^3` every grid coordinate lies in `[0, s)`
   * and `ix + s*iy + s^2*iz` recovers `i`.
   */
  lemma LatticeCellInRange(i: nat, s: nat)
    requires 1 <= s && i < s * s * s
    ensures LatticeCell(i, s).0 < s && LatticeCell(i, s).1 < s && LatticeCell(i, s).2 < s
    ensures LatticeCell(i, s).0 + s * LatticeCell(i, s).1 + s * s * LatticeCell(i, s).2 == i
  {
    DivDiv(i, s);
  }

  /** Distinct indices get distinct grid cells. */
  lemma LatticeCellInjective(i: nat, j: nat, s: nat)
    requires 1 <= s && i < s * s * s && j < s * s * s
    requires LatticeCell(i, s) == LatticeCell(j, s)
    ensures i == j
  {
    LatticeCellInRange(i, s);
    LatticeCellInRange(j, s);
  }

  /**
   * Under the lattice style no two particles share a starting position,
   * every coordinate lies in `[-s/2 * 100, s/2 * 100)`, and index 0 sits at
   * the corner `(-s/2 * 100, -s/2 * 100, -s/2 * 100)`.
   */
  lemma LatticePlacement(cfg: Config, width: nat, height: nat, side: nat,
                         draws: seq<ParticleDraws>, helix: seq<Trig>, i: nat, j: nat)
    requires |draws| == cfg.particleCount && |helix| == cfg.particleCount
    requires cfg.style == Lattice && LatticeSideFits(side, cfg.particleCount)
    requires i < cfg.particleCount && j < cfg.particleCount
    ensures var ps := InitParticles(cfg, width, height, side, draws, helix);
      i != j ==> (ps[i].x, ps[i].y, ps[i].z) != (ps[j].x, ps[j].y, ps[j].z)
    ensures var ps := InitParticles(cfg, width, height, side, draws, helix);
      var h := side as real / 2.0 * LATTICE_SPACING;
      -h <= ps[i].x < h && -h <= ps[i].y < h && -h <= ps[i].z < h
    ensures var ps := InitParticles(cfg, width, height, side, draws, helix);
      var h := side as real / 2.0 * LATTICE_SPACING;
      ps[0].x == -h && ps[0].y == -h && ps[0].z == -h
  {
    var ps := InitParticles(cfg, width, height, side, draws, helix);
    LatticeCellInRange(i, side);
    LatticeCellInRange(j, side);
    var ci, cj := LatticeCell(i, side), LatticeCell(j, side);
    if ci == cj {
      LatticeCellInjective(i, j, side);
      assert i == j;
    } else {
      assert ps[i].x == LatticeCoord(ci.0, side) && ps[j].x == LatticeCoord(cj.0, side);
      assert ps[i].y == LatticeCoord(ci.1, side) && ps[j].y == LatticeCoord(cj.1, side);
      assert ps[i].z == LatticeCoord(ci.2, side) && ps[j].z == LatticeCoord(cj.2, side);
    }
    assert LatticeCell(0, side) == (0, 0, 0);
  }

  // ---------------------------------------------------------------------
  // The other layouts
  // ---------------------------------------------------------------------

  /**
   * Under dna every particle lies on the circle of radius 150 around the
   * vertical axis: even indices on one strand, odd indices on its mirror
   * image across the x axis.
   */
  lemma DnaOnHelix(cfg: Config, width: nat, height: nat, side: nat,
                   draws: seq<ParticleDraws>, helix: seq<Trig>, i: nat)
    requires |draws| == cfg.particleCount && |helix| == cfg.particleCount
    requires cfg.style == Dna && i < cfg.particleCount && helix[i].OnUnitCircle()
    ensures var ps := InitParticles(cfg, width, height, side, draws, helix);
      ps[i].x * ps[i].x + ps[i].z * ps[i].z == HELIX_RADIUS * HELIX_RADIUS
    ensures var ps := InitParticles(cfg, width, height, side, draws, helix);
      ps[i].x == helix[i].c * HELIX_RADIUS &&
      ps[i].z == (if i % 2 == 0 then helix[i].s else -helix[i].s) * HELIX_RADIUS
  {
    var ps := InitParticles(cfg, width, height, side, draws, helix);
    var c, s := helix[i].c, helix[i].s;
    var r := HELIX_RADIUS;
    assert ps[i].x == c * r;
    if i % 2 == 0 {
      assert ps[i].z == s * r;
    } else {
      assert ps[i].z == -s * r;
    }
    assert ps[i].z * ps[i].z == s * s * (r * r);
    assert ps[i].x * ps[i].x == c * c * (r * r);
    assert (c * c + s * s) * (r * r) == r * r;
  }

  /** The height formula `(i / n - 0.5) * h * 0.8` over reals. */
  function HelixHeight(i: nat, n: nat, h: nat): real
    requires i < n
  {
    (i as real / n as real - 0.5) * h as real * 0.8
  }

  lemma HelixHeightRange(i: nat, j: nat, n: nat, h: nat)
    requires i <= j < n
    ensures -0.4 * h as real <= HelixHeight(i, n, h) <= HelixHeight(j, n, h) <= 0.4 * h as real
    ensures 0 < h ==> HelixHeight(j, n, h) < 0.4 * h as real
  {
    var fi, fj, hr := i as real / n as real, j as real / n as real, h as real;
    DivMono(i as real, j as real, n as real);
    DivMono(0.0, i as real, n as real);
    MulLe(fi - 0.5, fj - 0.5, hr);
    MulLe((fi - 0.5) * hr, (fj - 0.5) * hr, 0.8);
    MulLe(-0.5, fi - 0.5, hr);
    MulLe(-0.5 * hr, (fi - 0.5) * hr, 0.8);
    MulLe(fj - 0.5, 0.5, hr);
    MulLe((fj - 0.5) * hr, 0.5 * hr, 0.8);
    if 0 < h {
      MulLt(fj - 0.5, 0.5, hr);
      MulLt((fj - 0.5) * hr, 0.5 * hr, 0.8);
    }
  }

  /**
   * Under dna the heights lie in `[-0.4 * height, 0.4 * height)` and rise
   * with the index.
   */
  lemma DnaHeights(cfg: Config, width: nat, height: nat, side: nat,
                   draws: seq<ParticleDraws>, helix: seq<Trig>, i: nat, j: nat)
    requires |draws| == cfg.particleCount && |helix| == cfg.particleCount
    requires cfg.style == Dna && i <= j < cfg.particleCount
    ensures var ps := InitParticles(cfg, width, height, side, draws, helix);
      -0.4 * height as real <= ps[i].y <= ps[j].y <= 0.4 * height as real
    ensures var ps := InitParticles(cfg, width, height, side, draws, helix);
      0 < height ==> ps[j].y < 0.4 * height as real
  {
    var ps := InitParticles(cfg, width, height, side, draws, helix);
    assert ps[i].y == HelixHeight(i, cfg.particleCount, height);
    assert ps[j].y == HelixHeight(j, cfg.particleCount, height);
    HelixHeightRange(i, j, cfg.particleCount, height);
  }

  /** Under stars every particle starts at a depth in `[0, 1000)` and moves toward the viewer at `speed`. */
  lemma StarsPlacement(cfg: Config, width: nat, height: nat, side: nat,
                       draws: seq<ParticleDraws>, helix: seq<Trig>, i: nat)
    requires |draws| == cfg.particleCount && |helix| == cfg.particleCount
    requires cfg.style == Stars && i < cfg.particleCount
    ensures var ps := InitParticles(cfg, width, height, side, draws, helix);
      0.0 <= ps[i].z < DEPTH && ps[i].vz == -cfg.speed &&
      -(width as real) <= ps[i].x <= width as real && -(height as real) <= ps[i].y <= height as real
  {
    var ps := InitParticles(cfg, width, height, side, draws, helix);
    CenteredRange(draws[i].starX, width as real * 2.0);
    CenteredRange(draws[i].starY, height as real * 2.0);
  }

  /**
   * Under plexus, flow, matrix and boids every particle starts in the box
   * `[-width/2, width/2] x [-height/2, height/2] x [-500, 500)`.
   */
  lemma BoxPlacement(cfg: Config, width: nat, height: nat, side: nat,
                     draws: seq<ParticleDraws>, helix: seq<Trig>, i: nat)
    requires |draws| == cfg.particleCount && |helix| == cfg.particleCount
    requires cfg.style in {Plexus, Flow, Matrix, Boids} && i < cfg.particleCount
    ensures var ps := InitParticles(cfg, width, height, side, draws, helix);
      -(width as real) / 2.0 <= ps[i].x <= width as real / 2.0 &&
      -(height as real) / 2.0 <= ps[i].y <= height as real / 2.0 &&
      -DEPTH / 2.0 <= ps[i].z < DEPTH / 2.0
  {
    CenteredRange(draws[i].x, width as real);
    CenteredRange(draws[i].y, height as real);
    CenteredRange(draws[i].z, DEPTH);
  }

  /** Velocities are drawn from `[-speed/2, speed/2]` on every axis, except `vz` under stars, which is `-speed`. */
  lemma InitialVelocities(cfg: Config, width: nat, height: nat, side: nat,
                          draws: seq<ParticleDraws>, helix: seq<Trig>, i: nat)
    requires |draws| == cfg.particleCount && |helix| == cfg.particleCount
    requires cfg.style == Lattice ==> LatticeSideFits(side, cfg.particleCount)
    requires 0.0 <= cfg.speed && i < cfg.particleCount
    ensures var p := InitParticles(cfg, width, height, side, draws, helix)[i];
      -cfg.speed / 2.0 <= p.vx <= cfg.speed / 2.0 && -cfg.speed / 2.0 <= p.vy <= cfg.speed / 2.0 &&
      (if cfg.style == Stars then p.vz == -cfg.speed else -cfg.speed / 2.0 <= p.vz <= cfg.speed / 2.0)
  {
    CenteredRange(draws[i].vx, cfg.speed);
    CenteredRange(draws[i].vy, cfg.speed);
    CenteredRange(draws[i].vz, cfg.speed);
  }

  /**
   * The dna and lattice layouts are deterministic: two initialisations with
   * the same configuration and viewport place every particle identically,
   * whatever the random draws.
   */
  lemma DeterministicLayouts(cfg: Config, width: nat, height: nat, side: nat,
                             d1: seq<ParticleDraws>, d2: seq<ParticleDraws>, helix: seq<Trig>, i: nat)
    requires |d1| == cfg.particleCount && |d2| == cfg.particleCount && |helix| == cfg.particleCount
    requires cfg.style == Dna || (cfg.style == Lattice && LatticeSideFits(side, cfg.particleCount))
    requires i < cfg.particleCount
    ensures var p1 := InitParticles(cfg, width, height, side, d1, helix)[i];
      var p2 := InitParticles(cfg, width, height, side, d2, helix)[i];
      p1.x == p2.x && p1.y == p2.y && p1.z == p2.z
  {
  }
}
