/** The per-particle step of `draw`, chosen by style. */
module Motion {
  import opened Types
  import opened Particles

  /** Half the side of the plexus/boids box. */
  const BOUNDS: real := 500.0
  /** The depth a star is sent back to. */
  const FAR: real := 1000.0

  /**
   * The two sequential tests on one axis: below `-500` becomes `500`, then
   * above `500` becomes `-500`.
   */
  function Wrap(v: real): (w: real)
    ensures -BOUNDS <= w <= BOUNDS
    ensures v < -BOUNDS ==> w == BOUNDS
    ensures v > BOUNDS ==> w == -BOUNDS
    ensures -BOUNDS <= v <= BOUNDS ==> w == v
  {
    var a := if v < -BOUNDS then BOUNDS else v;
    if a > BOUNDS then -BOUNDS else a
  }

  predicate InBox(p: Particle) {
    -BOUNDS <= p.x <= BOUNDS && -BOUNDS <= p.y <= BOUNDS && -BOUNDS <= p.z <= BOUNDS
  }

  /** The body of the `forEach` over the particle store, before projection. */
  function Step(style: Style, p: Particle): (q: Particle)
    ensures style == Stars ==> q == p.(z := q.z) && 0.0 <= q.z
    ensures style == Stars ==> q.z == if p.z + 2.0 * p.vz < 0.0 then FAR else p.z + 2.0 * p.vz
    ensures style in {Plexus, Boids} ==>
      InBox(q) && q == p.(x := Wrap(p.x + p.vx), y := Wrap(p.y + p.vy), z := Wrap(p.z + p.vz))
    ensures style !in {Stars, Plexus, Boids} ==> q == p
  {
    match style
    case Stars =>
      var z := p.z + p.vz * 2.0;
      p.(z := if z < 0.0 then FAR else z)
    case Plexus =>
      p.(x := Wrap(p.x + p.vx), y := Wrap(p.y + p.vy), z := Wrap(p.z + p.vz))
    case Boids =>
      p.(x := Wrap(p.x + p.vx), y := Wrap(p.y + p.vy), z := Wrap(p.z + p.vz))
    case _ => p
  }

  /** `n` consecutive frames of the step. */
  function StepN(style: Style, p: Particle, n: nat): Particle
    decreases n
  {
    if n == 0 then p else Step(style, StepN(style, p, n - 1))
  }

  /** A star particle that starts at a depth in [0, 1000] and does not move away. */
  predicate InStarBand(p: Particle) {
    0.0 <= p.z <= FAR && p.vz <= 0.0
  }

  /** One stars frame keeps a particle in the band. */
  lemma StarStepInBand(p: Particle)
    requires InStarBand(p)
    ensures InStarBand(Step(Stars, p))
  {
  }

  /**
   * Under stars, a particle that starts at a depth in [0, 1000] with `vz <= 0`
   * stays in that band after any number of frames, and only its depth moves.
   */
  lemma {:induction false} StarsStayInBand(p: Particle, n: nat)
    requires InStarBand(p)
    ensures InStarBand(StepN(Stars, p, n))
    ensures StepN(Stars, p, n) == p.(z := StepN(Stars, p, n).z)
    decreases n
  {
    if n > 0 {
      StarsStayInBand(p, n - 1);
      StarStepInBand(StepN(Stars, p, n - 1));
    }
  }

  /**
   * Under plexus and boids, after at least one frame every coordinate lies in
   * [-500, 500], and the velocity is the one the particle started with.
   */
  lemma {:induction false} BoxAfterFrames(style: Style, p: Particle, n: nat)
    requires style in {Plexus, Boids} && 1 <= n
    ensures InBox(StepN(style, p, n))
    ensures StepN(style, p, n).vx == p.vx && StepN(style, p, n).vy == p.vy && StepN(style, p, n).vz == p.vz
    decreases n
  {
    if n > 1 {
      BoxAfterFrames(style, p, n - 1);
    }
  }

  /** Flow, matrix, dna and lattice particles never move. */
  lemma {:induction false} StaticStyles(style: Style, p: Particle, n: nat)
    requires style in {Flow, Matrix, Dna, Lattice}
    ensures StepN(style, p, n) == p
    decreases n
  {
    if n > 0 {
      StaticStyles(style, p, n - 1);
    }
  }

  /** The step applied to every particle of the store. */
  function StepAll(style: Style, ps: seq<Particle>): (qs: seq<Particle>)
    ensures |qs| == |ps|
  {
    seq(|ps|, k requires 0 <= k < |ps| => Step(style, ps[k]))
  }

  /** The statements of the step as written: move, then test and reset each coordinate in turn. */
  method Advance(style: Style, p: Particle) returns (q: Particle)
    ensures q == Step(style, p)
  {
    q := p;
    if style == Stars {
      q := q.(z := q.z + q.vz * 2.0);
      if q.z < 0.0 {
        q := q.(z := FAR);
      }
    } else if style == Plexus || style == Boids {
      q := q.(x := q.x + q.vx, y := q.y + q.vy, z := q.z + q.vz);
      if q.x < -BOUNDS { q := q.(x := BOUNDS); }
      if q.x > BOUNDS { q := q.(x := -BOUNDS); }
      if q.y < -BOUNDS { q := q.(y := BOUNDS); }
      if q.y > BOUNDS { q := q.(y := -BOUNDS); }
      if q.z < -BOUNDS { q := q.(z := BOUNDS); }
      if q.z > BOUNDS { q := q.(z := -BOUNDS); }
    }
  }
}
