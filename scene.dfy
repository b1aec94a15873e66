/**
 * The background component's mutable state and its animation frame: the
 * particle and rain-column stores it rebuilds on resize, the smoothed camera
 * rotation, and `draw`, which updates all of them in place and produces the
 * projected list, the dots and the lines of one frame.
 */
module Scene {
  import opened Types
  import opened Particles
  import opened Motion
  import opened Camera
  import opened Projection
  import opened Rain
  import opened Connections

  /** The random draws and lattice side one call of `resize` reads, sized for `cfg` and the viewport. */
  predicate ResizeInputs(cfg: Config, width: nat, side: nat,
                         pdraws: seq<ParticleDraws>, helix: seq<Trig>, cdraws: seq<ColumnDraws>) {
    |pdraws| == cfg.particleCount && |helix| == cfg.particleCount &&
    (cfg.style == Lattice ==> LatticeSideFits(side, cfg.particleCount)) &&
    |cdraws| == ColumnCount(width) &&
    (forall i :: 0 <= i < |cdraws| ==> |cdraws[i].glyphs| == TRAIL)
  }

  /** Under stars with a non-negative speed, every particle has a depth in [0, 1000] and does not move away. */
  predicate StarsInBand(style: Style, speed: real, ps: seq<Particle>) {
    style == Stars && 0.0 <= speed ==> forall k :: 0 <= k < |ps| ==> InStarBand(ps[k])
  }

  class Background {
    /** The configuration the running effect was created with. */
    var cfg: Config
    /** The canvas size, `window.innerWidth` and `window.innerHeight` at the last resize. */
    var width: nat
    var height: nat
    /** `particles.current`. */
    var particles: array<Particle>
    /** `matrixColumns.current`. */
    var columns: array<Column>
    /** `rotation.current.x` and `rotation.current.y`. */
    var rotX: real
    var rotY: real

    /**
     * The stores have the sizes `initParticles` and `initMatrix` gave them,
     * every column is in its slot with 15 glyphs, and a stars store keeps
     * its depths in [0, 1000].
     */
    ghost predicate Valid()
      reads this, particles, columns
    {
      particles.Length == cfg.particleCount &&
      columns.Length == ColumnCount(width) &&
      RainValid(columns[..]) &&
      StarsInBand(cfg.style, cfg.speed, particles[..])
    }

    /** Mounting and starting the effect: rotation at rest, then `resize()`. */
    constructor (cfg: Config, width: nat, height: nat, side: nat,
                 pdraws: seq<ParticleDraws>, helix: seq<Trig>, cdraws: seq<ColumnDraws>)
      requires ResizeInputs(cfg, width, side, pdraws, helix, cdraws)
      ensures Valid() && fresh(particles) && fresh(columns)
      ensures this.cfg == cfg && this.width == width && this.height == height
      ensures rotX == 0.0 && rotY == 0.0
      ensures particles[..] == InitParticles(cfg, width, height, side, pdraws, helix)
      ensures columns[..] == InitMatrix(width, cdraws)
    {
      this.cfg := cfg;
      this.width := width;
      this.height := height;
      rotX, rotY := 0.0, 0.0;
      var ps := InitParticles(cfg, width, height, side, pdraws, helix);
      particles := new Particle[|ps|](i requires 0 <= i < |ps| => ps[i]);
      var cs := InitMatrix(width, cdraws);
      columns := new Column[|cs|](i requires 0 <= i < |cs| => cs[i]);
      StoreInBand(cfg, width, height, side, pdraws, helix);
    }

    /**
     * `resize()`: take the new viewport size and rebuild both stores. A
     * change of configuration re-runs the effect, which does the same with
     * the new configuration and leaves the rotation as it was.
     */
    method Resize(newCfg: Config, width: nat, height: nat, side: nat,
                  pdraws: seq<ParticleDraws>, helix: seq<Trig>, cdraws: seq<ColumnDraws>)
      requires ResizeInputs(newCfg, width, side, pdraws, helix, cdraws)
      modifies this
      ensures Valid() && fresh(particles) && fresh(columns)
      ensures cfg == newCfg && this.width == width && this.height == height
      ensures rotX == old(rotX) && rotY == old(rotY)
      ensures particles[..] == InitParticles(newCfg, width, height, side, pdraws, helix)
      ensures columns[..] == InitMatrix(width, cdraws)
    {
      cfg := newCfg;
      this.width := width;
      this.height := height;
      var ps := InitParticles(newCfg, width, height, side, pdraws, helix);
      particles := new Particle[|ps|](i requires 0 <= i < |ps| => ps[i]);
      var cs := InitMatrix(width, cdraws);
      columns := new Column[|cs|](i requires 0 <= i < |cs| => cs[i]);
      StoreInBand(newCfg, width, height, side, pdraws, helix);
    }

    /** Lines 93-94 of `draw`: each rotation axis eases 5% toward `mouse * 0.0005`. */
    method SmoothRotation(mouseX: real, mouseY: real)
      modifies this`rotX, this`rotY
      ensures rotX == Approach(old(rotX), Target(mouseY))
      ensures rotY == Approach(old(rotY), Target(mouseX))
    {
      rotX := rotX + (mouseY * GAIN - rotX) * EASE;
      rotY := rotY + (mouseX * GAIN - rotY) * EASE;
    }

    /**
     * The rain pass of `draw`: every column falls by its speed, starts over
     * above the viewport once it is 300 pixels below it, and now and then
     * takes a new leading glyph and drops its last one.
     */
    method TickRain(draws: seq<TickDraws>)
      requires |draws| == columns.Length
      modifies columns
      ensures columns[..] == TickAll(old(columns[..]), height, draws)
    {
      var i := 0;
      while i < columns.Length
        invariant 0 <= i <= columns.Length
        invariant forall k :: 0 <= k < i ==> columns[k] == TickColumn(old(columns[k]), height, draws[k])
        invariant forall k :: i <= k < columns.Length ==> columns[k] == old(columns[k])
      {
        var col := columns[i];
        col := col.(y := col.y + col.speed);
        if col.y > height as real + WRAP_MARGIN {
          col := col.(y := RESPAWN_Y, speed := draws[i].respawn * 3.0 + 2.0);
        }
        if draws[i].recycle > 0.95 {
          var chars := [Glyph(draws[i].glyph)] + col.chars;
          chars := chars[..|chars| - 1];
          col := col.(chars := chars);
        }
        columns[i] := col;
        i := i + 1;
      }
      assert columns[..] == TickAll(old(columns[..]), height, draws);
    }

    /**
     * The particle pass of `draw`: step each particle in place, then rotate
     * and project it and keep it when it lands near the viewport. `yaws[k]`
     * is the cosine and sine of the yaw angle read for particle `k` (the
     * clock-driven spin plus `rotation.y`), `pitch` those of `rotation.x`.
     */
    method StepAndProject(yaws: seq<Trig>, pitch: Trig) returns (visible: seq<Projected>)
      requires |yaws| == particles.Length
      modifies particles
      ensures particles[..] == StepAll(cfg.style, old(particles[..]))
      ensures visible == Visible(particles[..], yaws, pitch, width, height)
    {
      ghost var stepped := StepAll(cfg.style, particles[..]);
      visible := [];
      var i := 0;
      while i < particles.Length
        invariant 0 <= i <= particles.Length
        invariant forall k :: 0 <= k < i ==> particles[k] == stepped[k]
        invariant forall k :: i <= k < particles.Length ==> particles[k] == old(particles[k])
        invariant visible == VisibleUpTo(stepped, yaws, pitch, width, height, i)
      {
        var p := Advance(cfg.style, particles[i]);
        particles[i] := p;
        var o := Project(p, i, yaws[i], pitch, width, height);
        if o.Some? {
          visible := visible + [o.value];
        }
        i := i + 1;
      }
      assert particles[..] == stepped;
    }

    /**
     * One animation frame: smooth the rotation, advance the rain when it is
     * on, step and project the particles, then draw a dot per projected
     * entry and the lines of the window scan.
     */
    method Draw(mouseX: real, mouseY: real, rain: seq<TickDraws>, yaws: seq<Trig>, pitch: Trig, root: real -> real)
      returns (visible: seq<Projected>, dots: seq<Dot>, lines: seq<Line>)
      requires Valid() && |rain| == columns.Length && |yaws| == particles.Length && IsSqrt(root)
      modifies this`rotX, this`rotY, particles, columns
      ensures Valid()
      ensures rotX == Approach(old(rotX), Target(mouseY)) && rotY == Approach(old(rotY), Target(mouseX))
      ensures columns[..] == if cfg.matrixRain then TickAll(old(columns[..]), height, rain) else old(columns[..])
      ensures particles[..] == StepAll(cfg.style, old(particles[..]))
      ensures visible == Visible(particles[..], yaws, pitch, width, height)
      ensures AlphasInRange(visible)
      ensures dots == Dots(visible, cfg.color) && lines == Lines(visible, cfg, root)
    {
      SmoothRotation(mouseX, mouseY);
      if cfg.matrixRain {
        TickRain(rain);
        TickAllKeepsStore(old(columns[..]), height, rain);
      }
      visible := StepAndProject(yaws, pitch);
      StepAllKeepsBand(cfg.style, cfg.speed, old(particles[..]));
      VisibleEntriesBounded(particles[..], yaws, pitch, width, height);
      dots, lines := Render(visible, cfg, root);
    }
  }

  /** A freshly built stars store lies in the band whenever the speed is not negative. */
  lemma StoreInBand(cfg: Config, width: nat, height: nat, side: nat, pdraws: seq<ParticleDraws>, helix: seq<Trig>)
    requires |pdraws| == cfg.particleCount && |helix| == cfg.particleCount
    requires cfg.style == Lattice ==> LatticeSideFits(side, cfg.particleCount)
    ensures StarsInBand(cfg.style, cfg.speed, InitParticles(cfg, width, height, side, pdraws, helix))
  {
    if cfg.style == Stars && 0.0 <= cfg.speed {
      var ps := InitParticles(cfg, width, height, side, pdraws, helix);
      forall k | 0 <= k < |ps|
        ensures InStarBand(ps[k])
      {
        StarsPlacement(cfg, width, height, side, pdraws, helix, k);
      }
    }
  }

  /** One frame of steps keeps a stars store in the band. */
  lemma StepAllKeepsBand(style: Style, speed: real, ps: seq<Particle>)
    requires StarsInBand(style, speed, ps)
    ensures StarsInBand(style, speed, StepAll(style, ps))
  {
    if style == Stars && 0.0 <= speed {
      forall k | 0 <= k < |ps|
        ensures InStarBand(StepAll(style, ps)[k])
      {
        StarStepInBand(ps[k]);
      }
    }
  }
}
