/** Projection and culling: rotate, divide by depth, keep what lands near the viewport. */
module Projection {
  import opened Types
  import opened Arith
  import opened Particles
  import opened Motion

  datatype Vec3 = Vec3(x: real, y: real, z: real)

  const FOCAL: real := 600.0
  /** Pixels beyond each viewport edge that still count as visible. */
  const MARGIN: real := 100.0

  /** Rotation about the vertical axis: `(x, z)` turned by the angle of `t`. */
  function Yaw(v: Vec3, t: Trig): (w: Vec3)
    ensures w.y == v.y
    ensures t == Trig(1.0, 0.0) ==> w == v
  {
    Vec3(v.x * t.c - v.z * t.s, v.y, v.x * t.s + v.z * t.c)
  }

  /** Rotation about the horizontal axis: `(y, z)` turned by the angle of `t`. */
  function Pitch(v: Vec3, t: Trig): (w: Vec3)
    ensures w.x == v.x
    ensures t == Trig(1.0, 0.0) ==> w == v
  {
    Vec3(v.x, v.y * t.c - v.z * t.s, v.y * t.s + v.z * t.c)
  }

  /** A plane rotation preserves the squared length of the pair it turns. */
  lemma PlaneRotation(a: real, b: real, t: Trig)
    requires t.OnUnitCircle()
    ensures (a * t.c - b * t.s) * (a * t.c - b * t.s) + (a * t.s + b * t.c) * (a * t.s + b * t.c)
         == a * a + b * b
  {
    var c, s := t.c, t.s;
    assert (a * c - b * s) * (a * c - b * s) == a * a * (c * c) - 2.0 * (a * b) * (c * s) + b * b * (s * s);
    assert (a * s + b * c) * (a * s + b * c) == a * a * (s * s) + 2.0 * (a * b) * (c * s) + b * b * (c * c);
    assert a * a * (c * c) + a * a * (s * s) == a * a * (c * c + s * s);
    assert b * b * (s * s) + b * b * (c * c) == b * b * (c * c + s * s);
  }

  /**
   * Yaw keeps `y` and `x^2 + z^2`, pitch keeps `x` and `y^2 + z^2`; so the
   * two together keep the distance from the origin.
   */
  lemma RotationsPreserveLength(v: Vec3, yaw: Trig, pitch: Trig)
    requires yaw.OnUnitCircle() && pitch.OnUnitCircle()
    ensures var w := Yaw(v, yaw);
      w.y == v.y && w.x * w.x + w.z * w.z == v.x * v.x + v.z * v.z
    ensures var w := Pitch(v, pitch);
      w.x == v.x && w.y * w.y + w.z * w.z == v.y * v.y + v.z * v.z
    ensures var w := Pitch(Yaw(v, yaw), pitch);
      w.x * w.x + w.y * w.y + w.z * w.z == v.x * v.x + v.y * v.y + v.z * v.z
  {
    PlaneRotation(v.x, v.z, yaw);
    PlaneRotation(v.y, v.z, pitch);
    var u := Yaw(v, yaw);
    PlaneRotation(u.y, u.z, pitch);
  }

  /** `focalLength / Math.max(1, focalLength + rz)`. */
  function Scale(rz: real): (s: real)
    ensures 0.0 < s <= FOCAL
  {
    QuotientBelow(FOCAL, Max(1.0, FOCAL + rz));
    FOCAL / Max(1.0, FOCAL + rz)
  }

  /**
   * The guarded divisor is at least 1, so the scale lies in (0, 600]; it is
   * 1 at depth 0, at most 1 behind the pivot, and 600 for every point at or
   * in front of the camera plane.
   */
  lemma ScaleRange(rz: real)
    ensures 0.0 < Scale(rz) <= FOCAL
    ensures rz == 0.0 ==> Scale(rz) == 1.0
    ensures 0.0 <= rz ==> Scale(rz) <= 1.0
    ensures rz <= 1.0 - FOCAL ==> Scale(rz) == FOCAL
  {
    var d := Max(1.0, FOCAL + rz);
    assert 1.0 <= d;
    if FOCAL <= d {
      DivMono(FOCAL, d, d);
    }
    assert FOCAL / d <= FOCAL by {
      assert (FOCAL - FOCAL / d) * d == FOCAL * d - FOCAL;
      MulLe(1.0, d, FOCAL);
      SignOfFactor(FOCAL - FOCAL / d, d);
    }
    assert 0.0 < FOCAL / d by {
      assert FOCAL / d * d == FOCAL;
      SignOfFactor(FOCAL / d, d);
    }
  }

  /** `Math.min(1, Math.max(0, 1 - rz / 1000))`: fully opaque in front, transparent from depth 1000. */
  function DepthAlpha(rz: real): (a: real)
    ensures 0.0 <= a <= 1.0
    ensures rz <= 0.0 ==> a == 1.0
    ensures 1000.0 <= rz ==> a == 0.0
    ensures 0.0 <= rz <= 1000.0 ==> a == 1.0 - rz / 1000.0
  {
    Min(1.0, Max(0.0, 1.0 - rz / 1000.0))
  }

  /** The visibility test: the screen point lies within 100 pixels of the viewport. */
  predicate InView(sx: real, sy: real, width: nat, height: nat) {
    -MARGIN < sx < width as real + MARGIN && -MARGIN < sy < height as real + MARGIN
  }

  /** One entry of `projectedParticles`; `src` is the index of its particle in the store. */
  datatype Projected = Projected(sx: real, sy: real, size: real, scale: real, alpha: real, src: nat)

  /** Yaw then pitch applied to a particle's position. */
  function Rotated(p: Particle, yaw: Trig, pitch: Trig): Vec3 {
    Pitch(Yaw(Vec3(p.x, p.y, p.z), yaw), pitch)
  }

  /** The screen point `(rx * scale + width / 2, ry * scale + height / 2)` of a particle. */
  function ScreenPoint(p: Particle, yaw: Trig, pitch: Trig, width: nat, height: nat): (real, real) {
    var r := Rotated(p, yaw, pitch);
    (r.x * Scale(r.z) + width as real / 2.0, r.y * Scale(r.z) + height as real / 2.0)
  }

  /**
   * Rotation, perspective division and the visibility test for particle `k`:
   * kept exactly when its screen point passes the test, and then carrying that
   * point, its scaled size, the scale and the depth alpha.
   */
  function Project(p: Particle, k: nat, yaw: Trig, pitch: Trig, width: nat, height: nat): (o: Option<Projected>)
    ensures var pt := ScreenPoint(p, yaw, pitch, width, height);
      o.Some? <==> InView(pt.0, pt.1, width, height)
    ensures o.Some? ==>
      var r := Rotated(p, yaw, pitch);
      var pt := ScreenPoint(p, yaw, pitch, width, height);
      o.value == Projected(pt.0, pt.1, p.size * Scale(r.z), Scale(r.z), DepthAlpha(r.z), k)
    ensures o.Some? ==>
      0.0 <= o.value.alpha <= 1.0 && 0.0 < o.value.scale <= FOCAL && o.value.size == p.size * o.value.scale
  {
    var r := Rotated(p, yaw, pitch);
    ScaleRange(r.z);
    var scale := Scale(r.z);
    var pt := ScreenPoint(p, yaw, pitch, width, height);
    if InView(pt.0, pt.1, width, height) then
      Some(Projected(pt.0, pt.1, p.size * scale, scale, DepthAlpha(r.z), k))
    else
      None
  }

  /** A particle at the pivot, seen head-on, lands at the centre of the viewport at scale 1. */
  lemma PivotProjectsToCentre(p: Particle, k: nat, yaw: Trig, pitch: Trig, width: nat, height: nat)
    requires p.x == 0.0 && p.y == 0.0 && p.z == 0.0
    ensures Project(p, k, yaw, pitch, width, height).Some?
    ensures var q := Project(p, k, yaw, pitch, width, height).value;
      q.sx == width as real / 2.0 && q.sy == height as real / 2.0 && q.scale == 1.0 && q.alpha == 1.0
  {
    assert Rotated(p, yaw, pitch) == Vec3(0.0, 0.0, 0.0);
    ScaleRange(0.0);
  }

  /** The projected list after the first `n` particles of the frame. */
  function VisibleUpTo(ps: seq<Particle>, yaws: seq<Trig>, pitch: Trig, width: nat, height: nat, n: nat): (vs: seq<Projected>)
    requires |yaws| == |ps| && n <= |ps|
    ensures |vs| <= n
    ensures forall a :: 0 <= a < |vs| ==> vs[a].src < n
    decreases n
  {
    if n == 0 then []
    else
      var rest := VisibleUpTo(ps, yaws, pitch, width, height, n - 1);
      match Project(ps[n - 1], n - 1, yaws[n - 1], pitch, width, height)
      case Some(q) => rest + [q]
      case None => rest
  }

  /** The whole projected list of a frame. */
  function Visible(ps: seq<Particle>, yaws: seq<Trig>, pitch: Trig, width: nat, height: nat): (vs: seq<Projected>)
    requires |yaws| == |ps|
    ensures |vs| <= |ps|
    ensures forall a :: 0 <= a < |vs| ==> vs[a].src < |ps|
  {
    VisibleUpTo(ps, yaws, pitch, width, height, |ps|)
  }

  /**
   * The projected list holds, in store order, exactly the particles whose
   * projection lands near the viewport: its sources are strictly increasing,
   * each entry is the projection of its source, and every particle that
   * passes the test appears. So it is never longer than the store.
   */
  lemma {:induction false} VisibleIsOrderedFilter(ps: seq<Particle>, yaws: seq<Trig>, pitch: Trig,
                                                  width: nat, height: nat, n: nat)
    requires |yaws| == |ps| && n <= |ps|
    ensures var vs := VisibleUpTo(ps, yaws, pitch, width, height, n);
      |vs| <= n &&
      (forall a, b :: 0 <= a < b < |vs| ==> vs[a].src < vs[b].src) &&
      (forall a :: 0 <= a < |vs| ==>
        (vs[a].src < n &&
         Project(ps[vs[a].src], vs[a].src, yaws[vs[a].src], pitch, width, height) == Some(vs[a]))) &&
      (forall k :: 0 <= k < n && Project(ps[k], k, yaws[k], pitch, width, height).Some? ==>
        Project(ps[k], k, yaws[k], pitch, width, height).value in vs)
    decreases n
  {
    if n > 0 {
      VisibleIsOrderedFilter(ps, yaws, pitch, width, height, n - 1);
    }
  }

  /** Every entry of a projected list has an alpha in [0, 1] and a scale in (0, 600]. */
  lemma VisibleEntriesBounded(ps: seq<Particle>, yaws: seq<Trig>, pitch: Trig, width: nat, height: nat)
    requires |yaws| == |ps|
    ensures var vs := Visible(ps, yaws, pitch, width, height);
      forall a :: 0 <= a < |vs| ==> 0.0 <= vs[a].alpha <= 1.0 && 0.0 < vs[a].scale <= FOCAL
  {
    var vs := Visible(ps, yaws, pitch, width, height);
    VisibleIsOrderedFilter(ps, yaws, pitch, width, height, |ps|);
    forall a | 0 <= a < |vs|
      ensures 0.0 <= vs[a].alpha <= 1.0 && 0.0 < vs[a].scale <= FOCAL
    {
      var k := vs[a].src;
      assert Project(ps[k], k, yaws[k], pitch, width, height) == Some(vs[a]);
    }
  }

  /**
   * Particle `k` has an entry in the projected list exactly when its screen
   * point lies within 100 pixels of the viewport, and then that entry carries
   * the point.
   */
  lemma VisibleExactlyInView(ps: seq<Particle>, yaws: seq<Trig>, pitch: Trig, width: nat, height: nat, k: nat)
    requires |yaws| == |ps| && k < |ps|
    ensures var vs := Visible(ps, yaws, pitch, width, height);
      var pt := ScreenPoint(ps[k], yaws[k], pitch, width, height);
      (exists a :: 0 <= a < |vs| && vs[a].src == k) <==> InView(pt.0, pt.1, width, height)
    ensures var vs := Visible(ps, yaws, pitch, width, height);
      var pt := ScreenPoint(ps[k], yaws[k], pitch, width, height);
      forall a :: 0 <= a < |vs| && vs[a].src == k ==> vs[a].sx == pt.0 && vs[a].sy == pt.1
  {
    var vs := Visible(ps, yaws, pitch, width, height);
    VisibleIsOrderedFilter(ps, yaws, pitch, width, height, |ps|);
    var o := Project(ps[k], k, yaws[k], pitch, width, height);
    if o.Some? {
      var a :| 0 <= a < |vs| && vs[a] == o.value;
      assert vs[a].src == k;
    }
  }
}
