/**
 * The pass over the projected list in `draw`: one dot per entry and, for
 * the connecting styles, a line to each of the next entries of a 15-wide
 * window that lies closer than the style's limit.
 */
module Connections {
  import opened Types
  import opened Arith
  import opened Hex
  import opened Projection

  /** Entry `i` is compared with the entries before index `i + 15`. */
  const WINDOW: nat := 15
  /** The connection limit of the dna and lattice styles. */
  const FIXED_LIMIT: real := 80.0
  const LINE_FADE: real := 0.4
  const MIN_WIDTH: real := 0.1

  /** `root` is the square root on the non-negative reals (`Math.sqrt`). */
  ghost predicate IsSqrt(root: real -> real) {
    forall x :: 0.0 <= x ==> 0.0 <= root(x) && root(x) * root(x) == x
  }

  /** The styles whose particles are linked: plexus, dna and lattice. */
  predicate Connects(style: Style) {
    style in {Plexus, Dna, Lattice}
  }

  /** `connectionDistance` for plexus, 80 for the other styles. */
  function Limit(cfg: Config): real {
    if cfg.style == Plexus then cfg.connectionDistance else FIXED_LIMIT
  }

  /** `Math.min(i + 15, n)`: the end of entry `i`'s window. */
  function WindowEnd(i: nat, n: nat): nat {
    if i + WINDOW <= n then i + WINDOW else n
  }

  /** The squared screen distance `dx * dx + dy * dy` between two entries. */
  function SqDist(a: Projected, b: Projected): real {
    (a.sx - b.sx) * (a.sx - b.sx) + (a.sy - b.sy) * (a.sy - b.sy)
  }

  /** The screen distance between two entries, `Math.sqrt(dx * dx + dy * dy)`. */
  function Dist(root: real -> real, a: Projected, b: Projected): real {
    root(SqDist(a, b))
  }

  /** Whether the line from entry `i` to entry `j` is drawn (`dist < limit`). */
  predicate Linked(pts: seq<Projected>, cfg: Config, root: real -> real, i: nat, j: nat)
    requires i < |pts| && j < |pts|
  {
    Dist(root, pts[i], pts[j]) < Limit(cfg)
  }

  /** A line compares squared distances: drawn iff `dx^2 + dy^2 < limit^2`, and never for a limit that is not positive. */
  lemma LinkedBySquaredDistance(pts: seq<Projected>, cfg: Config, root: real -> real, i: nat, j: nat)
    requires IsSqrt(root) && i < |pts| && j < |pts|
    ensures Linked(pts, cfg, root, i, j) <==>
      0.0 < Limit(cfg) && SqDist(pts[i], pts[j]) < Limit(cfg) * Limit(cfg)
  {
    var dx, dy := pts[i].sx - pts[j].sx, pts[i].sy - pts[j].sy;
    SquareNonneg(dx);
    SquareNonneg(dy);
    var sq := SqDist(pts[i], pts[j]);
    assert 0.0 <= sq;
    RootBelow(root(sq), sq, Limit(cfg));
  }

  /** The alpha byte of a drawn line, `Math.floor((1 - dist / limit) * a1 * a2 * 0.4 * 255)`. */
  function LineAlpha(dist: real, limit: real, a1: real, a2: real): real
    requires 0.0 <= dist < limit
  {
    (1.0 - dist / limit) * a1 * a2 * LINE_FADE
  }

  /** A drawn line's opacity lies in [0, 0.4], so its alpha byte lies in [0, 102]. */
  lemma LineAlphaRange(dist: real, limit: real, a1: real, a2: real)
    requires 0.0 <= dist < limit
    requires 0.0 <= a1 <= 1.0 && 0.0 <= a2 <= 1.0
    ensures 0.0 <= LineAlpha(dist, limit, a1, a2) <= LINE_FADE
    ensures 0 <= AlphaByte(LineAlpha(dist, limit, a1, a2)) <= 102
  {
    DivMono(0.0, dist, limit);
    var f := 1.0 - dist / limit;
    assert 0.0 < f <= 1.0;
    MulUnitInterval(f, a1);
    MulUnitInterval(f * a1, a2);
    var la := LineAlpha(dist, limit, a1, a2);
    MulLe(0.0, f * a1 * a2, LINE_FADE);
    MulLe(f * a1 * a2, 1.0, LINE_FADE);
    MulLe(la, LINE_FADE, 255.0);
  }

  /** One stroked segment: the two entries it joins, its alpha byte, base colour and width. */
  datatype Line = Line(from: nat, to: nat, alpha: nat, color: string, width: real)
  {
    /** The `strokeStyle` string, `${color}${hex}`. */
    function Stroke(): string
      requires alpha < 256
    {
      FillStyle(color, alpha)
    }
  }

  /** A dot: the filled circle drawn for every entry. */
  datatype Dot = Dot(sx: real, sy: real, radius: real, alpha: nat, color: string)
  {
    /** The `fillStyle` string, `${color}${hex}`. */
    function Fill(): string
      requires alpha < 256
    {
      FillStyle(color, alpha)
    }
  }

  /** Every entry of the projected list has an alpha in [0, 1]. */
  predicate AlphasInRange(pts: seq<Projected>) {
    forall k :: 0 <= k < |pts| ==> 0.0 <= pts[k].alpha <= 1.0
  }

  /** The line drawn from entry `i` to entry `j`. */
  function LineOf(pts: seq<Projected>, cfg: Config, root: real -> real, i: nat, j: nat): (l: Line)
    requires IsSqrt(root) && AlphasInRange(pts) && i < |pts| && j < |pts|
    requires Linked(pts, cfg, root, i, j)
    ensures l.from == i && l.to == j && l.color == cfg.color
    ensures l.alpha as int == AlphaByte(LineAlpha(Dist(root, pts[i], pts[j]), Limit(cfg), pts[i].alpha, pts[j].alpha))
    ensures l.width == Max(MIN_WIDTH, cfg.lineWidth * pts[i].scale)
    ensures l.alpha <= 102 && l.width >= MIN_WIDTH
  {
    var d := Dist(root, pts[i], pts[j]);
    LinkedBySquaredDistance(pts, cfg, root, i, j);
    var la := LineAlpha(d, Limit(cfg), pts[i].alpha, pts[j].alpha);
    LineAlphaRange(d, Limit(cfg), pts[i].alpha, pts[j].alpha);
    var b := AlphaByte(la);
    Line(i, j, b, cfg.color, Max(MIN_WIDTH, cfg.lineWidth * pts[i].scale))
  }

  /** The dot drawn for entry `k`: radius at least 0.1, depth alpha as a byte. */
  function DotOf(q: Projected, color: string): (d: Dot)
    requires 0.0 <= q.alpha <= 1.0
    ensures d.sx == q.sx && d.sy == q.sy && d.color == color
    ensures d.alpha as int == AlphaByte(q.alpha) && d.radius == Max(MIN_WIDTH, q.size)
    ensures d.alpha <= 255 && d.radius >= MIN_WIDTH
  {
    var b := AlphaByte(q.alpha);
    Dot(q.sx, q.sy, Max(MIN_WIDTH, q.size), b, color)
  }

  /** A drawn connection, as the indices of the two entries it joins. */
  datatype Link = Link(from: nat, to: nat)

  /** The links entry `i` makes to the entries in `[i + 1, j)`. */
  function RowUpTo(pts: seq<Projected>, cfg: Config, root: real -> real, i: nat, j: nat): seq<Link>
    requires i < |pts| && i + 1 <= j <= WindowEnd(i, |pts|)
    decreases j
  {
    if j == i + 1 then []
    else
      var rest := RowUpTo(pts, cfg, root, i, j - 1);
      if Linked(pts, cfg, root, i, j - 1) then rest + [Link(i, j - 1)] else rest
  }

  /** The links entry `i` makes. */
  function Row(pts: seq<Projected>, cfg: Config, root: real -> real, i: nat): seq<Link>
    requires i < |pts|
  {
    if Connects(cfg.style) then RowUpTo(pts, cfg, root, i, WindowEnd(i, |pts|)) else []
  }

  /** The links of the entries before `n`, in drawing order. */
  function LinksUpTo(pts: seq<Projected>, cfg: Config, root: real -> real, n: nat): seq<Link>
    requires n <= |pts|
    decreases n
  {
    if n == 0 then [] else LinksUpTo(pts, cfg, root, n - 1) + Row(pts, cfg, root, n - 1)
  }

  /** A link that the pass can make: inside the window of its first entry and close enough. */
  predicate InWindowAndClose(pts: seq<Projected>, cfg: Config, root: real -> real, l: Link) {
    l.from < l.to < WindowEnd(l.from, |pts|) && Linked(pts, cfg, root, l.from, l.to)
  }

  /** Every link of a row joins `i` to a later entry of its window that is close enough, and all such appear. */
  lemma {:induction false} RowExact(pts: seq<Projected>, cfg: Config, root: real -> real, i: nat, j: nat)
    requires i < |pts| && i + 1 <= j <= WindowEnd(i, |pts|)
    ensures forall l :: l in RowUpTo(pts, cfg, root, i, j) ==>
      l.from == i && l.to < j && InWindowAndClose(pts, cfg, root, l)
    ensures forall k: nat :: i < k < j && Linked(pts, cfg, root, i, k) ==> Link(i, k) in RowUpTo(pts, cfg, root, i, j)
    decreases j
  {
    if j > i + 1 {
      RowExact(pts, cfg, root, i, j - 1);
    }
  }

  /**
   * The links drawn are exactly the pairs `(i, j)` with `i < j < min(i + 15, n)`
   * whose distance is below the style's limit, and only for plexus, dna and
   * lattice: at most 14 candidates per entry, all later ones, none out of bounds.
   */
  lemma {:induction false} LinksExact(pts: seq<Projected>, cfg: Config, root: real -> real, n: nat)
    requires n <= |pts|
    ensures forall l :: l in LinksUpTo(pts, cfg, root, n) ==>
      Connects(cfg.style) && l.from < n && l.to - l.from < WINDOW && InWindowAndClose(pts, cfg, root, l)
    ensures forall i: nat, j: nat ::
      (Connects(cfg.style) && i < n && InWindowAndClose(pts, cfg, root, Link(i, j))) ==>
        Link(i, j) in LinksUpTo(pts, cfg, root, n)
    decreases n
  {
    if n > 0 {
      LinksExact(pts, cfg, root, n - 1);
      if Connects(cfg.style) {
        RowExact(pts, cfg, root, n - 1, WindowEnd(n - 1, |pts|));
      }
    }
  }

  /** The styled lines for a sequence of links. */
  function LinesFor(pts: seq<Projected>, cfg: Config, root: real -> real, links: seq<Link>): (ls: seq<Line>)
    requires IsSqrt(root) && AlphasInRange(pts)
    requires forall k :: 0 <= k < |links| ==> InWindowAndClose(pts, cfg, root, links[k])
    ensures |ls| == |links|
  {
    seq(|links|, k requires 0 <= k < |links| =>
      assert InWindowAndClose(pts, cfg, root, links[k]);
      LineOf(pts, cfg, root, links[k].from, links[k].to))
  }

  /** The lines entry `i` draws to the entries in `[i + 1, j)`, in scan order. */
  function RowLines(pts: seq<Projected>, cfg: Config, root: real -> real, i: nat, j: nat): seq<Line>
    requires IsSqrt(root) && AlphasInRange(pts) && i < |pts| && i + 1 <= j <= WindowEnd(i, |pts|)
    decreases j
  {
    if j == i + 1 then []
    else
      var rest := RowLines(pts, cfg, root, i, j - 1);
      if Linked(pts, cfg, root, i, j - 1) then rest + [LineOf(pts, cfg, root, i, j - 1)] else rest
  }

  /** The lines of the entries before `n`, in drawing order. */
  function LinesBefore(pts: seq<Projected>, cfg: Config, root: real -> real, n: nat): seq<Line>
    requires IsSqrt(root) && AlphasInRange(pts) && n <= |pts|
    decreases n
  {
    if n == 0 then []
    else if Connects(cfg.style) then LinesBefore(pts, cfg, root, n - 1) + RowLines(pts, cfg, root, n - 1, WindowEnd(n - 1, |pts|))
    else LinesBefore(pts, cfg, root, n - 1)
  }

  /** The lines of a frame. */
  function Lines(pts: seq<Projected>, cfg: Config, root: real -> real): seq<Line>
    requires IsSqrt(root) && AlphasInRange(pts)
  {
    LinesBefore(pts, cfg, root, |pts|)
  }

  /** The dots of the entries before `n`, in list order. */
  function DotsBefore(pts: seq<Projected>, color: string, n: nat): seq<Dot>
    requires AlphasInRange(pts) && n <= |pts|
  {
    if n == 0 then [] else DotsBefore(pts, color, n - 1) + [DotOf(pts[n - 1], color)]
  }

  /** The dots of a frame. */
  function Dots(pts: seq<Projected>, color: string): seq<Dot>
    requires AlphasInRange(pts)
  {
    DotsBefore(pts, color, |pts|)
  }

  /** One dot per entry, in list order: dot `k` is drawn for entry `k`. */
  lemma {:induction false} DotsPerEntry(pts: seq<Projected>, color: string, n: nat)
    requires AlphasInRange(pts) && n <= |pts|
    ensures |DotsBefore(pts, color, n)| == n
    ensures forall k :: 0 <= k < n ==> DotsBefore(pts, color, n)[k] == DotOf(pts[k], color)
  {
    if n > 0 {
      DotsPerEntry(pts, color, n - 1);
    }
  }

  lemma LinesForConcat(pts: seq<Projected>, cfg: Config, root: real -> real, a: seq<Link>, b: seq<Link>)
    requires IsSqrt(root) && AlphasInRange(pts)
    requires forall k :: 0 <= k < |a| ==> InWindowAndClose(pts, cfg, root, a[k])
    requires forall k :: 0 <= k < |b| ==> InWindowAndClose(pts, cfg, root, b[k])
    ensures forall k :: 0 <= k < |a + b| ==> InWindowAndClose(pts, cfg, root, (a + b)[k])
    ensures LinesFor(pts, cfg, root, a + b) == LinesFor(pts, cfg, root, a) + LinesFor(pts, cfg, root, b)
  {
    var ab := a + b;
    var la, lb, lab := LinesFor(pts, cfg, root, a), LinesFor(pts, cfg, root, b), LinesFor(pts, cfg, root, ab);
    forall k | 0 <= k < |ab|
      ensures lab[k] == (la + lb)[k]
    {
      if k < |a| {
        assert ab[k] == a[k];
      } else {
        assert ab[k] == b[k - |a|];
      }
    }
  }

  /** The lines of a row are the styled lines of its links, in the same order. */
  lemma {:induction false} RowLinesOfLinks(pts: seq<Projected>, cfg: Config, root: real -> real, i: nat, j: nat)
    requires IsSqrt(root) && AlphasInRange(pts) && i < |pts| && i + 1 <= j <= WindowEnd(i, |pts|)
    ensures forall k :: 0 <= k < |RowUpTo(pts, cfg, root, i, j)| ==> InWindowAndClose(pts, cfg, root, RowUpTo(pts, cfg, root, i, j)[k])
    ensures RowLines(pts, cfg, root, i, j) == LinesFor(pts, cfg, root, RowUpTo(pts, cfg, root, i, j))
    decreases j
  {
    RowExact(pts, cfg, root, i, j);
    if j > i + 1 {
      RowLinesOfLinks(pts, cfg, root, i, j - 1);
      if Linked(pts, cfg, root, i, j - 1) {
        LinesForConcat(pts, cfg, root, RowUpTo(pts, cfg, root, i, j - 1), [Link(i, j - 1)]);
      }
    }
  }

  /** The lines of the entries before `n` are the styled lines of their links, in the same order. */
  lemma {:induction false} LinesOfLinks(pts: seq<Projected>, cfg: Config, root: real -> real, n: nat)
    requires IsSqrt(root) && AlphasInRange(pts) && n <= |pts|
    ensures forall k :: 0 <= k < |LinksUpTo(pts, cfg, root, n)| ==> InWindowAndClose(pts, cfg, root, LinksUpTo(pts, cfg, root, n)[k])
    ensures LinesBefore(pts, cfg, root, n) == LinesFor(pts, cfg, root, LinksUpTo(pts, cfg, root, n))
    decreases n
  {
    LinksExact(pts, cfg, root, n);
    if n > 0 {
      LinesOfLinks(pts, cfg, root, n - 1);
      if Connects(cfg.style) {
        RowLinesOfLinks(pts, cfg, root, n - 1, WindowEnd(n - 1, |pts|));
        LinesForConcat(pts, cfg, root, LinksUpTo(pts, cfg, root, n - 1), Row(pts, cfg, root, n - 1));
      }
    }
  }

  /**
   * The lines of a frame are exactly the lines from an entry `i` to a later
   * entry `j < min(i + 15, n)` closer than the style's limit, only for the
   * connecting styles; each has width at least 0.1 and an alpha byte of at
   * most 102 that its stroke string carries as two hex digits.
   */
  lemma DrawnLines(pts: seq<Projected>, cfg: Config, root: real -> real)
    requires IsSqrt(root) && AlphasInRange(pts)
    ensures forall ln :: ln in Lines(pts, cfg, root) ==>
      Connects(cfg.style) && ln.from < ln.to < WindowEnd(ln.from, |pts|) && ln.to - ln.from < WINDOW &&
      Linked(pts, cfg, root, ln.from, ln.to) && ln == LineOf(pts, cfg, root, ln.from, ln.to)
    ensures forall i: nat, j: nat :: Connects(cfg.style) && i < j < WindowEnd(i, |pts|) && Linked(pts, cfg, root, i, j) ==>
      LineOf(pts, cfg, root, i, j) in Lines(pts, cfg, root)
    ensures forall ln :: ln in Lines(pts, cfg, root) ==>
      ln.alpha <= 102 && ln.width >= MIN_WIDTH && |ln.Stroke()| == |cfg.color| + 2 &&
      ln.Stroke()[..|cfg.color|] == cfg.color && ParseHex(ln.Stroke()[|cfg.color|..]) == ln.alpha
  {
    var n := |pts|;
    var links := LinksUpTo(pts, cfg, root, n);
    LinesOfLinks(pts, cfg, root, n);
    LinksExact(pts, cfg, root, n);
    var lines := Lines(pts, cfg, root);
    assert lines == LinesFor(pts, cfg, root, links);
    forall ln | ln in lines
      ensures Connects(cfg.style) && ln.from < ln.to < WindowEnd(ln.from, |pts|) && ln.to - ln.from < WINDOW
      ensures Linked(pts, cfg, root, ln.from, ln.to) && ln == LineOf(pts, cfg, root, ln.from, ln.to)
    {
      var k :| 0 <= k < |lines| && lines[k] == ln;
      assert links[k] in links;
    }
    forall i: nat, j: nat | Connects(cfg.style) && i < j < WindowEnd(i, |pts|) && Linked(pts, cfg, root, i, j)
      ensures LineOf(pts, cfg, root, i, j) in lines
    {
      assert Link(i, j) in links;
      var k :| 0 <= k < |links| && links[k] == Link(i, j);
      assert lines[k] == LineOf(pts, cfg, root, i, j);
    }
  }

  /** One dot per entry, in list order, each with an alpha byte its fill string carries as two hex digits. */
  lemma DrawnDots(pts: seq<Projected>, color: string)
    requires AlphasInRange(pts)
    ensures |Dots(pts, color)| == |pts|
    ensures forall k :: 0 <= k < |pts| ==> Dots(pts, color)[k] == DotOf(pts[k], color)
    ensures forall d :: d in Dots(pts, color) ==>
      d.alpha <= 255 && d.radius >= MIN_WIDTH && |d.Fill()| == |color| + 2 &&
      d.Fill()[..|color|] == color && ParseHex(d.Fill()[|color|..]) == d.alpha
  {
    DotsPerEntry(pts, color, |pts|);
  }

  /** The inner loop `for (j = i + 1; j < Math.min(i + 15, n); j++)` of entry `i`. */
  method ScanWindow(pts: seq<Projected>, cfg: Config, root: real -> real, i: nat) returns (row: seq<Line>)
    requires IsSqrt(root) && AlphasInRange(pts) && i < |pts|
    ensures row == RowLines(pts, cfg, root, i, WindowEnd(i, |pts|))
  {
    row := [];
    var j := i + 1;
    while j < WindowEnd(i, |pts|)
      invariant i + 1 <= j <= WindowEnd(i, |pts|)
      invariant row == RowLines(pts, cfg, root, i, j)
    {
      var dist := Dist(root, pts[i], pts[j]);
      var limit := Limit(cfg);
      if dist < limit {
        row := row + [LineOf(pts, cfg, root, i, j)];
      }
      j := j + 1;
    }
  }

  /**
   * The loop over `projectedParticles`: a dot for each entry, then, for the
   * connecting styles, the window scan of that entry.
   */
  method Render(pts: seq<Projected>, cfg: Config, root: real -> real) returns (dots: seq<Dot>, lines: seq<Line>)
    requires IsSqrt(root) && AlphasInRange(pts)
    ensures dots == Dots(pts, cfg.color)
    ensures lines == Lines(pts, cfg, root)
  {
    dots, lines := [], [];
    var i := 0;
    while i < |pts|
      invariant 0 <= i <= |pts|
      invariant dots == DotsBefore(pts, cfg.color, i)
      invariant lines == LinesBefore(pts, cfg, root, i)
    {
      dots := dots + [DotOf(pts[i], cfg.color)];
      if Connects(cfg.style) {
        var row := ScanWindow(pts, cfg, root, i);
        lines := lines + row;
      }
      assert lines == LinesBefore(pts, cfg, root, i + 1);
      i := i + 1;
    }
  }
}
