# CodeRush background: a verified model of the per-frame simulation

This project models the animated canvas background of the CodeRush
component (`components/CodeRushBackground.tsx`): the two stores it builds on
every resize, and the `draw` frame that updates them in place.

- `initParticles` builds the particle store. It has one layout per animation style:
  - a random box (plexus, flow, matrix, boids);
  - two mirrored helix strands (dna);
  - an integer grid split with div/mod (lattice);
  - a deep random field moving toward the viewer (stars).
- `initMatrix` builds the rain store: one column per 20-pixel slot, each
  carrying 15 glyphs of the `MATRIX_CHARS` alphabet.
- `draw` runs one frame:
  - it eases the camera rotation 5% toward a pointer-driven target;
  - it lets every rain column fall, wrap and recycle a glyph;
  - it steps each particle by style (stars fly in; plexus and boids drift and wrap at ±500; the others stay put);
  - it rotates, perspective-projects and culls each particle into the projected list;
  - it draws a dot per entry;
  - for plexus, dna and lattice it draws a line between entries at most 14 places apart whose screen distance is below the style's limit. The line's alpha byte is formatted as two hex digits.

The modules follow the pieces of the component:

| module | file | contents |
|---|---|---|
| `Types` | types.dfy | styles, the configuration fields read, random draws, cosine/sine pairs |
| `Arith` | arith.dfy | multiplication and division facts used by the proofs |
| `Hex` | hex.dfy | `toString(16)`, `padStart`, alpha bytes and colour strings |
| `Particles` | particles.dfy | `initParticles` and its layouts |
| `Rain` | rain.dfy | `initMatrix` and the column update |
| `Motion` | motion.dfy | the per-particle step |
| `Camera` | camera.dfy | rotation smoothing |
| `Projection` | projection.dfy | rotation, perspective, culling and the projected list |
| `Connections` | connections.dfy | dots, the windowed connection scan, line alphas |
| `Scene` | scene.dfy | the `Background` class: the stores as arrays, the rotation fields, resize and `draw` |

JavaScript numbers are modelled as reals. `Math.floor` is `.Floor`.

Four kinds of value come from the host, so the model takes them as inputs:

- every `Math.random()` value is a `Draw`, a real in [0, 1);
- each cosine/sine pair is a `Trig`, and lemmas that need it assume `c² + s² = 1`;
- `Math.sqrt` is a function argument `root`, and the members that use it require `IsSqrt(root)`;
- the lattice side, which the code computes as `Math.ceil(Math.pow(count, 1/3))`, is a parameter `side` with `side ≥ 1` and `side³ ≥ count`.

Inside the particle loop of `draw`, `Date.now()` is read once per particle. So the yaw is one `Trig` per particle and the pitch is one `Trig` per frame.

### Behaviour of the code worth knowing

- The pointer never attracts or repels particles; it only sets the camera target.
- The camera target has no tilt term.
- No particle is dropped for being close to the camera; the only guard is the divisor `max(1, 600 + rz)`.
- The lattice spacing is 100.
- Stars move by `2·vz` and are reset to depth 1000 only once their depth is below 0.
- Flow, matrix, dna and lattice particles never move.
- A new rain column starts with a speed in [1, 4); a wrapped one gets a speed in [2, 5).
- A glyph is recycled only when a draw exceeds 0.95.
- The pointer offset is used raw, not smoothed.
- Any change of configuration re-runs the effect, which rebuilds both stores and keeps the rotation.
- `DEFAULT_CONFIG` (constants.ts:4-14) omits the `tilt` field that `AnimationConfig` requires; neither `tilt` nor `glowSize` is read by the simulation.

## Model

| member | source | states |
|---|---|---|
| Hex.ToHex | components/CodeRushBackground.tsx:102 | `toString(16)` of a non-negative integer is a non-empty string of hex digits; it has one digit exactly below 16, and two digits for 16..255 |
| Hex.ParseToHex | components/CodeRushBackground.tsx:155 | the hex string of `n` reads back as `n` |
| Hex.PadStart | components/CodeRushBackground.tsx:155 | `padStart` reaches the requested length, keeps the string as its suffix and fills only the front |
| Hex.AlphaHexTwoDigits | components/CodeRushBackground.tsx:155 | every byte in [0, 255] formats as exactly two hex digits that read back as the byte |
| Hex.AlphaByte | components/CodeRushBackground.tsx:155 | `floor(alpha·255)` is the largest integer not above `alpha·255`; it lies in [0, 255] for alpha in [0, 1] and is 255 at alpha 1 |
| Hex.AlphaHex | components/CodeRushBackground.tsx:155 | the two-character suffix `toString(16).padStart(2, '0')`; its format is proved by `AlphaHexTwoDigits` |
| Hex.FillStyle | components/CodeRushBackground.tsx:156 | the style string is the colour followed by two hex digits that read back as the alpha byte |
| Rain.Glyph | components/CodeRushBackground.tsx:65 | a random index into the alphabet always picks a glyph of `MATRIX_CHARS` |
| Rain.ColumnCount | components/CodeRushBackground.tsx:60 | `width / 20` columns once the width is at least 20, and exactly one below that |
| Rain.NewColumn | components/CodeRushBackground.tsx:61-66 | a new column sits in slot `i` with 15 glyphs of the alphabet, starts at a height in (−1000, 0] and falls at a speed in [1, 4) |
| Rain.InitMatrix | components/CodeRushBackground.tsx:59-66 | `max(1, floor(width/20))` columns; column `i` sits at `x = 20·i` with 15 glyphs of the alphabet, a start height in (−1000, 0] and a speed in [1, 4) |
| Rain.SlotsTile | components/CodeRushBackground.tsx:62 | the column slots cover `[0, 20·count)` with no gap and no overlap |
| Rain.Recycle | components/CodeRushBackground.tsx:107 | `unshift` then `pop` keeps the length, puts the new glyph first and moves glyph `k` to `k + 1` |
| Rain.TickColumn | components/CodeRushBackground.tsx:105-107 | a column falls by its speed; past `height + 300` it restarts at −100 with a speed in [2, 5); its glyphs are recycled exactly when the draw exceeds 0.95 and unchanged otherwise |
| Rain.TickKeepsColumn | components/CodeRushBackground.tsx:105-107 | a tick keeps a column in its slot, with 15 glyphs of the alphabet and a speed in [1, 5) |
| Rain.TickAll | components/CodeRushBackground.tsx:99-108 | the rain pass applies the column update to every column; each column keeps its slot and its number of glyphs |
| Rain.TickAllKeepsStore | components/CodeRushBackground.tsx:99-108 | the rain pass keeps the whole column store well formed |
| Rain.GlyphAlpha | components/CodeRushBackground.tsx:101 | glyph `i` of a column has an opacity in (0, 0.15] |
| Rain.GlyphAlphaFades | components/CodeRushBackground.tsx:101-102 | glyph opacities lie in (0, 0.15], never increase along the column, and give alpha bytes in [0, 38] |
| Particles.CenteredRange | components/CodeRushBackground.tsx:19-21 | `(random − 0.5)·e` lies in `[−e/2, e/2)` |
| Particles.Placement | components/CodeRushBackground.tsx:19-45 | definition of the start position per style; its properties are proved by `LatticePlacement`, `DnaOnHelix`, `DnaHeights`, `StarsPlacement` and `BoxPlacement` |
| Particles.NewParticle | components/CodeRushBackground.tsx:47-55 | definition of one particle: its placement, copied into `ox/oy/oz`, with drawn velocities, size and angle; its properties are proved by `InitParticles` |
| Particles.LatticeCell | components/CodeRushBackground.tsx:33-35 | definition of the grid coordinates `i % s`, `floor(i/s) % s`, `floor(i/s²)`; their range and injectivity are proved by `LatticeCellInRange` and `LatticeCellInjective` |
| Particles.HelixHeight | components/CodeRushBackground.tsx:28 | definition of the helix height `(i/n − 0.5)·h·0.8`; its range and monotonicity are proved by `HelixHeightRange` |
| Particles.InitParticles | components/CodeRushBackground.tsx:17-56 | exactly `particleCount` particles; each starts at its original position; `vz` is `−speed` under stars and `(random − 0.5)·speed` otherwise; `vx`, `vy` are drawn the same way; sizes lie in [1, 3) |
| Particles.LatticeCellInRange | components/CodeRushBackground.tsx:32-35 | for `i < s³` each grid coordinate lies in [0, s), and `ix + s·iy + s²·iz = i` |
| Particles.LatticeCellInjective | components/CodeRushBackground.tsx:33-35 | distinct indices get distinct grid cells |
| Particles.LatticePlacement | components/CodeRushBackground.tsx:31-40 | for every lattice store, including a single particle: no two particles share a start position, coordinates lie in `[−s/2·100, s/2·100)`, and index 0 is at the corner |
| Particles.DnaOnHelix | components/CodeRushBackground.tsx:23-30 | dna particles lie on the circle of radius 150; even indices on one strand, odd ones on its mirror |
| Particles.HelixHeightRange | components/CodeRushBackground.tsx:28 | the helix height rises with the index and stays in `[−0.4·h, 0.4·h]` |
| Particles.DnaHeights | components/CodeRushBackground.tsx:28 | dna heights lie in `[−0.4·height, 0.4·height)` and rise with the index |
| Particles.StarsPlacement | components/CodeRushBackground.tsx:41-45 | stars start at a depth in [0, 1000) with `vz = −speed`, within twice the viewport around the centre |
| Particles.BoxPlacement | components/CodeRushBackground.tsx:19-21 | the box styles start inside `width × height × 1000` centred on the origin |
| Particles.InitialVelocities | components/CodeRushBackground.tsx:50-52 | for a non-negative speed every velocity component lies in `[−speed/2, speed/2]`, except `vz = −speed` under stars |
| Particles.DeterministicLayouts | components/CodeRushBackground.tsx:23-40 | dna and lattice positions do not depend on the random draws |
| Motion.Wrap | components/CodeRushBackground.tsx:120-122 | the wrapped value lies in [−500, 500]; below −500 gives 500, above 500 gives −500, in range is untouched |
| Motion.Step | components/CodeRushBackground.tsx:113-123 | stars: only z changes, by `2·vz`, reset to 1000 when negative; plexus/boids: each coordinate becomes `Wrap(position + velocity)` and the particle ends in the box with nothing else changed; other styles: unchanged |
| Motion.Advance | components/CodeRushBackground.tsx:114-123 | the statements of the step compute `Step` |
| Motion.StepAll | components/CodeRushBackground.tsx:113 | the step applied to every particle of the store, keeping its length |
| Motion.StarStepInBand | components/CodeRushBackground.tsx:114-116 | one stars frame keeps a depth in [0, 1000] with `vz ≤ 0` |
| Motion.StarsStayInBand | components/CodeRushBackground.tsx:114-116 | a star with depth in [0, 1000] and `vz ≤ 0` stays in that band for ever, and only its depth moves |
| Motion.BoxAfterFrames | components/CodeRushBackground.tsx:117-123 | after one or more plexus/boids frames the particle is in the box and its velocity is the original one |
| Motion.StaticStyles | components/CodeRushBackground.tsx:113-123 | flow, matrix, dna and lattice particles never move |
| Camera.Target | components/CodeRushBackground.tsx:93-94 | the target is zero exactly when the pointer offset is zero, and has its sign |
| Camera.Approach | components/CodeRushBackground.tsx:93-94 | the new rotation lies between the old one and the target, 0.95 times as far from the target; it stays put only at the target |
| Camera.ApproachGeometric | components/CodeRushBackground.tsx:93-94 | with the pointer still, after `n` frames the distance to the target is `0.95ⁿ` times the first one |
| Projection.Yaw | components/CodeRushBackground.tsx:129-133 | the yaw step keeps `y`, and the zero angle leaves the point unchanged |
| Projection.Pitch | components/CodeRushBackground.tsx:135-139 | the pitch step keeps `x`, and the zero angle leaves the point unchanged |
| Projection.PlaneRotation | components/CodeRushBackground.tsx:131-132 | a rotation step by a unit cosine/sine pair keeps the squared length of the pair it turns |
| Projection.RotationsPreserveLength | components/CodeRushBackground.tsx:125-139 | yaw keeps `y` and `x²+z²`, pitch keeps `x` and `y²+z²`, and together they keep the distance from the pivot |
| Projection.Scale | components/CodeRushBackground.tsx:142 | the guarded perspective scale lies in (0, 600] for every depth |
| Projection.ScaleRange | components/CodeRushBackground.tsx:142 | the scale lies in (0, 600]; it is 1 at depth 0, at most 1 behind the pivot, and 600 at or past the camera plane |
| Projection.DepthAlpha | components/CodeRushBackground.tsx:147 | the depth alpha lies in [0, 1]; it is 1 in front of the pivot, 0 from depth 1000, and linear between |
| Projection.InView | components/CodeRushBackground.tsx:146 | definition of the test `sx ∈ (−100, w+100)` and `sy ∈ (−100, h+100)`; `Project` keeps a particle exactly when its screen point passes it |
| Projection.ScreenPoint | components/CodeRushBackground.tsx:125-144 | definition of the screen point `(rx·scale + w/2, ry·scale + h/2)` after yaw and pitch |
| Projection.Project | components/CodeRushBackground.tsx:125-149 | a particle is kept exactly when its screen point passes the viewport test; a kept entry carries that point, the scaled size, the scale and the depth alpha, so alpha is in [0, 1] and scale in (0, 600] |
| Projection.PivotProjectsToCentre | components/CodeRushBackground.tsx:142-147 | a particle at the pivot projects to the viewport centre with scale 1 and alpha 1 |
| Projection.VisibleUpTo | components/CodeRushBackground.tsx:111-150 | the projected list after `n` particles has at most `n` entries, all from those particles |
| Projection.Visible | components/CodeRushBackground.tsx:111-150 | the projected list of a frame is no longer than the store and every entry comes from a particle of it |
| Projection.VisibleIsOrderedFilter | components/CodeRushBackground.tsx:111-150 | the projected list keeps store order, is no longer than the store, holds the projection of each source, and holds every particle that passes the test |
| Projection.VisibleEntriesBounded | components/CodeRushBackground.tsx:146-148 | every projected entry has alpha in [0, 1] and scale in (0, 600] |
| Projection.VisibleExactlyInView | components/CodeRushBackground.tsx:146-148 | particle `k` has an entry in the projected list exactly when its screen point lies within 100 pixels of the viewport, and that entry carries the point |
| Connections.Limit | components/CodeRushBackground.tsx:165 | definition of the limit: `connectionDistance` for plexus, 80 otherwise |
| Connections.Linked | components/CodeRushBackground.tsx:164-167 | definition of the test `sqrt(dx² + dy²) < limit`; `LinkedBySquaredDistance` restates it without the root |
| Connections.LineAlpha | components/CodeRushBackground.tsx:169 | definition of the line opacity `(1 − dist/limit)·a1·a2·0.4`; its range is proved by `LineAlphaRange` |
| Connections.LinkedBySquaredDistance | components/CodeRushBackground.tsx:162-167 | a line is drawn iff the limit is positive and `dx² + dy² < limit²` |
| Connections.LineAlphaRange | components/CodeRushBackground.tsx:169-170 | a drawn line's opacity lies in [0, 0.4] and its alpha byte in [0, 102] |
| Connections.LineOf | components/CodeRushBackground.tsx:167-172 | a drawn line joins its two entries in the configured colour; its alpha byte is `floor(lineAlpha·255)` for the distance and limit, at most 102, and its width is `max(0.1, lineWidth·scale)` |
| Connections.DotOf | components/CodeRushBackground.tsx:153-156 | a dot sits at the entry's screen point with radius `max(0.1, size)` and alpha byte `floor(alpha·255)`, at most 255 |
| Connections.RowExact | components/CodeRushBackground.tsx:160-167 | the links of entry `i` go to later entries of its window that are close enough, and every such entry is linked |
| Connections.LinksExact | components/CodeRushBackground.tsx:159-167 | links exist only for plexus, dna and lattice; each joins `i` to a later `j < min(i + 15, n)` within the limit, and every such pair is linked |
| Connections.RowLinesOfLinks | components/CodeRushBackground.tsx:160-176 | the lines of a window scan are the styled lines of its links, in order |
| Connections.LinesOfLinks | components/CodeRushBackground.tsx:152-179 | the lines of the pass are the styled lines of all links, in drawing order |
| Connections.DotsPerEntry | components/CodeRushBackground.tsx:152-157 | dot `k` is the dot of entry `k` |
| Connections.DrawnLines | components/CodeRushBackground.tsx:159-176 | the lines of a frame are exactly those from `i` to a later `j < min(i + 15, n)` closer than the limit, for the connecting styles only; each has width ≥ 0.1 and a stroke colour whose two hex digits read back as its alpha byte ≤ 102 |
| Connections.DrawnDots | components/CodeRushBackground.tsx:152-157 | one dot per entry in list order, each with a fill colour whose two hex digits read back as its alpha byte |
| Connections.Lines | components/CodeRushBackground.tsx:159-177 | definition of the lines of a frame; `DrawnLines` proves exactly which lines they are |
| Connections.Dots | components/CodeRushBackground.tsx:152-157 | definition of the dots of a frame; `DrawnDots` proves one dot per entry |
| Connections.ScanWindow | components/CodeRushBackground.tsx:160-177 | the `for j` window loop produces the lines of entry `i` |
| Connections.Render | components/CodeRushBackground.tsx:152-179 | the pass over the projected list produces the frame's dots and lines |
| Scene.Background.constructor | components/CodeRushBackground.tsx:78-83 | mounting leaves the rotation at rest and builds both stores fresh, which satisfies the class invariant |
| Scene.Background.Resize | components/CodeRushBackground.tsx:78-83 | a resize or a configuration change rebuilds both stores for the new size and keeps the rotation |
| Scene.Background.SmoothRotation | components/CodeRushBackground.tsx:93-94 | each rotation field takes one easing step toward `mouse·0.0005` |
| Scene.Background.TickRain | components/CodeRushBackground.tsx:99-108 | the rain pass updates every column of the array in place by the column update |
| Scene.Background.StepAndProject | components/CodeRushBackground.tsx:111-150 | the particle pass steps every particle in place and returns the projected list of the stepped store |
| Scene.Background.Draw | components/CodeRushBackground.tsx:85-182 | one frame updates the rotation, the rain (only when enabled) and the particles, keeps the class invariant, and returns the projected list, dots and lines |
| Scene.StoreInBand | components/CodeRushBackground.tsx:41-52 | a fresh stars store with a non-negative speed lies in the depth band |
| Scene.StepAllKeepsBand | components/CodeRushBackground.tsx:113-116 | a frame keeps a stars store in the depth band |

## Left out

- Canvas drawing is not modelled as side effects: the trail fill or clear, `arc`, `fillText`, `moveTo`/`lineTo`, `stroke`, fonts and alignment. The model produces the dots and lines with their colours, widths and alpha bytes, but not the screen positions of the rain glyphs.
- The `requestAnimationFrame` loop, the `resize` listener and the effect cleanup are host scheduling. Each frame is one call of `Draw`, and each resize or configuration change is one call of `Resize`.
- `handleMouseMove` is event plumbing: the pointer offset is an input to `Draw`.
- Floating-point rounding is not modelled. `Math.random`, `Date.now`, `Math.cos`, `Math.sin`, `Math.sqrt` and `Math.pow` are inputs. So the yaw angle `Date.now()·0.0005·speed·0.2 + rotation.y` appears only through the cosine/sine pairs passed to `Draw`.
- Particles.InitParticles: takes the lattice side as a parameter with `side³ ≥ count`, because `Math.ceil(Math.pow(count, 1/3))` is floating point.
- Scene.Background.Draw: rain columns are datatype values held in array slots, so the model does not capture aliasing of a column object outside the store.
- `angle` is set by `initParticles` but is never read by the frame.
- UIOverlay.tsx, geminiService.ts, App.tsx, constants.ts and types.ts are not part of this model. They hold UI state, network calls, layout and static tables. The `MATRIX_CHARS` alphabet is copied as `Rain.GLYPHS`.
