# Winter portfolio: animation core

This project models the stateful logic inside the effect hooks of the winter portfolio page (`WinterPortfolio.jsx`). The page shows a full-window 3D starfield behind the content. Three project previews sit in the content: a particle field, a spinning crystal and a wave surface. A profile panel holds three spinning solids. Snowflakes fall in the DOM, and stat counters run once when the "about" section comes into view.

The model has five modules:

- `Buffers` (`buffers.dfy`) covers the flat `[x, y, z]` position buffers. Each per-frame rule is a pure function on the sequence: the starfield drifts and wraps in [-75, 75] and sways sideways, the preview field drifts and wraps in [-10, 10], and the wave plane rewrites its heights. Lemmas state the wrap invariant over any number of frames, the frame conditions, and that a wave frame depends only on x, y and the clock, so repeating it is a no-op. The in-place `i += 3` loops over an `array<real>` are proved to compute exactly those functions.
- `Snowfall` (`snowfall.dfy`) covers the snowflake pool updater `prev => [...prev, flake].slice(-50)`. It is a bounded FIFO that evicts the oldest flake first. Lemmas cover any run of spawns, including the 10-spawn and 60-spawn cases, and the flake factory keeps every attribute in its range.
- `Stats` (`stats.dfy`) covers the stats setter's updater, the one-shot visibility guard, and each counter's timer. The timer is a class whose tick adds `target / 100` and then either writes the floor of the total or writes the target and stops.
- `Pointer` (`pointer.dfy`) covers pointer normalisation into [-1, 1] and its inverse. It also covers the camera's 5% easing toward three times the pointer offset: the camera never overshoots, and after n frames the gap is 0.95^n of the starting gap.
- `Scenes` (`scenes.dfy`) has one class per scene. Each class holds what that scene's frame callback changes: rotation angles, its position buffer and, for the background, the pointer offset, camera position and aspect ratio. Its `Animate` performs one frame.

Inputs the source reads from the host come in as parameters:

- the millisecond clock `Date.now()` is `now`;
- `Math.sin` and `Math.cos` are function-valued parameters `sin` and `cos`, about which nothing is assumed;
- each `Math.random()` draw is a real in [0, 1);
- initial buffer contents, whether random or computed by the geometry library, are constructor arguments;
- the window and pointer sizes are arguments.

Points where the source's behaviour is easy to misread:

- The background starfield's rotation is assigned from the clock on every frame, not accumulated.
- The starfield's sway term uses the raw array offset `i` of the x slot (always a multiple of 3), not the particle number.
- Snowflake ids are `Date.now()` readings. They are not guaranteed to be unique or strictly increasing.
- No animation frame request is ever cancelled. The cleanup closures built by `initCanvas` are dropped, because the effect that calls it returns nothing. Frames therefore continue after unmount. Teardown is not modelled (see "Left out").

## Model

| member | source | states |
|---|---|---|
| `Buffers.Fall` | WinterPortfolio.jsx:144-145 | a y after one frame is `+bound` when `y - 0.02 < -bound` and exactly `y - 0.02` otherwise; it is never below `-bound`, and is at most `bound` when `y - 0.02 <= bound` |
| `Buffers.StarfieldTick` | WinterPortfolio.jsx:142-147 | one starfield frame keeps the length and every z slot; every x moves by `sin(time + i) * 0.01` with `i` its raw array offset; every y falls by exactly 0.02, or is reset to 75 when that fall would take it below -75, and is at least -75 |
| `Buffers.StarfieldTickKeepsBounds` | WinterPortfolio.jsx:143-147 | if every y is in [-75, 75] before a frame, every y is in [-75, 75] after it |
| `Buffers.StarfieldRunKeepsBounds` | WinterPortfolio.jsx:135-147 | after any number of frames, at any clock readings, the buffer keeps its length and every y stays in [-75, 75] |
| `Buffers.FieldTick` | WinterPortfolio.jsx:201-205 | one preview-field frame keeps the length and leaves every x and z slot untouched; every y falls by exactly 0.02, or is reset to 10 when that fall would take it below -10, and is at least -10 |
| `Buffers.FieldTickKeepsBounds` | WinterPortfolio.jsx:202-205 | if every y is in [-10, 10] before a frame, every y is in [-10, 10] after it |
| `Buffers.FieldRunKeepsBoundsAndFrame` | WinterPortfolio.jsx:197-208 | after any number of frames, the field keeps its length, y stays in [-10, 10], and no x or z slot has changed |
| `Buffers.WaveTick` | WinterPortfolio.jsx:236-241 | one wave frame keeps the length and x and y slots; each z becomes `sin(x + time) * cos(y + time) * 0.5` from its own triple's x and y |
| `Buffers.WaveHeightIsLocal` | WinterPortfolio.jsx:238-240 | two buffers that agree on one triple's x and y get the same new z in that triple at the same time, whatever else they hold |
| `Buffers.WaveTickIgnoresHeights` | WinterPortfolio.jsx:237-241 | buffers that agree on every x and y give the same surface at the same time: old heights never influence the result |
| `Buffers.WaveTickIdempotent` | WinterPortfolio.jsx:237-241 | repeating a wave frame with the same time leaves the buffer unchanged |
| `Buffers.DriftStarfield` | WinterPortfolio.jsx:142-147 | the in-place `i += 3` loop over a buffer whose length is a multiple of 3 stays in bounds and leaves the array equal to `StarfieldTick` of its old contents |
| `Buffers.DriftField` | WinterPortfolio.jsx:201-205 | the in-place preview-field loop leaves the array equal to `FieldTick` of its old contents |
| `Buffers.DeformWave` | WinterPortfolio.jsx:236-241 | the in-place wave loop leaves the array equal to `WaveTick` of its old contents |
| `Snowfall.NewFlake` | WinterPortfolio.jsx:18-25 | from random draws in [0, 1), a flake has left in [0, 100), size in [10, 20), duration in [7, 10), opacity in [0.4, 1), one of the three glyphs, and the clock reading as its id |
| `Snowfall.Last` | WinterPortfolio.jsx:27 | `slice(-n)` keeps `min(len, n)` elements, and they are the input's suffix |
| `Snowfall.Spawn` | WinterPortfolio.jsx:17-28 | after a spawn the pool has `min(len + 1, 50)` flakes, the new flake is last, and the survivors are the most recent old flakes in insertion order |
| `Snowfall.LastOfLast` | WinterPortfolio.jsx:27 | truncating to the last n, appending, and truncating again equals appending, then truncating once |
| `Snowfall.SpawnAllKeepsNewest` | WinterPortfolio.jsx:15-29 | from a pool within the limit, any run of spawns leaves exactly the last 50 of old pool followed by new flakes: oldest evicted first, never by expiry |
| `Snowfall.SpawnsFromEmpty` | WinterPortfolio.jsx:17-27 | n spawns on an empty pool leave `min(n, 50)` flakes, the most recent ones in spawn order |
| `Snowfall.TenSpawns` | WinterPortfolio.jsx:17-27 | ten spawns on an empty pool keep all ten flakes |
| `Snowfall.SixtySpawns` | WinterPortfolio.jsx:17-27 | sixty spawns on an empty pool leave 50 flakes, and the oldest ten have been evicted |
| `Stats.WithStat` | WinterPortfolio.jsx:47-50 | the setter's updater replaces the one counter's number and keeps the other three |
| `Stats.Shown` | WinterPortfolio.jsx:46-50 | the number a tick writes lies in [0, target]; it is the target exactly when the running total has reached the target, and the floor of the total below it |
| `Stats.ShownMonotone` | WinterPortfolio.jsx:45-50 | a larger running total never shows a smaller number |
| `Stats.WritesRise` | WinterPortfolio.jsx:41-52 | over any run of ticks from a total short of the target, the written numbers never decrease, stay between the starting floor and the target, and only the last write can equal the target, because the timer is cleared after writing it |
| `Stats.WritesReachTarget` | WinterPortfolio.jsx:44-52 | for a positive target, n ticks whose steps cover the distance left end with the target written, in at most n writes |
| `Stats.CounterFinishes` | WinterPortfolio.jsx:41-52 | a counter with a positive target started from 0 writes its target and stops, within 100 ticks in exact arithmetic |
| `Stats.StatsBoard.constructor` | WinterPortfolio.jsx:11-12 | the board starts at all zeros with the one-shot flag unset |
| `Stats.StatsBoard.OnEntry` | WinterPortfolio.jsx:38-58 | counters start only when the section is in view and the flag is unset; starting sets the flag and launches four fresh counters for 50, 7, 30 and 15, each at total 0 with 0 shown; once the flag is set nothing is ever started again |
| `Stats.StatCounter.constructor` | WinterPortfolio.jsx:41-43 | a counter starts with total 0, step `target / 100`, and a running timer |
| `Stats.StatCounter.Tick` | WinterPortfolio.jsx:44-52 | a tick adds the step, writes `Shown` into its own key only, never writes less than last time, writes a value below the target while running, and stops exactly when it writes the target |
| `Pointer.NormalizeX` | WinterPortfolio.jsx:130 | `clientX` in [0, W] exactly when `mouseX` in [-1, 1]; the left edge gives -1 and the right edge 1 |
| `Pointer.NormalizeY` | WinterPortfolio.jsx:131 | `clientY` in [0, H] exactly when `mouseY` in [-1, 1], with the sign flipped: the top edge gives 1 and the bottom edge -1 |
| `Pointer.RatioInUnit` | WinterPortfolio.jsx:130-131 | a pointer coordinate lies on the window exactly when its ratio to the window size lies in [0, 1] |
| `Pointer.NormalizeRoundTrip` | WinterPortfolio.jsx:129-132 | normalisation is undone by the pixel-position inverse in both directions |
| `Pointer.Ease` | WinterPortfolio.jsx:150-151 | one easing step ends between the camera and its goal `3 * mouse`, and the remaining gap is exactly 0.95 of the previous one |
| `Pointer.EaseFramesGap` | WinterPortfolio.jsx:150-151 | with the pointer held still, after n frames the gap is `0.95^n` of the starting gap and the camera has not crossed its goal |
| `Scenes.Background.constructor` | WinterPortfolio.jsx:76-128 | the background starts with 3000 points whose y lie in [-75, 75], pointer offset 0, camera at z = 50, and aspect ratio `innerWidth / innerHeight` |
| `Scenes.Background.HandleMouseMove` | WinterPortfolio.jsx:129-132 | the handler sets the pointer offset to the normalised position and changes nothing else |
| `Scenes.Background.HandleResize` | WinterPortfolio.jsx:158-162 | after a resize the camera aspect is exactly width / height |
| `Scenes.Background.Animate` | WinterPortfolio.jsx:135-155 | a frame sets the starfield rotation from the clock, runs the starfield tick at time `now / 10000`, keeps every y in [-75, 75] as part of the scene invariant, and eases both camera axes toward the pointer |
| `Scenes.ParticlePreview.constructor` | WinterPortfolio.jsx:184-195 | the preview field starts with 1500 points whose y lie in [-10, 10], and zero rotation |
| `Scenes.ParticlePreview.Animate` | WinterPortfolio.jsx:197-208 | a frame turns the field by 0.002 on x and 0.003 on y, runs the field tick, and keeps every y in [-10, 10] as part of the scene invariant |
| `Scenes.CrystalPreview.constructor` | WinterPortfolio.jsx:211-215 | the crystal starts unrotated |
| `Scenes.CrystalPreview.Animate` | WinterPortfolio.jsx:217-223 | a frame turns the crystal by 0.01 on x and y and changes nothing else |
| `Scenes.WavePreview.constructor` | WinterPortfolio.jsx:225-231 | the wave grid holds the 21 x 21 vertices of the plane |
| `Scenes.WavePreview.Animate` | WinterPortfolio.jsx:233-245 | a frame runs the wave tick at time `now / 1000`, and the result is a fixed point of that tick |
| `Scenes.ProfilePreview.constructor` | WinterPortfolio.jsx:270-294 | the profile panel holds three distinct, unrotated solids |
| `Scenes.ProfilePreview.Animate` | WinterPortfolio.jsx:298-306 | a frame adds exactly `0.01 * (k + 1)` to shape k's x and y rotation and leaves its z rotation unchanged |

## Left out

- Page markup, styles, the contact form and `scrollToSection` are declarative UI with no logic.
- Mesh, material, fog and renderer construction, drawing, `setSize`, `setPixelRatio`, `updateProjectionMatrix`, `lookAt` and the `needsUpdate` flags are not modelled. They are calls into the 3D library, whose behaviour is not visible here.
- The background wireframe torus and the wave plane's fixed tilt of -π/3 are not modelled. Both are set once and never change.
- The frame scheduler (`requestAnimationFrame`), the timers (`setInterval`, `clearInterval`), the visibility observer, the event listener registration and the React effect lifecycle are left out. The model treats each frame, tick or event as one method call made by an outside driver.
- Teardown is left out: the source never cancels a frame request, and it drops the preview cleanups. The model has no destroy operation, so nothing about frames after unmount is claimed.
- The early returns when a mount container is missing are left out. They are part of the mount lifecycle.
- The "about" section lookup is left out. It is host document plumbing.
- Random initial positions and colours (WinterPortfolio.jsx:87-97, 186-190) are constructor arguments. The scene constructors require the y range that the random start gives: `(Math.random() - 0.5) * 150` lies in [-75, 75) and `* 20` in [-10, 10). Colours are not modelled, because no frame reads or changes them.
- Float32Array storage and IEEE-754 double arithmetic are left out. Buffers and totals are exact reals. The wrap invariants also hold under rounding, because the comparison is made on the stored value. Under doubles, however, a counter that adds `target / 100` need not reach the target on exactly the 100th tick. The model's bound of 100 ticks (`Stats.CounterFinishes`) is a statement about exact arithmetic only.
- `Math.sin` and `Math.cos` are function-valued parameters, with no trigonometric facts assumed. The wave's amplitude bound is therefore not stated.
- `Scenes.Background.HandleMouseMove`, `Scenes.Background.HandleResize` and `Scenes.Background.constructor` require a positive window size. In JavaScript a zero size divides to an infinity, and the model does not represent one.
- `Stats.StatsBoard.OnEntry` models one observed entry against the current flag. It does not model the stale flag a visibility callback may read before React re-renders with the new value.
- `Snowfall.SpawnAllKeepsNewest` requires the starting pool to hold at most 50 flakes. That holds for every pool the spawn timer produces, starting from the empty initial state.
