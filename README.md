# Cursor web UI: a verified model of the pointer engine

This project models the logic core of a React single-page showcase whose custom cursor
reacts to pointer motion. The core has two parts. The first is the shared cursor engine:
- a state record that pointer handlers update copy-on-write;
- a settings store with a toggle and eight numeric setters;
- a compare-and-clear protocol through which components claim and release the cursor;
- a pointer-move sampler that smooths velocity with a clamped inertia factor;
- an animation-frame integrator that damps the velocity, advances an oscillator and skips
  negligible updates.

The second part is the small buffer and sequence routines of the visual components:
- the particle trail's in-place buffer (trim, spawn, age, cull);
- the 28-band spectral cascade;
- the 64-sample velocity wave with its decaying peak;
- the 30-tile event atlas, with slugged ids and per-tile pointer state;
- the 4 × 5 signal matrix.

Modules:

- `Numeric` (`numeric.dfy`): `Min`, `Max`, `Abs`, the components' `clamp`, and JavaScript's
  `Math.round` on reals.
- `Host` (`host.dfy`): the host's transcendental functions as a record of total functions
  (`MathLib`), of which only three facts are assumed where they are used (`hypot >= 0`,
  `exp` maps non-positive arguments into [0, 1], `pi > 0`), and a bounding rectangle.
- `Text` (`text.dfy`): ASCII lower-casing, decimal rendering of naturals, character classes.
- `CursorContext` (`cursor_context.dfy`): the state and settings records and their initial
  values, every `setState`/`setSettings` updater as a pure function, the target protocol with
  scenario lemmas, the sampler and integrator arithmetic, and convergence and monotonicity
  lemmas about the smoothing and damping.
- `CursorProvider` (`cursor_provider.dfy`): a class holding the state and settings cells and the
  refs (`lastPositionRef`, `smoothedVelocityRef`, `settingsRef`, `oscillatorRef`,
  `lastFrameRef`) that the pointer-move handler and the frame `step` update in place.
- `ParticleField` (`particle_field.dfy`): a class whose `particles` sequence is changed by
  splicing and pushing, as the component does with its array, proved against a pure
  per-frame specification.
- `SonicCascade`, `VelocityWave` (`sonic_cascade.dfy`, `velocity_wave.dfy`): the sliding
  windows and the folds read from them.
- `CursorEventAtlas` (`cursor_event_atlas.dfy`): the effect groups, the id slug, the flattened
  descriptor list with distinct ids, and the tile handlers.
- `SignalMatrix` (`signal_matrix.dfy`): the cell grid built by nested loops, the pointer
  clamps and the readouts.

Timestamps, pointer coordinates, `document.hidden`, bounding rectangles and the values
`Math.random()` would return are parameters. The integrator's epsilon test returns the
previous state unchanged while the refs still advance. So after a settled frame,
`smoothedVelocityRef` holds the damped velocity while the published state keeps the
previous one. `Provider.Step` states this exactly.

## Model

| member | source | states |
|---|---|---|
| Numeric.Clamp | src/components/SignalMatrix.tsx:18 | the result never exceeds the upper bound and, for a non-empty range, never falls below the lower one; it is the value itself inside the range, the lower bound at or below it and the upper bound at or above it |
| Numeric.Round | src/components/ParticleField.tsx:83 | `Math.round` on a real: the nearest integer, with halves rounded up |
| Text.Lowercase | src/components/CursorEventAtlas.tsx:120 | `toLowerCase` keeps the length and maps every upper-case ASCII letter to its own lower-case letter (`'A'` to `'a'`, and so on), leaving other characters alone |
| Text.NatToString | src/components/CursorEventAtlas.tsx:120 | an index interpolated into a template literal becomes a non-empty string of decimal digits that denotes exactly that index; it starts with `0` only when it is the string `"0"` |
| Text.NatToStringInjective | src/components/CursorEventAtlas.tsx:120 | different indices render as different strings |
| Text.SingleDigit | src/components/SignalMatrix.tsx:30 | an index below ten renders as one digit, and different indices render differently |
| CursorContext.ToggleSetting | src/cursor/CursorContext.tsx:329-337 | a boolean setting is negated, a numeric key leaves the record unchanged, and every other key keeps its value |
| CursorContext.Get | src/cursor/CursorContext.tsx:331-332 | reading a key yields a boolean exactly for the three switches (magnetic, spotlight, trails) and a number for every other key |
| CursorContext.ToggleTwice | src/cursor/CursorContext.tsx:329-337 | toggling the same key twice restores the original settings record |
| CursorContext.SetParallax | src/cursor/CursorContext.tsx:339-341 | the parallax intensity becomes exactly the given value, unclamped, and every other key keeps its value |
| CursorContext.SetParticleDensity | src/cursor/CursorContext.tsx:343-345 | the particle density becomes exactly the given value and every other key keeps its value |
| CursorContext.SetDepthStrength | src/cursor/CursorContext.tsx:347-349 | the depth strength becomes exactly the given value and every other key keeps its value |
| CursorContext.SetFluxIntensity | src/cursor/CursorContext.tsx:351-353 | the flux intensity becomes exactly the given value and every other key keeps its value |
| CursorContext.SetRippleStrength | src/cursor/CursorContext.tsx:355-357 | the ripple strength becomes exactly the given value and every other key keeps its value |
| CursorContext.SetInertiaIntensity | src/cursor/CursorContext.tsx:359-361 | the inertia intensity becomes exactly the given value and every other key keeps its value |
| CursorContext.SetDragFactor | src/cursor/CursorContext.tsx:363-365 | the drag factor becomes exactly the given value and every other key keeps its value |
| CursorContext.SetOscillationDepth | src/cursor/CursorContext.tsx:367-369 | the oscillation depth becomes exactly the given value and every other key keeps its value |
| CursorContext.PointerDown | src/cursor/CursorContext.tsx:158-165 | the pointer is down, the click time is the event's, a drag stays a drag and every other variant becomes press; nothing else changes |
| CursorContext.PointerUp | src/cursor/CursorContext.tsx:167-173 | the pointer is up, press becomes default and any other variant is kept; nothing else changes |
| CursorContext.PointerEnter | src/cursor/CursorContext.tsx:175-177 | the cursor becomes visible and nothing else changes |
| CursorContext.PointerLeave | src/cursor/CursorContext.tsx:179-181 | the cursor becomes invisible and returns to the default variant; nothing else changes |
| CursorContext.VisibilityChange | src/cursor/CursorContext.tsx:183-186 | the cursor is visible exactly when the document is not hidden; nothing else changes |
| CursorContext.SetVariant | src/cursor/CursorContext.tsx:303-305 | the variant becomes the given one and nothing else changes |
| CursorContext.ActivateTarget | src/cursor/CursorContext.tsx:307-316 | the given id becomes the active target; the variant is the requested one if any, else unchanged; nothing else changes |
| CursorContext.DeactivateTarget | src/cursor/CursorContext.tsx:318-327 | a caller that is not the active target changes nothing; the active target clears itself and resets the variant to default; nothing else changes |
| CursorContext.StaleDeactivateKeepsNewer | src/cursor/CursorContext.tsx:318-320 | a deactivation by another id after an activation leaves the newer activation in place |
| CursorContext.ActivateThenDeactivate | src/cursor/CursorContext.tsx:307-327 | activating and then deactivating the same id clears the target and resets the variant, whatever came before |
| CursorContext.GridCardScenario | src/components/InteractiveGrid.tsx:47-54 | a grid card that claims itself and then its detail id, and on leave releases both, leaves no active target and the default variant |
| CursorContext.TimelineCardScenario | src/components/TimelineStrip.tsx:76-80 | a timeline card that releases itself and hands over to the ribbon leaves the ribbon active in drag mode, from any state, including a stale release by a card that no longer holds the cursor |
| CursorContext.SampleInterval | src/cursor/CursorContext.tsx:127 | the sampling interval is never below 16 ms nor below the elapsed time, and is one of the two |
| CursorContext.SmoothingFactor | src/cursor/CursorContext.tsx:134 | the inertia factor lies in [0, 0.95], equals the setting inside that range and saturates outside it |
| CursorContext.Blend | src/cursor/CursorContext.tsx:135-136 | the smoothed value's distance from the raw sample is the previous distance scaled by the factor |
| CursorContext.BlendBetween | src/cursor/CursorContext.tsx:135-136 | a smoothed component lies between the previous smoothed value and the raw value, so it never amplifies |
| CursorContext.Sample | src/cursor/CursorContext.tsx:126-141 | one pointer sample: the interval is the elapsed time floored at 16 ms, the raw velocity is the displacement over that interval, each smoothed component closes the gap to the raw one by the clamped factor and lies between its previous value and the raw one, the speed is non-negative, and the heading is held below the speed epsilon |
| CursorContext.MaxMagnitude | src/cursor/CursorContext.tsx:128-129 | the largest magnitude of the raw samples in a series: a bound on every one of them, and attained by one of them unless it is 0 |
| CursorContext.SmoothingNeverAmplifies | src/cursor/CursorContext.tsx:135-137 | over any series of moves, the smoothed component never exceeds in magnitude the initial smoothed value or the largest raw sample |
| CursorContext.ConstantInputConverges | src/cursor/CursorContext.tsx:134-137 | with a constant raw velocity, the gap after n moves is the initial gap times the factor to the n-th power |
| CursorContext.InitialInertiaScenario | src/cursor/CursorContext.tsx:94-106 | with the initial settings the factor is 0.35, a first sample of 5 smooths to 3.25, and the gap to a constant 5 after n moves is 5 · 0.35^n |
| CursorContext.StepMultiplier | src/cursor/CursorContext.tsx:256 | the frame-step multiplier is the interval over 16.67 below the cap and exactly 3 at or above it; it is non-negative for a non-negative interval and positive for a positive one |
| CursorContext.DragCoefficient | src/cursor/CursorContext.tsx:258 | the drag coefficient is `1 - drag · 0.08 · multiplier` where that is non-negative and 0 otherwise; it is at most 1 for a non-negative drag setting and multiplier, and below 1 when both are positive |
| CursorContext.FrameDragInUnitInterval | src/cursor/CursorContext.tsx:256-258 | for a non-negative drag setting and elapsed time the coefficient lies in [0, 1], and below 1 when both are positive, so the frame really damps |
| CursorContext.Damp | src/cursor/CursorContext.tsx:261-262 | with a drag coefficient in [0, 1] a damped component keeps its sign and does not grow in magnitude; with a coefficient below 1 a non-zero component strictly shrinks |
| CursorContext.DecayIsMonotone | src/cursor/CursorContext.tsx:258-263 | across frames with coefficients in [0, 1], each further frame moves the damped velocity monotonically towards zero without crossing it |
| CursorContext.PhaseAdvance | src/cursor/CursorContext.tsx:268 | the phase increment is non-negative for a non-negative speed and multiplier and a depth of at least -0.72 |
| CursorContext.Integrate | src/cursor/CursorContext.tsx:252-270 | one frame: the multiplier and drag are those of the elapsed time and drag setting, the drag is below 1 when both are positive, each smoothed component is the damped previous one and does not grow, the speed is the non-negative hypotenuse, the angle is held below the epsilon, and phase and oscillation come from the advanced phase |
| CursorContext.Settled | src/cursor/CursorContext.tsx:272-279 | the negligible-change test: every derived value moved by less than 0.0001, which holds in either direction (see also SettledTolerance and Provider.Step) |
| CursorContext.SettledTolerance | src/cursor/CursorContext.tsx:272-279 | a frame that moves no derived value is settled, and the negligible-change test is symmetric between the previous and the new values |
| CursorProvider.Provider.constructor | src/cursor/CursorContext.tsx:108-116 | the provider starts from the initial state and settings, with the settings ref mirroring them, the refs zeroed and both time refs at mount time |
| CursorProvider.Provider.CommitSettings | src/cursor/CursorContext.tsx:248 | a settings change is mirrored into the ref the handlers read, keeping the ref equal to the settings; nothing else changes |
| CursorProvider.Provider.PointerMove | src/cursor/CursorContext.tsx:122-156 | the last position becomes the event's; the smoothed-velocity ref and the state take the sample's values; settings, phase and frame time are untouched |
| CursorProvider.Provider.Step | src/cursor/CursorContext.tsx:252-290 | the refs always advance; the state is returned unchanged exactly when every derived value moved by less than 0.0001, and otherwise takes the damped velocity, speed, angle and oscillation; either way the published values stay within 0.0001 of the integrator's |
| ParticleField.MaxParticles | src/components/ParticleField.tsx:82 | the cap is the floor of 420 · (0.35 + density) |
| ParticleField.SpawnRate | src/components/ParticleField.tsx:83 | no spawning unless trails are on and the pointer is visible; otherwise density · 20 rounded, never negative |
| ParticleField.Trimmed | src/components/ParticleField.tsx:85-87 | an over-cap buffer keeps only its newest `max(0, cap)` entries, in order; a buffer within the cap is unchanged |
| ParticleField.Spawned | src/components/ParticleField.tsx:64-75 | a new particle starts at the pointer with life 0, ttl in [80, 150), size in [1.2, 3.6) and hue in [210, 300) |
| ParticleField.SpawnBatch | src/components/ParticleField.tsx:63-76 | a batch holds exactly one spawned particle per draw, in draw order |
| ParticleField.Moved | src/components/ParticleField.tsx:98-107 | ageing adds exactly one to life and keeps ttl, size and hue |
| ParticleField.Pass | src/components/ParticleField.tsx:96-117 | the pass never grows the buffer, and every survivor is inside the viewport padded by 120 and not expired |
| ParticleField.PassAppend | src/components/ParticleField.tsx:96-117 | the pass treats particles independently: it distributes over concatenation, so survivors keep their relative order |
| ParticleField.PassMembers | src/components/ParticleField.tsx:96-117 | every survivor is an original surviving particle aged by exactly one frame, and every surviving particle is kept |
| ParticleField.Frame | src/components/ParticleField.tsx:80-117 | the buffer after one render step holds only particles inside the padded viewport that have not expired |
| ParticleField.FrameBound | src/components/ParticleField.tsx:85-117 | after a frame the buffer holds at most the cap plus the spawn rate |
| ParticleField.ParticleField.constructor | src/components/ParticleField.tsx:20-28 | the buffer starts empty and the pointer snapshot at the origin, hidden, as a mouse |
| ParticleField.ParticleField.SyncPointer | src/components/ParticleField.tsx:31-40 | the pointer snapshot copies position, velocity, visibility and pointer type from the cursor state; the buffer is untouched |
| ParticleField.ParticleField.Trim | src/components/ParticleField.tsx:85-87 | splicing from the front leaves exactly the trimmed buffer |
| ParticleField.ParticleField.SpawnParticles | src/components/ParticleField.tsx:58-76 | for a mouse pointer the loop appends exactly the batch for the first `count` draws; for any other pointer type the buffer is unchanged |
| ParticleField.ParticleField.AgeAndCull | src/components/ParticleField.tsx:96-117 | the backwards splice loop leaves exactly the pure pass of the old buffer |
| ParticleField.ParticleField.Render | src/components/ParticleField.tsx:80-117 | one render leaves exactly the per-frame specification applied to the old buffer and pointer |
| SonicCascade.InitialBands | src/components/SonicCascade.tsx:16-18 | 28 bands with ids 0..27, all values and ripples 0 |
| SonicCascade.TickDrive | src/components/SonicCascade.tsx:28-30 | base, ripple and inertia each equal their unclamped value inside their ranges [0, 1.85], [-1, 1] and [0, 0.95], and the nearer bound outside them |
| SonicCascade.Eased | src/components/SonicCascade.tsx:33-43 | an eased band keeps its id; its value is the old value blended by the inertia with the drive's base weakened by the band's position, and its ripple is 0.82 of the old ripple plus half the drive's ripple, each equal to that blend inside [0, 2] resp. [-1, 1] and the nearer bound outside |
| SonicCascade.Fresh | src/components/SonicCascade.tsx:44-48 | the pushed band's value and ripple lie in [0, 2] and [-1, 1]; for an in-range drive they are base · 0.9 and the tick's ripple |
| SonicCascade.Tick | src/components/SonicCascade.tsx:32-51 | a tick keeps the length; band i is the eased old band i + 1, the last band is fresh, ids equal positions and all values and ripples are in range |
| SonicCascade.RunKeepsShape | src/components/SonicCascade.tsx:16-51 | after any number of ticks there are 28 well-formed bands |
| SonicCascade.MaxValue | src/components/SonicCascade.tsx:65 | the fold from 0 is non-negative, bounds every value, and is 0 or one of the values |
| SonicCascade.Normalized | src/components/SonicCascade.tsx:85 | the bar is 0 when the maximum is not positive, and otherwise the value relative to the maximum, in [0, 1] for values within it |
| SonicCascade.NormalizedInUnit | src/components/SonicCascade.tsx:65-85 | every bar of a well-formed band list lies in [0, 1] |
| VelocityWave.InitialSamples | src/components/VelocityWave.tsx:13 | 64 zero samples |
| VelocityWave.Scaled | src/components/VelocityWave.tsx:25 | a sample never exceeds 1, is non-negative for a non-negative speed, is the speed times 120 below the cap and exactly 1 at or above it |
| VelocityWave.Slide | src/components/VelocityWave.tsx:23-27 | the window keeps its length, drops its first sample, keeps the rest in order and ends with the new scaled sample |
| VelocityWave.WindowIsSuffix | src/components/VelocityWave.tsx:13-27 | the window always has 64 samples: the last 64 of the zero history followed by every scaled speed, in order |
| VelocityWave.WindowInUnit | src/components/VelocityWave.tsx:16-27 | for non-negative speeds, every sample reached from the initial window lies in [0, 1] |
| VelocityWave.SmoothedPeak | src/components/VelocityWave.tsx:39-41 | the decaying peak is non-negative and at least the newest sample |
| VelocityWave.PeakBounded | src/components/VelocityWave.tsx:39-41 | the peak never exceeds a non-negative bound on every sample, such as the largest sample |
| VelocityWave.PeakInUnit | src/components/VelocityWave.tsx:13-41 | for non-negative speeds, the peak displayed for any window reached from the initial one lies in [0, 1] |
| CursorEventAtlas.EffectName | src/components/CursorEventAtlas.tsx:5-15 | every effect name is a non-empty lower-case word |
| CursorEventAtlas.EffectNameInjective | src/components/CursorEventAtlas.tsx:5-15 | different effects have different names |
| CursorEventAtlas.DropRun | src/components/CursorEventAtlas.tsx:120 | skipping a run of non-`[a-z0-9]` characters removes only such characters and stops at a `[a-z0-9]` character or the end |
| CursorEventAtlas.Slug | src/components/CursorEventAtlas.tsx:120 | the slug is empty only for an empty input, contains only `[a-z0-9]` and `-`, never two adjacent dashes, and starts with the input's character or a dash |
| CursorEventAtlas.SlugKeepsAlphanumerics | src/components/CursorEventAtlas.tsx:120 | the slug keeps every letter and digit of the input, in order |
| CursorEventAtlas.SlugKeepsSlugChars | src/components/CursorEventAtlas.tsx:120 | a string of `[a-z0-9]` characters is its own slug |
| CursorEventAtlas.SlugSplitsAfterSlugChar | src/components/CursorEventAtlas.tsx:120 | after a `[a-z0-9]` character the slug splits: the two sides are slugged independently and concatenated |
| CursorEventAtlas.SlugCollapsesRun | src/components/CursorEventAtlas.tsx:120 | a maximal run of other characters, followed by a `[a-z0-9]` character or the end, becomes exactly one dash |
| CursorEventAtlas.DescriptorId | src/components/CursorEventAtlas.tsx:120 | an id opens with its effect name and a dash and holds only `[a-z0-9]` characters and dashes |
| CursorEventAtlas.IdInjective | src/components/CursorEventAtlas.tsx:120 | an id determines its effect and its in-group index (below ten) |
| CursorEventAtlas.Describe | src/components/CursorEventAtlas.tsx:119-126 | a descriptor carries its group's effect, copies title, tagline, accent and depth unchanged, and has the composed id |
| CursorEventAtlas.DescribeGroup | src/components/CursorEventAtlas.tsx:119-126 | a group yields one descriptor per item, in item order |
| CursorEventAtlas.Describes | src/components/CursorEventAtlas.tsx:118-127 | the `flatMap` over the groups; characterised by DescribesExactly (exactly the descriptors of the items) and DescribesAt (group order, then item order) |
| CursorEventAtlas.DescribesExactly | src/components/CursorEventAtlas.tsx:118-127 | the flattened list holds the descriptor of every item of every group, and nothing else |
| CursorEventAtlas.DescribesAt | src/components/CursorEventAtlas.tsx:118-127 | with n items per group the flattening has `groups · n` descriptors and descriptor `g · n + k` is item k of group g |
| CursorEventAtlas.DescribedIdsDistinct | src/components/CursorEventAtlas.tsx:118-127 | when group g carries the g-th effect and groups have at most ten items, all ids of the flattening differ |
| CursorEventAtlas.EffectGroupsShape | src/components/CursorEventAtlas.tsx:35-116 | ten groups of three items, group g carrying the g-th effect |
| CursorEventAtlas.EventDefinitions | src/components/CursorEventAtlas.tsx:35-127 | the atlas constant; characterised by EventDefinitionsLayout (30 descriptors in group-then-item order) and EventIdsDistinct (pairwise distinct ids) |
| CursorEventAtlas.EventDefinitionsLayout | src/components/CursorEventAtlas.tsx:35-127 | the atlas holds 30 descriptors, descriptor `3g + k` being item k of group g |
| CursorEventAtlas.EventIdsDistinct | src/components/CursorEventAtlas.tsx:118-127 | the 30 descriptor ids of the atlas, used as list keys, are pairwise distinct |
| CursorEventAtlas.TileMove | src/components/CursorEventAtlas.tsx:143-162 | both offsets lie in [-1, 1], equal the relative offset inside that range and saturate at ±1 outside it; intensity is the offset's length capped at 1 and the angle is the offset's direction; the tile is active; pressed is kept |
| CursorEventAtlas.TileEnter | src/components/CursorEventAtlas.tsx:164-167 | the tile becomes active and claims the cursor in control mode; nothing else changes |
| CursorEventAtlas.TileLeave | src/components/CursorEventAtlas.tsx:169-173 | the tile resets; the target is cleared only if the tile still owned it; the cursor ends in the default variant either way |
| CursorEventAtlas.TileDown | src/components/CursorEventAtlas.tsx:175-178 | the tile is pressed and the cursor is in press mode |
| CursorEventAtlas.TileUp | src/components/CursorEventAtlas.tsx:180-183 | the tile is released and the cursor is in the default mode |
| CursorEventAtlas.TileVelocity | src/components/CursorEventAtlas.tsx:185 | the velocity readout lies in [0, 1.6], is the scaled speed below the cap and exactly 1.6 at or above it |
| SignalMatrix.CellIdInjective | src/components/SignalMatrix.tsx:30 | single-digit row and column are recovered from a cell id |
| SignalMatrix.CellId | src/components/SignalMatrix.tsx:30 | a cell id is `cell-` followed only by digits and dashes, at least eight characters long |
| SignalMatrix.BuildCells | src/components/SignalMatrix.tsx:26-34 | the nested loops produce 20 cells in row-major order (row `k div 5`, column `k mod 5`), every grid position exactly once, with pairwise distinct ids |
| SignalMatrix.MatrixMove | src/components/SignalMatrix.tsx:36-47 | the pointer ratio lies in the unit square; it is 0 left of or above the box, 1 right of or below it, and the exact ratio inside; the grid lights |
| SignalMatrix.RatioBounds | src/components/SignalMatrix.tsx:40-41 | a ratio to a positive extent is at most 0 exactly for an offset at most 0, and at least 1 exactly for an offset of at least the extent |
| SignalMatrix.MatrixEnter | src/components/SignalMatrix.tsx:71 | entering claims the cursor in control mode and leaves the grid state alone |
| SignalMatrix.MatrixLeave | src/components/SignalMatrix.tsx:49-52 | leaving darkens the grid and keeps the pointer position; it releases the cursor only if the matrix owns it, and changes no other cursor field |
| SignalMatrix.EnterThenLeave | src/components/SignalMatrix.tsx:49-71 | entering and then leaving hands the cursor back with no active target, in the default variant |
| SignalMatrix.Speed | src/components/SignalMatrix.tsx:54 | the velocity factor lies in [0, 1.3], is the scaled speed below the cap and exactly 1.3 at or above it |
| SignalMatrix.Flow | src/components/SignalMatrix.tsx:55 | the flow gain lies in [0, 1], equals the ripple strength inside that range and the nearer bound outside it |
| SignalMatrix.Heading | src/components/SignalMatrix.tsx:56-57 | the readout is the direction's fraction of a turn from -π, times 360, rounded to the nearest whole degree; a direction in [-π, π] reads in [0, 360] |
| SignalMatrix.CellCentre | src/components/SignalMatrix.tsx:77-78 | the centre of every grid cell lies strictly inside the unit square |
| SignalMatrix.FalloffExponent | src/components/SignalMatrix.tsx:82 | for a non-negative distance and a flow of at most 1 the exponent is at most -1.9 times the distance |
| SignalMatrix.Falloff | src/components/SignalMatrix.tsx:77-82 | with a host `Math.exp` that maps non-positive arguments into [0, 1] and a flow gain of at most 1, a cell's falloff lies in [0, 1] |
| SignalMatrix.CellEnergy | src/components/SignalMatrix.tsx:77-84 | every cell's energy lies in [0, 1.35] and equals the unclamped product inside that range; for a flow of at most 1 and a speed factor in [0, 1.3] the clamp never applies |
| SignalMatrix.EnergyInRange | src/components/SignalMatrix.tsx:82-84 | a falloff in [0, 1] times the boost of a speed factor in [0, 1.3] lies in [0, 1.18] |
| SignalMatrix.VelocityBoostRange | src/components/SignalMatrix.tsx:83 | for a speed factor in [0, 1.3] the boost lies in [0.4, 1.18] |

## Left out

- Event-listener registration and removal, `requestAnimationFrame` scheduling, `performance.now()` and `document.hidden` reads: host plumbing, replaced by explicit parameters.
- Mirroring state and settings into CSS custom properties, the body's `cursor` style and the `data-cursor-active` flag: DOM side effects without logic.
- The React context, `useMemo`/`useCallback` wiring and the `useCursor` provider check: framework glue. State updaters are applied at once and in order. React's batching and deferred rendering are not modelled. The app is rendered under `StrictMode` (src/main.tsx), so in a development build React calls the frame updater twice per frame; that updater also advances the oscillator phase it keeps in a ref, so there the phase moves twice per frame. The model applies each updater once, as a production build does.
- `Math.hypot`, `Math.atan2`, `Math.sin`, `Math.cos`, `Math.exp`, `Math.PI` and the phase remainder modulo 2π are uninterpreted. The model assumes only that `hypot` is never negative, that `exp` maps non-positive arguments into [0, 1] (for the cell falloff), and that `PI` is positive (for the heading readout). No bound on the phase or on trigonometric results is claimed.
- Floating point: all arithmetic is on Dafny reals. NaN and infinities are not modelled, and neither is the rounding of `deltaMs / 16.67`.
- CursorEventAtlas.TileMove: requires a tile box of positive size. For a zero-sized box the source divides by zero: a pointer off the centre gives ±Infinity, which the clamps turn into ±1, and a pointer exactly at the centre gives NaN. That case is not modelled. SignalMatrix.MatrixMove has the same precondition; there a zero extent gives a ratio of 0 or 1 after clamping, or NaN when the pointer is exactly on the left or top edge.
- Text.Lowercase: lower-cases ASCII only. Non-ASCII titles are not lower-cased as `toLowerCase` would. The titles of the atlas are ASCII.
- The null-element guards of the tile and matrix move handlers: the box is passed in, so the guard's early return is not modelled.
- The particle buffer holds particles as values. The source mutates particle objects in place through array aliases; no other alias to them exists, so only the in-place update of the array itself is modelled.
- Canvas drawing in the particle trail: resize, clearing, fade and alpha, arcs. The `Math.random()` values become the parameter `draws`, each value assumed to lie in [0, 1).
- The velocity wave's slide is scheduled by an effect that runs on mount and whenever the magnitude `Math.hypot(vx, vy)` of the raw velocity changes. Each run cancels a slide that is still pending, so quick changes collapse into one slide. The series of speeds in the model stands for the slides that actually fire; animation-frame timing and cancellation are not modelled.
- The pointer enter and leave handlers of the sonic cascade and the velocity wave (claim and release in `inspect` mode). They are not modelled; the signal matrix and the tiles show the same protocol.
- The heading readout's `'idle'` text for a NaN angle, and the `toFixed` and `Math.round` formatting of percentage readouts: display formatting.
- VelocityWave.PeakBounded: proves the peak is at most any non-negative bound on every sample rather than at most the maximum itself. All samples reached from the initial window are non-negative, and there the two coincide.
- ResonanceField, the presentational components and ActionPalette's timer-deferred restores: outside this model. InteractiveGrid and TimelineStrip appear only through the scenario lemmas on the target protocol.
