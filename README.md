# TheSky — a Dafny model of its animation logic

TheSky is a browser animation toy: two canvas "flight" engines (`script.js` with ten
themes and `game.js` with three) and a small Vue scene (`src/main.js`), plus a seeded
noise utility (`src/utils/noise.js`). Most of the code draws pixels. This project
models the logic underneath the drawing and proves properties of it:

- the linear congruential generator;
- the in-place Fisher–Yates reseed of the 256-entry lattice permutation;
- gradient noise with a quintic fade, and the normalised octave sum `fbm`;
- the frame update of both canvas engines:
  - frame-time normalisation and the skipped frame;
  - the smoothed speed (`script.js`) and the stepped speed ramp (`game.js`);
  - the vertical spring and the hover;
  - the bounded trail that pushes and then shifts once;
  - the theme director;
  - spawning, moving and culling of props and particles, with `filter` in `script.js`
    and reverse `splice` loops in `game.js`;
  - the transition progress read by `draw`;
- the speed-lock key machine of `script.js`;
- the crystal scene of `src/main.js`: the gliding crystal that loops through four
  scenes, the fading trail, the falling particles and the hold-to-lock movement keys.

Files:

| file | module | contents |
|---|---|---|
| `util.dfy` | `Util` | `Option`, `Array.prototype.filter`, the bounded trail queue |
| `blend.dfy` | `Blend` | `lerp`, `smoothstep`, `random`, `Math.round`, `parseInt(_, 16)`, `hexToRgb`, `lerpColor` (identical in both engines) |
| `noise.dfy` | `Noise` | `src/utils/noise.js` |
| `script_engine.dfy` | `ScriptEngine` | `script.js` |
| `game_engine.dfy` | `GameEngine` | `game.js` |
| `crystal_app.dfy` | `CrystalApp` | `src/main.js` |

Modelling choices:

- **Numbers.** Every JavaScript number is an exact `real`, or an `int` where the source
  only handles integers: the generator state, the table entries, the frame counter and
  the integer transition timer of `game.js`.
  - JavaScript's `%` keeps the sign of the dividend (`Noise.JsRem`).
  - `Math.floor(x) & 255` is the Euclidean remainder by 256.
  - `(v >> 16) & 255` and its two siblings are Euclidean division and remainder.
- **Mutable state becomes classes.**
  - The module-level `PERMUTATION` array is an `array<int>` inside `Noise.NoiseTable`.
  - The generator closure is `Noise.SeededRandom`.
  - Each engine's `state` object is a class: `ScriptEngine.Engine` and `GameEngine.Engine`.
  - The Vue refs of `setup()` are `CrystalApp.App`.
  - Lists that the source pushes to, filters or splices are `seq` fields that the
    methods reassign. Their elements are values, since no entity is shared outside its
    list.
- **Loops are kept.** The Fisher–Yates loop, the octave loop, the reverse splice loops,
  the trail fade, the particle fall and the particle fill are `while`/`for` loops. Each
  is proved against a function on values.
- **Update as phases.** Each engine's `update` is a composition of phase functions
  (`MotionStep`/`MotionPhase`, `DirectorPhase`, `EntitiesPhase`, `FrameStep`). Lemmas
  about `FrameStep` state what one frame does.
- **Randomness becomes draws.** Every `Math.random()` result enters as a parameter (the
  `SpawnDraws` and `ParticleDraw` records, the `resets` sequence). Contracts that need
  it assume each draw lies in [0, 1).
- **Timers become events.** A `setTimeout` callback firing is an explicit event method
  whose precondition is that the timer is pending. A cleared timer never fires.
- **Transcendental functions become parameters.** `Math.pow(0.85, dt)` is the `drag`
  argument of `script.js`'s update, and `Math.sin(timestamp / 500)` is the `hover`
  argument of `game.js`'s.
- **Angles.** `random(0, Math.PI * 2)` is stored as a fraction of a full turn,
  `random(0, 1)`.

The transition progress of `script.js` is not clamped before `smoothstep`, while its
timer runs to four transition lengths. The model proves that the progress lies in
[0, 1] during the first transition length, and that it is negative once the timer
passes 525 (`ScriptEngine.DrawProgressLeavesUnitInterval`). `game.js` clamps the ratio,
and there the progress is proved to lie in [0, 1] always.

## Model

| member | source | states |
|---|---|---|
| Noise.JsRem | src/utils/noise.js:6 | JavaScript's `%`: the remainder is in [0, m) for a non-negative dividend and in (-m, 0] for a negative one, and the dividend minus the remainder is a multiple of m, which together fix its value |
| Noise.LcgStep | src/utils/noise.js:6 | from a non-negative state the next state lies in [0, 233280); from any state it lies strictly between -233280 and 233280 |
| Noise.UnitRange | src/utils/noise.js:7 | a state in [0, 233280) yields a value in [0, 1) |
| Noise.LcgStaysInRange | src/utils/noise.js:3-8 | from a non-negative seed every state stays non-negative, and every state after the first call lies in [0, 233280) with its value in [0, 1) |
| Noise.LcgSameSeedSameStream | src/utils/noise.js:3-8 | running n more calls from the state after m calls gives the state after m + n calls, so equal seeds give equal sequences |
| Noise.SeededRandom.constructor | src/utils/noise.js:3-4 | the generator starts in the seed |
| Noise.SeededRandom.Next | src/utils/noise.js:5-8 | the state advances by one generator step, the value returned is the new state divided by 233280, and it lies in [0, 1) for a non-negative old state |
| Noise.Swap | src/utils/noise.js:19 | the destructuring swap exchanges entries i and j and leaves every other entry alone |
| Noise.SwapPermutes | src/utils/noise.js:19 | a swap keeps the multiset of entries |
| Noise.SwapTwice | src/utils/noise.js:19 | swapping the same pair twice restores the table |
| Noise.SwapIndex | src/utils/noise.js:18 | `floor(r * (i + 1))` for a generator value r lies in [0, i] |
| Noise.ShuffleFrom | src/utils/noise.js:17-20 | the rest of the descending loop keeps the table length |
| Noise.Shuffle | src/utils/noise.js:15-21 | a reseed keeps the table length |
| Noise.ShuffleFromPermutes | src/utils/noise.js:17-20 | the descending swap loop only rearranges the table |
| Noise.ShufflePermutes | src/utils/noise.js:15-21 | a reseed yields a permutation of the table it started from |
| Noise.ShuffleFromInjective | src/utils/noise.js:17-20 | with the same generator state, the loop maps different tables to different tables |
| Noise.ShuffleDependsOnTable | src/utils/noise.js:15-21 | a reseed shuffles the current contents rather than restarting from the identity: with the same seed, different tables give different results |
| Noise.ShuffleAll | src/utils/noise.js:15-24 | any number of reseeds keeps the table length |
| Noise.ShuffleAllPermutes | src/utils/noise.js:12-24 | after any sequence of reseeds the table is a permutation of the one it started as, hence of 0..255 from the identity |
| Noise.LatticeIndex | src/utils/noise.js:34 | `floor(x) & 255` lies in [0, 255], agrees with `floor(x)` modulo 256, and both lookups X and X + 1 fall inside the doubled 512-entry table |
| Noise.QuinticUnit | src/utils/noise.js:30 | the fade is 0 at 0 and 1 at 1, and it maps [0, 1] into [0, 1] |
| Noise.NoiseAtLattice | src/utils/noise.js:33-41 | the noise is 0 at every integer |
| Noise.NoiseBounded | src/utils/noise.js:33-41 | the noise lies in [-2, 2] for every x and every table |
| Noise.AmplitudeSumPositive | src/utils/noise.js:48-52 | with a positive amplitude and persistence, `maxValue` is non-negative and at least the first amplitude once one octave has run |
| Noise.AmplitudeSumGeometric | src/utils/noise.js:47-52 | `maxValue` is the geometric sum of the amplitudes 1, p, p², …: (1 - p) times the sum equals 1 - pⁿ |
| Noise.OctaveSumBounded | src/utils/noise.js:49-54 | when every sample lies in [-2, 2], `total` lies within twice the summed amplitude |
| Noise.OctaveLoop | src/utils/noise.js:45-54 | the octave loop leaves in `total` the sum of the samples at frequencies 1, l, l², … weighted by amplitudes 1, p, p², …, and in `maxValue` the sum of those amplitudes |
| Noise.FbmBounded | src/utils/noise.js:44-56 | with at least one octave and a positive persistence, `fbm` is defined and lies in [-2, 2] |
| Noise.NoiseTable.constructor | src/utils/noise.js:12 | the table starts as the identity 0..255 |
| Noise.NoiseTable.Reseed | src/utils/noise.js:15-21 | the in-place loop leaves exactly the shuffle of the old contents by the seed's generator, and the table stays a permutation of 0..255 |
| Noise.NoiseTable.Sample | src/utils/noise.js:33-41 | the noise over the current table lies in [-2, 2] and is 0 at integers |
| Noise.NoiseTable.Fbm | src/utils/noise.js:44-56 | the octave loop returns the amplitude-normalised octave sum, or no number when `maxValue` is 0; with at least one octave and a positive persistence, a value in [-2, 2] |
| Util.Filter | script.js:329 | `filter` never lengthens a list |
| Util.FilterMembers | script.js:329-336 | the survivors of a filter are exactly the elements that pass its test |
| Util.FilterIsSubsequence | script.js:329-336 | the survivors of a filter keep their relative order |
| Util.FilterKeepsEverything | script.js:329 | a filter that rejects nothing returns its input |
| Util.FilterAppend | script.js:329-336 | filtering a concatenation filters each part |
| Util.PushBounded | script.js:260-262 | pushing, then shifting once if the bound is exceeded, appends the point below the bound and drops the single oldest point at or above it |
| Util.PushBoundedLength | script.js:260-262 | the trail never becomes shorter and never grows past the larger of its old length and the bound |
| Util.PushAllFillsToBound | script.js:260-262 | under a fixed bound the trail grows by one per frame until it reaches the bound, and then stays at the bound |
| Blend.Lerp | script.js:150 | `lerp(a, b, 0) = a` and `lerp(a, b, 1) = b` |
| Blend.LerpWithin | script.js:150 | with a weight in [0, 1], `lerp` stays within any interval holding both end points |
| Blend.LerpApproaches | script.js:150 | with a weight t in [0, 1], `lerp` lands between a and b and leaves the fraction 1 - t of the distance to b |
| Blend.Smoothstep | script.js:153 | `smoothstep` is 0 at 0, 1 at 1 and 0.5 at 0.5 |
| Blend.SmoothstepUnit | script.js:153 | `smoothstep` maps [0, 1] into [0, 1] |
| Blend.SmoothstepMonotone | script.js:153 | `smoothstep` is non-decreasing on [0, 1] |
| Blend.SmoothstepNegativePastThreeHalves | script.js:153 | `smoothstep` is negative beyond 1.5 |
| Blend.RandomIn | script.js:169 | `random(min, max)` with a draw in [0, 1) lies in [min, max), and it gives min when the interval is empty |
| Blend.Round | script.js:164-166 | `Math.round` returns the integer n with n - 0.5 <= x < n + 0.5 |
| Blend.RoundInteger | script.js:164-166 | `Math.round` leaves integers unchanged |
| Blend.TrimStart | script.js:157 | leading white space is removed and nothing else: the result is a suffix that does not start with white space, and every character removed is white space |
| Blend.HexRunLength | script.js:157 | the longest prefix of hexadecimal digits: every character before it is a digit and the next one is not |
| Blend.ParseIntHex | script.js:157 | `parseInt(_, 16)` gives a number exactly when a hexadecimal digit follows the white space, sign and `0x` prefix |
| Blend.ParseAllDigits | script.js:157 | a string of one or more hexadecimal digits parses to the number those digits denote |
| Blend.HexToRgb | script.js:156-159 | every component lies in [0, 255], and a string without digits gives black |
| Blend.HexRoundTrip | script.js:156-159 | formatting a colour as `#rrggbb` and parsing it back gives the colour |
| Blend.LerpColorEnds | script.js:161-168 | `lerpColor(c1, c2, 0)` gives exactly c1's components and weight 1 gives c2's |
| Blend.LerpColorIsColor | script.js:161-168 | with a weight in [0, 1] every blended component lies in [0, 255] |
| ScriptEngine.DirectorStep | script.js:265-269 | the director keeps both indices in [0, 10) with next = (current + 1) % 10; past four transition lengths the timer becomes exactly 0 and current takes the old next, otherwise the timer just advances by dt |
| ScriptEngine.DirectorAdvancesCyclically | script.js:266-269 | at a theme change the indices become (current + 1) % 10 and (current + 2) % 10 |
| ScriptEngine.FrameDt | script.js:234-237 | on the first frame the old dt is kept; a frame exactly 1000/60 ms after the last one has dt = 1; time that moves forward gives dt >= 0 |
| ScriptEngine.SpeedApproachesTarget | script.js:248 | in a frame with 0 <= dt <= 4 the speed moves toward its target without passing it, closing the gap by the factor 1 - 0.05 dt, and stays in [4, 18] |
| ScriptEngine.SpringPullsTowardTarget | script.js:252-257 | the spring pulls toward mid-height: a player below the target that is not moving down leaves moving up or at rest, and symmetrically above it |
| ScriptEngine.SpringAtRest | script.js:252-257 | a player at rest at mid-height stays there |
| ScriptEngine.SpringZeroFrame | script.js:252-257 | a frame of zero length leaves the height unchanged and only damps the velocity |
| ScriptEngine.TrailAfterFrame | script.js:260-262 | the newest trail point is the player's; the trail grows by one if that keeps it within 10 + floor(1.5 speed), and otherwise exactly the oldest point is dropped |
| ScriptEngine.ParticleDensityRange | script.js:286 | between base and boost speed the particle chance grows from 0.05 to 0.5 |
| ScriptEngine.SpawnProp | script.js:288-304 | a prop spawns exactly when the roll is below 0.015 and the theme has props; it appears at x = w + 100 with the theme's type, gets an alpha only for stars, and with draws in range its height, scale, rotation and alpha lie in their intervals |
| ScriptEngine.SpawnParticle | script.js:306-326 | a particle spawns exactly when the roll is below the density; it appears at x = w + 10 with life 1 and the theme's particle type or `default`; rain falls at (-speed - 10, 20), any other kind moves left at 0.8 to 1.2 times the speed |
| ScriptEngine.CulledPropsSurvivors | script.js:329 | every surviving prop has x > -200 and is an input prop moved left by exactly speed·dt, and the survivors keep their order |
| ScriptEngine.CulledParticlesSurvivors | script.js:330-336 | every surviving particle has life > 0 and is an input particle advanced one frame, and the survivors keep their order |
| ScriptEngine.NextEntitiesCulled | script.js:284-337 | after `generateWorldEntities` every prop is on screen and every particle alive |
| ScriptEngine.ScrollPropsAppend | script.js:329 | scrolling a concatenation scrolls each part |
| ScriptEngine.SpawnedPropIsNewest | script.js:302-329 | a spawned prop that survives its first scroll ends the prop list |
| ScriptEngine.DrawProgressDuringTransition | script.js:340-342 | while the timer lies in [0, 350] the progress lies in [0, 1] and rises with the timer |
| ScriptEngine.DrawProgressLeavesUnitInterval | script.js:340-342 | the progress is not clamped: past 525 frames of the cycle, which runs to 1400, it is negative |
| ScriptEngine.DrawProgressBounds | script.js:340-342 | both of the above, for a single timer value |
| ScriptEngine.StepsKeepLockConsistent | script.js:186-230 | every handler keeps the target at the boost speed exactly while locked or while a key's timer is pending |
| ScriptEngine.PressReleaseRestores | script.js:186-230 | while unlocked, pressing a boost key that is not held and releasing it before its timer fires restores the previous state |
| ScriptEngine.RepeatsIgnored | script.js:186-230 | while unlocked a second keydown of the same key changes nothing; a second keyup never changes anything |
| ScriptEngine.TimerLocksBoost | script.js:207-211 | in a consistent state a firing timer locks the speed with the target at the boost speed |
| ScriptEngine.HoldLocksUntilNextPress | script.js:186-230 | from the start, press, firing, release leaves the speed locked at boost; the next keydown of either boost key, including an auto-repeat of the held key, returns to the initial state; press, release, firing returns to it too |
| ScriptEngine.OtherKeysIgnored | script.js:186-230 | events for keys other than KeyD and Space change nothing, since no such key ever has a timer |
| ScriptEngine.RunKeysKeepsLockConsistent | script.js:183-230 | any sequence of presses, releases and firings keeps that invariant |
| ScriptEngine.ReachableLocksConsistent | script.js:183-230 | the invariant holds in every state reachable from the start |
| ScriptEngine.FrameStepDirector | script.js:245-275 | a frame keeps the director consistent, advances t by dt, and changes the theme exactly when the timer passes 1400, restarting it at 0 |
| ScriptEngine.FrameStepSpeed | script.js:248 | a frame keeps the speed in [4, 18] and between its old value and the target |
| ScriptEngine.FrameStepTrail | script.js:259-262 | after a frame the trail ends with the player's new position and speed, grows by one within the bound and otherwise drops exactly the oldest point |
| ScriptEngine.FrameStepEntities | script.js:277-278 | after a frame every prop is on screen and every particle alive, and the lists are those `generateWorldEntities` builds under the theme the director has just chosen |
| ScriptEngine.Engine.constructor | script.js:130-147 | the initial state after the first `resize()`: base speed, themes 0 and 1, empty lists, player at (0.2 w, 0.5 h), no key held, unlocked |
| ScriptEngine.Engine.Resize | script.js:172-177 | the new canvas size, with the player re-placed at (0.2 w, 0.5 h) |
| ScriptEngine.Engine.KeyDown | script.js:186-212 | the lock fields change as `KeyDownStep` says, and the lock invariant is kept |
| ScriptEngine.Engine.KeyUp | script.js:214-230 | the lock fields change as `KeyUpStep` says, and the lock invariant is kept |
| ScriptEngine.Engine.KeyTimerFired | script.js:207-211 | the lock fields change as `TimerFiredStep` says, and the lock invariant is kept |
| ScriptEngine.Engine.GenerateWorldEntities | script.js:284-337 | the entity lists become those of the entity phase and nothing else changes |
| ScriptEngine.Engine.AdvanceMotion | script.js:245-262 | the clock, speed, height, vertical velocity and trail become those of the motion phase |
| ScriptEngine.Engine.AdvanceDirector | script.js:265-275 | the director fields become those of the director phase |
| ScriptEngine.Engine.Frame | script.js:245-278 | the four steps in order leave the state `FrameStep` describes, with the director consistent |
| ScriptEngine.Engine.Update | script.js:233-282 | `lastTime` records the call, dt is normalised; a frame with dt > 4 changes nothing else, any other frame leaves the state `FrameStep` describes |
| ScriptEngine.Engine.Progress | script.js:340-342 | the progress lies in [0, 1] while the timer lies in [0, 350], and is negative once the timer passes 525 |
| GameEngine.DirectorTick | game.js:156-160 | one update keeps both indices in [0, 3) with next = (current + 1) % 3 |
| GameEngine.DirectorTicks | game.js:156-160 | any number of updates keeps the director consistent |
| GameEngine.TicksWithinCycle | game.js:156-157 | within a cycle the theme stays and the timer increases by exactly 1 per update |
| GameEngine.ThemeCycle | game.js:156-160 | from a fresh timer a theme stays current for 1400 updates, and on update 1401 its successor takes over with the timer at 0 |
| GameEngine.RampSpeed | game.js:138-145 | the speed moves toward the target without passing it, by at most 0.2 up or 0.1 down, stays put at the target, and lands on the target when within one step |
| GameEngine.RampUp | game.js:139-141 | accelerating, the speed after n frames is min(vx + 0.2 n, target) |
| GameEngine.RampDown | game.js:142-144 | decelerating, the speed after n frames is max(vx - 0.1 n, target) |
| GameEngine.RampDurations | game.js:138-145 | from 4 the speed reaches 18 exactly from frame 70 on, and from 18 it is back at 4 exactly from frame 140 on |
| GameEngine.RampOverStaysInRange | game.js:138-145 | starting in [4, 18], the speed stays in [4, 18] under any sequence of accelerator readings |
| GameEngine.HoverBounded | game.js:122-126 | the hovering player stays within 5% of the height around mid-screen |
| GameEngine.ParticleDensityRange | game.js:174-176 | between cruising and full speed the particle chance grows from 0.05 to 0.5 |
| GameEngine.SpawnProp | game.js:178-190 | a prop spawns exactly when the roll is below 0.015 and the theme has props, at x = w + 100 with the theme's type; with draws in range its height, scale and rotation lie in their intervals |
| GameEngine.SpawnParticle | game.js:192-203 | a particle spawns exactly when the roll is below the density, at x = w + 10 with life 1 and the theme's prop type, moving left at 0.8 to 1.2 times the speed |
| GameEngine.ScrollAll | game.js:207-213 | scrolling keeps the number of props |
| GameEngine.AdvanceAll | game.js:216-225 | advancing keeps the number of particles |
| GameEngine.CullPropsStep | game.js:207-213 | one iteration of the reverse loop extends the processed suffix by one: scrolled, and spliced out when off screen |
| GameEngine.CullParticlesStep | game.js:216-225 | one iteration of the reverse loop extends the processed suffix by one: advanced, and spliced out when dead |
| GameEngine.ScrollAllAt | game.js:207-213 | the i-th prop after the scroll is the i-th prop before it, moved left by vx |
| GameEngine.ScrollAllSurvivors | game.js:207-213 | the survivors keep their relative order; every surviving prop is on screen and is an input prop moved left by exactly vx, and every prop that is still on screen after the scroll survives |
| GameEngine.AdvanceAllAt | game.js:216-225 | the i-th advanced particle is the i-th input particle advanced one frame |
| GameEngine.AdvanceAllSurvivors | game.js:216-225 | the survivors keep their relative order; every surviving particle is alive and is an input particle advanced one frame, and every particle still alive after the frame survives |
| GameEngine.AgingBound | game.js:220 | at non-negative speeds a particle loses at least 0.01 of life per frame and keeps its kind |
| GameEngine.ParticleLifetime | game.js:199-224 | a particle spawned with life 1 is dead after at most 100 frames |
| GameEngine.Clamp01 | game.js:230 | the clamped ratio lies in [0, 1] and equals the ratio when that already lies there |
| GameEngine.DrawProgressProperties | game.js:228-232 | the progress always lies in [0, 1], rises with the timer, is 0 at the start of a cycle and whenever the two theme indices are equal, and is 1 from 350 frames on |
| GameEngine.FrameStepSpeed | game.js:134-166 | a frame keeps the speed in [4, 18] and the director consistent, increments t, and moves the speed up while accelerating and down otherwise |
| GameEngine.FrameStepTrail | game.js:150-153 | after a frame the trail ends with the player's new point, grows by one within 10 + floor(2.5 vx) and otherwise drops exactly the oldest point |
| GameEngine.FrameStepEntities | game.js:168-226 | after a frame no prop has x <= -200 and no particle has life <= 0 |
| GameEngine.Engine.constructor | game.js:60-74 | the initial state after the first `resize()`: cruising speed, themes 0 and 1, empty lists, player at (0.2 w, 0.5 h), not accelerating |
| GameEngine.Engine.Resize | game.js:99-104 | the new canvas size, with the player re-placed at (0.2 w, 0.5 h) |
| GameEngine.Engine.KeyDown | game.js:110-112 | Space and KeyD start accelerating; other keys change nothing |
| GameEngine.Engine.KeyUp | game.js:113-115 | releasing Space or KeyD stops accelerating; other keys change nothing |
| GameEngine.Engine.PointerDown | game.js:116 | a mouse press accelerates, and so does a touch start (the listener at game.js line 118) |
| GameEngine.Engine.PointerUp | game.js:117 | a mouse release stops accelerating, and so does a touch end (the listener at game.js line 119) |
| GameEngine.Engine.UpdatePlayer | game.js:122-126 | the player's height is the hover height |
| GameEngine.Engine.AdvanceMotion | game.js:135-153 | the imperative ramp, hover and trail push/shift leave exactly the motion phase |
| GameEngine.Engine.AdvanceDirector | game.js:156-166 | the timer increment and reset leave exactly the director phase |
| GameEngine.Engine.CullProps | game.js:207-213 | the reverse splice loop leaves exactly the scrolled props that are on screen, in order, which is what a `filter` would leave |
| GameEngine.Engine.CullParticles | game.js:216-225 | the reverse splice loop leaves exactly the advanced particles that are alive, in order |
| GameEngine.Engine.GenerateWorldEntities | game.js:172-226 | spawning followed by the two loops leaves exactly the entity phase |
| GameEngine.Engine.Update | game.js:134-170 | one update keeps the speed in [4, 18] and the director consistent, and leaves the state `FrameStep` describes |
| GameEngine.Engine.Progress | game.js:228-232 | the progress lies in [0, 1], and is 1 once the timer reaches 350 during a transition |
| CrystalApp.MoveX | src/main.js:24-33 | from [10, 90.17) the crystal stays in [10, 90.17) |
| CrystalApp.GlideFromStart | src/main.js:25-26 | from x = 10 the crystal advances exactly 0.17 per frame for 471 frames |
| CrystalApp.CrossingTakes472Frames | src/main.js:24-33 | from x = 10 the crystal reaches 90.07 after 471 frames and is back at 10 after 472, and not before |
| CrystalApp.FadedOpacities | src/main.js:35-39 | after pushing the new dot and fading every dot, dot i of a well-shaped trail of length n has opacity 0.05·(19 − n + i) |
| CrystalApp.TrailStepGrows | src/main.js:35-39 | below 19 dots, no dot becomes invisible, so `updateTrail` is the push followed by the fade |
| CrystalApp.TrailStepDropsOldest | src/main.js:35-39 | at 19 dots only the oldest dot fades to 0 and is filtered out |
| CrystalApp.TrailStepKeepsShape | src/main.js:35-39 | after `updateTrail` the newest dot is at the crystal with opacity 0.95; the older dots are the old ones faded by 0.05; the trail grows by one until it holds 19 dots and then drops exactly the oldest; every dot stays visible |
| CrystalApp.TrailShapeEmpty | src/main.js:9 | the empty initial trail has that shape |
| CrystalApp.NewParticle | src/main.js:100-105 | with draws in [0, 1) a new particle has x and y in [0, 100), speed in [0.1, 0.6) and the scene's character |
| CrystalApp.Fall | src/main.js:42-48 | a particle falls by its speed; past 100 it restarts at y = 0 with a new x; its speed and character stay, and a valid particle stays valid |
| CrystalApp.FallAllKeepsParticlesOk | src/main.js:41-49 | falling keeps every particle on screen, with y <= 100 |
| CrystalApp.NewParticlesOk | src/main.js:97-107 | freshly created particles are valid |
| CrystalApp.StepsKeepFlagsValid | src/main.js:63-95 | every handler keeps "moving exactly when the timeout is pending or auto-moving, never both", hence auto-moving implies moving |
| CrystalApp.RunInputsKeepsFlagsValid | src/main.js:63-95 | that invariant holds after any sequence of presses, releases and timeouts |
| CrystalApp.HoldToLock | src/main.js:75-95 | from rest, the events press, timeout, release leave the crystal moving on its own; a further press stops it; press, release, timeout leaves it stopped |
| CrystalApp.KeyRepeatAfterTimeoutStops | src/main.js:75-88 | a keydown repeated after the timeout has fired (keyboard auto-repeat while the key is held) takes the auto-moving branch and stops the crystal |
| CrystalApp.PressReleaseStops | src/main.js:75-95 | in any consistent state that is not moving on its own, pressing and then releasing a movement key ends with the crystal stopped |
| CrystalApp.RepeatsIgnored | src/main.js:75-95 | before the timeout a second keydown changes nothing; a second keyup never changes anything |
| CrystalApp.TimerKeepsMoving | src/main.js:84-86 | in a consistent state the timeout fires only while moving, so afterwards the crystal moves on its own with nothing pending |
| CrystalApp.OtherKeysIgnored | src/main.js:75-95 | presses and releases of keys other than d, D and Space leave the flags unchanged |
| CrystalApp.App.constructor | src/main.js:5-22 | the initial refs followed by `createSceneParticles` in `onMounted`: crystal at (10, 50), stopped, empty trail, scene 0, 50 valid particles |
| CrystalApp.App.CreateSceneParticles | src/main.js:97-107 | the list is replaced by exactly the particles made from the draws, all valid with the current scene's character |
| CrystalApp.App.MoveRight | src/main.js:24-33 | below 90 the crystal moves right by 0.17 and the scene stays; otherwise it returns to 10, the scene index advances modulo 4 and the particles are regenerated; the scene always matches its index |
| CrystalApp.App.UpdateTrail | src/main.js:35-39 | the push, the fading loop and the filter leave exactly the trail step |
| CrystalApp.App.UpdateSceneParticles | src/main.js:41-49 | the loop leaves every particle fallen once |
| CrystalApp.App.ThrottledTrail | src/main.js:54-57 | the trail updates and the time is recorded only when more than 50 ms have passed |
| CrystalApp.App.GameLoop | src/main.js:51-61 | only while moving does the crystal move and the trail update (throttled); the particles fall on every frame; the component invariant is kept |
| CrystalApp.App.StartMoving | src/main.js:63-66 | afterwards the crystal is moving |
| CrystalApp.App.StopMoving | src/main.js:68-73 | both flags off and the timeout cleared |
| CrystalApp.App.HandleKeyDown | src/main.js:75-88 | the flags change as the keydown handler `KeyDownStep` does, and the component invariant is kept |
| CrystalApp.App.HandleKeyUp | src/main.js:90-95 | the flags change as the keyup handler `KeyUpStep` does, and the component invariant is kept |
| CrystalApp.App.AutoMoveTimerFired | src/main.js:84-86 | the flags change as the timeout callback `TimerStep` does, and the component invariant is kept |

## Left out

- Floating point: all arithmetic is exact. IEEE-754 rounding of the 0.05 trail fade, the
  0.17 glide, the 0.1 and 0.2 ramp steps and the noise is not modelled. The stated
  constants (19 dots, 472 frames, 70 and 140 frames) are those of exact arithmetic.
  With repeated double-precision steps the `game.js` ramp falls just short after 70 and
  140 frames, so it reaches 18 only on frame 71 and returns to 4 only on frame 141; the
  472-frame crossing and the 19-dot trail are the same in doubles.
- Drawing: the canvas drawing functions, gradients, colours of the themes and scenes,
  the `rgb(r,g,b)` text (represented by its three components), the Vue template and the
  DOM are not modelled. They only produce pixels, with the exception named in the next line.
- ScriptEngine.Engine.Update: the rotation increment that `drawParticles` applies to every
  particle (script.js:654, called twice per frame at lines 397 and 406) is not modelled,
  so the model keeps each particle's `rot` at its spawn value. Rotations are held in turns
  and the increment is in radians, so modelling it would need π.
- Browser plumbing:
  - the `uiName` label fade and its one-second `setTimeout`;
  - `requestAnimationFrame` scheduling;
  - listener registration and `onUnmounted`;
  - `gameLoop(0)` in `onMounted`.
- Transcendental functions: `Math.pow(0.85, dt)` and `Math.sin(timestamp / 500)` enter
  as parameters.
- `Math.random()`: every result is a parameter. The initial seeds of `noise.js`
  (`Math.random()` at lines 13 and 24) are not modelled; only reseeds with non-negative
  integer seeds are.
- The stale constant `P` of `noise.js` (line 27): it is never read.
- Blend.HexToRgb: strings are sequences of Unicode code points, while `hex.slice(1)`
  (script.js:157, game.js:84) drops one UTF-16 code unit. For a string whose first
  character lies outside the Basic Multilingual Plane, such as "\u{1F600}abc", the source
  leaves a lone low surrogate before "abc" and yields [0, 0, 0], while the model drops the
  whole character and yields Rgb(0, 10, 188). Every theme colour is a `#rrggbb` literal,
  so no caller passes such a string.
- `parseInt` is exact: `Blend.ParseIntHex` does not round values beyond 2^53.
- Octave counts are natural numbers. A fractional or negative `octaves` is not modelled.
- `game.js`'s `player.vy`: it is never read or written after initialisation, so it is
  not represented.
- Rotations are stored in turns (`random(0, 1)`) instead of radians.
- `flight_fix_verification.py`, `verification.spec.js` and `verify_game.spec.js` are
  screenshot scripts. `vite.config.js` is build configuration.
- CrystalApp.App.AutoMoveTimerFired: the timeout handle `keydownTimeout` is modelled as
  `timerPending`, whether a timeout is armed and has neither fired nor been cleared.
  After firing, the source keeps the stale handle; clearing a stale handle does nothing,
  so the flag loses nothing.
- ScriptEngine.Engine.Update: its `ensures` do not restate the speed-lock invariant.
  Update's `modifies` clause excludes the three fields the lock reads, so the invariant
  carries over from its `requires` through the frame.
- ScriptEngine.Engine.constructor and GameEngine.Engine.constructor represent the
  module-level initial state followed by the first `resize()`.
