/** The frame-update core of the three-theme canvas engine: the speed ramp,
    the hovering player, the bounded trail, the frame-counting director,
    entity spawning with culling by reverse loops, and the clamped
    transition progress. */
module GameEngine {
  import opened Util
  import opened Blend

  const MinSpeed: real := 4.0
  const MaxSpeed: real := 18.0
  const Acceleration: real := 0.2
  const Deceleration: real := 0.1
  const TransitionFrames: int := 350
  const TerrainBaseY: real := 0.9
  const PlayerInitialX: real := 0.2
  const PropChance: real := 0.015
  const CullX: real := -200.0

  // ---------------------------------------------------------------------
  // Themes and the director

  /** The parts of a theme the update logic reads; colours only feed drawing. */
  datatype Theme = Theme(name: string, propType: string)

  const Themes: seq<Theme> := [
    Theme("SPRING AWAKENING", "petals"),
    Theme("GOLDEN RADIANCE", "ruins"),
    Theme("STARLIGHT VOID", "crystals")
  ]

  /** `THEMES.length`. */
  const ThemeCount: int := 3

  function NextTheme(i: int): int
  {
    (i + 1) % ThemeCount
  }

  predicate DirectorValid(current: int, next: int)
  {
    0 <= current < ThemeCount && 0 <= next < ThemeCount && next == NextTheme(current)
  }

  /** One frame of the director: the frame counter goes up by one; once it
      exceeds four transition lengths it restarts at 0 and the next theme
      becomes current. Returns `(current, next, timer)`. */
  function DirectorTick(current: int, next: int, timer: int): (r: (int, int, int))
    requires DirectorValid(current, next)
    ensures DirectorValid(r.0, r.1)
  {
    if timer + 1 > TransitionFrames * 4 then (next, NextTheme(next), 0)
    else (current, next, timer + 1)
  }

  /** `n` frames of the director. */
  function DirectorTicks(current: int, next: int, timer: int, n: nat): (r: (int, int, int))
    requires DirectorValid(current, next)
    ensures DirectorValid(r.0, r.1)
    decreases n
  {
    if n == 0 then (current, next, timer)
    else
      var before := DirectorTicks(current, next, timer, n - 1);
      DirectorTick(before.0, before.1, before.2)
  }

  /** Within one cycle the theme stays and the counter just counts frames. */
  lemma {:induction false} TicksWithinCycle(current: int, timer: int, k: nat)
    requires 0 <= current < ThemeCount && timer + k <= TransitionFrames * 4
    ensures DirectorTicks(current, NextTheme(current), timer, k) == (current, NextTheme(current), timer + k)
    decreases k
  {
    if k > 0 {
      TicksWithinCycle(current, timer, k - 1);
    }
  }

  /** Starting from a fresh counter, a theme is current for exactly
      `4 * 350 + 1 = 1401` frames; on the next frame its successor takes
      over and the counter is 0 again. */
  lemma ThemeCycle(current: int)
    requires 0 <= current < ThemeCount
    ensures DirectorTicks(current, NextTheme(current), 0, TransitionFrames * 4)
            == (current, NextTheme(current), TransitionFrames * 4)
    ensures DirectorTicks(current, NextTheme(current), 0, TransitionFrames * 4 + 1)
            == (NextTheme(current), NextTheme(NextTheme(current)), 0)
  {
    TicksWithinCycle(current, 0, TransitionFrames * 4);
  }

  // ---------------------------------------------------------------------
  // Speed ramp

  function TargetSpeed(accelerating: bool): real
  {
    if accelerating then MaxSpeed else MinSpeed
  }

  /** One frame of the horizontal speed physics: step toward the target by
      the acceleration (up) or deceleration (down), never past it. */
  function RampSpeed(vx: real, target: real): (r: real)
    ensures RealMin(vx, target) <= r <= RealMax(vx, target)
    ensures vx < target ==> 0.0 < r - vx <= Acceleration
    ensures vx > target ==> 0.0 < vx - r <= Deceleration
    ensures vx == target ==> r == vx
    ensures vx < target && target - vx <= Acceleration ==> r == target
    ensures vx > target && vx - target <= Deceleration ==> r == target
  {
    if vx < target then RealMin(vx + Acceleration, target)
    else if vx > target then RealMax(vx - Deceleration, target)
    else vx
  }

  /** The speed after `n` frames with a fixed target. */
  function RampFrames(vx: real, target: real, n: nat): real
    decreases n
  {
    if n == 0 then vx else RampSpeed(RampFrames(vx, target, n - 1), target)
  }

  /** Accelerating, the speed grows by exactly 0.2 per frame until it
      reaches the target, and then stays there. */
  lemma {:induction false} RampUp(vx: real, target: real, n: nat)
    requires vx <= target
    ensures RampFrames(vx, target, n) == RealMin(vx + Acceleration * n as real, target)
    decreases n
  {
    if n > 0 {
      RampUp(vx, target, n - 1);
    }
  }

  /** Decelerating, the speed falls by exactly 0.1 per frame down to the
      target. */
  lemma {:induction false} RampDown(vx: real, target: real, n: nat)
    requires vx >= target
    ensures RampFrames(vx, target, n) == RealMax(vx - Deceleration * n as real, target)
    decreases n
  {
    if n > 0 {
      RampDown(vx, target, n - 1);
    }
  }

  /** From cruising speed, holding the accelerator reaches full speed after
      exactly 70 frames; releasing it at full speed returns to cruising
      speed after exactly 140 frames. */
  lemma RampDurations(n: nat)
    ensures RampFrames(MinSpeed, MaxSpeed, n) == MaxSpeed <==> n >= 70
    ensures RampFrames(MaxSpeed, MinSpeed, n) == MinSpeed <==> n >= 140
  {
    RampUp(MinSpeed, MaxSpeed, n);
    RampDown(MaxSpeed, MinSpeed, n);
  }

  /** The speed after a run of frames, given whether the accelerator was
      held in each. */
  function RampOver(vx: real, accelerating: seq<bool>): real
    decreases |accelerating|
  {
    if accelerating == [] then vx
    else RampOver(RampSpeed(vx, TargetSpeed(accelerating[0])), accelerating[1..])
  }

  /** Starting at cruising speed, no sequence of presses and releases takes
      the speed outside [4, 18]. */
  lemma {:induction false} RampOverStaysInRange(vx: real, accelerating: seq<bool>)
    requires MinSpeed <= vx <= MaxSpeed
    ensures MinSpeed <= RampOver(vx, accelerating) <= MaxSpeed
    decreases |accelerating|
  {
    if accelerating != [] {
      RampOverStaysInRange(RampSpeed(vx, TargetSpeed(accelerating[0])), accelerating[1..]);
    }
  }

  // ---------------------------------------------------------------------
  // Player

  /** `updatePlayer`: `h / 2 + sin(timestamp / 500) * h * 0.05`, where
      `hover` stands for the sine. */
  function PlayerHeight(h: real, hover: real): real
  {
    h / 2.0 + hover * h * 0.05
  }

  /** The hover keeps the player within 5% of the canvas height around the
      middle, so the player never falls. */
  lemma HoverBounded(h: real, hover: real)
    requires 0.0 <= h && -1.0 <= hover <= 1.0
    ensures 0.45 * h <= PlayerHeight(h, hover) <= 0.55 * h
  {
    MulNonneg(1.0 + hover, h);
    MulNonneg(1.0 - hover, h);
    assert PlayerHeight(h, hover) - 0.45 * h == (1.0 + hover) * h * 0.05;
    assert 0.55 * h - PlayerHeight(h, hover) == (1.0 - hover) * h * 0.05;
  }

  datatype TrailPoint = TrailPoint(x: real, y: real, speed: real)

  /** `10 + Math.floor(vx * 2.5)`. */
  function MaxTrailLength(vx: real): int
  {
    10 + (vx * 2.5).Floor
  }

  // ---------------------------------------------------------------------
  // Entities

  /** `rot` is stored as a fraction of a full turn. */
  datatype Prop = Prop(x: real, y: real, kind: string, scale: real, rot: real)

  datatype Particle = Particle(x: real, y: real, vx: real, vy: real, life: real, size: real, kind: string)

  /** The `Math.random()` results one call of `generateWorldEntities` may
      consume, in the order the source asks for them. */
  datatype SpawnDraws = SpawnDraws(propRoll: real, propY: real, propScale: real, propRot: real,
                                   particleRoll: real, particleY: real, particleVx: real,
                                   particleVy: real, particleSize: real)

  predicate IsDraw(u: real) { 0.0 <= u < 1.0 }

  predicate DrawsInRange(d: SpawnDraws)
  {
    IsDraw(d.propRoll) && IsDraw(d.propY) && IsDraw(d.propScale) && IsDraw(d.propRot)
    && IsDraw(d.particleRoll) && IsDraw(d.particleY) && IsDraw(d.particleVx)
    && IsDraw(d.particleVy) && IsDraw(d.particleSize)
  }

  /** `speedRange > 0 ? (vx - min) / speedRange : 0`. */
  function SpeedProgress(vx: real): real
  {
    var speedRange := MaxSpeed - MinSpeed;
    if speedRange > 0.0 then (vx - MinSpeed) / speedRange else 0.0
  }

  function ParticleDensity(vx: real): real
  {
    Lerp(0.05, 0.5, SpeedProgress(vx))
  }

  /** Between cruising and full speed the spawn chance of a particle grows
      from 0.05 to 0.5. */
  lemma ParticleDensityRange(vx: real)
    requires MinSpeed <= vx <= MaxSpeed
    ensures 0.05 <= ParticleDensity(vx) <= 0.5
    ensures vx == MinSpeed ==> ParticleDensity(vx) == 0.05
    ensures vx == MaxSpeed ==> ParticleDensity(vx) == 0.5
  {
    LerpWithin(0.05, 0.5, SpeedProgress(vx), 0.05, 0.5);
  }

  /** The prop spawned this frame, if any: with chance 0.015, at the right
      edge, of the current theme's prop type. */
  function SpawnProp(theme: Theme, d: SpawnDraws, w: real, h: real): (r: Option<Prop>)
    ensures r.Some? <==> d.propRoll < PropChance && theme.propType != "none"
    ensures r.Some? ==> r.value.x == w + 100.0 && r.value.kind == theme.propType
    ensures r.Some? && DrawsInRange(d) ==>
      h * TerrainBaseY - 150.0 < r.value.y <= h * TerrainBaseY - 50.0
      && 0.8 <= r.value.scale < 1.5 && 0.0 <= r.value.rot < 1.0
  {
    if d.propRoll < PropChance && theme.propType != "none" then
      Some(Prop(w + 100.0, h * TerrainBaseY - RandomIn(d.propY, 50.0, 150.0), theme.propType,
                RandomIn(d.propScale, 0.8, 1.5), RandomIn(d.propRot, 0.0, 1.0)))
    else None
  }

  /** The particle spawned this frame, if any: with the speed-dependent
      chance, at the right edge, with full life, of the theme's prop type,
      moving left at between 0.8 and 1.2 times the player's speed. */
  function SpawnParticle(theme: Theme, d: SpawnDraws, w: real, h: real, vx: real): (r: Option<Particle>)
    ensures r.Some? <==> d.particleRoll < ParticleDensity(vx)
    ensures r.Some? ==> r.value.x == w + 10.0 && r.value.life == 1.0 && r.value.kind == theme.propType
    ensures r.Some? && DrawsInRange(d) && vx > 0.0 ==>
      -1.2 * vx < r.value.vx <= -0.8 * vx && -1.0 <= r.value.vy < 1.0
    ensures r.Some? && DrawsInRange(d) && h > 0.0 ==> 0.0 <= r.value.y < h && 1.0 <= r.value.size < 3.0
  {
    if d.particleRoll < ParticleDensity(vx) then
      Some(Particle(w + 10.0, RandomIn(d.particleY, 0.0, h),
                    -RandomIn(d.particleVx, vx * 0.8, vx * 1.2),
                    RandomIn(d.particleVy, -1.0, 1.0), 1.0,
                    RandomIn(d.particleSize, 1.0, 3.0), theme.propType))
    else None
  }

  function Scrolled(o: Prop, vx: real): Prop { o.(x := o.x - vx) }

  /** Every prop moved left by the player's speed. */
  function ScrollAll(ps: seq<Prop>, vx: real): (r: seq<Prop>)
    ensures |r| == |ps|
  {
    if ps == [] then [] else [Scrolled(ps[0], vx)] + ScrollAll(ps[1..], vx)
  }

  /** One frame of a particle: it moves by its velocity, stretched by the
      player's speed, and ages faster at higher speed. */
  function Advanced(p: Particle, vx: real): Particle
  {
    p.(x := p.x + p.vx * Lerp(1.0, 1.5, vx / MaxSpeed),
       y := p.y + p.vy,
       life := p.life - (0.01 + vx * 0.001))
  }

  function AdvanceAll(ps: seq<Particle>, vx: real): (r: seq<Particle>)
    ensures |r| == |ps|
  {
    if ps == [] then [] else [Advanced(ps[0], vx)] + AdvanceAll(ps[1..], vx)
  }

  /** A prop is removed once `x <= -200`. */
  predicate OnScreen(o: Prop) { o.x > CullX }

  /** A particle is removed once `life <= 0`. */
  predicate Alive(p: Particle) { p.life > 0.0 }

  lemma ScrollAllStep(ps: seq<Prop>, i: int, vx: real)
    requires 0 <= i < |ps|
    ensures ScrollAll(ps[i..], vx) == [Scrolled(ps[i], vx)] + ScrollAll(ps[i + 1..], vx)
  {
    assert ps[i..][1..] == ps[i + 1..];
  }

  lemma AdvanceAllStep(ps: seq<Particle>, i: int, vx: real)
    requires 0 <= i < |ps|
    ensures AdvanceAll(ps[i..], vx) == [Advanced(ps[i], vx)] + AdvanceAll(ps[i + 1..], vx)
  {
    assert ps[i..][1..] == ps[i + 1..];
  }

  /** The splice at `i` in terms of the filtered suffix: working from the
      end, position `i` is the first that has not been visited. */
  function SpliceIfCulled<T>(s: seq<T>, i: int, x: T, keep: T -> bool): seq<T>
    requires 0 <= i < |s|
  {
    var updated := s[i := x];
    if !keep(updated[i]) then updated[..i] + updated[i + 1..] else updated
  }

  /** One iteration of the prop loop extends the processed suffix by one. */
  lemma CullPropsStep(original: seq<Prop>, props: seq<Prop>, i: int, vx: real)
    requires 0 <= i < |original|
    requires props == original[..i + 1] + Filter(ScrollAll(original[i + 1..], vx), OnScreen)
    ensures SpliceIfCulled(props, i, Scrolled(props[i], vx), OnScreen)
            == original[..i] + Filter(ScrollAll(original[i..], vx), OnScreen)
  {
    var rest := Filter(ScrollAll(original[i + 1..], vx), OnScreen);
    assert props[..i] == original[..i] && props[i] == original[i] && props[i + 1..] == rest;
    ScrollAllStep(original, i, vx);
    FilterCons(Scrolled(original[i], vx), ScrollAll(original[i + 1..], vx), OnScreen);
  }

  /** One iteration of the particle loop extends the processed suffix by one. */
  lemma CullParticlesStep(original: seq<Particle>, particles: seq<Particle>, i: int, vx: real)
    requires 0 <= i < |original|
    requires particles == original[..i + 1] + Filter(AdvanceAll(original[i + 1..], vx), Alive)
    ensures SpliceIfCulled(particles, i, Advanced(particles[i], vx), Alive)
            == original[..i] + Filter(AdvanceAll(original[i..], vx), Alive)
  {
    var rest := Filter(AdvanceAll(original[i + 1..], vx), Alive);
    assert particles[..i] == original[..i] && particles[i] == original[i] && particles[i + 1..] == rest;
    AdvanceAllStep(original, i, vx);
    FilterCons(Advanced(original[i], vx), AdvanceAll(original[i + 1..], vx), Alive);
  }

  /** The prop list after `generateWorldEntities`. */
  function NextProps(props: seq<Prop>, theme: Theme, d: SpawnDraws, w: real, h: real, vx: real): seq<Prop>
  {
    Filter(ScrollAll(props + OptionToSeq(SpawnProp(theme, d, w, h)), vx), OnScreen)
  }

  /** The particle list after `generateWorldEntities`. */
  function NextParticles(particles: seq<Particle>, theme: Theme, d: SpawnDraws, w: real, h: real,
                         vx: real): seq<Particle>
  {
    Filter(AdvanceAll(particles + OptionToSeq(SpawnParticle(theme, d, w, h, vx)), vx), Alive)
  }

  /** Scrolling moves each prop in place. */
  lemma {:induction false} ScrollAllAt(ps: seq<Prop>, vx: real)
    ensures forall i :: 0 <= i < |ps| ==> ScrollAll(ps, vx)[i] == Scrolled(ps[i], vx)
  {
    if ps != [] {
      ScrollAllAt(ps[1..], vx);
      assert forall i :: 1 <= i < |ps| ==> ps[1..][i - 1] == ps[i];
    }
  }

  /** The props left after the loop keep their order, every one of them is
      on screen and is an input prop moved left by exactly `vx`, and every
      prop still on screen after the scroll is kept. */
  lemma ScrollAllSurvivors(ps: seq<Prop>, vx: real)
    ensures IsSubsequence(Filter(ScrollAll(ps, vx), OnScreen), ScrollAll(ps, vx))
    ensures forall o :: o in Filter(ScrollAll(ps, vx), OnScreen) ==> o.x > CullX && o.(x := o.x + vx) in ps
    ensures forall i :: 0 <= i < |ps| && ps[i].x - vx > CullX ==>
      Scrolled(ps[i], vx) in Filter(ScrollAll(ps, vx), OnScreen)
  {
    var s := ScrollAll(ps, vx);
    ScrollAllAt(ps, vx);
    FilterIsSubsequence(s, OnScreen);
    FilterMembers(s, OnScreen);
    forall o | o in Filter(s, OnScreen)
      ensures o.x > CullX && o.(x := o.x + vx) in ps
    {
      var i :| 0 <= i < |s| && s[i] == o;
      assert o.(x := o.x + vx) == ps[i];
    }
  }

  /** Advancing moves and ages each particle in place. */
  lemma {:induction false} AdvanceAllAt(ps: seq<Particle>, vx: real)
    ensures forall i :: 0 <= i < |ps| ==> AdvanceAll(ps, vx)[i] == Advanced(ps[i], vx)
  {
    if ps != [] {
      AdvanceAllAt(ps[1..], vx);
      assert forall i :: 1 <= i < |ps| ==> ps[1..][i - 1] == ps[i];
    }
  }

  /** The particles left after the loop keep their order, every one of them
      is alive and is an input particle advanced one frame, and every
      particle still alive after the frame is kept. */
  lemma AdvanceAllSurvivors(ps: seq<Particle>, vx: real)
    ensures IsSubsequence(Filter(AdvanceAll(ps, vx), Alive), AdvanceAll(ps, vx))
    ensures forall p :: p in Filter(AdvanceAll(ps, vx), Alive) ==>
      p.life > 0.0 && exists i :: 0 <= i < |ps| && p == Advanced(ps[i], vx)
    ensures forall i :: 0 <= i < |ps| && Advanced(ps[i], vx).life > 0.0 ==>
      Advanced(ps[i], vx) in Filter(AdvanceAll(ps, vx), Alive)
  {
    var s := AdvanceAll(ps, vx);
    AdvanceAllAt(ps, vx);
    FilterIsSubsequence(s, Alive);
    FilterMembers(s, Alive);
    forall p | p in Filter(s, Alive)
      ensures p.life > 0.0 && exists i :: 0 <= i < |ps| && p == Advanced(ps[i], vx)
    {
      var i :| 0 <= i < |s| && s[i] == p;
      assert p == Advanced(ps[i], vx);
    }
  }

  /** Particles age one frame at a time under a sequence of player speeds. */
  function AgeOver(p: Particle, speeds: seq<real>): Particle
    decreases |speeds|
  {
    if speeds == [] then p else AgeOver(Advanced(p, speeds[0]), speeds[1..])
  }

  /** Since the player never moves backwards, each frame costs a particle at
      least 0.01 of life. */
  lemma {:induction false} AgingBound(p: Particle, speeds: seq<real>)
    requires forall i :: 0 <= i < |speeds| ==> speeds[i] >= 0.0
    ensures AgeOver(p, speeds).life <= p.life - 0.01 * |speeds| as real
    ensures AgeOver(p, speeds).kind == p.kind
    decreases |speeds|
  {
    if speeds != [] {
      assert forall i :: 0 <= i < |speeds| - 1 ==> speeds[1..][i] == speeds[i + 1];
      AgingBound(Advanced(p, speeds[0]), speeds[1..]);
    }
  }

  /** A particle spawns with life 1, so it is culled after at most 100
      frames. */
  lemma ParticleLifetime(p: Particle, speeds: seq<real>)
    requires p.life <= 1.0 && |speeds| >= 100
    requires forall i :: 0 <= i < |speeds| ==> speeds[i] >= 0.0
    ensures !Alive(AgeOver(p, speeds))
  {
    AgingBound(p, speeds);
  }

  // ---------------------------------------------------------------------
  // Transition progress

  function Clamp01(x: real): (r: real)
    ensures 0.0 <= r <= 1.0
    ensures 0.0 <= x <= 1.0 ==> r == x
  {
    RealMax(0.0, RealMin(1.0, x))
  }

  /** The progress computed at the top of `draw`: the timer ratio is clamped
      to [0, 1] before `smoothstep`. */
  function DrawProgress(current: int, next: int, timer: int): real
  {
    if current == next then 0.0 else Smoothstep(Clamp01(timer as real / 350.0))
  }

  /** The progress is always a blend weight in [0, 1]; it rises with the
      timer, is 0 at the start of a cycle and whenever both indices agree,
      and 1 from one transition length on. */
  lemma DrawProgressProperties(current: int, next: int, timer: int, later: int)
    requires timer <= later
    ensures 0.0 <= DrawProgress(current, next, timer) <= 1.0
    ensures DrawProgress(current, next, timer) <= DrawProgress(current, next, later)
    ensures timer <= 0 ==> DrawProgress(current, next, timer) == 0.0
    ensures current == next ==> DrawProgress(current, next, timer) == 0.0
    ensures current != next && timer >= TransitionFrames ==> DrawProgress(current, next, timer) == 1.0
  {
    var a := Clamp01(timer as real / 350.0);
    var b := Clamp01(later as real / 350.0);
    assert a <= b;
    SmoothstepUnit(a);
    SmoothstepMonotone(a, b);
  }

  // ---------------------------------------------------------------------
  // One frame

  predicate IsAccelerateKey(code: string) { code == "Space" || code == "KeyD" }

  /** The fields of `state` that `update` changes. */
  datatype World = World(t: int, vx: real, y: real, trail: seq<TrailPoint>,
                         current: int, next: int, timer: int,
                         props: seq<Prop>, particles: seq<Particle>)

  /** Steps 1 and 2 of `update` and the trail: the frame counter, the speed
      ramp, the hover and the trail push. */
  function MotionPhase(m: World, accelerating: bool, h: real, x: real, hover: real): World
  {
    var vx := RampSpeed(m.vx, TargetSpeed(accelerating));
    var y := PlayerHeight(h, hover);
    m.(t := m.t + 1, vx := vx, y := y,
       trail := PushBounded(m.trail, TrailPoint(x, y, vx), MaxTrailLength(vx)))
  }

  function DirectorPhase(m: World): World
    requires DirectorValid(m.current, m.next)
  {
    var director := DirectorTick(m.current, m.next, m.timer);
    m.(current := director.0, next := director.1, timer := director.2)
  }

  function EntitiesPhase(m: World, d: SpawnDraws, w: real, h: real): World
    requires 0 <= m.current < ThemeCount
  {
    m.(props := NextProps(m.props, Themes[m.current], d, w, h, m.vx),
       particles := NextParticles(m.particles, Themes[m.current], d, w, h, m.vx))
  }

  /** One call of `update`, in the order of the source. */
  function FrameStep(m: World, accelerating: bool, w: real, h: real, x: real, hover: real,
                     d: SpawnDraws): World
    requires DirectorValid(m.current, m.next)
  {
    EntitiesPhase(DirectorPhase(MotionPhase(m, accelerating, h, x, hover)), d, w, h)
  }

  /** A frame keeps the speed between cruising and full speed, moves it
      toward the target set by the accelerator, and keeps the director
      consistent. */
  lemma FrameStepSpeed(m: World, accelerating: bool, w: real, h: real, x: real, hover: real, d: SpawnDraws)
    requires DirectorValid(m.current, m.next) && MinSpeed <= m.vx <= MaxSpeed
    ensures var r := FrameStep(m, accelerating, w, h, x, hover, d);
      MinSpeed <= r.vx <= MaxSpeed && DirectorValid(r.current, r.next) && r.t == m.t + 1
      && (accelerating ==> r.vx >= m.vx) && (!accelerating ==> r.vx <= m.vx)
  {
  }

  /** After a frame the trail ends with the player's new point, and it grew
      by one unless it was at its speed-dependent bound, in which case the
      oldest point was dropped. */
  lemma FrameStepTrail(m: World, accelerating: bool, w: real, h: real, x: real, hover: real, d: SpawnDraws)
    requires DirectorValid(m.current, m.next) && MinSpeed <= m.vx <= MaxSpeed
    ensures var r := FrameStep(m, accelerating, w, h, x, hover, d);
      var p := TrailPoint(x, r.y, r.vx);
      r.trail != [] && r.trail[|r.trail| - 1] == p
      && (|m.trail| + 1 <= MaxTrailLength(r.vx) ==> r.trail == m.trail + [p])
      && (|m.trail| + 1 > MaxTrailLength(r.vx) ==> r.trail == m.trail[1..] + [p])
  {
    var r := FrameStep(m, accelerating, w, h, x, hover, d);
    assert (r.vx * 2.5).Floor >= 0;
  }

  /** After a frame every prop is on screen and every particle alive. */
  lemma FrameStepEntities(m: World, accelerating: bool, w: real, h: real, x: real, hover: real, d: SpawnDraws)
    requires DirectorValid(m.current, m.next)
    ensures var r := FrameStep(m, accelerating, w, h, x, hover, d);
      (forall o :: o in r.props ==> o.x > CullX) && (forall p :: p in r.particles ==> p.life > 0.0)
  {
    var r := FrameStep(m, accelerating, w, h, x, hover, d);
    var theme := Themes[r.current];
    FilterMembers(ScrollAll(m.props + OptionToSeq(SpawnProp(theme, d, w, h)), r.vx), OnScreen);
    FilterMembers(AdvanceAll(m.particles + OptionToSeq(SpawnParticle(theme, d, w, h, r.vx)), r.vx), Alive);
  }

  // ---------------------------------------------------------------------
  // The engine state

  /** `state` and the canvas size. The player's `vy` is never read or
      written after initialisation and is not represented. */
  class Engine {
    var w: real
    var h: real
    var t: int
    var isAccelerating: bool
    var currentThemeIdx: int
    var nextThemeIdx: int
    var transitionTimer: int
    var playerX: real
    var playerY: real
    var playerVx: real
    var trail: seq<TrailPoint>
    var props: seq<Prop>
    var particles: seq<Particle>

    ghost predicate Valid()
      reads this
    {
      DirectorValid(currentThemeIdx, nextThemeIdx) && MinSpeed <= playerVx <= MaxSpeed
    }

    ghost function Snapshot(): World
      reads this
    {
      World(t, playerVx, playerY, trail, currentThemeIdx, nextThemeIdx, transitionTimer, props, particles)
    }

    /** The initial `state` followed by the first `resize()`. */
    constructor (width: real, height: real)
      ensures Valid()
      ensures w == width && h == height && playerX == width * PlayerInitialX && playerY == height * 0.5
      ensures t == 0 && !isAccelerating && playerVx == MinSpeed
      ensures currentThemeIdx == 0 && nextThemeIdx == 1 && transitionTimer == 0
      ensures trail == [] && props == [] && particles == []
    {
      t, isAccelerating := 0, false;
      currentThemeIdx, nextThemeIdx, transitionTimer := 0, 1, 0;
      playerVx := MinSpeed;
      trail, props, particles := [], [], [];
      w, h := width, height;
      playerX, playerY := width * PlayerInitialX, height * 0.5;
    }

    method Resize(width: real, height: real)
      modifies this`w, this`h, this`playerX, this`playerY
      ensures w == width && h == height && playerX == width * PlayerInitialX && playerY == height * 0.5
    {
      w, h := width, height;
      playerX, playerY := width * PlayerInitialX, height * 0.5;
    }

    /** The `keydown` listener: Space and KeyD start accelerating. */
    method KeyDown(code: string)
      modifies this`isAccelerating
      ensures isAccelerating == (IsAccelerateKey(code) || old(isAccelerating))
    {
      if IsAccelerateKey(code) {
        isAccelerating := true;
      }
    }

    /** The `keyup` listener: releasing Space or KeyD stops accelerating. */
    method KeyUp(code: string)
      modifies this`isAccelerating
      ensures isAccelerating == (!IsAccelerateKey(code) && old(isAccelerating))
    {
      if IsAccelerateKey(code) {
        isAccelerating := false;
      }
    }

    /** The `mousedown` and `touchstart` listeners. */
    method PointerDown()
      modifies this`isAccelerating
      ensures isAccelerating
    {
      isAccelerating := true;
    }

    /** The `mouseup` and `touchend` listeners. */
    method PointerUp()
      modifies this`isAccelerating
      ensures !isAccelerating
    {
      isAccelerating := false;
    }

    /** `updatePlayer(timestamp)`; `hover` is `Math.sin(timestamp / 500)`. */
    method UpdatePlayer(hover: real)
      modifies this`playerY
      ensures playerY == PlayerHeight(h, hover)
    {
      playerY := h / 2.0 + hover * h * 0.05;
    }

    /** Steps 1 and 2 of `update` and the trail. */
    method AdvanceMotion(hover: real)
      modifies this`t, this`playerVx, this`playerY, this`trail
      ensures Snapshot() == MotionPhase(old(Snapshot()), isAccelerating, h, playerX, hover)
    {
      ghost var before := Snapshot();
      t := t + 1;
      var targetSpeed := if isAccelerating then MaxSpeed else MinSpeed;
      if playerVx < targetSpeed {
        playerVx := playerVx + Acceleration;
        playerVx := RealMin(playerVx, targetSpeed);
      } else if playerVx > targetSpeed {
        playerVx := playerVx - Deceleration;
        playerVx := RealMax(playerVx, targetSpeed);
      }
      assert playerVx == RampSpeed(before.vx, TargetSpeed(isAccelerating));
      UpdatePlayer(hover);
      var point := TrailPoint(playerX, playerY, playerVx);
      trail := trail + [point];
      if |trail| > MaxTrailLength(playerVx) {
        trail := trail[1..];
      }
      assert trail == PushBounded(before.trail, point, MaxTrailLength(playerVx));
      assert Snapshot() == before.(t := t, vx := playerVx, y := playerY, trail := trail);
    }

    /** Step 3 of `update`: the director counts frames. */
    method AdvanceDirector()
      requires DirectorValid(currentThemeIdx, nextThemeIdx)
      modifies this`currentThemeIdx, this`nextThemeIdx, this`transitionTimer
      ensures Snapshot() == DirectorPhase(old(Snapshot()))
    {
      transitionTimer := transitionTimer + 1;
      if transitionTimer > TransitionFrames * 4 {
        transitionTimer := 0;
        currentThemeIdx := nextThemeIdx;
        nextThemeIdx := (currentThemeIdx + 1) % ThemeCount;
      }
    }

    /** The reverse loop over the props: each moves left by the player's
        speed and is spliced out once `x <= -200`. */
    method CullProps()
      modifies this`props
      ensures props == Filter(ScrollAll(old(props), playerVx), OnScreen)
    {
      ghost var original := props;
      var i := |props| - 1;
      while i >= 0
        invariant -1 <= i < |original|
        invariant props == original[..i + 1] + Filter(ScrollAll(original[i + 1..], playerVx), OnScreen)
        decreases i + 1
      {
        CullPropsStep(original, props, i, playerVx);
        props := props[i := Scrolled(props[i], playerVx)];
        if props[i].x <= CullX {
          props := props[..i] + props[i + 1..];
        }
        i := i - 1;
      }
      assert original[0..] == original;
    }

    /** The reverse loop over the particles: each moves and ages and is
        spliced out once `life <= 0`. */
    method CullParticles()
      modifies this`particles
      ensures particles == Filter(AdvanceAll(old(particles), playerVx), Alive)
    {
      ghost var original := particles;
      var i := |particles| - 1;
      while i >= 0
        invariant -1 <= i < |original|
        invariant particles == original[..i + 1] + Filter(AdvanceAll(original[i + 1..], playerVx), Alive)
        decreases i + 1
      {
        CullParticlesStep(original, particles, i, playerVx);
        particles := particles[i := Advanced(particles[i], playerVx)];
        if particles[i].life <= 0.0 {
          particles := particles[..i] + particles[i + 1..];
        }
        i := i - 1;
      }
      assert original[0..] == original;
    }

    /** `generateWorldEntities()`: spawn, then the two reverse loops. */
    method GenerateWorldEntities(d: SpawnDraws)
      requires 0 <= currentThemeIdx < ThemeCount
      modifies this`props, this`particles
      ensures Snapshot() == EntitiesPhase(old(Snapshot()), d, w, h)
    {
      ghost var before := Snapshot();
      var theme := Themes[currentThemeIdx];
      var prop := SpawnProp(theme, d, w, h);
      if prop.Some? {
        props := props + [prop.value];
      }
      assert props == before.props + OptionToSeq(prop);
      var particle := SpawnParticle(theme, d, w, h, playerVx);
      if particle.Some? {
        particles := particles + [particle.value];
      }
      assert particles == before.particles + OptionToSeq(particle);
      CullProps();
      assert props == NextProps(before.props, theme, d, w, h, before.vx);
      CullParticles();
      assert particles == NextParticles(before.particles, theme, d, w, h, before.vx);
    }

    /** `update(timestamp)`; `hover` is `Math.sin(timestamp / 500)` and `d`
        the random draws of `generateWorldEntities`. The canvas size, the
        player's `x` and the accelerator flag are outside the frame. */
    method Update(hover: real, d: SpawnDraws)
      requires Valid()
      modifies this`t, this`playerVx, this`playerY, this`trail,
               this`currentThemeIdx, this`nextThemeIdx, this`transitionTimer,
               this`props, this`particles
      ensures Valid()
      ensures Snapshot() == FrameStep(old(Snapshot()), isAccelerating, w, h, playerX, hover, d)
    {
      AdvanceMotion(hover);
      AdvanceDirector();
      GenerateWorldEntities(d);
    }

    /** The progress `draw` uses to blend the two themes. */
    function Progress(): (p: real)
      reads this
      ensures 0.0 <= p <= 1.0
      ensures currentThemeIdx != nextThemeIdx && transitionTimer >= TransitionFrames ==> p == 1.0
    {
      DrawProgressProperties(currentThemeIdx, nextThemeIdx, transitionTimer, transitionTimer);
      DrawProgress(currentThemeIdx, nextThemeIdx, transitionTimer)
    }
  }
}
