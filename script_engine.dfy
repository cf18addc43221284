/** The frame-update core of the ten-theme canvas engine: frame-time
    normalisation, the smoothed speed, the bounded trail, the theme director,
    entity spawning and culling, the draw-time transition progress, and the
    speed-lock key machine. */
module ScriptEngine {
  import opened Util
  import opened Blend

  const BaseSpeed: real := 4.0
  const BoostSpeed: real := 18.0
  const TransitionFrames: real := 350.0
  /** `1000 / 60` milliseconds: one frame at 60 FPS. */
  const FrameMillis: real := 1000.0 / 60.0
  const TerrainBaseY: real := 0.9
  const PropChance: real := 0.015
  const CullX: real := -200.0

  // ---------------------------------------------------------------------
  // Themes

  /** The parts of a theme that the update logic reads; the colours only
      feed drawing. `particleType` is absent on most themes. */
  datatype Theme = Theme(name: string, propType: string, particleType: Option<string>)

  const Themes: seq<Theme> := [
    Theme("SPRING AWAKENING", "petals", None),
    Theme("GOLDEN RADIANCE", "ruins", None),
    Theme("STARLIGHT VOID", "crystals", None),
    Theme("DESERT MIRAGE", "dunes", None),
    Theme("ARCTIC SILENCE", "snowflakes", None),
    Theme("NEBULA ODYSSEY", "stars", None),
    Theme("SPRING MEADOW", "flowers", Some("petals")),
    Theme("AUTUMN BREEZE", "fallingLeaves", Some("leaves")),
    Theme("OCEANIC GRANDEUR", "waves", None),
    Theme("GENTLE RAIN", "puddles", Some("rain"))
  ]

  /** The number of themes, `THEMES.length`. */
  const ThemeCount: int := 10

  function NextTheme(i: int): int
  {
    (i + 1) % ThemeCount
  }

  /** The director's invariant: both indices name a theme and `next`
      follows `current` cyclically. */
  predicate DirectorValid(current: int, next: int)
  {
    0 <= current < ThemeCount && 0 <= next < ThemeCount && next == NextTheme(current)
  }

  /** The scene director of one frame: the timer advances by `dt`; past four
      transition lengths it is reset to exactly 0 and the next theme becomes
      current. Returns `(current, next, timer)`. */
  function DirectorStep(current: int, next: int, timer: real, dt: real): (r: (int, int, real))
    requires DirectorValid(current, next)
    ensures DirectorValid(r.0, r.1)
    ensures timer + dt > TransitionFrames * 4.0 ==> r.0 == next && r.2 == 0.0
    ensures timer + dt <= TransitionFrames * 4.0 ==> r == (current, next, timer + dt)
  {
    var advanced := timer + dt;
    if advanced > TransitionFrames * 4.0 then (next, NextTheme(next), 0.0)
    else (current, next, advanced)
  }

  /** The theme index moves forward by one step of the cycle. */
  lemma DirectorAdvancesCyclically(current: int, timer: real, dt: real)
    requires 0 <= current < ThemeCount && timer + dt > TransitionFrames * 4.0
    ensures DirectorStep(current, NextTheme(current), timer, dt).0 == (current + 1) % ThemeCount
    ensures DirectorStep(current, NextTheme(current), timer, dt).1 == (current + 2) % ThemeCount
  {
  }

  // ---------------------------------------------------------------------
  // Frame time and speed

  /** The normalised frame time: milliseconds since the previous frame in
      units of a 60 FPS frame. On the very first frame (`lastTime` still 0)
      the previous `dt` is kept. */
  function FrameDt(lastTime: real, currentTime: real, dt: real): (r: real)
    ensures lastTime <= 0.0 ==> r == dt
    ensures lastTime > 0.0 && currentTime == lastTime + FrameMillis ==> r == 1.0
    ensures lastTime > 0.0 && currentTime >= lastTime ==> r >= 0.0
  {
    if lastTime > 0.0 then (currentTime - lastTime) * 60.0 / 1000.0 else dt
  }

  /** `lerp(speed, targetSpeed, 0.05 * dt)`. */
  function SmoothedSpeed(speed: real, target: real, dt: real): real
  {
    Lerp(speed, target, 0.05 * dt)
  }

  /** For a frame that is not skipped (`0 <= dt <= 4`) the speed moves toward
      its target without passing it, closing the gap by the factor
      `1 - 0.05 dt`, and stays between base and boost speed. */
  lemma SpeedApproachesTarget(speed: real, target: real, dt: real)
    requires 0.0 <= dt <= 4.0
    requires BaseSpeed <= speed <= BoostSpeed && BaseSpeed <= target <= BoostSpeed
    ensures RealMin(speed, target) <= SmoothedSpeed(speed, target, dt) <= RealMax(speed, target)
    ensures target - SmoothedSpeed(speed, target, dt) == (1.0 - 0.05 * dt) * (target - speed)
    ensures BaseSpeed <= SmoothedSpeed(speed, target, dt) <= BoostSpeed
  {
    LerpApproaches(speed, target, 0.05 * dt);
  }

  /** The vertical spring toward `targetY` with stiffness `0.005 * speed * dt`,
      damped by `drag` (which stands for `Math.pow(0.85, dt)`), then one
      step of motion. Returns the new `(y, vy)`. */
  function SpringStep(y: real, vy: real, targetY: real, speed: real, dt: real, drag: real): (real, real)
  {
    var springiness := 0.005 * speed * dt;
    var vy' := (vy + (targetY - y) * springiness) * drag;
    (y + vy' * dt, vy')
  }

  /** The spring pulls toward the target: a player below the target (larger
      `y` on the canvas) that is not already moving down leaves the frame
      moving up or at rest, and symmetrically above it; the position then
      moves in the direction of the new velocity. */
  lemma SpringPullsTowardTarget(y: real, vy: real, targetY: real, speed: real, dt: real, drag: real)
    requires 0.0 <= speed && 0.0 <= dt && 0.0 <= drag
    ensures var r := SpringStep(y, vy, targetY, speed, dt, drag);
      (y >= targetY && vy <= 0.0 ==> r.1 <= 0.0 && r.0 <= y)
      && (y <= targetY && vy >= 0.0 ==> r.1 >= 0.0 && r.0 >= y)
  {
    var springiness := 0.005 * speed * dt;
    MulNonneg(0.005 * speed, dt);
    var pull := (targetY - y) * springiness;
    var vy' := (vy + pull) * drag;
    if y >= targetY && vy <= 0.0 {
      MulNonneg(y - targetY, springiness);
      assert pull <= 0.0;
      MulNonneg(-(vy + pull), drag);
      MulNonneg(-vy', dt);
    }
    if y <= targetY && vy >= 0.0 {
      MulNonneg(targetY - y, springiness);
      MulNonneg(vy + pull, drag);
      MulNonneg(vy', dt);
    }
  }

  /** A player resting at the target height stays there. */
  lemma SpringAtRest(targetY: real, speed: real, dt: real, drag: real)
    ensures SpringStep(targetY, 0.0, targetY, speed, dt, drag) == (targetY, 0.0)
  {
    var springiness := 0.005 * speed * dt;
    assert (targetY - targetY) * springiness == 0.0;
    assert 0.0 * drag == 0.0;
    assert 0.0 * dt == 0.0;
  }

  /** A frame of zero length leaves the height unchanged and only damps the
      velocity. */
  lemma SpringZeroFrame(y: real, vy: real, targetY: real, speed: real, drag: real)
    ensures SpringStep(y, vy, targetY, speed, 0.0, drag) == (y, vy * drag)
  {
    var springiness := 0.005 * speed * 0.0;
    assert springiness == 0.0;
    assert (targetY - y) * springiness == 0.0;
  }

  // ---------------------------------------------------------------------
  // Trail

  datatype TrailPoint = TrailPoint(x: real, y: real, speed: real)

  /** `10 + Math.floor(speed * 1.5)`. */
  function MaxTrailLength(speed: real): int
  {
    10 + (speed * 1.5).Floor
  }

  /** The trail after one frame: the newest point is the player's, the trail
      grows by one while that keeps it within the bound, and otherwise the
      single oldest point is dropped. */
  lemma TrailAfterFrame(trail: seq<TrailPoint>, p: TrailPoint)
    requires p.speed >= 0.0
    ensures var r := PushBounded(trail, p, MaxTrailLength(p.speed));
      r != [] && r[|r| - 1] == p
      && (|trail| + 1 <= MaxTrailLength(p.speed) ==> r == trail + [p])
      && (|trail| + 1 > MaxTrailLength(p.speed) ==> r == trail[1..] + [p])
  {
    assert (p.speed * 1.5).Floor >= 0;
  }

  // ---------------------------------------------------------------------
  // Entities

  /** `rot` is stored as a fraction of a full turn (the angle divided by 2 pi). */
  datatype Prop = Prop(x: real, y: real, kind: string, scale: real, rot: real, alpha: Option<real>)

  datatype Particle = Particle(x: real, y: real, vx: real, vy: real, life: real, size: real,
                               kind: string, rot: real)

  /** The `Math.random()` results one call of `generateWorldEntities` may
      consume, in the order the source asks for them. */
  datatype SpawnDraws = SpawnDraws(propRoll: real, propY: real, propScale: real, propRot: real,
                                   propAlpha: real, particleRoll: real, particleY: real,
                                   particleVx: real, particleVy: real, particleSize: real,
                                   particleRot: real)

  predicate IsDraw(u: real) { 0.0 <= u < 1.0 }

  predicate DrawsInRange(d: SpawnDraws)
  {
    IsDraw(d.propRoll) && IsDraw(d.propY) && IsDraw(d.propScale) && IsDraw(d.propRot)
    && IsDraw(d.propAlpha) && IsDraw(d.particleRoll) && IsDraw(d.particleY)
    && IsDraw(d.particleVx) && IsDraw(d.particleVy) && IsDraw(d.particleSize)
    && IsDraw(d.particleRot)
  }

  /** `lerp(0.05, 0.5, (speed - baseSpeed) / (boostSpeed - baseSpeed))`. */
  function ParticleDensity(speed: real): real
  {
    Lerp(0.05, 0.5, (speed - BaseSpeed) / (BoostSpeed - BaseSpeed))
  }

  /** Between base and boost speed the spawn chance grows from 0.05 to 0.5. */
  lemma ParticleDensityRange(speed: real)
    requires BaseSpeed <= speed <= BoostSpeed
    ensures 0.05 <= ParticleDensity(speed) <= 0.5
    ensures speed == BaseSpeed ==> ParticleDensity(speed) == 0.05
    ensures speed == BoostSpeed ==> ParticleDensity(speed) == 0.5
  {
    LerpWithin(0.05, 0.5, (speed - BaseSpeed) / (BoostSpeed - BaseSpeed), 0.05, 0.5);
  }

  /** The prop spawned this frame, if any: with chance 0.015, at the right
      edge, of the current theme's prop type, with an `alpha` only for
      stars. */
  function SpawnProp(theme: Theme, d: SpawnDraws, w: real, h: real): (r: Option<Prop>)
    ensures r.Some? <==> d.propRoll < PropChance && theme.propType != "none"
    ensures r.Some? ==> r.value.x == w + 100.0 && r.value.kind == theme.propType
    ensures r.Some? ==> (r.value.alpha.Some? <==> theme.propType == "stars")
    ensures r.Some? && DrawsInRange(d) ==>
      h * TerrainBaseY - 150.0 < r.value.y <= h * TerrainBaseY - 50.0
      && 0.8 <= r.value.scale < 1.5 && 0.0 <= r.value.rot < 1.0
      && (r.value.alpha.Some? ==> 0.2 <= r.value.alpha.value < 1.0)
  {
    if d.propRoll < PropChance && theme.propType != "none" then
      Some(Prop(w + 100.0, h * TerrainBaseY - RandomIn(d.propY, 50.0, 150.0), theme.propType,
                RandomIn(d.propScale, 0.8, 1.5), RandomIn(d.propRot, 0.0, 1.0),
                if theme.propType == "stars" then Some(RandomIn(d.propAlpha, 0.2, 1.0)) else None))
    else None
  }

  /** `T.particleType || 'default'`. */
  function ParticleKind(theme: Theme): string
  {
    match theme.particleType
    case Some(k) => if k == "" then "default" else k
    case None => "default"
  }

  /** The particle spawned this frame, if any: with the speed-dependent
      chance, at the right edge, with full life. Rain ignores the drawn
      velocity and falls at `(-speed - 10, 20)`. */
  function SpawnParticle(theme: Theme, d: SpawnDraws, w: real, h: real, speed: real): (r: Option<Particle>)
    ensures r.Some? <==> d.particleRoll < ParticleDensity(speed)
    ensures r.Some? ==> (r.value.x == w + 10.0 && r.value.life == 1.0
      && r.value.kind == ParticleKind(theme))
    ensures r.Some? && r.value.kind == "rain" ==> r.value.vx == -speed - 10.0 && r.value.vy == 20.0
    ensures r.Some? && r.value.kind != "rain" && DrawsInRange(d) && speed > 0.0 ==>
      -1.2 * speed < r.value.vx <= -0.8 * speed && -1.0 <= r.value.vy < 1.0
    ensures r.Some? && DrawsInRange(d) && h > 0.0 ==> 0.0 <= r.value.y < h && 1.0 <= r.value.size < 3.0
  {
    if d.particleRoll < ParticleDensity(speed) then
      var kind := ParticleKind(theme);
      var p := Particle(w + 10.0, RandomIn(d.particleY, 0.0, h),
                        -RandomIn(d.particleVx, speed * 0.8, speed * 1.2),
                        RandomIn(d.particleVy, -1.0, 1.0), 1.0,
                        RandomIn(d.particleSize, 1.0, 3.0), kind,
                        RandomIn(d.particleRot, 0.0, 1.0));
      Some(if kind == "rain" then p.(vx := -speed - 10.0, vy := 20.0) else p)
    else None
  }

  /** Every prop scrolls left by `speed * dt`. */
  function ScrollProps(ps: seq<Prop>, d: real): seq<Prop>
  {
    seq(|ps|, i requires 0 <= i < |ps| => ps[i].(x := ps[i].x - d))
  }

  predicate OnScreen(o: Prop) { o.x > CullX }

  /** One frame of motion and ageing of a particle. */
  function AdvanceParticle(p: Particle, speed: real, dt: real): Particle
  {
    p.(x := p.x + p.vx * Lerp(1.0, 1.5, speed / BoostSpeed) * dt,
       y := p.y + p.vy * dt,
       life := p.life - (0.01 + speed * 0.001) * dt)
  }

  function AdvanceParticles(ps: seq<Particle>, speed: real, dt: real): seq<Particle>
  {
    seq(|ps|, i requires 0 <= i < |ps| => AdvanceParticle(ps[i], speed, dt))
  }

  predicate Alive(p: Particle) { p.life > 0.0 }

  /** The props left after scrolling and culling: each is on screen, is an
      input prop moved left by exactly `d`, and they keep their order. */
  lemma CulledPropsSurvivors(ps: seq<Prop>, d: real)
    ensures var r := Filter(ScrollProps(ps, d), OnScreen);
      IsSubsequence(r, ScrollProps(ps, d))
      && forall o :: o in r ==> o.x > CullX && o.(x := o.x + d) in ps
  {
    var s := ScrollProps(ps, d);
    FilterIsSubsequence(s, OnScreen);
    FilterMembers(s, OnScreen);
    forall o | o in Filter(s, OnScreen)
      ensures o.x > CullX && o.(x := o.x + d) in ps
    {
      var i :| 0 <= i < |s| && s[i] == o;
      assert o.(x := o.x + d) == ps[i];
    }
  }

  /** The particles left after a frame: all alive, each an input particle
      advanced one frame, in their original order. */
  lemma CulledParticlesSurvivors(ps: seq<Particle>, speed: real, dt: real)
    ensures var r := Filter(AdvanceParticles(ps, speed, dt), Alive);
      IsSubsequence(r, AdvanceParticles(ps, speed, dt))
      && forall p :: p in r ==>
           (p.life > 0.0 && exists i :: 0 <= i < |ps| && p == AdvanceParticle(ps[i], speed, dt))
  {
    var s := AdvanceParticles(ps, speed, dt);
    FilterIsSubsequence(s, Alive);
    FilterMembers(s, Alive);
    forall p | p in Filter(s, Alive)
      ensures p.life > 0.0 && exists i :: 0 <= i < |ps| && p == AdvanceParticle(ps[i], speed, dt)
    {
      var i :| 0 <= i < |s| && s[i] == p;
      assert p == AdvanceParticle(ps[i], speed, dt);
    }
  }

  /** The prop list after one call of `generateWorldEntities`: the spawned
      prop (if any) is appended, then every prop scrolls and the off-screen
      ones are dropped. */
  function NextProps(props: seq<Prop>, theme: Theme, d: SpawnDraws, w: real, h: real,
                     speed: real, dt: real): seq<Prop>
  {
    Filter(ScrollProps(props + OptionToSeq(SpawnProp(theme, d, w, h)), speed * dt), OnScreen)
  }

  /** The particle list after one call of `generateWorldEntities`: the
      spawned particle (if any) is appended, then every particle moves and
      ages and the dead ones are dropped. */
  function NextParticles(particles: seq<Particle>, theme: Theme, d: SpawnDraws, w: real, h: real,
                         speed: real, dt: real): seq<Particle>
  {
    Filter(AdvanceParticles(particles + OptionToSeq(SpawnParticle(theme, d, w, h, speed)), speed, dt), Alive)
  }

  /** Every prop left after `generateWorldEntities` is on screen and every
      particle alive. */
  lemma NextEntitiesCulled(props: seq<Prop>, particles: seq<Particle>, theme: Theme, d: SpawnDraws,
                           w: real, h: real, speed: real, dt: real)
    ensures forall o :: o in NextProps(props, theme, d, w, h, speed, dt) ==> o.x > CullX
    ensures forall p :: p in NextParticles(particles, theme, d, w, h, speed, dt) ==> p.life > 0.0
  {
    FilterMembers(ScrollProps(props + OptionToSeq(SpawnProp(theme, d, w, h)), speed * dt), OnScreen);
    FilterMembers(AdvanceParticles(particles + OptionToSeq(SpawnParticle(theme, d, w, h, speed)), speed, dt),
                  Alive);
  }

  lemma ScrollPropsAppend(a: seq<Prop>, b: seq<Prop>, d: real)
    ensures ScrollProps(a + b, d) == ScrollProps(a, d) + ScrollProps(b, d)
  {
  }

  /** A prop spawned this frame that is still on screen after its first
      scroll ends the new prop list: spawning appends. */
  lemma SpawnedPropIsNewest(props: seq<Prop>, theme: Theme, d: SpawnDraws, w: real, h: real,
                            speed: real, dt: real)
    requires SpawnProp(theme, d, w, h).Some?
    requires w + 100.0 - speed * dt > CullX
    ensures var r := NextProps(props, theme, d, w, h, speed, dt);
      r != [] && r[|r| - 1] == SpawnProp(theme, d, w, h).value.(x := w + 100.0 - speed * dt)
  {
    var o := SpawnProp(theme, d, w, h).value;
    var step := speed * dt;
    ScrollPropsAppend(props, [o], step);
    var moved := o.(x := o.x - step);
    assert ScrollProps([o], step) == [moved];
    FilterAppend(ScrollProps(props, step), [moved], OnScreen);
    assert Filter([moved], OnScreen) == [moved];
  }

  // ---------------------------------------------------------------------
  // Transition progress

  /** The progress computed at the top of `draw`: the timer ratio is NOT
      clamped before `smoothstep`. */
  function DrawProgress(current: int, next: int, timer: real): real
  {
    if current == next then 0.0 else Smoothstep(timer / TransitionFrames)
  }

  /** During the first transition length the progress is a proper blend
      weight in [0, 1] that rises with the timer. */
  lemma DrawProgressDuringTransition(current: int, next: int, timer: real, later: real)
    requires 0.0 <= timer <= later <= TransitionFrames
    ensures 0.0 <= DrawProgress(current, next, timer) <= 1.0
    ensures current != next ==> DrawProgress(current, next, timer) <= DrawProgress(current, next, later)
  {
    SmoothstepUnit(timer / TransitionFrames);
    SmoothstepMonotone(timer / TransitionFrames, later / TransitionFrames);
  }

  /** The timer runs to four transition lengths, so once it passes one and a
      half (525 frames) the unclamped progress is negative: the progress is
      not confined to [0, 1] over the whole cycle. */
  lemma DrawProgressLeavesUnitInterval(current: int, next: int, timer: real)
    requires current != next && timer > 1.5 * TransitionFrames
    ensures DrawProgress(current, next, timer) < 0.0
  {
    SmoothstepNegativePastThreeHalves(timer / TransitionFrames);
  }

  lemma DrawProgressBounds(current: int, next: int, timer: real)
    ensures 0.0 <= timer <= TransitionFrames ==> 0.0 <= DrawProgress(current, next, timer) <= 1.0
    ensures current != next && timer > 1.5 * TransitionFrames ==> DrawProgress(current, next, timer) < 0.0
  {
    if 0.0 <= timer <= TransitionFrames {
      DrawProgressDuringTransition(current, next, timer, timer);
    }
    if current != next && timer > 1.5 * TransitionFrames {
      DrawProgressLeavesUnitInterval(current, next, timer);
    }
  }

  // ---------------------------------------------------------------------
  // Speed-lock key machine

  const KeyD: string := "KeyD"
  const Space: string := "Space"

  predicate IsBoostKey(code: string) { code == KeyD || code == Space }

  /** `keyPressTimers` (the keys whose 3-second timer is pending),
      `isSpeedLocked` and `state.targetSpeed`. */
  datatype SpeedLock = SpeedLock(timers: set<string>, locked: bool, targetSpeed: real)

  const InitialLock: SpeedLock := SpeedLock({}, false, BaseSpeed)

  /** The target is the boost speed exactly while the speed is locked or an
      accelerating key is held. */
  predicate LockConsistent(s: SpeedLock)
  {
    s.timers <= {KeyD, Space}
    && s.targetSpeed == (if s.locked || s.timers != {} then BoostSpeed else BaseSpeed)
  }

  /** The keydown handler: other keys are ignored; while locked, any boost
      key unlocks and clears every timer; a key already held does nothing;
      otherwise the target becomes the boost speed and the key's timer
      starts. */
  function KeyDownStep(s: SpeedLock, code: string): SpeedLock
  {
    if !IsBoostKey(code) then s
    else if s.locked then SpeedLock({}, false, BaseSpeed)
    else if code in s.timers then s
    else SpeedLock(s.timers + {code}, false, BoostSpeed)
  }

  /** The keyup handler: ignored for other keys and while locked; otherwise
      the key's timer is cleared and the target falls back to the base speed
      once no timer is left. */
  function KeyUpStep(s: SpeedLock, code: string): SpeedLock
  {
    if !IsBoostKey(code) || s.locked then s
    else
      var timers := s.timers - {code};
      SpeedLock(timers, false, if timers == {} then BaseSpeed else s.targetSpeed)
  }

  /** The 3-second timer of `code` fires: the speed locks and the key's timer
      entry is deleted. */
  function TimerFiredStep(s: SpeedLock, code: string): SpeedLock
    requires code in s.timers
  {
    SpeedLock(s.timers - {code}, true, s.targetSpeed)
  }

  datatype KeyEvent = KeyDownEvent(code: string) | KeyUpEvent(code: string) | TimerFired(code: string)

  /** Runs a sequence of events. A cleared timer never fires, so a firing for
      a key without a pending timer changes nothing. */
  function RunKeys(s: SpeedLock, events: seq<KeyEvent>): SpeedLock
    decreases |events|
  {
    if events == [] then s
    else
      var e := events[0];
      var s' := match e
        case KeyDownEvent(c) => KeyDownStep(s, c)
        case KeyUpEvent(c) => KeyUpStep(s, c)
        case TimerFired(c) => if c in s.timers then TimerFiredStep(s, c) else s;
      RunKeys(s', events[1..])
  }

  lemma StepsKeepLockConsistent(s: SpeedLock, code: string)
    requires LockConsistent(s)
    ensures LockConsistent(KeyDownStep(s, code))
    ensures LockConsistent(KeyUpStep(s, code))
    ensures code in s.timers ==> LockConsistent(TimerFiredStep(s, code))
  {
  }

  /** Pressing a boost key that is not held and releasing it before its timer
      fires restores the state before the press. */
  lemma PressReleaseRestores(s: SpeedLock, code: string)
    requires LockConsistent(s) && !s.locked && IsBoostKey(code) && code !in s.timers
    ensures KeyUpStep(KeyDownStep(s, code), code) == s
  {
  }

  /** While unlocked, a repeated keydown of the same key (keyboard auto-repeat)
      changes nothing, and a repeated keyup changes nothing in any state. */
  lemma RepeatsIgnored(s: SpeedLock, code: string)
    ensures !s.locked ==> KeyDownStep(KeyDownStep(s, code), code) == KeyDownStep(s, code)
    ensures KeyUpStep(KeyUpStep(s, code), code) == KeyUpStep(s, code)
  {
  }

  /** A timer fires only while its key is held, so it locks the speed at the
      boost speed. */
  lemma TimerLocksBoost(s: SpeedLock, code: string)
    requires LockConsistent(s) && code in s.timers
    ensures TimerFiredStep(s, code).locked && TimerFiredStep(s, code).targetSpeed == BoostSpeed
  {
  }

  /** From the initial state: holding a key for three seconds locks the boost
      speed and the release is ignored; the next keydown of either boost key,
      including an auto-repeat of the held key after the lock, unlocks and
      returns to the initial state; a release before the timer fires returns
      to the initial state as well. */
  lemma HoldLocksUntilNextPress(code: string, next: string)
    requires IsBoostKey(code) && IsBoostKey(next)
    ensures RunKeys(InitialLock, [KeyDownEvent(code), TimerFired(code), KeyUpEvent(code)])
      == SpeedLock({}, true, BoostSpeed)
    ensures RunKeys(InitialLock, [KeyDownEvent(code), TimerFired(code), KeyUpEvent(code), KeyDownEvent(next)])
      == InitialLock
    ensures RunKeys(InitialLock, [KeyDownEvent(code), TimerFired(code), KeyDownEvent(code)]) == InitialLock
    ensures RunKeys(InitialLock, [KeyDownEvent(code), KeyUpEvent(code), TimerFired(code)]) == InitialLock
  {
    var none: set<string> := {};
    var held := SpeedLock({code}, false, BoostSpeed);
    var locked := SpeedLock(none, true, BoostSpeed);
    assert KeyDownStep(InitialLock, code) == held by {
      assert none + {code} == {code};
    }
    assert TimerFiredStep(held, code) == locked by {
      assert {code} - {code} == none;
    }
    assert KeyUpStep(held, code) == InitialLock by {
      assert {code} - {code} == none;
    }
    assert RunKeys(InitialLock, [KeyDownEvent(code), TimerFired(code), KeyUpEvent(code)])
      == RunKeys(held, [TimerFired(code), KeyUpEvent(code)]);
    assert RunKeys(held, [TimerFired(code), KeyUpEvent(code)]) == RunKeys(locked, [KeyUpEvent(code)]);
    assert RunKeys(locked, [KeyUpEvent(code)]) == RunKeys(locked, []);
    assert RunKeys(InitialLock, [KeyDownEvent(code), TimerFired(code), KeyUpEvent(code), KeyDownEvent(next)])
      == RunKeys(held, [TimerFired(code), KeyUpEvent(code), KeyDownEvent(next)]);
    assert RunKeys(held, [TimerFired(code), KeyUpEvent(code), KeyDownEvent(next)])
      == RunKeys(locked, [KeyUpEvent(code), KeyDownEvent(next)]);
    assert RunKeys(locked, [KeyUpEvent(code), KeyDownEvent(next)]) == RunKeys(locked, [KeyDownEvent(next)]);
    assert RunKeys(locked, [KeyDownEvent(next)]) == RunKeys(InitialLock, []);
    assert RunKeys(InitialLock, [KeyDownEvent(code), TimerFired(code), KeyDownEvent(code)])
      == RunKeys(held, [TimerFired(code), KeyDownEvent(code)]);
    assert RunKeys(held, [TimerFired(code), KeyDownEvent(code)]) == RunKeys(locked, [KeyDownEvent(code)]);
    assert RunKeys(locked, [KeyDownEvent(code)]) == RunKeys(InitialLock, []);
    assert RunKeys(InitialLock, [KeyDownEvent(code), KeyUpEvent(code), TimerFired(code)])
      == RunKeys(held, [KeyUpEvent(code), TimerFired(code)]);
    assert RunKeys(held, [KeyUpEvent(code), TimerFired(code)]) == RunKeys(InitialLock, [TimerFired(code)]);
    assert RunKeys(InitialLock, [TimerFired(code)]) == RunKeys(InitialLock, []);
  }

  /** Events for keys other than KeyD and Space change nothing: the handlers
      return early, and no such key ever has a timer. */
  lemma {:induction false} OtherKeysIgnored(s: SpeedLock, events: seq<KeyEvent>)
    requires LockConsistent(s)
    requires forall i :: 0 <= i < |events| ==> !IsBoostKey(events[i].code)
    ensures RunKeys(s, events) == s
    decreases |events|
  {
    if events != [] {
      assert !IsBoostKey(events[0].code);
      assert events[0].code !in s.timers;
      OtherKeysIgnored(s, events[1..]);
    }
  }

  /** In every state reachable from the start, the target speed is the boost
      speed exactly when the speed is locked or a key's timer is pending. */
  lemma {:induction false} RunKeysKeepsLockConsistent(s: SpeedLock, events: seq<KeyEvent>)
    requires LockConsistent(s)
    ensures LockConsistent(RunKeys(s, events))
    decreases |events|
  {
    if events != [] {
      StepsKeepLockConsistent(s, events[0].code);
      var e := events[0];
      var s' := match e
        case KeyDownEvent(c) => KeyDownStep(s, c)
        case KeyUpEvent(c) => KeyUpStep(s, c)
        case TimerFired(c) => if c in s.timers then TimerFiredStep(s, c) else s;
      RunKeysKeepsLockConsistent(s', events[1..]);
    }
  }

  lemma ReachableLocksConsistent(events: seq<KeyEvent>)
    ensures LockConsistent(RunKeys(InitialLock, events))
  {
    RunKeysKeepsLockConsistent(InitialLock, events);
  }

  // ---------------------------------------------------------------------
  // One frame

  /** The fields of `state` that a frame of `update` changes, besides the
      clock: `t`, the speed, the player's height and vertical velocity, the
      trail, the director and the entity lists. */
  datatype MotionState = MotionState(t: real, speed: real, y: real, vy: real, trail: seq<TrailPoint>,
                                     current: int, next: int, timer: real,
                                     props: seq<Prop>, particles: seq<Particle>)

  /** Steps 1 and 2 of `update` and the trail push: the clock, the speed
      eased toward its target, the vertical spring toward mid-height, and the
      player's new position appended to the bounded trail. */
  function MotionStep(m: MotionState, targetSpeed: real, h: real, x: real, dt: real, drag: real): MotionState
  {
    var speed := SmoothedSpeed(m.speed, targetSpeed, dt);
    var vertical := SpringStep(m.y, m.vy, h * 0.5, speed, dt, drag);
    m.(t := m.t + dt, speed := speed, y := vertical.0, vy := vertical.1,
       trail := PushBounded(m.trail, TrailPoint(x, vertical.0, speed), MaxTrailLength(speed)))
  }

  /** Step 3 of `update`: the scene director. */
  function DirectorPhase(m: MotionState, dt: real): MotionState
    requires DirectorValid(m.current, m.next)
  {
    var director := DirectorStep(m.current, m.next, m.timer, dt);
    m.(current := director.0, next := director.1, timer := director.2)
  }

  /** Step 4 of `update`: `generateWorldEntities` with the current theme. */
  function EntitiesPhase(m: MotionState, d: SpawnDraws, w: real, h: real, dt: real): MotionState
    requires 0 <= m.current < ThemeCount
  {
    m.(props := NextProps(m.props, Themes[m.current], d, w, h, m.speed, dt),
       particles := NextParticles(m.particles, Themes[m.current], d, w, h, m.speed, dt))
  }

  /** One frame of `update` that is not skipped, in the order of the source;
      entities are generated with the theme the director has just chosen. */
  function FrameStep(m: MotionState, targetSpeed: real, w: real, h: real, x: real, dt: real,
                     drag: real, d: SpawnDraws): MotionState
    requires DirectorValid(m.current, m.next)
  {
    EntitiesPhase(DirectorPhase(MotionStep(m, targetSpeed, h, x, dt, drag), dt), d, w, h, dt)
  }

  /** One frame keeps the director consistent and advances the clock by
      `dt`; the theme changes exactly when the timer passes four transition
      lengths, and then the timer restarts at 0. */
  lemma FrameStepDirector(m: MotionState, targetSpeed: real, w: real, h: real, x: real, dt: real,
                          drag: real, d: SpawnDraws)
    requires DirectorValid(m.current, m.next)
    ensures var r := FrameStep(m, targetSpeed, w, h, x, dt, drag, d);
      DirectorValid(r.current, r.next) && r.t == m.t + dt
      && (m.timer + dt > TransitionFrames * 4.0 ==> r.current == m.next && r.timer == 0.0)
      && (m.timer + dt <= TransitionFrames * 4.0 ==> r.current == m.current && r.timer == m.timer + dt)
  {
  }

  /** In a frame that is not skipped, with speed and target between base and
      boost speed, the speed stays in that range and moves toward the target
      without passing it. */
  lemma FrameStepSpeed(m: MotionState, targetSpeed: real, w: real, h: real, x: real, dt: real,
                       drag: real, d: SpawnDraws)
    requires DirectorValid(m.current, m.next)
    requires 0.0 <= dt <= 4.0
    requires BaseSpeed <= m.speed <= BoostSpeed && BaseSpeed <= targetSpeed <= BoostSpeed
    ensures var r := FrameStep(m, targetSpeed, w, h, x, dt, drag, d);
      BaseSpeed <= r.speed <= BoostSpeed
      && RealMin(m.speed, targetSpeed) <= r.speed <= RealMax(m.speed, targetSpeed)
  {
    SpeedApproachesTarget(m.speed, targetSpeed, dt);
  }

  /** After a frame the trail ends with the player's new position and speed,
      and it is one longer than before unless that would exceed the
      speed-dependent bound, in which case the oldest point was dropped. */
  lemma FrameStepTrail(m: MotionState, targetSpeed: real, w: real, h: real, x: real, dt: real,
                       drag: real, d: SpawnDraws)
    requires DirectorValid(m.current, m.next)
    requires 0.0 <= dt <= 4.0 && BaseSpeed <= m.speed <= BoostSpeed && BaseSpeed <= targetSpeed <= BoostSpeed
    ensures var r := FrameStep(m, targetSpeed, w, h, x, dt, drag, d);
      var p := TrailPoint(x, r.y, r.speed);
      r.trail != [] && r.trail[|r.trail| - 1] == p
      && (|m.trail| + 1 <= MaxTrailLength(r.speed) ==> r.trail == m.trail + [p])
      && (|m.trail| + 1 > MaxTrailLength(r.speed) ==> r.trail == m.trail[1..] + [p])
  {
    SpeedApproachesTarget(m.speed, targetSpeed, dt);
    var r := FrameStep(m, targetSpeed, w, h, x, dt, drag, d);
    TrailAfterFrame(m.trail, TrailPoint(x, r.y, r.speed));
  }

  /** After a frame every prop is on screen and every particle alive, and
      the entity lists are the ones `generateWorldEntities` produces under
      the theme chosen by this frame's director. */
  lemma FrameStepEntities(m: MotionState, targetSpeed: real, w: real, h: real, x: real, dt: real,
                          drag: real, d: SpawnDraws)
    requires DirectorValid(m.current, m.next)
    ensures var r := FrameStep(m, targetSpeed, w, h, x, dt, drag, d);
      (forall o :: o in r.props ==> o.x > CullX) && (forall p :: p in r.particles ==> p.life > 0.0)
      && r.props == NextProps(m.props, Themes[r.current], d, w, h, r.speed, dt)
      && r.particles == NextParticles(m.particles, Themes[r.current], d, w, h, r.speed, dt)
  {
    var r := FrameStep(m, targetSpeed, w, h, x, dt, drag, d);
    NextEntitiesCulled(m.props, m.particles, Themes[r.current], d, w, h, r.speed, dt);
  }

  // ---------------------------------------------------------------------
  // The engine state

  /** `state`, the canvas size, `keyPressTimers` and `isSpeedLocked`. */
  class Engine {
    var w: real
    var h: real
    var t: real
    var lastTime: real
    var dt: real
    var speed: real
    var targetSpeed: real
    var currentThemeIdx: int
    var nextThemeIdx: int
    var transitionTimer: real
    var playerX: real
    var playerY: real
    var playerVy: real
    var trail: seq<TrailPoint>
    var props: seq<Prop>
    var particles: seq<Particle>
    var keyPressTimers: set<string>
    var isSpeedLocked: bool

    ghost function Lock(): SpeedLock
      reads this`keyPressTimers, this`isSpeedLocked, this`targetSpeed
    {
      SpeedLock(keyPressTimers, isSpeedLocked, targetSpeed)
    }

    ghost predicate Valid()
      reads this
    {
      DirectorValid(currentThemeIdx, nextThemeIdx) && LockConsistent(Lock())
    }

    /** The initial `state` followed by the first `resize()`. */
    constructor (width: real, height: real)
      ensures Valid()
      ensures w == width && h == height && playerX == width * 0.2 && playerY == height * 0.5
      ensures t == 0.0 && lastTime == 0.0 && dt == 0.0 && speed == BaseSpeed
      ensures currentThemeIdx == 0 && nextThemeIdx == 1 && transitionTimer == 0.0
      ensures playerVy == 0.0 && trail == [] && props == [] && particles == []
      ensures Lock() == InitialLock
    {
      w, h := width, height;
      t, lastTime, dt := 0.0, 0.0, 0.0;
      speed, targetSpeed := BaseSpeed, BaseSpeed;
      currentThemeIdx, nextThemeIdx, transitionTimer := 0, 1, 0.0;
      playerX, playerY, playerVy := width * 0.2, height * 0.5, 0.0;
      trail, props, particles := [], [], [];
      keyPressTimers, isSpeedLocked := {}, false;
    }

    /** `resize()`: new canvas size, player re-placed. */
    method Resize(width: real, height: real)
      modifies this`w, this`h, this`playerX, this`playerY
      ensures w == width && h == height && playerX == width * 0.2 && playerY == height * 0.5
    {
      w, h := width, height;
      playerX, playerY := width * 0.2, height * 0.5;
    }

    method KeyDown(code: string)
      requires Valid()
      modifies this`keyPressTimers, this`isSpeedLocked, this`targetSpeed
      ensures Valid()
      ensures Lock() == KeyDownStep(old(Lock()), code)
    {
      if !IsBoostKey(code) {
        return;
      }
      if isSpeedLocked {
        isSpeedLocked := false;
        targetSpeed := BaseSpeed;
        keyPressTimers := {};
        return;
      }
      if code in keyPressTimers {
        return;
      }
      targetSpeed := BoostSpeed;
      keyPressTimers := keyPressTimers + {code};
      StepsKeepLockConsistent(old(Lock()), code);
    }

    method KeyUp(code: string)
      requires Valid()
      modifies this`keyPressTimers, this`targetSpeed
      ensures Valid()
      ensures Lock() == KeyUpStep(old(Lock()), code)
    {
      if !IsBoostKey(code) || isSpeedLocked {
        return;
      }
      if code in keyPressTimers {
        keyPressTimers := keyPressTimers - {code};
      }
      if keyPressTimers == {} {
        targetSpeed := BaseSpeed;
      }
      StepsKeepLockConsistent(old(Lock()), code);
    }

    /** The callback of the pending timer for `code`. */
    method KeyTimerFired(code: string)
      requires Valid() && code in keyPressTimers
      modifies this`keyPressTimers, this`isSpeedLocked
      ensures Valid()
      ensures Lock() == TimerFiredStep(old(Lock()), code)
    {
      isSpeedLocked := true;
      keyPressTimers := keyPressTimers - {code};
    }

    /** `generateWorldEntities()`: spawn, then advance and cull with filters. */
    method GenerateWorldEntities(d: SpawnDraws)
      requires 0 <= currentThemeIdx < ThemeCount
      modifies this`props, this`particles
      ensures Motion() == EntitiesPhase(old(Motion()), d, w, h, dt)
    {
      var theme := Themes[currentThemeIdx];
      props := NextProps(props, theme, d, w, h, speed, dt);
      particles := NextParticles(particles, theme, d, w, h, speed, dt);
    }

    /** Steps 1 and 2 of `update` and the trail: the clock, the smoothed
        speed, the vertical spring and the trail push. */
    method AdvanceMotion(drag: real)
      modifies this`t, this`speed, this`playerY, this`playerVy, this`trail
      ensures Motion() == MotionStep(old(Motion()), targetSpeed, h, playerX, dt, drag)
    {
      ghost var before := Motion();
      t := t + dt;
      speed := SmoothedSpeed(speed, targetSpeed, dt);
      var vertical := SpringStep(playerY, playerVy, h * 0.5, speed, dt, drag);
      playerY, playerVy := vertical.0, vertical.1;
      var point := TrailPoint(playerX, playerY, speed);
      trail := PushBounded(trail, point, MaxTrailLength(speed));
      assert Motion() == before.(t := t, speed := speed, y := playerY, vy := playerVy, trail := trail);
    }

    /** Step 3 of `update`: the scene director. */
    method AdvanceDirector()
      requires DirectorValid(currentThemeIdx, nextThemeIdx)
      modifies this`currentThemeIdx, this`nextThemeIdx, this`transitionTimer
      ensures Motion() == DirectorPhase(old(Motion()), dt)
    {
      var director := DirectorStep(currentThemeIdx, nextThemeIdx, transitionTimer, dt);
      currentThemeIdx, nextThemeIdx, transitionTimer := director.0, director.1, director.2;
    }

    /** The part of the state one frame of `update` advances. */
    ghost function Motion(): MotionState
      reads this
    {
      MotionState(t, speed, playerY, playerVy, trail, currentThemeIdx, nextThemeIdx,
                  transitionTimer, props, particles)
    }

    /** The part of `update` after the skip test: steps 1 to 4 in order. */
    method Frame(drag: real, d: SpawnDraws)
      requires DirectorValid(currentThemeIdx, nextThemeIdx)
      modifies this`t, this`speed, this`playerY, this`playerVy, this`trail,
               this`currentThemeIdx, this`nextThemeIdx, this`transitionTimer,
               this`props, this`particles
      ensures DirectorValid(currentThemeIdx, nextThemeIdx)
      ensures Motion() == FrameStep(old(Motion()), targetSpeed, w, h, playerX, dt, drag, d)
    {
      AdvanceMotion(drag);
      AdvanceDirector();
      GenerateWorldEntities(d);
    }

    /** `update(currentTime)`. `drag` is `Math.pow(0.85, dt)` for this frame's
        `dt`, and `d` the random draws of `generateWorldEntities`. A frame
        whose normalised time exceeds 4 only records the clock. The canvas size,
        the player's `x` and the speed-lock fields are outside the frame. */
    method Update(currentTime: real, drag: real, d: SpawnDraws)
      requires Valid()
      modifies this`lastTime, this`dt, this`t, this`speed, this`playerY, this`playerVy, this`trail,
               this`currentThemeIdx, this`nextThemeIdx, this`transitionTimer,
               this`props, this`particles
      ensures DirectorValid(currentThemeIdx, nextThemeIdx)
      ensures lastTime == currentTime && dt == FrameDt(old(lastTime), currentTime, old(dt))
      ensures Motion() == if dt > 4.0 then old(Motion())
                          else FrameStep(old(Motion()), targetSpeed, w, h, playerX, dt, drag, d)
    {
      dt, lastTime := FrameDt(lastTime, currentTime, dt), currentTime;
      if dt <= 4.0 {
        Frame(drag, d);
      }
    }

    /** The progress `draw` uses to blend the two themes. */
    function Progress(): (p: real)
      reads this
      requires Valid()
      ensures 0.0 <= transitionTimer <= TransitionFrames ==> 0.0 <= p <= 1.0
      ensures transitionTimer > 1.5 * TransitionFrames ==> p < 0.0
    {
      DrawProgressBounds(currentThemeIdx, nextThemeIdx, transitionTimer);
      DrawProgress(currentThemeIdx, nextThemeIdx, transitionTimer)
    }
  }
}
