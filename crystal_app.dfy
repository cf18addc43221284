/** The Vue crystal scene: a crystal that glides right across four seasonal
    scenes while a movement key is held (or after it has been held for three
    seconds, until the next press), leaving a fading trail, with falling
    scene particles. Positions are percentages of the viewport. */
module CrystalApp {
  import opened Util

  const StartX: real := 10.0
  const TurnX: real := 90.0
  const Step: real := 0.17
  const CrystalY: real := 50.0
  const Fade: real := 0.05
  const TrailThrottle: real := 50.0
  const ParticleCount: nat := 50

  // ---------------------------------------------------------------------
  // Scenes

  datatype Scene = Scene(name: string, backgroundColor: string, particles: string)

  const Scenes: seq<Scene> := [
    Scene("Spring", "#d1fecb", "\U{25CF}"),
    Scene("Summer", "#fff9c4", "\U{25CF}"),
    Scene("Autumn", "#ffccbc", "\U{25CF}"),
    Scene("Winter", "#e0f7fa", "\U{25CF}")
  ]

  /** `scenes.length`. */
  const SceneCount: int := 4

  // ---------------------------------------------------------------------
  // Horizontal motion

  /** One frame of `moveRight` for the position alone: glide right by 0.17
      while left of 90, otherwise loop back to 10. */
  function MoveX(x: real): (r: real)
    ensures StartX <= x < TurnX + Step ==> StartX <= r < TurnX + Step
  {
    if x < TurnX then x + Step else StartX
  }

  /** `n` frames of movement. */
  function MoveFrames(x: real, n: nat): (r: real)
    decreases n
  {
    if n == 0 then x else MoveX(MoveFrames(x, n - 1))
  }

  /** From the left edge the crystal advances 0.17 per frame for 471
      frames, reaching 90.07. */
  lemma {:induction false} GlideFromStart(k: nat)
    requires k <= 471
    ensures MoveFrames(StartX, k) == StartX + Step * k as real
    decreases k
  {
    if k > 0 {
      GlideFromStart(k - 1);
    }
  }

  /** The 472nd frame loops the crystal back to the left edge: one crossing
      of a scene takes 472 frames of movement. */
  lemma CrossingTakes472Frames()
    ensures MoveFrames(StartX, 471) == 90.07
    ensures MoveFrames(StartX, 472) == StartX
    ensures forall k: nat :: 0 < k < 472 ==> MoveFrames(StartX, k) != StartX
  {
    GlideFromStart(471);
    forall k: nat | 0 < k < 472
      ensures MoveFrames(StartX, k) != StartX
    {
      GlideFromStart(k);
    }
  }

  // ---------------------------------------------------------------------
  // Trail

  datatype TrailDot = TrailDot(x: real, y: real, opacity: real)

  function FadedDot(p: TrailDot): TrailDot { p.(opacity := p.opacity - Fade) }

  /** `forEach(p => p.opacity -= 0.05)`. */
  function FadeAll(s: seq<TrailDot>): seq<TrailDot>
  {
    seq(|s|, i requires 0 <= i < |s| => FadedDot(s[i]))
  }

  predicate Visible(p: TrailDot) { p.opacity > 0.0 }

  /** `updateTrail` on values: push a fully opaque dot at the crystal, fade
      every dot, drop the invisible ones. */
  function TrailStep(trail: seq<TrailDot>, x: real, y: real): seq<TrailDot>
  {
    Filter(FadeAll(trail + [TrailDot(x, y, 1.0)]), Visible)
  }

  /** The shape of every trail built by `updateTrail` from the empty one:
      at most 19 dots whose opacities, oldest first, are consecutive
      multiples of 0.05 ending in 0.95 at the newest dot. */
  predicate TrailShape(trail: seq<TrailDot>)
  {
    |trail| <= 19
    && forall i :: 0 <= i < |trail| ==> trail[i].opacity == Fade * (20 - |trail| + i) as real
  }

  /** After the push and the fade the opacities, oldest first, are
      consecutive multiples of 0.05 ending in 0.95. */
  lemma FadedOpacities(trail: seq<TrailDot>, x: real, y: real)
    requires TrailShape(trail)
    ensures var faded := FadeAll(trail + [TrailDot(x, y, 1.0)]);
      |faded| == |trail| + 1
      && forall i :: 0 <= i < |faded| ==> faded[i].opacity == Fade * (19 - |trail| + i) as real
  {
    var n := |trail|;
    var pushed := trail + [TrailDot(x, y, 1.0)];
    var faded := FadeAll(pushed);
    forall i | 0 <= i < n + 1
      ensures faded[i].opacity == Fade * (19 - n + i) as real
    {
      if i < n {
        assert pushed[i] == trail[i];
      } else {
        assert pushed[i] == TrailDot(x, y, 1.0);
      }
    }
  }

  /** Below 19 dots nothing fades out: the filter keeps every dot. */
  lemma TrailStepGrows(trail: seq<TrailDot>, x: real, y: real)
    requires TrailShape(trail) && |trail| < 19
    ensures TrailStep(trail, x, y) == FadeAll(trail + [TrailDot(x, y, 1.0)])
  {
    var faded := FadeAll(trail + [TrailDot(x, y, 1.0)]);
    FadedOpacities(trail, x, y);
    assert forall i :: 0 <= i < |faded| ==> Visible(faded[i]);
    FilterKeepsEverything(faded, Visible);
  }

  /** At 19 dots exactly the oldest one fades out. */
  lemma TrailStepDropsOldest(trail: seq<TrailDot>, x: real, y: real)
    requires TrailShape(trail) && |trail| == 19
    ensures TrailStep(trail, x, y) == FadeAll(trail + [TrailDot(x, y, 1.0)])[1..]
  {
    var faded := FadeAll(trail + [TrailDot(x, y, 1.0)]);
    FadedOpacities(trail, x, y);
    assert !Visible(faded[0]);
    FilterCons(faded[0], faded[1..], Visible);
    assert [faded[0]] + faded[1..] == faded;
    assert forall i :: 0 <= i < |faded[1..]| ==> faded[1..][i] == faded[i + 1];
    FilterKeepsEverything(faded[1..], Visible);
  }

  /** `updateTrail` keeps the shape, ends the trail with a dot at the crystal,
      grows the trail by one until it holds 19 dots and from then on drops
      exactly the oldest dot. */
  lemma TrailStepKeepsShape(trail: seq<TrailDot>, x: real, y: real)
    requires TrailShape(trail)
    ensures var r := TrailStep(trail, x, y);
      r != [] && r[|r| - 1] == TrailDot(x, y, 0.95) && TrailShape(r)
      && (|trail| < 19 ==> |r| == |trail| + 1 && r[..|trail|] == FadeAll(trail))
      && (|trail| == 19 ==> |r| == 19 && r[..18] == FadeAll(trail)[1..])
  {
    var n := |trail|;
    var faded := FadeAll(trail + [TrailDot(x, y, 1.0)]);
    var r := TrailStep(trail, x, y);
    FadedOpacities(trail, x, y);
    assert faded[n] == TrailDot(x, y, 0.95);
    if n < 19 {
      TrailStepGrows(trail, x, y);
      assert r[..n] == FadeAll(trail);
    } else {
      TrailStepDropsOldest(trail, x, y);
      forall i | 0 <= i < |r|
        ensures r[i].opacity == Fade * (20 - |r| + i) as real
      {
        assert r[i] == faded[i + 1];
      }
      assert r[..18] == FadeAll(trail)[1..];
    }
  }

  lemma TrailShapeEmpty()
    ensures TrailShape([])
  {
  }

  // ---------------------------------------------------------------------
  // Scene particles

  datatype SceneParticle = SceneParticle(x: real, y: real, glyph: string, speed: real)

  /** The three `Math.random()` results one new particle consumes. */
  datatype ParticleDraw = ParticleDraw(x: real, y: real, speed: real)

  predicate IsUnit(u: real) { 0.0 <= u < 1.0 }

  predicate DrawOk(d: ParticleDraw) { IsUnit(d.x) && IsUnit(d.y) && IsUnit(d.speed) }

  /** The invariant of every scene particle: on screen, falling at between
      0.1 and 0.6 per frame, showing the scene's character. */
  predicate ParticleOk(p: SceneParticle, c: string)
  {
    0.0 <= p.x < 100.0 && 0.0 <= p.y <= 100.0 && 0.1 <= p.speed < 0.6 && p.glyph == c
  }

  predicate AllParticlesOk(ps: seq<SceneParticle>, c: string)
  {
    forall i :: 0 <= i < |ps| ==> ParticleOk(ps[i], c)
  }

  /** One particle of `createSceneParticles`. */
  function NewParticle(d: ParticleDraw, c: string): (p: SceneParticle)
    ensures DrawOk(d) ==> ParticleOk(p, c)
    ensures DrawOk(d) ==> p.y < 100.0
  {
    SceneParticle(d.x * 100.0, d.y * 100.0, c, d.speed * 0.5 + 0.1)
  }

  /** `createSceneParticles` on values: one particle per draw. */
  function NewParticles(draws: seq<ParticleDraw>, c: string): seq<SceneParticle>
  {
    seq(|draws|, i requires 0 <= i < |draws| => NewParticle(draws[i], c))
  }

  /** One frame of a particle in `updateSceneParticles`: it falls by its
      speed, and once below the bottom it restarts at the top at a new
      random `x`. */
  function Fall(p: SceneParticle, u: real): (r: SceneParticle)
    ensures ParticleOk(p, p.glyph) && IsUnit(u) ==> ParticleOk(r, p.glyph)
    ensures r.glyph == p.glyph && r.speed == p.speed
    ensures p.y + p.speed > 100.0 ==> r.y == 0.0 && r.x == u * 100.0
    ensures p.y + p.speed <= 100.0 ==> r.y == p.y + p.speed && r.x == p.x
  {
    var fallen := p.(y := p.y + p.speed);
    if fallen.y > 100.0 then fallen.(y := 0.0, x := u * 100.0) else fallen
  }

  function FallAll(ps: seq<SceneParticle>, resets: seq<real>): seq<SceneParticle>
    requires |resets| == |ps|
  {
    seq(|ps|, i requires 0 <= i < |ps| => Fall(ps[i], resets[i]))
  }

  /** Falling keeps every particle valid. */
  lemma FallAllKeepsParticlesOk(ps: seq<SceneParticle>, resets: seq<real>, c: string)
    requires |resets| == |ps| && AllParticlesOk(ps, c)
    requires forall i :: 0 <= i < |resets| ==> IsUnit(resets[i])
    ensures AllParticlesOk(FallAll(ps, resets), c)
  {
    forall i | 0 <= i < |ps|
      ensures ParticleOk(FallAll(ps, resets)[i], c)
    {
      assert ParticleOk(ps[i], ps[i].glyph);
    }
  }

  /** Freshly created particles are valid. */
  lemma NewParticlesOk(draws: seq<ParticleDraw>, c: string)
    requires forall i :: 0 <= i < |draws| ==> DrawOk(draws[i])
    ensures AllParticlesOk(NewParticles(draws, c), c)
  {
  }

  // ---------------------------------------------------------------------
  // The movement key machine

  /** `e.key` and `e.code` of a keyboard event. */
  datatype KeyEvent = KeyEvent(key: string, code: string)

  predicate IsMoveKey(e: KeyEvent)
  {
    e.key == "d" || e.key == "D" || e.code == "Space"
  }

  /** `isMoving`, `isAutoMoving` and whether the 3-second timeout is pending. */
  datatype Flags = Flags(moving: bool, auto: bool, pending: bool)

  const Stopped: Flags := Flags(false, false, false)

  /** Moving means exactly one of: the key is held with the timeout pending,
      or the crystal moves on its own. */
  predicate FlagsValid(f: Flags)
  {
    (f.moving <==> f.pending || f.auto) && !(f.pending && f.auto)
  }

  /** `handleKeyDown`: other keys are ignored; while moving on its own the
      crystal stops; while the key is held nothing happens; otherwise the
      crystal starts moving and the 3-second timeout is set. */
  function KeyDownStep(f: Flags, e: KeyEvent): Flags
  {
    if !IsMoveKey(e) then f
    else if f.auto then Stopped
    else if f.moving then f
    else Flags(true, false, true)
  }

  /** `handleKeyUp`: ignored for other keys and while moving on its own;
      otherwise the crystal stops. */
  function KeyUpStep(f: Flags, e: KeyEvent): Flags
  {
    if !IsMoveKey(e) || f.auto then f else Stopped
  }

  /** The timeout's callback after three seconds. */
  function TimerStep(f: Flags): Flags
    requires f.pending
  {
    Flags(f.moving, true, false)
  }

  datatype Input = Down(e: KeyEvent) | Up(e: KeyEvent) | Timeout

  /** A sequence of inputs; a timeout that was cleared never fires. */
  function RunInputs(f: Flags, inputs: seq<Input>): Flags
    decreases |inputs|
  {
    if inputs == [] then f
    else
      var f' := match inputs[0]
        case Down(e) => KeyDownStep(f, e)
        case Up(e) => KeyUpStep(f, e)
        case Timeout => if f.pending then TimerStep(f) else f;
      RunInputs(f', inputs[1..])
  }

  lemma StepsKeepFlagsValid(f: Flags, e: KeyEvent)
    requires FlagsValid(f)
    ensures FlagsValid(KeyDownStep(f, e)) && FlagsValid(KeyUpStep(f, e))
    ensures f.pending ==> FlagsValid(TimerStep(f))
  {
  }

  /** Every reachable combination of the three flags is consistent. */
  lemma {:induction false} RunInputsKeepsFlagsValid(f: Flags, inputs: seq<Input>)
    requires FlagsValid(f)
    ensures FlagsValid(RunInputs(f, inputs))
    decreases |inputs|
  {
    if inputs != [] {
      var f' := match inputs[0]
        case Down(e) => KeyDownStep(f, e)
        case Up(e) => KeyUpStep(f, e)
        case Timeout => if f.pending then TimerStep(f) else f;
      match inputs[0] {
        case Down(e) => StepsKeepFlagsValid(f, e);
        case Up(e) => StepsKeepFlagsValid(f, e);
        case Timeout => StepsKeepFlagsValid(f, KeyEvent("", ""));
      }
      RunInputsKeepsFlagsValid(f', inputs[1..]);
    }
  }

  /** Holding a movement key past the timeout locks movement on: releasing
      it keeps the crystal moving, and the next press stops it. A release
      before the timeout stops it at once. */
  lemma HoldToLock(e: KeyEvent)
    requires IsMoveKey(e)
    ensures RunInputs(Stopped, [Down(e), Timeout, Up(e)]) == Flags(true, true, false)
    ensures RunInputs(Stopped, [Down(e), Timeout, Up(e), Down(e)]) == Stopped
    ensures RunInputs(Stopped, [Down(e), Up(e), Timeout]) == Stopped
  {
    var held := Flags(true, false, true);
    var locked := Flags(true, true, false);
    assert RunInputs(Stopped, [Down(e), Timeout, Up(e)]) == RunInputs(held, [Timeout, Up(e)]);
    assert RunInputs(held, [Timeout, Up(e)]) == RunInputs(locked, [Up(e)]);
    assert RunInputs(locked, [Up(e)]) == RunInputs(locked, []);
    assert RunInputs(Stopped, [Down(e), Timeout, Up(e), Down(e)]) == RunInputs(held, [Timeout, Up(e), Down(e)]);
    assert RunInputs(held, [Timeout, Up(e), Down(e)]) == RunInputs(locked, [Up(e), Down(e)]);
    assert RunInputs(locked, [Up(e), Down(e)]) == RunInputs(locked, [Down(e)]);
    assert RunInputs(locked, [Down(e)]) == RunInputs(Stopped, []);
    assert RunInputs(Stopped, [Down(e), Up(e), Timeout]) == RunInputs(held, [Up(e), Timeout]);
    assert RunInputs(held, [Up(e), Timeout]) == RunInputs(Stopped, [Timeout]);
    assert RunInputs(Stopped, [Timeout]) == RunInputs(Stopped, []);
  }

  /** A keydown repeated by the keyboard after the timeout has fired takes the
      auto-moving branch and stops the crystal. */
  lemma KeyRepeatAfterTimeoutStops(e: KeyEvent)
    requires IsMoveKey(e)
    ensures RunInputs(Stopped, [Down(e), Timeout, Down(e)]) == Stopped
  {
    var held := Flags(true, false, true);
    var locked := Flags(true, true, false);
    assert RunInputs(Stopped, [Down(e), Timeout, Down(e)]) == RunInputs(held, [Timeout, Down(e)]);
    assert RunInputs(held, [Timeout, Down(e)]) == RunInputs(locked, [Down(e)]);
    assert RunInputs(locked, [Down(e)]) == RunInputs(Stopped, []);
  }

  /** In a consistent state that is not moving on its own, a press of a
      movement key followed by its release always ends stopped. */
  lemma PressReleaseStops(f: Flags, e: KeyEvent)
    requires FlagsValid(f) && !f.auto && IsMoveKey(e)
    ensures KeyUpStep(KeyDownStep(f, e), e) == Stopped
  {
  }

  /** Before the timeout a repeated keydown (keyboard auto-repeat) changes
      nothing, and a repeated keyup changes nothing in any state. */
  lemma RepeatsIgnored(f: Flags, e: KeyEvent)
    ensures !f.auto ==> KeyDownStep(KeyDownStep(f, e), e) == KeyDownStep(f, e)
    ensures KeyUpStep(KeyUpStep(f, e), e) == KeyUpStep(f, e)
  {
  }

  /** The timeout is pending only while the crystal moves, so when it fires
      the crystal keeps moving, now on its own. */
  lemma TimerKeepsMoving(f: Flags)
    requires FlagsValid(f) && f.pending
    ensures TimerStep(f) == Flags(true, true, false)
  {
  }

  /** Presses and releases of other keys change nothing. */
  lemma {:induction false} OtherKeysIgnored(f: Flags, inputs: seq<Input>)
    requires forall i :: 0 <= i < |inputs| ==> !inputs[i].Timeout? && !IsMoveKey(inputs[i].e)
    ensures RunInputs(f, inputs) == f
    decreases |inputs|
  {
    if inputs != [] {
      assert !inputs[0].Timeout? && !IsMoveKey(inputs[0].e);
      OtherKeysIgnored(f, inputs[1..]);
    }
  }

  // ---------------------------------------------------------------------
  // The component state

  /** The refs and closure variables of `setup()`. `timerPending` says
      whether `keydownTimeout` holds a timeout that has neither fired nor
      been cleared. */
  class App {
    var crystalX: real
    var crystalY: real
    var isMoving: bool
    var isAutoMoving: bool
    var timerPending: bool
    var trail: seq<TrailDot>
    var currentSceneIndex: int
    var currentScene: Scene
    var sceneParticles: seq<SceneParticle>
    var lastTrailTime: real

    ghost function Mode(): Flags
      reads this`isMoving, this`isAutoMoving, this`timerPending
    {
      Flags(isMoving, isAutoMoving, timerPending)
    }

    ghost predicate Valid()
      reads this
    {
      StartX <= crystalX < TurnX + Step
      && 0 <= currentSceneIndex < SceneCount && currentScene == Scenes[currentSceneIndex]
      && FlagsValid(Mode())
      && TrailShape(trail)
      && |sceneParticles| == ParticleCount && AllParticlesOk(sceneParticles, currentScene.particles)
    }

    /** `setup()` followed by the `createSceneParticles()` of `onMounted`;
        `draws` are the random numbers it consumes. */
    constructor (draws: seq<ParticleDraw>)
      requires |draws| == ParticleCount && forall i :: 0 <= i < |draws| ==> DrawOk(draws[i])
      ensures Valid()
      ensures crystalX == StartX && crystalY == CrystalY && Mode() == Stopped
      ensures trail == [] && currentSceneIndex == 0 && lastTrailTime == 0.0
      ensures sceneParticles == NewParticles(draws, Scenes[0].particles)
    {
      crystalX, crystalY := StartX, CrystalY;
      isMoving, isAutoMoving, timerPending := false, false, false;
      trail := [];
      currentSceneIndex := 0;
      currentScene := Scenes[0];
      lastTrailTime := 0.0;
      sceneParticles := [];
      new;
      CreateSceneParticles(draws);
    }

    /** `createSceneParticles()`: 50 new particles with the current scene's
        character. */
    method CreateSceneParticles(draws: seq<ParticleDraw>)
      requires |draws| == ParticleCount
      modifies this`sceneParticles
      ensures sceneParticles == NewParticles(draws, currentScene.particles)
      ensures (forall i :: 0 <= i < |draws| ==> DrawOk(draws[i])) ==>
        AllParticlesOk(sceneParticles, currentScene.particles)
    {
      sceneParticles := [];
      for i := 0 to ParticleCount
        invariant sceneParticles == NewParticles(draws[..i], currentScene.particles)
      {
        sceneParticles := sceneParticles + [NewParticle(draws[i], currentScene.particles)];
      }
      assert draws[..ParticleCount] == draws;
      if forall i :: 0 <= i < |draws| ==> DrawOk(draws[i]) {
        NewParticlesOk(draws, currentScene.particles);
      }
    }

    /** `moveRight()`. */
    method MoveRight(draws: seq<ParticleDraw>)
      requires Valid()
      requires |draws| == ParticleCount && forall i :: 0 <= i < |draws| ==> DrawOk(draws[i])
      modifies this`crystalX, this`currentSceneIndex, this`currentScene, this`sceneParticles
      ensures Valid()
      ensures crystalX == MoveX(old(crystalX))
      ensures old(crystalX) < TurnX ==>
        currentSceneIndex == old(currentSceneIndex) && sceneParticles == old(sceneParticles)
      ensures old(crystalX) >= TurnX ==>
        currentSceneIndex == (old(currentSceneIndex) + 1) % SceneCount
        && sceneParticles == NewParticles(draws, Scenes[currentSceneIndex].particles)
    {
      if crystalX < TurnX {
        crystalX := crystalX + Step;
      } else {
        crystalX := StartX;
        currentSceneIndex := (currentSceneIndex + 1) % SceneCount;
        currentScene := Scenes[currentSceneIndex];
        CreateSceneParticles(draws);
      }
    }

    /** `updateTrail()`: push, the fading `forEach`, then the filter. */
    method UpdateTrail()
      modifies this`trail
      ensures trail == TrailStep(old(trail), crystalX, crystalY)
    {
      trail := trail + [TrailDot(crystalX, crystalY, 1.0)];
      ghost var pushed := trail;
      for i := 0 to |trail|
        invariant |trail| == |pushed|
        invariant forall j :: 0 <= j < i ==> trail[j] == FadedDot(pushed[j])
        invariant forall j :: i <= j < |trail| ==> trail[j] == pushed[j]
      {
        trail := trail[i := trail[i].(opacity := trail[i].opacity - Fade)];
      }
      assert trail == FadeAll(pushed);
      trail := Filter(trail, Visible);
    }

    /** `updateSceneParticles()`; `resets[i]` is the `Math.random()` drawn
        when particle `i` wraps around (unused otherwise). */
    method UpdateSceneParticles(resets: seq<real>)
      requires |resets| == |sceneParticles|
      modifies this`sceneParticles
      ensures sceneParticles == FallAll(old(sceneParticles), resets)
    {
      ghost var before := sceneParticles;
      for i := 0 to |sceneParticles|
        invariant |sceneParticles| == |before|
        invariant forall j :: 0 <= j < i ==> sceneParticles[j] == Fall(before[j], resets[j])
        invariant forall j :: i <= j < |sceneParticles| ==> sceneParticles[j] == before[j]
      {
        var p := sceneParticles[i];
        p := p.(y := p.y + p.speed);
        if p.y > 100.0 {
          p := p.(y := 0.0, x := resets[i] * 100.0);
        }
        sceneParticles := sceneParticles[i := p];
      }
    }

    /** The trail part of `gameLoop`: at most one trail update per 50 ms. */
    method ThrottledTrail(timestamp: real)
      modifies this`trail, this`lastTrailTime
      ensures timestamp - old(lastTrailTime) > TrailThrottle ==>
        trail == TrailStep(old(trail), crystalX, crystalY) && lastTrailTime == timestamp
      ensures timestamp - old(lastTrailTime) <= TrailThrottle ==>
        trail == old(trail) && lastTrailTime == old(lastTrailTime)
    {
      if timestamp - lastTrailTime > TrailThrottle {
        UpdateTrail();
        lastTrailTime := timestamp;
      }
    }

    /** `gameLoop(timestamp)`; `draws` feed a possible scene change and
        `resets` the particles that wrap around. */
    method GameLoop(timestamp: real, draws: seq<ParticleDraw>, resets: seq<real>)
      requires Valid()
      requires |draws| == ParticleCount && forall i :: 0 <= i < |draws| ==> DrawOk(draws[i])
      requires |resets| == ParticleCount && forall i :: 0 <= i < |resets| ==> IsUnit(resets[i])
      modifies this`crystalX, this`currentSceneIndex, this`currentScene, this`sceneParticles,
               this`trail, this`lastTrailTime
      ensures Valid()
      ensures !isMoving ==>
        crystalX == old(crystalX) && trail == old(trail) && lastTrailTime == old(lastTrailTime)
        && currentSceneIndex == old(currentSceneIndex)
        && sceneParticles == FallAll(old(sceneParticles), resets)
      ensures isMoving ==> crystalX == MoveX(old(crystalX))
      ensures isMoving && old(crystalX) < TurnX ==>
        currentSceneIndex == old(currentSceneIndex) && sceneParticles == FallAll(old(sceneParticles), resets)
      ensures isMoving && old(crystalX) >= TurnX ==>
        currentSceneIndex == (old(currentSceneIndex) + 1) % SceneCount
        && sceneParticles == FallAll(NewParticles(draws, Scenes[currentSceneIndex].particles), resets)
      ensures isMoving && timestamp - old(lastTrailTime) > TrailThrottle ==>
        trail == TrailStep(old(trail), crystalX, crystalY) && lastTrailTime == timestamp
      ensures isMoving && timestamp - old(lastTrailTime) <= TrailThrottle ==>
        trail == old(trail) && lastTrailTime == old(lastTrailTime)
    {
      if isMoving {
        MoveRight(draws);
        ThrottledTrail(timestamp);
        TrailStepKeepsShape(old(trail), crystalX, crystalY);
      }
      FallAllKeepsParticlesOk(sceneParticles, resets, currentScene.particles);
      UpdateSceneParticles(resets);
    }

    /** `startMoving()`. */
    method StartMoving()
      modifies this`isMoving
      ensures isMoving
    {
      if isMoving {
        return;
      }
      isMoving := true;
    }

    /** `stopMoving()`: both flags off and the timeout cleared. */
    method StopMoving()
      modifies this`isMoving, this`isAutoMoving, this`timerPending
      ensures Mode() == Stopped
    {
      isMoving := false;
      isAutoMoving := false;
      timerPending := false;
    }

    /** `handleKeyDown(e)`. */
    method HandleKeyDown(e: KeyEvent)
      requires Valid()
      modifies this`isMoving, this`isAutoMoving, this`timerPending
      ensures Mode() == KeyDownStep(old(Mode()), e)
      ensures Valid()
    {
      StepsKeepFlagsValid(Mode(), e);
      if IsMoveKey(e) {
        if isAutoMoving {
          StopMoving();
          return;
        }
        if isMoving {
          return;
        }
        StartMoving();
        timerPending := true;
      }
    }

    /** `handleKeyUp(e)`. */
    method HandleKeyUp(e: KeyEvent)
      requires Valid()
      modifies this`isMoving, this`isAutoMoving, this`timerPending
      ensures Mode() == KeyUpStep(old(Mode()), e)
      ensures Valid()
    {
      StepsKeepFlagsValid(Mode(), e);
      if IsMoveKey(e) {
        if isAutoMoving {
          return;
        }
        StopMoving();
      }
    }

    /** The callback of the pending 3-second timeout. */
    method AutoMoveTimerFired()
      requires Valid() && timerPending
      modifies this`isAutoMoving, this`timerPending
      ensures Mode() == TimerStep(old(Mode()))
      ensures Valid()
    {
      StepsKeepFlagsValid(Mode(), KeyEvent("", ""));
      isAutoMoving := true;
      timerPending := false;
    }
  }
}
