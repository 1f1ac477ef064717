/** The part of the storytelling scene that has state of its own: the character's
    locomotion, the audio cues, the post-processing switches and the one light the
    reveal removes, together with the calls the scene issues to the audio library,
    the animation mixer and the tween engine. Each handler of main.js is a function
    from the state before to the state after. */
module SceneModel {

  datatype Option<T> = None | Some(value: T)

  /** The character's two animation clips: gltf.animations[0] and gltf.animations[1]. */
  datatype Clip = Idle | Walk

  /** The Howler sounds: the ambient loop `sound`, the reveal loop `newSong`,
      the `footsound` loop and the one-shot cue of each invisible plane. */
  datatype Sound = Ambient | NewSong | Footsteps | ZoneCue(zone: nat)

  /** A call issued to a collaborator the scene does not own. */
  datatype Effect =
    | Play(sound: Sound)
    | Stop(sound: Sound)
    | StartClip(clip: Clip)            // action.play() when the model has loaded
    | CrossFade(from: Clip, to: Clip)  // fadeOut(0.2) of one clip, reset().fadeIn(0.2).play() of the other
    | TweenAmbientLight                // gsap.to(_ambiLight, { intensity: 0.1, duration: 10 })
    | TweenPointLightColor             // gsap.to(_pointLight.color, { duration: 10, r: 1, g: 0, b: 0.6 })

  /** What can happen to the scene: a key event, one frame of the render loop
      (with the outcome of each bounding-box test), the character's GLTF load
      completing, and a one-shot zone cue reaching its end. */
  datatype Event =
    | KeyDownEvent(key: string)
    | KeyUpEvent(key: string)
    | FrameEvent(zoneHits: seq<bool>, triggerHit: bool)
    | ModelLoaded
    | CueEnded(zone: nat)

  /** The module-level locomotion variables of main.js. */
  datatype Locomotion = Locomotion(
    walk: bool,              // `_walk`
    speedX: real,            // `_walkSpeedX`, the turn rate in degrees per frame
    speedZ: real,            // `_walkSpeedZ`, the forward speed
    headingDegrees: real,    // `_3dmodel.rotation.y`, in degrees
    action: Option<Clip>)    // `_currentAction`, undefined until the model loads

  /** Whether each Howler sound is playing. */
  datatype Audio = Audio(
    ambientPlaying: bool,    // `sound.playing()`
    newSongPlaying: bool,    // `newSong.playing()`
    footstepsPlaying: bool,  // `footsound.playing()`
    zonePlaying: seq<bool>)  // `planes[i].sound.playing()`

  /** What the reveal changes in the rendering. */
  datatype Visuals = Visuals(
    bloomEnabled: bool,        // `bloomPass.enabled`
    luminosityEnabled: bool,   // `luminosityPass.enabled`
    pointLight2InScene: bool)  // `_pointLight2` is a child of `_scene`

  datatype State = State(
    loaded: bool,          // `_3dmodel` is defined
    loco: Locomotion,
    audio: Audio,
    visuals: Visuals,
    issued: seq<Effect>)   // every collaborator call so far, oldest first

  const ArrowUp: string := "ArrowUp"
  const ArrowLeft: string := "ArrowLeft"
  const ArrowRight: string := "ArrowRight"

  const ZoneCount: nat := 5
  const MinWalkSpeed: real := 0.1
  const SpeedGrowth: real := 1.05
  const MaxWalkSpeed: real := 1.0
  const TurnRate: real := 0.5

  predicate IsArrowKey(key: string) {
    key == ArrowUp || key == ArrowLeft || key == ArrowRight
  }

  function Max(a: real, b: real): real {
    if a >= b then a else b
  }

  function Min(a: real, b: real): real {
    if a <= b then a else b
  }

  function Pow(b: real, n: nat): real {
    if n == 0 then 1.0 else b * Pow(b, n - 1)
  }

  /** z * 1.05^n, the forward speed n frames on if there were no cap. */
  function Geometric(z: real, n: nat): real
    decreases n
  {
    if n == 0 then z else Geometric(z * SpeedGrowth, n - 1)
  }

  /** Occurrences of play() and stop() of one sound in a call log. */
  function Plays(log: seq<Effect>, snd: Sound): nat {
    multiset(log)[Play(snd)]
  }

  function Stops(log: seq<Effect>, snd: Sound): nat {
    multiset(log)[Stop(snd)]
  }

  /** The value of `_idleAction` or `_walkAction`: undefined until the model loads. */
  function ClipHandle(loaded: bool, c: Clip): Option<Clip> {
    if loaded then Some(c) else None
  }

  /** The locomotion invariant: forward speed is zero or between the walking
      threshold and the cap, the turn rate is one of three values, and an
      actor that is not walking has neither speed. */
  predicate ValidLocomotion(l: Locomotion) {
    && 0.0 <= l.speedZ <= MaxWalkSpeed
    && (l.speedZ == 0.0 || MinWalkSpeed <= l.speedZ)
    && (l.speedX == 0.0 || l.speedX == TurnRate || l.speedX == -TurnRate)
    && (!l.walk ==> l.speedZ == 0.0 && l.speedX == 0.0)
  }

  /** The scene invariant: the locomotion invariant, a current clip exactly
      when the model has loaded, and one cue per plane. */
  predicate Valid(s: State) {
    && ValidLocomotion(s.loco)
    && s.loco.action.Some? == s.loaded
    && |s.audio.zonePlaying| == ZoneCount
  }

  /** The scene after main.js has run its top level: the ambient loop started,
      bloom off, the luminosity pass on (a ShaderPass is enabled when created),
      the second point light in the scene, the character not yet loaded. */
  function Init(): State {
    State(false,
          Locomotion(false, 0.0, 0.0, 0.0, None),
          Audio(true, false, false, [false, false, false, false, false]),
          Visuals(false, true, true),
          [Play(Ambient)])
  }

  /** The GLTF loader's callback for the character: `_3dmodel` is set and the
      idle clip is started and made current. */
  function Load(s: State): (r: State)
    ensures Valid(s) ==> Valid(r)
    ensures s.issued <= r.issued
  {
    s.(loaded := true, loco := s.loco.(action := Some(Idle)), issued := s.issued + [StartClip(Idle)])
  }

  /** switchToAction: a cross-fade to `target` unless it is already current.
      Both are undefined or both are defined: the clips and the current clip
      are all set by the same load callback. */
  function SwitchTo(s: State, target: Option<Clip>): State
    requires s.loco.action.Some? == target.Some?
  {
    if s.loco.action == target then s
    else s.(loco := s.loco.(action := target),
            issued := s.issued + [CrossFade(s.loco.action.value, target.value)])
  }

  /** The keydown listener. */
  function KeyDown(s: State, key: string): (r: State)
    requires s.loco.action.Some? == s.loaded
    ensures Valid(s) ==> Valid(r)
    ensures s.issued <= r.issued
  {
    if key == ArrowUp then
      var l := s.loco;
      var s1 := SwitchTo(s.(loco := l.(walk := true, speedZ := Max(l.speedZ, MinWalkSpeed))), ClipHandle(s.loaded, Walk));
      if s1.audio.footstepsPlaying then s1
      else s1.(audio := s1.audio.(footstepsPlaying := true), issued := s1.issued + [Play(Footsteps)])
    else if key == ArrowLeft then
      SwitchTo(s.(loco := s.loco.(speedX := TurnRate, walk := true)), ClipHandle(s.loaded, Walk))
    else if key == ArrowRight then
      SwitchTo(s.(loco := s.loco.(speedX := -TurnRate, walk := true)), ClipHandle(s.loaded, Walk))
    else
      s
  }

  /** The keyup listener: releasing any of the three arrows stops the actor. */
  function KeyUp(s: State, key: string): (r: State)
    requires s.loco.action.Some? == s.loaded
    ensures Valid(s) ==> Valid(r)
    ensures s.issued <= r.issued
  {
    if IsArrowKey(key) then
      var s1 := SwitchTo(s.(loco := s.loco.(speedZ := 0.0, speedX := 0.0, walk := false)), ClipHandle(s.loaded, Idle));
      s1.(audio := s1.audio.(footstepsPlaying := false), issued := s1.issued + [Stop(Footsteps)])
    else
      s
  }

  /** The movement update of one frame, before the position change: the
      forward speed eases in while walking, capped at 1, and the turn rate is
      added to the heading. */
  function Tick(s: State): State {
    var l := s.loco;
    var speedZ := if l.walk then Grow(l.speedZ) else l.speedZ;
    var heading := if l.speedX != 0.0 then l.headingDegrees + l.speedX else l.headingDegrees;
    s.(loco := l.(speedZ := speedZ, headingDegrees := heading))
  }

  /** One frame of ease-in: the forward speed times 1.05, capped at 1. */
  function Grow(z: real): real {
    var grown := z * SpeedGrowth;
    if grown > MaxWalkSpeed then MaxWalkSpeed else grown
  }

  /** The forward speed after n frames of ease-in. */
  function Eased(z: real, n: nat): real
    decreases n
  {
    if n == 0 then z else Eased(Grow(z), n - 1)
  }

  /** The heading after n frames of turning at rate x. */
  function Turned(h: real, x: real, n: nat): real
    decreases n
  {
    if n == 0 then h else Turned(h + x, x, n - 1)
  }

  /** InvisiblePlane.checkCollision for plane `i`: on an intersection the
      plane's cue is started unless it is playing already. */
  function CheckCollision(s: State, i: nat, intersects: bool): State
    requires i < |s.audio.zonePlaying|
  {
    if intersects && !s.audio.zonePlaying[i] then
      s.(audio := s.audio.(zonePlaying := s.audio.zonePlaying[i := true]),
         issued := s.issued + [Play(ZoneCue(i))])
    else
      s
  }

  /** The planes.forEach loop of one frame, over the first `n` planes. It
      touches nothing but the zone cues and only appends to the call log. */
  function CheckZones(s: State, hits: seq<bool>, n: nat): (r: State)
    requires |hits| == |s.audio.zonePlaying| && n <= |hits|
    ensures r == s.(audio := s.audio.(zonePlaying := r.audio.zonePlaying), issued := r.issued)
    ensures |r.audio.zonePlaying| == |s.audio.zonePlaying|
    ensures s.issued <= r.issued
    decreases n
  {
    if n == 0 then s
    else CheckCollision(CheckZones(s, hits, n - 1), n - 1, hits[n - 1])
  }

  /** The collision test against the invisible box in animate(): on an
      intersection the ambient loop is stopped if it plays, the reveal song is
      started if it does not, two tweens are issued, bloom is switched on,
      the luminosity pass off, and the second point light leaves the scene. */
  function GlobalTrigger(s: State, intersects: bool): State {
    if !intersects then s
    else
      var stopAmbient := if s.audio.ambientPlaying then [Stop(Ambient)] else [];
      var startSong := if s.audio.newSongPlaying then [] else [Play(NewSong)];
      s.(audio := s.audio.(ambientPlaying := false, newSongPlaying := true),
         visuals := Visuals(true, false, false),
         issued := s.issued + stopAmbient + startSong + [TweenAmbientLight, TweenPointLightColor])
  }

  /** One call of animate(): movement and the zone loop only once the model
      has loaded, the invisible-box trigger on every frame. */
  function Frame(s: State, zoneHits: seq<bool>, triggerHit: bool): (r: State)
    requires |zoneHits| == |s.audio.zonePlaying|
    ensures Valid(s) ==> Valid(r)
    ensures s.issued <= r.issued
  {
    var moved := if s.loaded then CheckZones(Tick(s), zoneHits, |zoneHits|) else s;
    GlobalTrigger(moved, triggerHit)
  }

  /** An event the scene can receive: frames test every plane, and only an
      existing plane's cue can end. */
  predicate Admissible(e: Event) {
    match e
    case FrameEvent(hits, _) => |hits| == ZoneCount
    case CueEnded(i) => i < ZoneCount
    case _ => true
  }

  /** One event applied to the scene; the loader calls back once, so a second
      load event changes nothing. It keeps the state invariant and only
      ever appends to the call log. */
  function Step(s: State, e: Event): (r: State)
    requires Valid(s) && Admissible(e)
    ensures Valid(r)
    ensures s.issued <= r.issued
  {
    match e
    case KeyDownEvent(key) => KeyDown(s, key)
    case KeyUpEvent(key) => KeyUp(s, key)
    case FrameEvent(hits, hit) => Frame(s, hits, hit)
    case ModelLoaded => if s.loaded then s else Load(s)
    case CueEnded(i) => s.(audio := s.audio.(zonePlaying := s.audio.zonePlaying[i := false]))
  }

  /** A sequence of events applied in order; every state it reaches is valid. */
  function Run(s: State, events: seq<Event>): (r: State)
    requires Valid(s)
    requires forall e <- events :: Admissible(e)
    ensures Valid(r)
    ensures s.issued <= r.issued
    decreases |events|
  {
    if events == [] then s
    else Run(Step(s, events[0]), events[1..])
  }
}
