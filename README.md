# Storytelling scene: locomotion and triggers

A model of the stateful core of the storytelling scene in `main.js`: the
character's input-driven locomotion (the `keydown` and `keyup` listeners,
`switchToAction` and the per-frame ease-in of the forward speed in `animate`),
the zone cue of each invisible plane (`InvisiblePlane.checkCollision`) and the
one-way "reveal" fired by the invisible box at the end of `animate`.

Three modules:

- `SceneModel` (`scene_model.dfy`) is the scene as a value. `State` groups the
  module-level variables (`_walk`, `_walkSpeedX`, `_walkSpeedZ`,
  `_currentAction`, the heading `_3dmodel.rotation.y`), whether each Howler
  sound is playing, the `enabled` flags of the bloom and luminosity passes,
  whether `_pointLight2` is in the scene, and a log of every call issued to a
  collaborator (Howler `play`/`stop`, clip start and cross-fade on the
  animation mixer, the two gsap tweens). Each handler is a function from the
  state before to the state after; `Step` and `Run` apply events (key events,
  frames, the character's load, the end of a one-shot cue) in order.
  `_currentAction`, `_idleAction` and `_walkAction` are undefined until the
  character's GLTF has loaded; they are `Option<Clip>` here, so before the load
  `switchToAction` compares two undefined values and does nothing, as in
  JavaScript.
- `SceneProperties` (`scene_properties.dfy`) states and proves what the
  handlers promise: the reset and no-op rules of the keys, the bounds
  invariant, the ease-in law `min(1, v * 1.05^N)`, the turning law, the
  play-once rule of the zone cues, and the reveal as a latch that switches the
  music at most once.
- `Storytelling` (`world.dfy`) is the imperative form: class `World` holds one
  field per module-level variable and flag, and each handler is a method that
  updates them in place and is proved to agree with the matching
  `SceneModel` function, so every property above holds of it. `Animate` runs
  the `planes.forEach` loop with a loop invariant.

Inputs the scene gets from code outside this model are parameters: the
outcome of each `Box3.intersectsBox` test is a boolean per plane and one for
the invisible box, and the end of a non-looping cue is the event `CueEnded`.

## Model

| member | source | states |
|---|---|---|
| SceneModel.Load | main.js:107-119 | the load callback keeps the scene invariant and only appends to the call log |
| SceneProperties.LoadStartsIdle | main.js:118-119 | the load callback marks the model present, issues the idle clip's start, makes it current, and changes nothing else |
| SceneModel.KeyDown | main.js:349-366 | the keydown listener keeps the bounds invariant and only appends to the call log |
| SceneModel.KeyUp | main.js:368-376 | the keyup listener keeps the bounds invariant and only appends to the call log |
| SceneModel.CheckZones | main.js:283-286 | the plane loop changes nothing but the zone cues and the call log, and only appends to the log |
| SceneModel.Frame | main.js:255-341 | one frame keeps the bounds invariant and only appends to the call log |
| SceneModel.Step | main.js:343-347 | every event keeps the scene invariant (speed in [0, 1], turn rate in {-0.5, 0, 0.5}, a current clip exactly after the load) |
| SceneModel.Run | main.js:343-347 | every state reached by a sequence of events is valid and its log extends the first one |
| SceneProperties.ForwardKeyStartsWalking | main.js:350-356 | ArrowUp down: walking, speed max(old, 0.1) so a higher speed is kept, walk clip current, footsteps play() issued only if silent, nothing else changes |
| SceneProperties.TurnKeySetsTurnRate | main.js:357-364 | ArrowLeft/ArrowRight down: turn rate +0.5/-0.5, walking, walk clip current; forward speed, heading and every sound untouched, no footsteps play() issued |
| SceneProperties.ReleaseStopsActor | main.js:368-376 | releasing any arrow: both speeds 0, not walking, idle clip current, footsteps silent with stop() as the last call, no new play() |
| SceneProperties.OtherKeysIgnored | main.js:349-376 | any other key changes nothing, down or up |
| SceneProperties.PressReleaseLeavesNoMotion | main.js:349-376 | a press of an arrow followed by its release leaves no speed, no walking, the idle clip and silent footsteps |
| SceneProperties.KeyRepeatIsHarmless | main.js:349-366 | a repeated keydown of the same key changes nothing and issues nothing |
| SceneProperties.SwitchMakesTargetCurrent | main.js:378-384 | switchToAction makes the target current, issues one cross-fade exactly when it was not current, changes nothing else, and is idempotent |
| SceneProperties.TickEasesIn | main.js:266-274 | one frame: while walking the speed becomes min(1, 1.05 * speed), otherwise it is kept; the turn rate is added to the heading; nothing else changes |
| SceneProperties.FrameMovesByTick | main.js:265-274 | a frame moves the actor by one tick once the model has loaded and not at all before |
| SceneProperties.GeometricAtLeast | main.js:267-270 | uncapped growth never lowers a non-negative speed |
| SceneProperties.GeometricIsPower | main.js:267-270 | N frames of uncapped growth multiply the speed by 1.05^N |
| SceneProperties.EasedClosedForm | main.js:267-270 | N capped growth steps from a speed at most 1 give min(1, speed * 1.05^N) |
| SceneProperties.TurnedClosedForm | main.js:272-274 | N frames at turn rate x add N * x to the heading |
| SceneProperties.TurnedAtRates | main.js:272-274 | the same at each of the three turn rates, +0.5, -0.5 and 0 |
| SceneProperties.FramesMoveActor | main.js:265-274 | N frames after the load leave walking and turn rate alone, ease the speed in N times while walking and turn the heading N times |
| SceneProperties.EaseInPower | main.js:267-270 | capping N frames of uncapped growth from z is min(1, z * 1.05^N), written with powers |
| SceneProperties.EaseInLaw | main.js:267-270 | while walking, after N frames the speed is min(1, v * 1.05^N), whatever the collisions |
| SceneProperties.TurningLaw | main.js:272-274 | after N frames the heading has turned by N * 0.5 degrees one way or the other, or not at all |
| SceneProperties.ForwardFromRest | main.js:352 | from rest, ArrowUp then N frames give the speed min(1, 0.1 * 1.05^N) |
| SceneProperties.ReachableStatesValid | main.js:252-253 | every state reachable from start-up keeps 0 <= forward speed <= 1 and the other bounds |
| SceneProperties.CollisionStartsCue | main.js:224-231 | no intersection changes nothing; an intersection leaves the cue playing and issues play() only if it was silent; no cue is stopped; a second check straight after changes nothing |
| SceneProperties.ZoneLoopStartsCue | main.js:283-286 | after the loop over the first n planes, cue i plays iff it played or plane i was hit, and one play() was issued exactly when it started |
| SceneProperties.ZoneLoopOnlyStartsCues | main.js:283-286 | the plane loop issues no call other than play() of zone cues |
| SceneProperties.FrameStartsZoneCue | main.js:265-286 | after a frame cue i plays iff it played or the model has loaded and plane i was hit; play() issued exactly when it starts |
| SceneProperties.OverlapPlaysCueOnce | main.js:224-231 | two frames overlapping plane i issue one play() of its cue if it was silent and none if it was playing |
| SceneProperties.RevealSwitchesScene | main.js:316-337 | on intersection: ambient stopped (stop() only if it played), reveal song playing (play() only if silent), bloom on, luminosity off, second point light gone; locomotion, zones and footsteps untouched |
| SceneProperties.NoRevealWithoutIntersection | main.js:316 | without an intersection the trigger changes nothing |
| SceneProperties.RevealIdempotent | main.js:316-337 | firing again changes no state and issues only the two tweens again |
| SceneProperties.StepKeepsRevealed | main.js:316-337 | no single event undoes the reveal |
| SceneProperties.RevealNeverReverts | main.js:316-337 | once revealed, no sequence of events undoes any part of the reveal |
| SceneProperties.FrameKeepsMusicLedger | main.js:255-341 | a frame keeps the music ledger: one loop playing, the log agreeing with it |
| SceneProperties.KeyDownKeepsMusicLedger | main.js:349-366 | keydown issues no music call and keeps the ledger |
| SceneProperties.KeyUpKeepsMusicLedger | main.js:368-376 | keyup issues no music call and keeps the ledger |
| SceneProperties.StepKeepsMusicLedger | main.js:316-325 | every event keeps the ledger |
| SceneProperties.RunKeepsMusicLedger | main.js:316-325 | every sequence of events keeps the ledger |
| SceneProperties.MusicSwitchesAtMostOnce | main.js:170-189 | from start-up the ambient loop is started once and never again, stopped at most once, the reveal song started at most once, and exactly one of the two plays |
| Storytelling.World.constructor | main.js:43-65 | the top level: bloom off, luminosity pass on, second point light in the scene, ambient loop started, character not loaded |
| Storytelling.World.OnModelLoaded | main.js:107-119 | the load callback, as SceneModel.Load; the scene invariant is kept |
| Storytelling.World.SwitchToAction | main.js:378-384 | switchToAction in place, as SceneModel.SwitchTo |
| Storytelling.World.KeyDown | main.js:349-366 | the keydown listener in place, as SceneModel.KeyDown; the scene invariant is kept |
| Storytelling.World.KeyUp | main.js:368-376 | the keyup listener in place, as SceneModel.KeyUp; the scene invariant is kept |
| Storytelling.World.Tick | main.js:266-274 | the speed and heading update in place, as SceneModel.Tick |
| Storytelling.World.CheckCollision | main.js:224-231 | checkCollision of one plane in place, as SceneModel.CheckCollision |
| Storytelling.World.GlobalTrigger | main.js:316-337 | the invisible-box branch in place, as SceneModel.GlobalTrigger |
| Storytelling.World.Animate | main.js:255-341 | one frame in place: the tick, the plane loop (its invariant is the loop over the first i planes) and the trigger, as SceneModel.Frame; the scene invariant is kept |

## Left out

- Scene, renderer, composer, fog, lights and materials (main.js:14-80): declarative three.js setup; only the initial pass flags and the second point light are kept.
- The GLTF loading itself and `modules/3dmodels.js`: the loader's callback is the `ModelLoaded` event; positions, scales, shadows and the second character are not modelled.
- Position update and camera follow (main.js:276-309): they need `Math.sin`, `Math.cos`, `dtr` and gsap; the heading is kept in degrees, so `rotation.y` is `dtr` of it.
- The gsap tweens of the reveal: recorded as issued calls, their effect on the lights is not modelled.
- Howler internals: each sound is a `playing` flag that `play()` sets at once and `stop()` clears; loading delays, the browser's autoplay policy and volumes are not modelled. A one-shot zone cue ending is the `CueEnded` event.
- `Box3.setFromObject` and `intersectsBox`: each test's outcome is a boolean input to a frame.
- The unguarded `setFromObject(_3dmodel)` before the invisible-box test (main.js:312): before the character has loaded it would throw, so the test never runs then; the model lets the trigger run on every frame.
- Animation mixer rates (main.js:258-259), the second character's mixer and the resize handler (main.js:391-397): rendering plumbing.
- `console.log` calls.
- SceneModel.Tick: speeds are exact reals, so JavaScript double rounding of the 1.05 growth is not modelled.
- SceneModel.Step: the loader calls back once, so a second `ModelLoaded` event is taken to change nothing.
