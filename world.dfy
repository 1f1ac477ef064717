/** The module-level state of main.js as an object whose handlers update it in
    place. Each handler is proved to make the same change as the matching
    function of SceneModel, so every property proved there holds of it. */
module Storytelling {
  import opened SceneModel

  class World {
    var modelLoaded: bool           // `_3dmodel` is defined
    var walk: bool                  // `_walk`
    var walkSpeedX: real            // `_walkSpeedX`
    var walkSpeedZ: real            // `_walkSpeedZ`
    var headingDegrees: real        // `_3dmodel.rotation.y`, in degrees
    var currentAction: Option<Clip> // `_currentAction`
    var ambientPlaying: bool        // `sound.playing()`
    var newSongPlaying: bool        // `newSong.playing()`
    var footstepsPlaying: bool      // `footsound.playing()`
    var zonePlaying: seq<bool>      // `planes[i].sound.playing()`
    var bloomEnabled: bool          // `bloomPass.enabled`
    var luminosityEnabled: bool     // `luminosityPass.enabled`
    var pointLight2InScene: bool    // `_pointLight2` is in `_scene`
    var issued: seq<Effect>         // collaborator calls so far

    /** The fields read as a value of the scene model. */
    ghost function Model(): State
      reads this
    {
      State(modelLoaded,
            Locomotion(walk, walkSpeedX, walkSpeedZ, headingDegrees, currentAction),
            Audio(ambientPlaying, newSongPlaying, footstepsPlaying, zonePlaying),
            Visuals(bloomEnabled, luminosityEnabled, pointLight2InScene),
            issued)
    }

    ghost predicate Valid()
      reads this
    {
      SceneModel.Valid(Model())
    }

    /** The top level of main.js: passes, lights and sounds are created, the
        ambient loop is started, and the character is still loading. */
    constructor()
      ensures Model() == Init()
      ensures Valid()
    {
      modelLoaded, walk := false, false;
      walkSpeedX, walkSpeedZ, headingDegrees := 0.0, 0.0, 0.0;
      currentAction := None;
      bloomEnabled, luminosityEnabled, pointLight2InScene := false, true, true;
      ambientPlaying, newSongPlaying, footstepsPlaying := false, false, false;
      zonePlaying := [false, false, false, false, false];
      issued := [];
      ambientPlaying := true;
      issued := issued + [Play(Ambient)];
    }

    /** The character's load callback: the idle clip is started and made current. */
    method OnModelLoaded()
      requires !modelLoaded
      requires Valid()
      modifies this
      ensures Valid()
      ensures Model() == Load(old(Model()))
    {
      modelLoaded := true;
      issued := issued + [StartClip(Idle)];
      currentAction := Some(Idle);
    }

    /** switchToAction: fade out the current clip and fade in the new one,
        unless the new one is already current. */
    method SwitchToAction(target: Option<Clip>)
      requires currentAction.Some? == target.Some?
      modifies this
      ensures Model() == SwitchTo(old(Model()), target)
    {
      if currentAction != target {
        issued := issued + [CrossFade(currentAction.value, target.value)];
        currentAction := target;
      }
    }

    /** The keydown listener. */
    method KeyDown(key: string)
      requires currentAction.Some? == modelLoaded
      requires Valid()
      modifies this
      ensures Valid()
      ensures Model() == SceneModel.KeyDown(old(Model()), key)
    {
      if key == ArrowUp {
        walk := true;
        walkSpeedZ := Max(walkSpeedZ, MinWalkSpeed);
        SwitchToAction(ClipHandle(modelLoaded, Walk));
        if !footstepsPlaying {
          footstepsPlaying := true;
          issued := issued + [Play(Footsteps)];
        }
      } else if key == ArrowLeft {
        walkSpeedX := TurnRate;
        walk := true;
        SwitchToAction(ClipHandle(modelLoaded, Walk));
      } else if key == ArrowRight {
        walkSpeedX := -TurnRate;
        walk := true;
        SwitchToAction(ClipHandle(modelLoaded, Walk));
      }
    }

    /** The keyup listener. */
    method KeyUp(key: string)
      requires currentAction.Some? == modelLoaded
      requires Valid()
      modifies this
      ensures Valid()
      ensures Model() == SceneModel.KeyUp(old(Model()), key)
    {
      if key == ArrowUp || key == ArrowLeft || key == ArrowRight {
        walkSpeedZ, walkSpeedX, walk := 0.0, 0.0, false;
        ghost var stopped := Model();
        SwitchToAction(ClipHandle(modelLoaded, Idle));
        assert Model() == SwitchTo(stopped, ClipHandle(stopped.loaded, Idle));
        footstepsPlaying := false;
        issued := issued + [Stop(Footsteps)];
      }
    }

    /** The movement update at the start of a frame: while walking the forward
        speed grows by 5% and is capped at 1; a non-zero turn rate is added
        to the heading. */
    method Tick()
      modifies this
      ensures Model() == SceneModel.Tick(old(Model()))
    {
      if walk {
        walkSpeedZ := walkSpeedZ * SpeedGrowth;
        if walkSpeedZ > MaxWalkSpeed {
          walkSpeedZ := MaxWalkSpeed;
        }
      }
      if walkSpeedX != 0.0 {
        headingDegrees := headingDegrees + walkSpeedX;
      }
    }

    /** InvisiblePlane.checkCollision of plane `i`. */
    method CheckCollision(i: nat, intersects: bool)
      requires i < |zonePlaying|
      modifies this
      ensures Model() == SceneModel.CheckCollision(old(Model()), i, intersects)
    {
      if intersects {
        if !zonePlaying[i] {
          zonePlaying := zonePlaying[i := true];
          issued := issued + [Play(ZoneCue(i))];
        }
      }
    }

    /** The invisible-box branch at the end of animate(). */
    method GlobalTrigger(intersects: bool)
      modifies this
      ensures Model() == SceneModel.GlobalTrigger(old(Model()), intersects)
    {
      if intersects {
        var calls := if ambientPlaying then [Stop(Ambient)] else [];
        if !newSongPlaying {
          calls := calls + [Play(NewSong)];
        }
        issued := issued + calls + [TweenAmbientLight, TweenPointLightColor];
        ambientPlaying, newSongPlaying := false, true;
        bloomEnabled, luminosityEnabled, pointLight2InScene := true, false, false;
      }
    }

    /** One call of animate(): once the model has loaded, the forward speed
        eases in, the heading turns and every plane is tested in order; the
        invisible box is tested on every frame. */
    method Animate(zoneHits: seq<bool>, triggerHit: bool)
      requires |zoneHits| == |zonePlaying|
      requires Valid()
      modifies this
      ensures Valid()
      ensures Model() == Frame(old(Model()), zoneHits, triggerHit)
    {
      if modelLoaded {
        Tick();
        ghost var ticked := Model();
        for i := 0 to |zoneHits|
          invariant |zonePlaying| == |zoneHits|
          invariant Model() == CheckZones(ticked, zoneHits, i)
        {
          CheckCollision(i, zoneHits[i]);
        }
      }
      GlobalTrigger(triggerHit);
    }
  }
}
