/** What the scene's handlers promise: the reset and no-op rules of the key
    handlers, the ease-in law of the forward speed, the play-once rule of the
    zone cues, and the reveal as a one-way latch that switches the music once. */
module SceneProperties {
  import opened SceneModel

  /** The state the reveal leaves behind: ambient loop stopped, reveal song
      playing, bloom on, luminosity pass off, second point light gone. */
  predicate Revealed(s: State) {
    && !s.audio.ambientPlaying
    && s.audio.newSongPlaying
    && s.visuals == Visuals(true, false, false)
  }

  /** A sequence of render-loop frames only. */
  predicate AllFrames(events: seq<Event>) {
    forall e <- events :: e.FrameEvent? && Admissible(e)
  }

  // ----- Loading ------------------------------------------------------------

  /** The character's load callback: the model is present, the idle clip is
      started and made current, and nothing else changes. */
  lemma LoadStartsIdle(s: State)
    ensures var r := Load(s);
      && r.loaded
      && r.loco.action == Some(Idle)
      && r.issued == s.issued + [StartClip(Idle)]
      && r.loco.(action := s.loco.action) == s.loco
      && r.audio == s.audio && r.visuals == s.visuals
  {
  }

  // ----- Key handlers -------------------------------------------------------

  /** ArrowUp down: walking, forward speed raised to the threshold but a higher
      speed kept, the walk clip current, and the footsteps loop started unless
      it already plays; nothing else changes. */
  lemma ForwardKeyStartsWalking(s: State)
    requires s.loco.action.Some? == s.loaded
    ensures var r := KeyDown(s, ArrowUp);
      && r.loco.walk
      && r.loco.speedZ == Max(s.loco.speedZ, MinWalkSpeed)
      && r.loco.speedZ >= s.loco.speedZ
      && r.loco.speedX == s.loco.speedX
      && r.loco.headingDegrees == s.loco.headingDegrees
      && r.loco.action == ClipHandle(s.loaded, Walk)
      && r.audio == s.audio.(footstepsPlaying := true)
      && Plays(r.issued, Footsteps) == Plays(s.issued, Footsteps) + (if s.audio.footstepsPlaying then 0 else 1)
      && r.visuals == s.visuals && r.loaded == s.loaded
  {
  }

  /** ArrowLeft / ArrowRight down: turn rate +0.5 / -0.5, walking, the walk
      clip current; forward speed and every sound untouched. */
  lemma TurnKeySetsTurnRate(s: State, key: string)
    requires s.loco.action.Some? == s.loaded
    requires key == ArrowLeft || key == ArrowRight
    ensures var r := KeyDown(s, key);
      && r.loco.speedX == (if key == ArrowLeft then TurnRate else -TurnRate)
      && r.loco.walk
      && r.loco.action == ClipHandle(s.loaded, Walk)
      && r.loco.speedZ == s.loco.speedZ
      && r.loco.headingDegrees == s.loco.headingDegrees
      && r.audio == s.audio && r.visuals == s.visuals && r.loaded == s.loaded
      && Plays(r.issued, Footsteps) == Plays(s.issued, Footsteps)
  {
  }

  /** Releasing any arrow: both speeds zero, not walking, the idle clip
      current, footsteps stopped (stop() is issued even when silent). */
  lemma ReleaseStopsActor(s: State, key: string)
    requires s.loco.action.Some? == s.loaded
    requires IsArrowKey(key)
    ensures var r := KeyUp(s, key);
      && r.loco == Locomotion(false, 0.0, 0.0, s.loco.headingDegrees, ClipHandle(s.loaded, Idle))
      && r.audio == s.audio.(footstepsPlaying := false)
      && r.issued[|r.issued| - 1] == Stop(Footsteps)
      && Plays(r.issued, Footsteps) == Plays(s.issued, Footsteps)
      && r.visuals == s.visuals && r.loaded == s.loaded
  {
  }

  /** Any other key changes nothing, down or up. */
  lemma OtherKeysIgnored(s: State, key: string)
    requires s.loco.action.Some? == s.loaded
    requires !IsArrowKey(key)
    ensures KeyDown(s, key) == s && KeyUp(s, key) == s
  {
  }

  /** A press followed by its release leaves no residual motion. */
  lemma PressReleaseLeavesNoMotion(s: State, key: string)
    requires Valid(s)
    requires IsArrowKey(key)
    ensures var r := KeyUp(KeyDown(s, key), key);
      && !r.loco.walk && r.loco.speedZ == 0.0 && r.loco.speedX == 0.0
      && r.loco.action == ClipHandle(s.loaded, Idle)
      && !r.audio.footstepsPlaying
  {
  }

  /** The browser repeats keydown while a key is held: a repeated keydown
      changes nothing and issues nothing, so footsteps start at most once. */
  lemma KeyRepeatIsHarmless(s: State, key: string)
    requires Valid(s)
    ensures KeyDown(KeyDown(s, key), key) == KeyDown(s, key)
  {
  }

  /** switchToAction: afterwards `target` is current; one cross-fade is issued
      exactly when it was not current already; switching again does nothing. */
  lemma SwitchMakesTargetCurrent(s: State, target: Option<Clip>)
    requires s.loco.action.Some? == target.Some?
    ensures var r := SwitchTo(s, target);
      && r.loco.action == target
      && r.loco.(action := s.loco.action) == s.loco
      && r.audio == s.audio && r.visuals == s.visuals && r.loaded == s.loaded
      && (s.loco.action == target ==> r == s)
      && (s.loco.action != target ==> r.issued == s.issued + [CrossFade(s.loco.action.value, target.value)])
      && SwitchTo(r, target) == r
  {
  }

  // ----- Movement -----------------------------------------------------------

  /** One frame's movement: while walking the forward speed grows by 5% up to
      the cap, otherwise it is kept; the heading turns by the turn rate. */
  lemma TickEasesIn(s: State)
    ensures var r := Tick(s);
      && r.loco.speedZ == (if s.loco.walk then Min(MaxWalkSpeed, s.loco.speedZ * SpeedGrowth) else s.loco.speedZ)
      && r.loco.speedZ == (if s.loco.walk then Grow(s.loco.speedZ) else s.loco.speedZ)
      && r.loco.headingDegrees == s.loco.headingDegrees + s.loco.speedX
      && r.loco.walk == s.loco.walk && r.loco.speedX == s.loco.speedX && r.loco.action == s.loco.action
      && r.audio == s.audio && r.visuals == s.visuals && r.issued == s.issued
      && r.loaded == s.loaded
  {
  }

  /** A frame moves the actor exactly as Tick does once the model has loaded,
      and not at all before. */
  lemma FrameMovesByTick(s: State, hits: seq<bool>, hit: bool)
    requires |hits| == |s.audio.zonePlaying|
    ensures Frame(s, hits, hit).loaded == s.loaded
    ensures Frame(s, hits, hit).loco == (if s.loaded then Tick(s).loco else s.loco)
  {
  }

  /** Growth never shrinks a non-negative speed. */
  lemma {:induction false} GeometricAtLeast(c: real, n: nat)
    requires c >= 0.0
    ensures Geometric(c, n) >= c
    decreases n
  {
    if n > 0 {
      GeometricAtLeast(c * SpeedGrowth, n - 1);
    }
  }

  /** Geometric(z, n) is z * 1.05^n. */
  lemma {:induction false} GeometricIsPower(z: real, n: nat)
    ensures Geometric(z, n) == z * Pow(SpeedGrowth, n)
    decreases n
  {
    if n > 0 {
      var p := Pow(SpeedGrowth, n - 1);
      GeometricIsPower(z * SpeedGrowth, n - 1);
      assert (z * SpeedGrowth) * p == z * (SpeedGrowth * p);
    }
  }

  /** The closed form of the ease-in: n frames of capped growth from z give
      min(1, z * 1.05^n). */
  lemma {:induction false} EasedClosedForm(z: real, n: nat)
    requires z <= MaxWalkSpeed
    ensures Eased(z, n) == Min(MaxWalkSpeed, Geometric(z, n))
    decreases n
  {
    if n > 0 {
      var m, a, g := n - 1, z * SpeedGrowth, Grow(z);
      assert Geometric(z, n) == Geometric(a, m);
      EasedClosedForm(g, m);
      if a > MaxWalkSpeed {
        GeometricAtLeast(g, m);
        GeometricAtLeast(a, m);
      }
    }
  }

  /** The ease-in law in powers: capping N frames of uncapped growth is
      min(1, z * 1.05^N). */
  lemma EaseInPower(z: real, n: nat)
    ensures Min(MaxWalkSpeed, Geometric(z, n)) == Min(MaxWalkSpeed, z * Pow(SpeedGrowth, n))
  {
    GeometricIsPower(z, n);
  }

  /** The closed form of turning: n frames at rate x turn the heading by n * x. */
  lemma {:induction false} TurnedClosedForm(h: real, x: real, n: nat)
    ensures Turned(h, x, n) == h + (n as real) * x
    decreases n
  {
    if n > 0 {
      TurnedClosedForm(h + x, x, n - 1);
      assert ((n - 1) as real) * x + x == (n as real) * x;
    }
  }

  /** Turning at each of the three rates a valid state allows. */
  lemma {:induction false} TurnedAtRates(h: real, n: nat)
    ensures Turned(h, TurnRate, n) == h + (n as real) * TurnRate
    ensures Turned(h, -TurnRate, n) == h - (n as real) * TurnRate
    ensures Turned(h, 0.0, n) == h
    decreases n
  {
    if n > 0 {
      TurnedAtRates(h + TurnRate, n - 1);
      TurnedAtRates(h - TurnRate, n - 1);
      TurnedAtRates(h, n - 1);
    }
  }

  /** A run starts with its first event; a frame event steps the scene by Frame. */
  lemma RunUnfolds(s: State, events: seq<Event>)
    requires Valid(s) && events != []
    requires forall e <- events :: Admissible(e)
    ensures Run(s, events) == Run(Step(s, events[0]), events[1..])
    ensures events[0].FrameEvent? ==> Step(s, events[0]) == Frame(s, events[0].zoneHits, events[0].triggerHit)
  {
  }

  /** Frames after the model has loaded move the actor as n ticks do: the
      forward speed eases in while walking and the heading turns. */
  lemma {:induction false} FramesMoveActor(s: State, frames: seq<Event>)
    requires Valid(s) && s.loaded
    requires AllFrames(frames)
    ensures var r := Run(s, frames);
      && r.loaded && r.loco.walk == s.loco.walk && r.loco.speedX == s.loco.speedX
      && r.loco.speedZ == (if s.loco.walk then Eased(s.loco.speedZ, |frames|) else s.loco.speedZ)
      && r.loco.headingDegrees == Turned(s.loco.headingDegrees, s.loco.speedX, |frames|)
    decreases |frames|
  {
    if frames != [] {
      var e, rest := frames[0], frames[1..];
      var t := Step(s, e);
      var n, m := |frames|, |rest|;
      RunUnfolds(s, frames);
      FrameMovesByTick(s, e.zoneHits, e.triggerHit);
      assert t.loco == Tick(s).loco;
      assert AllFrames(rest) by {
        forall x <- rest ensures x.FrameEvent? && Admissible(x) {
          assert x in frames;
        }
      }
      FramesMoveActor(t, rest);
      assert n == m + 1;
      assert Turned(s.loco.headingDegrees, s.loco.speedX, n) == Turned(t.loco.headingDegrees, s.loco.speedX, m);
      assert s.loco.walk ==> Eased(s.loco.speedZ, n) == Eased(t.loco.speedZ, m);
    }
  }

  /** The ease-in law: while walking, after N frames the forward speed is
      min(1, v * 1.05^N), whatever the frames' collisions. */
  lemma EaseInLaw(s: State, frames: seq<Event>)
    requires Valid(s) && s.loaded && s.loco.walk
    requires AllFrames(frames)
    ensures Run(s, frames).loco.speedZ == Min(MaxWalkSpeed, Geometric(s.loco.speedZ, |frames|))
  {
    var n := |frames|;
    FramesMoveActor(s, frames);
    EasedClosedForm(s.loco.speedZ, n);
  }

  /** The turning law: after N frames the heading has turned by N times the
      turn rate, 0.5 degrees per frame while ArrowLeft or ArrowRight is held,
      and not at all otherwise. */
  lemma TurningLaw(s: State, frames: seq<Event>)
    requires Valid(s) && s.loaded
    requires AllFrames(frames)
    ensures var h, n := s.loco.headingDegrees, |frames| as real;
      Run(s, frames).loco.headingDegrees
        == if s.loco.speedX == TurnRate then h + n * TurnRate
           else if s.loco.speedX == -TurnRate then h - n * TurnRate
           else h
  {
    var n, h := |frames|, s.loco.headingDegrees;
    FramesMoveActor(s, frames);
    TurnedAtRates(h, n);
  }

  /** From standing still, ArrowUp followed by N frames gives the forward
      speed min(1, 0.1 * 1.05^N). */
  lemma ForwardFromRest(s: State, frames: seq<Event>)
    requires Valid(s) && s.loaded && !s.loco.walk
    requires AllFrames(frames)
    ensures Run(s, [KeyDownEvent(ArrowUp)] + frames).loco.speedZ
            == Min(MaxWalkSpeed, Geometric(MinWalkSpeed, |frames|))
  {
    var events := [KeyDownEvent(ArrowUp)] + frames;
    assert events[1..] == frames;
    RunUnfolds(s, events);
    ForwardKeyStartsWalking(s);
    EaseInLaw(KeyDown(s, ArrowUp), frames);
  }

  /** Every reachable state keeps the bounds: forward speed in [0, 1], turn
      rate in {-0.5, 0, 0.5}, no speed while not walking. */
  lemma ReachableStatesValid(events: seq<Event>)
    requires forall e <- events :: Admissible(e)
    ensures Valid(Run(Init(), events))
    ensures 0.0 <= Run(Init(), events).loco.speedZ <= MaxWalkSpeed
  {
  }

  // ----- Zones --------------------------------------------------------------

  /** checkCollision: no intersection changes nothing; an intersection leaves
      the cue playing and issues play() only if it was silent; no cue is ever
      stopped; a second check straight after changes nothing. */
  lemma CollisionStartsCue(s: State, i: nat, intersects: bool)
    requires i < |s.audio.zonePlaying|
    ensures var r := CheckCollision(s, i, intersects);
      && (!intersects ==> r == s)
      && (intersects ==> r.audio.zonePlaying[i])
      && |r.audio.zonePlaying| == |s.audio.zonePlaying|
      && (forall j :: 0 <= j < |s.audio.zonePlaying| && s.audio.zonePlaying[j] ==> r.audio.zonePlaying[j])
      && Plays(r.issued, ZoneCue(i)) == Plays(s.issued, ZoneCue(i)) + (if intersects && !s.audio.zonePlaying[i] then 1 else 0)
      && CheckCollision(r, i, intersects) == r
  {
  }

  /** After the zone loop over the first n planes, cue i plays if it played or
      plane i (among them) was hit, and it was started once exactly then. */
  lemma {:induction false} ZoneLoopStartsCue(s: State, hits: seq<bool>, n: nat, i: nat)
    requires |hits| == |s.audio.zonePlaying| && n <= |hits| && i < |hits|
    ensures var r := CheckZones(s, hits, n);
      && r.audio.zonePlaying[i] == (s.audio.zonePlaying[i] || (i < n && hits[i]))
      && Plays(r.issued, ZoneCue(i)) == Plays(s.issued, ZoneCue(i)) + (if i < n && hits[i] && !s.audio.zonePlaying[i] then 1 else 0)
    decreases n
  {
    if n > 0 {
      var m := n - 1;
      var t := CheckZones(s, hits, m);
      ZoneLoopStartsCue(s, hits, m, i);
      CollisionStartsCue(t, m, hits[m]);
      var r := CheckCollision(t, m, hits[m]);
      if m != i {
        assert r.audio.zonePlaying[i] == t.audio.zonePlaying[i];
        assert Plays(r.issued, ZoneCue(i)) == Plays(t.issued, ZoneCue(i));
      }
    }
  }

  /** The zone loop issues nothing but starts of zone cues. */
  lemma {:induction false} ZoneLoopOnlyStartsCues(s: State, hits: seq<bool>, n: nat, x: Effect)
    requires |hits| == |s.audio.zonePlaying| && n <= |hits|
    requires !(x.Play? && x.sound.ZoneCue?)
    ensures multiset(CheckZones(s, hits, n).issued)[x] == multiset(s.issued)[x]
    decreases n
  {
    if n > 0 {
      ZoneLoopOnlyStartsCues(s, hits, n - 1, x);
    }
  }

  /** One frame: cue i plays afterwards if it played or the model has loaded
      and plane i was hit, and play() of it was issued exactly when it starts. */
  lemma FrameStartsZoneCue(s: State, hits: seq<bool>, hit: bool, i: nat)
    requires |hits| == |s.audio.zonePlaying| && i < |hits|
    ensures var r := Frame(s, hits, hit);
      && |r.audio.zonePlaying| == |s.audio.zonePlaying|
      && r.audio.zonePlaying[i] == (s.audio.zonePlaying[i] || (s.loaded && hits[i]))
      && Plays(r.issued, ZoneCue(i)) == Plays(s.issued, ZoneCue(i)) + (if s.loaded && hits[i] && !s.audio.zonePlaying[i] then 1 else 0)
  {
    if s.loaded {
      ZoneLoopStartsCue(Tick(s), hits, |hits|, i);
    }
  }

  /** Two frames in a row that both overlap plane i issue one play() of its
      cue if it was silent, none if it was playing. */
  lemma OverlapPlaysCueOnce(s: State, h1: seq<bool>, t1: bool, h2: seq<bool>, t2: bool, i: nat)
    requires |h1| == |s.audio.zonePlaying| && |h2| == |h1| && i < |h1|
    requires s.loaded && h1[i] && h2[i]
    ensures Plays(Frame(Frame(s, h1, t1), h2, t2).issued, ZoneCue(i))
            == Plays(s.issued, ZoneCue(i)) + (if s.audio.zonePlaying[i] then 0 else 1)
  {
    FrameStartsZoneCue(s, h1, t1, i);
    FrameStartsZoneCue(Frame(s, h1, t1), h2, t2, i);
  }

  // ----- The reveal ---------------------------------------------------------

  /** On intersection: ambient stopped (stop() issued only if it played),
      reveal song playing (play() issued only if silent), bloom on, luminosity
      off, second point light gone; locomotion, zones and footsteps untouched. */
  lemma RevealSwitchesScene(s: State)
    ensures var r := GlobalTrigger(s, true);
      && Revealed(r)
      && r.loco == s.loco && r.loaded == s.loaded
      && r.audio.zonePlaying == s.audio.zonePlaying
      && r.audio.footstepsPlaying == s.audio.footstepsPlaying
      && Stops(r.issued, Ambient) == Stops(s.issued, Ambient) + (if s.audio.ambientPlaying then 1 else 0)
      && Plays(r.issued, NewSong) == Plays(s.issued, NewSong) + (if s.audio.newSongPlaying then 0 else 1)
  {
  }

  /** Without an intersection the trigger changes nothing. */
  lemma NoRevealWithoutIntersection(s: State)
    ensures GlobalTrigger(s, false) == s
  {
  }

  /** Firing again changes no state and issues only the two tweens again. */
  lemma RevealIdempotent(s: State)
    ensures var r := GlobalTrigger(s, true);
      GlobalTrigger(r, true) == r.(issued := r.issued + [TweenAmbientLight, TweenPointLightColor])
  {
  }

  lemma StepKeepsRevealed(s: State, e: Event)
    requires Valid(s) && Admissible(e) && Revealed(s)
    ensures Revealed(Step(s, e))
  {
  }

  /** The reveal is a one-way latch: no later event undoes any part of it. */
  lemma {:induction false} RevealNeverReverts(s: State, events: seq<Event>)
    requires Valid(s) && Revealed(s)
    requires forall e <- events :: Admissible(e)
    ensures Revealed(Run(s, events))
    decreases |events|
  {
    if events != [] {
      StepKeepsRevealed(s, events[0]);
      RevealNeverReverts(Step(s, events[0]), events[1..]);
    }
  }

  /** Exactly one of the two music loops plays, and the call log agrees: the
      ambient loop was started once, stopped once if it is silent, and the
      reveal song was started once if it plays. */
  predicate MusicLedger(s: State) {
    && s.audio.ambientPlaying == !s.audio.newSongPlaying
    && Plays(s.issued, Ambient) == 1
    && Stops(s.issued, Ambient) == (if s.audio.ambientPlaying then 0 else 1)
    && Plays(s.issued, NewSong) == (if s.audio.newSongPlaying then 1 else 0)
  }

  lemma FrameKeepsMusicLedger(s: State, hits: seq<bool>, hit: bool)
    requires |hits| == |s.audio.zonePlaying| && MusicLedger(s)
    ensures MusicLedger(Frame(s, hits, hit))
  {
    if s.loaded {
      var t := Tick(s);
      ZoneLoopOnlyStartsCues(t, hits, |hits|, Play(Ambient));
      ZoneLoopOnlyStartsCues(t, hits, |hits|, Stop(Ambient));
      ZoneLoopOnlyStartsCues(t, hits, |hits|, Play(NewSong));
    }
  }

  /** Effects that neither start nor stop the music keep the ledger. */
  lemma AppendKeepsMusicLedger(s: State, r: State)
    requires MusicLedger(s) && s.issued <= r.issued
    requires r.audio.ambientPlaying == s.audio.ambientPlaying
    requires r.audio.newSongPlaying == s.audio.newSongPlaying
    requires var d := r.issued[|s.issued|..];
      Play(Ambient) !in d && Stop(Ambient) !in d && Play(NewSong) !in d
    ensures MusicLedger(r)
  {
    var d := r.issued[|s.issued|..];
    assert r.issued == s.issued + d;
  }

  lemma KeyDownKeepsMusicLedger(s: State, key: string)
    requires s.loco.action.Some? == s.loaded && MusicLedger(s)
    ensures MusicLedger(KeyDown(s, key))
  {
    var r := KeyDown(s, key);
    var d := r.issued[|s.issued|..];
    forall x | x in d
      ensures x.CrossFade? || x == Play(Footsteps)
    {
      var k :| 0 <= k < |d| && d[k] == x;
      assert r.issued[|s.issued| + k] == x;
    }
    AppendKeepsMusicLedger(s, r);
  }

  lemma KeyUpKeepsMusicLedger(s: State, key: string)
    requires s.loco.action.Some? == s.loaded && MusicLedger(s)
    ensures MusicLedger(KeyUp(s, key))
  {
    var r := KeyUp(s, key);
    var d := r.issued[|s.issued|..];
    forall x | x in d
      ensures x.CrossFade? || x == Stop(Footsteps)
    {
      var k :| 0 <= k < |d| && d[k] == x;
      assert r.issued[|s.issued| + k] == x;
    }
    AppendKeepsMusicLedger(s, r);
  }

  lemma StepKeepsMusicLedger(s: State, e: Event)
    requires Valid(s) && Admissible(e) && MusicLedger(s)
    ensures MusicLedger(Step(s, e))
  {
    match e
    case FrameEvent(hits, hit) => FrameKeepsMusicLedger(s, hits, hit);
    case KeyDownEvent(key) => KeyDownKeepsMusicLedger(s, key);
    case KeyUpEvent(key) => KeyUpKeepsMusicLedger(s, key);
    case _ =>
  }

  lemma {:induction false} RunKeepsMusicLedger(s: State, events: seq<Event>)
    requires Valid(s) && MusicLedger(s)
    requires forall e <- events :: Admissible(e)
    ensures MusicLedger(Run(s, events))
    decreases |events|
  {
    if events != [] {
      StepKeepsMusicLedger(s, events[0]);
      RunKeepsMusicLedger(Step(s, events[0]), events[1..]);
    }
  }

  /** Over any run from start-up the music changes at most once: the ambient
      loop is started once and never restarted, it is stopped at most once,
      the reveal song is started at most once, and exactly one of them plays. */
  lemma MusicSwitchesAtMostOnce(events: seq<Event>)
    requires forall e <- events :: Admissible(e)
    ensures var r := Run(Init(), events);
      && Plays(r.issued, Ambient) == 1
      && Stops(r.issued, Ambient) <= 1
      && Plays(r.issued, NewSong) <= 1
      && r.audio.ambientPlaying != r.audio.newSongPlaying
  {
    RunKeepsMusicLedger(Init(), events);
  }
}
