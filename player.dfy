/**
  * The player component as the engine holds it: an object whose methods update
  * its fields in place. Every method is proved to move the object's state
  * exactly as the matching function of PlayerSpec moves a state value, so the
  * lemmas proved there hold of the object too.
  */
module PlayerObject {
  import opened Wrappers
  import opened Geometry
  import P = PlayerSpec

  /** The hit cooldown and the fever timer with its recorded maximum. */
  datatype Timers = Timers(hitColdDownTime: real, feverTimer: real, maxFeverTime: real)

  /** The tracked scale, the fever snapshot, the re-trigger counter and the deferred target. */
  datatype Scaling = Scaling(nowScale: real, tempScale: real, addScaleCounter: int, delayFatScale: real)

  /** Movement parameters, facing, the movement flag and the life-cycle state. */
  datatype Motion = Motion(speed: real, maxTurnSpeed: real, prevFaceR: bool, isMoving: bool, state: P.EPlayerState)

  /**
    * The player object. Its fields are the source's fields, gathered into a
    * few records by concern (timers, scaling, motion) so that each method
    * writes few heap locations.
    */
  class Player {
    /** Starting health, set in the editor. */
    const hp: int
    /** Camera corners, cached at start-up. */
    const RT: Vec3
    const LB: Vec3

    var nowHp: int
    var timers: Timers
    var scaling: Scaling
    var motion: Motion
    /** The body's collider, owned by this player. */
    var bodyCol: P.BodyCollider
    /** What the player has written into its transforms, body sprite and hand. */
    var view: P.View
    /** The deferred scale-up coroutine and the time it still waits, if it runs. */
    var delayFat: Option<real>
    /** What has been asked of the animator, HUD, audio and game manager. */
    ghost var fx: P.Effects

    ghost function State(): P.PlayerState
      reads this
    {
      P.PlayerState(
        hp, nowHp, timers.hitColdDownTime, timers.feverTimer, timers.maxFeverTime,
        scaling.tempScale, scaling.addScaleCounter, scaling.delayFatScale, scaling.nowScale,
        motion.speed, motion.maxTurnSpeed, motion.prevFaceR, motion.isMoving, motion.state,
        bodyCol, view, RT, LB, delayFat, fx)
    }

    ghost predicate Valid()
      reads this
    {
      P.Inv(State())
    }

    /** Awake: the fields start at their zero values, then Reset, then the HUD gets the health. */
    constructor (hp0: int, body: P.BodyCollider, rt0: Vec3, lb0: Vec3)
      ensures State() == P.Awake(hp0, body, rt0, lb0)
      ensures Valid() && nowHp == hp0 && motion.state == P.STOP
    {
      hp, RT, LB := hp0, rt0, lb0;
      nowHp := 0;
      timers := Timers(0.0, 0.0, 0.0);
      scaling := Scaling(0.0, 0.0, 0, 0.0);
      motion := Motion(0.0, 0.0, false, false, P.STOP);
      bodyCol := body;
      view := P.View(Origin, 0.0, P.INITIAL_SCALE, false, true);
      delayFat := None;
      fx := P.Effects(false, false, false, 0, false, 0.0, 0, 0, 0, 0);
      new;
      Reset();
      fx := fx.(uiHp := nowHp);
    }

    method GetHp() returns (r: int)
      ensures r == nowHp
    {
      r := nowHp;
    }

    method Reset()
      modifies this
      ensures State() == P.Reset(old(State()))
      ensures old(Valid()) ==> Valid()
    {
      motion := motion.(state := P.STOP);
      nowHp := hp;
      scaling := scaling.(nowScale := P.INITIAL_SCALE);
      motion := motion.(isMoving := false, prevFaceR := true);
      timers := Timers(0.0, 0.0, 0.0);
      motion := motion.(speed := P.SPEED, maxTurnSpeed := P.TURN_SPEED);
      view := view.(pos := Origin, rootScale := scaling.nowScale);
    }

    method UpdateFaceTo(dx: real)
      modifies this
      ensures State() == P.UpdateFaceTo(old(State()), dx)
      ensures P.Abs(dx) < P.DONT_CHANGE_DIRECTION_OFFSET * old(scaling.nowScale) ==> State() == old(State())
      ensures P.Abs(dx) >= P.DONT_CHANGE_DIRECTION_OFFSET * old(scaling.nowScale) ==>
                && motion.prevFaceR == (dx > 0.0)
                && bodyCol.offsetX == (if motion.prevFaceR != old(motion.prevFaceR)
                                       then -old(bodyCol.offsetX) else old(bodyCol.offsetX))
      ensures bodyCol.offsetY == old(bodyCol.offsetY)
    {
      if P.Abs(dx) < P.DONT_CHANGE_DIRECTION_OFFSET * scaling.nowScale {
        return;
      }
      var faceToR := dx > 0.0;
      if motion.prevFaceR != faceToR {
        view := view.(flipX := !faceToR, handAtR := faceToR);
        bodyCol := bodyCol.(offsetX := -bodyCol.offsetX);
      }
      motion := motion.(prevFaceR := dx > 0.0);
    }

    method SetIsMoving(moving: bool)
      modifies this
      ensures State() == P.SetIsMoving(old(State()), moving)
    {
      motion := motion.(isMoving := moving);
      fx := fx.(animMoving := moving);
    }

    /** The press/release gesture; `allowed` is the platform's input gate. */
    method CheckControl(pressed: bool, released: bool, allowed: bool)
      modifies this
      ensures State() == P.CheckControl(old(State()), pressed, released, allowed)
      ensures old(motion.state) == P.STOP ==> State() == old(State())
    {
      if motion.state == P.STOP {
        return;
      }
      if pressed && allowed {
        SetIsMoving(true);
      } else if released && allowed {
        SetIsMoving(false);
      }
    }

    method SetScale(v: real)
      modifies this
      ensures State() == P.SetScale(old(State()), v)
    {
      view := view.(carrierScale := v);
      fx := fx.(pulses := fx.pulses + 1);
      scaling := scaling.(nowScale := v);
    }

    method SetState(st: P.EPlayerState)
      modifies this
      ensures State() == P.SetState(old(State()), st)
      ensures old(Valid()) ==> Valid()
    {
      motion := motion.(state := st);
    }

    method SetEnd()
      modifies this
      ensures State() == P.SetEnd(old(State()))
      ensures old(Valid()) ==> Valid()
    {
      SetState(P.STOP);
      motion := motion.(isMoving := false);
      fx := fx.(animFever := true);
    }

    method SetHit()
      modifies this
      ensures State() == P.SetHit(old(State()))
      ensures old(timers.hitColdDownTime) > 0.0 ==> State() == old(State())
      ensures old(timers.hitColdDownTime) <= 0.0 ==> nowHp == old(nowHp) - 1
      ensures old(Valid()) ==> Valid()
    {
      if timers.hitColdDownTime > 0.0 {
        return;
      }
      nowHp := nowHp - 1;
      if nowHp <= 0 {
        fx := fx.(uiHp := nowHp, animHit := true, dieCalls := fx.dieCalls + 1);
      } else {
        fx := fx.(uiHp := nowHp, animHit := true, hurtSounds := fx.hurtSounds + 1);
        timers := timers.(hitColdDownTime := P.COLD_DOWN_TIME);
        bodyCol := bodyCol.(enabled := false);
      }
    }

    method AddFeverTime(lastStage: bool)
      modifies this
      ensures State() == P.AddFeverTime(old(State()), lastStage)
      ensures old(timers.feverTimer) > 0.0 ==> timers.feverTimer <= timers.maxFeverTime
      ensures old(Valid()) ==> Valid()
    {
      if timers.feverTimer <= 0.0 {
        return;
      }
      var feverTimer := timers.feverTimer;
      if lastStage {
        feverTimer := feverTimer + P.ADD_FEVER_TIME_LAST_DIFFICULTY;
      } else {
        feverTimer := feverTimer + P.ADD_FEVER_TIME;
      }
      if feverTimer > timers.maxFeverTime {
        feverTimer := timers.maxFeverTime;
      }
      timers := timers.(feverTimer := feverTimer);
      fx := fx.(uiFeverTime := feverTimer);
    }

    method SetFever()
      modifies this
      ensures State() == P.SetFever(old(State()))
      ensures delayFat.None? && timers.maxFeverTime == timers.feverTimer
      ensures old(Valid()) ==> Valid()
    {
      delayFat := None;
      if timers.feverTimer <= 0.0 {
        scaling := scaling.(tempScale := scaling.nowScale, addScaleCounter := 0);
      }
      scaling := scaling.(addScaleCounter := scaling.addScaleCounter + 1);
      var feverTimer := timers.feverTimer + P.FEVER_TIME;
      timers := timers.(feverTimer := feverTimer, maxFeverTime := feverTimer);
      bodyCol := bodyCol.(tag := P.COLLIDER_TAG_HAND);
      motion := motion.(speed := P.SPEED * P.SPEED_UP_RATIO, maxTurnSpeed := P.TURN_SPEED * P.SPEED_UP_RATIO);
      fx := fx.(animFever := true, uiFever := true, uiFeverTime := feverTimer);
      SetScale(P.FEVER_SCALE);
    }

    /** The cooldown branch of the timer block. */
    method CoolDown(dt: real)
      modifies this
      ensures State() == P.CoolDown(old(State()), dt)
    {
      timers := timers.(hitColdDownTime := timers.hitColdDownTime - dt);
      if timers.hitColdDownTime <= 0.0 {
        bodyCol := bodyCol.(enabled := true);
        fx := fx.(animHit := false);
      }
    }

    /** The fever branch of the timer block. */
    method FeverCountdown(dt: real)
      modifies this
      ensures State() == P.FeverCountdown(old(State()), dt)
    {
      timers := timers.(feverTimer := timers.feverTimer - dt);
      if timers.feverTimer <= 0.0 {
        EndFever();
      }
    }

    /** Fever expiry. */
    method EndFever()
      modifies this
      ensures State() == P.EndFever(old(State()))
    {
      timers := timers.(feverTimer := 0.0);
      bodyCol := bodyCol.(tag := P.COLLIDER_TAG_PLAYER);
      fx := fx.(uiFever := false, animFever := false);
      SetScale(1.0);
      scaling := scaling.(delayFatScale := scaling.tempScale + P.ADD_SCALE * scaling.addScaleCounter as real);
      delayFat := Some(P.DELAY_GET_FAT_TIME);
      motion := motion.(speed := P.SPEED, maxTurnSpeed := P.TURN_SPEED);
      fx := fx.(feverEndSounds := fx.feverEndSounds + 1);
    }

    /** The timer block that ends each frame's update. */
    method UpdateTimers(dt: real)
      modifies this
      ensures State() == P.UpdateTimers(old(State()), dt)
      ensures dt >= 0.0 && old(Valid()) ==> Valid()
    {
      if timers.hitColdDownTime > 0.0 {
        CoolDown(dt);
      } else if timers.feverTimer > 0.0 {
        FeverCountdown(dt);
      }
    }

    /** One frame of the deferred scale-up coroutine. */
    method ResumeDelayFat(dt: real)
      modifies this
      ensures State() == P.ResumeDelayFat(old(State()), dt)
    {
      if delayFat.Some? {
        var wait := delayFat.value - dt;
        if wait <= 0.0 {
          SetScale(scaling.delayFatScale);
          delayFat := None;
        } else {
          delayFat := Some(wait);
        }
      }
    }

    /** The timers of one frame: the timer block, then the coroutine if it was already running. */
    method Tick(dt: real)
      modifies this
      ensures State() == P.Tick(old(State()), dt)
      ensures dt >= 0.0 && old(Valid()) ==> Valid()
    {
      var coroutineRunning := delayFat.Some?;
      UpdateTimers(dt);
      if coroutineRunning {
        ResumeDelayFat(dt);
      }
    }

    /** The moving part of the frame: turn, move, keep inside the camera, stop on arrival. */
    method Move(input: P.FrameInput)
      modifies this
      ensures State() == P.Move(old(State()), input)
    {
      if motion.isMoving {
        UpdateFaceTo(input.directionX);
        view := view.(pos := CheckBounding(Add(view.pos, input.step.(z := 0.0)), RT, LB, input.bounds, input.sprite));
        if input.arrived {
          SetIsMoving(false);
        }
      }
    }

    /** One frame: input, movement, then the timers and the coroutine. */
    method Update(input: P.FrameInput)
      modifies this
      ensures State() == P.Frame(old(State()), input)
      ensures input.dt >= 0.0 && old(Valid()) ==> Valid()
    {
      CheckControl(input.pressed, input.released, input.allowed);
      Move(input);
      Tick(input.dt);
    }
  }
}
