/**
  The three gameplay scripts as classes: `Ball`, `PlayerController` and
  `GameManager`. They refer to one another (the ball to its game manager, the
  manager to its players and ball, each player to the ball), so they share one
  module.

  Each method follows its script's branches statement by statement and is proved
  to perform the matching pure transition: `Possession` for the ball, `ShotMeter`
  for the shot meter.
*/
module Gameplay {
  import opened Options
  import opened Engine
  import opened Projectile
  import opened ShotMeter
  import opened Possession

  class Ball {
    var gameManager: GameManager?
    var hoop: Transform?
    var ballOffsetX: real
    var ballOffsetY: real
    var inPossession: bool
    var playerIndex: int
    var playerTransform: Transform?
    var launchAngle: real
    var timeOfFlight: real
    var useTimeOfFlight: bool
    // The ball's own transform position and its rigid body's velocity and gravity scale.
    var position: Vec2
    var linearVelocity: Velocity
    var gravityScale: real

    function State(): BallState
      reads this
    {
      BallState(inPossession, playerIndex, playerTransform, position, linearVelocity, gravityScale)
    }

    function Settings(): ShotSettings
      reads this
    {
      ShotSettings(useTimeOfFlight, timeOfFlight, launchAngle)
    }

    function Offset(): Vec2
      reads this
    {
      Vec2(ballOffsetX, ballOffsetY)
    }

    /** The position of the holder's transform (unused when there is none). */
    function HolderPosition(): Vec2
      reads this, playerTransform
    {
      if playerTransform != null then playerTransform.position else Zero2
    }

    /** The hoop's position, or None when no hoop is set. */
    function Target(): Option<Vec2>
      reads this, hoop
    {
      if hoop != null then Some(hoop.position) else None
    }

    /** The field initialisers, with the gravity scale that Start sets. */
    constructor (position: Vec2)
      ensures gameManager == null && hoop == null
      ensures Offset() == Vec2(0.5, 0.0)
      ensures Settings() == ShotSettings(false, 2.0, 45.0)
      ensures State() == BallState(false, -9, null, position, Finite(Zero2), 1.0)
    {
      gameManager := null;
      hoop := null;
      ballOffsetX := 0.5;
      ballOffsetY := 0.0;
      inPossession := false;
      playerIndex := -9;
      playerTransform := null;
      launchAngle := 45.0;
      timeOfFlight := 2.0;
      useTimeOfFlight := false;
      this.position := position;
      linearVelocity := Finite(Zero2);
      gravityScale := 1.0;
    }

    /** The ride-along of one frame. */
    method Update()
      modifies this`position, this`linearVelocity, this`gravityScale
      ensures State() == Carried(old(State()), old(HolderPosition()), Offset())
    {
      if inPossession && playerTransform != null {
        position := Add(playerTransform.position, Vec2(ballOffsetX, ballOffsetY));
        linearVelocity := Finite(Zero2);
        gravityScale := 0.0;
      } else {
        gravityScale := 1.0;
      }
    }

    /** Whether the player with this index holds the ball. */
    function InPossession(index: int): (r: bool)
      reads this
      ensures r <==> IsHolder(State(), index)
    {
      index == playerIndex
    }

    /** Hands the ball to the first player of `registry` (the game manager singleton)
        with this index; the lookup must succeed. */
    method Possess(index: int, registry: GameManager)
      requires registry.HasIndex(index)
      modifies this`inPossession, this`playerIndex, this`playerTransform, this`linearVelocity
      ensures exists k :: registry.FirstMatch(k, index)
                && State() == Possessed(old(State()), index, registry.players[k].transform)
    {
      inPossession := true;
      playerIndex := index;
      var player := registry.GetPlayerByIndex(index);
      playerTransform := player.transform;
      linearVelocity := Finite(Zero2);
    }

    /** Launches the ball at the hoop under gravity `gravityY` (Physics2D.gravity.y). */
    method Shoot(gravityY: real, math: Mathf)
      modifies this`gravityScale, this`inPossession, this`playerIndex, this`playerTransform, this`linearVelocity
      ensures State() == Launched(old(State()), Target(), Settings(), gravityY, math)
    {
      if hoop == null {
        return;
      }
      gravityScale := 1.0;
      inPossession := false;
      playerIndex := -1;
      playerTransform := null;
      linearVelocity := LaunchVelocity(position, hoop.position, Settings(), gravityY, math);
    }

    /** Scores when the ball enters the manager's active hoop. The manager must have
        a player to hand the ball to when that happens. */
    method OnTriggerEnter2D(other: Collider2D)
      requires gameManager != null && gameManager.activeHoop == other ==> gameManager.players.Length > 0
      modifies (if gameManager == null then {} else {gameManager.ball})`inPossession,
        (if gameManager == null then {} else {gameManager.ball})`playerIndex,
        (if gameManager == null then {} else {gameManager.ball})`playerTransform,
        (if gameManager == null then {} else {gameManager.ball})`linearVelocity
      ensures var gm := old(gameManager);
        gm != null && old(gm.activeHoop) == other ==>
          gm.ball.State() == Possessed(old(gm.ball.State()), old(gm.players[0].playerIndex), old(gm.players[0].transform))
      ensures var gm := old(gameManager);
        gm == null || old(gm.activeHoop) != other ==> gm == null || unchanged(gm.ball)
    {
      if gameManager != null && gameManager.activeHoop != null {
        if other == gameManager.activeHoop {
          gameManager.Scored();
        }
      }
    }
  }

  class PlayerController {
    var rb: Rigidbody2D
    var shotMeter: Slider?
    var ball: Ball
    var transform: Transform
    var playerIndex: int
    var moveSpeed: real
    var velocityDecayRate: real
    var chargeSpeed: real
    var isShotMeterActive: bool
    var meterTimer: real
    var frozen: bool
    var background: RectTransform?
    var yellow: RectTransform
    var green: RectTransform
    var yellowHeightMultiplier: real
    var greenHeightMultiplier: real
    var windowOffset: real

    function Windows(): Windows
      reads this`yellow, this`green, yellow`sizeDelta, yellow`localPosition, green`sizeDelta, green`localPosition
    {
      ShotMeter.Windows(Rect(yellow.sizeDelta, yellow.localPosition), Rect(green.sizeDelta, green.localPosition))
    }

    function WindowSettings(): WindowConfig
      reads this`background, (if background == null then {} else {background})`rectHeight, this`yellowHeightMultiplier, this`greenHeightMultiplier, this`windowOffset
    {
      WindowConfig(if background != null then Some(background.rectHeight) else None,
                   yellowHeightMultiplier, greenHeightMultiplier, windowOffset)
    }

    /** The shot meter's state, read from this controller, its slider and its windows. */
    function Meter(): Meter
      requires shotMeter != null
      reads this`frozen, this`isShotMeterActive, this`meterTimer, this`shotMeter, shotMeter`value, shotMeter`active
      reads this`yellow, this`green, yellow`sizeDelta, yellow`localPosition, green`sizeDelta, green`localPosition
    {
      ShotMeter.Meter(frozen, isShotMeterActive, meterTimer, shotMeter.value, shotMeter.active, Windows())
    }

    /** The charge speed, the slider's range and the window settings. */
    function Config(): Config
      requires shotMeter != null
      reads this`chargeSpeed, this`shotMeter, shotMeter`minValue, shotMeter`maxValue
      reads this`background, (if background == null then {} else {background})`rectHeight, this`yellowHeightMultiplier, this`greenHeightMultiplier, this`windowOffset
    {
      ShotMeter.Config(chargeSpeed, shotMeter.minValue, shotMeter.maxValue, WindowSettings())
    }

    /** The field initialisers. */
    constructor (rb: Rigidbody2D, transform: Transform, ball: Ball, shotMeter: Slider?,
                 background: RectTransform?, yellow: RectTransform, green: RectTransform)
      ensures this.rb == rb && this.transform == transform && this.ball == ball && this.shotMeter == shotMeter
      ensures this.background == background && this.yellow == yellow && this.green == green
      ensures playerIndex == -1 && moveSpeed == 5.0 && velocityDecayRate == 10.0 && chargeSpeed == 1.0
      ensures !isShotMeterActive && meterTimer == 0.0 && !frozen
      ensures WindowSettings().yellowHeightMultiplier == 0.4 && WindowSettings().greenHeightMultiplier == 0.15
      ensures WindowSettings().windowOffset == 0.0
    {
      this.rb := rb;
      this.transform := transform;
      this.ball := ball;
      this.shotMeter := shotMeter;
      this.background := background;
      this.yellow := yellow;
      this.green := green;
      playerIndex := -1;
      moveSpeed := 5.0;
      velocityDecayRate := 10.0;
      chargeSpeed := 1.0;
      isShotMeterActive := false;
      meterTimer := 0.0;
      frozen := false;
      yellowHeightMultiplier := 0.4;
      greenHeightMultiplier := 0.15;
      windowOffset := 0.0;
    }

    /** The meter part of Start: empty the slider (through the slider's clamping
        setter) and place the windows. */
    method Start()
      requires yellow != green
      modifies (if shotMeter == null then {} else {shotMeter})`value,
        yellow`sizeDelta, yellow`localPosition, green`sizeDelta, green`localPosition
      ensures shotMeter != null ==> Meter() == Started(old(Meter()), Config())
      ensures Windows() == SetWindows(old(Windows()), isShotMeterActive, WindowSettings())
    {
      if shotMeter != null {
        shotMeter.value := Clamp(0.0, shotMeter.minValue, shotMeter.maxValue);
      }
      SetShotWindows();
    }

    /** One physics step with the two input axes: move at `moveSpeed`, or, while
        frozen, decay the velocity towards zero by `velocityDecayRate` per second. */
    method FixedUpdate(horizontal: real, vertical: real, fixedDeltaTime: real, sqrt: real -> real)
      modifies rb`linearVelocity
      ensures playerIndex < 0 ==> unchanged(rb)
      ensures playerIndex >= 0 && !frozen ==> rb.linearVelocity == Scale(Vec2(horizontal, vertical), moveSpeed)
      ensures playerIndex >= 0 && frozen ==>
        rb.linearVelocity == MoveTowards(old(rb.linearVelocity), Zero2, velocityDecayRate * fixedDeltaTime, sqrt)
    {
      if playerIndex < 0 {
        return;
      }
      if !frozen {
        var movement := Scale(Vec2(horizontal, vertical), moveSpeed);
        rb.linearVelocity := Vec2(movement.x, movement.y);
      } else {
        var currentVelocity := rb.linearVelocity;
        rb.linearVelocity := MoveTowards(currentVelocity, Zero2, velocityDecayRate * fixedDeltaTime, sqrt);
      }
    }

    /** Size the two windows from the background and raise them by the offset. */
    method SetShotWindows()
      requires yellow != green
      modifies yellow`sizeDelta, yellow`localPosition, green`sizeDelta, green`localPosition
      ensures Windows() == SetWindows(old(Windows()), isShotMeterActive, WindowSettings())
    {
      if background != null && !isShotMeterActive {
        var backgroundHeight := background.rectHeight;
        var offsetHeight := windowOffset / 2.0 * background.rectHeight;
        var yellowSize := yellow.sizeDelta;
        yellowSize := yellowSize.(y := backgroundHeight * yellowHeightMultiplier);
        yellow.sizeDelta := yellowSize;
        yellow.localPosition := Vec3(yellow.localPosition.x, yellow.localPosition.y + offsetHeight, yellow.localPosition.z);
        var greenSize := green.sizeDelta;
        greenSize := greenSize.(y := backgroundHeight * greenHeightMultiplier);
        green.sizeDelta := greenSize;
        green.localPosition := Vec3(green.localPosition.x, green.localPosition.y + offsetHeight, green.localPosition.z);
      }
    }

    /** Move both windows back to the origin. */
    method ResetShotWindows()
      requires yellow != green
      modifies yellow`localPosition, green`localPosition
      ensures Windows() == ResetWindows(old(Windows()))
    {
      yellow.localPosition := Zero3;
      green.localPosition := Zero3;
    }

    /** Empty and hide the meter and move its windows back. */
    method ClearMeter()
      requires shotMeter != null && yellow != green
      modifies this`isShotMeterActive, shotMeter`value, shotMeter`active, yellow`localPosition, green`localPosition
      ensures Meter() == Hide(old(Meter()), Config())
    {
      shotMeter.value := shotMeter.minValue;
      shotMeter.active := false;
      isShotMeterActive := false;
      ResetShotWindows();
    }

    /** Add one frame's charge to the slider and clamp it to the slider's range. */
    method ChargeMeter(dt: real)
      requires shotMeter != null
      modifies shotMeter`value
      ensures shotMeter.value == Charge(old(shotMeter.value), Config(), dt)
    {
      shotMeter.value := shotMeter.value + chargeSpeed * dt;
      shotMeter.value := Clamp(shotMeter.value, shotMeter.minValue, shotMeter.maxValue);
    }

    /** Space held by a holder who is not frozen: show the meter, place the windows,
        activate and freeze, and charge. */
    method StartCharging(dt: real)
      requires shotMeter != null && yellow != green
      modifies this`isShotMeterActive, this`frozen, shotMeter`value, shotMeter`active,
        yellow`sizeDelta, yellow`localPosition, green`sizeDelta, green`localPosition
      ensures var m := old(Meter());
        Meter() == m.(shown := true, windows := SetWindows(m.windows, m.active, Config().windows),
                      active := true, frozen := true, fill := Charge(m.fill, Config(), dt))
    {
      shotMeter.active := true;
      SetShotWindows();
      isShotMeterActive := true;
      frozen := true;
      ChargeMeter(dt);
    }

    /** Space held by a frozen holder: show the meter and keep charging. */
    method KeepCharging(dt: real)
      requires shotMeter != null
      modifies shotMeter`value, shotMeter`active
      ensures Meter() == old(Meter()).(shown := true, fill := Charge(old(Meter()).fill, Config(), dt))
    {
      shotMeter.active := true;
      ChargeMeter(dt);
    }

    /** Key-up by the holder: start the display timer, shoot, and unfreeze. */
    method ShootBall(gravityY: real, math: Mathf)
      requires shotMeter != null
      modifies this`meterTimer, this`frozen,
        ball`gravityScale, ball`inPossession, ball`playerIndex, ball`playerTransform, ball`linearVelocity
      ensures Meter() == Release(old(Meter()))
      ensures ball.State() == Launched(old(ball.State()), ball.Target(), ball.Settings(), gravityY, math)
    {
      meterTimer := TimeToDisplay;
      ball.Shoot(gravityY, math);
      frozen := false;
    }

    /** Count the display time down, clearing the meter when it runs out. */
    method CountDownMeter(dt: real)
      requires shotMeter != null && yellow != green
      modifies this`meterTimer, this`isShotMeterActive, this`frozen, shotMeter`value, shotMeter`active,
        yellow`localPosition, green`localPosition
      ensures Meter() == CountDown(old(Meter()), Config(), dt)
    {
      meterTimer := meterTimer - dt;
      if meterTimer <= 0.0 {
        ClearMeter();
        frozen := false;
      }
    }

    /** The shot-meter branches of one frame, for a player with an index and a slider. */
    method MeterFrame(key: Key, dt: real, gravityY: real, math: Mathf)
      requires shotMeter != null && yellow != green
      modifies this`frozen, this`isShotMeterActive, this`meterTimer, shotMeter`value, shotMeter`active,
        yellow`sizeDelta, yellow`localPosition, green`sizeDelta, green`localPosition,
        ball`gravityScale, ball`inPossession, ball`playerIndex, ball`playerTransform, ball`linearVelocity
      ensures var s := Tick(old(Meter()), Config(), key, dt, old(ball.InPossession(playerIndex)));
        Meter() == s.meter
        && (s.fired ==> ball.State() == Launched(old(ball.State()), ball.Target(), ball.Settings(), gravityY, math))
        && (!s.fired ==> ball.State() == old(ball.State()))
    {
      if ball.InPossession(playerIndex) {
        if !frozen {
          if key == Held {
            StartCharging(dt);
          } else if key == Released {
            ShootBall(gravityY, math);
          } else {
            ClearMeter();
          }
        } else {
          if key == Held {
            KeepCharging(dt);
          } else if key == Released {
            ShootBall(gravityY, math);
          } else {
            CountDownMeter(dt);
          }
        }
      } else if isShotMeterActive {
        CountDownMeter(dt);
      }
    }

    /** One frame of the shot meter, with the Space key's state, the frame time, and
        the gravity and maths the ball's shot uses. A player without an index or
        without a slider does nothing. Otherwise the meter makes one `Tick`, and the
        ball is shot exactly when that tick fires. */
    method Update(key: Key, dt: real, gravityY: real, math: Mathf)
      requires yellow != green
      modifies this`frozen, this`isShotMeterActive, this`meterTimer,
        (if shotMeter == null then {} else {shotMeter})`value, (if shotMeter == null then {} else {shotMeter})`active,
        yellow`sizeDelta, yellow`localPosition, green`sizeDelta, green`localPosition,
        ball`gravityScale, ball`inPossession, ball`playerIndex, ball`playerTransform, ball`linearVelocity
      ensures playerIndex < 0 || shotMeter == null ==>
        unchanged(this, yellow, green, ball) && (shotMeter != null ==> unchanged(shotMeter))
      ensures playerIndex >= 0 && shotMeter != null ==>
        var s := Tick(old(Meter()), Config(), key, dt, old(ball.InPossession(playerIndex)));
        Meter() == s.meter
        && (s.fired ==> ball.State() == Launched(old(ball.State()), ball.Target(), ball.Settings(), gravityY, math))
        && (!s.fired ==> ball.State() == old(ball.State()))
    {
      if playerIndex < 0 {
        return;
      }
      if shotMeter == null {
        return;
      }
      MeterFrame(key, dt, gravityY, math);
    }
  }

  class GameManager {
    var players: array<PlayerController>
    var ball: Ball
    var leftHoop: Collider2D?
    var rightHoop: Collider2D?
    var activeHoop: Collider2D?
    var facingRight: bool

    /** Some player has this index. */
    ghost predicate HasIndex(index: int)
      reads this, players, set i | 0 <= i < players.Length :: players[i]
    {
      exists k :: 0 <= k < players.Length && players[k].playerIndex == index
    }

    /** `k` is the first position, in array order, of a player with this index. */
    ghost predicate FirstMatch(k: int, index: int)
      reads this, players, set i | 0 <= i < players.Length :: players[i]
    {
      0 <= k < players.Length && players[k].playerIndex == index
      && forall j :: 0 <= j < k ==> players[j].playerIndex != index
    }

    /** `facingRight` defaults to true. */
    constructor (players: array<PlayerController>, ball: Ball, leftHoop: Collider2D?, rightHoop: Collider2D?)
      ensures this.players == players && this.ball == ball
      ensures this.leftHoop == leftHoop && this.rightHoop == rightHoop && activeHoop == null
      ensures facingRight
    {
      this.players := players;
      this.ball := ball;
      this.leftHoop := leftHoop;
      this.rightHoop := rightHoop;
      activeHoop := null;
      facingRight := true;
    }

    /** Choose the hoop the ball must enter to score. */
    method Update()
      modifies this`activeHoop
      ensures activeHoop == if facingRight then rightHoop else leftHoop
    {
      if facingRight {
        activeHoop := rightHoop;
      } else {
        activeHoop := leftHoop;
      }
    }

    /** After a score the ball goes to `players[0]`, whoever had it before. */
    method Scored()
      requires players.Length > 0
      modifies ball`inPossession, ball`playerIndex, ball`playerTransform, ball`linearVelocity
      ensures ball.InPossession(old(players[0].playerIndex))
      ensures ball.State() == Possessed(old(ball.State()), old(players[0].playerIndex), old(players[0].transform))
    {
      assert FirstMatch(0, players[0].playerIndex);
      ball.Possess(players[0].playerIndex, this);
    }

    /** The first player, in array order, with this index, or null when there is none. */
    method GetPlayerByIndex(index: int) returns (player: PlayerController?)
      ensures player == null <==> !HasIndex(index)
      ensures player != null ==> exists k :: FirstMatch(k, index) && player == players[k]
    {
      for i := 0 to players.Length
        invariant forall j :: 0 <= j < i ==> players[j].playerIndex != index
      {
        if players[i].playerIndex == index {
          return players[i];
        }
      }
      return null;
    }
  }
}
