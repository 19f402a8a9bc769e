/**
  The ball's possession protocol as pure transitions on the ball's state: who holds
  it (`inPossession`, `playerIndex`, `playerTransform`) and how its rigid body moves
  (position, velocity, gravity scale). `Ball.Possess`, `Ball.Shoot` and
  `Ball.Update` are each proved to perform one of these transitions.
*/
module Possession {
  import opened Options
  import opened Engine
  import opened Projectile

  /** The ball's state: its `inPossession`, `playerIndex` and `playerTransform`
      fields, and its position, velocity and gravity scale. */
  datatype BallState = BallState(
    inPossession: bool,
    playerIndex: int,
    holder: Transform?,
    position: Vec2,
    velocity: Velocity,
    gravityScale: real)

  /** Ball.InPossession: the player with this index holds the ball. Only the index
      is compared. */
  predicate IsHolder(s: BallState, index: int) {
    index == s.playerIndex
  }

  /** Ball.Possess, once the holder's transform has been looked up. */
  function Possessed(s: BallState, index: int, holder: Transform?): BallState {
    s.(inPossession := true, playerIndex := index, holder := holder, velocity := Finite(Zero2))
  }

  /** Ball.Shoot with the hoop's position (None when no hoop is set). */
  function Launched(s: BallState, hoop: Option<Vec2>, shot: ShotSettings, gravityY: real, math: Mathf): BallState {
    match hoop
    case None => s
    case Some(target) =>
      BallState(false, -1, null, s.position, LaunchVelocity(s.position, target, shot, gravityY, math), 1.0)
  }

  /** Ball.Update: a held ball rides at the holder's position plus `offset`, at rest
      and without gravity; any other ball falls under gravity. */
  function Carried(s: BallState, holderPosition: Vec2, offset: Vec2): BallState {
    if s.inPossession && s.holder != null then
      s.(position := Add(holderPosition, offset), velocity := Finite(Zero2), gravityScale := 0.0)
    else
      s.(gravityScale := 1.0)
  }

  /** The query ignores the `inPossession` flag: setting or clearing it changes no
      answer. In particular a released ball is "held" by index -1, and a ball
      possessed by index `i` is held by `i` whatever the flag says. */
  lemma HolderIgnoresFlag(s: BallState, flag: bool, index: int)
    ensures IsHolder(s.(inPossession := flag), index) <==> IsHolder(s, index)
    ensures IsHolder(s, index) <==> index == s.playerIndex
  {
  }

  /** After Possess(i): the flag is set, the ball holds still, `i` is the one and only
      holder, and the position and gravity scale are untouched. */
  lemma PossessGrants(s: BallState, index: int, holder: Transform?, other: int)
    ensures var r := Possessed(s, index, holder);
      r.inPossession && r.playerIndex == index && r.holder == holder
      && IsHolder(r, index) && (IsHolder(r, other) <==> other == index)
      && r.velocity == Finite(Zero2)
      && r.position == s.position && r.gravityScale == s.gravityScale
  {
  }

  /** Without a hoop, Shoot changes nothing at all. */
  lemma ShootWithoutHoopIsNoOp(s: BallState, shot: ShotSettings, gravityY: real, math: Mathf)
    ensures Launched(s, None, shot, gravityY, math) == s
  {
  }

  /** With a hoop, Shoot clears the flag, sets the index to -1 and the holder to null,
      restores gravity, launches the ball from where it is towards the hoop, and
      leaves no player with a non-negative index in possession. */
  lemma ShootReleases(s: BallState, target: Vec2, shot: ShotSettings, gravityY: real, math: Mathf, index: int)
    requires index >= 0
    ensures var r := Launched(s, Some(target), shot, gravityY, math);
      !r.inPossession && r.playerIndex == -1 && r.holder == null && r.gravityScale == 1.0
      && r.position == s.position
      && r.velocity == LaunchVelocity(s.position, target, shot, gravityY, math)
      && !IsHolder(r, index)
  {
  }

  /** A time-of-flight shot with positive flight time, followed for that time under
      the same gravity, arrives at the hoop. */
  lemma TimedShotReachesHoop(s: BallState, target: Vec2, shot: ShotSettings, gravityY: real, math: Mathf)
    requires shot.useTimeOfFlight && shot.timeOfFlight > 0.0
    ensures var r := Launched(s, Some(target), shot, gravityY, math);
      r.velocity.Finite? && PositionAt(s.position, r.velocity.v, Abs(gravityY), shot.timeOfFlight) == target
  {
    TimeOfFlightShotLands(s.position, target, shot, gravityY, math);
  }

  /** The ride-along: a ball with the flag set and a holder moves to the holder's
      position plus the offset, with zero velocity and zero gravity; otherwise only
      the gravity scale changes, to 1. Possession itself never changes. */
  lemma RideAlongRule(s: BallState, holderPosition: Vec2, offset: Vec2)
    ensures var r := Carried(s, holderPosition, offset);
      r.inPossession == s.inPossession && r.playerIndex == s.playerIndex && r.holder == s.holder
      && (s.inPossession && s.holder != null ==>
            r.position == Add(holderPosition, offset) && r.velocity == Finite(Zero2) && r.gravityScale == 0.0)
      && (!(s.inPossession && s.holder != null) ==> r == s.(gravityScale := 1.0))
  {
  }

  /** While the holder stands still, the frames after the first carried one leave
      the ball exactly where it is: a carried state is a fixed point of the next
      frame's Update with the same holder position. */
  lemma CarriedIdempotent(s: BallState, holderPosition: Vec2, offset: Vec2)
    ensures Carried(Carried(s, holderPosition, offset), holderPosition, offset) == Carried(s, holderPosition, offset)
  {
  }

  /** The flag and the holder agree: the ball is flagged exactly when it has a
      holder's transform to follow. */
  predicate WellFormed(s: BallState) {
    s.inPossession <==> s.holder != null
  }

  /** Possess with a real transform, Shoot and Update all keep the flag and the
      holder in agreement, so in a well-formed state the ride-along happens exactly
      when the flag is set. */
  lemma TransitionsKeepWellFormed(s: BallState, index: int, holder: Transform?, hoop: Option<Vec2>,
                                  shot: ShotSettings, gravityY: real, math: Mathf, holderPosition: Vec2, offset: Vec2)
    requires WellFormed(s)
    ensures holder != null ==> WellFormed(Possessed(s, index, holder))
    ensures WellFormed(Launched(s, hoop, shot, gravityY, math))
    ensures WellFormed(Carried(s, holderPosition, offset))
    ensures s.inPossession ==> Carried(s, holderPosition, offset).gravityScale == 0.0
    ensures !s.inPossession ==> Carried(s, holderPosition, offset).gravityScale == 1.0
  {
  }

  /** A possessed ball, once carried, sits at its new holder's position plus the
      offset and stays with that holder; shooting it afterwards (with a hoop) takes
      it away from every player with a non-negative index. */
  lemma PossessCarryShoot(s: BallState, index: int, holder: Transform, holderPosition: Vec2, offset: Vec2,
                          target: Vec2, shot: ShotSettings, gravityY: real, math: Mathf)
    requires index >= 0
    ensures var carried := Carried(Possessed(s, index, holder), holderPosition, offset);
      IsHolder(carried, index) && carried.position == Add(holderPosition, offset)
      && carried.velocity == Finite(Zero2) && carried.gravityScale == 0.0
      && !IsHolder(Launched(carried, Some(target), shot, gravityY, math), index)
      && Launched(carried, Some(target), shot, gravityY, math).position == Add(holderPosition, offset)
  {
  }
}
