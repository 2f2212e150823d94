/** The hold, aim and release logic of one player's ball
    (Assets/Scripts/BallThrower.cs).

    While the primary button is held the ball follows the pointer and its
    recent positions are kept, newest first, in a buffer of at most ten.
    On release the drag from the oldest to the newest kept position decides
    between putting the ball back and throwing it; a throw asks the turn
    controller for one action point less. Positions are points over the
    reals; the physics engine that moves a thrown ball is not modelled. */
module BallThrowing {
  import opened TurnControl

  datatype Vec2 = Vec2(x: real, y: real)

  datatype Vec3 = Vec3(x: real, y: real, z: real)

  const ZERO: Vec3 := Vec3(0.0, 0.0, 0.0)

  function Minus(a: Vec3, b: Vec3): (r: Vec3)
  {
    Vec3(a.x - b.x, a.y - b.y, a.z - b.z)
  }

  function SqrMagnitude(v: Vec3): (r: real)
  {
    v.x * v.x + v.y * v.y + v.z * v.z
  }

  /** How many recent ball positions are kept while aiming. */
  const MAX_SAMPLES: nat := 10

  /** The shortest drag that counts as a throw. */
  const MIN_THROW_MAGNITUDE: real := 0.25

  /** A screen dimension in pixels; the engine reports it positive. */
  type Dimension = r: real | r > 0.0 witness 1.0

  /** The serialized screen-to-world aiming rectangle. */
  datatype AimBounds = AimBounds(minX: real, maxX: real, minY: real, maxY: real)

  /** The verdict of the release check and the drag it measured. */
  datatype ThrowCheck = ThrowCheck(ok: bool, direction: Vec3)

  /** The release check: a throw needs at least two kept positions (the
      button held for two frames), and the drag from the oldest to the
      newest must be at least MIN_THROW_MAGNITUDE long. The length is
      compared through its square, which is exact over the reals. */
  function GetThrowMagnitude(positions: seq<Vec3>): (r: ThrowCheck)
    ensures |positions| < 2 ==> r == ThrowCheck(false, ZERO)
    ensures |positions| >= 2 ==> r.direction == Minus(positions[0], positions[|positions| - 1])
    ensures r.ok <==>
              |positions| >= 2 &&
              SqrMagnitude(r.direction) >= MIN_THROW_MAGNITUDE * MIN_THROW_MAGNITUDE
  {
    if |positions| < 2 then ThrowCheck(false, ZERO)
    else
      var direction := Minus(positions[0], positions[|positions| - 1]);
      if SqrMagnitude(direction) < MIN_THROW_MAGNITUDE * MIN_THROW_MAGNITUDE then ThrowCheck(false, direction)
      else ThrowCheck(true, direction)
  }

  /** Comparing squares decides the same as comparing lengths: for the
      non-negative length m of a drag, m < 0.25 exactly when its squared
      magnitude is below 0.25 squared. */
  lemma MagnitudeGate(direction: Vec3, m: real)
    requires m >= 0.0 && m * m == SqrMagnitude(direction)
    ensures m < MIN_THROW_MAGNITUDE <==> SqrMagnitude(direction) < MIN_THROW_MAGNITUDE * MIN_THROW_MAGNITUDE
  {
    assert MIN_THROW_MAGNITUDE * MIN_THROW_MAGNITUDE == 0.0625;
    if m < MIN_THROW_MAGNITUDE {
      assert m * m <= 0.25 * m;
      assert 0.25 * m < 0.0625;
    } else {
      assert m * m >= 0.25 * m;
      assert 0.25 * m >= 0.0625;
    }
  }

  /** A vertical drag of 0.8 is a throw; one of 0.2 is not. */
  lemma ThrowThresholdExamples(z: real)
    ensures GetThrowMagnitude([Vec3(0.0, 1.0, z), Vec3(0.0, 0.2, z)]).ok
    ensures !GetThrowMagnitude([Vec3(0.0, 0.4, z), Vec3(0.0, 0.2, z)]).ok
    ensures !GetThrowMagnitude([Vec3(0.0, 1.0, z)]).ok
  {
  }

  /** One aiming sample: the newest position goes in front, and once the
      buffer holds more than MAX_SAMPLES the single oldest one is dropped. */
  function PushSample(samples: seq<Vec3>, p: Vec3): (r: seq<Vec3>)
    ensures |r| == if |samples| < MAX_SAMPLES then |samples| + 1 else |samples|
    ensures r[0] == p
    ensures r[1..] == samples[..|r| - 1]
  {
    var added := [p] + samples;
    if |added| > MAX_SAMPLES then added[..|added| - 1] else added
  }

  /** Interpolation from `from` (fraction 0) to `to` (fraction 1). */
  function Lerp(from: real, to: real, p: real): (r: real)
  {
    from + p * (to - from)
  }

  /** Where the ball is put for a pointer position: the pointer's fractions
      of the screen are mapped onto the aiming rectangle, with the X range
      swapped for the second player, at the depth `z` of the ball's home. */
  function BallPositionFor(mouse: Vec2, width: Dimension, height: Dimension,
                           isPlayer0: bool, bounds: AimBounds, z: real): (r: Vec3)
    ensures r.z == z
    ensures r.y == Lerp(bounds.minY, bounds.maxY, mouse.y / height)
    ensures r.x == if isPlayer0 then Lerp(bounds.minX, bounds.maxX, mouse.x / width)
                   else Lerp(bounds.minX, bounds.maxX, 1.0 - mouse.x / width)
  {
    var minX := if isPlayer0 then bounds.minX else bounds.maxX;
    var maxX := if isPlayer0 then bounds.maxX else bounds.minX;
    Vec3(Lerp(minX, maxX, mouse.x / width), Lerp(bounds.minY, bounds.maxY, mouse.y / height), z)
  }

  /** The two players aim mirror images of each other: the same pointer
      gives the same height, and the second player's X at a pointer equals
      the first player's X at the pointer mirrored across the screen. A
      pointer at the horizontal centre aims at the middle for both. */
  lemma AimIsMirrored(mouse: Vec2, width: Dimension, height: Dimension, bounds: AimBounds, z: real)
    ensures BallPositionFor(mouse, width, height, false, bounds, z).y ==
            BallPositionFor(mouse, width, height, true, bounds, z).y
    ensures BallPositionFor(mouse, width, height, false, bounds, z).x ==
            BallPositionFor(Vec2(width - mouse.x, mouse.y), width, height, true, bounds, z).x
    ensures mouse.x == width / 2.0 ==>
              BallPositionFor(mouse, width, height, false, bounds, z).x == (bounds.minX + bounds.maxX) / 2.0 &&
              BallPositionFor(mouse, width, height, true, bounds, z).x == (bounds.minX + bounds.maxX) / 2.0
  {
    var p, q := mouse.x / width, (width - mouse.x) / width;
    assert p * width == mouse.x;
    assert q * width == width - mouse.x;
    var d := q - (1.0 - p);
    assert d * width == 0.0;
  }

  /** One player's thrower, on the peer that owns it. `turnController` is
      the scene's shared controller; `originalBallPosition` is where the
      ball rests between throws. */
  class BallThrower {
    const turnController: TurnController
    const isPlayer0: bool
    const bounds: AimBounds
    const originalBallPosition: Vec3
    var ballPosition: Vec3
    var ballUsesGravity: bool
    var holdingBall: bool
    var positionList: seq<Vec3>

    /** The buffer never exceeds its bound, and it is empty whenever the
        ball is not held. */
    ghost predicate Valid()
      reads this
    {
      |positionList| <= MAX_SAMPLES && (!holdingBall ==> positionList == [])
    }

    constructor (turnController: TurnController, isPlayer0: bool, bounds: AimBounds, originalBallPosition: Vec3)
      ensures Valid()
      ensures this.turnController == turnController && this.isPlayer0 == isPlayer0
      ensures this.bounds == bounds && this.originalBallPosition == originalBallPosition
      ensures ballPosition == originalBallPosition && !ballUsesGravity
      ensures !holdingBall && positionList == []
    {
      this.turnController := turnController;
      this.isPlayer0 := isPlayer0;
      this.bounds := bounds;
      this.originalBallPosition := originalBallPosition;
      ballPosition := originalBallPosition;
      ballUsesGravity := false;
      holdingBall := false;
      positionList := [];
    }

    /** Where the ball is after this frame's aiming: a frame that holds the
        button on a ball already held moves it to the pointer. */
    function AimedPosition(buttonHeld: bool, mouse: Vec2, width: Dimension, height: Dimension): Vec3
      reads this
    {
      if buttonHeld && holdingBall
      then BallPositionFor(mouse, width, height, isPlayer0, bounds, originalBallPosition.z)
      else ballPosition
    }

    /** The positions kept after this frame's aiming. */
    function AimedSamples(buttonHeld: bool, mouse: Vec2, width: Dimension, height: Dimension): seq<Vec3>
      reads this
    {
      if buttonHeld && holdingBall
      then PushSample(positionList, AimedPosition(buttonHeld, mouse, width, height))
      else positionList
    }

    /** Whether a frame spends an action point: this peer's thrower, on its
        player's turn, releases a ball it already held, and the positions
        kept after this frame's aiming pass the drag check. A ball taken
        hold of in the releasing frame itself has recorded nothing yet. */
    predicate SpendsPoint(isMine: bool, isMyTurn: bool, buttonHeld: bool, buttonReleased: bool,
                          mouse: Vec2, width: Dimension, height: Dimension)
      reads this
    {
      isMine && isMyTurn && buttonReleased && holdingBall &&
      GetThrowMagnitude(AimedSamples(buttonHeld, mouse, width, height)).ok
    }

    /** The per-frame entry point. `isMine` says the thrower belongs to this
        peer, `isMyTurn` that its player is the active one; the input of the
        frame is the state of the primary button and the pointer. */
    method Update(isMine: bool, isMyTurn: bool, buttonHeld: bool, buttonReleased: bool,
                  mouse: Vec2, width: Dimension, height: Dimension)
      requires Valid()
      modifies this, turnController
      ensures Valid()
      ensures !(isMine && isMyTurn) ==> unchanged(this) && unchanged(turnController)
      ensures turnController.State() == old(turnController.State())
      ensures turnController.events == old(turnController.events)
      ensures turnController.outbox ==
                old(turnController.outbox) +
                (if old(SpendsPoint(isMine, isMyTurn, buttonHeld, buttonReleased, mouse, width, height))
                 then [SetActionPointsRpc(old(turnController.actionsRemaining) - 1)]
                 else [])
      ensures isMine && isMyTurn && buttonReleased && (old(holdingBall) || buttonHeld) ==>
                !holdingBall && positionList == []
      ensures isMine && isMyTurn && !(buttonReleased && (old(holdingBall) || buttonHeld)) ==>
                holdingBall == (old(holdingBall) || buttonHeld) &&
                positionList == old(AimedSamples(buttonHeld, mouse, width, height))
      ensures isMine && isMyTurn ==>
                ballPosition ==
                  if buttonReleased && (old(holdingBall) || buttonHeld) &&
                     !old(SpendsPoint(isMine, isMyTurn, buttonHeld, buttonReleased, mouse, width, height))
                  then originalBallPosition
                  else old(AimedPosition(buttonHeld, mouse, width, height))
      ensures isMine && isMyTurn ==>
                ballUsesGravity ==
                  if old(SpendsPoint(isMine, isMyTurn, buttonHeld, buttonReleased, mouse, width, height)) then true
                  else if buttonHeld && !old(holdingBall) then false
                  else old(ballUsesGravity)
    {
      if !isMine || !isMyTurn {
        return;
      }
      ConsiderReloading();
      Aim(buttonHeld, mouse, width, height);
      Shoot(buttonReleased);
    }

    /** One frame of this peer followed by the transport's delivery of what
        the frame sent, to this peer and to the `other` one. Between frames
        nothing is left queued, so every request of the counter's setter
        reads a counter that already holds all earlier requests, as when
        the remote call runs on the sender at once. A frame that spends a
        point applies the same call on both peers; any other frame leaves
        both counters alone. */
    method UpdateAndDeliver(other: TurnController, isMine: bool, isMyTurn: bool,
                            buttonHeld: bool, buttonReleased: bool,
                            mouse: Vec2, width: Dimension, height: Dimension)
      requires Valid() && turnController != other && turnController.outbox == []
      modifies this, turnController, other
      ensures Valid() && turnController.outbox == [] && other.outbox == old(other.outbox)
      ensures !(isMine && isMyTurn) ==> unchanged(this) && unchanged(turnController) && unchanged(other)
      ensures isMine && isMyTurn && buttonReleased && (old(holdingBall) || buttonHeld) ==>
                !holdingBall && positionList == []
      ensures isMine && isMyTurn && !(buttonReleased && (old(holdingBall) || buttonHeld)) ==>
                holdingBall == (old(holdingBall) || buttonHeld) &&
                positionList == old(AimedSamples(buttonHeld, mouse, width, height))
      ensures isMine && isMyTurn ==>
                ballPosition ==
                  if buttonReleased && (old(holdingBall) || buttonHeld) &&
                     !old(SpendsPoint(isMine, isMyTurn, buttonHeld, buttonReleased, mouse, width, height))
                  then originalBallPosition
                  else old(AimedPosition(buttonHeld, mouse, width, height))
      ensures isMine && isMyTurn ==>
                ballUsesGravity ==
                  if old(SpendsPoint(isMine, isMyTurn, buttonHeld, buttonReleased, mouse, width, height)) then true
                  else if buttonHeld && !old(holdingBall) then false
                  else old(ballUsesGravity)
      ensures !old(SpendsPoint(isMine, isMyTurn, buttonHeld, buttonReleased, mouse, width, height)) ==>
                turnController.State() == old(turnController.State()) &&
                turnController.events == old(turnController.events) &&
                other.State() == old(other.State()) && other.events == old(other.events)
      ensures var spent := Request(old(turnController.State()), old(turnController.actionsRemaining) - 1);
              old(SpendsPoint(isMine, isMyTurn, buttonHeld, buttonReleased, mouse, width, height)) ==>
                turnController.State() == Throw(old(turnController.State())).state &&
                turnController.events == old(turnController.events) + Throw(old(turnController.State())).events &&
                other.State() == Run(old(other.State()), spent).state &&
                other.events == old(other.events) + Run(old(other.State()), spent).events
    {
      Update(isMine, isMyTurn, buttonHeld, buttonReleased, mouse, width, height);
      if turnController.outbox != [] {
        Broadcast(turnController, other);
      }
    }

    /** The first frame with the button down only takes hold of the ball;
        each later one moves the ball to the pointer and records where it
        went. */
    method Aim(buttonHeld: bool, mouse: Vec2, width: Dimension, height: Dimension)
      requires Valid()
      modifies this
      ensures Valid()
      ensures !buttonHeld ==> unchanged(this)
      ensures buttonHeld && !old(holdingBall) ==>
                holdingBall && !ballUsesGravity &&
                positionList == old(positionList) == [] && ballPosition == old(ballPosition)
      ensures buttonHeld && old(holdingBall) ==>
                holdingBall && ballUsesGravity == old(ballUsesGravity) &&
                ballPosition == BallPositionFor(mouse, width, height, isPlayer0, bounds, originalBallPosition.z) &&
                positionList == PushSample(old(positionList), ballPosition)
    {
      if buttonHeld {
        if !holdingBall {
          holdingBall := true;
          ballUsesGravity := false;
        } else {
          SetBallPosition(mouse, width, height);
          positionList := PushSample(positionList, ballPosition);
        }
      }
    }

    /** On release of a held ball: a drag that fails the check puts the ball
        back home, one that passes throws it; either way the hold ends and
        the kept positions are forgotten. */
    method Shoot(buttonReleased: bool)
      requires Valid()
      modifies this, turnController
      ensures Valid()
      ensures !(buttonReleased && old(holdingBall)) ==> unchanged(this) && unchanged(turnController)
      ensures turnController.State() == old(turnController.State())
      ensures turnController.events == old(turnController.events)
      ensures buttonReleased && old(holdingBall) ==>
                !holdingBall && positionList == [] &&
                var check := GetThrowMagnitude(old(positionList));
                if check.ok then
                  ballUsesGravity && ballPosition == old(ballPosition) &&
                  turnController.outbox ==
                    old(turnController.outbox) + [SetActionPointsRpc(old(turnController.actionsRemaining) - 1)]
                else
                  ballPosition == originalBallPosition && ballUsesGravity == old(ballUsesGravity) &&
                  turnController.outbox == old(turnController.outbox)
    {
      if buttonReleased {
        if holdingBall {
          var check := GetThrowMagnitude(positionList);
          if !check.ok {
            ballPosition := originalBallPosition;
          } else {
            ThrowBall(check.direction);
          }
          holdingBall := false;
          positionList := [];
        }
      }
    }

    /** Reloading is switched off: the method returns at once. */
    method ConsiderReloading()
      ensures unchanged(this) && unchanged(turnController)
    {
      return;
    }

    /** Hands the ball to the physics engine and spends one action point
        through the counter's public setter. */
    method ThrowBall(direction: Vec3)
      modifies this, turnController
      ensures ballUsesGravity
      ensures ballPosition == old(ballPosition) && holdingBall == old(holdingBall)
      ensures positionList == old(positionList)
      ensures turnController.State() == old(turnController.State())
      ensures turnController.events == old(turnController.events)
      ensures turnController.outbox ==
                old(turnController.outbox) + [SetActionPointsRpc(old(turnController.actionsRemaining) - 1)]
    {
      ballUsesGravity := true;
      turnController.SetNumberOfActionsRemaining(turnController.actionsRemaining - 1);
    }

    /** Moves the ball to the point the pointer aims at. */
    method SetBallPosition(mouse: Vec2, width: Dimension, height: Dimension)
      modifies this
      ensures ballPosition == BallPositionFor(mouse, width, height, isPlayer0, bounds, originalBallPosition.z)
      ensures holdingBall == old(holdingBall) && ballUsesGravity == old(ballUsesGravity)
      ensures positionList == old(positionList)
    {
      var minX := bounds.minX;
      var maxX := bounds.maxX;
      if !isPlayer0 {
        maxX := bounds.minX;
        minX := bounds.maxX;
      }
      var percentX := mouse.x / width;
      var percentY := mouse.y / height;
      ballPosition := Vec3(Lerp(minX, maxX, percentX),
                           Lerp(bounds.minY, bounds.maxY, percentY),
                           originalBallPosition.z);
    }
  }
}
