# Turn controller and ball thrower of LD40, modelled in Dafny

LD40 is a two-player networked game built with Unity and Photon. The
players take turns throwing a ball, and each turn allows three throws. This
project models two components and proves their contracts:

- **`TurnControl`** (`turn_controller.dfy`) models `TurnController`. That
  component holds each peer's action-point counter and records whose turn
  it is.
  - The public setter of the counter never writes it. It broadcasts a
    `SetActionPoints(value)` remote call to every peer, the sender included,
    and sends nothing when the value is unchanged.
  - The call's handler is the only writer of the counter. It stores the
    value and raises `onActionPointsChange`.
  - When the stored value is `<= 0`, the handler flips the turn through a
    guarded setter. The flip resets the counter to 3 and raises
    `onTurnChange`.
- **`BallThrowing`** (`ball_thrower.dfy`) models `BallThrower`. That
  component handles one player's hold, aim and release input.
  - The first frame with the button down only takes hold of the ball.
  - Each later held frame moves the ball to the pointer. It puts the new
    position at the front of a buffer that keeps at most ten positions.
  - Release checks the drag from the oldest kept position to the newest.
    It needs at least two positions and a length of at least 0.25.
  - A drag that fails the check puts the ball back home. One that passes
    throws the ball and asks the turn controller's setter for one action
    point less. In both cases the hold ends and the buffer is cleared.

Each component is modelled twice:

- **A class.** Its methods update its fields in place. `actionsRemaining`,
  `isFirstPlayersTurn`, `holdingBall` and `positionList` are the source's
  own fields. `ballPosition` and `ballUsesGravity` stand for the ball's
  `transform.position` and its `Rigidbody.useGravity`. `events` stands for
  the two C# events and `outbox` for the Photon transport.
- **Pure specification functions.** The methods' `ensures` clauses are
  stated in terms of them, and lemmas prove the game's properties about
  them.

The model represents the network and the events as follows:

- **Photon remote call.** Each controller has an `outbox` of the calls it
  has broadcast.
- **Transport.** `Broadcast` delivers the sender's `outbox` in send order to
  both peers of the session, the sender included.
- **The two C# events.** Each controller keeps a log, `events`, of the
  notifications it has raised, oldest first.

Positions are points over the reals. The source compares the length of the
drag. The model compares the squared length against 0.25 squared, and
`MagnitudeGate` proves that the two tests agree.

## Model

| member | source | states |
|---|---|---|
| TurnControl.TurnController.constructor | Assets/Scripts/TurnController.cs:7-17 | A new controller holds 3 actions on the first player's turn, with no event raised and nothing sent |
| TurnControl.Request | Assets/Scripts/TurnController.cs:57-65 | The counter's setter sends nothing exactly when asked for the current value; otherwise it sends at most one call, carrying exactly that value |
| TurnControl.TurnController.SetNumberOfActionsRemaining | Assets/Scripts/TurnController.cs:57-65 | The setter leaves the counter, the turn owner and the event log untouched and only appends `Request`'s call to the outbox |
| TurnControl.SetTurn | Assets/Scripts/TurnController.cs:35-45 | Setting the turn owner to its current value changes nothing and raises nothing; a real change resets the counter to 3 and raises exactly one turn-change notification |
| TurnControl.TurnController.SetIsCurrentlyFirstPlayersTurn | Assets/Scripts/TurnController.cs:35-45 | The guarded setter updates the fields and the event log as `SetTurn` says, and sends nothing |
| TurnControl.Receive | Assets/Scripts/TurnController.cs:83-92 | On receipt the counter ends positive and the action-points notification is raised exactly once, first. A positive value is stored and the turn owner is kept; a value <= 0 flips the turn, resets the counter to 3 and raises one turn-change notification after it |
| TurnControl.TurnController.SetActionPoints | Assets/Scripts/TurnController.cs:83-92 | The handler moves the peer to `Receive`'s state, appends `Receive`'s notifications in order and sends nothing |
| TurnControl.RunEventCounts | Assets/Scripts/TurnController.cs:83-92 | Over any sequence of delivered calls, one action-points notification is raised per call and one turn-change notification per call with a value <= 0 |
| TurnControl.RunTurnParity | Assets/Scripts/TurnController.cs:42-44 | After any sequence of calls, the turn owner has changed exactly when an odd number of them exhausted the counter, and a non-empty sequence leaves the counter positive |
| TurnControl.Converge | Assets/Scripts/TurnController.cs:83-92 | Two peers that agree on the turn owner reach the same state after any non-empty common sequence of calls, whatever their counters held before, and they raise the same notifications |
| TurnControl.AgreeAfterEveryCall | Assets/Scripts/TurnController.cs:49-50 | Two peers that agree on whose turn it is and apply the same calls in the same order hold identical states after every call |
| TurnControl.DeliverToBoth | Assets/Scripts/TurnController.cs:64 | Delivering one call to both peers runs each peer's handler on it |
| TurnControl.Broadcast | Assets/Scripts/TurnController.cs:64 | Every queued call reaches the sender and the other peer in send order; each peer ends in the state `Run` gives for its old state, and the sender's outbox is emptied |
| TurnControl.ThrowConsumesOnePoint | Assets/Scripts/BallThrower.cs:211 | After one decrement request is delivered, a counter above 1 drops by exactly one on the same turn; the last point flips the turn and resets the counter to 3. A counter in 1..3 stays in 1..3 |
| TurnControl.ThreeThrowsFlipOnce | Assets/Scripts/TurnController.cs:83-92 | From a full counter, three throws flip the turn exactly once, on the third, and leave the other player with 3 actions |
| TurnControl.InitialScenario | Assets/Scripts/TurnController.cs:83-92 | From the initial state, delivering 2, 1, 0 raises three action-points notifications and one turn-change notification and ends on the second player's turn with 3 actions |
| BallThrowing.BallThrower.constructor | Assets/Scripts/BallThrower.cs:34-38 | A new thrower holds no ball, keeps no positions and has the ball at home |
| BallThrowing.BallThrower.Update | Assets/Scripts/BallThrower.cs:96-113 | A frame changes nothing unless the thrower is this peer's and it is its player's turn. A frame never writes the turn controller's counter or events. It sends exactly one call, for the counter minus one, when it releases a ball held before the frame and the positions kept after the frame's aiming pass the drag check (`SpendsPoint`); otherwise it sends nothing. A release frame ends the hold and clears the buffer. Any other frame holds the ball if it was held or the button is down, and keeps the positions after aiming (`AimedSamples`), so a drag builds up over several frames. The ball ends at home after a release that does not throw and at the aimed position otherwise; gravity is on after a throw, off after a first press, and unchanged otherwise |
| BallThrowing.BallThrower.UpdateAndDeliver | Assets/Scripts/BallThrower.cs:96-113 | A frame whose sent call is delivered at once to both peers leaves nothing queued. A frame that spends a point (`SpendsPoint`) takes this peer where one throw takes it (`Throw`), and the other peer applies the same call; any other frame leaves both counters and event logs untouched. The thrower's hold, buffer, ball position and gravity end as `Update` states |
| BallThrowing.BallThrower.Aim | Assets/Scripts/BallThrower.cs:116-139 | The first held frame only takes hold (gravity off) and records nothing. Each later held frame moves the ball to the pointer and pushes that position with `PushSample`. The buffer stays within 10 |
| BallThrowing.PushSample | Assets/Scripts/BallThrower.cs:129-136 | The new position is first and the earlier positions follow in order. The buffer grows by one while it holds fewer than 10; otherwise its single oldest position is dropped, so a buffer of at most 10 stays within 10 |
| BallThrowing.GetThrowMagnitude | Assets/Scripts/BallThrower.cs:214-232 | Fewer than two positions fail with a zero drag. Otherwise the drag is newest minus oldest, and the check passes exactly when its squared length is at least 0.25 squared |
| BallThrowing.MagnitudeGate | Assets/Scripts/BallThrower.cs:226 | For the non-negative length of a drag, "length < 0.25" and "squared length < 0.25 squared" agree |
| BallThrowing.ThrowThresholdExamples | Assets/Scripts/BallThrower.cs:220-227 | A drag of 0.8 passes the check; a drag of 0.2 fails, and so does a single position |
| BallThrowing.BallThrower.Shoot | Assets/Scripts/BallThrower.cs:141-162 | A release while holding always ends with no ball held and an empty buffer. A failed check puts the ball home and sends nothing; a passed one keeps the ball where it is for the physics, turns gravity on and sends exactly one call for the old counter minus one. Any other frame changes nothing |
| BallThrowing.BallThrower.ThrowBall | Assets/Scripts/BallThrower.cs:192-212 | A throw turns gravity on and spends a point through the public setter: the counter is untouched locally and exactly one call for the counter minus one is sent |
| BallThrowing.BallThrower.ConsiderReloading | Assets/Scripts/BallThrower.cs:164-166 | Reloading returns at once and changes nothing |
| BallThrowing.BallPositionFor | Assets/Scripts/BallThrower.cs:234-251 | The ball's depth stays at its home depth, its height is the pointer's height fraction mapped onto the Y range, and its X is the X fraction mapped onto the X range, mirrored (1 - fraction) for the second player |
| BallThrowing.BallThrower.SetBallPosition | Assets/Scripts/BallThrower.cs:234-251 | Moves the ball to `BallPositionFor` the pointer and touches nothing else |
| BallThrowing.AimIsMirrored | Assets/Scripts/BallThrower.cs:240-249 | Both players get the same height for a pointer. The second player's X equals the first player's X for the pointer mirrored across the screen. A centred pointer aims at the middle of the X range for both players |

## Left out

- Photon itself: connecting, joining rooms, `PhotonNetwork.Instantiate`, ownership requests (`Awake` of BallThrower.cs, NetworkController.cs). `isMine` and `isMyTurn` are inputs of `Update`. `Player` is not part of this model.
- Delivery timing: `PhotonTargets.All` runs the call on the sender at once, inside the setter. The model queues it in the sender's outbox, and `Broadcast` delivers it in order to both peers. The model matches the source only when each request is delivered before the sender's next one. The setter's no-op test and the `--` of a throw read the local counter, so requests left queued would all read the same stale value. `UpdateAndDeliver` delivers after every frame and keeps the outbox empty between frames. `Update`, `Shoot` and `ThrowBall` used alone do not.
- Event subscribers: the C# events are recorded as a log of notifications. What subscribers do (WizardController.cs's animations) is not modelled.
- Physics: velocity zeroing, `AddForce`, the force-vector arithmetic and its z-mirroring in `ThrowBall` (BallThrower.cs:197-209) feed Unity's physics engine and are not modelled. Only the gravity flag is kept, and the ball's position after a throw is whatever the engine makes it.
- Floating point: positions, the drag and the aim mapping are over the reals, so float rounding and `sqrt` are idealised away.
- Screen size: `Screen.width` and `Screen.height` are positive inputs. Input (button state, pointer position) is a parameter of each frame.
- 32-bit integers: the counter is an unbounded integer. Wrap-around of `numberOfActionsRemaining--` at the smallest `int` is not modelled. It cannot occur in play, because every delivered value leaves the counter positive and a counter in 1..3 stays there (`ThrowConsumesOnePoint`).
- The unreachable body of `ConsiderReloading` after its early `return`, the wand and particle system, the UI and debug logging and drawing are not modelled.
- A later design of the throw protocol describes a settle delay before the point is spent, clamping of the throw strength, a 0.05 threshold and a guard against a second pending throw. The code modelled here has none of them: it spends the point at once (BallThrower.cs:211) and uses 0.25 (BallThrower.cs:226), and the model follows the code.
