/** The turn and action-point state machine of the two-player game
    (Assets/Scripts/TurnController.cs).

    Every peer holds one controller. The public setter of the counter never
    writes it: it hands a `SetActionPoints` remote call to the transport,
    which delivers it to every peer, the sender included. The handler of
    that call is the only writer of the counter; when the stored value is
    not positive it flips the turn, and the flip resets the counter. */
module TurnControl {

  /** Action points a player gets at the start of each turn. */
  const ACTION_POINTS_PER_TURN: int := 3

  /** The two notifications the controller raises (`onActionPointsChange`,
      `onTurnChange`). */
  datatype Event = ActionPointsChanged | TurnChanged

  /** The one remote call of the protocol: `SetActionPoints(value)`. */
  datatype Message = SetActionPointsRpc(value: int)

  /** The replicated fields of one peer's controller. */
  datatype TurnState = TurnState(actionsRemaining: int, isFirstPlayersTurn: bool)

  /** A state with the notifications raised while reaching it, oldest first. */
  datatype Outcome = Outcome(state: TurnState, events: seq<Event>)

  /** The state a controller starts in. */
  function Initial(): (r: TurnState)
  {
    TurnState(ACTION_POINTS_PER_TURN, true)
  }

  /** What the public setter of the counter sends when asked for `value`:
      nothing when the counter already holds it, otherwise one broadcast
      of exactly that value. The local state is never part of the answer. */
  function Request(s: TurnState, value: int): (out: seq<Message>)
    ensures out == [] <==> value == s.actionsRemaining
    ensures |out| <= 1
    ensures forall m :: m in out ==> m.value == value
  {
    if s.actionsRemaining == value then [] else [SetActionPointsRpc(value)]
  }

  /** The guarded private setter of the turn owner. */
  function SetTurn(s: TurnState, value: bool): (r: Outcome)
    ensures r.state.isFirstPlayersTurn == value
    ensures value == s.isFirstPlayersTurn ==> r == Outcome(s, [])
    ensures value != s.isFirstPlayersTurn ==>
              r.state.actionsRemaining == ACTION_POINTS_PER_TURN && r.events == [TurnChanged]
  {
    if s.isFirstPlayersTurn == value then Outcome(s, [])
    else Outcome(TurnState(ACTION_POINTS_PER_TURN, value), [TurnChanged])
  }

  /** The remote-call handler `SetActionPoints(value)`: store the value,
      announce it, and hand the turn over once the counter is exhausted. */
  function Receive(s: TurnState, value: int): (r: Outcome)
    ensures r.state.actionsRemaining > 0
    ensures |r.events| >= 1 && r.events[0] == ActionPointsChanged
    ensures ActionPointsChanged !in r.events[1..]
    ensures value > 0 ==> r.state == TurnState(value, s.isFirstPlayersTurn) && r.events == [ActionPointsChanged]
    ensures value <= 0 ==>
              r.state == TurnState(ACTION_POINTS_PER_TURN, !s.isFirstPlayersTurn) &&
              r.events == [ActionPointsChanged, TurnChanged]
  {
    var stored := s.(actionsRemaining := value);
    if stored.actionsRemaining <= 0 then
      var flipped := SetTurn(stored, !stored.isFirstPlayersTurn);
      Outcome(flipped.state, [ActionPointsChanged] + flipped.events)
    else
      Outcome(stored, [ActionPointsChanged])
  }

  /** One peer's handler applied to a sequence of delivered calls, in order. */
  function Run(s: TurnState, msgs: seq<Message>): (r: Outcome)
    decreases |msgs|
  {
    if msgs == [] then Outcome(s, [])
    else
      var before := Run(s, msgs[..|msgs| - 1]);
      var last := Receive(before.state, msgs[|msgs| - 1].value);
      Outcome(last.state, before.events + last.events)
  }

  /** How many of the calls exhaust the counter (carry a value <= 0). */
  function ExhaustingCount(msgs: seq<Message>): (r: nat)
    decreases |msgs|
  {
    if msgs == [] then 0
    else ExhaustingCount(msgs[..|msgs| - 1]) + (if msgs[|msgs| - 1].value <= 0 then 1 else 0)
  }

  /** Delivering one more call continues from where the earlier ones left off. */
  lemma RunStep(s: TurnState, msgs: seq<Message>, m: Message)
    ensures var before := Run(s, msgs);
            var last := Receive(before.state, m.value);
            Run(s, msgs + [m]) == Outcome(last.state, before.events + last.events)
  {
    assert (msgs + [m])[..|msgs|] == msgs;
  }

  /** Every delivered call raises exactly one action-points notification,
      and a turn-change notification is raised once per exhausting call
      and at no other time. */
  lemma {:induction false} RunEventCounts(s: TurnState, msgs: seq<Message>)
    ensures multiset(Run(s, msgs).events)[ActionPointsChanged] == |msgs|
    ensures multiset(Run(s, msgs).events)[TurnChanged] == ExhaustingCount(msgs)
    decreases |msgs|
  {
    if msgs != [] {
      var init, m := msgs[..|msgs| - 1], msgs[|msgs| - 1];
      assert msgs == init + [m];
      RunEventCounts(s, init);
      RunStep(s, init, m);
      var before := Run(s, init);
      var last := Receive(before.state, m.value);
      assert multiset(Run(s, msgs).events) == multiset(before.events) + multiset(last.events);
      if m.value <= 0 {
        assert multiset(last.events) == multiset{ActionPointsChanged, TurnChanged};
      } else {
        assert multiset(last.events) == multiset{ActionPointsChanged};
      }
    }
  }

  /** The turn owner changes exactly when an odd number of the calls
      exhausted the counter, and the counter is positive after any
      non-empty delivery. */
  lemma {:induction false} RunTurnParity(s: TurnState, msgs: seq<Message>)
    ensures Run(s, msgs).state.isFirstPlayersTurn ==
              (s.isFirstPlayersTurn != (ExhaustingCount(msgs) % 2 == 1))
    ensures msgs != [] ==> Run(s, msgs).state.actionsRemaining > 0
    decreases |msgs|
  {
    if msgs != [] {
      var init, m := msgs[..|msgs| - 1], msgs[|msgs| - 1];
      assert msgs == init + [m];
      RunTurnParity(s, init);
      RunStep(s, init, m);
    }
  }

  /** Two peers that agree on whose turn it is end in the same state after
      any non-empty sequence of the same calls, whatever their counters
      were, and they raise the same notifications along the way. */
  lemma {:induction false} Converge(s: TurnState, t: TurnState, msgs: seq<Message>)
    requires s.isFirstPlayersTurn == t.isFirstPlayersTurn
    ensures Run(s, msgs).state.isFirstPlayersTurn == Run(t, msgs).state.isFirstPlayersTurn
    ensures msgs != [] ==> Run(s, msgs).state == Run(t, msgs).state
    ensures Run(s, msgs).events == Run(t, msgs).events
    decreases |msgs|
  {
    if msgs != [] {
      Converge(s, t, msgs[..|msgs| - 1]);
    }
  }

  /** Two peers that agree on the turn owner, and so in particular two
      peers in the same state, hold identical states after every call of a
      common sequence. */
  lemma AgreeAfterEveryCall(s: TurnState, t: TurnState, msgs: seq<Message>)
    requires s.isFirstPlayersTurn == t.isFirstPlayersTurn
    ensures forall k :: 0 < k <= |msgs| ==> Run(s, msgs[..k]).state == Run(t, msgs[..k]).state
  {
    forall k | 0 < k <= |msgs|
      ensures Run(s, msgs[..k]).state == Run(t, msgs[..k]).state
    {
      Converge(s, t, msgs[..k]);
    }
  }

  /** The round trip of one throw: the thrower asks for one action point
      less (the `numberOfActionsRemaining--` at the end of `ThrowBall`,
      Assets/Scripts/BallThrower.cs:211), and the resulting call is
      delivered. */
  function Throw(s: TurnState): (r: Outcome)
  {
    Run(s, Request(s, s.actionsRemaining - 1))
  }

  /** A throw always consumes a point; the last point hands the turn over
      with a fresh counter. The counter therefore stays in 1..3 during play. */
  lemma ThrowConsumesOnePoint(s: TurnState)
    ensures s.actionsRemaining > 1 ==>
              Throw(s) == Outcome(TurnState(s.actionsRemaining - 1, s.isFirstPlayersTurn), [ActionPointsChanged])
    ensures s.actionsRemaining <= 1 ==>
              Throw(s) == Outcome(TurnState(ACTION_POINTS_PER_TURN, !s.isFirstPlayersTurn), [ActionPointsChanged, TurnChanged])
    ensures 1 <= s.actionsRemaining <= ACTION_POINTS_PER_TURN ==>
              1 <= Throw(s).state.actionsRemaining <= ACTION_POINTS_PER_TURN
  {
    var m := SetActionPointsRpc(s.actionsRemaining - 1);
    assert Request(s, s.actionsRemaining - 1) == [] + [m];
    RunStep(s, [], m);
  }

  /** Three throws from a fresh turn flip the turn exactly once, on the
      third, and leave the other player with a full counter. */
  lemma ThreeThrowsFlipOnce(s: TurnState)
    requires s.actionsRemaining == ACTION_POINTS_PER_TURN
    ensures var first := Throw(s);
            var second := Throw(first.state);
            var third := Throw(second.state);
            third.state == TurnState(ACTION_POINTS_PER_TURN, !s.isFirstPlayersTurn) &&
            first.events + second.events + third.events ==
              [ActionPointsChanged, ActionPointsChanged, ActionPointsChanged, TurnChanged]
  {
    ThrowConsumesOnePoint(s);
    ThrowConsumesOnePoint(Throw(s).state);
    ThrowConsumesOnePoint(Throw(Throw(s).state).state);
  }

  /** Delivering 2, 1, 0 from the initial state: one flip, at 0, ending on
      the second player's turn with three actions. */
  lemma InitialScenario()
    ensures Run(Initial(), [SetActionPointsRpc(2), SetActionPointsRpc(1), SetActionPointsRpc(0)]) ==
              Outcome(TurnState(ACTION_POINTS_PER_TURN, false),
                      [ActionPointsChanged, ActionPointsChanged, ActionPointsChanged, TurnChanged])
  {
    var s := Initial();
    RunStep(s, [], SetActionPointsRpc(2));
    assert [] + [SetActionPointsRpc(2)] == [SetActionPointsRpc(2)];
    RunStep(s, [SetActionPointsRpc(2)], SetActionPointsRpc(1));
    assert [SetActionPointsRpc(2)] + [SetActionPointsRpc(1)] == [SetActionPointsRpc(2), SetActionPointsRpc(1)];
    RunStep(s, [SetActionPointsRpc(2), SetActionPointsRpc(1)], SetActionPointsRpc(0));
    assert [SetActionPointsRpc(2), SetActionPointsRpc(1)] + [SetActionPointsRpc(0)] ==
           [SetActionPointsRpc(2), SetActionPointsRpc(1), SetActionPointsRpc(0)];
  }

  /** One peer's controller. The two C# events are modelled by the log
      `events` of notifications raised; the transport by `outbox`, the
      calls this peer has broadcast and not yet handed on. */
  class TurnController {
    var actionsRemaining: int
    var isFirstPlayersTurn: bool
    var events: seq<Event>
    var outbox: seq<Message>

    function State(): (r: TurnState)
      reads this
    {
      TurnState(actionsRemaining, isFirstPlayersTurn)
    }

    constructor ()
      ensures State() == Initial()
      ensures events == [] && outbox == []
    {
      actionsRemaining := ACTION_POINTS_PER_TURN;
      isFirstPlayersTurn := true;
      events := [];
      outbox := [];
    }

    /** The public setter of `numberOfActionsRemaining`. */
    method SetNumberOfActionsRemaining(value: int)
      modifies this
      ensures State() == old(State()) && events == old(events)
      ensures outbox == old(outbox) + Request(old(State()), value)
    {
      if actionsRemaining == value {
        return;
      }
      outbox := outbox + [SetActionPointsRpc(value)];
    }

    /** The private setter of `isCurrentlyFirstPlayersTurn`. */
    method SetIsCurrentlyFirstPlayersTurn(value: bool)
      modifies this
      ensures State() == SetTurn(old(State()), value).state
      ensures events == old(events) + SetTurn(old(State()), value).events
      ensures outbox == old(outbox)
    {
      if isFirstPlayersTurn == value {
        return;
      }
      isFirstPlayersTurn := value;
      actionsRemaining := ACTION_POINTS_PER_TURN;
      events := events + [TurnChanged];
    }

    /** The remote-call handler, the only writer of the counter. */
    method SetActionPoints(value: int)
      modifies this
      ensures State() == Receive(old(State()), value).state
      ensures events == old(events) + Receive(old(State()), value).events
      ensures outbox == old(outbox)
    {
      actionsRemaining := value;
      events := events + [ActionPointsChanged];
      if actionsRemaining <= 0 {
        SetIsCurrentlyFirstPlayersTurn(!isFirstPlayersTurn);
      }
    }
  }

  /** One call delivered to both peers of the session. */
  method DeliverToBoth(sender: TurnController, other: TurnController, m: Message)
    requires sender != other
    modifies sender, other
    ensures sender.State() == Receive(old(sender.State()), m.value).state
    ensures sender.events == old(sender.events) + Receive(old(sender.State()), m.value).events
    ensures other.State() == Receive(old(other.State()), m.value).state
    ensures other.events == old(other.events) + Receive(old(other.State()), m.value).events
    ensures sender.outbox == old(sender.outbox) && other.outbox == old(other.outbox)
  {
    sender.SetActionPoints(m.value);
    other.SetActionPoints(m.value);
  }

  /** The transport's broadcast to all (`PhotonTargets.All`) in a session
      of two peers: every call the sender has queued is delivered, in send
      order, to the sender and to the other peer alike. */
  method Broadcast(sender: TurnController, other: TurnController)
    requires sender != other
    modifies sender, other
    ensures sender.outbox == [] && other.outbox == old(other.outbox)
    ensures sender.State() == Run(old(sender.State()), old(sender.outbox)).state
    ensures sender.events == old(sender.events) + Run(old(sender.State()), old(sender.outbox)).events
    ensures other.State() == Run(old(other.State()), old(sender.outbox)).state
    ensures other.events == old(other.events) + Run(old(other.State()), old(sender.outbox)).events
  {
    var msgs := sender.outbox;
    sender.outbox := [];
    ghost var s0, t0 := sender.State(), other.State();
    ghost var e0, f0 := sender.events, other.events;
    var i := 0;
    while i < |msgs|
      invariant 0 <= i <= |msgs|
      invariant sender.outbox == [] && other.outbox == old(other.outbox)
      invariant sender.State() == Run(s0, msgs[..i]).state
      invariant sender.events == e0 + Run(s0, msgs[..i]).events
      invariant other.State() == Run(t0, msgs[..i]).state
      invariant other.events == f0 + Run(t0, msgs[..i]).events
    {
      assert msgs[..i + 1] == msgs[..i] + [msgs[i]];
      RunStep(s0, msgs[..i], msgs[i]);
      RunStep(t0, msgs[..i], msgs[i]);
      DeliverToBoth(sender, other, msgs[i]);
      i := i + 1;
    }
    assert msgs[..|msgs|] == msgs;
  }
}
