/** What becomes of the actions that a reestablishment plans, when the Lightning channel
    is not usable at first: they wait, and none of them gets lost. */
module SubChannelActions {

  import opened Results
  import opened ChannelTypes
  import opened SubChannels

  /** The actions that need a usable channel. */
  predicate Waits(a: Action) {
    a.ReAccept? || a.ForceSign? || a.ReAcceptCloseOffer?
  }

  function Waiting(actions: seq<Action>): seq<Action> {
    if actions == [] then []
    else
      var last := |actions| - 1;
      Waiting(actions[..last]) + (if Waits(actions[last]) then [actions[last]] else [])
  }

  /** The message that an action sends at once. */
  function Resent(a: Action): seq<SubMessage> {
    match a
    case ResendOffer(point, terms) => [Offer(point, terms)]
    case ResendCloseOffer(acceptBalance) => [SubMessage.CloseOffer(acceptBalance)]
    case ResendCloseFinalize(secret) => [CloseFinalize(secret, false)]
    case _ => []
  }

  function AllResent(actions: seq<Action>): seq<SubMessage> {
    if actions == [] then [] else AllResent(actions[..|actions| - 1]) + Resent(actions[|actions| - 1])
  }

  // ---- Processing while the channel is not usable ----

  lemma OneMore(actions: seq<Action>, count: nat)
    requires 0 < count <= |actions|
    ensures var a := actions[count - 1];
            && Waiting(actions[..count]) == Waiting(actions[..count - 1]) + (if Waits(a) then [a] else [])
            && AllResent(actions[..count]) == AllResent(actions[..count - 1]) + Resent(a)
  {
    assert actions[..count][..count - 1] == actions[..count - 1];
  }

  lemma UnusablePerform(n: SubNode, a: Action)
    ensures Perform(n, a, false) == (n, Resent(a), Waits(a))
  {
  }

  lemma {:induction false} UnusableRound(n: SubNode, actions: seq<Action>, count: nat)
    requires count <= |actions|
    ensures PerformAll(n, actions, count, false) == (n, AllResent(actions[..count]), Waiting(actions[..count]))
  {
    if count > 0 {
      UnusableRound(n, actions, count - 1);
      OneMore(actions, count);
      UnusablePerform(n, actions[count - 1]);
      if !Waits(actions[count - 1]) {
        assert Waiting(actions[..count - 1]) + [] == Waiting(actions[..count - 1]);
      }
    }
  }

  /** An unusable channel leaves the party alone, sends what needs no channel, and keeps
      the other actions in order. */
  lemma UnusableOnlyWaits(n: SubNode)
    ensures ProcessActions(n, false) == (n.(actions := Waiting(n.actions)), AllResent(n.actions))
  {
    UnusableRound(n.(actions := []), n.actions, |n.actions|);
    assert n.actions[..|n.actions|] == n.actions;
  }

  // ---- Processing afterwards ----

  lemma {:induction false} PerformPrefix(n: SubNode, actions: seq<Action>, more: seq<Action>, count: nat, usable: bool)
    requires count <= |actions|
    ensures PerformAll(n, actions + more, count, usable) == PerformAll(n, actions, count, usable)
  {
    if count > 0 {
      PerformPrefix(n, actions, more, count - 1, usable);
      assert (actions + more)[count - 1] == actions[count - 1];
    }
  }

  /** An action that does not wait does nothing but send its message. */
  lemma ResentAtOnce(n: SubNode, a: Action)
    requires !Waits(a)
    ensures Perform(n, a, true) == (n, Resent(a), false)
  {
  }

  predicate SameOutcome(late: (SubNode, seq<SubMessage>, seq<Action>), once: (SubNode, seq<SubMessage>, seq<Action>),
                        early: seq<SubMessage>)
  {
    late.0 == once.0 && late.2 == once.2 && multiset(early) + multiset(late.1) == multiset(once.1)
  }

  /** One action that waits, at the end of both lists. */
  lemma OutcomeExtended(late: (SubNode, seq<SubMessage>, seq<Action>), once: (SubNode, seq<SubMessage>, seq<Action>),
                        early: seq<SubMessage>, a: Action)
    requires SameOutcome(late, once, early)
    ensures var (after, messages, kept) := Perform(once.0, a, true);
            SameOutcome((after, late.1 + messages, if kept then late.2 + [a] else late.2),
                        (after, once.1 + messages, if kept then once.2 + [a] else once.2), early)
  {
  }

  lemma PerformLast(n: SubNode, actions: seq<Action>, count: nat, usable: bool)
    requires 0 < count <= |actions|
    ensures var before, a := PerformAll(n, actions, count - 1, usable), actions[count - 1];
            var (after, messages, kept) := Perform(before.0, a, usable);
            PerformAll(n, actions, count, usable) ==
            (after, before.1 + messages, if kept then before.2 + [a] else before.2)
  {
  }

  lemma WaitsLast(n: SubNode, actions: seq<Action>, count: nat, waiting: seq<Action>, early: seq<SubMessage>)
    requires 0 < count <= |actions| && Waits(actions[count - 1])
    requires SameOutcome(PerformAll(n, waiting, |waiting|, true), PerformAll(n, actions, count - 1, true), early)
    ensures SameOutcome(PerformAll(n, waiting + [actions[count - 1]], |waiting| + 1, true),
                        PerformAll(n, actions, count, true), early)
  {
    var a := actions[count - 1];
    OutcomeExtended(PerformAll(n, waiting, |waiting|, true), PerformAll(n, actions, count - 1, true), early, a);
    PerformLast(n, actions, count, true);
    PerformPrefix(n, waiting, [a], |waiting|, true);
    PerformLast(n, waiting + [a], |waiting| + 1, true);
  }

  lemma SendsLast(n: SubNode, actions: seq<Action>, count: nat, waiting: seq<Action>, early: seq<SubMessage>)
    requires 0 < count <= |actions| && !Waits(actions[count - 1])
    requires SameOutcome(PerformAll(n, waiting, |waiting|, true), PerformAll(n, actions, count - 1, true), early)
    ensures SameOutcome(PerformAll(n, waiting, |waiting|, true), PerformAll(n, actions, count, true),
                        early + Resent(actions[count - 1]))
  {
    var once := PerformAll(n, actions, count - 1, true);
    PerformLast(n, actions, count, true);
    ResentAtOnce(once.0, actions[count - 1]);
  }

  lemma {:induction false} WaitingComesLater(n: SubNode, actions: seq<Action>, count: nat)
    requires count <= |actions|
    ensures var waiting := Waiting(actions[..count]);
            SameOutcome(PerformAll(n, waiting, |waiting|, true), PerformAll(n, actions, count, true),
                        AllResent(actions[..count]))
  {
    if count > 0 {
      var waiting, early := Waiting(actions[..count - 1]), AllResent(actions[..count - 1]);
      WaitingComesLater(n, actions, count - 1);
      OneMore(actions, count);
      if Waits(actions[count - 1]) {
        WaitsLast(n, actions, count, waiting, early);
        assert early + Resent(actions[count - 1]) == early;
      } else {
        SendsLast(n, actions, count, waiting, early);
        assert waiting + [] == waiting;
      }
    }
  }

  /** Processing the actions while the channel is not usable and then again while it is
      comes to the same, with the same messages in total, as processing them once. */
  lemma WaitingIsHarmless(n: SubNode)
    ensures var (waiting, early) := ProcessActions(n, false);
            var (done, late) := ProcessActions(waiting, true);
            var (once, all) := ProcessActions(n, true);
            done == once && multiset(early) + multiset(late) == multiset(all)
  {
    UnusableOnlyWaits(n);
    WaitingComesLater(n.(actions := []), n.actions, |n.actions|);
    assert n.actions[..|n.actions|] == n.actions;
  }

  // ---- Any number of rounds ----

  /** So many rounds while the channel is not usable, and one when it is. */
  function Rounds(n: SubNode, unusable: nat): (SubNode, seq<SubMessage>)
    decreases unusable
  {
    if unusable == 0 then ProcessActions(n, true)
    else
      var (waiting, early) := ProcessActions(n, false);
      var (done, late) := Rounds(waiting, unusable - 1);
      (done, early + late)
  }

  lemma RoundsUnfold(n: SubNode, unusable: nat)
    requires unusable > 0
    ensures var waiting := ProcessActions(n, false).0;
            && Rounds(n, unusable).0 == Rounds(waiting, unusable - 1).0
            && multiset(Rounds(n, unusable).1) ==
               multiset(ProcessActions(n, false).1) + multiset(Rounds(waiting, unusable - 1).1)
  {
  }

  lemma {:induction false} RoundsComeToOne(n: SubNode, unusable: nat)
    ensures Rounds(n, unusable).0 == ProcessActions(n, true).0
    ensures multiset(Rounds(n, unusable).1) == multiset(ProcessActions(n, true).1)
    decreases unusable
  {
    if unusable > 0 {
      var waiting := ProcessActions(n, false).0;
      RoundsUnfold(n, unusable);
      RoundsComeToOne(waiting, unusable - 1);
      WaitingIsHarmless(n);
    }
  }

  /** All wait or none does, as after a reestablishment with no actions left before. */
  predicate Uniform(actions: seq<Action>) {
    (forall a | a in actions :: Waits(a)) || (forall a | a in actions :: !Waits(a))
  }

  lemma {:induction false} AllWait(actions: seq<Action>, count: nat)
    requires count <= |actions| && forall a | a in actions :: Waits(a)
    ensures Waiting(actions[..count]) == actions[..count] && AllResent(actions[..count]) == []
  {
    if count > 0 {
      AllWait(actions, count - 1);
      OneMore(actions, count);
      assert Waits(actions[count - 1]);
    }
  }

  lemma {:induction false} NoneWaits(n: SubNode, actions: seq<Action>, count: nat)
    requires count <= |actions| && forall a | a in actions :: !Waits(a)
    ensures Waiting(actions[..count]) == []
    ensures PerformAll(n, actions, count, true) == (n, AllResent(actions[..count]), [])
  {
    if count > 0 {
      NoneWaits(n, actions, count - 1);
      OneMore(actions, count);
      ResentAtOnce(n, actions[count - 1]);
      PerformLast(n, actions, count, true);
    }
  }

  lemma {:induction false} NothingToDo(n: SubNode, unusable: nat)
    requires n.actions == []
    ensures Rounds(n, unusable) == (n, [])
    decreases unusable
  {
    assert n.(actions := []) == n;
    if unusable > 0 {
      UnusableOnlyWaits(n);
      assert ProcessActions(n, false) == (n, []);
      NothingToDo(n, unusable - 1);
      var none: seq<SubMessage> := [];
      assert Rounds(n, unusable) == (n, none + none);
      assert none + none == none;
    } else {
      assert Rounds(n, unusable) == ProcessActions(n, true);
      assert ProcessActions(n, true) == (n, []);
    }
  }

  /** Then the messages even come in the same order. */
  lemma {:induction false} UniformRounds(n: SubNode, unusable: nat)
    requires Uniform(n.actions)
    ensures Rounds(n, unusable) == ProcessActions(n, true)
    decreases unusable
  {
    if unusable > 0 {
      var actions, idle := n.actions, n.(actions := []);
      UnusableOnlyWaits(n);
      assert actions[..|actions|] == actions;
      if forall a | a in actions :: Waits(a) {
        AllWait(actions, |actions|);
        assert ProcessActions(n, false) == (n, []);
        UniformRounds(n, unusable - 1);
        assert [] + Rounds(n, unusable - 1).1 == Rounds(n, unusable - 1).1;
      } else {
        NoneWaits(idle, actions, |actions|);
        assert ProcessActions(n, false) == (idle, AllResent(actions));
        NothingToDo(idle, unusable - 1);
        assert AllResent(actions) + [] == AllResent(actions);
      }
    }
  }

  lemma PlansUniformly(n: SubNode, peer: Option<Flag>)
    requires n.actions == [] && Reestablish(n, peer).Ok?
    ensures Uniform(Reestablish(n, peer).value.actions)
  {
  }

  // ---- No action gets lost ----

  function Signs(before: SubNode, after: SubNode): nat {
    if before.sub.Some? && before.sub.value.state.Finalized? && after.sub.Some? && after.sub.value.state.SignedState?
    then 1 else 0
  }

  /** Whether a sub channel is on its way to be marked as signed. */
  predicate Signing(before: SubNode, after: SubNode) {
    var was := before.sub.Some? && before.sub.value.state.Finalized?;
    && (after.sub.Some? && after.sub.value.state.Finalized? ==> was)
    && (was ==> after.sub.Some? && (after.sub.value.state.Finalized? || after.sub.value.state.SignedState?))
  }

  lemma PerformAccounts(n: SubNode, before: SubNode, a: Action, usable: bool)
    requires Signing(n, before)
    ensures var (after, messages, kept) := Perform(before, a, usable);
            && Signing(n, after) && (kept ==> Waits(a))
            && |messages| + (if kept then 1 else 0) + Signs(n, after) == Signs(n, before) + 1
  {
  }

  lemma {:induction false} Accounts(n: SubNode, actions: seq<Action>, count: nat, usable: bool)
    requires count <= |actions|
    ensures var (after, messages, kept) := PerformAll(n, actions, count, usable);
            && Signing(n, after) && |messages| + |kept| + Signs(n, after) == count
            && (forall a | a in kept :: a in actions[..count] && Waits(a))
  {
    if count > 0 {
      Accounts(n, actions, count - 1, usable);
      var (before, messages, kept) := PerformAll(n, actions, count - 1, usable);
      PerformLast(n, actions, count, usable);
      PerformAccounts(n, before, actions[count - 1], usable);
      assert actions[..count] == actions[..count - 1] + [actions[count - 1]];
    }
  }

  /** Each action is accounted for: it is kept, or it has sent its message, or it has
      marked the sub channel as signed. What is kept needs a usable channel. */
  lemma NothingDropped(n: SubNode, usable: bool)
    ensures var (after, messages) := ProcessActions(n, usable);
            && |messages| + |after.actions| + Signs(n, after) == |n.actions|
            && (forall a | a in after.actions :: a in n.actions && Waits(a))
  {
    Accounts(n.(actions := []), n.actions, |n.actions|, usable);
    assert n.actions[..|n.actions|] == n.actions;
  }
}
