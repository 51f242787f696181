/** A run in which a task gives up after its order has been accepted: what the order holds is given back, promised
    again, and owed twice after a restart. */
module LateReplies {
  import opened Contracts
  import opened EngineSpec
  import opened MapSums
  import opened OrderViews
  import opened LedgerModel
  import opened RiskModel
  import opened RiskSteps
  import opened RiskReplay
  import opened Gateway
  import opened GatewayRuns
  import opened LostReplies

  const FIRST := SubmitOrder(0, 1, 7, 1, BUY, GTC, 99, 1)
  const NEXT := SubmitOrder(0, 2, 7, 1, BUY, GTC, 99, 1)

  /** The first order, 100 at worst, is accepted, and the gateway has applied its acceptance. */
  const ACCEPTED: seq<Event> := OPENED + [Submit(0, FIRST)] + [RunScript(0)] + [Match] + [ApplyOutbound]

  /** Its task gives up, and the check lets a second order of 100 through, which is accepted too. */
  const AGAIN: seq<Event> :=
    ACCEPTED + [GiveUp(0)] + [Submit(1, NEXT)] + [RunScript(1)] + [Match] + [ApplyOutbound]

  /** The books with 100 in cash, this much committed, and these orders open. */
  function Holding(reserved: int, open: map<int, Reservation>): Risk {
    RICH.(reserved := map[7 := reserved], open := open)
  }

  function Taken(id: int): System {
    System([OPENING, FIRST], 2, 2, Holding(100, map[id := Reserving(FIRST)]),
           map[0 := Task(Reserving(FIRST), Landed, Some(id))], map[], {(7, 1)})
  }

  function Released(id: int): System {
    Taken(id).(risk := Holding(0, map[id := Reserving(FIRST)]), tasks := map[])
  }

  lemma FirstIsAffordable()
    ensures Affordable(RICH, FIRST)
    ensures Reserve(RICH, Reserving(FIRST))
      == RICH.(reserved := map[7 := 100], pending := map[(7, 1) := Reserving(FIRST)])
  {
    Costs();
    hide BuyCost;
  }

  lemma Accepting(r: Outbound)
    requires r.OrderAccepted? && ReservationOf(r) == Reserving(FIRST)
    ensures ApplyRecord(Reserve(RICH, Reserving(FIRST)), r) == Holding(100, map[r.orderId := Reserving(FIRST)])
  {
    FirstIsAffordable();
    assert map[(7, 1) := Reserving(FIRST)] - {(7, 1)} == map[];
    hide Reserve;
  }

  lemma FirstMatches(a: Aspect)
    ensures At(OPENED + [Submit(0, FIRST)] + [RunScript(0)] + [Match], Ran(FIRST).(answered := 2), a)
  {
    FirstIsAffordable();
    FirstRuns(FIRST, a);
    hide Run, Reserve, RejectReasonFor, StateAfter, NeverSpoiled, OPENED, Outbounds;
    OpeningAnswered(Ran(FIRST));
    Goes(OPENED + [Submit(0, FIRST)] + [RunScript(0)], Match, Ran(FIRST), a);
  }

  lemma FirstApplies(s: System, r: Outbound)
    requires s == Ran(FIRST).(answered := 2) && Typed(PLAIN, s) && |Outbounds(PLAIN, s)| == 2
    requires r == Outbounds(PLAIN, s)[1] && r.OrderAccepted? && ReservationOf(r) == Reserving(FIRST)
    ensures Enabled(PLAIN, s, ApplyOutbound) && Perform(PLAIN, s, ApplyOutbound) == Taken(r.orderId)
  {
    Accepting(r);
    hide Run, Reserve, Outbounds, ApplyRecord;
    assert AllHeld(s.risk, s.tasks, r) == map[0 := Task(Reserving(FIRST), Landed, Some(r.orderId))];
  }

  /** `GiveUp` may come now: the reservation is with the open order, untouched. */
  lemma FirstIsTaken(a: Aspect) returns (id: int)
    ensures At(ACCEPTED, Taken(id), a)
  {
    FirstMatches(a);
    FirstIsAffordable();
    var matched := Ran(FIRST).(answered := 2);
    FirstIsAnswered(matched, FIRST);
    var r := Outbounds(PLAIN, matched)[1];
    id := r.orderId;
    FirstApplies(matched, r);
    FirstAdopts(matched, r, a);
    hide Ran, Taken, Affordable, StateAfter, NeverSpoiled, OPENED, Outbounds, Perform, Enabled, Spoils;
    Goes(OPENED + [Submit(0, FIRST)] + [RunScript(0)] + [Match], ApplyOutbound, matched, a);
  }

  lemma FirstAdopts(s: System, r: Outbound, a: Aspect)
    requires s == Ran(FIRST).(answered := 2) && Typed(PLAIN, s) && |Outbounds(PLAIN, s)| == 2
    requires r == Outbounds(PLAIN, s)[1] && r.OrderAccepted? && ReservationOf(r) == Reserving(FIRST)
    ensures Enabled(PLAIN, s, ApplyOutbound) && !Spoils(PLAIN, s, ApplyOutbound, a)
  {
    FirstIsAffordable();
    hide Run, Outbounds, Reserve, RejectReasonFor;
  }

  lemma GivingUp(id: int)
    ensures GivenUp(Taken(id).risk, Taken(id).tasks[0]) == Holding(0, map[id := Reserving(FIRST)])
    ensures Drawn(Taken(id).risk, Reserving(FIRST)) == 100
  {
    Costs();
    hide BuyCost;
  }

  lemma SumOfOne(id: int, r: Reservation)
    ensures Sum(map[id := r], CashHeld(7)) == CashHeld(7)(r)
  {
    SumUpdate(map[], id, r, CashHeld(7));
    assert map[][id := r] == map[id := r];
  }

  /** Giving up frees what the open order holds. */
  lemma LateReplyUnbacks()
    ensures StateAfter(PLAIN, ACCEPTED).Some? && AlwaysRight(PLAIN, ACCEPTED, Everything)
    ensures var after := StateAfter(PLAIN, ACCEPTED + [GiveUp(0)]);
      && after.Some? && Get(after.value.risk.reserved, 7) == 0 && Sum(after.value.risk.open, CashHeld(7)) == 100
      && !AlwaysRight(PLAIN, ACCEPTED + [GiveUp(0)], Commitments)
  {
    hide StateAfter, NeverSpoiled, AlwaysRight, ACCEPTED, Sum, Outbounds, Right;
    var id := FirstIsTaken(Everything);
    RunIsExact(PLAIN, ACCEPTED, Everything);
    TakenIsTyped(id);
    GivingUp(id);
    var other := FirstIsTaken(Commitments);
    assert other == id by { hide Taken; TakenOnce(other, id); }
    Goes(ACCEPTED, GiveUp(0), Taken(id), Commitments);
    RunIsExact(PLAIN, ACCEPTED + [GiveUp(0)], Commitments);
    SumOfOne(id, Reserving(FIRST));
    Costs();
    hide BuyCost, GivenUp;
  }

  lemma TakenIsTyped(id: int)
    ensures Typed(PLAIN, Taken(id)) && Outbounds(PLAIN, Taken(id)) == Outbounds(PLAIN, Ran(FIRST).(answered := 2))
  {
    FirstIsAffordable();
    FirstIsAnswered(Ran(FIRST).(answered := 2), FIRST);
    hide Run, RejectReasonFor;
  }

  lemma TakenOnce(a: int, b: int)
    requires Reaches(PLAIN, ACCEPTED, Taken(a)) && Reaches(PLAIN, ACCEPTED, Taken(b))
    ensures a == b
  {
    assert Taken(a).tasks[0].order == Taken(b).tasks[0].order;
  }

  // ---- and promised again ----------------------------------------------------------------------------

  /** The second order has been asked for, and then its append has run and has been matched. */
  function Asking(id: int): System {
    Released(id).(risk := Holding(100, map[id := Reserving(FIRST)]).(pending := map[(7, 2) := Reserving(NEXT)]),
                  tasks := map[1 := Task(Reserving(NEXT), Sent, None)], queue := map[1 := NEXT])
  }

  function Running(id: int): System {
    Asking(id).(inbound := [OPENING, FIRST, NEXT], claimed := {(7, 1), (7, 2)}, queue := map[],
                tasks := map[1 := Task(Reserving(NEXT), Landed, None)])
  }

  lemma NextIsAffordable(id: int)
    ensures Affordable(Released(id).risk, NEXT)
    ensures Reserve(Released(id).risk, Reserving(NEXT)) == Asking(id).risk
  {
    Costs();
    hide BuyCost;
  }

  lemma NextAsks() returns (id: int)
    ensures At(ACCEPTED + [GiveUp(0)] + [Submit(1, NEXT)], Asking(id), Cover)
  {
    id := FirstIsTaken(Cover);
    hide StateAfter, NeverSpoiled, ACCEPTED, Outbounds, GivenUp, Reserve, RejectReasonFor;
    TakenIsTyped(id);
    GivingUp(id);
    Goes(ACCEPTED, GiveUp(0), Taken(id), Cover);
    assert Taken(id).tasks - {0} == map[];
    assert Perform(PLAIN, Taken(id), GiveUp(0)) == Released(id);
    NextIsAffordable(id);
    StillTyped(Taken(id), Released(id));
    Goes(ACCEPTED + [GiveUp(0)], Submit(1, NEXT), Released(id), Cover);
    assert Perform(PLAIN, Released(id), Submit(1, NEXT)) == Asking(id);
  }

  lemma StillTyped(s: System, s': System)
    requires Typed(PLAIN, s) && s.inbound <= s'.inbound && s'.answered == s.answered && s'.applied == s.applied
    ensures Typed(PLAIN, s') && Outbounds(PLAIN, s') == Outbounds(PLAIN, s)
  {
    assert s'.inbound[..s.answered] == s.inbound[..s.answered];
  }

  lemma NextRuns() returns (id: int)
    ensures At(ACCEPTED + [GiveUp(0)] + [Submit(1, NEXT)] + [RunScript(1)], Running(id), Cover)
  {
    id := NextAsks();
    hide StateAfter, NeverSpoiled, ACCEPTED, Outbounds, Reserve, RejectReasonFor;
    TakenIsTyped(id);
    StillTyped(Taken(id), Asking(id));
    Goes(ACCEPTED + [GiveUp(0)] + [Submit(1, NEXT)], RunScript(1), Asking(id), Cover);
    assert Asking(id).queue - {1} == map[];
    assert [OPENING, FIRST] + [NEXT] == [OPENING, FIRST, NEXT];
    assert {(7, 1)} + {(7, 2)} == {(7, 1), (7, 2)};
    assert Perform(PLAIN, Asking(id), RunScript(1)) == Running(id);
  }

  /** The second acceptance is the next record. */
  lemma NextIsAnswered(id: int)
    ensures var m := Running(id).(answered := 3); var out := Outbounds(PLAIN, m);
      && |out| >= 3 && out[2].OrderAccepted? && ReservationOf(out[2]) == Reserving(NEXT)
      && Typed(PLAIN, Running(id)) && Typed(PLAIN, m)
  {
    hide Run, RejectReasonFor, Outbounds, Apply, Good, AnswerTo, Affordable, Ran, ReservationOf;
    TwoAnswers(id);
    MatchExtends(PLAIN, Running(id), Running(id).(answered := 3));
    NextAnswer(Running(id));
  }

  lemma TwoAnswers(id: int)
    ensures Typed(PLAIN, Running(id)) && |Outbounds(PLAIN, Running(id))| == 2
  {
    FirstIsAffordable();
    FirstIsAnswered(Ran(FIRST).(answered := 2), FIRST);
    hide Run, RejectReasonFor, Outbounds, Affordable;
    TakenIsTyped(id);
    StillTyped(Taken(id), Running(id));
  }

  lemma NextAnswer(s: System)
    requires |s.inbound| > 2 && s.inbound[2] == NEXT && s.answered == 2
    ensures var out := AnswerTo(PLAIN, s);
      out != [] && out[0].OrderAccepted? && ReservationOf(out[0]) == Reserving(NEXT)
  {
    assert Good(Fresh(100));
    hide Run, Apply, Good;
    ValidIsAccepted(Naive, Run(Naive, Fresh(100), s.inbound[..2]).engine, NEXT);
  }

  /** Both orders are open now, and hold 200 of the 100. */
  ghost predicate HeldTwice(s: System) {
    && Get(s.risk.settled, 7) == 100 && Get(s.risk.reserved, 7) == 100 && CashHung(s.risk, 7)
    && Sum(s.risk.open, CashHeld(7)) == 200
  }

  lemma SumOfTwo(a: int, b: int, r: Reservation, t: Reservation)
    requires a != b
    ensures Sum(map[a := r][b := t], CashHeld(7)) == CashHeld(7)(r) + CashHeld(7)(t)
  {
    SumOfOne(a, r);
    SumUpdate(map[a := r], b, t, CashHeld(7));
  }

  lemma AcceptingNext(id: int, r: Outbound)
    requires r.OrderAccepted? && ReservationOf(r) == Reserving(NEXT)
    ensures ApplyRecord(Asking(id).risk, r) == Holding(100, map[id := Reserving(FIRST)][r.orderId := Reserving(NEXT)])
  {
    assert map[(7, 2) := Reserving(NEXT)] - {(7, 2)} == map[];
  }

  lemma NextIsTaken() returns (s: System)
    ensures At(AGAIN, s, Cover) && HeldTwice(s) && Typed(PLAIN, s)
  {
    var id := NextRuns();
    hide StateAfter, NeverSpoiled, ACCEPTED, Outbounds, ApplyRecord, AllHeld, Sum, RejectReasonFor, Inv;
    NextIsAnswered(id);
    var m := Running(id).(answered := 3);
    var events := ACCEPTED + [GiveUp(0)] + [Submit(1, NEXT)] + [RunScript(1)];
    MatchGoes(events, id);
    var r := Outbounds(PLAIN, m)[2];
    AcceptingNext(id, r);
    assert Enabled(PLAIN, m, ApplyOutbound) && !Spoils(PLAIN, m, ApplyOutbound, Cover);
    Goes(events + [Match], ApplyOutbound, m, Cover);
    s := Perform(PLAIN, m, ApplyOutbound);
    ReachableIsSound(PLAIN, events + [Match], m);
    RunIsExact(PLAIN, events + [Match], Cover);
    IdsDiffer(m, id, r);
    SumOfTwo(id, r.orderId, Reserving(FIRST), Reserving(NEXT));
    Costs();
    hide BuyCost;
    ReachableIsSound(PLAIN, AGAIN, s);
    SoundIsTyped(s);
  }

  lemma SoundIsTyped(s: System)
    requires Inv(PLAIN, s)
    ensures Typed(PLAIN, s)
  {
  }

  lemma MatchGoes(events: seq<Event>, id: int)
    requires At(events, Running(id), Cover) && Typed(PLAIN, Running(id))
    ensures At(events + [Match], Running(id).(answered := 3), Cover)
  {
    hide StateAfter, NeverSpoiled, Outbounds;
    Goes(events, Match, Running(id), Cover);
  }

  /** The first order is still open, so the second has another id. */
  lemma IdsDiffer(m: System, id: int, r: Outbound)
    requires Inv(PLAIN, m) && m == Running(id).(answered := 3) && m.applied < |Outbounds(PLAIN, m)|
    requires Right(PLAIN, m, Cover) && r == Outbounds(PLAIN, m)[m.applied] && r.OrderAccepted?
    ensures r.orderId != id
  {
    hide Run, Outbounds, Seen, ApplyAll, Fold, Solvent;
    NextRecord(PLAIN, m);
    assert id in m.risk.open.Keys;
  }

  /** A restart counts both, and 200 of the 100 are committed. */
  lemma LateReplyOverhangs()
    ensures StateAfter(PLAIN, AGAIN).Some? && AlwaysRight(PLAIN, AGAIN, Cover)
    ensures HeldTwice(StateAfter(PLAIN, AGAIN).value)
    ensures StateAfter(PLAIN, AGAIN + [Restart]).Some? && !AlwaysRight(PLAIN, AGAIN + [Restart], Cover)
  {
    hide StateAfter, NeverSpoiled, AlwaysRight, AGAIN, Outbounds, Sum, CashHung, Replay, Right;
    var s := NextIsTaken();
    Goes(AGAIN, Restart, s, Cover);
    RunIsExact(PLAIN, AGAIN, Cover);
    RunIsExact(PLAIN, AGAIN + [Restart], Cover);
  }
}
