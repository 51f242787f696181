/** Three runs that spoil the gateway's books. One task gives up while its order waits, one after the order has been
    accepted, and one before its append has run. */
module LostReplies {
  import opened Contracts
  import opened PriceTime
  import opened EngineSpec
  import opened MapSums
  import opened RiskModel
  import opened Gateway
  import opened GatewayRuns

  const PLAIN := Config(Naive, 100, {})
  const OPENING := CreateAccount(0, 9, 7)
  const RICH := FRESH.(settled := map[7 := 100])

  ghost predicate At(events: seq<Event>, s: System, a: Aspect) {
    Reaches(PLAIN, events, s) && NeverSpoiled(PLAIN, events, a)
  }

  lemma Goes(events: seq<Event>, e: Event, s: System, a: Aspect)
    requires At(events, s, a) && Typed(PLAIN, s) && Enabled(PLAIN, s, e)
    ensures Reaches(PLAIN, events + [e], Perform(PLAIN, s, e))
    ensures NeverSpoiled(PLAIN, events + [e], a) <==> !Spoils(PLAIN, s, e, a)
  {
    hide Typed, Enabled, Perform, Spoils;
    assert (events + [e])[..|events|] == events;
  }

  lemma OpeningAnswered(s: System)
    requires |s.inbound| >= 1 && s.inbound[..1] == [OPENING] && s.answered == 1
    ensures Outbounds(PLAIN, s) == [AccountCreated(0, 9, 7, 100)]
  {
    assert Run(Naive, Fresh(100), []).out == [];
    assert [OPENING][..0] == [];
  }

  lemma NothingAnswered(s: System)
    requires s.answered == 0
    ensures Outbounds(PLAIN, s) == []
  {
    assert s.inbound[..0] == [];
  }

  // ---- an account with 100 in cash, and a first order ----------------------------------------------

  const OPENED: seq<Event> := [] + [Other(OPENING)] + [Match] + [ApplyOutbound]

  function Rich(): System {
    System([OPENING], 1, 1, RICH, map[], map[], {})
  }

  lemma AccountOpens(a: Aspect)
    ensures At(OPENED, Rich(), a)
  {
    hide Run;
    assert At([], Start(), a);
    NothingAnswered(Start());
    Goes([], Other(OPENING), Start(), a);
    var ready := System([OPENING], 0, 0, FRESH, map[], map[], {});
    assert Perform(PLAIN, Start(), Other(OPENING)) == ready;
    NothingAnswered(ready);
    Goes([] + [Other(OPENING)], Match, ready, a);
    OpeningAnswered(ready.(answered := 1));
    Goes([] + [Other(OPENING)] + [Match], ApplyOutbound, ready.(answered := 1), a);
  }

  /** User 7's submit, which the check lets through. */
  predicate Affordable(k: Risk, r: Inbound) {
    r.SubmitOrder? && Passes(r) && r.user == 7 && r.side == BUY && r.tif == GTC
    && RejectReasonFor(k, {}, Reserving(r)) == None
  }

  function Asked(r: Inbound): System
    requires r.SubmitOrder?
  {
    System([OPENING], 1, 1, Reserve(RICH, Reserving(r)), map[0 := Task(Reserving(r), Sent, None)], map[0 := r], {})
  }

  lemma FirstAsks(r: Inbound, a: Aspect)
    requires Affordable(RICH, r)
    ensures At(OPENED + [Submit(0, r)], Asked(r), a)
  {
    AccountOpens(a);
    hide Run, Reserve, RejectReasonFor, StateAfter, NeverSpoiled, OPENED;
    OpeningAnswered(Rich());
    Goes(OPENED, Submit(0, r), Rich(), a);
    assert map[][0 := Task(Reserving(r), Sent, None)] == map[0 := Task(Reserving(r), Sent, None)];
    assert Perform(PLAIN, Rich(), Submit(0, r)) == Asked(r);
  }

  /** The append has run. */
  function Ran(r: Inbound): System
    requires r.SubmitOrder?
  {
    System([OPENING, r], 1, 1, Reserve(RICH, Reserving(r)), map[0 := Task(Reserving(r), Landed, None)], map[],
      {KeyOf(r)})
  }

  lemma FirstRuns(r: Inbound, a: Aspect)
    requires Affordable(RICH, r)
    ensures At(OPENED + [Submit(0, r)] + [RunScript(0)], Ran(r), a)
  {
    FirstAsks(r, a);
    hide Run, Reserve, RejectReasonFor, StateAfter, NeverSpoiled, OPENED;
    OpeningAnswered(Asked(r));
    Goes(OPENED + [Submit(0, r)], RunScript(0), Asked(r), a);
    assert map[0 := r] - {0} == map[];
    assert Perform(PLAIN, Asked(r), RunScript(0)) == Ran(r);
  }

  lemma FirstIsAnswered(s: System, r: Inbound)
    requires Affordable(RICH, r) && |s.inbound| >= 2 && s.inbound[..2] == [OPENING, r] && s.answered == 2
    ensures var out := Outbounds(PLAIN, s);
      |out| == 2 && out[1].OrderAccepted? && ReservationOf(out[1]) == Reserving(r)
  {
    assert Good(Fresh(100));
    var e := Run(Naive, Fresh(100), [OPENING]).engine;
    assert [OPENING] + [r] == [OPENING, r];
    RunOne(Naive, Fresh(100), [OPENING], r);
    ValidIsAccepted(Naive, e, r);
    EmptyBook();
    RestsAlone(Naive, e, r);
    OpeningAnswered(s.(answered := 1));
    assert s.inbound[..1] == [OPENING];
    hide Run, Apply, Good;
  }

  lemma EmptyBook()
    ensures Run(Naive, Fresh(100), [OPENING]).engine.live == map[]
  {
    assert [OPENING][..0] == [];
  }

  /** In an empty book an order rests without trading. */
  lemma RestsAlone(d: Dialect, e: Engine, r: Inbound)
    requires Good(e) && e.live == map[] && r.SubmitOrder? && Passes(r) && r.tif == GTC
    ensures |Apply(d, e, r).out| == 1
  {
    var arrived := e.live[e.next := OrderFrom(r)];
    forall id ensures id !in Candidates(arrived, e.next) {}
    assert Candidates(arrived, e.next) == {};
    hide Good, Open;
  }

  lemma Costs()
    ensures BuyCost(50, 1) == 51 && BuyCost(99, 1) == 100 && BuyCost(10, 1) == 11
  {
    assert FeePerUnit(50) == 1 && FeePerUnit(99) == 1 && FeePerUnit(10) == 1;
  }

  // ---- giving up while the order waits ---------------------------------------------------------------

  const LOST := SubmitOrder(0, 1, 7, 1, BUY, GTC, 50, 1)
  const SECOND := SubmitOrder(0, 2, 7, 1, BUY, GTC, 50, 1)

  /** The reply is lost, and the cash, 51 at worst, is given back, so the check lets a second order through. */
  const BEFORE: seq<Event> :=
    OPENED + [Submit(0, LOST)] + [RunScript(0)] + [GiveUp(0)] + [Submit(1, SECOND)] + [Match]

  function Told(): Risk {
    Abandon(Reserve(RICH, Reserving(LOST)), Reserving(LOST))
  }

  function Orphan(): System {
    System([OPENING, LOST], 1, 1, Told(), map[], map[], {(7, 1)})
  }

  function AskedAgain(): System {
    Orphan().(risk := Reserve(Told(), Reserving(SECOND)), tasks := map[1 := Task(Reserving(SECOND), Sent, None)],
              queue := map[1 := SECOND])
  }

  lemma ToldIs()
    ensures Told() == RICH.(reserved := map[7 := 0])
    ensures Affordable(RICH, LOST) && Affordable(Told(), SECOND)
  {
    Costs();
    hide BuyCost;
    assert (map[])[(7, 1) := Reserving(LOST)] - {(7, 1)} == map[];
  }

  lemma OrphanIsLeft(a: Aspect)
    ensures At(OPENED + [Submit(0, LOST)] + [RunScript(0)] + [GiveUp(0)], Orphan(), a)
  {
    ToldIs();
    FirstRuns(LOST, a);
    hide Run, Reserve, Abandon, RejectReasonFor, StateAfter, NeverSpoiled, OPENED;
    OpeningAnswered(Ran(LOST));
    Goes(OPENED + [Submit(0, LOST)] + [RunScript(0)], GiveUp(0), Ran(LOST), a);
    assert map[0 := Task(Reserving(LOST), Landed, None)] - {0} == map[];
    assert Perform(PLAIN, Ran(LOST), GiveUp(0)) == Orphan();
  }

  lemma ReplyLost(a: Aspect)
    ensures At(OPENED + [Submit(0, LOST)] + [RunScript(0)] + [GiveUp(0)] + [Submit(1, SECOND)], AskedAgain(), a)
  {
    ToldIs();
    OrphanIsLeft(a);
    assert Told().pending == map[];
    hide Run, Reserve, Told, RejectReasonFor, StateAfter, NeverSpoiled, OPENED;
    OpeningAnswered(Orphan());
    Goes(OPENED + [Submit(0, LOST)] + [RunScript(0)] + [GiveUp(0)], Submit(1, SECOND), Orphan(), a);
    assert Perform(PLAIN, Orphan(), Submit(1, SECOND)) == AskedAgain();
  }

  lemma LostIsAnswered(a: Aspect)
    ensures At(BEFORE, AskedAgain().(answered := 2), a)
  {
    hide Run, Told, Reserve, StateAfter, NeverSpoiled, Apply, OPENED;
    ReplyLost(a);
    OpeningAnswered(AskedAgain());
    Goes(OPENED + [Submit(0, LOST)] + [RunScript(0)] + [GiveUp(0)] + [Submit(1, SECOND)], Match, AskedAgain(), a);
  }

  lemma SecondCommitment(r: Outbound)
    requires r.OrderAccepted? && ReservationOf(r) == Reserving(LOST)
    ensures var k := Reserve(Told(), Reserving(SECOND)); var after := ApplyRecord(k, r);
      && RejectReasonFor(k, {}, ReservationOf(r)) != None && (r.user, r.client) !in k.pending
      && Get(after.settled, 7) == 100 && Get(after.reserved, 7) == 102
  {
    Costs();
    ToldIs();
    hide BuyCost, Told;
  }

  lemma LastStep()
    ensures var m := AskedAgain().(answered := 2);
      Typed(PLAIN, m) && Enabled(PLAIN, m, ApplyOutbound) && Overcommits(PLAIN, m, ApplyOutbound)
    ensures var k := Perform(PLAIN, AskedAgain().(answered := 2), ApplyOutbound).risk;
      Get(k.settled, 7) == 100 && Get(k.reserved, 7) == 102
  {
    hide Run, Told, Reserve, ApplyRecord, RejectReasonFor, Outbounds, Get, ReservationOf;
    ToldIs();
    FirstIsAnswered(AskedAgain().(answered := 2), LOST);
    SecondCommitment(Outbounds(PLAIN, AskedAgain().(answered := 2))[1]);
  }

  /** Applying the lost order's acceptance then commits 102 of the 100. */
  lemma LostReplyOvercommits()
    ensures StateAfter(PLAIN, BEFORE).Some? && AlwaysRight(PLAIN, BEFORE, Everything)
    ensures var after := StateAfter(PLAIN, BEFORE + [ApplyOutbound]);
      && after.Some? && Get(after.value.risk.settled, 7) == 100 && Get(after.value.risk.reserved, 7) == 102
      && !AlwaysRight(PLAIN, BEFORE + [ApplyOutbound], Everything)
  {
    hide Perform, AskedAgain, Overcommits, Enabled, Typed, StateAfter, AlwaysRight, NeverSpoiled, Get, BEFORE;
    LostIsAnswered(Everything);
    LastStep();
    Goes(BEFORE, ApplyOutbound, AskedAgain().(answered := 2), Everything);
    RunIsExact(PLAIN, BEFORE, Everything);
    RunIsExact(PLAIN, BEFORE + [ApplyOutbound], Everything);
  }
}
