/** A run in which a task gives up before its append has run, and a retry under the same key asks for another order:
    the first order is accepted and adopts the retry's reservation. */
module StrayAppends {
  import opened Contracts
  import opened EngineSpec
  import opened RiskModel
  import opened Gateway
  import opened GatewayRuns
  import opened LostReplies

  /** The retry bids 10 where the first order bid 50. */
  const RETRY := SubmitOrder(0, 1, 7, 1, BUY, GTC, 10, 1)

  const STRAY: seq<Event> := OPENED + [Submit(0, LOST)] + [GiveUp(0)] + [Submit(1, RETRY)] + [RunScript(0)] + [Match]

  function Retried(): System {
    System([OPENING], 1, 1, Reserve(Told(), Reserving(RETRY)), map[1 := Task(Reserving(RETRY), Sent, None)],
           map[0 := LOST, 1 := RETRY], {})
  }

  function Strayed(): System {
    Retried().(inbound := [OPENING, LOST], queue := map[1 := RETRY], claimed := {(7, 1)})
  }

  lemma RetryIsAffordable()
    ensures Affordable(RICH, LOST) && Affordable(Told(), RETRY)
    ensures Told().pending == map[]
  {
    ToldIs();
    Costs();
    hide BuyCost, Told;
  }

  function GaveUp(): System {
    Asked(LOST).(risk := Told(), tasks := map[])
  }

  lemma EarlyGiveUp(a: Aspect)
    ensures At(OPENED + [Submit(0, LOST)] + [GiveUp(0)], GaveUp(), a)
  {
    RetryIsAffordable();
    FirstAsks(LOST, a);
    hide Run, Reserve, Abandon, RejectReasonFor, StateAfter, NeverSpoiled, OPENED;
    var asked := Asked(LOST);
    OpeningAnswered(asked);
    Goes(OPENED + [Submit(0, LOST)], GiveUp(0), asked, a);
    assert asked.tasks - {0} == map[];
    assert Perform(PLAIN, asked, GiveUp(0)) == GaveUp();
  }

  lemma StrayIsQueued(a: Aspect)
    ensures At(OPENED + [Submit(0, LOST)] + [GiveUp(0)] + [Submit(1, RETRY)], Retried(), a)
  {
    RetryIsAffordable();
    EarlyGiveUp(a);
    hide Run, Reserve, Told, RejectReasonFor, StateAfter, NeverSpoiled, OPENED;
    OpeningAnswered(GaveUp());
    Goes(OPENED + [Submit(0, LOST)] + [GiveUp(0)], Submit(1, RETRY), GaveUp(), a);
    assert Perform(PLAIN, GaveUp(), Submit(1, RETRY)) == Retried();
  }

  lemma StrayLands(a: Aspect)
    ensures At(STRAY, Strayed().(answered := 2), a)
  {
    StrayIsQueued(a);
    hide Run, Reserve, Told, RejectReasonFor, StateAfter, NeverSpoiled, OPENED;
    OpeningAnswered(Retried());
    var events := OPENED + [Submit(0, LOST)] + [GiveUp(0)] + [Submit(1, RETRY)];
    Goes(events, RunScript(0), Retried(), a);
    assert map[0 := LOST, 1 := RETRY] - {0} == map[1 := RETRY];
    assert Perform(PLAIN, Retried(), RunScript(0)) == Strayed();
    OpeningAnswered(Strayed());
    Goes(events + [RunScript(0)], Match, Strayed(), a);
  }

  lemma StrayMisadopts()
    ensures var m := Strayed().(answered := 2);
      Typed(PLAIN, m) && Enabled(PLAIN, m, ApplyOutbound) && Misadopts(PLAIN, m, ApplyOutbound)
  {
    RetryIsAffordable();
    FirstIsAnswered(Strayed().(answered := 2), LOST);
    hide Run, Told, RejectReasonFor, Outbounds;
    CommitKeepsOrders(Told(), Reserving(RETRY));
  }

  /** From then on the gateway takes the order for the retry: its open orders are not the stream's. */
  lemma StrayAppendMisleads()
    ensures StateAfter(PLAIN, STRAY).Some? && AlwaysRight(PLAIN, STRAY, Everything)
    ensures StateAfter(PLAIN, STRAY + [ApplyOutbound]).Some? && !AlwaysRight(PLAIN, STRAY + [ApplyOutbound], OpenOrders)
  {
    hide StateAfter, NeverSpoiled, AlwaysRight, STRAY, Strayed, Perform, Enabled, Typed, Misadopts;
    StrayLands(Everything);
    StrayLands(OpenOrders);
    StrayMisadopts();
    Goes(STRAY, ApplyOutbound, Strayed().(answered := 2), OpenOrders);
    RunIsExact(PLAIN, STRAY, Everything);
    RunIsExact(PLAIN, STRAY + [ApplyOutbound], OpenOrders);
  }
}
