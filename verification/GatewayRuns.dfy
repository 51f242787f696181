/** Runs of the gateway and the engine, with tasks that give up and restarts anywhere in them: which steps, and
    which only, spoil the gateway's books, and why a resumed gateway is a replayed one. */
module GatewayRuns {
  import opened Contracts
  import opened EngineSpec
  import opened MapSums
  import opened OrderViews
  import opened LedgerModel
  import opened Accounts
  import opened RiskModel
  import opened RiskSteps
  import opened RiskReplay
  import opened Gateway

  /** The state a list of events leads to; `None` when one of them cannot happen where it stands. */
  ghost function StateAfter(c: Config, events: seq<Event>): Option<System>
    decreases |events|
  {
    if events == [] then Some(Start())
    else
      var before := StateAfter(c, events[..|events| - 1]);
      var e := events[|events| - 1];
      if before.Some? && Typed(c, before.value) && Enabled(c, before.value, e) then Some(Perform(c, before.value, e))
      else None
  }

  ghost predicate Reaches(c: Config, events: seq<Event>, s: System) {
    StateAfter(c, events) == Some(s)
  }

  lemma {:induction false} ReachableIsSound(c: Config, events: seq<Event>, s: System)
    requires Reaches(c, events, s)
    ensures Inv(c, s)
    decreases |events|
  {
    hide Inv, Perform, Enabled;
    if events == [] {
      StartSound(c);
    } else {
      var n := |events| - 1;
      var before := StateAfter(c, events[..n]).value;
      ReachableIsSound(c, events[..n], before);
      EventKeeps(c, before, events[n]);
    }
  }

  // ---- what can be right, and what can spoil it ------------------------------------------------------

  /** What to ask of the gateway's books: that the open orders are the stream's, that the commitments are besides
      exactly what pending and open orders hold, that nobody has committed more than they own, or all of it. */
  datatype Aspect = OpenOrders | Commitments | Cover | Everything

  ghost predicate Right(c: Config, s: System, a: Aspect)
    requires Typed(c, s)
  {
    && Mirrors(s.risk.open, Fold(map[], Seen(c, s)))
    && (a == Commitments || a == Everything ==> Backed(s.risk))
    && (a == Cover || a == Everything ==> Solvent(s.risk, c.makers))
  }

  /** An acceptance is about to adopt a reservation that was made for another order under the same key. */
  ghost predicate Misadopts(c: Config, s: System, e: Event)
    requires Typed(c, s) && Enabled(c, s, e)
  {
    e.ApplyOutbound? && var r := Outbounds(c, s)[s.applied]; r.OrderAccepted? && !Adopts(s.risk, r)
  }

  /** A task gives up whose reservation is no longer pending, holds something still, and has something to free. */
  ghost predicate ReleasesTwice(c: Config, s: System, e: Event)
    requires Typed(c, s) && Enabled(c, s, e)
  {
    && e.GiveUp?
    && var t := s.tasks[e.id]; t.order.Some? && t.res.qty > 0 && Drawn(s.risk, t.res) > 0
  }

  /** The gateway is about to apply an acceptance that has no reservation, and that its own check would refuse. */
  ghost predicate Overcommits(c: Config, s: System, e: Event)
    requires Typed(c, s) && Enabled(c, s, e)
  {
    && e.ApplyOutbound?
    && var r := Outbounds(c, s)[s.applied];
      r.OrderAccepted? && (r.user, r.client) !in s.risk.pending
      && RejectReasonFor(s.risk, c.makers, ReservationOf(r)) != None
  }

  /** That, or a fill that overdraws its buyer or seller, or a restart while resting orders hold too much. */
  ghost predicate Overspends(c: Config, s: System, e: Event)
    requires Typed(c, s) && Enabled(c, s, e)
  {
    || Overcommits(c, s, e)
    || (e.ApplyOutbound? && Outbounds(c, s)[s.applied].Fill? && Overdraws(s.risk, Outbounds(c, s)[s.applied], c.makers))
    || (e.Restart? && Overhung(s.risk, c.makers))
  }

  ghost predicate Spoils(c: Config, s: System, e: Event, a: Aspect)
    requires Typed(c, s) && Enabled(c, s, e)
  {
    || Misadopts(c, s, e)
    || ((a == Commitments || a == Everything) && ReleasesTwice(c, s, e))
    || (a == Cover && Overspends(c, s, e))
    || (a == Everything && Overcommits(c, s, e))
  }

  // ---- one step --------------------------------------------------------------------------------------

  lemma StepMirrors(c: Config, s: System, e: Event)
    requires Inv(c, s) && Enabled(c, s, e) && Right(c, s, OpenOrders)
    ensures Typed(c, Perform(c, s, e))
    ensures Right(c, Perform(c, s, e), OpenOrders) <==> !Misadopts(c, s, e)
  {
    hide Run, Mirrors, Sensible, InboundSound, TasksSound, ApplyAll, Fold, ApplyRecord, Replay, Outbounds, Adopts,
      AllHeld;
    var s' := Perform(c, s, e);
    StreamsAfter(c, s, e);
    match e
    case Submit(id, r) => CommitKeepsOrders(s.risk, Reserving(r)); hide Commit;
    case GiveUp(id) => GivenUpKeeps(s.risk, s.tasks[id]); hide GivenUp;
    case ApplyOutbound => ApplyMirrors(c, s);
    case Restart =>
      SeenIsSane(c, s);
      ReplaySound(Seen(c, s));
    case _ =>
  }

  /** Only applying moves what the gateway has seen. */
  lemma StreamsAfter(c: Config, s: System, e: Event)
    requires Inv(c, s) && Enabled(c, s, e)
    ensures Typed(c, Perform(c, s, e))
    ensures !e.ApplyOutbound? ==> Seen(c, Perform(c, s, e)) == Seen(c, s)
    ensures e.ApplyOutbound? ==> Seen(c, Perform(c, s, e)) == Seen(c, s) + [Outbounds(c, s)[s.applied]]
  {
    hide Run, RiskSound, TasksSound, InboundSound, Apply, ApplyRecord, Replay, GivenUp, Reserve;
    var s' := Perform(c, s, e);
    if e.ApplyOutbound? {
      NextSeen(c, s, s');
    } else if e.Match? {
      MatchExtends(c, s, s');
      assert (Outbounds(c, s) + AnswerTo(c, s))[..s.applied] == Outbounds(c, s)[..s.applied];
    } else {
      OutboundsSame(c, s, s');
    }
  }

  lemma ApplyMirrors(c: Config, s: System)
    requires Inv(c, s) && Enabled(c, s, ApplyOutbound) && Right(c, s, OpenOrders)
    ensures Typed(c, Perform(c, s, ApplyOutbound))
    ensures Right(c, Perform(c, s, ApplyOutbound), OpenOrders) <==> !Misadopts(c, s, ApplyOutbound)
  {
    hide Run, Mirrors, InboundSound, TasksSound, ApplyAll, Fold, ApplyRecord, Outbounds, Adopts, AllHeld, Sane, SaneAll;
    NextRecord(c, s);
    NextSeen(c, s, Perform(c, s, ApplyOutbound));
    RecordMirrors(s.risk, Fold(map[], Seen(c, s)), Outbounds(c, s)[s.applied]);
  }

  lemma StepBacked(c: Config, s: System, e: Event)
    requires Inv(c, s) && Enabled(c, s, e) && Right(c, s, Commitments) && !Misadopts(c, s, e)
    ensures Backed(Perform(c, s, e).risk) <==> !ReleasesTwice(c, s, e)
  {
    hide Run, Mirrors, Sensible, InboundSound, ApplyAll, Fold, ApplyRecord, Replay, Outbounds, Adopts, AllHeld, Backed,
      TasksApart, SaneAll, Sane, Seen;
    match e
    case Submit(id, r) => ReserveKeepsBacked(s.risk, Reserving(r));
    case GiveUp(id) => GiveUpBacked(c, s, id);
    case ApplyOutbound =>
      NextRecord(c, s);
      RecordKeepsBacked(s.risk, Fold(map[], Seen(c, s)), Outbounds(c, s)[s.applied]);
    case Restart =>
      SeenIsSane(c, s);
      ReplaySound(Seen(c, s));
    case _ =>
  }

  lemma GiveUpBacked(c: Config, s: System, id: nat)
    requires Inv(c, s) && Enabled(c, s, GiveUp(id)) && Backed(s.risk)
    ensures Backed(GivenUp(s.risk, s.tasks[id])) <==> !ReleasesTwice(c, s, GiveUp(id))
  {
    hide Run, Sensible, InboundSound, ApplyAll, Outbounds, Backed, TasksApart, Release, Seen, AcceptedIn;
    var t := s.tasks[id];
    assert TaskSound(s.risk, Seen(c, s), t);
    BackedIsNonNegative(s.risk, t.res.user, SymbolOf(t.res));
    if t.order == None {
      AbandonKeepsBacked(s.risk, t.res);
    } else {
      AbandonAfterAcceptance(s.risk, t.res);
    }
  }

  lemma StepCovered(c: Config, s: System, e: Event)
    requires Inv(c, s) && Enabled(c, s, e) && Right(c, s, Cover)
    ensures Solvent(Perform(c, s, e).risk, c.makers) <==> !Overspends(c, s, e)
  {
    hide Run, Mirrors, Sensible, InboundSound, ApplyAll, Fold, ApplyRecord, Replay, Outbounds, AllHeld, Solvent,
      TasksApart, SaneAll, RejectReasonFor, Overhung, Overdraws, Reserve, Abandon, Release, AcceptedIn, PendingFor,
      Seen;
    match e
    case Submit(id, r) => ReserveKeepsSolvent(s.risk, c.makers, Reserving(r));
    case GiveUp(id) =>
      var t := s.tasks[id];
      assert TaskSound(s.risk, Seen(c, s), t);
      AbandonKeepsSolvent(s.risk, c.makers, t.res);
      ReleaseKeepsSolvent(s.risk, c.makers, t.res, t.res.qty);
    case ApplyOutbound => ApplyCovered(c, s);
    case Restart =>
      SeenIsSane(c, s);
      ReplayIsSolvent(s.risk, Seen(c, s), c.makers);
    case _ =>
  }

  lemma ApplyCovered(c: Config, s: System)
    requires Inv(c, s) && Enabled(c, s, ApplyOutbound) && Right(c, s, Cover)
    ensures Solvent(ApplyRecord(s.risk, Outbounds(c, s)[s.applied]), c.makers) <==> !Overspends(c, s, ApplyOutbound)
  {
    hide Run, Sensible, Solvent, InboundSound, TasksSound, Fold, ApplyAll, Sane, CashAfter, PositionsAfter, ApplyRecord,
      Mirrors, RejectReasonFor, Outbounds, Overdraws, SaneAll, Seen, UntouchedBy;
    var r := Outbounds(c, s)[s.applied];
    var v := Fold(map[], Seen(c, s));
    NextRecord(c, s);
    match r
    case Fill(_, _, _, _, _, _, _, _, _) => FillIsSolvent(s.risk, v, r, c.makers);
    case OrderCancelled(_, id, _, _, _, _, _) => CancelIsSolvent(s.risk, r, c.makers);
    case OrderAccepted(_, _, _, _, _, _, _, _, _) =>
      if (r.user, r.client) in s.risk.pending {
        AcceptKeepsSolvent(s.risk, r, c.makers);
      } else {
        AdoptedLateIsSolvent(s.risk, r, c.makers);
      }
    case AccountCreated(_, _, user, _) =>
      UntouchedHasNoCash(Seen(c, s), user);
      DepositKeepsSolvent(s.risk, r, c.makers);
    case CashCredited(_, _, _, _) => DepositKeepsSolvent(s.risk, r, c.makers);
    case _ => IgnoredRecord(s.risk, r);
  }

  lemma CancelIsSolvent(k: Risk, r: Outbound, makers: set<int>)
    requires r.OrderCancelled? && Sensible(k) && Solvent(k, makers)
    ensures Solvent(ApplyRecord(k, r), makers)
  {
    CancelKeepsSolvent(k, makers, r.orderId);
  }

  lemma IgnoredRecord(k: Risk, r: Outbound)
    requires r.OrderRejected? || r.ReplayConfigured?
    ensures ApplyRecord(k, r) == k
  {
  }

  /** With the commitments right, a fill overdraws nobody and no resting order holds too much. */
  lemma BackedSpendsRight(c: Config, s: System, e: Event)
    requires Inv(c, s) && Enabled(c, s, e) && Right(c, s, Everything)
    ensures Overspends(c, s, e) <==> Overcommits(c, s, e)
  {
    hide Run, Sensible, Solvent, InboundSound, TasksSound, Fold, ApplyAll, Sane, ApplyRecord, Mirrors, RejectReasonFor,
      Outbounds, Overdraws, Overhung, Backed, SaneAll, Seen;
    if e.Restart? { CoveredIsNotOverhung(s.risk, c.makers); }
    if e.ApplyOutbound? && Outbounds(c, s)[s.applied].Fill? {
      var r, v := Outbounds(c, s)[s.applied], Fold(map[], Seen(c, s));
      NextRecord(c, s);
      FillKeepsSolvent(s.risk, v, r, c.makers);
      FillIsSolvent(s.risk, v, r, c.makers);
    }
  }

  /** Where an aspect of the books is right, exactly these steps spoil it. */
  lemma StepIsExact(c: Config, s: System, e: Event, a: Aspect)
    requires Inv(c, s) && Enabled(c, s, e) && Right(c, s, a)
    ensures Typed(c, Perform(c, s, e))
    ensures Right(c, Perform(c, s, e), a) <==> !Spoils(c, s, e, a)
  {
    hide Perform, Enabled, InboundSound, TasksSound, RiskSound, Mirrors, Backed, Solvent, Misadopts, ReleasesTwice,
      Overcommits, Overspends;
    StepMirrors(c, s, e);
    if !Misadopts(c, s, e) {
      if a == Commitments || a == Everything { StepBacked(c, s, e); }
      if a == Cover || a == Everything { StepCovered(c, s, e); }
      if a == Everything { BackedSpendsRight(c, s, e); }
    }
  }

  // ---- whole runs ------------------------------------------------------------------------------------

  /** The aspect is right in every state of the run, the last one included. */
  ghost predicate AlwaysRight(c: Config, events: seq<Event>, a: Aspect)
    requires StateAfter(c, events).Some?
    decreases |events|
  {
    var s := StateAfter(c, events).value;
    Typed(c, s) && Right(c, s, a) && (events != [] ==> AlwaysRight(c, events[..|events| - 1], a))
  }

  /** No step of the run spoils it. */
  ghost predicate NeverSpoiled(c: Config, events: seq<Event>, a: Aspect)
    requires StateAfter(c, events).Some?
    decreases |events|
  {
    events != [] ==>
      var n := |events| - 1;
      NeverSpoiled(c, events[..n], a) && !Spoils(c, StateAfter(c, events[..n]).value, events[n], a)
  }

  /** Whatever tasks give up and whenever the gateway restarts, an aspect of its books is right throughout a run if
      and only if none of the steps that spoil it is in the run. */
  lemma {:induction false} RunIsExact(c: Config, events: seq<Event>, a: Aspect)
    requires StateAfter(c, events).Some?
    ensures AlwaysRight(c, events, a) <==> NeverSpoiled(c, events, a)
    decreases |events|
  {
    hide Right, Perform, Enabled, Spoils, Inv;
    if events == [] {
      StartRight(c, a);
    } else {
      var n := |events| - 1;
      var before := StateAfter(c, events[..n]).value;
      RunIsExact(c, events[..n], a);
      ReachableIsSound(c, events[..n], before);
      if AlwaysRight(c, events[..n], a) { StepIsExact(c, before, events[n], a); }
    }
  }

  lemma StartRight(c: Config, a: Aspect)
    ensures Typed(c, Start()) && Right(c, Start(), a)
  {
    assert Start().inbound[..0] == [];
    FreshBacked();
    forall user ensures CashCovered(FRESH, user) {}
    forall key: PositionKey ensures UnitsCovered(FRESH, key) {}
  }

  /** Without misadoptions and double releases, commitments are exactly what pending and open orders hold. */
  lemma EveryoneIsBacked(c: Config, events: seq<Event>, s: System, user: int, symbol: int)
    requires Reaches(c, events, s) && NeverSpoiled(c, events, Commitments)
    ensures Get(s.risk.reserved, user) == Sum(s.risk.pending, CashHeld(user)) + Sum(s.risk.open, CashHeld(user)) >= 0
    ensures Get(s.risk.reservedQty, (user, symbol))
            == Sum(s.risk.pending, UnitsHeld((user, symbol))) + Sum(s.risk.open, UnitsHeld((user, symbol))) >= 0
  {
    hide Spoils, NeverSpoiled, Perform, Enabled, Mirrors;
    RunIsExact(c, events, Commitments);
    BackedIsNonNegative(s.risk, user, (user, symbol));
    assert CashBacked(s.risk, user) && UnitsBacked(s.risk, (user, symbol));
  }

  /** Without misadoptions and overspending, nobody has committed more cash than they have, and only a market maker
      may be short. */
  lemma EveryoneIsSolvent(c: Config, events: seq<Event>, s: System, user: int, symbol: int)
    requires Reaches(c, events, s) && NeverSpoiled(c, events, Cover)
    ensures Get(s.risk.settled, user) >= Get(s.risk.reserved, user) >= 0
    ensures user !in c.makers ==> Get(s.risk.positions, (user, symbol)) >= Get(s.risk.reservedQty, (user, symbol)) >= 0
  {
    hide Spoils, NeverSpoiled, Perform, Enabled, Mirrors, InboundSound, TasksSound, ApplyAll;
    RunIsExact(c, events, Cover);
    ReachableIsSound(c, events, s);
    assert CashCovered(s.risk, user) && (user !in c.makers ==> UnitsCovered(s.risk, (user, symbol)));
    assert CashNonNegative(s.risk, user) && UnitsNonNegative(s.risk, (user, symbol));
  }

  // ---- dumps ---------------------------------------------------------------------------------------

  /** A dump taken live, with orders in flight, is the dump of a fresh replay of the same records exactly when the
      open orders are the stream's and the commitments are right. */
  lemma LiveDumpIsReplayedDump(c: Config, events: seq<Event>, s: System)
    requires Reaches(c, events, s)
    ensures Typed(c, s)
    ensures Dump(s.risk) == Dump(Replay(Seen(c, s))) <==> Right(c, s, Commitments)
    ensures NeverSpoiled(c, events, Commitments) ==> Dump(s.risk) == Dump(Replay(Seen(c, s)))
  {
    hide Run, Backed, TasksSound, ApplyAll, Fold, SaneAll, InboundSound, Mirrors, Dump, Outbounds, Spoils, NeverSpoiled,
      Perform, Enabled, Seen;
    ReachableIsSound(c, events, s);
    SeenIsSane(c, s);
    DumpIsExact(s.risk, Seen(c, s));
    RunIsExact(c, events, Commitments);
  }

  ghost predicate ResumesAs(k: Risk, seen: seq<Outbound>, rest: seq<Outbound>) {
    Equivalent(ReplayFrom(k, rest), Replay(seen + rest))
  }

  /** Dump while live, load into a new process and apply any further records: the balances, commitments and resting
      orders are those of replaying everything, exactly when the open orders are the stream's and the units
      committed are right. Cash commitments are recomputed, so loading mends those. */
  lemma ResumedIsReplayed(c: Config, events: seq<Event>, s: System, k: Risk)
    requires Reaches(c, events, s) && Loads(k, Dump(s.risk))
    ensures Typed(c, s)
    ensures (forall rest :: ResumesAs(k, Seen(c, s), rest))
      <==> Right(c, s, OpenOrders) && forall key :: UnitsBacked(s.risk, key)
  {
    hide Run, Sensible, TasksSound, ApplyAll, Fold, SaneAll, InboundSound, Mirrors, Dump, Loads, Equivalent, Outbounds,
      Perform, Enabled, Seen, UnitsBacked, StateAfter;
    ReachableIsSound(c, events, s);
    SeenIsSane(c, s);
    var seen := Seen(c, s);
    LoadIsExact(k, s.risk, seen);
    if Equivalent(k, Replay(seen)) {
      forall rest ensures ResumesAs(k, seen, rest) {
        RunsSame(k, Replay(seen), rest);
        ReplaySplit(seen, rest);
      }
    }
    if forall rest :: ResumesAs(k, seen, rest) {
      assert ResumesAs(k, seen, []);
      assert seen + [] == seen;
    }
  }
}
