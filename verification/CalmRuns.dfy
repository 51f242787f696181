/** Runs in which no order is let go while it may still be accepted: a task gives up only once its append is known
    not to be its order's, and a restart waits. Every aspect of the gateway's books is right throughout them. */
module CalmRuns {
  import opened Contracts
  import opened EngineSpec
  import opened OrderViews
  import opened Accounts
  import opened RiskModel
  import opened RiskReplay
  import opened Gateway
  import opened GatewayRuns

  /** A submit is waiting: appended and unanswered, or answered and not yet seen by the gateway. */
  ghost predicate Waiting(c: Config, s: System, key: ClientKey)
    requires s.answered <= |s.inbound| && s.applied <= |Outbounds(c, s)|
  {
    SubmitKeyIn(s.inbound[s.answered..], key) || AcceptKeyIn(Outbounds(c, s)[s.applied..], key)
  }

  /** What a client is told decides nothing but this: a task whose append ran or may yet run does not give up, and the
      gateway restarts only when no append is queued and every order has been answered and applied. */
  ghost predicate Calm(c: Config, s: System, e: Event)
    requires Typed(c, s) && Enabled(c, s, e)
  {
    && (e.GiveUp? ==> s.tasks[e.id].status == Duplicate || s.tasks[e.id].status == Dropped)
    && (e.Restart? ==> s.queue == map[] && forall key :: !Waiting(c, s, key))
  }

  ghost predicate CalmRun(c: Config, events: seq<Event>)
    requires StateAfter(c, events).Some?
    decreases |events|
  {
    events != [] ==>
      var n := |events| - 1;
      CalmRun(c, events[..n]) && Calm(c, StateAfter(c, events[..n]).value, events[n])
  }

  // ---- reservations in flight --------------------------------------------------------------------

  /** Every waiting order has its own reservation pending. */
  ghost predicate WaitingHeld(c: Config, s: System)
    requires Typed(c, s)
  {
    && (forall i :: s.answered <= i < |s.inbound| && s.inbound[i].SubmitOrder? ==>
          PendingFor(s.risk, Reserving(s.inbound[i])))
    && (forall j :: s.applied <= j < |Outbounds(c, s)| && Outbounds(c, s)[j].OrderAccepted? ==>
          PendingFor(s.risk, ReservationOf(Outbounds(c, s)[j])))
  }

  /** A queued append belongs to a task that holds its reservation, and nothing waits under its key. */
  ghost predicate QueuedHeld(c: Config, s: System, id: nat)
    requires Typed(c, s) && id in s.queue
  {
    && s.queue[id].SubmitOrder? && id in s.tasks
    && s.tasks[id].res == Reserving(s.queue[id]) && s.tasks[id].order == None
    && !Waiting(c, s, KeyOf(s.queue[id]))
  }

  /** So does a task whose append came to nothing. */
  ghost predicate EndedHeld(c: Config, s: System, id: nat)
    requires Typed(c, s) && id in s.tasks
  {
    s.tasks[id].status == Duplicate || s.tasks[id].status == Dropped ==>
      s.tasks[id].order == None && !Waiting(c, s, ClientOf(s.tasks[id].res))
  }

  ghost predicate InFlight(c: Config, s: System)
    requires Typed(c, s)
  {
    && WaitingHeld(c, s)
    && (forall id :: id in s.queue ==> QueuedHeld(c, s, id))
    && (forall id :: id in s.tasks ==> EndedHeld(c, s, id))
  }

  lemma WaitingInbound(c: Config, s: System, i: nat)
    requires Typed(c, s) && s.answered <= i < |s.inbound| && s.inbound[i].SubmitOrder?
    ensures Waiting(c, s, KeyOf(s.inbound[i]))
  {
    hide Run;
    var tail := s.inbound[s.answered..];
    assert tail[i - s.answered] == s.inbound[i];
    assert SubmitKeyIn(tail, KeyOf(s.inbound[i]));
  }

  lemma WaitingOutbound(c: Config, s: System, j: nat)
    requires Typed(c, s) && s.applied <= j < |Outbounds(c, s)| && Outbounds(c, s)[j].OrderAccepted?
    ensures Waiting(c, s, (Outbounds(c, s)[j].user, Outbounds(c, s)[j].client))
  {
    hide Run;
    var tail := Outbounds(c, s)[s.applied..];
    assert tail[j - s.applied] == Outbounds(c, s)[j];
    assert AcceptKeyIn(tail, (tail[j - s.applied].user, tail[j - s.applied].client));
  }

  lemma WaitingIsPending(c: Config, s: System, key: ClientKey)
    requires Typed(c, s) && WaitingHeld(c, s) && Waiting(c, s, key)
    ensures key in s.risk.pending
  {
    hide Run, Outbounds;
    if SubmitKeyIn(s.inbound[s.answered..], key) {
      var tail := s.inbound[s.answered..];
      var i :| 0 <= i < |tail| && tail[i].SubmitOrder? && KeyOf(tail[i]) == key;
      assert s.inbound[s.answered + i] == tail[i];
    } else {
      var tail := Outbounds(c, s)[s.applied..];
      var j :| 0 <= j < |tail| && tail[j].OrderAccepted? && (tail[j].user, tail[j].client) == key;
      assert Outbounds(c, s)[s.applied + j] == tail[j];
    }
  }

  /** Reservations come and go only under keys that nothing waits for. */
  ghost predicate OtherKeysSame(k: Risk, k': Risk, key: ClientKey) {
    forall other :: other != key && other in k.pending ==> other in k'.pending && k'.pending[other] == k.pending[other]
  }

  lemma WaitingStaysHeld(c: Config, s: System, s': System, key: ClientKey)
    requires Typed(c, s) && WaitingHeld(c, s) && !Waiting(c, s, key) && SameStreams(s, s')
    requires OtherKeysSame(s.risk, s'.risk, key)
    ensures Typed(c, s') && WaitingHeld(c, s') && forall k :: Waiting(c, s', k) <==> Waiting(c, s, k)
  {
    assert s'.inbound[..s'.answered] == s.inbound[..s.answered];
    assert Outbounds(c, s') == Outbounds(c, s);
    hide Run, Outbounds;
    forall i | s.answered <= i < |s.inbound| && s.inbound[i].SubmitOrder?
      ensures PendingFor(s'.risk, Reserving(s.inbound[i]))
    {
      WaitingInbound(c, s, i);
    }
    forall j | s.applied <= j < |Outbounds(c, s)| && Outbounds(c, s)[j].OrderAccepted?
      ensures PendingFor(s'.risk, ReservationOf(Outbounds(c, s)[j]))
    {
      WaitingOutbound(c, s, j);
    }
  }

  lemma SubmitCalm(c: Config, s: System, id: nat, r: Inbound)
    requires Inv(c, s) && InFlight(c, s) && Enabled(c, s, Submit(id, r))
    ensures Typed(c, Perform(c, s, Submit(id, r))) && InFlight(c, Perform(c, s, Submit(id, r)))
  {
    hide Run, InboundSound, RiskSound, TasksSound, Commit, RejectReasonFor, Outbounds, Waiting, WaitingHeld;
    var s' := Perform(c, s, Submit(id, r));
    CommitKeepsOrders(s.risk, Reserving(r));
    if Waiting(c, s, KeyOf(r)) { WaitingIsPending(c, s, KeyOf(r)); }
    WaitingStaysHeld(c, s, s', KeyOf(r));
    forall i | i in s'.queue ensures QueuedHeld(c, s', i) {
      if i != id { assert QueuedHeld(c, s, i); }
    }
    forall i | i in s'.tasks ensures EndedHeld(c, s', i) {
      if i != id { assert EndedHeld(c, s, i); }
    }
  }

  /** A task ends, or its append does, without having landed. */
  lemma EndCalm(c: Config, s: System, e: Event)
    requires Inv(c, s) && InFlight(c, s) && Enabled(c, s, e) && Calm(c, s, e)
    requires e.LoseAppend? || e.Reply? || e.GiveUp? || (e.RunScript? && KeyOf(s.queue[e.id]) in s.claimed)
    requires e.Reply? || e.GiveUp? ==> e.id !in s.queue
    ensures Typed(c, Perform(c, s, e)) && InFlight(c, Perform(c, s, e))
  {
    hide Run, InboundSound, RiskSound, TasksSound, Outbounds, Waiting, WaitingHeld, GivenUp;
    var s' := Perform(c, s, e);
    if e.GiveUp? {
      assert EndedHeld(c, s, e.id);
      GivenUpKeeps(s.risk, s.tasks[e.id]);
      WaitingStaysHeld(c, s, s', ClientOf(s.tasks[e.id].res));
    } else {
      StillHeld(c, s, s');
    }
    if e.LoseAppend? || e.RunScript? { assert QueuedHeld(c, s, e.id); }
    forall i | i in s'.queue ensures QueuedHeld(c, s', i) { assert QueuedHeld(c, s, i); }
    forall i | i in s'.tasks ensures EndedHeld(c, s', i) { assert EndedHeld(c, s, i); }
  }

  lemma StillHeld(c: Config, s: System, s': System)
    requires Typed(c, s) && WaitingHeld(c, s) && SameStreams(s, s') && s'.risk == s.risk
    ensures Typed(c, s') && WaitingHeld(c, s') && forall k :: Waiting(c, s', k) <==> Waiting(c, s, k)
  {
    assert s'.inbound[..s'.answered] == s.inbound[..s.answered];
    assert Outbounds(c, s') == Outbounds(c, s);
    hide Run, Outbounds;
  }

  // ---- appends -----------------------------------------------------------------------------------

  lemma WaitingAppend(c: Config, s: System, s': System, r: Inbound, key: ClientKey)
    requires Typed(c, s) && s'.inbound == s.inbound + [r] && s'.answered == s.answered && s'.applied == s.applied
    ensures Typed(c, s')
    ensures Waiting(c, s', key) <==> Waiting(c, s, key) || (r.SubmitOrder? && KeyOf(r) == key)
  {
    OutboundsSame(c, s, s');
    hide Run;
    var tail := s.inbound[s.answered..];
    assert s'.inbound[s.answered..] == tail + [r];
    KeyAppend(tail, r, key);
  }

  /** A record lands whose reservation is pending. */
  lemma LandingHeld(c: Config, s: System, s': System, r: Inbound)
    requires Typed(c, s) && WaitingHeld(c, s) && s'.inbound == s.inbound + [r] && s'.answered == s.answered
    requires s'.applied == s.applied && s'.risk == s.risk && (r.SubmitOrder? ==> PendingFor(s.risk, Reserving(r)))
    ensures Typed(c, s') && WaitingHeld(c, s')
    ensures forall k :: Waiting(c, s', k) <==> Waiting(c, s, k) || (r.SubmitOrder? && KeyOf(r) == k)
  {
    OutboundsSame(c, s, s');
    forall k ensures Waiting(c, s', k) <==> Waiting(c, s, k) || (r.SubmitOrder? && KeyOf(r) == k) {
      WaitingAppend(c, s, s', r, k);
    }
    hide Run, PendingFor, Outbounds, Waiting;
    forall i | s'.answered <= i < |s'.inbound| && s'.inbound[i].SubmitOrder?
      ensures PendingFor(s'.risk, Reserving(s'.inbound[i]))
    {
      if i < |s.inbound| { assert s'.inbound[i] == s.inbound[i]; }
    }
  }

  lemma LandCalm(c: Config, s: System, id: nat)
    requires Inv(c, s) && InFlight(c, s) && Enabled(c, s, RunScript(id)) && KeyOf(s.queue[id]) !in s.claimed
    ensures Typed(c, Perform(c, s, RunScript(id))) && InFlight(c, Perform(c, s, RunScript(id)))
  {
    hide Run, InboundSound, RiskSound, Outbounds, Waiting, WaitingHeld, AcceptedIn, Seen;
    var s', r := Perform(c, s, RunScript(id)), s.queue[id];
    assert QueuedHeld(c, s, id);
    assert TaskSound(s.risk, Seen(c, s), s.tasks[id]);
    LandingHeld(c, s, s', r);
    forall i | i in s'.queue ensures QueuedHeld(c, s', i) { assert QueuedHeld(c, s, i); }
    forall i | i in s'.tasks ensures EndedHeld(c, s', i) { assert EndedHeld(c, s, i); }
  }

  lemma OtherCalm(c: Config, s: System, r: Inbound)
    requires Inv(c, s) && InFlight(c, s) && Enabled(c, s, Other(r))
    ensures Typed(c, Perform(c, s, Other(r))) && InFlight(c, Perform(c, s, Other(r)))
  {
    hide Run, InboundSound, RiskSound, TasksSound, Outbounds, Waiting, WaitingHeld;
    var s' := Perform(c, s, Other(r));
    LandingHeld(c, s, s', r);
    HeldOn(c, s, s');
  }

  lemma HeldOn(c: Config, s: System, s': System)
    requires Typed(c, s) && Typed(c, s') && InFlight(c, s) && s'.queue == s.queue && s'.tasks == s.tasks
    requires WaitingHeld(c, s') && forall k :: Waiting(c, s', k) ==> Waiting(c, s, k)
    ensures InFlight(c, s')
  {
    hide Run, Outbounds, Waiting, WaitingHeld;
    forall i | i in s'.queue ensures QueuedHeld(c, s', i) { assert QueuedHeld(c, s, i); }
    forall i | i in s'.tasks ensures EndedHeld(c, s', i) { assert EndedHeld(c, s, i); }
  }

  // ---- matching ----------------------------------------------------------------------------------

  lemma AnswerAccepts(c: Config, s: System, key: ClientKey)
    requires Typed(c, s) && InboundSound(s) && s.answered < |s.inbound|
    ensures var r := s.inbound[s.answered];
      AcceptKeyIn(AnswerTo(c, s), key) <==> r.SubmitOrder? && KeyOf(r) == key
  {
    var r := s.inbound[s.answered];
    var e := Run(c.dialect, Fresh(c.grant), s.inbound[..s.answered]).engine;
    AnswerFacts(c.dialect, e, r);
    if r.SubmitOrder? { ValidIsAccepted(c.dialect, e, r); }
    hide Run, Apply, Good, KeysOnce, CreatedBeforeUse, CreditsPositive;
  }

  lemma AcceptAppend(a: seq<Outbound>, b: seq<Outbound>, key: ClientKey)
    ensures AcceptKeyIn(a + b, key) <==> AcceptKeyIn(a, key) || AcceptKeyIn(b, key)
  {
    if AcceptKeyIn(a, key) {
      var i :| 0 <= i < |a| && a[i].OrderAccepted? && (a[i].user, a[i].client) == key;
      assert (a + b)[i] == a[i];
    }
    if AcceptKeyIn(b, key) {
      var i :| 0 <= i < |b| && b[i].OrderAccepted? && (b[i].user, b[i].client) == key;
      assert (a + b)[|a| + i] == b[i];
    }
  }

  /** Matching moves a submit from the inbound queue to the outbound one; it goes on waiting. */
  lemma WaitingMatch(c: Config, s: System, s': System, key: ClientKey)
    requires Typed(c, s) && InboundSound(s) && s.answered < |s.inbound| && s' == s.(answered := s.answered + 1)
    ensures Typed(c, s') && (Waiting(c, s', key) <==> Waiting(c, s, key))
  {
    hide Run, Apply, InboundSound, SubmitKeyIn, AcceptKeyIn, Outbounds, AnswerTo;
    MatchExtends(c, s, s');
    AnswerAccepts(c, s, key);
    MatchQueues(s.inbound, s.answered, Outbounds(c, s), s.applied, AnswerTo(c, s), key);
  }

  lemma MatchQueues(rs: seq<Inbound>, n: nat, out: seq<Outbound>, applied: nat, more: seq<Outbound>, key: ClientKey)
    requires n < |rs| && applied <= |out|
    ensures SubmitKeyIn(rs[n..], key) <==> SubmitKeyIn(rs[n + 1..], key) || (rs[n].SubmitOrder? && KeyOf(rs[n]) == key)
    ensures AcceptKeyIn((out + more)[applied..], key) <==> AcceptKeyIn(out[applied..], key) || AcceptKeyIn(more, key)
  {
    assert (out + more)[applied..] == out[applied..] + more;
    AcceptAppend(out[applied..], more, key);
    assert rs[n..] == [rs[n]] + rs[n + 1..];
    KeyPrepend(rs[n], rs[n + 1..], key);
  }

  lemma KeyPrepend(r: Inbound, rs: seq<Inbound>, key: ClientKey)
    ensures SubmitKeyIn([r] + rs, key) <==> SubmitKeyIn(rs, key) || (r.SubmitOrder? && KeyOf(r) == key)
  {
    if SubmitKeyIn(rs, key) {
      var i :| 0 <= i < |rs| && rs[i].SubmitOrder? && KeyOf(rs[i]) == key;
      assert ([r] + rs)[i + 1] == rs[i];
    }
    if r.SubmitOrder? && KeyOf(r) == key { assert ([r] + rs)[0] == r; }
  }

  lemma AnswersHeld(c: Config, s: System)
    requires Typed(c, s) && WaitingHeld(c, s) && s.answered < |s.inbound|
    ensures forall j :: 0 <= j < |AnswerTo(c, s)| && AnswerTo(c, s)[j].OrderAccepted? ==>
      PendingFor(s.risk, ReservationOf(AnswerTo(c, s)[j]))
  {
    var r := s.inbound[s.answered];
    var e := Run(c.dialect, Fresh(c.grant), s.inbound[..s.answered]).engine;
    AnswerFacts(c.dialect, e, r);
    hide Run, Apply, Good, PendingFor;
  }

  lemma MatchCalm(c: Config, s: System)
    requires Inv(c, s) && InFlight(c, s) && Enabled(c, s, Match)
    ensures Typed(c, Perform(c, s, Match)) && InFlight(c, Perform(c, s, Match))
  {
    hide Run, Apply, InboundSound, RiskSound, TasksSound, Outbounds, AnswerTo, Waiting, PendingFor, QueuedHeld,
      EndedHeld;
    var s' := Perform(c, s, Match);
    MatchExtends(c, s, s');
    forall key ensures Waiting(c, s', key) <==> Waiting(c, s, key) { WaitingMatch(c, s, s', key); }
    AnswersHeld(c, s);
    var out: seq<Outbound>, more: seq<Outbound> := Outbounds(c, s), AnswerTo(c, s);
    forall j: int | s.applied <= j < |out + more| && (out + more)[j].OrderAccepted?
      ensures PendingFor(s.risk, ReservationOf((out + more)[j]))
    {
      if j < |out| { assert (out + more)[j] == out[j]; } else { assert (out + more)[j] == more[j - |out|]; }
    }
    HeldOn(c, s, s');
  }

  // ---- applying ----------------------------------------------------------------------------------

  lemma WaitingApply(c: Config, s: System, s': System, k: ClientKey)
    requires Typed(c, s) && s.applied < |Outbounds(c, s)|
    requires s'.inbound == s.inbound && s'.answered == s.answered && s'.applied == s.applied + 1
    ensures var r := Outbounds(c, s)[s.applied];
      Typed(c, s') && (Waiting(c, s, k) <==> Waiting(c, s', k) || (r.OrderAccepted? && k == (r.user, r.client)))
  {
    hide Run;
    var out, r := Outbounds(c, s), Outbounds(c, s)[s.applied];
    assert out[s.applied..] == [r] + out[s'.applied..];
    AcceptAppend([r], out[s'.applied..], k);
    assert AcceptKeyIn([r], k) <==> r.OrderAccepted? && k == (r.user, r.client) by {
      if r.OrderAccepted? && k == (r.user, r.client) { assert [r][0] == r; }
    }
  }

  /** The key just accepted is accepted nowhere later and submitted nowhere else. */
  lemma NobodyElseWaits(c: Config, s: System, s': System, key: ClientKey)
    requires Typed(c, s) && InboundSound(s) && s.applied < |Outbounds(c, s)| && Typed(c, s')
    requires OutboundSound(s.inbound[..s.answered], Outbounds(c, s))
    requires s'.inbound == s.inbound && s'.answered == s.answered && s'.applied == s.applied + 1
    requires var r := Outbounds(c, s)[s.applied]; r.OrderAccepted? && key == (r.user, r.client)
    ensures !Waiting(c, s', key)
  {
    hide Run, SaneAll, AcceptedOnce, CreatedFirst, CreatedBeforeUse, CreditsPositive;
    var out := Outbounds(c, s);
    assert AcceptKeyIn(out, key);
    var head := s.inbound[..s.answered];
    var m :| 0 <= m < |head| && head[m].SubmitOrder? && KeyOf(head[m]) == key;
    forall i | 0 <= i < |s.inbound[s.answered..]| && s.inbound[s.answered..][i].SubmitOrder?
      ensures KeyOf(s.inbound[s.answered..][i]) != key
    {
      var n := s.answered + i;
      assert s.inbound[n].SubmitOrder? && s.inbound[..n][m] == head[m];
    }
    forall j | 0 <= j < |out[s'.applied..]| && out[s'.applied..][j].OrderAccepted?
      ensures (out[s'.applied..][j].user, out[s'.applied..][j].client) != key
    {
      var n := s'.applied + j;
      assert out[n].OrderAccepted? && out[..n][s.applied] == out[s.applied];
    }
  }

  /** An acceptance finds its own reservation. */
  lemma ApplyCalm(c: Config, s: System)
    requires Inv(c, s) && InFlight(c, s) && Enabled(c, s, ApplyOutbound)
    ensures Typed(c, Perform(c, s, ApplyOutbound)) && InFlight(c, Perform(c, s, ApplyOutbound))
    ensures !Misadopts(c, s, ApplyOutbound) && !Overcommits(c, s, ApplyOutbound)
  {
    hide Run, InboundSound, RiskSound, TasksSound, ApplyRecord, Outbounds, Waiting, OutboundSound, RejectReasonFor,
      QueuedHeld, EndedHeld, AllHeld;
    var s', r := Perform(c, s, ApplyOutbound), Outbounds(c, s)[s.applied];
    StreamSound(c, s);
    PendingAfter(s.risk, r);
    NextSeen(c, s, s');
    forall k ensures Waiting(c, s, k) <==> Waiting(c, s', k) || (r.OrderAccepted? && k == (r.user, r.client)) {
      WaitingApply(c, s, s', k);
    }
    if r.OrderAccepted? { NobodyElseWaits(c, s, s', (r.user, r.client)); }
    AppliedWaitingHeld(c, s, s', r);
    AppliedTasksHeld(c, s, s', r);
  }

  lemma AppliedWaitingHeld(c: Config, s: System, s': System, r: Outbound)
    requires Typed(c, s) && WaitingHeld(c, s) && s.applied < |Outbounds(c, s)| && Typed(c, s')
    requires s'.inbound == s.inbound && s'.answered == s.answered && s'.applied == s.applied + 1
    requires Outbounds(c, s') == Outbounds(c, s)
    requires s'.risk.pending == if r.OrderAccepted? then s.risk.pending - {(r.user, r.client)} else s.risk.pending
    requires r.OrderAccepted? ==> !Waiting(c, s', (r.user, r.client))
    ensures WaitingHeld(c, s')
  {
    hide Run, Outbounds, Waiting;
    forall i | s'.answered <= i < |s'.inbound| && s'.inbound[i].SubmitOrder?
      ensures PendingFor(s'.risk, Reserving(s'.inbound[i]))
    {
      assert PendingFor(s.risk, Reserving(s.inbound[i]));
      WaitingInbound(c, s', i);
    }
    forall j | s'.applied <= j < |Outbounds(c, s')| && Outbounds(c, s')[j].OrderAccepted?
      ensures PendingFor(s'.risk, ReservationOf(Outbounds(c, s')[j]))
    {
      assert PendingFor(s.risk, ReservationOf(Outbounds(c, s)[j]));
      WaitingOutbound(c, s', j);
    }
  }

  lemma AppliedTasksHeld(c: Config, s: System, s': System, r: Outbound)
    requires Typed(c, s) && Typed(c, s') && InFlight(c, s) && s'.queue == s.queue
    requires s'.tasks == AllHeld(s.risk, s.tasks, r)
    requires forall k :: Waiting(c, s, k) <==> Waiting(c, s', k) || (r.OrderAccepted? && k == (r.user, r.client))
    ensures forall id :: id in s'.queue ==> QueuedHeld(c, s', id)
    ensures forall id :: id in s'.tasks ==> EndedHeld(c, s', id)
  {
    hide Run, Outbounds, Waiting, WaitingHeld;
    forall i | i in s'.queue ensures QueuedHeld(c, s', i) { assert QueuedHeld(c, s, i); }
    forall i | i in s'.tasks ensures EndedHeld(c, s', i) { assert EndedHeld(c, s, i); }
  }

  // ---- calm runs ---------------------------------------------------------------------------------

  lemma RestartCalm(c: Config, s: System)
    requires Inv(c, s) && Calm(c, s, Restart)
    ensures Typed(c, Perform(c, s, Restart)) && InFlight(c, Perform(c, s, Restart))
  {
    var s' := Perform(c, s, Restart);
    assert s'.inbound[..s'.answered] == s.inbound[..s.answered];
    assert Outbounds(c, s') == Outbounds(c, s);
    hide Run, Outbounds, InboundSound, RiskSound, TasksSound, Replay, Seen;
    forall key ensures !Waiting(c, s', key) { assert !Waiting(c, s, key); }
    hide Waiting;
    forall i | s.answered <= i < |s.inbound| ensures !s.inbound[i].SubmitOrder? {
      if s.inbound[i].SubmitOrder? { WaitingInbound(c, s, i); }
    }
    forall j | s.applied <= j < |Outbounds(c, s)| ensures !Outbounds(c, s)[j].OrderAccepted? {
      if Outbounds(c, s)[j].OrderAccepted? { WaitingOutbound(c, s, j); }
    }
  }

  /** A task that may give up or reply has nothing queued. */
  ghost predicate QueuedAreSent(s: System) {
    forall id :: id in s.queue && id in s.tasks ==> s.tasks[id].status == Sent
  }

  lemma QueuedStaySent(c: Config, s: System, e: Event)
    requires Typed(c, s) && Enabled(c, s, e) && QueuedAreSent(s)
    ensures QueuedAreSent(Perform(c, s, e))
  {
    hide Run, Outbounds, ApplyRecord, Replay, GivenUp, Reserve;
  }

  lemma CalmInFlight(c: Config, s: System, e: Event)
    requires Inv(c, s) && Enabled(c, s, e) && InFlight(c, s) && QueuedAreSent(s) && Calm(c, s, e)
    ensures Typed(c, Perform(c, s, e)) && InFlight(c, Perform(c, s, e))
  {
    hide Run, Inv, InFlight, Outbounds, Waiting, Perform;
    match e
    case Submit(id, r) => SubmitCalm(c, s, id, r);
    case RunScript(id) => if KeyOf(s.queue[id]) in s.claimed { EndCalm(c, s, e); } else { LandCalm(c, s, id); }
    case Other(r) => OtherCalm(c, s, r);
    case Match => MatchCalm(c, s);
    case ApplyOutbound => ApplyCalm(c, s);
    case Restart => RestartCalm(c, s);
    case _ => EndCalm(c, s, e);
  }

  lemma CalmSpoilsNothing(c: Config, s: System, e: Event)
    requires Inv(c, s) && Enabled(c, s, e) && InFlight(c, s) && Calm(c, s, e)
    ensures !Spoils(c, s, e, Everything)
  {
    hide Run, InboundSound, RiskSound, TasksSound, Outbounds, Waiting, WaitingHeld, QueuedHeld, Adopts, Drawn,
      RejectReasonFor;
    if e.ApplyOutbound? { ApplyCalm(c, s); }
    if e.GiveUp? { assert EndedHeld(c, s, e.id); }
  }

  /** In a calm run the open orders are the stream's, the commitments are right and everyone is covered, always. */
  lemma {:induction false} CalmRunsAreRight(c: Config, events: seq<Event>)
    requires StateAfter(c, events).Some? && CalmRun(c, events)
    ensures NeverSpoiled(c, events, Everything) && AlwaysRight(c, events, Everything)
    ensures var s := StateAfter(c, events).value; Typed(c, s) && InFlight(c, s) && QueuedAreSent(s)
    decreases |events|
  {
    hide Inv, Enabled, Perform, Spoils, Calm, Right, InFlight;
    RunIsExact(c, events, Everything);
    if events == [] {
      StartCalm(c);
    } else {
      var n := |events| - 1;
      var before := StateAfter(c, events[..n]).value;
      CalmRunsAreRight(c, events[..n]);
      ReachableIsSound(c, events[..n], before);
      CalmInFlight(c, before, events[n]);
      CalmSpoilsNothing(c, before, events[n]);
      QueuedStaySent(c, before, events[n]);
    }
  }

  lemma StartCalm(c: Config)
    ensures Typed(c, Start()) && InFlight(c, Start())
  {
    assert Start().inbound[..0] == [];
  }
}
