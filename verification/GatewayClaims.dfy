/** What the script's claims and a task's status mean in every run of the gateway. */
module GatewayClaims {
  import opened Contracts
  import opened EngineSpec
  import opened RiskModel
  import opened Gateway
  import opened GatewayRuns

  // ---- claims ------------------------------------------------------------------------------------

  /** Orders and cancels carry a key. */
  predicate KeyedBy(r: Inbound, key: ClientKey) {
    (r.SubmitOrder? || r.CancelOrder?) && (r.user, r.client) == key
  }

  function KeyedCount(rs: seq<Inbound>, key: ClientKey): nat {
    if rs == [] then 0 else KeyedCount(rs[..|rs| - 1], key) + if KeyedBy(rs[|rs| - 1], key) then 1 else 0
  }

  /** A key is claimed exactly when a record of it is on the stream, and then it has exactly one. */
  ghost predicate ClaimsSound(s: System) {
    forall key :: KeyedCount(s.inbound, key) == if key in s.claimed then 1 else 0
  }

  lemma CountOneMore(rs: seq<Inbound>, r: Inbound, key: ClientKey)
    ensures KeyedCount(rs + [r], key) == KeyedCount(rs, key) + if KeyedBy(r, key) then 1 else 0
  {
    assert (rs + [r])[..|rs|] == rs;
  }

  // ---- what a task has been told -----------------------------------------------------------------

  /** The same order, whatever is left of it. */
  predicate SameTerms(a: Reservation, b: Reservation) {
    a.(qty := b.qty) == b
  }

  ghost predicate Appended(rs: seq<Inbound>, res: Reservation) {
    exists i :: 0 <= i < |rs| && rs[i].SubmitOrder? && SameTerms(res, Reserving(rs[i]))
  }

  /** A task's append is still queued, with the task's own order; or its record is on the stream; or the key was
      claimed by another; or it never ran. */
  ghost predicate StatusSound(s: System, id: nat)
    requires id in s.tasks
  {
    var t := s.tasks[id];
    && (t.status == Sent <==> id in s.queue)
    && (id in s.queue && s.queue[id].SubmitOrder? ==> SameTerms(t.res, Reserving(s.queue[id])))
    && (t.status == Landed ==> Appended(s.inbound, t.res))
    && (t.status == Duplicate ==> ClientOf(t.res) in s.claimed)
  }

  ghost predicate StatusesSound(s: System) {
    forall id :: id in s.tasks ==> StatusSound(s, id)
  }

  lemma AppendedGrows(rs: seq<Inbound>, r: Inbound, res: Reservation)
    ensures Appended(rs, res) ==> Appended(rs + [r], res)
    ensures r.SubmitOrder? && SameTerms(res, Reserving(r)) ==> Appended(rs + [r], res)
  {
    var all := rs + [r];
    if Appended(rs, res) {
      var i :| 0 <= i < |rs| && rs[i].SubmitOrder? && SameTerms(res, Reserving(rs[i]));
      assert all[i] == rs[i];
    }
    assert all[|rs|] == r;
  }

  lemma HeldKeepsTerms(k: Risk, t: Task, r: Outbound)
    ensures var h := Held(k, t, r); h.status == t.status && SameTerms(h.res, t.res)
  {
  }

  lemma SameRecord(rs: seq<Inbound>, a: Reservation, b: Reservation)
    requires SameTerms(a, b) && Appended(rs, b)
    ensures Appended(rs, a)
  {
    var i :| 0 <= i < |rs| && rs[i].SubmitOrder? && SameTerms(b, Reserving(rs[i]));
    assert SameTerms(a, Reserving(rs[i]));
  }

  lemma ScriptTells(c: Config, s: System, id: nat)
    requires Typed(c, s) && Enabled(c, s, RunScript(id)) && ClaimsSound(s) && StatusesSound(s)
    ensures ClaimsSound(Scripted(s, id)) && StatusesSound(Scripted(s, id))
  {
    hide Run, Outbounds, KeyedCount, Appended;
    var r, s' := s.queue[id], Scripted(s, id);
    forall key ensures KeyedCount(s'.inbound, key) == if key in s'.claimed then 1 else 0 {
      CountOneMore(s.inbound, r, key);
    }
    forall i | i in s'.tasks ensures StatusSound(s', i) {
      assert StatusSound(s, i);
      AppendedGrows(s.inbound, r, s.tasks[i].res);
    }
  }

  lemma OtherTells(c: Config, s: System, r: Inbound)
    requires Typed(c, s) && Enabled(c, s, Other(r)) && ClaimsSound(s) && StatusesSound(s)
    ensures ClaimsSound(Perform(c, s, Other(r))) && StatusesSound(Perform(c, s, Other(r)))
  {
    hide Run, Outbounds, KeyedCount, Appended;
    var s' := Perform(c, s, Other(r));
    forall key ensures KeyedCount(s'.inbound, key) == if key in s'.claimed then 1 else 0 {
      CountOneMore(s.inbound, r, key);
    }
    forall i | i in s'.tasks ensures StatusSound(s', i) {
      assert StatusSound(s, i);
      AppendedGrows(s.inbound, r, s.tasks[i].res);
    }
  }

  lemma EventTells(c: Config, s: System, e: Event)
    requires Typed(c, s) && Enabled(c, s, e) && ClaimsSound(s) && StatusesSound(s)
    ensures ClaimsSound(Perform(c, s, e)) && StatusesSound(Perform(c, s, e))
  {
    hide Run, Outbounds, KeyedCount, Appended, ApplyRecord, Replay, Reserve, GivenUp, Held;
    var s' := Perform(c, s, e);
    match e
    case RunScript(id) => ScriptTells(c, s, id);
    case Other(r) => OtherTells(c, s, r);
    case ApplyOutbound =>
      forall i | i in s'.tasks ensures StatusSound(s', i) {
        assert StatusSound(s, i);
        HeldKeepsTerms(s.risk, s.tasks[i], Outbounds(c, s)[s.applied]);
        if s.tasks[i].status == Landed { SameRecord(s.inbound, s'.tasks[i].res, s.tasks[i].res); }
      }
    case Restart =>
    case _ =>
      forall i | i in s'.tasks && i in s.tasks ensures StatusSound(s', i) { assert StatusSound(s, i); }
  }

  /** In every run, crashed tasks, strays and restarts included: a key is claimed if and only if exactly one order or
      cancel of it is on the inbound stream, and no key has two; and a task whose append landed has its own order
      there, one told of a duplicate has lost its key to another, and one still unanswered has its append queued. */
  lemma {:induction false} ClaimsAndStatuses(c: Config, events: seq<Event>, s: System)
    requires Reaches(c, events, s)
    ensures ClaimsSound(s) && StatusesSound(s)
    decreases |events|
  {
    hide ClaimsSound, StatusesSound, Typed, Enabled, Perform;
    if events == [] {
      StartTells();
    } else {
      var n := |events| - 1;
      var before := StateAfter(c, events[..n]).value;
      ClaimsAndStatuses(c, events[..n], before);
      EventTells(c, before, events[n]);
    }
  }

  lemma StartTells()
    ensures ClaimsSound(Start()) && StatusesSound(Start())
  {
  }

  /** A task begins with its submit and ends with its reply, by giving up, or with its gateway. */
  lemma TasksComeAndGo(c: Config, s: System, e: Event, id: nat)
    requires Typed(c, s) && Enabled(c, s, e)
    ensures id in Perform(c, s, e).tasks
            <==> (e.Submit? && e.id == id) || (id in s.tasks && e != Reply(id) && e != GiveUp(id) && e != Restart)
  {
    hide Run, Outbounds, ApplyRecord, Replay, Reserve, GivenUp, Held;
  }

  /** A queued append outlives its task and its gateway: it stays as it was sent until it runs or is lost. */
  lemma QueueOutlivesTasks(c: Config, s: System, e: Event, id: nat)
    requires Typed(c, s) && Enabled(c, s, e)
    ensures id in Perform(c, s, e).queue
            <==> (e.Submit? && e.id == id) || (id in s.queue && e != RunScript(id) && e != LoseAppend(id))
    ensures id in Perform(c, s, e).queue ==>
      Perform(c, s, e).queue[id] == if e.Submit? && e.id == id then e.r else s.queue[id]
  {
    hide Run, Outbounds, ApplyRecord, Replay, Reserve, GivenUp, Held;
  }
}
