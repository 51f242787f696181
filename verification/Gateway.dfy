/** Gateway and engine together. Each request is a task that reserves, queues its append and waits for the
    answer; it may give up at any moment: before the append runs, while its order waits, or after the gateway
    has applied the order's acceptance and fills. Restarts may come at any moment too. */
module Gateway {
  import opened Contracts
  import opened PriceTime
  import opened EngineSpec
  import opened OrderViews
  import opened LedgerModel
  import opened Accounts
  import opened RiskModel
  import opened RiskSteps
  import opened RiskReplay

  /** What became of a task's append, as far as the store knows. */
  datatype Status = Sent | Landed | Duplicate | Dropped

  /** `res` is the reservation object the task holds, as it stands. Until an acceptance adopts it, it is the
      pending entry of its key; from then on it is the object kept for `order`, whose fills lower its quantity
      and whose cancellation does not. */
  datatype Task = Task(res: Reservation, status: Status, order: Option<int>)

  /** `answered` inbound records have been matched; the gateway has applied `applied` outbound records.
      `queue` holds the appends that have been sent and not run yet, whoever still waits for them. */
  datatype System = System(inbound: seq<Inbound>, answered: nat, applied: nat, risk: Risk,
                           tasks: map<nat, Task>, queue: map<nat, Inbound>, claimed: set<ClientKey>)

  /** Configuration that never changes. */
  datatype Config = Config(dialect: Dialect, grant: nat, makers: set<int>)

  /** `RunScript` is the atomic claim-and-append; `LoseAppend` is one that never runs. `Reply` is the success
      reply; every other end of a task is `GiveUp`. */
  datatype Event =
    | Submit(id: nat, r: Inbound)
    | RunScript(id: nat)
    | LoseAppend(id: nat)
    | Reply(id: nat)
    | GiveUp(id: nat)
    | Other(r: Inbound)
    | Match
    | ApplyOutbound
    | Restart

  function KeyOf(r: Inbound): ClientKey
    requires r.SubmitOrder?
  {
    (r.user, r.client)
  }

  function Reserving(r: Inbound): Reservation
    requires r.SubmitOrder?
  {
    Reservation(r.user, r.client, r.symbol, r.side, r.price, r.qty)
  }

  ghost function Outbounds(c: Config, s: System): seq<Outbound>
    requires s.answered <= |s.inbound|
  {
    Run(c.dialect, Fresh(c.grant), s.inbound[..s.answered]).out
  }

  ghost predicate SubmitKeyIn(rs: seq<Inbound>, key: ClientKey) {
    exists i :: 0 <= i < |rs| && rs[i].SubmitOrder? && KeyOf(rs[i]) == key
  }

  ghost predicate AcceptKeyIn(rs: seq<Outbound>, key: ClientKey) {
    exists i :: 0 <= i < |rs| && rs[i].OrderAccepted? && (rs[i].user, rs[i].client) == key
  }

  function Start(): System {
    System([], 0, 0, FRESH, map[], map[], {})
  }

  ghost predicate Typed(c: Config, s: System) {
    s.answered <= |s.inbound| && s.applied <= |Outbounds(c, s)|
  }

  /** The records the gateway has applied. */
  ghost function Seen(c: Config, s: System): seq<Outbound>
    requires Typed(c, s)
  {
    Outbounds(c, s)[..s.applied]
  }

  /** The pending entry and the check are read when the reservation is made; the lookup of the key's outcome
      came earlier, so the key may have been claimed since. */
  ghost predicate Enabled(c: Config, s: System, e: Event)
    requires Typed(c, s)
  {
    match e
    case Submit(id, r) =>
      && id !in s.tasks && id !in s.queue && r.SubmitOrder? && Passes(r)
      && KeyOf(r) !in s.risk.pending && RejectReasonFor(s.risk, c.makers, Reserving(r)) == None
    case RunScript(id) => id in s.queue && s.queue[id].SubmitOrder?
    case LoseAppend(id) => id in s.queue
    case Reply(id) => id in s.tasks && s.tasks[id].status == Landed
    case GiveUp(id) => id in s.tasks
    case Other(r) =>
      match r {
        case CancelOrder(_, client, user, _) => (user, client) !in s.claimed
        case CreateAccount(_, _, user) => !MentionedIn(s.inbound, user)
        case CreditCash(_, _, _, amount) => amount >= 0
        case ConfigureReplay(_, _, _, _, _) => true
        case _ => false
      }
    case Match => s.answered < |s.inbound|
    case ApplyOutbound => s.applied < |Outbounds(c, s)|
    case Restart => true
  }

  function Marked(tasks: map<nat, Task>, id: nat, status: Status): map<nat, Task> {
    if id in tasks then tasks[id := tasks[id].(status := status)] else tasks
  }

  /** The script: either the key is free, and the record and the claim appear together, or nothing changes. */
  function Scripted(s: System, id: nat): System
    requires id in s.queue && s.queue[id].SubmitOrder?
  {
    var r := s.queue[id];
    if KeyOf(r) in s.claimed then s.(queue := s.queue - {id}, tasks := Marked(s.tasks, id, Duplicate))
    else
      s.(inbound := s.inbound + [r], claimed := s.claimed + {KeyOf(r)}, queue := s.queue - {id},
         tasks := Marked(s.tasks, id, Landed))
  }

  /** `_abandon`: the pending entry goes only if it is this task's own object; the release happens anyway, of
      what the object holds by now. */
  function GivenUp(k: Risk, t: Task): Risk {
    if t.order == None then Abandon(k, t.res) else Release(k, t.res, t.res.qty)
  }

  /** What an outbound record does to the object a task holds. */
  function Held(k: Risk, t: Task, r: Outbound): Task {
    match r
    case OrderAccepted(_, id, client, user, _, _, _, _, _) =>
      if t.order == None && ClientOf(t.res) == (user, client) then t.(order := Some(id)) else t
    case Fill(_, maker, taker, _, _, _, qty, _, _) =>
      if t.order.Some? && t.order.value in k.open && (t.order.value == maker || t.order.value == taker)
      then t.(res := t.res.(qty := Max(0, t.res.qty - qty)))
      else t
    case _ => t
  }

  function AllHeld(k: Risk, tasks: map<nat, Task>, r: Outbound): map<nat, Task> {
    map id | id in tasks :: Held(k, tasks[id], r)
  }

  ghost function Perform(c: Config, s: System, e: Event): System
    requires Typed(c, s) && Enabled(c, s, e)
  {
    match e
    case Submit(id, r) =>
      s.(risk := Reserve(s.risk, Reserving(r)), queue := s.queue[id := r],
         tasks := s.tasks[id := Task(Reserving(r), Sent, None)])
    case RunScript(id) => Scripted(s, id)
    case LoseAppend(id) => s.(queue := s.queue - {id}, tasks := Marked(s.tasks, id, Dropped))
    case Reply(id) => s.(tasks := s.tasks - {id})
    case GiveUp(id) => s.(risk := GivenUp(s.risk, s.tasks[id]), tasks := s.tasks - {id})
    case Other(r) =>
      s.(inbound := s.inbound + [r],
         claimed := if r.CancelOrder? then s.claimed + {(r.user, r.client)} else s.claimed)
    case Match => s.(answered := s.answered + 1)
    case ApplyOutbound =>
      var r := Outbounds(c, s)[s.applied];
      s.(risk := ApplyRecord(s.risk, r), applied := s.applied + 1, tasks := AllHeld(s.risk, s.tasks, r))
    case Restart => s.(risk := Replay(Seen(c, s)), tasks := map[])
  }

  // ---- the inbound stream ------------------------------------------------------------------------

  /** No two submits share a key. */
  ghost predicate KeysOnce(rs: seq<Inbound>) {
    forall i :: 0 <= i < |rs| && rs[i].SubmitOrder? ==> !SubmitKeyIn(rs[..i], KeyOf(rs[i]))
  }

  ghost predicate AcceptKeysOnce(rs: seq<Outbound>) {
    forall i :: 0 <= i < |rs| && rs[i].OrderAccepted? ==> !AcceptKeyIn(rs[..i], (rs[i].user, rs[i].client))
  }

  ghost predicate CreditsPositive(rs: seq<Inbound>) {
    forall i :: 0 <= i < |rs| && rs[i].CreditCash? ==> rs[i].amount >= 0
  }

  /** What the gateway may rely on about an outbound record. */
  ghost predicate DepositOk(r: Outbound) {
    (r.AccountCreated? ==> r.cash >= 0) && (r.CashCredited? ==> r.amount >= 0)
  }

  ghost predicate InboundSound(s: System) {
    && KeysOnce(s.inbound) && CreatedBeforeUse(s.inbound) && CreditsPositive(s.inbound)
    && (forall key :: SubmitKeyIn(s.inbound, key) ==> key in s.claimed)
    && (forall i :: 0 <= i < |s.inbound| && s.inbound[i].SubmitOrder? ==> Passes(s.inbound[i]))
  }

  // ---- what every event keeps ----------------------------------------------------------------------

  ghost predicate PendingFor(k: Risk, r: Reservation) {
    ClientOf(r) in k.pending && k.pending[ClientOf(r)] == r
  }

  /** A task holds the object that the risk state has for it, until that object is retired. */
  ghost predicate TaskSound(k: Risk, seen: seq<Outbound>, t: Task) {
    && t.res.price > 0 && t.res.qty >= 0 && (t.res.side == BUY || t.res.side == SELL)
    && (t.order == None ==> PendingFor(k, t.res))
    && (t.order.Some? ==>
          AcceptedIn(seen, t.order.value) && (t.order.value in k.open ==> k.open[t.order.value] == t.res))
  }

  /** No two tasks hold the same pending entry. */
  ghost predicate TasksApart(tasks: map<nat, Task>) {
    forall i, j :: i in tasks && j in tasks && i != j && tasks[i].order == None && tasks[j].order == None ==>
      ClientOf(tasks[i].res) != ClientOf(tasks[j].res)
  }

  ghost predicate TasksSound(c: Config, s: System)
    requires Typed(c, s)
  {
    TasksApart(s.tasks) && forall id :: id in s.tasks ==> TaskSound(s.risk, Seen(c, s), s.tasks[id])
  }

  ghost predicate QueueSound(queue: map<nat, Inbound>) {
    forall id :: id in queue ==> queue[id].SubmitOrder? && Passes(queue[id])
  }

  /** Balances and positions are the stream's, whatever happened to the commitments. */
  ghost predicate RiskSound(c: Config, s: System)
    requires Typed(c, s)
  {
    && Sensible(s.risk)
    && s.risk.settled == ApplyAll(EMPTY, Seen(c, s)).cash && s.risk.positions == ApplyAll(EMPTY, Seen(c, s)).positions
  }

  ghost predicate Inv(c: Config, s: System) {
    Typed(c, s) && InboundSound(s) && QueueSound(s.queue) && TasksSound(c, s) && RiskSound(c, s)
  }

  // ---- what the outbound stream promises -----------------------------------------------------------

  ghost predicate OutboundSound(inbound: seq<Inbound>, out: seq<Outbound>) {
    && SaneAll(map[], out) && CreatedFirst(out) && AcceptKeysOnce(out) && AcceptedOnce(out)
    && (forall j :: 0 <= j < |out| ==> DepositOk(out[j]))
    && (forall key :: AcceptKeyIn(out, key) ==> SubmitKeyIn(inbound, key))
  }

  /** One record is answered by at most one acceptance, its first answer, of that very order. */
  lemma AnswerFacts(d: Dialect, e: Engine, r: Inbound)
    requires Good(e)
    ensures var out := Apply(d, e, r).out;
      && (forall j :: 0 < j < |out| ==> !out[j].OrderAccepted?)
      && (out != [] && out[0].OrderAccepted? ==> r.SubmitOrder? && ReservationOf(out[0]) == Reserving(r))
      && (e.grant >= 0 && (r.CreditCash? ==> r.amount >= 0) ==> forall j :: 0 <= j < |out| ==> DepositOk(out[j]))
  {
    hide Good, Greedy;
  }

  lemma {:induction false} AcceptsFollowSubmits(d: Dialect, e: Engine, rs: seq<Inbound>)
    requires Good(e) && KeysOnce(rs) && CreditsPositive(rs) && e.grant >= 0
    ensures AcceptKeysOnce(Run(d, e, rs).out)
    ensures forall j :: 0 <= j < |Run(d, e, rs).out| ==> DepositOk(Run(d, e, rs).out[j])
    ensures forall key :: AcceptKeyIn(Run(d, e, rs).out, key) ==> SubmitKeyIn(rs, key)
    decreases |rs|
  {
    hide Good, Apply;
    if rs != [] {
      var n := |rs| - 1;
      PrefixKeysOnce(rs, n);
      AcceptsFollowSubmits(d, e, rs[..n]);
      var before := Run(d, e, rs[..n]);
      AnswerFacts(d, before.engine, rs[n]);
      MoreAccepts(rs, before.out, Apply(d, before.engine, rs[n]).out);
    }
  }

  lemma PrefixKeysOnce(rs: seq<Inbound>, n: nat)
    requires KeysOnce(rs) && CreditsPositive(rs) && n <= |rs|
    ensures KeysOnce(rs[..n]) && CreditsPositive(rs[..n])
  {
    forall i | 0 <= i < n && rs[..n][i].SubmitOrder? ensures !SubmitKeyIn(rs[..n][..i], KeyOf(rs[..n][i])) {
      assert rs[..n][..i] == rs[..i] && rs[..n][i] == rs[i];
    }
  }

  lemma MoreAccepts(rs: seq<Inbound>, a: seq<Outbound>, b: seq<Outbound>)
    requires rs != [] && KeysOnce(rs) && AcceptKeysOnce(a)
    requires forall key :: AcceptKeyIn(a, key) ==> SubmitKeyIn(rs[..|rs| - 1], key)
    requires forall j :: 0 < j < |b| ==> !b[j].OrderAccepted?
    requires b != [] && b[0].OrderAccepted? ==>
      rs[|rs| - 1].SubmitOrder? && ReservationOf(b[0]) == Reserving(rs[|rs| - 1])
    ensures AcceptKeysOnce(a + b) && forall key :: AcceptKeyIn(a + b, key) ==> SubmitKeyIn(rs, key)
  {
    var all, n := a + b, |rs| - 1;
    forall i | 0 <= i < |all| && all[i].OrderAccepted? ensures !AcceptKeyIn(all[..i], (all[i].user, all[i].client)) {
      if i < |a| {
        assert all[..i] == a[..i] && all[i] == a[i];
      } else {
        assert all[i] == b[i - |a|] && all[..|a|] == a;
        assert KeyOf(rs[n]) == (all[i].user, all[i].client);
      }
    }
    forall key | AcceptKeyIn(all, key) ensures SubmitKeyIn(rs, key) {
      var i :| 0 <= i < |all| && all[i].OrderAccepted? && (all[i].user, all[i].client) == key;
      if i < |a| {
        assert a[i].OrderAccepted? && (a[i].user, a[i].client) == key;
        assert AcceptKeyIn(a, key);
        var m :| 0 <= m < n && rs[..n][m].SubmitOrder? && KeyOf(rs[..n][m]) == key;
        assert rs[m].SubmitOrder? && KeyOf(rs[m]) == key;
      } else {
        assert all[i] == b[i - |a|];
        assert rs[n].SubmitOrder? && KeyOf(rs[n]) == key;
      }
    }
  }

  lemma StreamSound(c: Config, s: System)
    requires Typed(c, s) && InboundSound(s)
    ensures OutboundSound(s.inbound[..s.answered], Outbounds(c, s))
  {
    var rs := s.inbound[..s.answered];
    PrefixKeysOnce(s.inbound, s.answered);
    CreatedPrefix(s.inbound, s.answered);
    hide Run, SaneAll, CreatedFirst, AcceptKeysOnce, AcceptedOnce, KeysOnce, CreatedBeforeUse;
    RunFolds(c.dialect, Fresh(c.grant), rs);
    CreationCarriesOver(c.dialect, Fresh(c.grant), rs);
    AcceptsFollowSubmits(c.dialect, Fresh(c.grant), rs);
    EngineAcceptsOnce(c.dialect, c.grant, rs);
  }

  // ---- tasks -------------------------------------------------------------------------------------

  lemma StartSound(c: Config)
    ensures Inv(c, Start())
  {
    assert Start().inbound[..0] == [];
    FreshBacked();
    forall user ensures CashNonNegative(FRESH, user) {}
    forall key ensures UnitsNonNegative(FRESH, key) {}
  }

  /** What the streams hold has not changed. */
  ghost predicate SameStreams(s: System, s': System) {
    s'.inbound == s.inbound && s'.answered == s.answered && s'.applied == s.applied && s'.claimed == s.claimed
  }

  lemma SameSeen(c: Config, s: System, s': System)
    requires Typed(c, s) && InboundSound(s) && SameStreams(s, s')
    ensures Typed(c, s') && InboundSound(s') && Outbounds(c, s') == Outbounds(c, s) && Seen(c, s') == Seen(c, s)
  {
  }

  lemma SubmitKeeps(c: Config, s: System, id: nat, r: Inbound)
    requires Inv(c, s) && Enabled(c, s, Submit(id, r))
    ensures Inv(c, Perform(c, s, Submit(id, r)))
  {
    hide Run, InboundSound, Sensible, Commit, RejectReasonFor, ApplyAll, AcceptedIn, Outbounds;
    var s', res := Perform(c, s, Submit(id, r)), Reserving(r);
    SameSeen(c, s, s');
    CommitKeepsOrders(s.risk, res);
    ReserveIsSensible(s.risk, res);
    forall i | i in s'.tasks ensures TaskSound(s'.risk, Seen(c, s'), s'.tasks[i]) {
      if i != id { assert TaskSound(s.risk, Seen(c, s), s.tasks[i]); }
    }
    forall i | i in s.tasks && s.tasks[i].order == None ensures ClientOf(s.tasks[i].res) != ClientOf(res) {
      assert TaskSound(s.risk, Seen(c, s), s.tasks[i]);
    }
  }

  lemma ReserveIsSensible(k: Risk, r: Reservation)
    requires Sensible(k) && Serious(r)
    ensures Sensible(Reserve(k, r))
  {
    CommitIsSensible(k, r);
    CommitKeepsOrders(k, r);
    hide Commit;
    OrdersStaySensible(Commit(k, r), Reserve(k, r));
  }

  /** Only statuses change, or tasks end. */
  lemma TasksLessened(c: Config, s: System, s': System)
    requires Typed(c, s) && Typed(c, s') && TasksSound(c, s) && Seen(c, s') == Seen(c, s) && s'.risk == s.risk
    requires s'.tasks.Keys <= s.tasks.Keys
    requires forall id :: id in s'.tasks ==> s'.tasks[id].(status := s.tasks[id].status) == s.tasks[id]
    ensures TasksSound(c, s')
  {
    hide Run, Outbounds, AcceptedIn, PendingFor, Seen;
    forall id | id in s'.tasks ensures TaskSound(s'.risk, Seen(c, s'), s'.tasks[id]) {
      assert id in s'.tasks.Keys;
      assert TaskSound(s.risk, Seen(c, s), s.tasks[id]);
    }
  }

  lemma GiveUpKeeps(c: Config, s: System, id: nat)
    requires Inv(c, s) && Enabled(c, s, GiveUp(id))
    ensures Inv(c, Perform(c, s, GiveUp(id)))
  {
    hide Run, InboundSound, Sensible, Release, ApplyAll, AcceptedIn, Outbounds;
    var s', t := Perform(c, s, GiveUp(id)), s.tasks[id];
    SameSeen(c, s, s');
    GivenUpKeeps(s.risk, t);
    assert TaskSound(s.risk, Seen(c, s), t);
    forall i | i in s'.tasks ensures TaskSound(s'.risk, Seen(c, s'), s'.tasks[i]) {
      assert TaskSound(s.risk, Seen(c, s), s.tasks[i]);
    }
  }

  lemma GivenUpKeeps(k: Risk, t: Task)
    ensures Sensible(k) ==> Sensible(GivenUp(k, t))
    ensures var after := GivenUp(k, t);
      && after.pending == (if t.order == None then k.pending - {ClientOf(t.res)} else k.pending)
      && after.open == k.open && after.settled == k.settled && after.positions == k.positions
  {
    var without := if t.order == None then k.(pending := k.pending - {ClientOf(t.res)}) else k;
    ReleaseKeepsOrders(without, t.res, t.res.qty);
    hide Release;
    if Sensible(k) {
      OrdersStaySensible(k, without);
      ReleaseIsSensible(without, t.res, t.res.qty);
    }
  }

  // ---- appends -----------------------------------------------------------------------------------

  lemma OutboundsSame(c: Config, s: System, s': System)
    requires Typed(c, s) && s'.answered == s.answered && |s.inbound| <= |s'.inbound|
    requires s'.inbound[..|s.inbound|] == s.inbound
    ensures Outbounds(c, s') == Outbounds(c, s)
  {
    assert s'.inbound[..s.answered] == s.inbound[..s.answered];
  }

  lemma ScriptKeeps(c: Config, s: System, id: nat)
    requires Inv(c, s) && Enabled(c, s, RunScript(id))
    ensures Inv(c, Perform(c, s, RunScript(id)))
  {
    hide Run, InboundSound, RiskSound, TasksSound, Outbounds;
    var s', r := Perform(c, s, RunScript(id)), s.queue[id];
    if KeyOf(r) in s.claimed {
      SameSeen(c, s, s');
    } else {
      OutboundsSame(c, s, s');
      LandInbound(s, s', r);
    }
    RiskSame(c, s, s');
    TasksLessened(c, s, s');
  }

  lemma RiskSame(c: Config, s: System, s': System)
    requires Typed(c, s) && Typed(c, s') && RiskSound(c, s) && Seen(c, s') == Seen(c, s) && s'.risk == s.risk
    ensures RiskSound(c, s')
  {
    hide Run, Outbounds, Sensible, ApplyAll, Seen;
  }

  lemma KeyAppend(rs: seq<Inbound>, r: Inbound, key: ClientKey)
    ensures SubmitKeyIn(rs + [r], key) <==> SubmitKeyIn(rs, key) || (r.SubmitOrder? && KeyOf(r) == key)
  {
    if SubmitKeyIn(rs, key) {
      var i :| 0 <= i < |rs| && rs[i].SubmitOrder? && KeyOf(rs[i]) == key;
      assert (rs + [r])[i] == rs[i];
    }
    if r.SubmitOrder? && KeyOf(r) == key { assert (rs + [r])[|rs|] == r; }
  }

  lemma LandInbound(s: System, s': System, r: Inbound)
    requires InboundSound(s) && r.SubmitOrder? && Passes(r) && KeyOf(r) !in s.claimed
    requires s'.inbound == s.inbound + [r] && s'.claimed == s.claimed + {KeyOf(r)}
    ensures InboundSound(s')
  {
    AppendParts(s.inbound, r);
    forall key ensures SubmitKeyIn(s'.inbound, key) <==> SubmitKeyIn(s.inbound, key) || KeyOf(r) == key {
      KeyAppend(s.inbound, r, key);
    }
  }

  lemma AppendParts(rs: seq<Inbound>, r: Inbound)
    requires KeysOnce(rs) && CreatedBeforeUse(rs) && CreditsPositive(rs)
    requires r.SubmitOrder? ==> !SubmitKeyIn(rs, KeyOf(r))
    requires r.CreateAccount? ==> !MentionedIn(rs, r.user)
    requires r.CreditCash? ==> r.amount >= 0
    ensures KeysOnce(rs + [r]) && CreatedBeforeUse(rs + [r]) && CreditsPositive(rs + [r])
  {
    var all := rs + [r];
    assert all[..|rs|] == rs;
    assert forall i :: 0 <= i < |rs| ==> all[..i] == rs[..i] && all[i] == rs[i];
    hide SubmitKeyIn, MentionedIn;
    forall i | 0 <= i < |all| && all[i].SubmitOrder? ensures !SubmitKeyIn(all[..i], KeyOf(all[i])) {}
    forall i | 0 <= i < |all| && all[i].CreateAccount? ensures !MentionedIn(all[..i], all[i].user) {}
  }

  lemma OtherKeeps(c: Config, s: System, r: Inbound)
    requires Inv(c, s) && Enabled(c, s, Other(r))
    ensures Inv(c, Perform(c, s, Other(r)))
  {
    hide Run, RiskSound, TasksSound, Outbounds;
    var s' := Perform(c, s, Other(r));
    OutboundsSame(c, s, s');
    RiskSame(c, s, s');
    TasksLessened(c, s, s');
    AppendParts(s.inbound, r);
    forall key ensures SubmitKeyIn(s'.inbound, key) <==> SubmitKeyIn(s.inbound, key) { KeyAppend(s.inbound, r, key); }
  }

  // ---- matching ----------------------------------------------------------------------------------

  ghost function AnswerTo(c: Config, s: System): seq<Outbound>
    requires s.answered < |s.inbound|
  {
    Apply(c.dialect, Run(c.dialect, Fresh(c.grant), s.inbound[..s.answered]).engine, s.inbound[s.answered]).out
  }

  lemma MatchExtends(c: Config, s: System, s': System)
    requires Typed(c, s) && s.answered < |s.inbound| && s' == s.(answered := s.answered + 1)
    ensures Typed(c, s') && Outbounds(c, s') == Outbounds(c, s) + AnswerTo(c, s)
  {
    var rs := s.inbound[..s.answered];
    assert s.inbound[..s.answered + 1] == rs + [s.inbound[s.answered]];
    RunOne(c.dialect, Fresh(c.grant), rs, s.inbound[s.answered]);
  }

  /** A valid submit is accepted at once. */
  lemma ValidIsAccepted(d: Dialect, e: Engine, r: Inbound)
    requires Good(e) && r.SubmitOrder? && Passes(r)
    ensures Apply(d, e, r).out != [] && Apply(d, e, r).out[0].OrderAccepted?
      && ReservationOf(Apply(d, e, r).out[0]) == Reserving(r)
  {
    hide Good, Greedy;
  }

  lemma MatchKeeps(c: Config, s: System)
    requires Inv(c, s) && s.answered < |s.inbound|
    ensures Inv(c, Perform(c, s, Match))
  {
    hide Run, Apply, RiskSound, TasksSound, InboundSound, Outbounds, AnswerTo;
    var s' := Perform(c, s, Match);
    MatchExtends(c, s, s');
    assert (Outbounds(c, s) + AnswerTo(c, s))[..s.applied] == Outbounds(c, s)[..s.applied];
    SameInbound(s, s');
    RiskSame(c, s, s');
    TasksLessened(c, s, s');
  }

  lemma SameInbound(s: System, s': System)
    requires InboundSound(s) && s'.inbound == s.inbound && s'.claimed == s.claimed
    ensures InboundSound(s')
  {
  }

  // ---- applying ----------------------------------------------------------------------------------

  /** What the next record may rely on. */
  lemma NextRecord(c: Config, s: System)
    requires Typed(c, s) && InboundSound(s) && s.applied < |Outbounds(c, s)|
    ensures var out := Outbounds(c, s); var r := out[s.applied];
      && SaneAll(map[], Seen(c, s)) && Sane(Fold(map[], Seen(c, s)), r) && DepositOk(r)
      && (r.OrderAccepted? ==> !AcceptedIn(Seen(c, s), r.orderId))
      && (r.AccountCreated? ==> UntouchedBy(Seen(c, s), r.user))
  {
    StreamSound(c, s);
    hide Run, Outbounds, Sane, Fold, AcceptKeysOnce;
    var out := Outbounds(c, s);
    SanePrefix(map[], out, s.applied);
    assert SaneAt(map[], out, s.applied);
  }

  lemma NextSeen(c: Config, s: System, s': System)
    requires Typed(c, s) && s.applied < |Outbounds(c, s)|
    requires s'.inbound == s.inbound && s'.answered == s.answered && s'.applied == s.applied + 1
    ensures Typed(c, s') && Outbounds(c, s') == Outbounds(c, s)
    ensures Seen(c, s') == Seen(c, s) + [Outbounds(c, s)[s.applied]]
    ensures Fold(map[], Seen(c, s')) == Next(Fold(map[], Seen(c, s)), Outbounds(c, s)[s.applied])
    ensures ApplyAll(EMPTY, Seen(c, s')) == ApplyOne(ApplyAll(EMPTY, Seen(c, s)), Outbounds(c, s)[s.applied])
  {
    hide Run, Next, ApplyOne;
    assert s'.inbound[..s'.answered] == s.inbound[..s.answered];
    assert Seen(c, s')[..s.applied] == Seen(c, s);
  }

  /** Whatever the commitments are worth, balances, positions and open objects go on as they should. */
  lemma ApplyRisk(c: Config, s: System)
    requires Inv(c, s) && Enabled(c, s, ApplyOutbound)
    ensures RiskSound(c, Perform(c, s, ApplyOutbound))
  {
    hide Run, InboundSound, TasksSound, QueueSound, Sane, Fold, CashAfter, PositionsAfter, ApplyRecord, Sensible,
      SaneAll, AllHeld, Outbounds;
    var out, r := Outbounds(c, s), Outbounds(c, s)[s.applied];
    NextRecord(c, s);
    NextSeen(c, s, Perform(c, s, ApplyOutbound));
    RecordIsSensible(s.risk, Fold(map[], Seen(c, s)), r);
    PendingAfter(s.risk, r);
  }

  lemma ApplyTask(k: Risk, seen: seq<Outbound>, v: Orders, r: Outbound, t: Task)
    requires TaskSound(k, seen, t) && Sane(v, r) && (r.OrderAccepted? ==> !AcceptedIn(seen, r.orderId))
    ensures TaskSound(ApplyRecord(k, r), seen + [r], Held(k, t, r))
  {
    AcceptedGoesOn(seen, r);
    if r.OrderAccepted? {
      AcceptTask(k, seen, r, t);
    } else if r.Fill? {
      FillOfTwo(v, r);
      FillTask(k, seen, r, t);
    } else {
      hide Sane, Settle, AcceptedIn;
      PendingAfter(k, r);
      if r.OrderCancelled? && r.orderId in k.open {
        ReleaseKeepsOrders(k.(open := k.open - {r.orderId}), k.open[r.orderId], k.open[r.orderId].qty);
      }
      hide Release;
    }
  }

  lemma AcceptTask(k: Risk, seen: seq<Outbound>, r: Outbound, t: Task)
    requires TaskSound(k, seen, t) && r.OrderAccepted? && !AcceptedIn(seen, r.orderId)
    ensures TaskSound(ApplyRecord(k, r), seen + [r], Held(k, t, r))
  {
    AcceptedGoesOn(seen, r);
    hide AcceptedIn, Commit;
    PendingAfter(k, r);
    CommitKeepsOrders(k, ReservationOf(r));
  }

  lemma FillTask(k: Risk, seen: seq<Outbound>, r: Outbound, t: Task)
    requires TaskSound(k, seen, t) && r.Fill? && r.maker != r.taker
    ensures TaskSound(ApplyRecord(k, r), seen + [r], Held(k, t, r))
  {
    AcceptedGoesOn(seen, r);
    hide AcceptedIn, CashAfter, PositionsAfter, ReleaseFill;
    PendingAfter(k, r);
    var one := ReleaseFill(Settle(k, r), r.maker, r.qty);
    OpenAfterFill(Settle(k, r), r.maker, r.qty);
    OpenAfterFill(one, r.taker, r.qty);
  }

  lemma FillOfTwo(v: Orders, r: Outbound)
    requires r.Fill? && Sane(v, r)
    ensures r.maker != r.taker
  {
  }

  lemma AcceptedGoesOn(seen: seq<Outbound>, r: Outbound)
    ensures forall id :: AcceptedIn(seen, id) ==> AcceptedIn(seen + [r], id)
    ensures r.OrderAccepted? ==> AcceptedIn(seen + [r], r.orderId)
  {
    var all := seen + [r];
    assert all[|seen|] == r;
    forall id | AcceptedIn(seen, id) ensures AcceptedIn(all, id) {
      var i :| 0 <= i < |seen| && seen[i].OrderAccepted? && seen[i].orderId == id;
      assert all[i] == seen[i];
    }
  }

  lemma OpenAfterFill(k: Risk, id: int, qty: int)
    ensures var after := ReleaseFill(k, id, qty);
      && (forall i :: i != id ==> (i in after.open <==> i in k.open) && (i in k.open ==> after.open[i] == k.open[i]))
      && (id in after.open ==> id in k.open && after.open[id] == k.open[id].(qty := Max(0, k.open[id].qty - qty)))
  {
    if id in k.open { ReleaseKeepsOrders(k, k.open[id], qty); }
    hide Release;
  }

  lemma ApplyTasks(c: Config, s: System)
    requires Inv(c, s) && Enabled(c, s, ApplyOutbound)
    ensures TasksSound(c, Perform(c, s, ApplyOutbound))
  {
    hide Run, InboundSound, RiskSound, QueueSound, Sane, Fold, ApplyRecord, SaneAll, TaskSound, Outbounds, AcceptedIn;
    var s', r := Perform(c, s, ApplyOutbound), Outbounds(c, s)[s.applied];
    NextRecord(c, s);
    NextSeen(c, s, s');
    forall id | id in s'.tasks ensures TaskSound(s'.risk, Seen(c, s'), s'.tasks[id]) {
      assert TaskSound(s.risk, Seen(c, s), s.tasks[id]);
      ApplyTask(s.risk, Seen(c, s), Fold(map[], Seen(c, s)), r, s.tasks[id]);
    }
    HeldApart(s.risk, s.tasks, r);
  }

  lemma HeldApart(k: Risk, tasks: map<nat, Task>, r: Outbound)
    requires TasksApart(tasks)
    ensures TasksApart(AllHeld(k, tasks, r))
  {
    forall id | id in tasks && Held(k, tasks[id], r).order == None
      ensures tasks[id].order == None && Held(k, tasks[id], r) == tasks[id] {}
  }

  lemma ApplyKeeps(c: Config, s: System)
    requires Inv(c, s) && Enabled(c, s, ApplyOutbound)
    ensures Inv(c, Perform(c, s, ApplyOutbound))
  {
    ApplyRisk(c, s);
    ApplyTasks(c, s);
    hide Run, RiskSound, TasksSound, ApplyRecord, InboundSound, AllHeld, Outbounds;
    NextSeen(c, s, Perform(c, s, ApplyOutbound));
    SameInbound(s, Perform(c, s, ApplyOutbound));
  }

  // ---- restarts, and every event -----------------------------------------------------------------

  lemma SeenIsSane(c: Config, s: System)
    requires Typed(c, s) && InboundSound(s)
    ensures SaneAll(map[], Seen(c, s))
  {
    StreamSound(c, s);
    hide Run, SaneAll, Outbounds;
    SanePrefix(map[], Outbounds(c, s), s.applied);
  }

  lemma BackedIsSensible(k: Risk)
    requires Backed(k)
    ensures Sensible(k)
  {
    forall user ensures CashNonNegative(k, user) { BackedIsNonNegative(k, user, (user, 0)); }
    forall key ensures UnitsNonNegative(k, key) { BackedIsNonNegative(k, key.0, key); }
  }

  /** A restart replays what had been applied, and no task survives it. */
  lemma RestartKeeps(c: Config, s: System)
    requires Inv(c, s)
    ensures Inv(c, Perform(c, s, Restart))
  {
    hide Run, Backed, Sensible, ApplyAll, Fold, SaneAll, InboundSound, Mirrors, Replay, Outbounds;
    SeenIsSane(c, s);
    ReplaySound(Seen(c, s));
    BackedIsSensible(Replay(Seen(c, s)));
    SameSeen(c, s, Perform(c, s, Restart));
  }

  lemma EndKeeps(c: Config, s: System, e: Event)
    requires Inv(c, s) && Enabled(c, s, e) && (e.LoseAppend? || e.Reply?)
    ensures Inv(c, Perform(c, s, e))
  {
    hide Run, RiskSound, TasksSound, InboundSound, Outbounds, Seen;
    var s' := Perform(c, s, e);
    SameSeen(c, s, s');
    RiskSame(c, s, s');
    TasksLessened(c, s, s');
  }

  lemma EventKeeps(c: Config, s: System, e: Event)
    requires Inv(c, s) && Enabled(c, s, e)
    ensures Inv(c, Perform(c, s, e))
  {
    hide Run, Inv, RiskSound, TasksSound, InboundSound, Outbounds;
    match e
    case Submit(id, r) => SubmitKeeps(c, s, id, r);
    case RunScript(id) => ScriptKeeps(c, s, id);
    case GiveUp(id) => GiveUpKeeps(c, s, id);
    case Other(r) => OtherKeeps(c, s, r);
    case Match => MatchKeeps(c, s);
    case ApplyOutbound => ApplyKeeps(c, s);
    case Restart => RestartKeeps(c, s);
    case _ => EndKeeps(c, s, e);
  }
}
