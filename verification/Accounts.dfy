/** Which users a record concerns, and the rule that an account is created before anything else happens
    to its user. */
module Accounts {
  import opened Contracts
  import opened PriceTime
  import opened EngineSpec
  import opened LedgerModel
  import opened MapSums

  /** The record moves this user's cash. */
  predicate Touches(r: Outbound, user: int) {
    match r
    case Fill(_, _, _, makerUser, takerUser, _, _, _, _) => makerUser == user || takerUser == user
    case AccountCreated(_, _, u, _) => u == user
    case CashCredited(_, _, u, _) => u == user
    case _ => false
  }

  /** The inbound record could lead to one that does. */
  predicate Mentions(r: Inbound, user: int) {
    match r
    case SubmitOrder(_, _, u, _, _, _, _, _) => u == user
    case CreateAccount(_, _, u) => u == user
    case CreditCash(_, _, u, _) => u == user
    case _ => false
  }

  ghost predicate MentionedIn(rs: seq<Inbound>, user: int) {
    exists i :: 0 <= i < |rs| && Mentions(rs[i], user)
  }

  /** Each account is created once, before its user's other events. */
  ghost predicate CreatedBeforeUse(rs: seq<Inbound>) {
    forall i :: 0 <= i < |rs| && rs[i].CreateAccount? ==> !MentionedIn(rs[..i], rs[i].user)
  }

  ghost predicate UntouchedBy(rs: seq<Outbound>, user: int) {
    forall i :: 0 <= i < |rs| ==> !Touches(rs[i], user)
  }

  ghost predicate CreatedFirst(rs: seq<Outbound>) {
    forall i: nat :: i < |rs| && rs[i].AccountCreated? ==> UntouchedBy(rs[..i], rs[i].user)
  }

  ghost predicate Owns(live: Orders, user: int) {
    exists id :: id in live && live[id].user == user
  }

  lemma SubmitTouches(d: Dialect, e: Engine, r: Inbound, user: int)
    requires Good(e) && r.SubmitOrder? && r.user != user && !Owns(e.live, user)
    ensures UntouchedBy(Submit(d, e, r).out, user) && !Owns(Submit(d, e, r).engine.live, user)
  {
    if Passes(r) {
      ArrivalIsOpen(e, r);
      var arrived := e.live[e.next := OrderFrom(r)];
      GreedyKeeps(arrived, e.next);
      MakersAreLive(arrived, e.next);
      hide Greedy, Uncrossed, Open;
      assert forall id :: id in arrived ==> arrived[id].user != user;
    }
  }

  /** Only the users of the record and of the live orders are touched. */
  lemma ApplyTouches(d: Dialect, e: Engine, r: Inbound, user: int)
    requires Good(e) && !Mentions(r, user) && !Owns(e.live, user)
    ensures UntouchedBy(Apply(d, e, r).out, user) && !Owns(Apply(d, e, r).engine.live, user)
  {
    hide Good;
    if r.SubmitOrder? {
      SubmitTouches(d, e, r, user);
    }
  }

  lemma {:induction false} UnmentionedUntouched(d: Dialect, e: Engine, rs: seq<Inbound>, user: int)
    requires Good(e) && !Owns(e.live, user) && !MentionedIn(rs, user)
    ensures UntouchedBy(Run(d, e, rs).out, user) && !Owns(Run(d, e, rs).engine.live, user)
    decreases |rs|
  {
    hide Good, Apply, Owns;
    if rs != [] {
      var n := |rs| - 1;
      assert forall i :: 0 <= i < n ==> rs[..n][i] == rs[i];
      UnmentionedUntouched(d, e, rs[..n], user);
      ApplyTouches(d, Run(d, e, rs[..n]).engine, rs[n], user);
    }
  }

  /** The rule carries over from what the gateway appends to what the engine emits. */
  lemma {:induction false} CreationCarriesOver(d: Dialect, e: Engine, rs: seq<Inbound>)
    requires Good(e) && e.live == map[] && CreatedBeforeUse(rs)
    ensures CreatedFirst(Run(d, e, rs).out)
    decreases |rs|
  {
    hide Good, Apply;
    if rs != [] {
      var n := |rs| - 1;
      CreatedPrefix(rs, n);
      CreationCarriesOver(d, e, rs[..n]);
      var before := Run(d, e, rs[..n]);
      if rs[n].CreateAccount? {
        UnmentionedUntouched(d, e, rs[..n], rs[n].user);
      }
      OneCreation(d, before.engine, rs[n]);
      CreatedAppend(before.out, Apply(d, before.engine, rs[n]).out);
    }
  }

  lemma CreatedPrefix(rs: seq<Inbound>, n: nat)
    requires CreatedBeforeUse(rs) && n <= |rs|
    ensures CreatedBeforeUse(rs[..n])
  {
    forall i | 0 <= i < n && rs[..n][i].CreateAccount? ensures !MentionedIn(rs[..n][..i], rs[..n][i].user) {
      assert rs[..n][..i] == rs[..i] && rs[..n][i] == rs[i];
    }
  }

  lemma OneCreation(d: Dialect, e: Engine, r: Inbound)
    requires Good(e)
    ensures var out := Apply(d, e, r).out;
      (r.CreateAccount? ==> |out| == 1 && out[0].AccountCreated? && out[0].user == r.user)
      && (!r.CreateAccount? ==> forall k :: 0 <= k < |out| ==> !out[k].AccountCreated?)
  {
    hide Good, Greedy;
  }

  lemma CreatedAppend(a: seq<Outbound>, b: seq<Outbound>)
    requires CreatedFirst(a)
    requires (forall k :: 0 <= k < |b| ==> !b[k].AccountCreated?)
             || (|b| == 1 && b[0].AccountCreated? && UntouchedBy(a, b[0].user))
    ensures CreatedFirst(a + b)
  {
    forall i: nat | i < |a + b| && (a + b)[i].AccountCreated? ensures UntouchedBy((a + b)[..i], (a + b)[i].user) {
      if i < |a| {
        assert (a + b)[..i] == a[..i] && a[i].AccountCreated?;
      } else {
        assert (a + b)[i] == b[i - |a|] && (a + b)[..i] == a + b[..i - |a|] && b[..0] == [] && a + [] == a;
      }
    }
  }

  // ---- so nothing is overwritten ---------------------------------------------------------------

  lemma {:induction false} UntouchedHasNoCash(rs: seq<Outbound>, user: int)
    requires UntouchedBy(rs, user)
    ensures user !in ApplyAll(EMPTY, rs).cash
    decreases |rs|
  {
    if rs != [] {
      assert forall i :: 0 <= i < |rs| - 1 ==> rs[..|rs| - 1][i] == rs[i];
      UntouchedHasNoCash(rs[..|rs| - 1], user);
    }
  }

  lemma {:induction false} NothingOverwritten(rs: seq<Outbound>)
    requires CreatedFirst(rs)
    ensures OverwrittenIn(EMPTY, rs) == 0
    decreases |rs|
  {
    if rs != [] {
      var n := |rs| - 1;
      forall i: nat | i < n && rs[..n][i].AccountCreated? ensures UntouchedBy(rs[..n][..i], rs[..n][i].user) {
        assert rs[..n][..i] == rs[..i] && rs[..n][i] == rs[i];
      }
      NothingOverwritten(rs[..n]);
      if rs[n].AccountCreated? {
        UntouchedHasNoCash(rs[..n], rs[n].user);
      }
    }
  }

  /** With every account created first, user cash plus house fees is exactly what was deposited. */
  lemma ExchangeConservesCash(d: Dialect, grant: int, rs: seq<Inbound>)
    requires CreatedBeforeUse(rs)
    ensures Good(Fresh(grant))
    ensures var b := ApplyAll(EMPTY, Run(d, Fresh(grant), rs).out); SystemCash(b) == b.deposits
  {
    CreationCarriesOver(d, Fresh(grant), rs);
    NothingOverwritten(Run(d, Fresh(grant), rs).out);
    CashConserved(Run(d, Fresh(grant), rs).out);
  }

  // ---- and exactly when cash is conserved --------------------------------------------------------

  ghost function BooksAfter(d: Dialect, grant: int, rs: seq<Inbound>): Books {
    ApplyAll(EMPTY, Run(d, Fresh(grant), rs).out)
  }

  ghost predicate Conserved(b: Books) {
    SystemCash(b) == b.deposits
  }

  /** An account is asked for although its user has a balance. */
  ghost predicate CreatesOver(d: Dialect, grant: int, before: seq<Inbound>, r: Inbound) {
    r.CreateAccount? && Get(BooksAfter(d, grant, before).cash, r.user) != 0
  }

  /** Cash was conserved after every record the engine has answered. */
  ghost predicate AlwaysConserved(d: Dialect, grant: int, rs: seq<Inbound>)
    decreases |rs|
  {
    Conserved(BooksAfter(d, grant, rs)) && (rs != [] ==> AlwaysConserved(d, grant, rs[..|rs| - 1]))
  }

  ghost predicate NeverCreatesOver(d: Dialect, grant: int, rs: seq<Inbound>)
    decreases |rs|
  {
    rs != [] ==> var n := |rs| - 1; NeverCreatesOver(d, grant, rs[..n]) && !CreatesOver(d, grant, rs[..n], rs[n])
  }

  /** The exchange conserves cash throughout if and only if no account is created over a balance. */
  lemma {:induction false} ConservationIsExact(d: Dialect, grant: int, rs: seq<Inbound>)
    ensures AlwaysConserved(d, grant, rs) <==> NeverCreatesOver(d, grant, rs)
    decreases |rs|
  {
    hide Run, Apply, CreatesOver, SystemCash, ApplyAll;
    if rs == [] {
      NothingYet(d, grant);
    } else {
      var n := |rs| - 1;
      ConservationIsExact(d, grant, rs[..n]);
      assert rs == rs[..n] + [rs[n]];
      InboundConserves(d, grant, rs[..n], rs[n]);
    }
  }

  lemma NothingYet(d: Dialect, grant: int)
    ensures BooksAfter(d, grant, []) == EMPTY && Conserved(EMPTY)
  {
  }

  ghost function Gap(b: Books): int {
    SystemCash(b) - b.deposits
  }

  /** Answering one inbound record conserves cash unless it creates an account over a balance. */
  lemma InboundConserves(d: Dialect, grant: int, rs: seq<Inbound>, r: Inbound)
    ensures Gap(BooksAfter(d, grant, rs + [r])) == Gap(BooksAfter(d, grant, rs)) <==> !CreatesOver(d, grant, rs, r)
  {
    var before := Run(d, Fresh(grant), rs);
    RunOne(d, Fresh(grant), rs, r);
    var out := Apply(d, before.engine, r).out;
    OneCreation(d, before.engine, r);
    hide Run, Apply, Gap, ApplyOne;
    if r.CreateAccount? {
      OneMore(before.out, out[0]);
      assert out == [out[0]];
      GapStep(ApplyAll(EMPTY, before.out), out[0]);
    } else {
      NoCreationNoGap(before.out, out);
    }
  }

  lemma GapStep(b: Books, r: Outbound)
    ensures Gap(ApplyOne(b, r)) == Gap(b) <==> !Overwrites(b, r)
  {
    hide SystemCash, ApplyOne;
    RecordConserves(b, r);
  }

  lemma {:induction false} NoCreationNoGap(a: seq<Outbound>, more: seq<Outbound>)
    requires forall k :: 0 <= k < |more| ==> !more[k].AccountCreated?
    ensures Gap(ApplyAll(EMPTY, a + more)) == Gap(ApplyAll(EMPTY, a))
    decreases |more|
  {
    hide Gap, ApplyOne;
    if more == [] {
      assert a + more == a;
    } else {
      var n := |more| - 1;
      NoCreationNoGap(a, more[..n]);
      assert a + more == (a + more[..n]) + [more[n]];
      OneMore(a + more[..n], more[n]);
      GapStep(ApplyAll(EMPTY, a + more[..n]), more[n]);
    }
  }

  /** A second request to create the same account makes the first grant disappear. */
  lemma CreatingTwiceLosesCash(d: Dialect, grant: int, user: int)
    ensures var b := BooksAfter(d, grant, [CreateAccount(0, 1, user), CreateAccount(0, 2, user)]);
      b.deposits == 2 * grant && SystemCash(b) == grant
  {
    var first, second := AccountCreated(0, 1, user, grant), AccountCreated(0, 2, user, grant);
    CreatedTwice(d, grant, user);
    OneMore([], first);
    OneMore([first], second);
    hide SystemCash, ApplyAll, OverwrittenIn;
    assert [] + [first] == [first] && [first] + [second] == [first, second];
    CashConserved([first, second]);
  }

  lemma CreatedTwice(d: Dialect, grant: int, user: int)
    ensures Run(d, Fresh(grant), [CreateAccount(0, 1, user), CreateAccount(0, 2, user)]).out
         == [AccountCreated(0, 1, user, grant), AccountCreated(0, 2, user, grant)]
  {
    var first, second := CreateAccount(0, 1, user), CreateAccount(0, 2, user);
    assert [] + [first] == [first] && [first] + [second] == [first, second];
    RunOne(d, Fresh(grant), [], first);
    RunOne(d, Fresh(grant), [first], second);
  }

  lemma OneMore(rs: seq<Outbound>, r: Outbound)
    ensures ApplyAll(EMPTY, rs + [r]) == ApplyOne(ApplyAll(EMPTY, rs), r)
    ensures OverwrittenIn(EMPTY, rs + [r]) == OverwrittenIn(EMPTY, rs) + Overwritten(ApplyAll(EMPTY, rs), r)
    ensures ApplyAll(EMPTY, []) == EMPTY && OverwrittenIn(EMPTY, []) == 0
  {
    assert (rs + [r])[..|rs|] == rs;
  }
}
