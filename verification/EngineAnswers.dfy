/** What the engine answers to each record of a run, field by field, and what is left resting at the end. */
module EngineAnswers {
  import opened Contracts
  import opened PriceTime
  import opened EngineSpec
  import opened OrderViews
  import opened EnginePromises

  // ---- which rule a rejection names --------------------------------------------------------------

  /** The rules in the order in which each engine checks them, by the reason that names them. */
  function Rules(d: Dialect): seq<int> {
    match d
    case Naive => [INVALID_SIDE, INVALID_TIF, INVALID_PRICE, INVALID_QUANTITY]
    case Cpp => [INVALID_PRICE, INVALID_QUANTITY, INVALID_SIDE, INVALID_TIF]
  }

  /** The submit breaks the rule that this reason names. */
  predicate Breaks(r: Inbound, reason: int)
    requires r.SubmitOrder?
  {
    || (reason == INVALID_SIDE && r.side != BUY && r.side != SELL)
    || (reason == INVALID_TIF && r.tif != GTC && r.tif != IOC)
    || (reason == INVALID_PRICE && r.price <= 0)
    || (reason == INVALID_QUANTITY && r.qty <= 0)
  }

  /** Rule number `i` is the first that the submit breaks. */
  predicate FirstBroken(d: Dialect, r: Inbound, i: nat)
    requires r.SubmitOrder?
  {
    i < |Rules(d)| && Breaks(r, Rules(d)[i]) && forall j :: 0 <= j < i ==> !Breaks(r, Rules(d)[j])
  }

  // ---- the answer to each record -----------------------------------------------------------------

  /** A submit is rejected for the first rule it breaks, or accepted as it was sent. */
  ghost predicate AnswersSubmit(d: Dialect, a: Outbound, r: Inbound)
    requires r.SubmitOrder?
  {
    && a.ts == r.ts
    && (a.OrderRejected? || a.OrderAccepted?)
    && a.client == r.client && a.user == r.user && a.symbol == r.symbol
    && (a.OrderRejected? ==> exists i: nat :: FirstBroken(d, r, i) && a.reason == Rules(d)[i])
    && (a.OrderAccepted? ==>
          && a.price == r.price && a.qty == r.qty && a.side == r.side && a.tif == r.tif
          && forall i: nat :: !FirstBroken(d, r, i))
  }

  /** `a` is the answer that record `r` asks for. */
  ghost predicate Answers(d: Dialect, grant: int, a: Outbound, r: Inbound) {
    match r
    case SubmitOrder(_, _, _, _, _, _, _, _) => AnswersSubmit(d, a, r)
    case CancelOrder(ts, client, user, target) =>
      || a == OrderRejected(ts, client, user, 0, UNKNOWN_ORDER)
      || (a.OrderCancelled? && a.ts == ts && a.client == target && a.user == user && a.reason == USER_REQUESTED)
    case CreateAccount(ts, client, user) => a == AccountCreated(ts, client, user, grant)
    case CreditCash(ts, client, user, amount) => a == CashCredited(ts, client, user, amount)
    case ConfigureReplay(ts, client, rate, hi, lo) => a == ReplayConfigured(ts, client, rate, hi, lo)
    case Unrecognised(_) => false
  }

  function AnchorsOf(out: seq<Outbound>): seq<Outbound> {
    if out == [] then []
    else AnchorsOf(out[..|out| - 1]) + if IsAnchor(out[|out| - 1]) then [out[|out| - 1]] else []
  }

  lemma {:induction false} AnchorsOfAdds(a: seq<Outbound>, b: seq<Outbound>)
    ensures AnchorsOf(a + b) == AnchorsOf(a) + AnchorsOf(b)
    decreases |b|
  {
    if b == [] {
      assert a + b == a;
    } else {
      AnchorsOfAdds(a, b[..|b| - 1]);
      assert (a + b)[..|a + b| - 1] == a + b[..|b| - 1];
    }
  }

  lemma {:induction false} NoneOf(out: seq<Outbound>)
    requires forall k :: 0 <= k < |out| ==> !IsAnchor(out[k])
    ensures AnchorsOf(out) == []
    decreases |out|
  {
    if out != [] { NoneOf(out[..|out| - 1]); }
  }

  lemma FirstOnly(out: seq<Outbound>)
    requires out != [] && IsAnchor(out[0]) && forall k :: 0 < k < |out| ==> !IsAnchor(out[k])
    ensures AnchorsOf(out) == [out[0]]
  {
    hide IsAnchor;
    assert out == [out[0]] + out[1..];
    AnchorsOfAdds([out[0]], out[1..]);
    NoneOf(out[1..]);
    assert [out[0]][..0] == [];
  }

  lemma SubmitAnswered(d: Dialect, e: Engine, r: Inbound)
    requires Good(e) && r.SubmitOrder?
    ensures Submit(d, e, r).out != [] && AnswersSubmit(d, Submit(d, e, r).out[0], r)
  {
    hide Greedy, Good;
    var a := Submit(d, e, r).out[0];
    if Passes(r) {
      assert forall i: nat :: !FirstBroken(d, r, i);
    } else {
      var i := BrokenRule(d, r);
      assert FirstBroken(d, r, i);
    }
  }

  lemma BrokenRule(d: Dialect, r: Inbound) returns (i: nat)
    requires r.SubmitOrder? && !Passes(r)
    ensures FirstBroken(d, r, i) && RejectReason(d, r) == Some(Rules(d)[i])
  {
    i := if Breaks(r, Rules(d)[0]) then 0 else if Breaks(r, Rules(d)[1]) then 1
         else if Breaks(r, Rules(d)[2]) then 2 else 3;
  }

  lemma OneAnswer(d: Dialect, e: Engine, r: Inbound)
    requires Good(e) && !r.Unrecognised?
    ensures var out := Apply(d, e, r).out;
      |AnchorsOf(out)| == 1 && Answers(d, e.grant, AnchorsOf(out)[0], r)
  {
    hide Good, Submit, AnchorsOf, AnswersSubmit;
    var out := Apply(d, e, r).out;
    if r.SubmitOrder? {
      SubmitAnchors(d, e, r);
      SubmitAnswered(d, e, r);
    } else if r.CancelOrder? {
      hide Answers;
      CancelAnswered(d, e, r);
    }
    FirstOnly(out);
  }

  lemma CancelAnswered(d: Dialect, e: Engine, r: Inbound)
    requires Good(e) && r.CancelOrder?
    ensures var out := Cancel(e, r).out;
      |out| == 1 && IsAnchor(out[0]) && Answers(d, e.grant, out[0], r)
  {
  }

  /** Every record is answered in its turn: the anchors of the output are, one by one and in order, the answers
      to the inbound records. */
  lemma {:induction false} EachAnswered(d: Dialect, grant: int, rs: seq<Inbound>)
    requires AllRecognised(rs)
    ensures Good(Fresh(grant))
    ensures var anchors := AnchorsOf(Run(d, Fresh(grant), rs).out);
      && |anchors| == |rs|
      && forall k :: 0 <= k < |rs| ==> Answers(d, grant, anchors[k], rs[k])
    decreases |rs|
  {
    hide Apply, Answers, Good;
    assert Good(Fresh(grant)) by { FreshIsGood(grant); }
    if rs != [] {
      var n := |rs| - 1;
      assert AllRecognised(rs[..n]) by { forall k | 0 <= k < n ensures !rs[..n][k].Unrecognised? {} }
      EachAnswered(d, grant, rs[..n]);
      var before := Run(d, Fresh(grant), rs[..n]);
      OneAnswer(d, before.engine, rs[n]);
      AnchorsOfAdds(before.out, Apply(d, before.engine, rs[n]).out);
      forall k | 0 <= k < n ensures rs[..n][k] == rs[k] {}
    }
  }

  // ---- order ids ---------------------------------------------------------------------------------

  /** The ids of the orders these records accept. */
  function AcceptedIds(out: seq<Outbound>): seq<int> {
    if out == [] then []
    else
      AcceptedIds(out[..|out| - 1]) + if out[|out| - 1].OrderAccepted? then [out[|out| - 1].orderId] else []
  }

  lemma {:induction false} AcceptedAdds(a: seq<Outbound>, b: seq<Outbound>)
    ensures AcceptedIds(a + b) == AcceptedIds(a) + AcceptedIds(b)
    decreases |b|
  {
    if b == [] {
      assert a + b == a;
    } else {
      AcceptedAdds(a, b[..|b| - 1]);
      assert (a + b)[..|a + b| - 1] == a + b[..|b| - 1];
    }
  }

  lemma {:induction false} NoneAccepted(out: seq<Outbound>)
    requires forall k :: 0 <= k < |out| ==> !out[k].OrderAccepted?
    ensures AcceptedIds(out) == []
    decreases |out|
  {
    if out != [] { NoneAccepted(out[..|out| - 1]); }
  }

  lemma OneAccepted(d: Dialect, e: Engine, r: Inbound)
    requires Good(e)
    ensures var s := Apply(d, e, r); var ids := AcceptedIds(s.out);
      && ids == (if r.SubmitOrder? && Passes(r) then [e.next] else [])
      && s.engine.next == e.next + |ids|
  {
    hide AcceptedIds, Greedy, Good;
    OneAcceptance(d, e, r);
    AcceptedFirst(Apply(d, e, r).out);
    NextId(d, e, r);
  }

  /** At most the first record accepts. */
  lemma AcceptedFirst(out: seq<Outbound>)
    requires forall k :: 0 < k < |out| ==> !out[k].OrderAccepted?
    ensures AcceptedIds(out) == if out != [] && out[0].OrderAccepted? then [out[0].orderId] else []
  {
    if out != [] {
      assert out == [out[0]] + out[1..] && [out[0]][..0] == [];
      AcceptedAdds([out[0]], out[1..]);
      NoneAccepted(out[1..]);
    }
  }

  lemma NextId(d: Dialect, e: Engine, r: Inbound)
    requires Good(e)
    ensures var s := Apply(d, e, r); var accepts := r.SubmitOrder? && Passes(r);
      && (s.out != [] && s.out[0].OrderAccepted? <==> accepts)
      && s.engine.next == e.next + if accepts then 1 else 0
  {
    hide Good, Greedy, Prune, FillsFrom;
  }

  /** Accepted orders are numbered 1, 2, 3, ... in the order of their acceptance. */
  lemma {:induction false} IdsAreConsecutive(d: Dialect, grant: int, rs: seq<Inbound>)
    ensures Good(Fresh(grant))
    ensures var s := Run(d, Fresh(grant), rs); var ids := AcceptedIds(s.out);
      && s.engine.next == |ids| + 1
      && forall k :: 0 <= k < |ids| ==> ids[k] == k + 1
    decreases |rs|
  {
    hide Apply, Good;
    FreshIsGood(grant);
    if rs != [] {
      var n := |rs| - 1;
      IdsAreConsecutive(d, grant, rs[..n]);
      var before := Run(d, Fresh(grant), rs[..n]);
      OneAccepted(d, before.engine, rs[n]);
      AcceptedAdds(before.out, Apply(d, before.engine, rs[n]).out);
    }
  }

  // ---- what is left resting ----------------------------------------------------------------------

  /** Among these records is the acceptance, good till cancelled, of order `id` as `o` has it. */
  ghost predicate AcceptedToRest(out: seq<Outbound>, id: int, o: Order) {
    exists k :: 0 <= k < |out| && AcceptsToRest(out[k], id, o)
  }

  predicate AcceptsToRest(a: Outbound, id: int, o: Order) {
    && a.OrderAccepted? && a.orderId == id && a.tif == GTC
    && a.client == o.client && a.user == o.user && a.symbol == o.symbol && a.side == o.side && a.price == o.price
    && a.ts == o.createdAt && 0 < o.remaining <= a.qty
  }

  lemma StepRests(d: Dialect, e: Engine, r: Inbound, id: int)
    requires Good(e) && id in Apply(d, e, r).engine.live
    ensures var s := Apply(d, e, r); var o := s.engine.live[id];
      || (id in e.live && o == e.live[id].(remaining := o.remaining) && 0 < o.remaining <= e.live[id].remaining)
      || (s.out != [] && AcceptsToRest(s.out[0], id, o))
  {
    hide Greedy, Uncrossed, Prune;
    if r.SubmitOrder? && Passes(r) {
      hide Submit, FilledIn, FillsOf;
      NothingElseRests(d, e, r, id);
      if id in e.live {
        OthersKeepTheRest(d, e, r, id);
      } else {
        GtcRests(d, e, r);
        FillsStand(d, e, r);
      }
    }
  }

  lemma StillRests(out: seq<Outbound>, more: seq<Outbound>, id: int, was: Order, o: Order)
    requires AcceptedToRest(out, id, was) && o == was.(remaining := o.remaining) && 0 < o.remaining <= was.remaining
    ensures AcceptedToRest(out + more, id, o)
  {
    var k :| 0 <= k < |out| && AcceptsToRest(out[k], id, was);
    assert AcceptsToRest((out + more)[k], id, o);
  }

  /** Whatever rests after a run was accepted in it, good till cancelled, and rests as it was accepted but for
      what has been filled. */
  lemma {:induction false} OnlyGtcRests(d: Dialect, grant: int, rs: seq<Inbound>, id: int)
    ensures Good(Fresh(grant))
    ensures var s := Run(d, Fresh(grant), rs);
      id in s.engine.live ==> AcceptedToRest(s.out, id, s.engine.live[id])
    decreases |rs|
  {
    hide Apply, Good, AcceptsToRest;
    FreshIsGood(grant);
    if rs != [] {
      var n := |rs| - 1;
      OnlyGtcRests(d, grant, rs[..n], id);
      var before := Run(d, Fresh(grant), rs[..n]);
      var step := Apply(d, before.engine, rs[n]);
      if id in step.engine.live {
        StepRests(d, before.engine, rs[n], id);
        var o := step.engine.live[id];
        if step.out != [] && AcceptsToRest(step.out[0], id, o) {
          assert (before.out + step.out)[|before.out|] == step.out[0];
        } else {
          StillRests(before.out, step.out, id, before.engine.live[id], o);
        }
      }
    }
  }
}
