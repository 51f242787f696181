/** What the engine promises its clients, in terms of the records they send and read: which submits rest,
    what they trade against and in which order, and which order a cancel takes. */
module EnginePromises {
  import opened Contracts
  import opened PriceTime
  import opened EngineSpec
  import opened OrderViews

  // ---- quantities in an answer -------------------------------------------------------------------

  /** Everything these records fill of one order. */
  function FilledIn(rs: seq<Outbound>, id: int): int {
    if rs == [] then 0 else FilledIn(rs[..|rs| - 1], id) + FilledQty(rs[|rs| - 1], id)
  }

  lemma {:induction false} FilledAdds(a: seq<Outbound>, b: seq<Outbound>, id: int)
    ensures FilledIn(a + b, id) == FilledIn(a, id) + FilledIn(b, id)
    decreases |b|
  {
    if b == [] {
      assert a + b == a;
    } else {
      FilledAdds(a, b[..|b| - 1], id);
      assert (a + b)[..|a + b| - 1] == a + b[..|b| - 1];
    }
  }

  lemma FilledOne(r: Outbound, id: int)
    ensures FilledIn([r], id) == FilledQty(r, id)
  {
    assert [r][..0] == [];
  }

  lemma {:induction false} NothingFilled(rs: seq<Outbound>, id: int)
    requires forall k :: 0 <= k < |rs| ==> !rs[k].Fill?
    ensures FilledIn(rs, id) == 0
    decreases |rs|
  {
    if rs != [] { NothingFilled(rs[..|rs| - 1], id); }
  }

  lemma {:induction false} FillsBalance(rs: seq<Outbound>, id: int)
    requires forall k :: 0 <= k < |rs| ==> rs[k].Fill?
    ensures Balance(rs, id) == -FilledIn(rs, id)
    decreases |rs|
  {
    if rs != [] { FillsBalance(rs[..|rs| - 1], id); }
  }

  // ---- the answer to a submit, piece by piece ----------------------------------------------------

  ghost function Arrived(e: Engine, r: Inbound): Orders
    requires r.SubmitOrder?
  {
    e.live[e.next := OrderFrom(r)]
  }

  ghost function FillsOf(e: Engine, r: Inbound): seq<Outbound>
    requires Good(e) && r.SubmitOrder? && Passes(r)
  {
    ArrivalIsOpen(e, r);
    MakersAreLive(Arrived(e, r), e.next);
    FillsFrom(r, e.next, Arrived(e, r), Greedy(Arrived(e, r), e.next).trades)
  }

  function AcceptanceOf(e: Engine, r: Inbound): Outbound
    requires r.SubmitOrder?
  {
    OrderAccepted(r.ts, e.next, r.client, r.user, r.price, r.qty, r.symbol, r.side, r.tif)
  }

  /** What the match leaves of the submit and of everything else. */
  lemma MatchLeaves(e: Engine, r: Inbound, id: int)
    requires Good(e) && r.SubmitOrder? && Passes(r)
    ensures Open(Arrived(e, r))
    ensures var m := Greedy(Arrived(e, r), e.next).live; var arrived := Arrived(e, r);
      && (forall k :: 0 <= k < |FillsOf(e, r)| ==> FillsOf(e, r)[k].Fill?)
      && (id in arrived ==> 0 <= RestingQty(m, id) == arrived[id].remaining - FilledIn(FillsOf(e, r), id)
                            <= arrived[id].remaining)
      && (id in m ==> id in arrived && m[id] == arrived[id].(remaining := m[id].remaining) && m[id].remaining > 0)
  {
    hide FilledIn, Balance, SaneAll, Fold, Uncrossed;
    ArrivalIsOpen(e, r);
    var arrived := Arrived(e, r);
    assert Priced(arrived);
    GreedyFolds(r, e.next, arrived);
    GreedyKeeps(arrived, e.next);
    hide Greedy;
    QuantityBalances(arrived, FillsOf(e, r), id);
    FillsBalance(FillsOf(e, r), id);
  }

  lemma AnswerParts(d: Dialect, e: Engine, r: Inbound)
    requires Good(e) && r.SubmitOrder? && Passes(r)
    ensures Open(Arrived(e, r))
    ensures var s, m := Submit(d, e, r), Greedy(Arrived(e, r), e.next).live;
      var expires := r.tif == IOC && e.next in m;
      && s.out == [AcceptanceOf(e, r)] + FillsOf(e, r)
           + (if expires
              then [OrderCancelled(r.ts, e.next, r.client, r.user, m[e.next].remaining, r.symbol, IOC_EXPIRED)]
              else [])
      && s.engine.live == if expires then m - {e.next} else m
  {
    hide Greedy, Prune, FillsFrom;
    ArrivalIsOpen(e, r);
  }

  /** The fills of the submit are those of its answer. */
  lemma AnswerFills(d: Dialect, e: Engine, r: Inbound, id: int)
    requires Good(e) && r.SubmitOrder? && Passes(r)
    ensures FilledIn(Submit(d, e, r).out, id) == FilledIn(FillsOf(e, r), id)
  {
    hide Greedy, FilledIn, Submit, FillsOf;
    AnswerParts(d, e, r);
    var head, fills, out := [AcceptanceOf(e, r)], FillsOf(e, r), Submit(d, e, r).out;
    FilledOne(head[0], id);
    FilledAdds(head, fills, id);
    if out != head + fills {
      FilledAdds(head + fills, [out[|out| - 1]], id);
      FilledOne(out[|out| - 1], id);
    }
  }

  // ---- which submits rest ------------------------------------------------------------------------

  /** An immediate-or-cancel order never rests: it is filled, and what is not filled is cancelled by
      the last record of the answer, which is there exactly when something was left. */
  lemma IocNeverRests(d: Dialect, e: Engine, r: Inbound)
    requires Good(e) && r.SubmitOrder? && Passes(r) && r.tif == IOC
    ensures var s := Submit(d, e, r); var filled := FilledIn(s.out, e.next); var last := |s.out| - 1;
      && e.next !in s.engine.live && 0 <= filled <= r.qty
      && (forall k :: 0 <= k < |s.out| ==> (s.out[k].OrderCancelled? <==> k == last && filled < r.qty))
      && (filled < r.qty ==>
            s.out[last] == OrderCancelled(r.ts, e.next, r.client, r.user, r.qty - filled, r.symbol, IOC_EXPIRED))
  {
    hide Greedy, FilledIn, Submit, FillsOf;
    AnswerParts(d, e, r);
    AnswerFills(d, e, r, e.next);
    MatchLeaves(e, r, e.next);
  }

  /** A good-till-cancelled order rests exactly when it is not filled, with what is left of it and everything
      else as submitted, and its answer cancels nothing. */
  lemma GtcRests(d: Dialect, e: Engine, r: Inbound)
    requires Good(e) && r.SubmitOrder? && Passes(r) && r.tif == GTC
    ensures var s := Submit(d, e, r); var filled := FilledIn(s.out, e.next);
      && (e.next in s.engine.live <==> filled < r.qty) && 0 <= filled <= r.qty
      && (e.next in s.engine.live ==>
            s.engine.live[e.next] == Order(r.client, r.user, r.symbol, r.side, r.price, r.qty - filled, r.ts))
      && (forall k :: 0 <= k < |s.out| ==> !s.out[k].OrderCancelled?)
  {
    hide Greedy, FilledIn, Submit, FillsOf;
    AnswerParts(d, e, r);
    AnswerFills(d, e, r, e.next);
    MatchLeaves(e, r, e.next);
  }

  /** Every other order keeps what the answer does not fill of it, and leaves when nothing is kept. */
  lemma OthersKeepTheRest(d: Dialect, e: Engine, r: Inbound, id: int)
    requires Good(e) && r.SubmitOrder? && Passes(r) && id in e.live
    ensures var s := Submit(d, e, r); var rest := e.live[id].remaining - FilledIn(s.out, id);
      && 0 <= rest <= e.live[id].remaining && (id in s.engine.live <==> rest > 0)
      && (id in s.engine.live ==> s.engine.live[id] == e.live[id].(remaining := rest))
  {
    hide Greedy, FilledIn, Submit, FillsOf;
    AnswerParts(d, e, r);
    AnswerFills(d, e, r, id);
    MatchLeaves(e, r, id);
    assert Arrived(e, r)[id] == e.live[id] && id != e.next;
  }

  /** Nothing rests that did not rest before, but for the submitted order. */
  lemma NothingElseRests(d: Dialect, e: Engine, r: Inbound, id: int)
    requires Good(e) && r.SubmitOrder? && Passes(r) && id in Submit(d, e, r).engine.live
    ensures id in e.live || (id == e.next && r.tif == GTC)
  {
    hide Greedy, FilledIn, Submit, FillsOf;
    AnswerParts(d, e, r);
    MatchLeaves(e, r, id);
    if id == e.next && r.tif == IOC { IocNeverRests(d, e, r); }
  }

  // ---- whom it trades with -----------------------------------------------------------------------

  /** A resting order on the other side of this submit. */
  predicate Opposes(o: Order, r: Inbound)
    requires r.SubmitOrder?
  {
    o.symbol == r.symbol && (r.side == BUY ==> o.side == SELL) && (r.side != BUY ==> o.side == BUY)
  }

  /** It is priced within the submit's limit. */
  predicate Within(price: int, r: Inbound)
    requires r.SubmitOrder?
  {
    if r.side == BUY then price <= r.price else r.price <= price
  }

  /** Resting order `a` is to trade before `b`: at a price better for the submit, or equal and earlier. */
  predicate First(live: Orders, r: Inbound, a: int, b: int)
    requires r.SubmitOrder? && a in live && b in live
  {
    || (if r.side == BUY then live[a].price < live[b].price else live[a].price > live[b].price)
    || (live[a].price == live[b].price && a < b)
  }

  ghost predicate MakerBefore(out: seq<Outbound>, k: nat, id: int)
    requires k <= |out|
  {
    exists j :: 0 <= j < k && out[j].Fill? && out[j].maker == id
  }

  /** A fill between the newcomer and a resting order, at that order's price and for as much as both have left. */
  ghost predicate FairFill(e: Engine, r: Inbound, out: seq<Outbound>, k: nat)
    requires r.SubmitOrder? && k < |out| && out[k].Fill?
  {
    var f := out[k];
    && f.ts == r.ts && f.taker == e.next && f.takerUser == r.user && f.aggressor == r.side && f.symbol == r.symbol
    && f.maker in e.live && Opposes(e.live[f.maker], r) && f.makerUser == e.live[f.maker].user
    && f.price == e.live[f.maker].price && Within(f.price, r)
    && f.qty == Min(r.qty - FilledIn(out[..k], e.next), e.live[f.maker].remaining) > 0
  }

  /** It is first in line of all that have not yet traded, and has not itself. */
  ghost predicate NextInLine(e: Engine, r: Inbound, out: seq<Outbound>, k: nat)
    requires r.SubmitOrder? && k < |out| && out[k].Fill? && out[k].maker in e.live
  {
    && !MakerBefore(out, k, out[k].maker)
    && forall c :: c in e.live && Opposes(e.live[c], r) && c != out[k].maker && !MakerBefore(out, k, c) ==>
         First(e.live, r, out[k].maker, c)
  }

  ghost function TradesFor(e: Engine, r: Inbound): (trades: seq<Trade>)
    requires Good(e) && r.SubmitOrder? && Passes(r)
    ensures forall k :: 0 <= k < |trades| ==> MakerOf(trades[k], e.next) in Arrived(e, r)
  {
    ArrivalIsOpen(e, r);
    MakersAreLive(Arrived(e, r), e.next);
    Greedy(Arrived(e, r), e.next).trades
  }

  /** Where the fills stand in the answer. */
  lemma FillsStand(d: Dialect, e: Engine, r: Inbound)
    requires Good(e) && r.SubmitOrder? && Passes(r)
    ensures var out, trades := Submit(d, e, r).out, TradesFor(e, r);
      && |trades| < |out| && out[0] == AcceptanceOf(e, r)
      && (forall k :: 0 <= k < |out| ==> (out[k].Fill? <==> 1 <= k <= |trades|))
      && (forall k :: 1 <= k <= |trades| ==> out[k] == FillFrom(r, e.next, Arrived(e, r), trades[k - 1]))
  {
    hide Greedy, FillFrom, Submit, Good;
    AnswerParts(d, e, r);
    var out, trades, fills := Submit(d, e, r).out, TradesFor(e, r), FillsOf(e, r);
    assert |fills| == |trades|;
    forall k | 0 <= k < |trades| ensures fills[k] == FillFrom(r, e.next, Arrived(e, r), trades[k]) && fills[k].Fill? {
      FillIsFill(r, e.next, Arrived(e, r), trades[k]);
    }
    forall k | 1 <= k <= |trades| ensures out[k] == fills[k - 1] {}
  }

  lemma FillIsFill(r: Inbound, t: int, live: Orders, trade: Trade)
    requires r.SubmitOrder? && t in live && MakerOf(trade, t) in live
    ensures var f := FillFrom(r, t, live, trade);
      f.Fill? && f.maker == MakerOf(trade, t) && f.taker == t && f.qty == trade.qty
  {
  }

  lemma {:induction false} FilledSoFar(d: Dialect, e: Engine, r: Inbound, k: nat)
    requires Good(e) && r.SubmitOrder? && Passes(r) && 1 <= k <= |TradesFor(e, r)| + 1
    ensures k <= |Submit(d, e, r).out|
    ensures FilledIn(Submit(d, e, r).out[..k], e.next) == Filled(TradesFor(e, r)[..k - 1])
  {
    hide Greedy, FillFrom, Submit, Good, TradesFor;
    FillsStand(d, e, r);
    var out, trades := Submit(d, e, r).out, TradesFor(e, r);
    if k == 1 {
      assert out[..1] == [out[0]];
      FilledOne(out[0], e.next);
    } else {
      FilledSoFar(d, e, r, k - 1);
      assert out[..k][..k - 1] == out[..k - 1] && trades[..k - 1][..k - 2] == trades[..k - 2];
      FillIsFill(r, e.next, Arrived(e, r), trades[k - 2]);
    }
  }

  lemma MakersSoFar(d: Dialect, e: Engine, r: Inbound, k: nat, c: int)
    requires Good(e) && r.SubmitOrder? && Passes(r) && 1 <= k <= |TradesFor(e, r)| + 1
    ensures k <= |Submit(d, e, r).out|
    ensures MakerBefore(Submit(d, e, r).out, k, c) <==> TradedBefore(e.next, TradesFor(e, r), k - 1, c)
  {
    hide Greedy, FillFrom, Submit, Good, TradesFor;
    FillsStand(d, e, r);
    var out, trades := Submit(d, e, r).out, TradesFor(e, r);
    forall j | 0 <= j < |trades| ensures out[j + 1].Fill? && out[j + 1].maker == MakerOf(trades[j], e.next) {
      FillIsFill(r, e.next, Arrived(e, r), trades[j]);
    }
    if MakerBefore(out, k, c) {
      var j :| 0 <= j < k && out[j].Fill? && out[j].maker == c;
      assert MakerOf(trades[j - 1], e.next) == c;
    }
    if TradedBefore(e.next, trades, k - 1, c) {
      var j :| 0 <= j < k - 1 && MakerOf(trades[j], e.next) == c;
      assert out[j + 1].Fill? && out[j + 1].maker == c;
    }
  }

  lemma CandidatesAre(e: Engine, r: Inbound, c: int)
    requires Good(e) && r.SubmitOrder? && Passes(r)
    ensures Candidate(Arrived(e, r), e.next, c) <==> c in e.live && Opposes(e.live[c], r) && Within(e.live[c].price, r)
    ensures c in e.live ==> c != e.next && Arrived(e, r)[c] == e.live[c]
  {
  }

  /** Every fill is fair, and the makers trade strictly in price-time order, none of them skipped. */
  lemma FillsFollowPriority(d: Dialect, e: Engine, r: Inbound, k: nat)
    requires Good(e) && r.SubmitOrder? && Passes(r)
    requires k < |Submit(d, e, r).out| && Submit(d, e, r).out[k].Fill?
    ensures FairFill(e, r, Submit(d, e, r).out, k) && NextInLine(e, r, Submit(d, e, r).out, k)
  {
    hide Greedy, Submit, Good, FilledIn, Filled, Candidate;
    var out, trades, arrived := Submit(d, e, r).out, TradesFor(e, r), Arrived(e, r);
    FillsStand(d, e, r);
    Prioritised(e, r);
    var n := k - 1;
    assert Fair(arrived, e.next, trades, n) && NothingSkipped(arrived, e.next, trades, n);
    var m := MakerOf(trades[n], e.next);
    CandidatesAre(e, r, m);
    FilledSoFar(d, e, r, k);
    forall j | 0 <= j < n ensures MakerOf(trades[j], e.next) != m {
      assert InOrder(arrived, e.next, trades, j, n);
    }
    MakersSoFar(d, e, r, k, m);
    forall c | c in e.live && Opposes(e.live[c], r) && c != m && !MakerBefore(out, k, c)
      ensures First(e.live, r, m, c)
    {
      MakersSoFar(d, e, r, k, c);
      CandidatesAre(e, r, c);
    }
  }

  lemma Prioritised(e: Engine, r: Inbound)
    requires Good(e) && r.SubmitOrder? && Passes(r)
    ensures PriceTimePriority(Arrived(e, r), e.next, TradesFor(e, r))
  {
    ArrivalIsOpen(e, r);
    GreedyHasPriority(Arrived(e, r), e.next);
  }

  /** The submit goes unfilled only when everything within its limit has traded. */
  lemma NothingLeftToTake(d: Dialect, e: Engine, r: Inbound, c: int)
    requires Good(e) && r.SubmitOrder? && Passes(r) && FilledIn(Submit(d, e, r).out, e.next) < r.qty
    requires c in e.live && Opposes(e.live[c], r) && Within(e.live[c].price, r)
    ensures MakerBefore(Submit(d, e, r).out, |Submit(d, e, r).out|, c)
  {
    hide Greedy, Submit, Good, FilledIn, Filled, Candidate;
    var out, trades, n := Submit(d, e, r).out, TradesFor(e, r), |TradesFor(e, r)|;
    Prioritised(e, r);
    CandidatesAre(e, r, c);
    FilledSoFar(d, e, r, n + 1);
    assert trades[..n] == trades;
    FillsStand(d, e, r);
    MakersSoFar(d, e, r, n + 1, c);
    FilledAdds(out[..n + 1], out[n + 1..], e.next);
    assert out[..n + 1] + out[n + 1..] == out;
    NothingFilled(out[n + 1..], e.next);
    assert Arrived(e, r)[e.next].remaining == r.qty;
    assert TradedBefore(e.next, trades, n, c);
    assert MakerBefore(out, n + 1, c);
  }
}
