/** What a consumer of the outbound stream can know about open orders: one fold of the records, and the
    theorem that after whole inbound records it is the engine's own table. */
module OrderViews {
  import opened Contracts
  import opened PriceTime
  import opened EngineSpec

  // ---- the fold --------------------------------------------------------------------------------

  function AcceptedOrder(r: Outbound): Order
    requires r.OrderAccepted?
  {
    Order(r.client, r.user, r.symbol, r.side, r.price, r.qty, r.ts)
  }

  /** An unknown order is ignored; an exhausted one leaves. */
  function Drop(v: Orders, id: int, qty: int): Orders {
    if id in v then Reduce(v, id, qty) else v
  }

  function Next(v: Orders, r: Outbound): Orders {
    match r
    case OrderAccepted(_, id, _, _, _, _, _, _, _) => v[id := AcceptedOrder(r)]
    case Fill(_, maker, taker, _, _, _, qty, _, _) => Drop(Drop(v, maker, qty), taker, qty)
    case OrderCancelled(_, id, _, _, _, _, _) => v - {id}
    case _ => v
  }

  function Fold(v: Orders, rs: seq<Outbound>): Orders {
    if rs == [] then v else Next(Fold(v, rs[..|rs| - 1]), rs[|rs| - 1])
  }

  // ---- what every record may assume about the records before it --------------------------------

  /** The record makes sense to someone who holds `v`. */
  ghost predicate Sane(v: Orders, r: Outbound) {
    match r
    case OrderAccepted(_, id, _, _, price, qty, _, side, _) =>
      id !in v && qty > 0 && price > 0 && (side == BUY || side == SELL)
    case Fill(_, maker, taker, makerUser, takerUser, price, qty, symbol, aggressor) =>
      && maker in v && taker in v && maker != taker
      && 0 < qty <= v[maker].remaining && qty <= v[taker].remaining
      && v[taker].side == aggressor && v[maker].side == Opposite(aggressor)
      && (aggressor == BUY || aggressor == SELL)
      && v[maker].user == makerUser && v[taker].user == takerUser
      && v[maker].symbol == symbol && v[taker].symbol == symbol
      && price == v[maker].price > 0 && Crosses(v[taker], v[maker])
    case OrderCancelled(_, id, client, user, remaining, symbol, _) =>
      id in v && v[id].remaining == remaining && v[id].user == user && v[id].client == client && v[id].symbol == symbol
    case _ => true
  }

  ghost predicate SaneAt(v: Orders, rs: seq<Outbound>, i: nat)
    requires i < |rs|
  {
    Sane(Fold(v, rs[..i]), rs[i])
  }

  ghost predicate SaneAll(v: Orders, rs: seq<Outbound>) {
    forall i: nat :: i < |rs| ==> SaneAt(v, rs, i)
  }

  lemma {:induction false} FoldSplit(v: Orders, a: seq<Outbound>, b: seq<Outbound>)
    ensures Fold(v, a + b) == Fold(Fold(v, a), b)
    decreases |b|
  {
    if b == [] {
      assert a + b == a;
    } else {
      FoldSplit(v, a, b[..|b| - 1]);
      assert (a + b)[..|a + b| - 1] == a + b[..|b| - 1];
    }
  }

  lemma FoldOne(v: Orders, r: Outbound)
    ensures Fold(v, [r]) == Next(v, r)
  {
    assert [r][..0] == [];
  }

  lemma SaneSplit(v: Orders, a: seq<Outbound>, b: seq<Outbound>)
    requires SaneAll(v, a) && SaneAll(Fold(v, a), b)
    ensures SaneAll(v, a + b)
  {
    hide Sane, Fold;
    forall i: nat | i < |a + b| ensures SaneAt(v, a + b, i) {
      if i < |a| {
        assert (a + b)[..i] == a[..i] && SaneAt(v, a, i);
      } else {
        assert (a + b)[..i] == a + b[..i - |a|];
        FoldSplit(v, a, b[..i - |a|]);
        assert SaneAt(Fold(v, a), b, i - |a|);
      }
    }
  }

  lemma SanePrefix(v: Orders, rs: seq<Outbound>, k: nat)
    requires SaneAll(v, rs) && k <= |rs|
    ensures SaneAll(v, rs[..k])
  {
    hide Sane, Fold;
    forall i: nat | i < k ensures SaneAt(v, rs[..k], i) {
      assert rs[..k][..i] == rs[..i] && SaneAt(v, rs, i);
    }
  }

  lemma SaneOne(v: Orders, r: Outbound)
    requires Sane(v, r)
    ensures SaneAll(v, [r])
  {
    assert [r][..0] == [];
  }

  // ---- the engine's outputs are sane, and fold to its table -------------------------------------

  ghost predicate Priced(live: Orders) {
    forall id :: id in live ==> live[id].price > 0
  }

  lemma ReduceCommutes(live: Orders, a: int, b: int, qty: int)
    requires a in live && b in live && a != b
    ensures b in Reduce(live, a, qty) && a in Reduce(live, b, qty)
    ensures Reduce(Reduce(live, a, qty), b, qty) == Reduce(Reduce(live, b, qty), a, qty)
  {
  }

  /** The first execution of a greedy walk, as its record reports it. */
  lemma FirstFill(r: Inbound, t: int, live: Orders, m: int)
    requires r.SubmitOrder? && Open(live) && Priced(live) && t in live && live[t].side == r.side
      && Candidate(live, t, m)
    ensures var f := FillFrom(r, t, live, TradeOf(live, t, m));
      Sane(live, f) && t != m && Next(live, f) == AfterTrade(live, t, m)
  {
    var q := Min(live[t].remaining, live[m].remaining);
    ReduceCommutes(live, m, t, q);
    hide Reduce;
  }

  /** The rest of the walk reports the same users and symbols after the first execution. */
  lemma LaterFills(r: Inbound, t: int, live: Orders, m: int, rest: seq<Trade>)
    requires r.SubmitOrder? && Open(live) && t in live && Candidate(live, t, m)
    requires t != m && (rest != [] ==> t in AfterTrade(live, t, m))
    requires forall k :: 0 <= k < |rest| ==> MakerOf(rest[k], t) in AfterTrade(live, t, m)
    ensures var trades := [TradeOf(live, t, m)] + rest;
      && (forall k :: 0 <= k < |trades| ==> MakerOf(trades[k], t) in live)
      && FillsFrom(r, t, live, trades)
         == [FillFrom(r, t, live, TradeOf(live, t, m))]
            + if rest == [] then [] else FillsFrom(r, t, AfterTrade(live, t, m), rest)
  {
    hide AfterTrade, Open, FillFrom;
    var first := TradeOf(live, t, m);
    assert MakerOf(first, t) == m;
    SameUsers(live, t, m);
    if rest == [] {
      FillsOfOne(r, t, live, first);
      assert [first] + [] == [first];
    } else {
      FillsCons(r, t, live, AfterTrade(live, t, m), first, rest);
    }
  }

  lemma FillsOfOne(r: Inbound, t: int, live: Orders, first: Trade)
    requires r.SubmitOrder? && t in live && MakerOf(first, t) in live
    ensures FillsFrom(r, t, live, [first]) == [FillFrom(r, t, live, first)]
  {
  }

  lemma FillsCons(r: Inbound, t: int, live: Orders, after: Orders, first: Trade, rest: seq<Trade>)
    requires r.SubmitOrder? && t in live && t in after && MakerOf(first, t) in live
    requires forall id :: id in after ==>
      id in live && after[id].user == live[id].user && after[id].symbol == live[id].symbol
    requires forall k :: 0 <= k < |rest| ==> MakerOf(rest[k], t) in after
    ensures forall k :: 0 <= k < |[first] + rest| ==> MakerOf(([first] + rest)[k], t) in live
    ensures FillsFrom(r, t, live, [first] + rest) == [FillFrom(r, t, live, first)] + FillsFrom(r, t, after, rest)
  {
    var trades := [first] + rest;
    forall k | 0 <= k < |trades| ensures MakerOf(trades[k], t) in live {
      if k > 0 { assert trades[k] == rest[k - 1]; }
    }
    forall k | 0 <= k < |rest| ensures FillFrom(r, t, live, trades[k + 1]) == FillFrom(r, t, after, rest[k]) {
      assert trades[k + 1] == rest[k];
    }
  }

  lemma SameUsers(live: Orders, t: int, m: int)
    requires Open(live) && t in live && Candidate(live, t, m)
    ensures t != m
    ensures forall id :: id in AfterTrade(live, t, m) ==>
      id in live && AfterTrade(live, t, m)[id].user == live[id].user
        && AfterTrade(live, t, m)[id].symbol == live[id].symbol
  {
  }

  lemma {:induction false} GreedyFolds(r: Inbound, t: int, live: Orders)
    requires r.SubmitOrder? && Open(live) && Priced(live) && t in live && live[t].side == r.side
    ensures var trades := Greedy(live, t).trades;
      && (forall k :: 0 <= k < |trades| ==> MakerOf(trades[k], t) in live)
      && SaneAll(live, FillsFrom(r, t, live, trades))
      && Fold(live, FillsFrom(r, t, live, trades)) == Greedy(live, t).live
    decreases |live|
  {
    if Candidates(live, t) == {} {
      assert Greedy(live, t) == Matched([], live);
    } else {
      var m := Best(live, t);
      AfterTradeFacts(live, t, m);
      var after := AfterTrade(live, t, m);
      assert Priced(after);
      var rest := Greedy(after, t).trades;
      var first := FillFrom(r, t, live, TradeOf(live, t, m));
      FirstFill(r, t, live, m);
      SaneOne(live, first);
      FoldOne(live, first);
      if t in after {
        GreedyFolds(r, t, after);
        LaterFills(r, t, live, m, rest);
        hide Greedy, FillsFrom, SaneAll, Fold, Next, AfterTrade;
        JoinFills(live, first, if rest == [] then [] else FillsFrom(r, t, after, rest), after, Greedy(after, t).live);
      } else {
        LaterFills(r, t, live, m, []);
        assert [first] + [] == [first];
      }
    }
  }

  lemma JoinFills(live: Orders, first: Outbound, fills: seq<Outbound>, after: Orders, end: Orders)
    requires SaneAll(live, [first]) && Fold(live, [first]) == after
    requires SaneAll(after, fills) && Fold(after, fills) == end
    ensures SaneAll(live, [first] + fills) && Fold(live, [first] + fills) == end
  {
    hide SaneAll, Fold;
    SaneSplit(live, [first], fills);
    FoldSplit(live, [first], fills);
  }

  lemma AcceptedFolds(d: Dialect, e: Engine, r: Inbound)
    requires Good(e) && r.SubmitOrder? && Passes(r)
    ensures var accepted := OrderAccepted(r.ts, e.next, r.client, r.user, r.price, r.qty, r.symbol, r.side, r.tif);
      var arrived := e.live[e.next := OrderFrom(r)];
      SaneAll(e.live, [accepted]) && Fold(e.live, [accepted]) == arrived && Open(arrived) && Priced(arrived)
  {
    var accepted := OrderAccepted(r.ts, e.next, r.client, r.user, r.price, r.qty, r.symbol, r.side, r.tif);
    ArrivalIsOpen(e, r);
    SaneOne(e.live, accepted);
    FoldOne(e.live, accepted);
  }

  lemma SubmitFolds(d: Dialect, e: Engine, r: Inbound)
    requires Good(e) && r.SubmitOrder?
    ensures SaneAll(e.live, Submit(d, e, r).out) && Fold(e.live, Submit(d, e, r).out) == Submit(d, e, r).engine.live
  {
    hide Greedy, SaneAll, Fold, Uncrossed, Prune, FillsFrom, Priced;
    var out := Submit(d, e, r).out;
    if RejectReason(d, r).Some? {
      SaneOne(e.live, out[0]);
      FoldOne(e.live, out[0]);
    } else {
      var id, arrived := e.next, e.live[e.next := OrderFrom(r)];
      var accepted := OrderAccepted(r.ts, id, r.client, r.user, r.price, r.qty, r.symbol, r.side, r.tif);
      AcceptedFolds(d, e, r);
      ArrivalIsOpen(e, r);
      GreedyFolds(r, id, arrived);
      MakersAreLive(arrived, id);
      var m := Greedy(arrived, id);
      var fills := FillsFrom(r, id, arrived, m.trades);
      JoinFills(e.live, accepted, fills, arrived, m.live);
      if r.tif == IOC && id in m.live {
        GreedyKeeps(arrived, id);
        ExpiryFolds(e.live, [accepted] + fills, arrived, m.live, r, id);
      }
    }
  }

  lemma ExpiryFolds(live: Orders, out: seq<Outbound>, arrived: Orders, matched: Orders, r: Inbound, id: int)
    requires r.SubmitOrder? && id in arrived && arrived[id] == OrderFrom(r)
    requires Shrinks(arrived, matched) && id in matched
    requires SaneAll(live, out) && Fold(live, out) == matched
    ensures var cancelled := OrderCancelled(r.ts, id, r.client, r.user, matched[id].remaining, r.symbol, IOC_EXPIRED);
      SaneAll(live, out + [cancelled]) && Fold(live, out + [cancelled]) == matched - {id}
  {
    var cancelled := OrderCancelled(r.ts, id, r.client, r.user, matched[id].remaining, r.symbol, IOC_EXPIRED);
    SaneOne(matched, cancelled);
    FoldOne(matched, cancelled);
    hide SaneAll, Fold;
    SaneSplit(live, out, [cancelled]);
    FoldSplit(live, out, [cancelled]);
  }

  lemma CancelFolds(e: Engine, r: Inbound)
    requires Good(e) && r.CancelOrder?
    ensures SaneAll(e.live, Cancel(e, r).out) && Fold(e.live, Cancel(e, r).out) == Cancel(e, r).engine.live
  {
    hide Uncrossed, Open;
    var out := Cancel(e, r).out;
    SaneOne(e.live, out[0]);
    FoldOne(e.live, out[0]);
  }

  lemma ApplyFolds(d: Dialect, e: Engine, r: Inbound)
    requires Good(e)
    ensures SaneAll(e.live, Apply(d, e, r).out) && Fold(e.live, Apply(d, e, r).out) == Apply(d, e, r).engine.live
  {
    hide Good;
    match r
    case SubmitOrder(_, _, _, _, _, _, _, _) => SubmitFolds(d, e, r);
    case CancelOrder(_, _, _, _) => CancelFolds(e, r);
    case Unrecognised(_) =>
    case _ =>
      SaneOne(e.live, Apply(d, e, r).out[0]);
      FoldOne(e.live, Apply(d, e, r).out[0]);
  }

  /** Every record the engine emits makes sense to a consumer of the records before it, and after whole
      inbound records the consumer holds exactly the engine's live orders. */
  lemma {:induction false} RunFolds(d: Dialect, e: Engine, rs: seq<Inbound>)
    requires Good(e)
    ensures SaneAll(e.live, Run(d, e, rs).out) && Fold(e.live, Run(d, e, rs).out) == Run(d, e, rs).engine.live
    decreases |rs|
  {
    hide Good, Apply, SaneAll, Sane;
    if rs == [] {
      assert SaneAll(e.live, []) by { NothingIsSane(e.live); }
    } else {
      var n := |rs| - 1;
      RunFolds(d, e, rs[..n]);
      var before := Run(d, e, rs[..n]);
      ApplyFolds(d, before.engine, rs[n]);
      SaneSplit(e.live, before.out, Apply(d, before.engine, rs[n]).out);
      FoldSplit(e.live, before.out, Apply(d, before.engine, rs[n]).out);
    }
  }

  lemma NothingIsSane(v: Orders)
    ensures SaneAll(v, [])
  {
  }

  // ---- no quantity appears or disappears --------------------------------------------------------

  function AcceptedQty(r: Outbound, id: int): int {
    if r.OrderAccepted? && r.orderId == id then r.qty else 0
  }

  function FilledQty(r: Outbound, id: int): int {
    if r.Fill? && (r.maker == id || r.taker == id) then r.qty else 0
  }

  function CancelledQty(r: Outbound, id: int): int {
    if r.OrderCancelled? && r.orderId == id then r.remaining else 0
  }

  /** Accepted less filled less cancelled, over all the records. */
  function Balance(rs: seq<Outbound>, id: int): int {
    if rs == [] then 0
    else
      var r := rs[|rs| - 1];
      Balance(rs[..|rs| - 1], id) + AcceptedQty(r, id) - FilledQty(r, id) - CancelledQty(r, id)
  }

  function RestingQty(v: Orders, id: int): int {
    if id in v then v[id].remaining else 0
  }

  lemma QuantityStep(v: Orders, r: Outbound, id: int)
    requires Sane(v, r)
    ensures RestingQty(Next(v, r), id)
            == RestingQty(v, id) + AcceptedQty(r, id) - FilledQty(r, id) - CancelledQty(r, id)
  {
  }

  lemma {:induction false} QuantityBalances(v: Orders, rs: seq<Outbound>, id: int)
    requires SaneAll(v, rs)
    ensures RestingQty(v, id) + Balance(rs, id) == RestingQty(Fold(v, rs), id)
    decreases |rs|
  {
    hide Sane;
    if rs != [] {
      var n := |rs| - 1;
      SanePrefix(v, rs, n);
      QuantityBalances(v, rs[..n], id);
      assert SaneAt(v, rs, n);
      QuantityStep(Fold(v, rs[..n]), rs[n], id);
    }
  }

  /** Whatever an order was accepted for has been filled, cancelled, or still rests: after every single
      record, and with the engine's own quantities after whole inbound records. */
  lemma OrdersAreConserved(d: Dialect, grant: int, rs: seq<Inbound>, id: int, k: nat)
    requires k <= |Run(d, Fresh(grant), rs).out|
    ensures Balance(Run(d, Fresh(grant), rs).out[..k], id)
      == RestingQty(Fold(map[], Run(d, Fresh(grant), rs).out[..k]), id)
    ensures Balance(Run(d, Fresh(grant), rs).out, id) == RestingQty(Run(d, Fresh(grant), rs).engine.live, id)
  {
    RunFolds(d, Fresh(grant), rs);
    var out := Run(d, Fresh(grant), rs).out;
    hide Sane, Run, Fold;
    SanePrefix(map[], out, k);
    QuantityBalances(map[], out[..k], id);
    QuantityBalances(map[], out, id);
  }

  // ---- the engine never accepts an id twice ------------------------------------------------------

  ghost predicate AcceptedIn(rs: seq<Outbound>, id: int) {
    exists i :: 0 <= i < |rs| && rs[i].OrderAccepted? && rs[i].orderId == id
  }

  /** No order id is accepted twice. */
  ghost predicate AcceptedOnce(rs: seq<Outbound>) {
    forall i :: 0 <= i < |rs| && rs[i].OrderAccepted? ==> !AcceptedIn(rs[..i], rs[i].orderId)
  }

  lemma {:induction false} EngineAcceptsOnce(d: Dialect, grant: int, rs: seq<Inbound>)
    ensures Good(Fresh(grant)) && AcceptedOnce(Run(d, Fresh(grant), rs).out)
    ensures forall id :: AcceptedIn(Run(d, Fresh(grant), rs).out, id) ==> id < Run(d, Fresh(grant), rs).engine.next
    decreases |rs|
  {
    hide Apply;
    if rs != [] {
      var n := |rs| - 1;
      EngineAcceptsOnce(d, grant, rs[..n]);
      var before := Run(d, Fresh(grant), rs[..n]);
      OneAcceptance(d, before.engine, rs[n]);
      AcceptMore(before.out, Apply(d, before.engine, rs[n]).out, before.engine.next,
        Apply(d, before.engine, rs[n]).engine.next);
    }
  }

  lemma OneAcceptance(d: Dialect, e: Engine, r: Inbound)
    requires Good(e)
    ensures var s := Apply(d, e, r);
      && e.next <= s.engine.next
      && (forall k :: 0 < k < |s.out| ==> !s.out[k].OrderAccepted?)
      && (s.out != [] && s.out[0].OrderAccepted? ==> s.out[0].orderId == e.next < s.engine.next)
  {
    hide Good, Greedy;
  }

  lemma AcceptMore(a: seq<Outbound>, b: seq<Outbound>, next: int, after: int)
    requires AcceptedOnce(a) && next <= after && forall id :: AcceptedIn(a, id) ==> id < next
    requires forall k :: 0 < k < |b| ==> !b[k].OrderAccepted?
    requires b != [] && b[0].OrderAccepted? ==> b[0].orderId == next < after
    ensures AcceptedOnce(a + b) && forall id :: AcceptedIn(a + b, id) ==> id < after
  {
    var all := a + b;
    forall i | 0 <= i < |all| && all[i].OrderAccepted? ensures !AcceptedIn(all[..i], all[i].orderId) {
      if i < |a| {
        assert all[..i] == a[..i] && all[i] == a[i];
      } else {
        assert all[i] == b[i - |a|] && all[..|a|] == a;
      }
    }
    forall id | AcceptedIn(all, id) ensures id < after {
      var i :| 0 <= i < |all| && all[i].OrderAccepted? && all[i].orderId == id;
      if i < |a| {
        assert a[i].OrderAccepted? && a[i].orderId == id;
        assert AcceptedIn(a, id);
      } else {
        assert all[i] == b[i - |a|];
      }
    }
  }
}
