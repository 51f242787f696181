/** How both wrappers forget the orders that a match has removed from the book. */
module Bookkeeping {
  import opened Contracts
  import opened PriceTime
  import opened EngineSpec

  ghost function Traded(trades: seq<Trade>): set<int> {
    (set k | 0 <= k < |trades| :: trades[k].buyId) + (set k | 0 <= k < |trades| :: trades[k].sellId)
  }

  /** What is left of `arrived` once the orders of `seen` that are not in `matched` are forgotten. */
  ghost function Remembered(arrived: Orders, matched: Orders, seen: set<int>): Orders {
    map id | id in arrived && (id in matched || id !in seen) :: arrived[id]
  }

  lemma RememberedIsKept(arrived: Orders, matched: Orders, seen: set<int>)
    ensures forall id :: id in Remembered(arrived, matched, seen) ==>
      id in arrived && Remembered(arrived, matched, seen)[id] == arrived[id]
  {
  }

  /** Every order that leaves during a match took part in a trade. */
  lemma {:induction false} GoneWereTraded(live: Orders, t: int)
    requires Open(live) && t in live
    ensures forall id :: id in live && id !in Greedy(live, t).live ==> id in Traded(Greedy(live, t).trades)
    ensures Traded(Greedy(live, t).trades) <= live.Keys
    decreases |live|
  {
    var trades := Greedy(live, t).trades;
    if Candidates(live, t) != {} {
      var m := Best(live, t);
      AfterTradeFacts(live, t, m);
      var after := AfterTrade(live, t, m);
      var rest := Greedy(after, t).trades;
      if t in after { GoneWereTraded(after, t); }
      assert trades[0] == TradeOf(live, t, m);
      forall id ensures id in Traded(trades) <==> id == t || id == m || id in Traded(rest) {
        TradedPrepend(TradeOf(live, t, m), rest, id);
      }
    }
  }

  lemma TradedPrepend(first: Trade, rest: seq<Trade>, id: int)
    ensures id in Traded([first] + rest) <==> id == first.buyId || id == first.sellId || id in Traded(rest)
  {
    var all := [first] + rest;
    assert all[0] == first;
    forall k | 0 <= k < |rest|
      ensures rest[k].buyId in Traded(all) && rest[k].sellId in Traded(all)
    {
      assert all[k + 1] == rest[k];
    }
    assert forall k :: 0 < k < |all| ==> all[k] == rest[k - 1];
  }

  lemma TradedAppend(init: seq<Trade>, last: Trade, id: int)
    ensures id in Traded(init + [last]) <==> id == last.buyId || id == last.sellId || id in Traded(init)
  {
    var all := init + [last];
    assert all[|init|] == last;
    assert forall k :: 0 <= k < |init| ==> all[k] == init[k];
  }

  lemma PruneNothing(index: map<ClientKey, int>, arrived: Orders, matched: Orders)
    ensures Remembered(arrived, matched, {}) == arrived
    ensures Prune(index, arrived, Remembered(arrived, matched, {})) == index
  {
  }

  /** Forgetting one more order drops its record and its index key; a second time changes nothing. */
  lemma ForgetOne(index: map<ClientKey, int>, arrived: Orders, matched: Orders, seen: set<int>, id: int)
    requires id in arrived
    ensures var before := Remembered(arrived, matched, seen); var after := Remembered(arrived, matched, seen + {id});
      && (id in before && id !in matched ==>
            && after == before - {id}
            && Prune(index, arrived, after) == Prune(index, arrived, before) - {Key(arrived[id])})
      && (id !in before || id in matched ==> after == before)
  {
    var before := Remembered(arrived, matched, seen);
    var after := Remembered(arrived, matched, seen + {id});
    if id in before && id !in matched {
      assert after == before - {id};
      PruneOne(index, arrived, before, id);
    }
  }

  lemma PruneOne(index: map<ClientKey, int>, arrived: Orders, before: Orders, id: int)
    requires id in arrived && id in before
    ensures Prune(index, arrived, before - {id}) == Prune(index, arrived, before) - {Key(arrived[id])}
  {
    var gone := set i | i in arrived && i !in before :: Key(arrived[i]);
    var goneAfter := set i | i in arrived && i !in before - {id} :: Key(arrived[i]);
    forall k ensures k in goneAfter <==> k in gone || k == Key(arrived[id]) {
      if k in gone {
        var i :| i in arrived && i !in before && Key(arrived[i]) == k;
        assert i !in before - {id};
      }
      if k == Key(arrived[id]) {
        assert id !in before - {id};
      }
    }
    assert goneAfter == gone + {Key(arrived[id])};
  }

  /** With every traded order seen, exactly the matched orders are remembered. */
  lemma AllForgotten(arrived: Orders, t: int)
    requires Open(arrived) && t in arrived && UncrossedBut(arrived, Some(t))
    ensures var m := Greedy(arrived, t);
      Remembered(arrived, m.live, Traded(m.trades)).Keys == m.live.Keys
  {
    GoneWereTraded(arrived, t);
    GreedyKeeps(arrived, t);
    hide Greedy, Traded, Uncrossed;
    var m := Greedy(arrived, t);
    forall id ensures id in Remembered(arrived, m.live, Traded(m.trades)) <==> id in m.live {
      if id in m.live { assert id in arrived; }
    }
  }

  lemma PruneSameKeys(index: map<ClientKey, int>, arrived: Orders, a: Orders, b: Orders)
    requires a.Keys == b.Keys
    ensures Prune(index, arrived, a) == Prune(index, arrived, b)
  {
    assert forall id :: id in a <==> id in b;
    assert (set i | i in arrived && i !in a :: Key(arrived[i])) == (set i | i in arrived && i !in b :: Key(arrived[i]));
  }

  /** Every trade is between the taker and another live order of its symbol. */
  ghost predicate Involves(trades: seq<Trade>, live: Orders, t: int) {
    && t in live
    && forall k :: 0 <= k < |trades| ==> InvolvesOne(trades[k], live, t)
  }

  ghost predicate InvolvesOne(trade: Trade, live: Orders, t: int)
    requires t in live
  {
    && trade.buyId in live && trade.sellId in live && trade.buyId != trade.sellId
    && (trade.buyId == t || trade.sellId == t)
    && live[trade.buyId].symbol == live[t].symbol && live[trade.sellId].symbol == live[t].symbol
  }

  lemma TradesInvolveTaker(live: Orders, t: int)
    requires Open(live) && t in live
    ensures Involves(Greedy(live, t).trades, live, t)
  {
    GreedyHasPriority(live, t);
    var trades := Greedy(live, t).trades;
    forall k | 0 <= k < |trades| ensures InvolvesOne(trades[k], live, t) {
      assert Fair(live, t, trades, k);
    }
  }

  ghost function Makers(trades: seq<Trade>, t: int): set<int> {
    set k | 0 <= k < |trades| :: MakerOf(trades[k], t)
  }

  /** No order is the maker twice, so each is forgotten at most once. */
  lemma MakersAreDistinct(live: Orders, t: int)
    requires Open(live) && t in live
    ensures var trades := Greedy(live, t).trades;
      forall k :: 0 <= k < |trades| ==> MakerOf(trades[k], t) !in Makers(trades[..k], t) && MakerOf(trades[k], t) != t
  {
    GreedyHasPriority(live, t);
    var trades := Greedy(live, t).trades;
    forall k: nat | k < |trades|
      ensures MakerOf(trades[k], t) !in Makers(trades[..k], t) && MakerOf(trades[k], t) != t
    {
      assert Fair(live, t, trades, k);
      forall j: nat | j < k ensures MakerOf(trades[..k][j], t) != MakerOf(trades[k], t) {
        assert InOrder(live, t, trades, j, k);
      }
    }
  }

  lemma MakersAppend(trades: seq<Trade>, k: nat, t: int)
    requires k < |trades|
    ensures Makers(trades[..k + 1], t) == Makers(trades[..k], t) + {MakerOf(trades[k], t)}
  {
    var a, b := trades[..k + 1], trades[..k];
    forall m ensures m in Makers(a, t) <==> m in Makers(b, t) || m == MakerOf(trades[k], t) {
      if m in Makers(b, t) {
        var j :| 0 <= j < |b| && MakerOf(b[j], t) == m;
        assert a[j] == b[j];
      }
      assert a[k] == trades[k];
      if m in Makers(a, t) && m != MakerOf(trades[k], t) {
        var j :| 0 <= j < |a| && MakerOf(a[j], t) == m;
        assert b[j] == a[j];
      }
    }
  }

  /** Once the makers and the taker have been seen, exactly the matched orders are remembered. */
  lemma MakersAndTakerForgotten(arrived: Orders, matched: Orders, trades: seq<Trade>, t: int)
    requires Involves(trades, arrived, t)
    requires Remembered(arrived, matched, Traded(trades)).Keys == matched.Keys
    ensures Remembered(arrived, matched, Makers(trades, t) + {t}).Keys == matched.Keys
  {
    var seen := Makers(trades, t) + {t};
    forall k | 0 <= k < |trades| ensures trades[k].buyId in seen && trades[k].sellId in seen {
      assert InvolvesOne(trades[k], arrived, t) && MakerOf(trades[k], t) in Makers(trades, t);
    }
    assert forall id :: id in Traded(trades) ==> id in seen;
    forall id ensures id in Remembered(arrived, matched, seen) <==> id in matched {
      assert id in Remembered(arrived, matched, Traded(trades)) <==> id in matched;
    }
  }
}
