/** Four processes fold the same outbound stream; after whole inbound records they all hold the engine's
    orders. */
module Views {
  import opened Contracts
  import opened EngineSpec
  import opened OrderViews
  import LedgerModel
  import RiskModel
  import Gateway
  import GatewayRuns
  import RiskReplay
  import MarketBooks

  /** The ledger's open orders, the gateway's, and every fan-out book: the engine's ids and quantities. */
  lemma FourViewsAgree(d: Dialect, grant: int, rs: seq<Inbound>)
    ensures Good(Fresh(grant))
    ensures var out := Run(d, Fresh(grant), rs).out;
      var live := Run(d, Fresh(grant), rs).engine.live;
      && LedgerModel.Resting(LedgerModel.ApplyAll(LedgerModel.EMPTY, out).open) == live
      && RiskModel.Mirrors(RiskModel.Replay(out).open, live)
      && MarketBooks.Shows(MarketBooks.BooksOf(out), live)
  {
    hide Run, LedgerModel.Resting, LedgerModel.ApplyAll, RiskModel.Mirrors, RiskModel.Replay, MarketBooks.Shows,
      MarketBooks.BooksOf, SaneAll, Fold;
    RunFolds(d, Fresh(grant), rs);
    var out := Run(d, Fresh(grant), rs).out;
    LedgerModel.RestingFolds(out);
    RiskReplay.ReplaySound(out);
    MarketBooks.BooksShow(out);
  }

  /** So what fan-out quotes is never crossed: the best bid is below the best ask. */
  lemma QuotesNeverCross(d: Dialect, grant: int, rs: seq<Inbound>, symbol: int, depth: nat,
                         bids: seq<MarketBooks.Level>, asks: seq<MarketBooks.Level>)
    requires symbol in MarketBooks.BooksOf(Run(d, Fresh(grant), rs).out)
    requires var book := MarketBooks.BooksOf(Run(d, Fresh(grant), rs).out)[symbol];
      MarketBooks.Tops(book, BUY, depth, bids) && MarketBooks.Tops(book, SELL, depth, asks)
    ensures bids != [] && asks != [] ==> bids[0].price < asks[0].price
  {
    hide Run, MarketBooks.BooksOf, MarketBooks.Tops;
    MarketBooks.MarketAgrees(d, grant, rs);
    var live := Run(d, Fresh(grant), rs).engine.live;
    MarketBooks.TopsDoNotCross(live, symbol, depth, bids, asks);
  }

  /** A live gateway that has caught up, with orders in flight, holds the engine's orders exactly when its open orders
      are the stream's. */
  lemma LiveGatewayAgrees(c: Gateway.Config, events: seq<Gateway.Event>, s: Gateway.System)
    requires GatewayRuns.Reaches(c, events, s)
    ensures Gateway.Typed(c, s)
    ensures s.applied == |Gateway.Outbounds(c, s)| ==>
      (RiskModel.Mirrors(s.risk.open, Run(c.dialect, Fresh(c.grant), s.inbound[..s.answered]).engine.live)
       <==> GatewayRuns.Right(c, s, GatewayRuns.OpenOrders))
    ensures GatewayRuns.NeverSpoiled(c, events, GatewayRuns.OpenOrders) ==>
      GatewayRuns.Right(c, s, GatewayRuns.OpenOrders)
  {
    hide Run, RiskModel.Mirrors, Fold, Gateway.TasksSound, Gateway.RiskSound, Gateway.InboundSound, SaneAll,
      GatewayRuns.Spoils, GatewayRuns.NeverSpoiled, Gateway.Perform, Gateway.Enabled;
    GatewayRuns.ReachableIsSound(c, events, s);
    GatewayRuns.RunIsExact(c, events, GatewayRuns.OpenOrders);
    RunFolds(c.dialect, Fresh(c.grant), s.inbound[..s.answered]);
    assert Gateway.Outbounds(c, s)[..|Gateway.Outbounds(c, s)|] == Gateway.Outbounds(c, s);
  }
}
