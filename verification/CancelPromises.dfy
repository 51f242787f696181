/** Which order a cancel takes. The engine keeps an index by (user, client id); a client can tell what a cancel
    will do from the outbound records alone. */
module CancelPromises {
  import opened Contracts
  import opened PriceTime
  import opened EngineSpec
  import opened OrderViews
  import opened EnginePromises

  // ---- one cancel --------------------------------------------------------------------------------

  /** The answer to a cancel that takes order `id`. */
  ghost predicate Takes(s: Step, e: Engine, c: Inbound, id: int)
    requires c.CancelOrder?
  {
    && id in e.live && e.live[id].user == c.user && e.live[id].client == c.target
    && s.engine.live == e.live - {id} && s.engine.next == e.next
    && s.out == [OrderCancelled(c.ts, id, c.target, c.user, e.live[id].remaining, e.live[id].symbol, USER_REQUESTED)]
  }

  /** The answer to a cancel that reaches nothing. */
  ghost predicate Misses(s: Step, e: Engine, c: Inbound)
    requires c.CancelOrder?
  {
    s.engine == e && s.out == [OrderRejected(c.ts, c.client, c.user, 0, UNKNOWN_ORDER)]
  }

  /** A cancel takes one order at most, of its own user and with the client id it names. */
  lemma CancelTakesItsOwn(e: Engine, c: Inbound)
    requires Good(e) && c.CancelOrder?
    ensures Misses(Cancel(e, c), e, c) || exists id :: Takes(Cancel(e, c), e, c, id)
  {
    if (c.user, c.target) in e.index {
      assert Takes(Cancel(e, c), e, c, e.index[(c.user, c.target)]);
    }
  }

  // ---- the index, read off the records -----------------------------------------------------------

  /** The fill takes the last of an order under this key. */
  predicate Leaves(v: Orders, id: int, qty: int, key: ClientKey) {
    id in v && v[id].remaining <= qty && Key(v[id]) == key
  }

  function NextReached(v: Orders, was: Option<int>, r: Outbound, key: ClientKey): Option<int> {
    match r
    case OrderAccepted(_, id, client, user, _, _, _, _, _) => if (user, client) == key then Some(id) else was
    case Fill(_, maker, taker, _, _, _, qty, _, _) =>
      if Leaves(v, maker, qty, key) || Leaves(v, taker, qty, key) then None else was
    case OrderCancelled(_, _, client, user, _, _, _) => if (user, client) == key then None else was
    case _ => was
  }

  /** The order last accepted under a key, unless an order under that key has left since; `v` are the orders
      open before these records. */
  function Reached(v: Orders, was: Option<int>, rs: seq<Outbound>, key: ClientKey): Option<int> {
    if rs == [] then was
    else NextReached(Fold(v, rs[..|rs| - 1]), Reached(v, was, rs[..|rs| - 1], key), rs[|rs| - 1], key)
  }

  lemma {:induction false} ReachedSplit(v: Orders, was: Option<int>, a: seq<Outbound>, b: seq<Outbound>, key: ClientKey)
    ensures Reached(v, was, a + b, key) == Reached(Fold(v, a), Reached(v, was, a, key), b, key)
    decreases |b|
  {
    hide NextReached, Fold;
    if b == [] {
      assert a + b == a;
    } else {
      ReachedSplit(v, was, a, b[..|b| - 1], key);
      FoldSplit(v, a, b[..|b| - 1]);
      assert (a + b)[..|a + b| - 1] == a + b[..|b| - 1];
    }
  }

  lemma ReachedOne(v: Orders, was: Option<int>, r: Outbound, key: ClientKey)
    ensures Reached(v, was, [r], key) == NextReached(v, was, r, key)
  {
    assert [r][..0] == [];
  }

  /** An order under this key is gone. */
  ghost predicate Gone(before: Orders, after: Orders, key: ClientKey) {
    exists id :: id in before && id !in after && Key(before[id]) == key
  }

  lemma FirstReached(r: Inbound, t: int, live: Orders, m: int, was: Option<int>, key: ClientKey)
    requires r.SubmitOrder? && Open(live) && Priced(live) && t in live && live[t].side == r.side
      && Candidate(live, t, m)
    ensures var f := FillFrom(r, t, live, TradeOf(live, t, m));
      NextReached(live, was, f, key) == if Gone(live, AfterTrade(live, t, m), key) then None else was
  {
    AfterTradeFacts(live, t, m);
    var after, f := AfterTrade(live, t, m), FillFrom(r, t, live, TradeOf(live, t, m));
    assert f.maker == m && f.taker == t && f.qty == Min(live[t].remaining, live[m].remaining);
    hide AfterTrade, Candidate;
    if Gone(live, after, key) {
      var id :| id in live && id !in after && Key(live[id]) == key;
      assert id == t || id == m;
    }
    if Leaves(live, m, f.qty, key) { assert m in live && m !in after; }
    if Leaves(live, t, f.qty, key) { assert t in live && t !in after; }
  }

  lemma GoneInTwo(live: Orders, after: Orders, end: Orders, key: ClientKey)
    requires Shrinks(live, after) && Shrinks(after, end)
    ensures Gone(live, end, key) <==> Gone(live, after, key) || Gone(after, end, key)
  {
    if Gone(live, after, key) {
      var id :| id in live && id !in after && Key(live[id]) == key;
      assert id !in end;
    }
    if Gone(after, end, key) {
      var id :| id in after && id !in end && Key(after[id]) == key;
      assert id in live;
    }
    if Gone(live, end, key) {
      var id :| id in live && id !in end && Key(live[id]) == key;
      assert id in after ==> Key(after[id]) == key;
    }
  }

  lemma ShrinksToItself(live: Orders)
    requires Open(live)
    ensures Shrinks(live, live)
  {
  }

  /** One execution of the walk, and what it leaves to the rest. */
  lemma OneExecution(live: Orders, t: int) returns (m: int)
    requires Open(live) && Priced(live) && t in live && Candidates(live, t) != {}
    ensures Candidate(live, t, m) && t != m && m in live && MakerOf(TradeOf(live, t, m), t) == m
    ensures var after := AfterTrade(live, t, m);
      && Open(after) && Priced(after) && |after| < |live| && Shrinks(live, after)
      && (t in after ==> after[t].side == live[t].side)
      && (t !in after ==> Greedy(after, t) == Matched([], after))
      && Greedy(live, t) == Matched([TradeOf(live, t, m)] + Greedy(after, t).trades, Greedy(after, t).live)
  {
    m := Best(live, t);
    AfterTradeFacts(live, t, m);
    TradeShrinks(live, t, m);
    assert Priced(AfterTrade(live, t, m));
  }

  lemma {:induction false} GreedyReached(r: Inbound, t: int, live: Orders, was: Option<int>, key: ClientKey)
    requires r.SubmitOrder? && Open(live) && Priced(live) && t in live && live[t].side == r.side
    ensures var trades, end := Greedy(live, t).trades, Greedy(live, t).live;
      && (forall k :: 0 <= k < |trades| ==> MakerOf(trades[k], t) in live)
      && Shrinks(live, end)
      && Reached(live, was, FillsFrom(r, t, live, trades), key) == if Gone(live, end, key) then None else was
    decreases |live|
  {
    hide FillsFrom, FillFrom, Next, AfterTrade, Gone, Shrinks, Fold, NextReached, Candidate, Priced, Open, TradeOf,
      Reached;
    if Candidates(live, t) == {} {
      NothingReached(r, t, live, was, key);
    } else {
      var m := OneExecution(live, t);
      hide Greedy;
      var after := AfterTrade(live, t, m);
      var rest, end := Greedy(after, t).trades, Greedy(after, t).live;
      var first := FillFrom(r, t, live, TradeOf(live, t, m));
      FirstReached(r, t, live, m, was, key);
      FirstFill(r, t, live, m);
      var now := NextReached(live, was, first, key);
      if t in after {
        GreedyReached(r, t, after, now, key);
        NoFillsFrom(r, t, after);
      } else {
        ShrinksToItself(after);
        NothingGone(after, now, key);
      }
      LaterFills(r, t, live, m, rest);
      ReachedOn(live, was, first, if rest == [] then [] else FillsFrom(r, t, after, rest), after, key);
      GoneInTwo(live, after, end, key);
      ShrinksOn(live, after, end);
    }
  }

  lemma NothingReached(r: Inbound, t: int, live: Orders, was: Option<int>, key: ClientKey)
    requires r.SubmitOrder? && Open(live) && t in live && Candidates(live, t) == {}
    ensures Greedy(live, t) == Matched([], live) && Shrinks(live, live) && !Gone(live, live, key)
    ensures Reached(live, was, FillsFrom(r, t, live, []), key) == was
  {
  }

  lemma NoFillsFrom(r: Inbound, t: int, live: Orders)
    requires r.SubmitOrder? && t in live
    ensures FillsFrom(r, t, live, []) == []
  {
  }

  lemma NothingGone(v: Orders, was: Option<int>, key: ClientKey)
    ensures Reached(v, was, [], key) == was && !Gone(v, v, key)
  {
  }

  lemma ShrinksOn(live: Orders, after: Orders, end: Orders)
    requires Shrinks(live, after) && Shrinks(after, end)
    ensures Shrinks(live, end)
  {
  }

  lemma ReachedOn(v: Orders, was: Option<int>, first: Outbound, rest: seq<Outbound>, after: Orders, key: ClientKey)
    requires Next(v, first) == after
    ensures Reached(v, was, [first] + rest, key) == Reached(after, NextReached(v, was, first, key), rest, key)
  {
    hide Next, NextReached;
    ReachedSplit(v, was, [first], rest, key);
    ReachedOne(v, was, first, key);
    FoldOne(v, first);
  }

  // ---- the engine's index is what the records say ------------------------------------------------

  function Lookup(index: map<ClientKey, int>, key: ClientKey): Option<int> {
    if key in index then Some(index[key]) else None
  }

  lemma PruneLooksUp(index: map<ClientKey, int>, before: Orders, after: Orders, key: ClientKey)
    ensures Lookup(Prune(index, before, after), key) == if Gone(before, after, key) then None else Lookup(index, key)
  {
  }

  lemma SubmitIndex(d: Dialect, e: Engine, r: Inbound)
    requires Good(e) && r.SubmitOrder? && Passes(r)
    ensures var s := Submit(d, e, r);
      s.engine.index == Prune(e.index[(r.user, r.client) := e.next], Arrived(e, r), s.engine.live)
  {
    hide Greedy, Prune, FillsFrom;
    ArrivalIsOpen(e, r);
  }

  /** Who is gone once the submit is answered: those the match removed, and the newcomer if it expired. */
  lemma GoneInAnswer(d: Dialect, e: Engine, r: Inbound, key: ClientKey)
    requires Good(e) && r.SubmitOrder? && Passes(r)
    ensures Open(Arrived(e, r))
    ensures var m := Greedy(Arrived(e, r), e.next).live;
      var expires := r.tif == IOC && e.next in m && key == (r.user, r.client);
      Gone(Arrived(e, r), Submit(d, e, r).engine.live, key) <==> Gone(Arrived(e, r), m, key) || expires
  {
    hide Greedy, Submit, FillsOf;
    AnswerParts(d, e, r);
    var arrived, m, left := Arrived(e, r), Greedy(Arrived(e, r), e.next).live, Submit(d, e, r).engine.live;
    if Gone(arrived, left, key) {
      var id :| id in arrived && id !in left && Key(arrived[id]) == key;
      assert id in m ==> id == e.next;
    }
    if Gone(arrived, m, key) {
      var id :| id in arrived && id !in m && Key(arrived[id]) == key;
      assert id !in left;
    }
    if r.tif == IOC && e.next in m && key == (r.user, r.client) {
      assert e.next in arrived && e.next !in left && Key(arrived[e.next]) == key;
    }
  }

  lemma SubmitReaches(d: Dialect, e: Engine, r: Inbound, key: ClientKey)
    requires Good(e) && r.SubmitOrder?
    ensures Lookup(Submit(d, e, r).engine.index, key)
         == Reached(e.live, Lookup(e.index, key), Submit(d, e, r).out, key)
  {
    hide Greedy, Gone, Prune, Fold, FillsOf;
    if Passes(r) {
      hide Submit, Reached;
      var arrived, was := Arrived(e, r), Lookup(e.index, key);
      var now := if key == (r.user, r.client) then Some(e.next) else was;
      assert Lookup(e.index[(r.user, r.client) := e.next], key) == now;
      SubmitIndex(d, e, r);
      PruneLooksUp(e.index[(r.user, r.client) := e.next], arrived, Submit(d, e, r).engine.live, key);
      GoneInAnswer(d, e, r, key);
      AnswerParts(d, e, r);
      ArrivalReached(e, r, was, key);
      var m := Greedy(arrived, e.next).live;
      var end := if r.tif == IOC && e.next in m
        then [OrderCancelled(r.ts, e.next, r.client, r.user, m[e.next].remaining, r.symbol, IOC_EXPIRED)] else [];
      EndReached(e.live, was, [AcceptanceOf(e, r)] + FillsOf(e, r), end, key);
    } else {
      ReachedOne(e.live, Lookup(e.index, key), Submit(d, e, r).out[0], key);
    }
  }

  /** An acceptance and its fills, before any expiry. */
  lemma ArrivalReached(e: Engine, r: Inbound, was: Option<int>, key: ClientKey)
    requires Good(e) && r.SubmitOrder? && Passes(r)
    ensures Open(Arrived(e, r))
    ensures Reached(e.live, was, [AcceptanceOf(e, r)] + FillsOf(e, r), key)
         == if Gone(Arrived(e, r), Greedy(Arrived(e, r), e.next).live, key) then None
            else if key == (r.user, r.client) then Some(e.next) else was
  {
    hide Greedy, Gone, Fold, Reached, FillsFrom, Uncrossed;
    ArrivalIsOpen(e, r);
    var now := if key == (r.user, r.client) then Some(e.next) else was;
    GreedyReached(r, e.next, Arrived(e, r), now, key);
    ReachedOn(e.live, was, AcceptanceOf(e, r), FillsOf(e, r), Arrived(e, r), key);
  }

  lemma EndReached(v: Orders, was: Option<int>, out: seq<Outbound>, end: seq<Outbound>, key: ClientKey)
    requires end == [] || (|end| == 1 && end[0].OrderCancelled?)
    ensures Reached(v, was, out + end, key)
         == if end != [] && (end[0].user, end[0].client) == key then None else Reached(v, was, out, key)
  {
    hide Fold;
    ReachedSplit(v, was, out, end, key);
    if end != [] {
      assert end == [end[0]];
      ReachedOne(Fold(v, out), Reached(v, was, out, key), end[0], key);
    }
  }

  /** Answering one record moves the index as it moves what the records say. */
  lemma StepReaches(d: Dialect, e: Engine, r: Inbound, key: ClientKey)
    requires Good(e)
    ensures Lookup(Apply(d, e, r).engine.index, key) == Reached(e.live, Lookup(e.index, key), Apply(d, e, r).out, key)
  {
    hide Open, Uncrossed, Fold;
    if r.SubmitOrder? {
      hide Submit, Reached;
      SubmitReaches(d, e, r, key);
    } else if !r.Unrecognised? {
      ReachedOne(e.live, Lookup(e.index, key), Apply(d, e, r).out[0], key);
    }
  }

  /** After any inbound records, the order a cancel reaches under a key is the one last accepted under it, unless
      an order under that key has left since. */
  lemma {:induction false} IndexIsReached(d: Dialect, e: Engine, rs: seq<Inbound>, key: ClientKey)
    requires Good(e)
    ensures Lookup(Run(d, e, rs).engine.index, key) == Reached(e.live, Lookup(e.index, key), Run(d, e, rs).out, key)
    decreases |rs|
  {
    hide Good, Apply, Fold, NextReached, Lookup;
    if rs != [] {
      var n := |rs| - 1;
      IndexIsReached(d, e, rs[..n], key);
      var before := Run(d, e, rs[..n]);
      RunFolds(d, e, rs[..n]);
      StepReaches(d, before.engine, rs[n], key);
      ReachedSplit(e.live, Lookup(e.index, key), before.out, Apply(d, before.engine, rs[n]).out, key);
    }
  }

  /** So whoever reads the outbound records knows what a cancel will do: it takes the order last accepted under
      the key it names, unless an order under that key has left since, and then it takes nothing. */
  lemma CancelTakesTheLast(d: Dialect, grant: int, rs: seq<Inbound>, c: Inbound)
    requires c.CancelOrder?
    ensures Good(Fresh(grant))
    ensures var before := Run(d, Fresh(grant), rs);
      var reached := Reached(map[], None, before.out, (c.user, c.target));
      var answer := Apply(d, before.engine, c);
      && (reached.Some? ==> Takes(answer, before.engine, c, reached.value))
      && (reached == None ==> Misses(answer, before.engine, c))
  {
    IndexIsReached(d, Fresh(grant), rs, (c.user, c.target));
    hide Run, Reached;
  }

  // ---- cancelling what was just submitted ----------------------------------------------------------

  /** A submit that rests can be cancelled under its client id, whatever time and client id the cancel has, and
      exactly when no other order of that user and client id left while it was matched; otherwise the cancel
      reaches nothing. */
  lemma RestingIsCancellable(d: Dialect, e: Engine, r: Inbound, c: Inbound)
    requires Good(e) && r.SubmitOrder? && Passes(r) && e.next in Submit(d, e, r).engine.live
    requires c.CancelOrder? && c.user == r.user && c.target == r.client
    ensures var s := Submit(d, e, r); Good(s.engine)
    ensures var s := Submit(d, e, r); var answer := Cancel(s.engine, c);
      && (Takes(answer, s.engine, c, e.next) <==> !Gone(e.live, s.engine.live, (r.user, r.client)))
      && (Gone(e.live, s.engine.live, (r.user, r.client)) <==> Misses(answer, s.engine, c))
  {
    hide Greedy, Prune, FillsFrom;
    SubmitKeepsGood(d, e, r);
    SubmitIndex(d, e, r);
    var key, s := (r.user, r.client), Submit(d, e, r);
    hide Submit;
    PruneLooksUp(e.index[key := e.next], Arrived(e, r), s.engine.live, key);
    if Gone(Arrived(e, r), s.engine.live, key) {
      var id :| id in Arrived(e, r) && id !in s.engine.live && Key(Arrived(e, r)[id]) == key;
      assert id in e.live && e.live[id] == Arrived(e, r)[id];
    }
    if Gone(e.live, s.engine.live, key) {
      var id :| id in e.live && id !in s.engine.live && Key(e.live[id]) == key;
      assert id in Arrived(e, r) && id != e.next;
    }
  }
}
