/** The engine as a function from one inbound record to the outbound records it answers with.

    Both engines are proved to compute this function; they differ only in the order in which they
    check a submit, which is the `Dialect`. */
module EngineSpec {
  import opened Contracts
  import opened PriceTime

  type ClientKey = (int, int)

  /** `live` holds every resting order of every symbol. `index` maps (user, client id) to the order a
      cancel reaches. `grant` is configuration and never changes. */
  datatype Engine = Engine(next: int, live: Orders, index: map<ClientKey, int>, grant: int)

  datatype Step = Step(engine: Engine, out: seq<Outbound>)

  datatype Dialect = Naive | Cpp

  function Key(o: Order): ClientKey {
    (o.user, o.client)
  }

  ghost predicate IndexSound(live: Orders, index: map<ClientKey, int>) {
    forall k :: k in index ==> index[k] in live && Key(live[index[k]]) == k
  }

  ghost predicate Good(e: Engine) {
    && e.next >= 1
    && Open(e.live)
    && (forall id :: id in e.live ==> 1 <= id < e.next && e.live[id].price > 0)
    && Uncrossed(e.live)
    && IndexSound(e.live, e.index)
  }

  function Fresh(grant: int): Engine {
    Engine(1, map[], map[], grant)
  }

  lemma FreshIsGood(grant: int)
    ensures Good(Fresh(grant))
  {
  }

  // ---- validity ------------------------------------------------------------------------------

  predicate BadSide(r: Inbound) requires r.SubmitOrder? { r.side != BUY && r.side != SELL }
  predicate BadTif(r: Inbound) requires r.SubmitOrder? { r.tif != GTC && r.tif != IOC }
  predicate BadPrice(r: Inbound) requires r.SubmitOrder? { r.price <= 0 }
  predicate BadQty(r: Inbound) requires r.SubmitOrder? { r.qty <= 0 }

  /** The submit breaks no rule. */
  predicate Passes(r: Inbound)
    requires r.SubmitOrder?
  {
    !BadSide(r) && !BadTif(r) && !BadPrice(r) && !BadQty(r)
  }

  function RejectReason(d: Dialect, r: Inbound): (reason: Option<int>)
    requires r.SubmitOrder?
    ensures reason == None <==> Passes(r)
  {
    match d
    case Naive =>
      if BadSide(r) then Some(INVALID_SIDE)
      else if BadTif(r) then Some(INVALID_TIF)
      else if BadPrice(r) then Some(INVALID_PRICE)
      else if BadQty(r) then Some(INVALID_QUANTITY)
      else None
    case Cpp =>
      if BadPrice(r) then Some(INVALID_PRICE)
      else if BadQty(r) then Some(INVALID_QUANTITY)
      else if BadSide(r) then Some(INVALID_SIDE)
      else if BadTif(r) then Some(INVALID_TIF)
      else None
  }

  // ---- one record ----------------------------------------------------------------------------

  function OrderFrom(r: Inbound): Order
    requires r.SubmitOrder?
  {
    Order(r.client, r.user, r.symbol, r.side, r.price, r.qty, r.ts)
  }

  function FillFrom(r: Inbound, t: int, live: Orders, trade: Trade): Outbound
    requires r.SubmitOrder? && t in live && MakerOf(trade, t) in live
  {
    var m := MakerOf(trade, t);
    Fill(r.ts, m, t, live[m].user, live[t].user, trade.price, trade.qty, live[m].symbol, r.side)
  }

  function FillsFrom(r: Inbound, t: int, live: Orders, trades: seq<Trade>): (fills: seq<Outbound>)
    requires r.SubmitOrder? && t in live
    requires forall k :: 0 <= k < |trades| ==> MakerOf(trades[k], t) in live
  {
    seq(|trades|, k requires 0 <= k < |trades| => FillFrom(r, t, live, trades[k]))
  }

  /** An order that leaves takes its index entry with it, whichever order that entry named. */
  function Prune(index: map<ClientKey, int>, before: Orders, after: Orders): map<ClientKey, int> {
    index - (set id | id in before && id !in after :: Key(before[id]))
  }

  lemma MakersAreLive(live: Orders, t: int)
    requires Open(live) && t in live
    ensures forall k :: 0 <= k < |Greedy(live, t).trades| ==> MakerOf(Greedy(live, t).trades[k], t) in live
  {
    GreedyHasPriority(live, t);
    var trades := Greedy(live, t).trades;
    forall k | 0 <= k < |trades| ensures MakerOf(trades[k], t) in live {
      assert Fair(live, t, trades, k);
    }
  }

  ghost function Submit(d: Dialect, e: Engine, r: Inbound): Step
    requires Good(e) && r.SubmitOrder?
  {
    var reason := RejectReason(d, r);
    if reason.Some? then
      Step(e, [OrderRejected(r.ts, r.client, r.user, r.symbol, reason.value)])
    else
      var id := e.next;
      var arrived := e.live[id := OrderFrom(r)];
      var matched := Greedy(arrived, id);
      MakersAreLive(arrived, id);
      var out := [OrderAccepted(r.ts, id, r.client, r.user, r.price, r.qty, r.symbol, r.side, r.tif)]
                 + FillsFrom(r, id, arrived, matched.trades);
      var expires := r.tif == IOC && id in matched.live;
      var left := if expires then matched.live - {id} else matched.live;
      Step(e.(next := id + 1, live := left, index := Prune(e.index[Key(OrderFrom(r)) := id], arrived, left)),
           if expires
           then out + [OrderCancelled(r.ts, id, r.client, r.user, matched.live[id].remaining, r.symbol, IOC_EXPIRED)]
           else out)
  }

  function Cancel(e: Engine, r: Inbound): Step
    requires r.CancelOrder? && IndexSound(e.live, e.index)
  {
    var key := (r.user, r.target);
    if key !in e.index then
      Step(e, [OrderRejected(r.ts, r.client, r.user, 0, UNKNOWN_ORDER)])
    else
      var id := e.index[key];
      var o := e.live[id];
      Step(e.(live := e.live - {id}, index := e.index - {key}),
           [OrderCancelled(r.ts, id, o.client, o.user, o.remaining, o.symbol, USER_REQUESTED)])
  }

  ghost function Apply(d: Dialect, e: Engine, r: Inbound): (s: Step)
    requires Good(e)
    ensures Good(s.engine) && s.engine.grant == e.grant
  {
    match r
    case SubmitOrder(_, _, _, _, _, _, _, _) => SubmitKeepsGood(d, e, r); Submit(d, e, r)
    case CancelOrder(_, _, _, _) => CancelKeepsGood(e, r); Cancel(e, r)
    case CreateAccount(ts, client, user) => Step(e, [AccountCreated(ts, client, user, e.grant)])
    case CreditCash(ts, client, user, amount) => Step(e, [CashCredited(ts, client, user, amount)])
    case ConfigureReplay(ts, client, rate, hi, lo) => Step(e, [ReplayConfigured(ts, client, rate, hi, lo)])
    case Unrecognised(_) => Step(e, [])
  }

  lemma CancelKeepsGood(e: Engine, r: Inbound)
    requires Good(e) && r.CancelOrder?
    ensures Good(Cancel(e, r).engine)
  {
  }

  lemma ArrivalIsOpen(e: Engine, r: Inbound)
    requires Good(e) && r.SubmitOrder? && Passes(r)
    ensures var arrived := e.live[e.next := OrderFrom(r)];
      Open(arrived) && UncrossedBut(arrived, Some(e.next)) && e.next !in e.live
  {
  }

  lemma SubmitKeepsGood(d: Dialect, e: Engine, r: Inbound)
    requires Good(e) && r.SubmitOrder?
    ensures Good(Submit(d, e, r).engine)
  {
    if RejectReason(d, r) == None {
      ArrivalIsOpen(e, r);
      var arrived := e.live[e.next := OrderFrom(r)];
      GreedyKeeps(arrived, e.next);
      var left := Submit(d, e, r).engine.live;
      PruneIsSound(e.index[Key(OrderFrom(r)) := e.next], arrived, left);
    }
  }

  lemma PruneIsSound(index: map<ClientKey, int>, before: Orders, after: Orders)
    requires IndexSound(before, index) && Shrinks(before, after)
    ensures IndexSound(after, Prune(index, before, after))
  {
    var gone := set id | id in before && id !in after :: Key(before[id]);
    forall k | k in index ensures k in gone || (index[k] in after && Key(after[index[k]]) == k) {
      var id := index[k];
      assert id in before && Key(before[id]) == k;
      if id !in after { assert Key(before[id]) in gone; }
    }
  }

  // ---- whole runs ----------------------------------------------------------------------------

  ghost function Run(d: Dialect, e: Engine, rs: seq<Inbound>): (s: Step)
    requires Good(e)
    ensures Good(s.engine) && s.engine.grant == e.grant
    decreases |rs|
  {
    if rs == [] then Step(e, [])
    else
      var before := Run(d, e, rs[..|rs| - 1]);
      var last := Apply(d, before.engine, rs[|rs| - 1]);
      Step(last.engine, before.out + last.out)
  }

  lemma RunOne(d: Dialect, e: Engine, rs: seq<Inbound>, r: Inbound)
    requires Good(e)
    ensures Run(d, e, rs + [r]).engine == Apply(d, Run(d, e, rs).engine, r).engine
    ensures Run(d, e, rs + [r]).out == Run(d, e, rs).out + Apply(d, Run(d, e, rs).engine, r).out
  {
    assert (rs + [r])[..|rs|] == rs;
  }

  /** Stopping and continuing is the same as not stopping. */
  lemma {:induction false} RunSplit(d: Dialect, e: Engine, a: seq<Inbound>, b: seq<Inbound>)
    requires Good(e)
    ensures Run(d, e, a + b).engine == Run(d, Run(d, e, a).engine, b).engine
    ensures Run(d, e, a + b).out == Run(d, e, a).out + Run(d, Run(d, e, a).engine, b).out
    decreases |b|
  {
    hide Apply, Good;
    if b == [] {
      assert a + b == a;
    } else {
      var init, last := b[..|b| - 1], b[|b| - 1];
      RunSplit(d, e, a, init);
      RunOne(d, e, a + init, last);
      RunOne(d, Run(d, e, a).engine, init, last);
      hide Run;
      assert (a + init) + [last] == a + b && init + [last] == b;
      Associative(Run(d, e, a).out, Run(d, Run(d, e, a).engine, init).out,
        Apply(d, Run(d, e, a + init).engine, last).out);
    }
  }

  lemma Associative<T>(a: seq<T>, b: seq<T>, c: seq<T>)
    ensures (a + b) + c == a + (b + c)
  {
  }

  // ---- anchors -------------------------------------------------------------------------------

  predicate IsAnchor(r: Outbound) {
    match r
    case OrderAccepted(_, _, _, _, _, _, _, _, _) => true
    case OrderRejected(_, _, _, _, _) => true
    case AccountCreated(_, _, _, _) => true
    case CashCredited(_, _, _, _) => true
    case ReplayConfigured(_, _, _, _, _) => true
    case OrderCancelled(_, _, _, _, _, _, reason) => reason == USER_REQUESTED
    case Fill(_, _, _, _, _, _, _, _, _) => false
  }

  function Anchors(s: seq<Outbound>): nat {
    if s == [] then 0 else Anchors(s[..|s| - 1]) + if IsAnchor(s[|s| - 1]) then 1 else 0
  }

  lemma {:induction false} AnchorsAdd(a: seq<Outbound>, b: seq<Outbound>)
    ensures Anchors(a + b) == Anchors(a) + Anchors(b)
    decreases |b|
  {
    if b == [] {
      assert a + b == a;
    } else {
      AnchorsAdd(a, b[..|b| - 1]);
      assert (a + b)[..|a + b| - 1] == a + b[..|b| - 1];
    }
  }

  lemma {:induction false} NoAnchors(s: seq<Outbound>)
    requires forall k :: 0 <= k < |s| ==> !IsAnchor(s[k])
    ensures Anchors(s) == 0
    decreases |s|
  {
    if s != [] { NoAnchors(s[..|s| - 1]); }
  }

  lemma FirstAnchorOnly(out: seq<Outbound>)
    requires out != [] && IsAnchor(out[0])
    requires forall k :: 0 < k < |out| ==> !IsAnchor(out[k])
    ensures Anchors(out) == 1
  {
    assert out == [out[0]] + out[1..];
    AnchorsAdd([out[0]], out[1..]);
    assert [out[0]][..0] == [];
    NoAnchors(out[1..]);
  }

  lemma SubmitAnchors(d: Dialect, e: Engine, r: Inbound)
    requires Good(e) && r.SubmitOrder?
    ensures var out := Submit(d, e, r).out;
      out != [] && IsAnchor(out[0]) && forall k :: 0 < k < |out| ==> !IsAnchor(out[k])
  {
  }

  /** Each of the five record types is answered by exactly one anchor, and nothing else is. */
  lemma OneAnchorEach(d: Dialect, e: Engine, r: Inbound)
    requires Good(e)
    ensures Anchors(Apply(d, e, r).out) == if r.Unrecognised? then 0 else 1
  {
    if r.SubmitOrder? {
      SubmitAnchors(d, e, r);
    }
    if !r.Unrecognised? {
      FirstAnchorOnly(Apply(d, e, r).out);
    }
  }

  ghost predicate AllRecognised(rs: seq<Inbound>) {
    forall k :: 0 <= k < |rs| ==> !rs[k].Unrecognised?
  }

  /** Counting anchors counts answered records, exactly when every record is of the five types. */
  lemma {:induction false} AnchorsCountRecords(d: Dialect, e: Engine, rs: seq<Inbound>)
    requires Good(e)
    ensures Anchors(Run(d, e, rs).out) <= |rs|
    ensures Anchors(Run(d, e, rs).out) == |rs| <==> AllRecognised(rs)
    decreases |rs|
  {
    hide Apply, Good;
    if rs != [] {
      var n := |rs| - 1;
      var before := Run(d, e, rs[..n]);
      AnchorsCountRecords(d, e, rs[..n]);
      OneAnchorEach(d, before.engine, rs[n]);
      AnchorsAdd(before.out, Apply(d, before.engine, rs[n]).out);
      assert AllRecognised(rs) <==> AllRecognised(rs[..n]) && !rs[n].Unrecognised? by {
        if AllRecognised(rs[..n]) && !rs[n].Unrecognised? {
          forall k | 0 <= k < |rs| ensures !rs[k].Unrecognised? {
            assert k < n ==> rs[..n][k] == rs[k];
          }
        }
      }
    }
  }

  // ---- parity --------------------------------------------------------------------------------

  /** A submit on which the two engines' first complaint differs. */
  predicate BreaksBothGroups(r: Inbound) {
    r.SubmitOrder? && (BadSide(r) || BadTif(r)) && (BadPrice(r) || BadQty(r))
  }

  lemma ParityStep(e: Engine, r: Inbound)
    requires Good(e)
    ensures Apply(Naive, e, r).engine == Apply(Cpp, e, r).engine
    ensures |Apply(Naive, e, r).out| == |Apply(Cpp, e, r).out|
    ensures Apply(Naive, e, r).out == Apply(Cpp, e, r).out <==> !BreaksBothGroups(r)
  {
    if BreaksBothGroups(r) {
      assert Apply(Naive, e, r).out[0].reason != Apply(Cpp, e, r).out[0].reason;
    }
  }

  /** The engines never disagree about state, and disagree about outputs exactly when some submit
      breaks a rule of each group. */
  lemma {:induction false} Parity(e: Engine, rs: seq<Inbound>)
    requires Good(e)
    ensures Run(Naive, e, rs).engine == Run(Cpp, e, rs).engine
    ensures |Run(Naive, e, rs).out| == |Run(Cpp, e, rs).out|
    ensures Run(Naive, e, rs).out == Run(Cpp, e, rs).out
            <==> forall k :: 0 <= k < |rs| ==> !BreaksBothGroups(rs[k])
    decreases |rs|
  {
    hide Apply, Good;
    if rs != [] {
      var n := |rs| - 1;
      Parity(e, rs[..n]);
      var before := Run(Naive, e, rs[..n]);
      ParityStep(before.engine, rs[n]);
      var x, y := Run(Naive, e, rs[..n]).out, Run(Cpp, e, rs[..n]).out;
      var p, q := Apply(Naive, before.engine, rs[n]).out, Apply(Cpp, before.engine, rs[n]).out;
      assert x + p == y + q <==> x == y && p == q by {
        if x + p == y + q {
          assert x == (x + p)[..|x|] == y && p == (x + p)[|x|..] == q;
        }
      }
      assert (forall k :: 0 <= k < |rs| ==> !BreaksBothGroups(rs[k])) <==>
             (forall k :: 0 <= k < n ==> !BreaksBothGroups(rs[..n][k])) && !BreaksBothGroups(rs[n]);
    }
  }

  /** A submit with a bad side and a bad price: one engine blames the side, the other the price. */
  lemma ParityFails()
    ensures var r := SubmitOrder(0, 1, 1, 1, 3, GTC, 0, 1);
      Apply(Naive, Fresh(0), r).out != Apply(Cpp, Fresh(0), r).out
  {
    ParityStep(Fresh(0), SubmitOrder(0, 1, 1, 1, 3, GTC, 0, 1));
  }
}
