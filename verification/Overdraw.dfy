/** Why every request has to be safe: one that is not can be made to overdraw someone. */
module Overdraw {
  import opened Fixed
  import opened Matching
  import opened Ledger
  import opened Streams
  import opened Exchange
  import opened Solvency
  import opened Funds
  import opened Drive
  import opened Market

  // ---- what a stream does to a frozen balance ----

  /** After a run that leaves a bank with nothing applied and nothing queued, a whole stream applies all that is due. */
  lemma StreamMoves(o: Opening, events: seq<Exchange.Event>, side: int, cs: seq<BalanceChange>, owner: int)
    requires IsSide(side)
    requires var w := Runs(Begin(o), events);
             var c := At(w, side);
             && c.status == Ok && c.queue == [] && Reason(c.bank) == 0 && cs == Due(side, w.log) && w.log[0..] == w.log
             && (forall i :: 0 <= i < |w.log| ==> w.log[i].logID == i + 1)
    requires Appliable(cs, |cs|)
    ensures var w := Runs(Begin(o), events);
            Get(At(Runs(Begin(o), Streaming(events, side, |w.log|, |cs|, |cs|)), side).bank.assets, owner).freeze
            == Get(At(w, side).bank.assets, owner).freeze + NetFreeze(Transfers(cs), owner)
  {
    var w := Runs(Begin(o), events);
    var c := At(w, side);
    assert c.queue + cs[..|cs|] == cs && cs[..|cs|] == cs;
    StreamingRuns(o, events, side, |w.log|, |cs|, |cs|);
    StreamSettles(c, w.pair, side, Latest(w.engine, side), w.log, |cs|, |cs|);
    SettleAdds(c.bank, cs, owner);
  }

  lemma OneChangeNets(d: BalanceChange, owner: int)
    ensures NetFreeze(Transfers([d]), owner) == FreezePart(TransferOf(d), owner)
  {
    assert [d][..0] == [];
    assert Transfers([d]) == [TransferOf(d)];
    NetExtends([], TransferOf(d), owner);
    assert [] + [TransferOf(d)] == [TransferOf(d)];
  }

  lemma TwoChangesNet(d: BalanceChange, d2: BalanceChange, owner: int)
    ensures NetFreeze(Transfers([d, d2]), owner) == FreezePart(TransferOf(d), owner) + FreezePart(TransferOf(d2), owner)
  {
    assert [d, d2][..1] == [d] && Last([d, d2]) == d2;
    OneChangeNets(d, owner);
    NetExtends(Transfers([d]), TransferOf(d2), owner);
  }

  // ---- a run of two orders ----

  /** An ask and a bid meet, and the bank of `side` applies their match. */
  function Deal(a: OrderReq, b: OrderReq, side: int): seq<Exchange.Event> {
    Streaming(Meeting(a, b), side, 3, 1, 1)
  }

  // What one match takes from what its owner has frozen.
  lemma MatchTakes(m: Line, side: int, owner: int)
    requires m.MatchLine? && IsSide(side) && m.asker != m.bider && owner == (if side == ASK then m.asker else m.bider)
    ensures NetFreeze(Transfers([ChangeFor(side, m)]), owner)
            == -IntToDecimal(if side == ASK then m.quantity else m.amount)
  {
    OneChangeNets(ChangeFor(side, m), owner);
  }

  lemma DealMoves(a: OrderReq, b: OrderReq, side: int, owner: int)
    requires Pair(a, b) && DecimalToInt(a.price) <= DecimalToInt(b.price) && b.owner > 0 && IsSide(side)
    ensures Both(a, b).asks != [] && Both(a, b).bids != []
    ensures Get(At(Runs(Begin(Empty(a.symbol)), Deal(a, b, side)), side).bank.assets, owner).freeze
            == Get(At(Runs(Begin(Empty(a.symbol)), Meeting(a, b)), side).bank.assets, owner).freeze
               + NetFreeze(Transfers([ChangeFor(side, MatchOf(Both(a, b)))]), owner)
  {
    MeetingOwes(a, b, side);
    OrdersMeet(a, b);
    StreamMoves(Empty(a.symbol), Meeting(a, b), side, [ChangeFor(side, MatchOf(Both(a, b)))], owner);
  }

  lemma DealCosts(a: OrderReq, b: OrderReq, side: int)
    requires Pair(a, b) && DecimalToInt(a.price) <= DecimalToInt(b.price) && b.owner > 0 && a.owner != b.owner
    requires IsSide(side)
    ensures Both(a, b).asks != [] && Both(a, b).bids != []
    ensures var m, mine := MatchOf(Both(a, b)), if side == ASK then a else b;
            Get(At(Runs(Begin(Empty(a.symbol)), Deal(a, b, side)), side).bank.assets, mine.owner).freeze
            == Total(mine) - IntToDecimal(if side == ASK then m.quantity else m.amount)
  {
    var mine := if side == ASK then a else b;
    MeetingOwes(a, b, side);
    OrdersMeet(a, b);
    DealMoves(a, b, side, mine.owner);
    MatchTakes(MatchOf(Both(a, b)), side, mine.owner);
  }

  // ---- runs in which everyone else pays ----

  /** Runs, from any loaded balances, in which every request other than `r` is safe. */
  ghost predicate OthersPay(r: OrderReq, o: Opening, events: seq<Exchange.Event>) {
    && o.pair == r.symbol && Trading(o, events) && Timely(o, events)
    && forall i :: 0 <= i < |events| && events[i].On? && events[i].act.Request? ==>
         events[i].act.req == r || Safe(events[i].act.req)
  }

  ghost predicate Overdrawn(o: Opening, events: seq<Exchange.Event>, side: int, owner: int) {
    Get(At(Runs(Begin(o), events), side).bank.assets, owner).freeze < Get(Loaded(o, side), owner).freeze
  }

  /** Someone can be overdrawn at a bank. */
  ghost predicate Overdraws(r: OrderReq) {
    exists o, events, side, owner :: OthersPay(r, o, events) && IsSide(side) && Overdrawn(o, events, side, owner)
  }

  lemma StreamingPays(r: OrderReq, o: Opening, events: seq<Exchange.Event>, side: int, pushes: nat, n: nat, k: nat)
    requires OthersPay(r, o, events) && IsSide(side) && At(Runs(Begin(o), events), side).queue == []
    ensures OthersPay(r, o, Streaming(events, side, pushes, n, k))
  {
    StreamingIsTrading(o, events, side, pushes, n, k);
  }

  lemma DealPays(r: OrderReq, a: OrderReq, b: OrderReq, side: int)
    requires Pair(a, b) && r.symbol == a.symbol && IsSide(side) && DecimalToInt(a.price) <= DecimalToInt(b.price)
    requires (a == r || Safe(a)) && (b == r || Safe(b))
    ensures OthersPay(r, Empty(a.symbol), Deal(a, b, side))
  {
    MeetingIsTrading(a, b);
    MeetingOwes(a, b, side);
    StreamingPays(r, Empty(a.symbol), Meeting(a, b), side, 3, 1, 1);
  }

  // ---- a total below zero ----

  lemma RequestRuns(r: OrderReq)
    requires |r.symbol| == 2 && r.symbol[0] != r.symbol[1] && IsSide(r.side)
    ensures Runs(Begin(Empty(r.symbol)), [On(r.side, Request(1, r))]) == Requested(Begin(Empty(r.symbol)), r.side, 1, r)
    ensures Get(At(Requested(Begin(Empty(r.symbol)), r.side, 1, r), r.side).bank.assets, r.owner).freeze == Total(r)
  {
    RequestIsTaken(Begin(Empty(r.symbol)), r.side, 1, r);
    RunsOne(Begin(Empty(r.symbol)), On(r.side, Request(1, r)));
  }

  lemma RequestPays(r: OrderReq)
    requires |r.symbol| == 2 && r.symbol[0] != r.symbol[1] && IsSide(r.side)
    ensures OthersPay(r, Empty(r.symbol), [On(r.side, Request(1, r))])
  {
    var events := [On(r.side, Request(1, r))];
    assert [] + events == events;
    QuietEventsAreTimely(Empty(r.symbol), [], events);
  }

  lemma NegativeTotalOverdraws(r: OrderReq)
    requires |r.symbol| == 2 && r.symbol[0] != r.symbol[1] && IsSide(r.side) && Total(r) < 0.0
    ensures Overdraws(r)
  {
    RequestRuns(r);
    RequestPays(r);
    assert Overdrawn(Empty(r.symbol), [On(r.side, Request(1, r))], r.side, r.owner);
  }

  // ---- a total below what the order may cost ----

  function SomeoneElse(owner: int): int {
    if owner == 1 then 2 else 1
  }

  /** The same order from the other side by someone else, without a fee and with just enough frozen. */
  function Mirror(r: OrderReq): OrderReq {
    var price, quantity := DecimalToInt(r.price), DecimalToInt(r.quantity);
    var side := if r.side == ASK then BID else ASK;
    OrderReq(r.symbol, SomeoneElse(r.owner), side, r.kind, r.price, IntToDecimal(quantity),
             IntToDecimal(Worst(side, price, quantity)), 0.0)
  }

  lemma MirrorIsSafe(r: OrderReq)
    requires 0 <= DecimalToInt(r.quantity) && IsSide(r.side)
    ensures Safe(Mirror(r)) && DecimalToInt(Mirror(r).quantity) == DecimalToInt(r.quantity)
  {
    RoundTrip(DecimalToInt(r.quantity));
  }

  lemma UncoveredRequestOverdraws(r: OrderReq)
    requires |r.symbol| == 2 && r.symbol[0] != r.symbol[1] && IsSide(r.side) && Counts(false, r.side, r.owner)
    requires 0 <= DecimalToInt(r.quantity) && 0.0 <= Total(r)
    requires Total(r) < IntToDecimal(Worst(r.side, DecimalToInt(r.price), DecimalToInt(r.quantity)))
    ensures Overdraws(r)
  {
    MirrorIsSafe(r);
    var a, b := if r.side == ASK then r else Mirror(r), if r.side == ASK then Mirror(r) else r;
    DealCosts(a, b, r.side);
    OrdersMeet(a, b);
    DealPays(r, a, b, r.side);
    assert IntToDecimal(0) == 0.0;
    assert Overdrawn(Empty(r.symbol), Deal(a, b, r.side), r.side, r.owner);
  }

  // ---- a bid of less than nothing ----

  /** An ask of nothing, at a price so far below zero that selling it a negative quantity costs more than the bid
      froze. */
  function CheapAsk(b: OrderReq): OrderReq {
    OrderReq(b.symbol, SomeoneElse(b.owner), ASK, b.kind, IntToDecimal(CheapPrice(b)), 0.0, 0.0, 0.0)
  }

  function CheapPrice(b: OrderReq): int {
    var low := -EXP * ((Total(b) * 1_000_000_000_000.0).Floor + 1);
    if low < DecimalToInt(b.price) then low else DecimalToInt(b.price)
  }

  lemma CheapAskAmount(t: int, price: int, quantity: int)
    requires 0 <= t && quantity < 0 && price <= -EXP * (t + 1)
    ensures t + 1 <= Amount(price, quantity)
  {
    assert EXP * (t + 1) <= -price;
    assert -price * 1 <= -price * -quantity;
    assert -price * -quantity == price * quantity;
    assert EXP * (t + 1) / EXP <= price * quantity / EXP;
  }

  lemma CheapAskCosts(b: OrderReq, price: int, quantity: int)
    requires 0.0 <= Total(b) && quantity < 0
    requires price <= -EXP * ((Total(b) * 1_000_000_000_000.0).Floor + 1)
    ensures Total(b) < IntToDecimal(Amount(price, quantity))
  {
    var total := Total(b);
    var t := (total * 1_000_000_000_000.0).Floor;
    CheapAskAmount(t, price, quantity);
    ScalingTruncates(total, t);
    IntToDecimalAdds(t + 1, Amount(price, quantity) - (t + 1));
    IntToDecimalAdds(0, Amount(price, quantity) - (t + 1));
  }

  lemma NegativeBidOverdraws(b: OrderReq)
    requires |b.symbol| == 2 && b.symbol[0] != b.symbol[1] && b.side == BID && b.owner > 0
    requires DecimalToInt(b.quantity) < 0 && 0.0 <= Total(b)
    ensures Overdraws(b)
  {
    var a := CheapAsk(b);
    RoundTrip(CheapPrice(b));
    assert IntToDecimal(0) == 0.0 && DecimalToInt(0.0) == 0;
    assert Safe(a);
    DealCosts(a, b, BID);
    OrdersMeet(a, b);
    DealPays(b, a, b, BID);
    CheapAskCosts(b, CheapPrice(b), DecimalToInt(b.quantity));
    assert Overdrawn(Empty(b.symbol), Deal(a, b, BID), BID, b.owner);
  }
}
