/** An ask of a negative quantity: the bid it meets grows, and its owner pays for more than was frozen. */
module Resale {
  import opened Fixed
  import opened Matching
  import opened Ledger
  import opened Streams
  import opened Exchange
  import opened Funds
  import opened Drive
  import opened Market
  import opened Overdraw

  // ---- the two other orders ----

  /** The limit of the bid: so far above the ask's that the second trade cannot be made up for by the first. */
  function Limit(r: OrderReq): int {
    DecimalToInt(r.price) + 2 * EXP
  }

  /** A bid of nothing, and an ask of the quantity the bid will have grown to, at the bid's limit. */
  function EmptyBid(r: OrderReq): OrderReq {
    OrderReq(r.symbol, 1, BID, r.kind, IntToDecimal(Limit(r)), 0.0, 0.0, 0.0)
  }

  function Rest(r: OrderReq): OrderReq {
    OrderReq(r.symbol, 2, ASK, r.kind, IntToDecimal(Limit(r)), IntToDecimal(-DecimalToInt(r.quantity)), 0.0, 0.0)
  }

  ghost predicate NegativeAsk(r: OrderReq) {
    |r.symbol| == 2 && r.symbol[0] != r.symbol[1] && r.side == ASK && DecimalToInt(r.quantity) < 0
  }

  lemma OthersAreSafe(r: OrderReq)
    requires NegativeAsk(r)
    ensures Safe(EmptyBid(r)) && Safe(Rest(r))
    ensures DecimalToInt(EmptyBid(r).price) == Limit(r) == DecimalToInt(Rest(r).price)
    ensures DecimalToInt(EmptyBid(r).quantity) == 0 && DecimalToInt(Rest(r).quantity) == -DecimalToInt(r.quantity)
  {
    RoundTrip(Limit(r));
    RoundTrip(-DecimalToInt(r.quantity));
    assert IntToDecimal(0) == 0.0 && DecimalToInt(0.0) == 0;
    assert Amount(Limit(r), 0) == 0;
  }

  // ---- the engine ----

  function FirstState(r: OrderReq): State
    requires Both(r, EmptyBid(r)).asks != [] && Both(r, EmptyBid(r)).bids != []
  {
    ApplyLine(Both(r, EmptyBid(r)), MatchOf(Both(r, EmptyBid(r))))
  }

  function RestLine(r: OrderReq): Line
    requires Both(r, EmptyBid(r)).asks != [] && Both(r, EmptyBid(r)).bids != []
  {
    OrderOf(FirstState(r), Pushed(TicketFor(Rest(r), 2)))
  }

  function SecondState(r: OrderReq): State
    requires Both(r, EmptyBid(r)).asks != [] && Both(r, EmptyBid(r)).bids != []
  {
    ApplyLine(FirstState(r), RestLine(r))
  }

  predicate Grows(r: OrderReq) {
    && Both(r, EmptyBid(r)).asks != [] && Both(r, EmptyBid(r)).bids != []
    && SecondState(r).asks != [] && SecondState(r).bids != []
  }

  // The bid of nothing is left with what the ask was short of.
  lemma BidGrows(r: OrderReq)
    requires NegativeAsk(r)
    ensures Both(r, EmptyBid(r)).asks != [] && Both(r, EmptyBid(r)).bids != []
    ensures var s, b, q := FirstState(r), Both(r, EmptyBid(r)).bids[0], DecimalToInt(r.quantity);
            && s.asks == [] && s.bids == [b.(quantity := -q)] && b.id == 2 && b.price == Limit(r) && b.owner == 1
            && s.askTicket == 1 && s.logID == 3 && s.orderID == 2
    ensures var m := MatchOf(Both(r, EmptyBid(r)));
            && m.logID == 3 && m.bider == 1 && m.amount == Amount(DecimalToInt(r.price), DecimalToInt(r.quantity))
  {
    OthersAreSafe(r);
    OrdersMeet(r, EmptyBid(r));
    var s := Both(r, EmptyBid(r));
    assert |s.asks| == 1 && |s.bids| == 1;
  }

  lemma RestMeetsTheBid(r: OrderReq)
    requires NegativeAsk(r)
    ensures Grows(r)
    ensures !Crossed(FirstState(r)) && Crossed(SecondState(r))
    ensures var m := MatchOf(SecondState(r));
            && m.logID == 5 && m.bider == 1 && m.amount == Amount(Limit(r), -DecimalToInt(r.quantity))
  {
    BidGrows(r);
    OthersAreSafe(r);
    assert SecondState(r).asks == [OrderIn(RestLine(r))];
  }

  /** The two trades together cost the bid more than nothing. */
  lemma TradesDoNotCancel(r: OrderReq)
    requires NegativeAsk(r)
    ensures Amount(DecimalToInt(r.price), DecimalToInt(r.quantity)) + Amount(Limit(r), -DecimalToInt(r.quantity)) > 0
  {
    var p, n := DecimalToInt(r.price), -DecimalToInt(r.quantity);
    var x := p * n;
    assert p * -n == -x;
    assert Limit(r) * n == x + 2 * EXP * n;
    assert 2 * EXP * n >= 2 * EXP;
    assert -x / EXP + (x + 2 * EXP) / EXP > 0;
    assert (x + 2 * EXP) / EXP <= (x + 2 * EXP * n) / EXP;
  }

  // ---- the run ----

  function Reselling(r: OrderReq): seq<Exchange.Event> {
    Meeting(r, EmptyBid(r)) + [On(ASK, Request(2, Rest(r)))] + Fetch(ASK) + [Cross]
  }

  function Resold(r: OrderReq): World
    requires Grows(r)
  {
    var w := Requested(Met(r, EmptyBid(r)), ASK, 2, Rest(r));
    var w' := Fetched(w, ASK, 1, Pushed(TicketFor(Rest(r), 2)));
    Write(w', MatchOf(SecondState(r)))
  }

  lemma SecondRequest(r: OrderReq)
    requires NegativeAsk(r)
    ensures Grows(r)
    ensures var w, rest := Met(r, EmptyBid(r)), Rest(r);
            && Step(w, On(ASK, Request(2, rest))) == Requested(w, ASK, 2, rest)
            && Issued(Requested(w, ASK, 2, rest).base.bank) == [TicketFor(r, 1), TicketFor(rest, 2)]
  {
    OthersAreSafe(r);
    RestMeetsTheBid(r);
    MeetingMeets(r, EmptyBid(r));
    RequestsOpen(r, EmptyBid(r));
    var w := Met(r, EmptyBid(r));
    RequestIsTaken(w, ASK, 2, Rest(r));
    FirstTicketID(r, EmptyBid(r));
    assert [TicketFor(r, 1)] + [TicketFor(Rest(r), 2)] == [TicketFor(r, 1), TicketFor(Rest(r), 2)];
  }

  lemma FirstTicketID(a: OrderReq, b: OrderReq)
    requires Pair(a, b)
    ensures TicketID(Opened2(a, b).base.bank.ticketIDs, a.symbol) == 1
  {
    RequestIsTaken(Begin(Empty(a.symbol)), ASK, 1, a);
  }

  lemma ResellingRuns(r: OrderReq)
    requires NegativeAsk(r)
    ensures Grows(r)
    ensures Runs(Begin(Empty(r.symbol)), Reselling(r)) == Resold(r)
  {
    var w0, b, rest := Begin(Empty(r.symbol)), EmptyBid(r), Rest(r);
    OthersAreSafe(r);
    MeetingMeets(r, b);
    SecondRequest(r);
    RestMeetsTheBid(r);
    BidGrows(r);
    var w := Requested(Met(r, b), ASK, 2, rest);
    FetchTakes(w, ASK, 1, TicketFor(rest, 2));
    RunsOneMore(w0, Meeting(r, b), On(ASK, Request(2, rest)));
    RunsConcat(w0, Meeting(r, b) + [On(ASK, Request(2, rest))], Fetch(ASK));
    RunsOneMore(w0, Meeting(r, b) + [On(ASK, Request(2, rest))] + Fetch(ASK), Cross);
  }

  lemma ResellingPays(r: OrderReq)
    requires NegativeAsk(r)
    ensures OthersPay(r, Empty(r.symbol), Reselling(r))
  {
    var b, rest := EmptyBid(r), Rest(r);
    var more := [On(ASK, Request(2, rest))] + Fetch(ASK) + [Cross];
    OthersAreSafe(r);
    MeetingIsTrading(r, b);
    assert Reselling(r) == Meeting(r, b) + more;
    QuietEventsAreTimely(Empty(r.symbol), Meeting(r, b), more);
  }

  lemma DueOfResale(l1: Line, l2: Line, m: Line, l4: Line, m2: Line)
    requires l1.OrderLine? && l2.OrderLine? && m.MatchLine? && l4.OrderLine? && m2.MatchLine?
    ensures Due(BID, [l1, l2, m, l4, m2]) == [ChangeFor(BID, m), ChangeFor(BID, m2)]
  {
    DueOfMeeting(BID, l1, l2, m);
    assert [l1, l2, m, l4, m2][..4] == [l1, l2, m, l4] && [l1, l2, m, l4][..3] == [l1, l2, m];
    assert [ChangeFor(BID, m)] + [] == [ChangeFor(BID, m)];
    assert [ChangeFor(BID, m)] + [ChangeFor(BID, m2)] == [ChangeFor(BID, m), ChangeFor(BID, m2)];
  }

  /** The two changes the bid is due. */
  function Dues(r: OrderReq): seq<BalanceChange>
    requires Grows(r)
  {
    [ChangeFor(BID, MatchOf(Both(r, EmptyBid(r)))), ChangeFor(BID, MatchOf(SecondState(r)))]
  }

  lemma ResaleLog(r: OrderReq)
    requires NegativeAsk(r)
    ensures Grows(r)
    ensures var w := Resold(r);
            && |w.log| == 5 && w.log[0].logID == 1 && w.log[1].logID == 2 && w.log[2].logID == 3 && w.log[3].logID == 4
            && w.log[4].logID == 5 && w.log[0..] == w.log && Due(BID, w.log) == Dues(r)
  {
    var b := EmptyBid(r);
    BidGrows(r);
    RestMeetsTheBid(r);
    assert Resold(r).log == [AskLine(r), BidLine(r, b), MatchOf(Both(r, b)), RestLine(r), MatchOf(SecondState(r))];
    DueOfResale(AskLine(r), BidLine(r, b), MatchOf(Both(r, b)), RestLine(r), MatchOf(SecondState(r)));
  }

  lemma ResaleBank(r: OrderReq)
    requires NegativeAsk(r) && Grows(r)
    ensures var c := Resold(r).quote;
            && c.status == Ok && c.queue == [] && Reason(c.bank) == 0 && Get(c.bank.assets, 1).freeze == 0.0
  {
    OthersAreSafe(r);
    RequestsOpen(r, EmptyBid(r));
    assert Resold(r).quote.bank == Opened2(r, EmptyBid(r)).quote.bank;
  }

  lemma ResaleCosts(r: OrderReq)
    requires NegativeAsk(r)
    ensures Grows(r)
    ensures Dues(r)[0].owner2 == Dues(r)[1].owner2 == 1 && NetFreeze(Transfers(Dues(r)), 1) < 0.0
  {
    BidGrows(r);
    RestMeetsTheBid(r);
    TradesDoNotCancel(r);
    TwoChangesNet(Dues(r)[0], Dues(r)[1], 1);
    IntToDecimalAdds(MatchOf(Both(r, EmptyBid(r))).amount, MatchOf(SecondState(r)).amount);
  }

  /** A bank of bids that has applied nothing, and is due two changes of five lines. */
  ghost predicate Ready(w: World, cs: seq<BalanceChange>, owner: int) {
    var c := w.quote;
    && c.status == Ok && c.queue == [] && Reason(c.bank) == 0 && Get(c.bank.assets, owner).freeze == 0.0
    && |w.log| == 5 && (forall i :: 0 <= i < |w.log| ==> w.log[i].logID == i + 1) && w.log[0..] == w.log
    && cs == Due(BID, w.log) && |cs| == 2
  }

  lemma ResaleIsReady(r: OrderReq)
    requires NegativeAsk(r)
    ensures Grows(r) && Ready(Resold(r), Dues(r), 1)
  {
    ResaleLog(r);
    ResaleBank(r);
  }

  // A stream that takes more than is there.
  lemma StreamOverdraws(o: Opening, events: seq<Exchange.Event>, w: World, cs: seq<BalanceChange>, owner: int)
    requires Runs(Begin(o), events) == w && Get(Loaded(o, BID), owner).freeze == 0.0 && Ready(w, cs, owner)
    requires cs[0].owner2 == cs[1].owner2 == 1 && NetFreeze(Transfers(cs), owner) < 0.0
    ensures Overdrawn(o, Streaming(events, BID, 5, 2, 2), BID, owner)
  {
    StreamMoves(o, events, BID, cs, owner);
  }

  lemma ResaleMoves(r: OrderReq)
    requires NegativeAsk(r)
    ensures Overdrawn(Empty(r.symbol), Streaming(Reselling(r), BID, 5, 2, 2), BID, 1)
  {
    ResellingRuns(r);
    ResaleIsReady(r);
    ResaleCosts(r);
    StreamOverdraws(Empty(r.symbol), Reselling(r), Resold(r), Dues(r), 1);
  }

  lemma ResalePays(r: OrderReq)
    requires NegativeAsk(r)
    ensures OthersPay(r, Empty(r.symbol), Streaming(Reselling(r), BID, 5, 2, 2))
  {
    ResellingRuns(r);
    ResaleIsReady(r);
    ResellingPays(r);
    StreamingPays(r, Empty(r.symbol), Reselling(r), BID, 5, 2, 2);
  }

  lemma NegativeAskOverdraws(r: OrderReq)
    requires NegativeAsk(r)
    ensures Overdraws(r)
  {
    ResaleMoves(r);
    ResalePays(r);
  }
}
