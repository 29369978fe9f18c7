/** Small markets: a few requests, their orders, and what the engine makes of them. */
module Market {
  import opened Fixed
  import opened Matching
  import opened Ledger
  import opened Streams
  import opened Exchange
  import opened Drive

  /** An exchange in which nobody owns anything yet. */
  function Empty(pair: seq<string>): Opening {
    Opening(pair, map[], map[])
  }

  // ---- one request, one ticket, one match ----

  function Requested(w: World, side: int, msgSeq: int, r: OrderReq): World {
    Put(w, side, At(w, side).(bank := HandleOrderReq(At(w, side).bank, CoinName(w.pair, side), msgSeq, r, true).bank))
  }

  lemma RequestIsTaken(w: World, side: int, msgSeq: int, r: OrderReq)
    requires |w.pair| == 2 && w.pair[0] != w.pair[1] && r.symbol == w.pair && r.side == side && IsSide(side)
    requires At(w, side).status == Ok && msgSeq > At(w, side).bank.latestMsgSeq
    ensures Step(w, On(side, Request(msgSeq, r))) == Requested(w, side, msgSeq, r)
    ensures var b, b' := At(w, side).bank, At(Requested(w, side, msgSeq, r), side).bank;
            Issues(b, b', w.pair, msgSeq, r, Total(r)) && b'.latestMsgSeq == msgSeq
  {
    RequestTakes(At(w, side).bank, w.pair, side, msgSeq, r);
  }

  function Fetch(side: int): seq<Exchange.Event> {
    [On(side, Send), On(side, Receive), TakeTicket]
  }

  /** The `k`-th ticket of a bank has become an order. */
  function Fetched(w: World, side: int, k: nat, t: Ticket): World {
    Write(Put(w, side, At(w, side).(down := Down(0, k + 1, []))), OrderOf(w.engine, t))
  }

  lemma RunsFetch(w: World, side: int)
    ensures Runs(w, Fetch(side)) == Step(Step(Step(w, On(side, Send)), On(side, Receive)), TakeTicket)
  {
    RunsOne(w, On(side, Send));
    RunsOneMore(w, [On(side, Send)], On(side, Receive));
    assert [On(side, Send)] + [On(side, Receive)] == [On(side, Send), On(side, Receive)];
    RunsOneMore(w, [On(side, Send), On(side, Receive)], TakeTicket);
    assert [On(side, Send), On(side, Receive)] + [TakeTicket] == Fetch(side);
  }

  lemma SendAndReceive(w: World, side: int, k: nat, t: TicketLog)
    requires IsSide(side) && k < |Issued(At(w, side).bank)| && t == Issued(At(w, side).bank)[k]
    requires t.id == k + 1 && At(w, side).status == Ok && At(w, side).down == Down(0, k, []) && w.channel == []
    ensures Step(Step(w, On(side, Send)), On(side, Receive))
            == Put(w, side, At(w, side).(down := Down(0, k + 1, []))).(channel := [Pushed(t)])
  {
    var c := At(w, side);
    assert [] + [Pushed(t)] == [Pushed(t)] && [Pushed(t)][1..] == [];
    assert Step(w, On(side, Send)) == Put(w, side, c.(down := Down(0, k + 1, [Pushed(t)])));
  }

  lemma HeadIsTaken(w: World, t: Ticket)
    requires w.channel == [t] && !Crossed(w.engine) && Judge(w.engine, t) == Accept
    ensures Step(w, TakeTicket) == Write(w, OrderOf(w.engine, t)).(channel := [])
  {}

  lemma FetchTakes(w: World, side: int, k: nat, t: TicketLog)
    requires IsSide(side) && k < |Issued(At(w, side).bank)| && t == Issued(At(w, side).bank)[k]
    requires t.id == k + 1 && t.side == side && At(w, side).status == Ok
    requires At(w, side).down == Down(0, k, []) && w.channel == []
    requires !Crossed(w.engine) && Latest(w.engine, side) == k
    ensures Runs(w, Fetch(side)) == Fetched(w, side, k, Pushed(t))
  {
    RunsFetch(w, side);
    SendAndReceive(w, side, k, t);
    HeadIsTaken(Put(w, side, At(w, side).(down := Down(0, k + 1, []))).(channel := [Pushed(t)]), Pushed(t));
  }

  // ---- an ask and a bid ----

  function AskLine(a: OrderReq): Line {
    OrderOf(START, Pushed(TicketFor(a, 1)))
  }

  function BidLine(a: OrderReq, b: OrderReq): Line {
    OrderOf(ApplyLine(START, AskLine(a)), Pushed(TicketFor(b, 1)))
  }

  function Both(a: OrderReq, b: OrderReq): State {
    ApplyLine(ApplyLine(START, AskLine(a)), BidLine(a, b))
  }

  function Opened2(a: OrderReq, b: OrderReq): World {
    Requested(Requested(Begin(Empty(a.symbol)), ASK, 1, a), BID, 1, b)
  }

  function Requests2(a: OrderReq, b: OrderReq): seq<Exchange.Event> {
    [On(ASK, Request(1, a)), On(BID, Request(1, b))]
  }

  function Meeting(a: OrderReq, b: OrderReq): seq<Exchange.Event> {
    Requests2(a, b) + Fetch(ASK) + Fetch(BID) + [Cross]
  }

  ghost predicate Pair(a: OrderReq, b: OrderReq) {
    |a.symbol| == 2 && a.symbol[0] != a.symbol[1] && b.symbol == a.symbol && a.side == ASK && b.side == BID
  }

  lemma FirstTicket(b: Bank, b': Bank, pair: seq<string>, r: OrderReq)
    requires Issues(b, b', pair, 1, r, Total(r)) && b.log == [] && b.ticketIDs == map[]
    ensures Issued(b') == [TicketFor(r, 1)]
  {
    assert Issued(b) == [];
  }

  lemma RequestsOpen(a: OrderReq, b: OrderReq)
    requires Pair(a, b)
    ensures Runs(Begin(Empty(a.symbol)), Requests2(a, b)) == Opened2(a, b)
    ensures var w := Opened2(a, b);
            && Issued(w.base.bank) == [TicketFor(a, 1)] && Issued(w.quote.bank) == [TicketFor(b, 1)]
            && Reason(w.base.bank) == 0 && Reason(w.quote.bank) == 0
            && w.base.bank.latestMsgSeq == 1
            && w.base.bank.assets == Credit(map[], a.owner, -Total(a), Total(a))
            && w.quote.bank.assets == Credit(map[], b.owner, -Total(b), Total(b))
  {
    var w0 := Begin(Empty(a.symbol));
    var w1 := Requested(w0, ASK, 1, a);
    RequestIsTaken(w0, ASK, 1, a);
    RequestIsTaken(w1, BID, 1, b);
    FirstTicket(w0.base.bank, w1.base.bank, a.symbol, a);
    FirstTicket(w1.quote.bank, Opened2(a, b).quote.bank, a.symbol, b);
    RunsOne(w0, On(ASK, Request(1, a)));
    RunsOneMore(w0, [On(ASK, Request(1, a))], On(BID, Request(1, b)));
    assert [On(ASK, Request(1, a))] + [On(BID, Request(1, b))] == Requests2(a, b);
  }

  /** The exchange once both orders are placed and matched. */
  function Met(a: OrderReq, b: OrderReq): World
    requires Both(a, b).asks != [] && Both(a, b).bids != []
  {
    var w := Opened2(a, b);
    World(w.pair, w.base.(down := Down(0, 1, [])), w.quote.(down := Down(0, 1, [])),
          ApplyLine(Both(a, b), MatchOf(Both(a, b))), [AskLine(a), BidLine(a, b), MatchOf(Both(a, b))], [], false)
  }

  // What the match of the two orders is.
  lemma OrdersMeet(a: OrderReq, b: OrderReq)
    requires a.side == ASK && b.side == BID && DecimalToInt(a.price) <= DecimalToInt(b.price)
    ensures !Crossed(ApplyLine(START, AskLine(a))) && Crossed(Both(a, b))
    ensures var m, p := MatchOf(Both(a, b)), DecimalToInt(a.price);
            var qa, qb := DecimalToInt(a.quantity), DecimalToInt(b.quantity);
            && m.logID == 3 && m.asker == a.owner && m.bider == b.owner && m.price == p
            && m.quantity == (if qa < qb then qa else qb) && m.amount == Amount(p, m.quantity)
  {}

  lemma {:induction false} OrdersAreTaken(a: OrderReq, b: OrderReq)
    requires Pair(a, b) && DecimalToInt(a.price) <= DecimalToInt(b.price)
    ensures var w1 := Fetched(Opened2(a, b), ASK, 0, Pushed(TicketFor(a, 1)));
            && Runs(Opened2(a, b), Fetch(ASK)) == w1
            && Runs(w1, Fetch(BID)) == Fetched(w1, BID, 0, Pushed(TicketFor(b, 1)))
  {
    RequestsOpen(a, b);
    OrdersMeet(a, b);
    var w := Opened2(a, b);
    FetchTakes(w, ASK, 0, TicketFor(a, 1));
    FetchTakes(Fetched(w, ASK, 0, Pushed(TicketFor(a, 1))), BID, 0, TicketFor(b, 1));
  }

  lemma MeetingMeets(a: OrderReq, b: OrderReq)
    requires Pair(a, b) && DecimalToInt(a.price) <= DecimalToInt(b.price)
    ensures Both(a, b).asks != [] && Both(a, b).bids != []
    ensures Runs(Begin(Empty(a.symbol)), Meeting(a, b)) == Met(a, b)
  {
    var w0, w := Begin(Empty(a.symbol)), Opened2(a, b);
    RequestsOpen(a, b);
    OrdersAreTaken(a, b);
    OrdersMeet(a, b);
    var w2 := Fetched(Fetched(w, ASK, 0, Pushed(TicketFor(a, 1))), BID, 0, Pushed(TicketFor(b, 1)));
    assert w2.log == [AskLine(a), BidLine(a, b)] && w2.engine == Both(a, b);
    assert Step(w2, Cross) == Met(a, b);
    RunsConcat(w0, Requests2(a, b), Fetch(ASK));
    RunsConcat(w0, Requests2(a, b) + Fetch(ASK), Fetch(BID));
    RunsOneMore(w0, Requests2(a, b) + Fetch(ASK) + Fetch(BID), Cross);
  }

  // ---- the runs as runs of an exchange ----

  lemma MeetingEvents(a: OrderReq, b: OrderReq)
    requires Pair(a, b)
    ensures forall i :: 0 <= i < |Meeting(a, b)| ==>
              var e := Meeting(a, b)[i];
              Listed(a.symbol, e) && (e.On? && e.act.Request? ==> e.act.req == a || e.act.req == b)
  {
    assert Meeting(a, b)[..2] == Requests2(a, b);
  }

  lemma MeetingIsQuiet(a: OrderReq, b: OrderReq)
    ensures Quiet(Meeting(a, b))
  {
    assert Meeting(a, b)[..2] == Requests2(a, b);
  }

  lemma MeetingIsTrading(a: OrderReq, b: OrderReq)
    requires Pair(a, b)
    ensures Trading(Empty(a.symbol), Meeting(a, b)) && Timely(Empty(a.symbol), Meeting(a, b))
    ensures forall i :: 0 <= i < |Meeting(a, b)| && Meeting(a, b)[i].On? && Meeting(a, b)[i].act.Request? ==>
              Meeting(a, b)[i].act.req == a || Meeting(a, b)[i].act.req == b
  {
    MeetingEvents(a, b);
    MeetingIsQuiet(a, b);
    assert [] + Meeting(a, b) == Meeting(a, b);
    QuietEventsAreTimely(Empty(a.symbol), [], Meeting(a, b));
  }

  /** A run, then one change stream of one bank. */
  function Streaming(events: seq<Exchange.Event>, side: int, pushes: nat, n: nat, k: nat): seq<Exchange.Event> {
    events + OnSide(side, Stream(pushes, n, k))
  }

  lemma StreamingIsTrading(o: Opening, events: seq<Exchange.Event>, side: int, pushes: nat, n: nat, k: nat)
    requires Trading(o, events) && IsSide(side)
    ensures var more := Streaming(events, side, pushes, n, k);
            && Trading(o, more)
            && (forall i :: 0 <= i < |more| && more[i].On? && more[i].act.Request? ==>
                  i < |events| && more[i] == events[i])
            && (Timely(o, events) && At(Runs(Begin(o), events), side).queue == [] ==> Timely(o, more))
  {
    var acts := Stream(pushes, n, k);
    StreamIsQuietAfterGreeting(pushes, n, k);
    OnSideIs(side, acts);
    var more := Streaming(events, side, pushes, n, k);
    assert forall i :: |events| <= i < |more| ==> more[i] == OnSide(side, acts)[i - |events|];
    if Timely(o, events) && At(Runs(Begin(o), events), side).queue == [] {
      GreetingIsTimely(o, events, side);
      var rest := OnSide(side, acts)[1..];
      assert more == (events + [On(side, Greet)]) + rest;
      QuietEventsAreTimely(o, events + [On(side, Greet)], rest);
    }
  }

  /** What the stream does: the coin acts, and nothing else changes. */
  lemma StreamingRuns(o: Opening, events: seq<Exchange.Event>, side: int, pushes: nat, n: nat, k: nat)
    requires IsSide(side)
    ensures var w := Runs(Begin(o), events);
            Runs(Begin(o), Streaming(events, side, pushes, n, k)) ==
            Put(w, side, Acts(At(w, side), w.pair, side, Latest(w.engine, side), w.log, Stream(pushes, n, k)))
  {
    StreamIsQuietAfterGreeting(pushes, n, k);
    RunsConcat(Begin(o), events, OnSide(side, Stream(pushes, n, k)));
    RunsActs(Runs(Begin(o), events), side, Stream(pushes, n, k));
  }

  // ---- what a small market owes ----

  lemma DueOfMeeting(side: int, l1: Line, l2: Line, m: Line)
    requires l1.OrderLine? && l2.OrderLine? && m.MatchLine?
    ensures Due(side, [l1, l2, m]) == [ChangeFor(side, m)] && [l1, l2, m][0..] == [l1, l2, m]
  {
    assert [l1, l2, m][..2] == [l1, l2] && [l1, l2][..1] == [l1] && [l1][..0] == [];
    assert Due(side, [l1]) == [] && Due(side, [l1, l2]) == [];
  }

  /** After a meeting each bank is ready for a stream, and one change is due. */
  lemma MeetingOwes(a: OrderReq, b: OrderReq, side: int)
    requires Pair(a, b) && DecimalToInt(a.price) <= DecimalToInt(b.price) && IsSide(side)
    ensures Both(a, b).asks != [] && Both(a, b).bids != []
    ensures var w, m := Runs(Begin(Empty(a.symbol)), Meeting(a, b)), MatchOf(Both(a, b));
            var c := At(w, side);
            && w.pair == a.symbol && |w.log| == 3 && (forall i :: 0 <= i < 3 ==> w.log[i].logID == i + 1)
            && c.status == Ok && c.queue == [] && Reason(c.bank) == 0
            && Due(side, w.log) == [ChangeFor(side, m)] && w.log[0..] == w.log
            && c.bank.assets == (if side == ASK then Credit(map[], a.owner, -Total(a), Total(a))
                                 else Credit(map[], b.owner, -Total(b), Total(b)))
  {
    MeetingMeets(a, b);
    RequestsOpen(a, b);
    DueOfMeeting(side, AskLine(a), BidLine(a, b), MatchOf(Both(a, b)));
  }
}
