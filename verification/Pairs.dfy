/** Requests that name another pair of the same coin: a bank takes them, and the engine of its own pair gets the
    ticket. */
module Pairs {
  import opened Matching
  import opened Ledger
  import opened Streams
  import opened Exchange
  import opened Drive
  import opened Market

  /** The orders of a side are the tickets its bank issued for the pair, in order, and no ticket was refused. */
  ghost predicate Consumed(w: World, side: int) {
    var own, latest := TicketsOf(At(w, side).bank.log, w.pair), Latest(w.engine, side);
    !w.refused && 0 <= latest <= |own| && Intakes(w.log, side) == Offers(own[..latest])
  }

  /** Runs in which every request but `r` names the pair, if its bank would take it. */
  ghost predicate OthersAreListed(pair: seq<string>, r: OrderReq, o: Opening, events: seq<Exchange.Event>) {
    && o.pair == pair && |pair| == 2 && pair[0] != pair[1]
    && forall i :: 0 <= i < |events| ==>
         (events[i].On? && events[i].act.Request? && events[i].act.req == r) || Listed(pair, events[i])
  }

  /** No bank of the pair takes the request unless it names the pair. */
  predicate NamesThePair(pair: seq<string>, r: OrderReq) {
    (Refusal(CoinName(pair, ASK), r) == Ok || Refusal(CoinName(pair, BID), r) == Ok) ==> r.symbol == pair
  }

  // ---- a request that does not ----

  function Bank(pair: seq<string>, r: OrderReq): int {
    if Refusal(CoinName(pair, ASK), r) == Ok then ASK else BID
  }

  /** The request is taken, and its ticket sent to the engine. */
  function Stray(pair: seq<string>, r: OrderReq): seq<Exchange.Event> {
    [On(Bank(pair, r), Request(1, r))] + Fetch(Bank(pair, r))
  }

  function StrayBank(pair: seq<string>, r: OrderReq): Ledger.Bank {
    HandleOrderReq(Opened(map[]), CoinName(pair, Bank(pair, r)), 1, r, true).bank
  }

  lemma StrayIsTaken(pair: seq<string>, r: OrderReq)
    requires |pair| == 2 && !NamesThePair(pair, r)
    ensures var b := StrayBank(pair, r);
            && HandleOrderReq(Opened(map[]), CoinName(pair, Bank(pair, r)), 1, r, true).status == Ok
            && Issued(b) == [TicketFor(r, 1)] && TicketsOf(b.log, pair) == [] && IsSide(r.side)
  {
    var b := StrayBank(pair, r);
    LogGrows([], Last(b.log), pair);
    assert [] + [Last(b.log)] == b.log && [] + Last(b.log).tickets == [TicketFor(r, 1)];
  }

  function Asking(pair: seq<string>, r: OrderReq): World {
    var w := Begin(Empty(pair));
    Put(w, Bank(pair, r), At(w, Bank(pair, r)).(bank := StrayBank(pair, r)))
  }

  /** The ticket is in the channel. */
  function Arrived(pair: seq<string>, r: OrderReq): World {
    var w, side := Asking(pair, r), Bank(pair, r);
    Put(w, side, At(w, side).(down := Down(0, 1, []))).(channel := [Pushed(TicketFor(r, 1))])
  }

  lemma StrayArrives(pair: seq<string>, r: OrderReq)
    requires |pair| == 2 && !NamesThePair(pair, r)
    ensures var w, side := Begin(Empty(pair)), Bank(pair, r);
            Step(Step(Step(w, On(side, Request(1, r))), On(side, Send)), On(side, Receive)) == Arrived(pair, r)
  {
    var side := Bank(pair, r);
    StrayIsTaken(pair, r);
    assert Step(Begin(Empty(pair)), On(side, Request(1, r))) == Asking(pair, r);
    SendAndReceive(Asking(pair, r), side, 0, TicketFor(r, 1));
  }

  lemma StrayRunsTo(pair: seq<string>, r: OrderReq)
    requires |pair| == 2 && !NamesThePair(pair, r)
    ensures Runs(Begin(Empty(pair)), Stray(pair, r)) == Step(Arrived(pair, r), TakeTicket)
  {
    var w0, side := Begin(Empty(pair)), Bank(pair, r);
    StrayArrives(pair, r);
    RunsOne(w0, On(side, Request(1, r)));
    RunsConcat(w0, [On(side, Request(1, r))], Fetch(side));
    RunsFetch(Step(w0, On(side, Request(1, r))), side);
  }

  lemma ArrivedBanks(pair: seq<string>, r: OrderReq)
    requires |pair| == 2 && !NamesThePair(pair, r)
    ensures var w := Arrived(pair, r);
            && w.pair == pair && w.engine == START && w.log == [] && IsSide(r.side)
            && TicketsOf(At(w, r.side).bank.log, pair) == [] && TicketID(At(w, r.side).bank.ticketIDs, pair) == 0
  {
    StrayIsTaken(pair, r);
  }

  /** The engine makes the ticket its own order 1 of that side, of which the bank's tickets for the pair know
      nothing. */
  lemma StrayIsMatched(pair: seq<string>, r: OrderReq)
    requires |pair| == 2 && !NamesThePair(pair, r)
    ensures var w := Runs(Begin(Empty(pair)), Stray(pair, r));
            && w.pair == pair && IsSide(r.side) && Latest(w.engine, r.side) == 1
            && w.log == [OrderOf(START, Pushed(TicketFor(r, 1)))]
            && TicketsOf(At(w, r.side).bank.log, pair) == [] && TicketID(At(w, r.side).bank.ticketIDs, pair) == 0
  {
    var w, t := Arrived(pair, r), Pushed(TicketFor(r, 1));
    StrayRunsTo(pair, r);
    ArrivedBanks(pair, r);
    HeadIsTaken(w, t);
    assert [] + [OrderOf(START, t)] == [OrderOf(START, t)];
  }

  /** So the pair's own first request of that side is dropped: its ticket has the same number. */
  lemma StrayReplacesTheFirst(pair: seq<string>, r: OrderReq, first: OrderReq)
    requires |pair| == 2 && !NamesThePair(pair, r) && first.symbol == pair && first.side == r.side
    ensures var w := Runs(Begin(Empty(pair)), Stray(pair, r));
            && !Consumed(w, r.side)
            && TicketID(At(w, r.side).bank.ticketIDs, pair) == 0
            && Judge(w.engine, Pushed(TicketFor(first, 1))) == Duplicate
  {
    StrayIsMatched(pair, r);
  }

  // ---- exactly then ----

  lemma ListedRunsConsume(o: Opening, events: seq<Exchange.Event>, side: int)
    requires Trading(o, events) && IsSide(side)
    ensures Consumed(Runs(Begin(o), events), side)
  {
    FlowHolds(o, events);
  }

  lemma StrayRuns(pair: seq<string>, r: OrderReq)
    requires |pair| == 2 && pair[0] != pair[1]
    ensures OthersAreListed(pair, r, Empty(pair), Stray(pair, r))
  {}

  /** A request can never put the tickets of a pair out of order, or another order in their place, if and only if no
      bank of the pair takes it unless it names the pair. */
  lemma NamingThePairIsExactlyWhatIsNeeded(pair: seq<string>, r: OrderReq)
    requires |pair| == 2 && pair[0] != pair[1]
    ensures NamesThePair(pair, r) <==>
            forall o, events, side :: OthersAreListed(pair, r, o, events) && IsSide(side) ==>
              Consumed(Runs(Begin(o), events), side)
  {
    if NamesThePair(pair, r) {
      forall o, events, side | OthersAreListed(pair, r, o, events) && IsSide(side)
        ensures Consumed(Runs(Begin(o), events), side)
      {
        ListedRunsConsume(o, events, side);
      }
    } else {
      StrayIsTaken(pair, r);
      StrayIsMatched(pair, r);
      StrayRuns(pair, r);
      assert !Consumed(Runs(Begin(Empty(pair)), Stray(pair, r)), r.side);
      assert OthersAreListed(pair, r, Empty(pair), Stray(pair, r)) && IsSide(r.side);
    }
  }
}
