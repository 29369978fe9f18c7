/** When a bank stops over a balance change: a change whose second owner, the bider, is not positive has no second
    record. */
module Halts {
  import opened Matching
  import opened Ledger
  import opened Streams
  import opened Exchange
  import opened Settlement
  import opened Drive
  import opened Market
  import Accounting
  import Cover

  /** In every run, the next change of a bank is that of a match, and it can be applied if and only if the bider of
      that match is positive. */
  lemma ChangesNeedABider(o: Opening, events: seq<Exchange.Event>, side: int)
    requires IsSide(side) && At(Runs(Begin(o), events), side).queue != []
    ensures var w := Runs(Begin(o), events);
            var c := At(w, side);
            exists k :: 0 <= k < |w.log| && w.log[k].MatchLine? && c.queue[0] == ChangeFor(side, w.log[k])
                        && (HandleBalanceChange(c.bank, c.queue[0], true).status == Ok <==> w.log[k].bider > 0)
  {
    GenuineHolds(o, events, side);
    var w := Runs(Begin(o), events);
    var c := At(w, side);
    assert c.queue[0] in c.queue;
    var k :| 0 <= k < |w.log| && w.log[k].MatchLine? && c.queue[0] == ChangeFor(side, w.log[k]);
  }

  // ---- positive biders ----

  ghost predicate BidersArePositive(events: seq<Exchange.Event>) {
    forall i :: 0 <= i < |events| && events[i].On? && events[i].act.Request? && events[i].act.req.side == BID ==>
      events[i].act.req.owner > 0
  }

  ghost predicate OwnersArePositive(w: World) {
    var issued := Issued(w.quote.bank);
    forall i :: 0 <= i < |issued| ==> issued[i].owner > 0
  }

  lemma AskedKeepsOwners(c: Coin, pair: seq<string>, msgSeq: int, r: OrderReq)
    requires |pair| == 2 && pair[0] != pair[1] && Listed(pair, On(BID, Request(msgSeq, r)))
    requires r.side == BID ==> r.owner > 0
    requires forall i :: 0 <= i < |Issued(c.bank)| ==> Issued(c.bank)[i].owner > 0
    ensures var issued := Issued(Asked(c, CoinName(pair, BID), msgSeq, r).bank);
            forall i :: 0 <= i < |issued| ==> issued[i].owner > 0
  {
    if HandleOrderReq(c.bank, CoinName(pair, BID), msgSeq, r, true).status == Ok {
      RequestTakes(c.bank, pair, BID, msgSeq, r);
    }
  }

  lemma ChangedKeepsTickets(c: Coin, pair: seq<string>)
    requires c.queue != []
    ensures Issued(Changed(c).bank) == Issued(c.bank)
  {
    if HandleBalanceChange(c.bank, c.queue[0], true).status == Ok {
      ChangeTakes(c.bank, c.queue[0]);
      LogGrows(c.bank.log, Last(Changed(c).bank.log), pair);
    }
  }

  lemma StepKeepsOwners(w: World, e: Exchange.Event)
    requires EngineOk(w) && OwnersArePositive(w) && Listed(w.pair, e)
    requires e.On? && e.act.Request? && e.act.req.side == BID ==> e.act.req.owner > 0
    ensures OwnersArePositive(Step(w, e))
  {
    PairIsFixed(w, e);
    if !MovesFunds(e, BID) {
      BankRests(w, e, BID);
    } else if w.quote.status == Ok {
      if e.act.Request? {
        AskedKeepsOwners(w.quote, w.pair, e.act.msgSeq, e.act.req);
      } else if w.quote.queue != [] {
        ChangedKeepsTickets(w.quote, w.pair);
      }
    }
  }

  lemma {:induction false} OwnersHold(o: Opening, events: seq<Exchange.Event>)
    requires Trading(o, events) && BidersArePositive(events)
    ensures OwnersArePositive(Runs(Begin(o), events))
  {
    if events != [] {
      var before, n := events[..|events| - 1], |events| - 1;
      assert forall i :: 0 <= i < n ==> before[i] == events[i];
      OwnersHold(o, before);
      FlowHolds(o, before);
      assert Last(events) == events[n];
      StepKeepsOwners(Runs(Begin(o), before), Last(events));
    }
  }

  // A match's bider owns a ticket of the quote bank.
  lemma MatchesHavePositiveBiders(w: World, k: int)
    requires Flows(w) && OwnersArePositive(w) && 0 <= k < |w.log| && w.log[k].MatchLine?
    ensures w.log[k].bider > 0
  {
    Accounting.TradesAreFair(w.log, k);
    var a, b :| Accounting.FairTrade(w.log, k, a, b);
    var j := Cover.OrderWasIssued(w.log, BID, Issued(w.quote.bank), w.engine.bidTicket, b);
  }

  /** If every bid has a positive owner, no bank ever stops over a change. */
  lemma {:induction false} PositiveBidersNeverHalt(o: Opening, events: seq<Exchange.Event>, side: int)
    requires Trading(o, events) && BidersArePositive(events) && IsSide(side)
    ensures At(Runs(Begin(o), events), side).status != Err(NilRecord)
  {
    if events != [] {
      var before, e, n := events[..|events| - 1], Last(events), |events| - 1;
      assert forall i :: 0 <= i < n ==> before[i] == events[i];
      PositiveBidersNeverHalt(o, before, side);
      FlowHolds(o, before);
      OwnersHold(o, before);
      StepDoesNotHalt(o, before, e, side);
    }
  }

  lemma ActDoesNotHalt(c: Coin, pair: seq<string>, side: int, latest: int, log: seq<Line>, a: Act)
    requires c.status != Err(NilRecord) && (c.queue != [] ==> c.queue[0].owner2 > 0)
    ensures React(c, pair, side, latest, log, a).status != Err(NilRecord)
  {}

  lemma HeadHasABider(w: World, side: int)
    requires IsSide(side) && Flows(w) && OwnersArePositive(w) && ChangesAreGenuine(w, side) && At(w, side).queue != []
    ensures At(w, side).queue[0].owner2 > 0
  {
    assert At(w, side).queue[0] in At(w, side).queue;
    var k :| 0 <= k < |w.log| && w.log[k].MatchLine? && At(w, side).queue[0] == ChangeFor(side, w.log[k]);
    MatchesHavePositiveBiders(w, k);
  }

  lemma NextChangeHasABider(o: Opening, before: seq<Exchange.Event>, side: int)
    requires IsSide(side) && Flows(Runs(Begin(o), before)) && OwnersArePositive(Runs(Begin(o), before))
    requires At(Runs(Begin(o), before), side).queue != []
    ensures At(Runs(Begin(o), before), side).queue[0].owner2 > 0
  {
    GenuineHolds(o, before, side);
    HeadHasABider(Runs(Begin(o), before), side);
  }

  lemma StepDoesNotHalt(o: Opening, before: seq<Exchange.Event>, e: Exchange.Event, side: int)
    requires IsSide(side) && Flows(Runs(Begin(o), before)) && OwnersArePositive(Runs(Begin(o), before))
    requires At(Runs(Begin(o), before), side).status != Err(NilRecord)
    ensures At(Step(Runs(Begin(o), before), e), side).status != Err(NilRecord)
  {
    var w := Runs(Begin(o), before);
    var c := At(w, side);
    if e.On? && e.side == side {
      if c.queue != [] { NextChangeHasABider(o, before, side); }
      ActDoesNotHalt(c, w.pair, side, Latest(w.engine, side), w.log, e.act);
    } else {
      OthersRest(w, e, side);
    }
  }

  // ---- a bider that is not positive ----

  /** An ask of nothing at the bid's limit. */
  function Nothing(b: OrderReq): OrderReq {
    OrderReq(b.symbol, 1, ASK, b.kind, b.price, 0.0, 0.0, 0.0)
  }

  /** The run in which the bid meets that ask and the bank of `side` gets to the change. */
  function Halting(b: OrderReq, side: int): seq<Exchange.Event> {
    Streaming(Meeting(Nothing(b), b), side, 3, 1, 0) + [On(side, Apply)]
  }

  // A change without a bider reaches the head of the queue and stops the bank.
  lemma LastChangeHalts(c: Coin, pair: seq<string>, side: int, latest: int, log: seq<Line>, d: BalanceChange)
    requires c.status == Ok && c.queue == [] && Reason(c.bank) == 0 && |log| == 3 && log[0..] == log
    requires (forall i :: 0 <= i < 3 ==> log[i].logID == i + 1) && Due(side, log) == [d] && d.owner2 <= 0
    ensures React(Acts(c, pair, side, latest, log, Stream(3, 1, 0)), pair, side, latest, log, Apply).status
            == Err(NilRecord)
  {
    assert c.queue + [d][..1] == [d] && [d][0..] == [d] && [d][..0] == [];
    StreamSettles(c, pair, side, latest, log, 1, 0);
  }

  lemma HaltingRuns(b: OrderReq, side: int)
    requires IsSide(side)
    ensures var w := Runs(Begin(Empty(b.symbol)), Meeting(Nothing(b), b));
            var latest := Latest(w.engine, side);
            At(Runs(Begin(Empty(b.symbol)), Halting(b, side)), side)
            == React(Acts(At(w, side), w.pair, side, latest, w.log, Stream(3, 1, 0)), w.pair, side, latest, w.log,
                     Apply)
  {
    StreamingRuns(Empty(b.symbol), Meeting(Nothing(b), b), side, 3, 1, 0);
    RunsOneMore(Begin(Empty(b.symbol)), Streaming(Meeting(Nothing(b), b), side, 3, 1, 0), On(side, Apply));
  }

  lemma NonPositiveBiderHalts(b: OrderReq, side: int)
    requires |b.symbol| == 2 && b.symbol[0] != b.symbol[1] && b.side == BID && b.owner <= 0 && IsSide(side)
    ensures At(Runs(Begin(Empty(b.symbol)), Halting(b, side)), side).status == Err(NilRecord)
  {
    var a := Nothing(b);
    MeetingOwes(a, b, side);
    OrdersMeet(a, b);
    HaltingRuns(b, side);
    var w := Runs(Begin(Empty(b.symbol)), Meeting(a, b));
    LastChangeHalts(At(w, side), w.pair, side, Latest(w.engine, side), w.log, ChangeFor(side, MatchOf(Both(a, b))));
  }

  /** Runs in which every bid other than `b` has a positive owner. */
  ghost predicate OthersArePositive(b: OrderReq, o: Opening, events: seq<Exchange.Event>) {
    && o.pair == b.symbol && Trading(o, events)
    && forall i :: 0 <= i < |events| && events[i].On? && events[i].act.Request? && events[i].act.req.side == BID ==>
         events[i].act.req == b || events[i].act.req.owner > 0
  }

  lemma HaltingIsTrading(b: OrderReq, side: int)
    requires |b.symbol| == 2 && b.symbol[0] != b.symbol[1] && b.side == BID && IsSide(side)
    ensures Trading(Empty(b.symbol), Halting(b, side))
    ensures OthersArePositive(b, Empty(b.symbol), Halting(b, side))
  {
    MeetingIsTrading(Nothing(b), b);
    StreamingIsTrading(Empty(b.symbol), Meeting(Nothing(b), b), side, 3, 1, 0);
  }

  /** A bid can never stop a bank over a change if and only if its owner is positive. */
  lemma OwnerIsExactlyWhatIsNeeded(b: OrderReq)
    requires |b.symbol| == 2 && b.symbol[0] != b.symbol[1] && b.side == BID
    ensures b.owner > 0 <==>
            forall o, events, side :: OthersArePositive(b, o, events) && IsSide(side) ==>
              At(Runs(Begin(o), events), side).status != Err(NilRecord)
  {
    if b.owner > 0 {
      forall o, events, side | OthersArePositive(b, o, events) && IsSide(side)
        ensures At(Runs(Begin(o), events), side).status != Err(NilRecord)
      {
        PositiveBidersNeverHalt(o, events, side);
      }
    } else {
      NonPositiveBiderHalts(b, ASK);
      HaltingIsTrading(b, ASK);
      assert OthersArePositive(b, Empty(b.symbol), Halting(b, ASK)) && IsSide(ASK);
    }
  }
}
