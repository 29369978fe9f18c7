/** Where the engine's orders come from: each is a request a bank took, as it was made. */
module Origins {
  import opened Fixed
  import opened Matching
  import opened Ledger
  import opened Exchange
  import Cover
  import Halts

  /** The ticket tells a request that was sent to the bank of `side`. */
  ghost predicate Requested(events: seq<Exchange.Event>, side: int, t: TicketLog) {
    exists i :: 0 <= i < |events| && events[i].On? && events[i].side == side && events[i].act.Request?
                && Tells(t, events[i].act.req)
  }

  ghost predicate AllRequested(events: seq<Exchange.Event>, side: int, issued: seq<TicketLog>) {
    forall t :: t in issued ==> Requested(events, side, t)
  }

  lemma StillRequested(events: seq<Exchange.Event>, e: Exchange.Event, side: int, issued: seq<TicketLog>)
    requires AllRequested(events, side, issued)
    ensures AllRequested(events + [e], side, issued)
  {
    forall t | t in issued ensures Requested(events + [e], side, t) {
      var i :| 0 <= i < |events| && events[i].On? && events[i].side == side && events[i].act.Request?
               && Tells(t, events[i].act.req);
      assert (events + [e])[i] == events[i];
    }
  }

  lemma AskedIssues(c: Coin, pair: seq<string>, side: int, msgSeq: int, r: OrderReq)
    requires |pair| == 2 && pair[0] != pair[1] && IsSide(side) && Listed(pair, On(side, Request(msgSeq, r)))
    ensures var issued, issued' := Issued(c.bank), Issued(Asked(c, CoinName(pair, side), msgSeq, r).bank);
            issued' == issued || exists id :: issued' == issued + [TicketFor(r, id)]
  {
    if HandleOrderReq(c.bank, CoinName(pair, side), msgSeq, r, true).status == Ok {
      RequestTakes(c.bank, pair, side, msgSeq, r);
    }
  }

  // An act issues nothing, or the ticket of its own request.
  lemma ActIssues(c: Coin, pair: seq<string>, side: int, latest: int, log: seq<Line>, a: Act)
    requires |pair| == 2 && pair[0] != pair[1] && IsSide(side) && Listed(pair, On(side, a))
    ensures var issued, issued' := Issued(c.bank), Issued(React(c, pair, side, latest, log, a).bank);
            issued' == issued || (a.Request? && exists id :: issued' == issued + [TicketFor(a.req, id)])
  {
    if a.Request? {
      AskedIssues(c, pair, side, a.msgSeq, a.req);
    } else if a.Apply? && c.queue != [] {
      Halts.ChangedKeepsTickets(c, pair);
    }
  }

  lemma StepIssues(w: World, e: Exchange.Event, side: int)
    requires EngineOk(w) && Listed(w.pair, e) && IsSide(side)
    ensures var issued, issued' := Issued(At(w, side).bank), Issued(At(Step(w, e), side).bank);
            || issued' == issued
            || (&& e.On? && e.side == side && e.act.Request?
                && exists id :: issued' == issued + [TicketFor(e.act.req, id)])
  {
    if e.On? && e.side == side {
      ActIssues(At(w, side), w.pair, side, Latest(w.engine, side), w.log, e.act);
    } else {
      OthersRest(w, e, side);
    }
  }

  lemma OneMoreRequested(events: seq<Exchange.Event>, e: Exchange.Event, side: int, issued: seq<TicketLog>, id: int)
    requires AllRequested(events, side, issued) && e.On? && e.side == side && e.act.Request?
    ensures AllRequested(events + [e], side, issued + [TicketFor(e.act.req, id)])
  {
    StillRequested(events, e, side, issued);
    var t := TicketFor(e.act.req, id);
    assert (events + [e])[|events|] == e && Tells(t, e.act.req);
  }

  lemma StepTells(events: seq<Exchange.Event>, side: int, issued: seq<TicketLog>, issued': seq<TicketLog>)
    requires events != [] && AllRequested(events[..|events| - 1], side, issued)
    requires var e := Last(events);
             || issued' == issued
             || (&& e.On? && e.side == side && e.act.Request?
                 && exists id :: issued' == issued + [TicketFor(e.act.req, id)])
    ensures AllRequested(events, side, issued')
  {
    var before, e := events[..|events| - 1], Last(events);
    assert events == before + [e];
    if issued' == issued {
      StillRequested(before, e, side, issued);
    } else {
      var id :| issued' == issued + [TicketFor(e.act.req, id)];
      OneMoreRequested(before, e, side, issued, id);
    }
  }

  lemma RunIssues(o: Opening, events: seq<Exchange.Event>, side: int)
    requires Trading(o, events) && IsSide(side) && events != []
    ensures var w, e := Runs(Begin(o), events[..|events| - 1]), Last(events);
            var issued, issued' := Issued(At(w, side).bank), Issued(At(Runs(Begin(o), events), side).bank);
            || issued' == issued
            || (&& e.On? && e.side == side && e.act.Request?
                && exists id :: issued' == issued + [TicketFor(e.act.req, id)])
  {
    FlowHolds(o, events[..|events| - 1]);
    StepIssues(Runs(Begin(o), events[..|events| - 1]), Last(events), side);
  }

  /** Every ticket a bank has issued tells one of the requests sent to it. */
  lemma {:induction false} TicketsTellRequests(o: Opening, events: seq<Exchange.Event>, side: int)
    requires Trading(o, events) && IsSide(side)
    ensures AllRequested(events, side, Issued(At(Runs(Begin(o), events), side).bank))
  {
    if events != [] {
      var before := events[..|events| - 1];
      TicketsTellRequests(o, before, side);
      RunIssues(o, events, side);
      StepTells(events, side, Issued(At(Runs(Begin(o), before), side).bank),
                Issued(At(Runs(Begin(o), events), side).bank));
    }
  }

  /** The order line is the request: its owner, side and kind, its price and quantity truncated to the engine's scale,
      and no fee rate. */
  predicate Follows(l: Line, r: OrderReq)
    requires l.OrderLine?
  {
    && l.owner == r.owner && l.side == r.side && l.kind == r.kind && l.feeRate == 0
    && Truncates(l.price, r.price) && Truncates(l.quantity, r.quantity)
  }

  lemma OfferFollows(l: Line, t: TicketLog, r: OrderReq)
    requires l.OrderLine? && IntakeOf(l) == Offer(t) && Tells(t, r)
    ensures Follows(l, r)
  {
    ScalingTruncates(r.price, l.price);
    ScalingTruncates(r.quantity, l.quantity);
  }

  /** In every run, through every crash, disconnection and restart, each order the engine has is one of the requests
      sent to the bank of its side. */
  lemma OrdersFollowRequests(o: Opening, events: seq<Exchange.Event>, k: int)
    requires Trading(o, events)
    requires 0 <= k < |Runs(Begin(o), events).log| && Runs(Begin(o), events).log[k].OrderLine?
    ensures var l := Runs(Begin(o), events).log[k];
            && IsSide(l.side)
            && exists i :: 0 <= i < |events| && events[i].On? && events[i].side == l.side && events[i].act.Request?
                           && Follows(l, events[i].act.req)
  {
    var w := Runs(Begin(o), events);
    var l := w.log[k];
    FlowHolds(o, events);
    Cover.LegalSides(w.log, k);
    TicketsTellRequests(o, events, l.side);
    var issued := Issued(At(w, l.side).bank);
    var j := Cover.OrderWasIssued(w.log, l.side, issued, Latest(w.engine, l.side), k);
    assert issued[j] in issued && Requested(events, l.side, issued[j]);
    var i :| 0 <= i < |events| && events[i].On? && events[i].side == l.side && events[i].act.Request?
             && Tells(issued[j], events[i].act.req);
    OfferFollows(l, issued[j], events[i].act.req);
  }
}
