/** Which requests are dangerous: exactly those that are not safe. */
module Safety {
  import opened Fixed
  import opened Matching
  import opened Ledger
  import opened Exchange
  import opened Funds
  import opened Overdraw
  import Resale
  import Cover

  // An unsafe request falls short in one of four ways.
  lemma UnsafeRequestOverdraws(r: OrderReq)
    requires |r.symbol| == 2 && r.symbol[0] != r.symbol[1] && !Safe(r)
    ensures Overdraws(r)
  {
    if Total(r) < 0.0 {
      NegativeTotalOverdraws(r);
    } else if DecimalToInt(r.quantity) >= 0 {
      UncoveredRequestOverdraws(r);
    } else if r.side == ASK {
      Resale.NegativeAskOverdraws(r);
    } else {
      NegativeBidOverdraws(r);
    }
  }

  lemma SafeRequestsPay(r: OrderReq, o: Opening, events: seq<Exchange.Event>)
    requires Safe(r) && OthersPay(r, o, events)
    ensures Paying(false, events)
  {
    forall i | 0 <= i < |events| && events[i].On? && events[i].act.Request? && IsSide(events[i].act.req.side)
      ensures Pays(false, events[i].act.req)
    {
      assert Safe(events[i].act.req);
    }
  }

  lemma SafeRequestOverdrawsNoOne(r: OrderReq, o: Opening, events: seq<Exchange.Event>, side: int, owner: int)
    requires Safe(r) && OthersPay(r, o, events) && IsSide(side)
    ensures !Overdrawn(o, events, side, owner)
  {
    SafeRequestsPay(r, o, events);
    Cover.NobodyIsOverdrawn(o, events, side, owner);
  }

  /** Whatever the two banks have loaded and however a run goes on, a request can take part in overdrawing someone while
      every other request is safe if and only if it is not safe itself. */
  lemma SafetyIsExactlyWhatIsNeeded(r: OrderReq)
    requires |r.symbol| == 2 && r.symbol[0] != r.symbol[1]
    ensures Safe(r) <==> !Overdraws(r)
  {
    if !Safe(r) {
      UnsafeRequestOverdraws(r);
    } else if Overdraws(r) {
      var o, events, side, owner :| OthersPay(r, o, events) && IsSide(side) && Overdrawn(o, events, side, owner);
      SafeRequestOverdrawsNoOne(r, o, events, side, owner);
    }
  }
}
