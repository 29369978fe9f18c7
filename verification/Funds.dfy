/** The money in the exchange: what the two banks hold for a user, against what the engine's log and the orders still
    on their way say. */
module Funds {
  import opened Fixed
  import opened Matching
  import opened Ledger
  import opened Streams
  import opened Exchange
  import opened Solvency

  // ---- what a bank's log says ----

  /** A two-leg change without the balances that resulted. */
  datatype Transfer = Transfer(owner: int, free: real, freeze: real, owner2: int, free2: real, freeze2: real)

  function TransferOf(c: BalanceChange): Transfer {
    Transfer(c.owner, c.freeChange, c.freezeChange, c.owner2, c.freeChange2, c.freezeChange2)
  }

  function Transfers(cs: seq<BalanceChange>): seq<Transfer> {
    if cs == [] then [] else Transfers(cs[..|cs| - 1]) + [TransferOf(Last(cs))]
  }

  /** The changes a bank's log says were applied. */
  function Applied(log: seq<BankLine>): seq<Transfer> {
    if log == [] then []
    else
      var l := Last(log);
      Applied(log[..|log| - 1]) +
      (if |l.legs| != 2 then []
       else [Transfer(l.legs[0].owner, l.legs[0].freeChange, l.legs[0].freezeChange,
                      l.legs[1].owner, l.legs[1].freeChange, l.legs[1].freezeChange)])
  }

  /** What a bank's log says was frozen for a user's orders. */
  function Frozen(log: seq<BankLine>, owner: int): real {
    if log == [] then 0.0
    else
      var l := Last(log);
      Frozen(log[..|log| - 1], owner) +
      (if |l.legs| == 1 && l.legs[0].owner == owner then l.legs[0].freezeChange else 0.0)
  }

  function Only(owner: int, o: int, x: real): real {
    if owner == o then x else 0.0
  }

  function FreePart(t: Transfer, o: int): real {
    Only(t.owner, o, t.free) + Only(t.owner2, o, t.free2)
  }

  function FreezePart(t: Transfer, o: int): real {
    Only(t.owner, o, t.freeze) + Only(t.owner2, o, t.freeze2)
  }

  function NetFree(ts: seq<Transfer>, o: int): real {
    if ts == [] then 0.0 else NetFree(ts[..|ts| - 1], o) + FreePart(Last(ts), o)
  }

  function NetFreeze(ts: seq<Transfer>, o: int): real {
    if ts == [] then 0.0 else NetFreeze(ts[..|ts| - 1], o) + FreezePart(Last(ts), o)
  }

  // ---- requests and promises ----

  /** What a taken order may cost its owner at most, in units of the scaled integers. Leaving out (`all` is false) the
      bids of owners whose changes no bank applies, they cost nothing. */
  function Price(all: bool, i: Intake): int {
    if Counts(all, i.side, i.owner) then Worst(i.side, i.price, i.quantity) else 0
  }

  function Promised(all: bool, offers: seq<Intake>, owner: int): int {
    if offers == [] then 0
    else
      Promised(all, offers[..|offers| - 1], owner) +
      (if Last(offers).owner == owner then Price(all, Last(offers)) else 0)
  }

  /** A request that freezes what its scaled order may cost, and never less than nothing. */
  predicate Pays(all: bool, r: OrderReq) {
    var price, quantity := DecimalToInt(r.price), DecimalToInt(r.quantity);
    if Counts(all, r.side, r.owner) then 0 <= quantity && IntToDecimal(Worst(r.side, price, quantity)) <= Total(r)
    else 0.0 <= Total(r)
  }

  /** The condition on every request, and the weaker one that leaves out bids that can never be settled. */
  predicate Covered(r: OrderReq) { Pays(true, r) }
  predicate Safe(r: OrderReq) { IsSide(r.side) ==> Pays(false, r) }

  /** A bid that names at least its price times its quantity, or an ask, with a fee that is not negative, is covered. */
  lemma SoundRequestsAreCovered(r: OrderReq)
    requires 0.0 <= r.price && 0.0 <= r.quantity && 0.0 <= r.feeLevel
    requires r.side == ASK || (r.side == BID && r.price * r.quantity <= r.amount)
    ensures Covered(r)
  {
    ScalingRoundsDown(r.price);
    ScalingRoundsDown(r.quantity);
    if r.side == BID {
      AmountCoversReserve(r.price, r.quantity, r.amount);
      assert 0.0 <= r.price * r.quantity;
      assert 0.0 <= r.amount * r.feeLevel;
    } else {
      assert 0.0 <= r.quantity * r.feeLevel;
    }
  }

  lemma CoveredIsSafe(r: OrderReq)
    requires Covered(r)
    ensures Safe(r) && 0.0 <= Total(r)
  {
    if r.side == ASK { IntToDecimalAdds(0, DecimalToInt(r.quantity)); }
    else { IntToDecimalAdds(0, Worst(r.side, DecimalToInt(r.price), DecimalToInt(r.quantity))); }
  }

  /** Every request of a run pays. */
  ghost predicate Paying(all: bool, events: seq<Exchange.Event>) {
    forall i :: 0 <= i < |events| && events[i].On? && events[i].act.Request? && IsSide(events[i].act.req.side) ==>
      Pays(all, events[i].act.req)
  }

  // ---- invariants of one bank ----

  /** A user's balance is the one loaded, less what the log froze for the user's orders, with what the applied changes
      moved. */
  ghost predicate BalancedFor(loaded: Assets, m: Assets, log: seq<BankLine>, o: int) {
    && Get(m, o).free == Get(loaded, o).free + NetFree(Applied(log), o) - Frozen(log, o)
    && Get(m, o).freeze == Get(loaded, o).freeze + NetFreeze(Applied(log), o) + Frozen(log, o)
  }

  ghost predicate Balanced(loaded: Assets, m: Assets, log: seq<BankLine>) {
    forall o :: BalancedFor(loaded, m, log, o)
  }

  ghost predicate BackedFor(all: bool, b: Bank, issued: seq<TicketLog>, o: int) {
    IntToDecimal(Promised(all, Offers(issued), o)) <= Frozen(b.log, o)
  }

  ghost predicate Backed(all: bool, b: Bank, issued: seq<TicketLog>) {
    && (forall o :: BackedFor(all, b, issued, o))
    && (forall i :: 0 <= i < |issued| && Counts(all, issued[i].side, issued[i].owner) ==>
          0 <= Offer(issued[i]).quantity)
  }

  ghost predicate Exact(b: Bank, side: int, log: seq<Line>) {
    0 <= Reason(b) <= |log| && Applied(b.log) == Transfers(Due(side, log[..Reason(b)]))
  }

  lemma LogExtends(log: seq<BankLine>, l: BankLine, owner: int)
    ensures Frozen(log + [l], owner) ==
            Frozen(log, owner) + (if |l.legs| == 1 && l.legs[0].owner == owner then l.legs[0].freezeChange else 0.0)
    ensures Applied(log + [l]) == Applied(log) +
            (if |l.legs| != 2 then []
             else [Transfer(l.legs[0].owner, l.legs[0].freeChange, l.legs[0].freezeChange,
                            l.legs[1].owner, l.legs[1].freeChange, l.legs[1].freezeChange)])
  {
    assert (log + [l])[..|log|] == log;
  }

  lemma NetExtends(ts: seq<Transfer>, t: Transfer, o: int)
    ensures NetFree(ts + [t], o) == NetFree(ts, o) + FreePart(t, o)
    ensures NetFreeze(ts + [t], o) == NetFreeze(ts, o) + FreezePart(t, o)
  {
    assert (ts + [t])[..|ts|] == ts;
  }

  lemma OffersExtend(all: bool, ts: seq<TicketLog>, t: TicketLog, owner: int)
    ensures Offers(ts + [t]) == Offers(ts) + [Offer(t)]
    ensures Promised(all, Offers(ts + [t]), owner) ==
            Promised(all, Offers(ts), owner) + (if t.owner == owner then Price(all, Offer(t)) else 0)
  {
    assert (ts + [t])[..|ts|] == ts;
    assert (Offers(ts) + [Offer(t)])[..|Offers(ts)|] == Offers(ts);
  }

  // ---- a request ----

  lemma CreditGets(m: Assets, owner: int, free: real, freeze: real, o: int)
    ensures Get(Credit(m, owner, free, freeze), o).free == Get(m, o).free + Only(owner, o, free)
    ensures Get(Credit(m, owner, free, freeze), o).freeze == Get(m, o).freeze + Only(owner, o, freeze)
  {}

  lemma OrderIsHeld(log: seq<BankLine>, l: BankLine, owner: int, total: real, o: int)
    requires |l.legs| == 1 && l.legs[0].owner == owner && l.legs[0].freezeChange == total
    ensures Applied(log + [l]) == Applied(log) && Frozen(log + [l], o) == Frozen(log, o) + Only(owner, o, total)
  {
    LogExtends(log, l, o);
    assert Applied(log) + [] == Applied(log);
  }

  lemma RequestKeepsBalance(loaded: Assets, m: Assets, log: seq<BankLine>, l: BankLine, owner: int, total: real)
    requires Balanced(loaded, m, log)
    requires |l.legs| == 1 && l.legs[0].owner == owner && l.legs[0].freezeChange == total
    ensures Balanced(loaded, Credit(m, owner, -total, total), log + [l]) && Applied(log + [l]) == Applied(log)
  {
    var m', log' := Credit(m, owner, -total, total), log + [l];
    forall o ensures BalancedFor(loaded, m', log', o) {
      OrderIsHeld(log, l, owner, total, o);
      CreditGets(m, owner, -total, total, o);
      assert BalancedFor(loaded, m, log, o);
    }
    OrderIsHeld(log, l, owner, total, 0);
  }

  lemma PriceIsPaid(all: bool, r: OrderReq, id: int)
    requires Pays(all, r)
    ensures IntToDecimal(Price(all, Offer(TicketFor(r, id)))) <= Total(r)
    ensures Counts(all, r.side, r.owner) ==> 0 <= Offer(TicketFor(r, id)).quantity
  {
    assert IntToDecimal(0) == 0.0;
  }

  lemma RequestBacks(all: bool, b: Bank, b': Bank, issued: seq<TicketLog>, t: TicketLog, total: real, l: BankLine,
                     o: int)
    requires BackedFor(all, b, issued, o) && b'.log == b.log + [l]
    requires |l.legs| == 1 && l.legs[0].owner == t.owner && l.legs[0].freezeChange == total
    requires IntToDecimal(Price(all, Offer(t))) <= total
    ensures BackedFor(all, b', issued + [t], o)
  {
    LogExtends(b.log, l, o);
    OffersExtend(all, issued, t, o);
    IntToDecimalAdds(Promised(all, Offers(issued), o), if t.owner == o then Price(all, Offer(t)) else 0);
    assert IntToDecimal(0) == 0.0;
  }

  lemma RequestIsBacked(all: bool, b: Bank, b': Bank, issued: seq<TicketLog>, r: OrderReq, id: int, total: real,
                        l: BankLine)
    requires Backed(all, b, issued) && b'.log == b.log + [l]
    requires |l.legs| == 1 && l.legs[0].owner == r.owner && l.legs[0].freezeChange == total
    requires IntToDecimal(Price(all, Offer(TicketFor(r, id)))) <= total
    requires Counts(all, r.side, r.owner) ==> 0 <= Offer(TicketFor(r, id)).quantity
    ensures Backed(all, b', issued + [TicketFor(r, id)])
  {
    var t := TicketFor(r, id);
    forall o ensures BackedFor(all, b', issued + [t], o) {
      assert BackedFor(all, b, issued, o);
      RequestBacks(all, b, b', issued, t, total, l, o);
    }
  }

  // ---- a change ----

  lemma ChangeIsHeld(log: seq<BankLine>, l: BankLine, t: Transfer, o: int)
    requires |l.legs| == 2
    requires t == Transfer(l.legs[0].owner, l.legs[0].freeChange, l.legs[0].freezeChange,
                           l.legs[1].owner, l.legs[1].freeChange, l.legs[1].freezeChange)
    ensures Applied(log + [l]) == Applied(log) + [t] && Frozen(log + [l], o) == Frozen(log, o)
  {
    LogExtends(log, l, o);
  }

  function Moved(m: Assets, c: BalanceChange): Assets {
    Credit(Credit(m, c.owner, c.freeChange, c.freezeChange), c.owner2, c.freeChange2, c.freezeChange2)
  }

  lemma TransferGets(m: Assets, c: BalanceChange, o: int)
    ensures Get(Moved(m, c), o).free == Get(m, o).free + FreePart(TransferOf(c), o)
    ensures Get(Moved(m, c), o).freeze == Get(m, o).freeze + FreezePart(TransferOf(c), o)
  {
    CreditGets(m, c.owner, c.freeChange, c.freezeChange, o);
    CreditGets(Credit(m, c.owner, c.freeChange, c.freezeChange), c.owner2, c.freeChange2, c.freezeChange2, o);
  }

  lemma ChangeKeepsBalance(loaded: Assets, m: Assets, log: seq<BankLine>, l: BankLine, c: BalanceChange)
    requires Balanced(loaded, m, log) && |l.legs| == 2
    requires TransferOf(c) == Transfer(l.legs[0].owner, l.legs[0].freeChange, l.legs[0].freezeChange,
                                       l.legs[1].owner, l.legs[1].freeChange, l.legs[1].freezeChange)
    ensures Balanced(loaded, Moved(m, c), log + [l]) && Applied(log + [l]) == Applied(log) + [TransferOf(c)]
  {
    forall o ensures BalancedFor(loaded, Moved(m, c), log + [l], o) {
      ChangeIsHeld(log, l, TransferOf(c), o);
      NetExtends(Applied(log), TransferOf(c), o);
      TransferGets(m, c, o);
      assert BalancedFor(loaded, m, log, o);
    }
    ChangeIsHeld(log, l, TransferOf(c), 0);
  }

  lemma ChangeIsBacked(all: bool, b: Bank, b': Bank, issued: seq<TicketLog>, l: BankLine)
    requires Backed(all, b, issued) && b'.log == b.log + [l] && |l.legs| == 2
    ensures Backed(all, b', issued)
  {
    forall o ensures BackedFor(all, b', issued, o) {
      assert BackedFor(all, b, issued, o);
      LogExtends(b.log, l, o);
    }
  }

  lemma ChangeIsExact(side: int, log: seq<Line>, c: Coin, b': Bank)
    requires ChangesFlow(side, log, Reason(c.bank), c.queue, c.up) && c.queue != []
    requires forall i :: 0 <= i < |log| ==> log[i].logID == i + 1
    requires Exact(c.bank, side, log) && Reason(b') == c.queue[0].reasonID
    requires Applied(b'.log) == Applied(c.bank.log) + [TransferOf(c.queue[0])]
    ensures Exact(b', side, log)
  {
    var r, k := Reason(c.bank), Reason(b');
    DueHead(side, log, r, c.up.received);
    assert log[..k] == log[..r] + log[r..k];
    DueConcat(side, log[..r], log[r..k]);
    var due := Due(side, log[..r]);
    assert (due + [c.queue[0]])[..|due|] == due;
  }
}
