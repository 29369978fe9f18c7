/** The bank's ledger of one coin: balances, the log it writes, and what every operation does to both. */
module Ledger {
  import Matching

  datatype Balance = Balance(free: real, freeze: real)

  type Assets = map<int, Balance>

  /** An order request; the symbol is split at its underscores, e.g. ["BTC", "USDT"]. */
  datatype OrderReq = OrderReq(symbol: seq<string>, owner: int, side: int, kind: int,
                               price: real, quantity: real, amount: real, feeLevel: real)

  /** Where a change comes from: the log of the one engine a bank serves, or another table. */
  datatype ReasonTable = OmeLogs | OtherTable(name: string)

  datatype BalanceChange = BalanceChange(reasonTable: ReasonTable, reasonID: int,
                                         owner: int, freeChange: real, freezeChange: real,
                                         owner2: int, freeChange2: real, freezeChange2: real)

  datatype TicketLog = TicketLog(id: int, owner: int, symbol: seq<string>, side: int, kind: int,
                                 price: real, quantity: real, amount: real)

  /** One side of a balance log: what changed, and the balance that resulted. */
  datatype Leg = Leg(owner: int, freeChange: real, freezeChange: real, freeNew: real, freezeNew: real)

  datatype BankLine = BankLine(logID: int, msgSeq: int, tickets: seq<TicketLog>, legs: seq<Leg>)

  datatype Error = InvalidSymbol | InvalidOrderSide | SafeSkip | WriteFailed | NilRecord

  datatype Status = Ok | Err(error: Error)

  datatype Bank = Bank(assets: Assets, ticketIDs: map<seq<string>, int>, omeReasonIDs: map<ReasonTable, int>,
                       latestMsgSeq: int, logID: int, log: seq<BankLine>, acks: seq<int>)

  datatype Outcome = Outcome(bank: Bank, status: Status)

  function Get(m: Assets, owner: int): Balance {
    if owner in m then m[owner] else Balance(0.0, 0.0)
  }

  function Credit(m: Assets, owner: int, free: real, freeze: real): Assets {
    m[owner := Balance(Get(m, owner).free + free, Get(m, owner).freeze + freeze)]
  }

  function TicketID(ids: map<seq<string>, int>, symbol: seq<string>): int {
    if symbol in ids then ids[symbol] else 0
  }

  // ---- what a request asks of a bank ----

  /** The error of a request a bank of `coin` does not take, if any. */
  function Refusal(coin: string, r: OrderReq): Status {
    if |r.symbol| != 2 then Err(InvalidSymbol)
    else if r.side == Matching.BID then (if r.symbol[1] == coin then Ok else Err(SafeSkip))
    else if r.side == Matching.ASK then (if r.symbol[0] == coin then Ok else Err(SafeSkip))
    else Err(InvalidOrderSide)
  }

  /** What a request freezes: a bid its amount, an ask its quantity, with the fee on top. */
  function Total(r: OrderReq): real {
    var value := if r.side == Matching.BID then r.amount else r.quantity;
    value + value * r.feeLevel
  }

  function TicketFor(r: OrderReq, id: int): TicketLog {
    TicketLog(id, r.owner, r.symbol, r.side, r.kind, r.price, r.quantity, r.amount)
  }

  function LegFor(m: Assets, owner: int, free: real, freeze: real): Leg {
    Leg(owner, free, freeze, Get(m, owner).free, Get(m, owner).freeze)
  }

  /** How the log writes what a request takes from the free funds: a minus sign before the total. Before a negative
      total that makes two, which is no number, and is read as zero. */
  function Minus(total: real): real {
    if total < 0.0 then 0.0 else -total
  }

  function OrderLeg(m: Assets, owner: int, total: real): Leg {
    Leg(owner, Minus(total), total, Get(m, owner).free, Get(m, owner).freeze)
  }

  // ---- the operations ----

  function CreateOrder(b: Bank, coin: string, msgSeq: int, r: OrderReq, diskOk: bool): Outcome {
    if Refusal(coin, r) != Ok then Outcome(b, Refusal(coin, r)) else Freeze(b, msgSeq, r, Total(r), diskOk)
  }

  function Freeze(b: Bank, msgSeq: int, r: OrderReq, total: real, diskOk: bool): Outcome {
    if !diskOk then
      Outcome(b.(assets := Credit(b.assets, r.owner, 0.0, 0.0),
                 ticketIDs := b.ticketIDs[r.symbol := TicketID(b.ticketIDs, r.symbol)]), Err(WriteFailed))
    else
      var id, assets := TicketID(b.ticketIDs, r.symbol) + 1, Credit(b.assets, r.owner, -total, total);
      var line := BankLine(b.logID + 1, msgSeq, [TicketFor(r, id)], [OrderLeg(assets, r.owner, total)]);
      Outcome(b.(assets := assets, ticketIDs := b.ticketIDs[r.symbol := id], logID := b.logID + 1,
                 log := b.log + [line], latestMsgSeq := msgSeq), Ok)
  }

  /** Both legs are written after both changes, so they agree when the two owners are one. */
  function Settle(b: Bank, c: BalanceChange, diskOk: bool): Outcome {
    if !diskOk then
      Outcome(b.(assets := Credit(Credit(b.assets, c.owner, 0.0, 0.0), c.owner2, 0.0, 0.0)), Err(WriteFailed))
    else
      var assets := Credit(Credit(b.assets, c.owner, c.freeChange, c.freezeChange),
                           c.owner2, c.freeChange2, c.freezeChange2);
      var line := BankLine(b.logID + 1, 0, [], [LegFor(assets, c.owner, c.freeChange, c.freezeChange),
                                                LegFor(assets, c.owner2, c.freeChange2, c.freezeChange2)]);
      Outcome(b.(assets := assets, logID := b.logID + 1, log := b.log + [line]), Ok)
  }

  /** A change without a second owner updates the first one and then uses a record it does not have. */
  function BalanceChanged(b: Bank, c: BalanceChange, diskOk: bool): Outcome {
    if c.owner2 <= 0 then
      Outcome(b.(assets := Credit(b.assets, c.owner, c.freeChange, c.freezeChange), logID := b.logID + 1),
              Err(NilRecord))
    else Settle(b, c, diskOk)
  }

  function DirectChange(b: Bank, owner: int, free: real, freeze: real, diskOk: bool): Outcome {
    if !diskOk then Outcome(b.(assets := Credit(b.assets, owner, 0.0, 0.0)), Err(WriteFailed))
    else
      var assets := Credit(b.assets, owner, free, freeze);
      Outcome(b.(assets := assets, logID := b.logID + 1,
          log := b.log + [BankLine(b.logID + 1, 0, [], [LegFor(assets, owner, free, freeze)])]), Ok)
  }

  /** An order request from the stream: a sequence already seen is only acknowledged. */
  function HandleOrderReq(b: Bank, coin: string, msgSeq: int, r: OrderReq, diskOk: bool): Outcome {
    if msgSeq <= b.latestMsgSeq then Outcome(b.(acks := b.acks + [msgSeq]), Ok)
    else
      var Outcome(b', s) := CreateOrder(b, coin, msgSeq, r, diskOk);
      Outcome(if s == Ok || s == Err(SafeSkip) then b'.(acks := b.acks + [msgSeq]) else b', s)
  }

  function HandleBalanceChange(b: Bank, c: BalanceChange, diskOk: bool): Outcome {
    BalanceChanged(b.(omeReasonIDs := b.omeReasonIDs[c.reasonTable := c.reasonID]), c, diskOk)
  }

  /** An event of a bank's life. A direct change is an operator's, the others come through the message channel. */
  datatype Event =
    | Order(msgSeq: int, req: OrderReq, diskOk: bool)
    | Change(change: BalanceChange, diskOk: bool)
    | Direct(owner: int, free: real, freeze: real, diskOk: bool)

  function Handle(b: Bank, coin: string, e: Event): Outcome {
    match e
    case Order(msgSeq, req, diskOk) => HandleOrderReq(b, coin, msgSeq, req, diskOk)
    case Change(change, diskOk) => HandleBalanceChange(b, change, diskOk)
    case Direct(owner, free, freeze, diskOk) => DirectChange(b, owner, free, freeze, diskOk)
  }

  /** The main loop stops at the first error, even at one named a safe skip. */
  function Life(b: Bank, coin: string, events: seq<Event>): Outcome {
    if events == [] then Outcome(b, Ok)
    else
      var Outcome(b', s) := Life(b, coin, events[..|events| - 1]);
      if s != Ok then Outcome(b', s) else Handle(b', coin, Matching.Last(events))
  }

  // ---- what a request does ----

  /** What a request is worth with its fee: an ask its quantity, a bid its amount. */
  function Worth(r: OrderReq): real {
    if r.side == Matching.ASK then r.quantity * (1.0 + r.feeLevel) else r.amount * (1.0 + r.feeLevel)
  }

  /** A request for this bank: of two coins, of which it pays with the bank's. */
  predicate Own(coin: string, r: OrderReq) {
    && |r.symbol| == 2
    && ((r.side == Matching.ASK && r.symbol[0] == coin) || (r.side == Matching.BID && r.symbol[1] == coin))
  }

  /** A ticket that says what the request said. */
  predicate Tells(t: TicketLog, r: OrderReq) {
    && t.owner == r.owner && t.symbol == r.symbol && t.side == r.side && t.kind == r.kind
    && t.price == r.price && t.quantity == r.quantity && t.amount == r.amount
  }

  lemma TotalIsTheWorth(r: OrderReq)
    requires r.side == Matching.ASK || r.side == Matching.BID
    ensures Total(r) == Worth(r)
  {}

  /** A bank takes a request of two coins if the one it pays with is its own: it moves what the request is worth from
      free to frozen, and logs one ticket that tells the request, and one leg with the balance that results. */
  lemma RequestsFreezeTheirWorth(b: Bank, coin: string, msgSeq: int, r: OrderReq, owner: int)
    requires Own(coin, r)
    ensures var Outcome(b', s) := CreateOrder(b, coin, msgSeq, r, true);
            var moved := if owner == r.owner then Worth(r) else 0.0;
            && s == Ok
            && Get(b'.assets, owner).free == Get(b.assets, owner).free - moved
            && Get(b'.assets, owner).freeze == Get(b.assets, owner).freeze + moved
    ensures var b' := CreateOrder(b, coin, msgSeq, r, true).bank;
            && |b'.log| == |b.log| + 1 && b'.log[..|b.log|] == b.log && b'.latestMsgSeq == msgSeq
            && var l := b'.log[|b.log|];
               && l.logID == b.logID + 1 == b'.logID && l.msgSeq == msgSeq && |l.tickets| == 1 && |l.legs| == 1
               && Tells(l.tickets[0], r) && l.tickets[0].id == TicketID(b.ticketIDs, r.symbol) + 1
               && l.tickets[0].id == TicketID(b'.ticketIDs, r.symbol)
               && l.legs[0].owner == r.owner && l.legs[0].freezeChange == Worth(r)
               && l.legs[0].freeChange == (if 0.0 <= Worth(r) then -Worth(r) else 0.0)
               && l.legs[0].freeNew == Get(b'.assets, r.owner).free
               && l.legs[0].freezeNew == Get(b'.assets, r.owner).freeze
  {
    TotalIsTheWorth(r);
  }

  /** Any other request changes nothing. */
  lemma OthersChangeNothing(b: Bank, coin: string, msgSeq: int, r: OrderReq, diskOk: bool)
    requires !Own(coin, r)
    ensures CreateOrder(b, coin, msgSeq, r, diskOk).bank == b && CreateOrder(b, coin, msgSeq, r, diskOk).status != Ok
  {}

  /** A leg that records this change of an owner, and the balance it leads to. */
  predicate Records(leg: Leg, m: Assets, owner: int, free: real, freeze: real) {
    && leg.owner == owner && leg.freeChange == free && leg.freezeChange == freeze
    && leg.freeNew == Get(m, owner).free && leg.freezeNew == Get(m, owner).freeze
  }

  /** A change with a second owner moves both legs, also when they are one owner's, and logs both with the balances they
      lead to. Its reason ID is the one remembered. */
  lemma ChangesMoveBothLegs(b: Bank, c: BalanceChange, owner: int)
    requires c.owner2 > 0
    ensures var Outcome(b', s) := HandleBalanceChange(b, c, true);
            && s == Ok
            && Get(b'.assets, owner).free == Get(b.assets, owner).free
                                             + (if owner == c.owner then c.freeChange else 0.0)
                                             + (if owner == c.owner2 then c.freeChange2 else 0.0)
            && Get(b'.assets, owner).freeze == Get(b.assets, owner).freeze
                                               + (if owner == c.owner then c.freezeChange else 0.0)
                                               + (if owner == c.owner2 then c.freezeChange2 else 0.0)
            && c.reasonTable in b'.omeReasonIDs && b'.omeReasonIDs[c.reasonTable] == c.reasonID
    ensures var b' := HandleBalanceChange(b, c, true).bank;
            && |b'.log| == |b.log| + 1 && b'.log[..|b.log|] == b.log && b'.latestMsgSeq == b.latestMsgSeq
            && var l := b'.log[|b.log|];
               && l.logID == b.logID + 1 == b'.logID && l.msgSeq == 0 && l.tickets == [] && |l.legs| == 2
               && Records(l.legs[0], b'.assets, c.owner, c.freeChange, c.freezeChange)
               && Records(l.legs[1], b'.assets, c.owner2, c.freeChange2, c.freezeChange2)
  {}

  /** A direct change moves one leg and logs it. */
  lemma DirectChangesMoveOneLeg(b: Bank, who: int, free: real, freeze: real, owner: int)
    ensures var Outcome(b', s) := DirectChange(b, who, free, freeze, true);
            && s == Ok
            && Get(b'.assets, owner).free == Get(b.assets, owner).free + (if owner == who then free else 0.0)
            && Get(b'.assets, owner).freeze == Get(b.assets, owner).freeze + (if owner == who then freeze else 0.0)
    ensures var b' := DirectChange(b, who, free, freeze, true).bank;
            && |b'.log| == |b.log| + 1 && b'.log[..|b.log|] == b.log && b'.latestMsgSeq == b.latestMsgSeq
            && var l := b'.log[|b.log|];
               && l.logID == b.logID + 1 == b'.logID && l.msgSeq == 0 && l.tickets == [] && |l.legs| == 1
               && Records(l.legs[0], b'.assets, who, free, freeze)
  {}

  /** When an operation succeeds and how it fails: a request seen before is fine, one that is not the bank's own is
      refused, a change needs a second owner, and everything else needs the disk. */
  lemma WhatOperationsReport(b: Bank, coin: string, e: Event)
    ensures var s := Handle(b, coin, e).status;
            match e
            case Order(msgSeq, r, diskOk) =>
              if msgSeq <= b.latestMsgSeq then s == Ok
              else if Own(coin, r) then s == (if diskOk then Ok else Err(WriteFailed))
              else s == Err(if |r.symbol| != 2 then InvalidSymbol
                            else if r.side != Matching.ASK && r.side != Matching.BID then InvalidOrderSide
                            else SafeSkip)
            case Change(c, diskOk) =>
              s == (if c.owner2 <= 0 then Err(NilRecord) else if diskOk then Ok else Err(WriteFailed))
            case Direct(_, _, _, diskOk) => s == (if diskOk then Ok else Err(WriteFailed))
  {}

  /** Every request that is taken, was taken before, or is meant for another bank is acknowledged; no other is. */
  lemma WhatIsAcknowledged(b: Bank, coin: string, e: Event)
    ensures var Outcome(b', s) := Handle(b, coin, e);
            b'.acks == b.acks + (if e.Order? && (s == Ok || s == Err(SafeSkip)) then [e.msgSeq] else [])
    ensures e.Order? && e.msgSeq <= b.latestMsgSeq ==> Handle(b, coin, e).bank == b.(acks := b.acks + [e.msgSeq])
  {
    assert b.acks + [] == b.acks;
  }

  /** A change without a second owner has moved its first leg when it fails, and has logged nothing. */
  lemma NilRecordLeavesTheFirstLeg(b: Bank, c: BalanceChange, diskOk: bool, owner: int)
    requires c.owner2 <= 0
    ensures var Outcome(b', s) := HandleBalanceChange(b, c, diskOk);
            && s == Err(NilRecord) && b'.log == b.log && b'.logID == b.logID + 1
            && c.reasonTable in b'.omeReasonIDs && b'.omeReasonIDs[c.reasonTable] == c.reasonID
            && Get(b'.assets, owner).free
               == Get(b.assets, owner).free + (if owner == c.owner then c.freeChange else 0.0)
            && Get(b'.assets, owner).freeze
               == Get(b.assets, owner).freeze + (if owner == c.owner then c.freezeChange else 0.0)
  {}

  // ---- totals ----

  ghost function Sum(m: Assets): real {
    if forall o :: o !in m then 0.0
    else
      var o :| o in m;
      m[o].free + m[o].freeze + Sum(m - {o})
  }

  lemma {:induction false} SumWithout(m: Assets, o: int)
    requires o in m
    ensures Sum(m) == m[o].free + m[o].freeze + Sum(m - {o})
  {
    var p :| p in m && Sum(m) == m[p].free + m[p].freeze + Sum(m - {p});
    if p != o {
      SumWithout(m - {p}, o);
      SumWithout(m - {o}, p);
      assert m - {p} - {o} == m - {o} - {p};
    }
  }

  lemma CreditSum(m: Assets, o: int, free: real, freeze: real)
    ensures Sum(Credit(m, o, free, freeze)) == Sum(m) + free + freeze
  {
    var m' := Credit(m, o, free, freeze);
    SumWithout(m', o);
    assert m' - {o} == m - {o};
    if o in m { SumWithout(m, o); } else { assert m - {o} == m; }
  }

  /** What an event adds to the coin's total, going by its arguments. */
  function Injected(b: Bank, coin: string, e: Event): real {
    match e
    case Order(_, _, _) => 0.0
    case Change(c, diskOk) =>
      if c.owner2 <= 0 then c.freeChange + c.freezeChange
      else if diskOk then c.freeChange + c.freezeChange + c.freeChange2 + c.freezeChange2 else 0.0
    case Direct(_, free, freeze, diskOk) => if diskOk then free + freeze else 0.0
  }

  function InjectedBy(b: Bank, coin: string, events: seq<Event>): real {
    if events == [] then 0.0
    else
      var Outcome(b', s) := Life(b, coin, events[..|events| - 1]);
      InjectedBy(b, coin, events[..|events| - 1]) +
      (if s != Ok then 0.0 else Injected(b', coin, Matching.Last(events)))
  }

  lemma HandleSum(b: Bank, coin: string, e: Event)
    ensures Sum(Handle(b, coin, e).bank.assets) == Sum(b.assets) + Injected(b, coin, e)
  {
    match e {
      case Order(_, r, _) =>
        CreditSum(b.assets, r.owner, 0.0, 0.0);
        CreditSum(b.assets, r.owner, -Total(r), Total(r));
      case Change(c, diskOk) =>
        var f1, z1 := if diskOk || c.owner2 <= 0 then c.freeChange else 0.0,
                      if diskOk || c.owner2 <= 0 then c.freezeChange else 0.0;
        var f2, z2 := if diskOk then c.freeChange2 else 0.0, if diskOk then c.freezeChange2 else 0.0;
        CreditSum(b.assets, c.owner, f1, z1);
        CreditSum(Credit(b.assets, c.owner, f1, z1), c.owner2, f2, z2);
      case Direct(owner, free, freeze, _) =>
        CreditSum(b.assets, owner, 0.0, 0.0);
        CreditSum(b.assets, owner, free, freeze);
    }
  }

  /** The coin is conserved over every life of the bank: it changes by what changes inject, to the last unit. */
  lemma {:induction false} CoinIsConserved(b: Bank, coin: string, events: seq<Event>)
    ensures Sum(Life(b, coin, events).bank.assets) == Sum(b.assets) + InjectedBy(b, coin, events)
  {
    if events != [] {
      CoinIsConserved(b, coin, events[..|events| - 1]);
      HandleSum(Life(b, coin, events[..|events| - 1]).bank, coin, Matching.Last(events));
    }
  }

  // ---- failed operations ----

  // Fetching both records first and crediting them afterwards is crediting one after the other.
  lemma TouchThenCredit(m: Assets, o: int, f: real, z: real, o2: int, f2: real, z2: real)
    ensures Credit(Credit(m, o, 0.0, 0.0), o, f, z) == Credit(m, o, f, z)
    ensures var touched := Credit(Credit(m, o, 0.0, 0.0), o2, 0.0, 0.0);
            Credit(Credit(touched, o, f, z), o2, f2, z2) == Credit(Credit(m, o, f, z), o2, f2, z2)
  {}

  lemma FreezeIsUndone(m: Assets, o: int, total: real)
    ensures Credit(Credit(m, o, -total, total), o, total, -total) == Credit(m, o, 0.0, 0.0)
  {}

  // Taking changes back in the order they were made leaves only the records they created.
  lemma CreditsAreUndone(m: Assets, o: int, f: real, z: real, o2: int, f2: real, z2: real)
    ensures Credit(Credit(m, o, f, z), o, -f, -z) == Credit(m, o, 0.0, 0.0)
    ensures var changed := Credit(Credit(m, o, f, z), o2, f2, z2);
            Credit(Credit(changed, o, -f, -z), o2, -f2, -z2) == Credit(Credit(m, o, 0.0, 0.0), o2, 0.0, 0.0)
  {}

  /** An operation whose write failed leaves every balance, ticket number and log line as it was. The one thing it
      does not undo is the reason ID, which is stored before the change is applied. */
  lemma FailureIsUndone(b: Bank, coin: string, e: Event, owner: int, symbol: seq<string>)
    requires Handle(b, coin, e).status == Err(WriteFailed)
    ensures var b' := Handle(b, coin, e).bank;
            && Get(b'.assets, owner) == Get(b.assets, owner)
            && TicketID(b'.ticketIDs, symbol) == TicketID(b.ticketIDs, symbol)
            && b'.logID == b.logID && b'.log == b.log && b'.latestMsgSeq == b.latestMsgSeq && b'.acks == b.acks
            && b'.omeReasonIDs == (if e.Change? then b.omeReasonIDs[e.change.reasonTable := e.change.reasonID]
                                   else b.omeReasonIDs)
  {}

  // ---- order requests ----

  /** The stream sequences that created a ticket, in log order. */
  function Sequences(log: seq<BankLine>): seq<int> {
    if log == [] then []
    else Sequences(log[..|log| - 1]) + (if Matching.Last(log).tickets == [] then [] else [Matching.Last(log).msgSeq])
  }

  function TicketsOf(log: seq<BankLine>, symbol: seq<string>): seq<TicketLog> {
    if log == [] then []
    else
      var l := Matching.Last(log);
      TicketsOf(log[..|log| - 1], symbol) +
      (if |l.tickets| == 1 && l.tickets[0].symbol == symbol then l.tickets else [])
  }

  /** The tickets in a log, whatever their symbol. */
  function AllTickets(log: seq<BankLine>): seq<TicketLog> {
    if log == [] then [] else AllTickets(log[..|log| - 1]) + Matching.Last(log).tickets
  }

  ghost predicate LogIsNumbered(b: Bank) {
    b.logID == |b.log| && forall i :: 0 <= i < |b.log| ==> b.log[i].logID == i + 1
  }

  /** The sequence of the last request in a log. */
  function LastSequence(log: seq<BankLine>): int {
    if Sequences(log) == [] then 0 else Matching.Last(Sequences(log))
  }

  ghost predicate SequencesGrow(log: seq<BankLine>) {
    var s := Sequences(log);
    && (forall i :: 0 <= i < |s| ==> 0 < s[i])
    && (forall i, j :: 0 <= i < j < |s| ==> s[i] < s[j])
  }

  ghost predicate AcksAreLogged(b: Bank) {
    forall i :: 0 <= i < |b.acks| ==> b.acks[i] <= LastSequence(b.log)
  }

  ghost predicate TicketsAreNumbered(b: Bank, symbol: seq<string>) {
    var ts := TicketsOf(b.log, symbol);
    |ts| == TicketID(b.ticketIDs, symbol) && forall i :: 0 <= i < |ts| ==> ts[i].id == i + 1
  }

  /** Logged sequences strictly increase, the last one is the last one taken, everything acknowledged is at or below
      it, and log and ticket numbers have no gaps. */
  ghost predicate Orderly(b: Bank) {
    RequestsAreInOrder(b) && AcksAreLogged(b) && forall symbol :: TicketsAreNumbered(b, symbol)
  }

  ghost predicate RequestsAreInOrder(b: Bank) {
    LogIsNumbered(b) && SequencesGrow(b.log) && b.latestMsgSeq == LastSequence(b.log)
  }

  const FRESH := Bank(map[], map[], map[], 0, 0, [], [])

  /** A bank that has loaded the balances of its users and has not logged anything yet. */
  function Opened(assets: Assets): Bank {
    FRESH.(assets := assets)
  }

  lemma LogGrows(log: seq<BankLine>, l: BankLine, symbol: seq<string>)
    ensures Sequences(log + [l]) == Sequences(log) + (if l.tickets == [] then [] else [l.msgSeq])
    ensures TicketsOf(log + [l], symbol) ==
            TicketsOf(log, symbol) + (if |l.tickets| == 1 && l.tickets[0].symbol == symbol then l.tickets else [])
    ensures AllTickets(log + [l]) == AllTickets(log) + l.tickets
  {
    assert (log + [l])[..|log|] == log;
  }

  // One more line: either it makes no ticket, or it makes the next ticket of its symbol.
  ghost predicate Extends(b: Bank, b': Bank, l: BankLine) {
    && b'.log == b.log + [l] && b'.logID == l.logID == b.logID + 1
    && (if l.tickets == [] then b'.ticketIDs == b.ticketIDs && b'.latestMsgSeq == b.latestMsgSeq
        else
          && |l.tickets| == 1 && l.tickets[0].id == TicketID(b.ticketIDs, l.tickets[0].symbol) + 1
          && b'.ticketIDs == b.ticketIDs[l.tickets[0].symbol := l.tickets[0].id]
          && b'.latestMsgSeq == l.msgSeq > b.latestMsgSeq)
  }

  lemma HandleExtends(b: Bank, coin: string, e: Event)
    requires Handle(b, coin, e).status == Ok
    ensures var b' := Handle(b, coin, e).bank;
            || b' == b.(acks := b'.acks)
            || (b'.log != [] && Extends(b, b', Matching.Last(b'.log)))
    ensures var b' := Handle(b, coin, e).bank;
            b'.acks == b.acks || (b'.acks == b.acks + [e.msgSeq] && e.msgSeq <= b'.latestMsgSeq)
  {}

  lemma LogStaysNumbered(b: Bank, b': Bank, l: BankLine)
    requires Extends(b, b', l) && LogIsNumbered(b)
    ensures LogIsNumbered(b')
  {}

  lemma TicketsStayNumbered(b: Bank, b': Bank, l: BankLine, symbol: seq<string>)
    requires Extends(b, b', l) && TicketsAreNumbered(b, symbol)
    ensures TicketsAreNumbered(b', symbol)
  {
    LogGrows(b.log, l, symbol);
    if l.tickets != [] && l.tickets[0].symbol == symbol {
      assert TicketsOf(b'.log, symbol) == TicketsOf(b.log, symbol) + [l.tickets[0]];
    } else {
      assert TicketsOf(b'.log, symbol) == TicketsOf(b.log, symbol);
    }
  }

  lemma RequestsStayInOrder(b: Bank, b': Bank, l: BankLine)
    requires Extends(b, b', l) && RequestsAreInOrder(b)
    ensures RequestsAreInOrder(b') && LastSequence(b'.log) >= LastSequence(b.log)
  {
    LogGrows(b.log, l, []);
    LogStaysNumbered(b, b', l);
  }

  lemma AcksStayLogged(b: Bank, b': Bank)
    requires AcksAreLogged(b) && LastSequence(b'.log) >= LastSequence(b.log)
    requires b'.acks != b.acks ==> |b'.acks| == |b.acks| + 1 && b'.acks[..|b.acks|] == b.acks
                                   && b'.acks[|b.acks|] <= LastSequence(b'.log)
    ensures AcksAreLogged(b')
  {
    forall i | 0 <= i < |b'.acks| ensures b'.acks[i] <= LastSequence(b'.log) {
      if i < |b.acks| { assert b'.acks[..|b.acks|][i] == b'.acks[i]; }
    }
  }

  lemma NumbersStayInOrder(b: Bank, b': Bank, l: BankLine)
    requires Extends(b, b', l)
    ensures forall symbol :: TicketsAreNumbered(b, symbol) ==> TicketsAreNumbered(b', symbol)
  {
    forall symbol | TicketsAreNumbered(b, symbol) ensures TicketsAreNumbered(b', symbol) {
      TicketsStayNumbered(b, b', l, symbol);
    }
  }

  lemma AcksKeepOrder(b: Bank, acks: seq<int>)
    requires RequestsAreInOrder(b)
    ensures RequestsAreInOrder(b.(acks := acks))
    ensures forall symbol :: TicketsAreNumbered(b, symbol) ==> TicketsAreNumbered(b.(acks := acks), symbol)
  {}

  lemma HandleKeepsOrder(b: Bank, coin: string, e: Event)
    requires RequestsAreInOrder(b) && Handle(b, coin, e).status == Ok
    ensures var b' := Handle(b, coin, e).bank;
            && RequestsAreInOrder(b') && LastSequence(b'.log) >= LastSequence(b.log)
            && forall symbol :: TicketsAreNumbered(b, symbol) ==> TicketsAreNumbered(b', symbol)
  {
    var b' := Handle(b, coin, e).bank;
    HandleExtends(b, coin, e);
    if b' == b.(acks := b'.acks) {
      AcksKeepOrder(b, b'.acks);
    } else {
      RequestsStayInOrder(b, b', Matching.Last(b'.log));
      NumbersStayInOrder(b, b', Matching.Last(b'.log));
    }
  }

  lemma HandleIsOrderly(b: Bank, coin: string, e: Event)
    requires Orderly(b) && Handle(b, coin, e).status == Ok
    ensures Orderly(Handle(b, coin, e).bank)
  {
    HandleExtends(b, coin, e);
    HandleKeepsOrder(b, coin, e);
    AcksStayLogged(b, Handle(b, coin, e).bank);
  }

  /** An orderly bank stays orderly: it takes no sequence twice, whatever is delivered to it again. */
  lemma {:induction false} LifeIsOrderly(b: Bank, coin: string, events: seq<Event>)
    requires Orderly(b) && Life(b, coin, events).status == Ok
    ensures Orderly(Life(b, coin, events).bank)
  {
    if events != [] {
      LifeIsOrderly(b, coin, events[..|events| - 1]);
      HandleIsOrderly(Life(b, coin, events[..|events| - 1]).bank, coin, Matching.Last(events));
    }
  }

  /** Requests take effect at most once under any re-delivery: no sequence makes two tickets, no number is skipped,
      and everything acknowledged so far is covered by the last sequence in the log. */
  lemma RequestsTakeEffectOnce(assets: Assets, coin: string, events: seq<Event>)
    requires Life(Opened(assets), coin, events).status == Ok
    ensures Orderly(Life(Opened(assets), coin, events).bank)
  {
    LifeIsOrderly(Opened(assets), coin, events);
  }

  lemma FailureKeepsTheLog(b: Bank, coin: string, e: Event)
    requires Handle(b, coin, e).status != Ok
    ensures Handle(b, coin, e).bank.log == b.log
  {}

  /** The one acknowledgement beyond the log: a request for another coin is acknowledged, makes no ticket, and
      stops the process all the same. */
  lemma OnlySafeSkipsAckAhead(b: Bank, coin: string, e: Event)
    requires Orderly(b)
    ensures var Outcome(b', s) := Handle(b, coin, e);
            !AcksAreLogged(b') <==> s == Err(SafeSkip) && e.Order? && e.msgSeq > LastSequence(b.log)
  {
    var Outcome(b', s) := Handle(b, coin, e);
    if s == Ok {
      HandleIsOrderly(b, coin, e);
    } else {
      FailureKeepsTheLog(b, coin, e);
      if s == Err(SafeSkip) { assert b'.acks[|b.acks|] == e.msgSeq; }
    }
  }
}
