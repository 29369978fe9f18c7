/** The bank as it runs: one mutable record per user, shared when the two owners of a change are one. */
module BankWorker {
  import opened Ledger
  import B = BankTables
  import Matching

  class UserAsset {
    var free: real
    var freeze: real

    constructor (free: real, freeze: real)
      ensures this.free == free && this.freeze == freeze
    {
      this.free, this.freeze := free, freeze;
    }
  }

  class Worker {
    const coin: string
    ghost var records: set<UserAsset>
    var assets: map<int, UserAsset>
    var ticketIDs: map<seq<string>, int>
    var omeReasonIDs: map<ReasonTable, int>
    var latestMsgSeq: int
    var logID: int
    var log: seq<BankLine>
    var acks: seq<int>

    constructor (coin: string)
      ensures Valid() && this.coin == coin && State() == FRESH && records == {}
    {
      this.coin := coin;
      records := {};
      assets, ticketIDs, omeReasonIDs := map[], map[], map[];
      latestMsgSeq, logID, log, acks := 0, 0, [], [];
    }

    // Every user has a record of their own.
    ghost predicate Valid()
      reads this`assets, this`records
    {
      && (forall o :: o in assets ==> assets[o] in records)
      && (forall a, b :: a in assets && b in assets && a != b ==> assets[a] != assets[b])
    }

    // Users keep their records; records are added for new users only.
    twostate predicate Grew()
      reads this`assets, this`records
    {
      && (forall o :: o in old(assets) ==> o in assets && assets[o] == old(assets)[o])
      && fresh(records - old(records))
    }

    ghost function Balances(): Assets
      requires Valid()
      reads this`assets, this`records, records
    {
      map o | o in assets :: Balance(assets[o].free, assets[o].freeze)
    }

    ghost function State(): Bank
      requires Valid()
      reads this, records
    {
      Bank(Balances(), ticketIDs, omeReasonIDs, latestMsgSeq, logID, log, acks)
    }

    /** A new process over an old log file, whose last line gave it its log ID, loads the rest from the tables: the
        balances, in the order of the query, the newest key of its ticket table and the last stream sequence. The answer
        to the query for a symbol's newest ticket is empty when there is none. */
    method LoadAllAssets(db: B.BankTables, owners: seq<int>, newest: map<seq<string>, int>, symbols: seq<seq<string>>)
      requires Valid() && |symbols| == 1 && assets == map[] && ticketIDs == map[] && omeReasonIDs == map[] && acks == []
      requires logID == (if log == [] then 0 else Matching.Last(log).logID)
      requires forall o :: o in owners ==> o in db.balances
      requires forall o :: o in db.balances ==> o in owners
      modifies this
      ensures Valid() && State() == B.Reload(db, symbols[0], TicketID(newest, symbols[0]), log)
      ensures log == old(log)
    {
      LoadBalances(db.balances, owners);
      LoadTicketIDs(newest, symbols);
      latestMsgSeq := db.msgSeq;
      assert Balances() == db.balances;
    }

    method LoadBalances(rows: Assets, owners: seq<int>)
      requires Valid() && assets == map[]
      requires forall o :: o in owners ==> o in rows
      requires forall o :: o in rows ==> o in owners
      modifies this`assets, this`records
      ensures Valid() && Balances() == rows
    {
      var i := 0;
      while i < |owners|
        invariant 0 <= i <= |owners| && Valid()
        invariant forall o :: o in assets <==> o in owners[..i]
        invariant forall o :: o in assets ==> o in rows && Balance(assets[o].free, assets[o].freeze) == rows[o]
      {
        var o := owners[i];
        assert o in owners && o in rows;
        var bal := rows[o];
        var ua := new UserAsset(bal.free, bal.freeze);
        records := records + {ua};
        assets := assets[o := ua];
        i := i + 1;
      }
      assert owners[..i] == owners;
      forall o ensures o in assets <==> o in rows {
        if o in rows { assert o in owners; }
      }
      assert forall o :: o in Balances() ==> Balances()[o] == rows[o];
    }

    // What the query found last stays in the variable when a table is empty; a bank is configured with one symbol.
    method LoadTicketIDs(newest: map<seq<string>, int>, symbols: seq<seq<string>>)
      requires |symbols| == 1 && ticketIDs == map[]
      modifies this`ticketIDs
      ensures ticketIDs == map[symbols[0] := TicketID(newest, symbols[0])]
    {
      var lastTicket := 0;
      var k := 0;
      while k < |symbols|
        invariant 0 <= k <= 1 && (k == 0 ==> lastTicket == 0 && ticketIDs == map[])
        invariant k == 1 ==> ticketIDs == map[symbols[0] := TicketID(newest, symbols[0])]
      {
        if symbols[k] in newest { lastTicket := newest[symbols[k]]; }
        ticketIDs := ticketIDs[symbols[k] := lastTicket];
        k := k + 1;
      }
    }

    /** A user's record; a zero one is created for a user not seen before. */
    method CheckoutAsset(owner: int) returns (ua: UserAsset)
      requires Valid()
      modifies this`assets, this`records
      ensures Valid() && Grew() && owner in assets && assets[owner] == ua
      ensures Balances() == Credit(old(Balances()), owner, 0.0, 0.0)
    {
      if owner in assets {
        ua := assets[owner];
      } else {
        ua := new UserAsset(0.0, 0.0);
        assets, records := assets[owner := ua], records + {ua};
      }
    }

    method Add(owner: int, ua: UserAsset, free: real, freeze: real)
      requires Valid() && owner in assets && assets[owner] == ua
      modifies ua
      ensures Balances() == Credit(old(Balances()), owner, free, freeze)
    {
      assert forall o :: o in assets && o != owner ==> assets[o] != ua;
      ua.free := ua.free + free;
      ua.freeze := ua.freeze + freeze;
      assert forall o :: o in assets && o != owner ==> Balances()[o] == old(Balances())[o];
    }

    method Change(owner: int, free: real, freeze: real) returns (ua: UserAsset)
      requires Valid()
      modifies this`assets, this`records, records
      ensures Valid() && Grew() && owner in assets && assets[owner] == ua
      ensures Balances() == Credit(old(Balances()), owner, free, freeze)
    {
      TouchThenCredit(Balances(), owner, free, freeze, owner, 0.0, 0.0);
      ua := CheckoutAsset(owner);
      Add(owner, ua, free, freeze);
    }

    /** Both records are fetched before either is updated; they may be the same one. */
    method ChangeBoth(c: BalanceChange) returns (ua1: UserAsset, ua2: UserAsset)
      requires Valid()
      modifies this`assets, this`records, records
      ensures Valid() && Grew() && c.owner in assets && c.owner2 in assets
      ensures assets[c.owner] == ua1 && assets[c.owner2] == ua2
      ensures Balances() == Credit(Credit(old(Balances()), c.owner, c.freeChange, c.freezeChange),
                                   c.owner2, c.freeChange2, c.freezeChange2)
    {
      TouchThenCredit(Balances(), c.owner, c.freeChange, c.freezeChange, c.owner2, c.freeChange2, c.freezeChange2);
      ua1 := CheckoutAsset(c.owner);
      ua2 := CheckoutAsset(c.owner2);
      Add(c.owner, ua1, c.freeChange, c.freezeChange);
      Add(c.owner2, ua2, c.freeChange2, c.freezeChange2);
    }

    method TakeBack(c: BalanceChange, ua1: UserAsset, ua2: UserAsset)
      requires Valid() && c.owner in assets && c.owner2 in assets
      requires assets[c.owner] == ua1 && assets[c.owner2] == ua2
      modifies this`logID, ua1, ua2
      ensures logID == old(logID) - 1
      ensures State() == old(State()).(
                assets := Credit(Credit(old(Balances()), c.owner, -c.freeChange, -c.freezeChange),
                                 c.owner2, -c.freeChange2, -c.freezeChange2), logID := logID)
    {
      logID := logID - 1;
      Add(c.owner, ua1, -c.freeChange, -c.freezeChange);
      Add(c.owner2, ua2, -c.freeChange2, -c.freezeChange2);
    }

    method CreateOrder(msgSeq: int, r: OrderReq, diskOk: bool) returns (s: Status)
      requires Valid()
      modifies this, records
      ensures Valid() && Grew()
      ensures Outcome(State(), s) == Ledger.CreateOrder(old(State()), coin, msgSeq, r, diskOk)
    {
      if |r.symbol| != 2 { return Err(InvalidSymbol); }
      var base, quote := r.symbol[0], r.symbol[1];
      var wanted, value := quote, r.amount;
      if r.side == Matching.ASK {
        wanted, value := base, r.quantity;
      } else if r.side != Matching.BID {
        return Err(InvalidOrderSide);
      }
      if wanted != coin { return Err(SafeSkip); }
      var fee := value * r.feeLevel;
      assert value + fee == Total(r);
      s := Freeze(msgSeq, r, value + fee, diskOk);
    }

    /** The accepting half of CreateOrder: freeze the total, number the ticket, log both or take both back. */
    method Freeze(msgSeq: int, r: OrderReq, total: real, diskOk: bool) returns (s: Status)
      requires Valid()
      modifies this, records
      ensures Valid() && Grew()
      ensures Outcome(State(), s) == Ledger.Freeze(old(State()), msgSeq, r, total, diskOk)
    {
      FreezeIsUndone(Balances(), r.owner, total);
      UpdatedTwice(ticketIDs, r.symbol, TicketID(ticketIDs, r.symbol) + 1, TicketID(ticketIDs, r.symbol));
      var ua := Reserve(r, total);
      if diskOk {
        Record(msgSeq, r, total, ua);
        s := Ok;
      } else {
        Release(r, total, ua);
        s := Err(WriteFailed);
      }
    }

    method Reserve(r: OrderReq, total: real) returns (ua: UserAsset)
      requires Valid()
      modifies this, records
      ensures Valid() && Grew() && r.owner in assets && assets[r.owner] == ua
      ensures State() == old(State()).(
                assets := Credit(old(Balances()), r.owner, -total, total), logID := old(logID) + 1,
                ticketIDs := old(ticketIDs)[r.symbol := TicketID(old(ticketIDs), r.symbol) + 1])
    {
      ua := Change(r.owner, -total, total);
      logID := logID + 1;
      ticketIDs := ticketIDs[r.symbol := TicketID(ticketIDs, r.symbol) + 1];
    }

    method Record(msgSeq: int, r: OrderReq, total: real, ua: UserAsset)
      requires Valid() && r.owner in assets && assets[r.owner] == ua
      modifies this`log, this`latestMsgSeq
      ensures State() == old(State()).(latestMsgSeq := msgSeq,
                log := old(log) + [BankLine(logID, msgSeq, [TicketFor(r, TicketID(ticketIDs, r.symbol))],
                                            [OrderLeg(Balances(), r.owner, total)])])
    {
      log := log + [BankLine(logID, msgSeq, [TicketFor(r, TicketID(ticketIDs, r.symbol))],
                             [Leg(r.owner, Minus(total), total, ua.free, ua.freeze)])];
      latestMsgSeq := msgSeq;
    }

    method Release(r: OrderReq, total: real, ua: UserAsset)
      requires Valid() && r.owner in assets && assets[r.owner] == ua
      modifies this`logID, this`ticketIDs, ua
      ensures State() == old(State()).(assets := Credit(old(Balances()), r.owner, total, -total), logID := logID,
                                       ticketIDs := old(ticketIDs)[r.symbol := TicketID(old(ticketIDs), r.symbol) - 1])
      ensures logID == old(logID) - 1
    {
      Add(r.owner, ua, total, -total);
      logID := logID - 1;
      ticketIDs := ticketIDs[r.symbol := TicketID(ticketIDs, r.symbol) - 1];
    }

    method OrderMatched(c: BalanceChange, diskOk: bool) returns (s: Status)
      requires Valid()
      modifies this, records
      ensures Valid() && Grew()
      ensures Outcome(State(), s) == Settle(old(State()), c, diskOk)
    {
      CreditsAreUndone(Balances(), c.owner, c.freeChange, c.freezeChange, c.owner2, c.freeChange2, c.freezeChange2);
      var ua1, ua2 := Apply(c);
      if diskOk {
        WriteMatch(c, ua1, ua2);
        s := Ok;
      } else {
        TakeBack(c, ua1, ua2);
        s := Err(WriteFailed);
      }
    }

    method Apply(c: BalanceChange) returns (ua1: UserAsset, ua2: UserAsset)
      requires Valid()
      modifies this`assets, this`records, this`logID, records
      ensures Valid() && Grew() && c.owner in assets && c.owner2 in assets
      ensures assets[c.owner] == ua1 && assets[c.owner2] == ua2
      ensures State() == old(State()).(
                assets := Credit(Credit(old(Balances()), c.owner, c.freeChange, c.freezeChange),
                                 c.owner2, c.freeChange2, c.freezeChange2), logID := old(logID) + 1)
    {
      ua1, ua2 := ChangeBoth(c);
      logID := logID + 1;
    }

    method WriteMatch(c: BalanceChange, ua1: UserAsset, ua2: UserAsset)
      requires Valid() && c.owner in assets && c.owner2 in assets
      requires assets[c.owner] == ua1 && assets[c.owner2] == ua2
      modifies this`log
      ensures State() == old(State()).(
                log := old(log) + [BankLine(logID, 0, [],
                                            [LegFor(Balances(), c.owner, c.freeChange, c.freezeChange),
                                             LegFor(Balances(), c.owner2, c.freeChange2, c.freezeChange2)])])
    {
      log := log + [BankLine(logID, 0, [],
                             [Leg(c.owner, c.freeChange, c.freezeChange, ua1.free, ua1.freeze),
                              Leg(c.owner2, c.freeChange2, c.freezeChange2, ua2.free, ua2.freeze)])];
    }

    method BalanceChanged(c: BalanceChange, diskOk: bool) returns (s: Status)
      requires Valid()
      modifies this, records
      ensures Valid() && Grew()
      ensures Outcome(State(), s) == Ledger.BalanceChanged(old(State()), c, diskOk)
    {
      if c.owner2 <= 0 {
        var ua := Change(c.owner, c.freeChange, c.freezeChange);
        logID := logID + 1;
        return Err(NilRecord);
      }
      s := OrderMatched(c, diskOk);
    }

    method DirectChange(owner: int, free: real, freeze: real, diskOk: bool) returns (s: Status)
      requires Valid()
      modifies this, records
      ensures Valid() && Grew()
      ensures Outcome(State(), s) == Ledger.DirectChange(old(State()), owner, free, freeze, diskOk)
    {
      CreditsAreUndone(Balances(), owner, free, freeze, owner, 0.0, 0.0);
      var ua := Begin(owner, free, freeze);
      if diskOk {
        WriteLeg(owner, free, freeze, ua);
        s := Ok;
      } else {
        Undo(owner, free, freeze, ua);
        s := Err(WriteFailed);
      }
    }

    method Begin(owner: int, free: real, freeze: real) returns (ua: UserAsset)
      requires Valid()
      modifies this`assets, this`records, this`logID, records
      ensures Valid() && Grew() && owner in assets && assets[owner] == ua
      ensures State() == old(State()).(assets := Credit(old(Balances()), owner, free, freeze), logID := old(logID) + 1)
    {
      ua := Change(owner, free, freeze);
      logID := logID + 1;
    }

    method WriteLeg(owner: int, free: real, freeze: real, ua: UserAsset)
      requires Valid() && owner in assets && assets[owner] == ua
      modifies this`log
      ensures State() == old(State()).(
                log := old(log) + [BankLine(logID, 0, [], [LegFor(Balances(), owner, free, freeze)])])
    {
      log := log + [BankLine(logID, 0, [], [Leg(owner, free, freeze, ua.free, ua.freeze)])];
    }

    method Undo(owner: int, free: real, freeze: real, ua: UserAsset)
      requires Valid() && owner in assets && assets[owner] == ua
      modifies this`logID, ua
      ensures logID == old(logID) - 1
      ensures State() == old(State()).(assets := Credit(old(Balances()), owner, -free, -freeze), logID := logID)
    {
      Add(owner, ua, -free, -freeze);
      logID := logID - 1;
    }

    method HandleOrderReq(msgSeq: int, r: OrderReq, diskOk: bool) returns (s: Status)
      requires Valid()
      modifies this, records
      ensures Valid() && Grew()
      ensures Outcome(State(), s) == Ledger.HandleOrderReq(old(State()), coin, msgSeq, r, diskOk)
    {
      if msgSeq <= latestMsgSeq {
        acks := acks + [msgSeq];
        return Ok;
      }
      s := CreateOrder(msgSeq, r, diskOk);
      if s == Ok || s == Err(SafeSkip) { acks := acks + [msgSeq]; }
    }

    /** The reason ID is stored before the change is applied. */
    method HandleBalanceChange(c: BalanceChange, diskOk: bool) returns (s: Status)
      requires Valid()
      modifies this, records
      ensures Valid() && Grew()
      ensures Outcome(State(), s) == Ledger.HandleBalanceChange(old(State()), c, diskOk)
    {
      omeReasonIDs := omeReasonIDs[c.reasonTable := c.reasonID];
      s := BalanceChanged(c, diskOk);
    }

    /** The main loop: one message after another, until one fails. */
    method HandleBankMsgs(events: seq<Event>) returns (s: Status)
      requires Valid()
      modifies this, records
      ensures Valid() && Grew()
      ensures Outcome(State(), s) == Life(old(State()), coin, events)
    {
      s := Ok;
      var i := 0;
      assert events[..0] == [];
      while i < |events|
        invariant 0 <= i <= |events|
        invariant Valid() && Grew()
        invariant s == Ok && Outcome(State(), s) == Life(old(State()), coin, events[..i])
      {
        assert events[..i + 1][..i] == events[..i] && Matching.Last(events[..i + 1]) == events[i];
        match events[i] {
          case Order(msgSeq, req, diskOk) => s := HandleOrderReq(msgSeq, req, diskOk);
          case Change(change, diskOk) => s := HandleBalanceChange(change, diskOk);
          case Direct(owner, free, freeze, diskOk) => s := DirectChange(owner, free, freeze, diskOk);
        }
        i := i + 1;
        if s != Ok {
          LifeStops(old(State()), coin, events, i);
          return;
        }
      }
      assert events[..i] == events;
    }
  }

  lemma UpdatedTwice(ids: map<seq<string>, int>, symbol: seq<string>, a: int, b: int)
    ensures ids[symbol := a][symbol := b] == ids[symbol := b]
  {}

  lemma {:induction false} LifeStops(b: Bank, coin: string, events: seq<Event>, n: nat)
    requires n <= |events| && Life(b, coin, events[..n]).status != Ok
    ensures Life(b, coin, events) == Life(b, coin, events[..n])
    decreases |events| - n
  {
    if n == |events| {
      assert events[..n] == events;
    } else {
      assert events[..n + 1][..n] == events[..n];
      LifeStops(b, coin, events, n + 1);
    }
  }
}
