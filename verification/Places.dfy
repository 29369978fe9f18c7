/** Decimal places in the exchange: whose balances a restart can give back in full. */
module Places {
  import opened Columns
  import opened Matching
  import opened Ledger
  import opened Streams
  import opened Exchange
  import opened Settlement
  import opened BankRecovery
  import BankTables

  /** The event is a request of `owner` that the bank of `side` takes. */
  predicate Takes(w: World, e: Exchange.Event, side: int, owner: int) {
    e.On? && e.side == side && e.act.Request? && TakesRequest(At(w, side), w.pair, side, e.act.msgSeq, e.act.req, owner)
  }

  predicate TakesRequest(c: Coin, pair: seq<string>, side: int, msgSeq: int, r: OrderReq, owner: int) {
    && c.status == Ok && HandleOrderReq(c.bank, CoinName(pair, side), msgSeq, r, true).status == Ok
    && Asks(c.bank, Order(msgSeq, r, true), owner)
  }

  function BalanceOf(w: World, side: int, owner: int): Balance {
    Get(At(w, side).bank.assets, owner)
  }

  // What the engine's matches change has few enough places.
  lemma AppliedIsFine(c: Coin, side: int, log: seq<Line>, owner: int)
    requires GenuineChanges(side, log, c.queue) && c.queue != [] && FineBalance(Get(c.bank.assets, owner))
    ensures FineBalance(Get(Changed(c).bank.assets, owner))
  {
    var d := c.queue[0];
    assert d in c.queue;
    var k :| 0 <= k < |log| && log[k].MatchLine? && d == ChangeFor(side, log[k]);
    EngineChangesAreFine(side, log[k]);
    if HandleBalanceChange(c.bank, d, true).status == Ok { HandleIsFine(c.bank, [], Change(d, true), owner); }
  }

  lemma ReloadedIsFine(b: Bank, pair: seq<string>, rows: set<int>, wasted: nat, owner: int)
    ensures FineBalance(Get(Reloaded(b, pair, rows, wasted).assets, owner))
  {
    EngineAmountsAreFine(0);
    ColumnKeepsFineNumbers(Get(b.assets, owner).free);
    ColumnKeepsFineNumbers(Get(b.assets, owner).freeze);
  }

  lemma AskedIsFine(c: Coin, pair: seq<string>, side: int, msgSeq: int, r: OrderReq, owner: int)
    requires c.status == Ok && FineBalance(Get(c.bank.assets, owner))
    ensures FineBalance(Get(Asked(c, CoinName(pair, side), msgSeq, r).bank.assets, owner))
            <==> (TakesRequest(c, pair, side, msgSeq, r, owner) ==> Fine(Total(r)))
  {
    if HandleOrderReq(c.bank, CoinName(pair, side), msgSeq, r, true).status == Ok {
      HandleIsFine(c.bank, CoinName(pair, side), Order(msgSeq, r, true), owner);
    }
  }

  lemma ActIsFine(c: Coin, pair: seq<string>, side: int, latest: int, log: seq<Line>, a: Act, owner: int)
    requires GenuineChanges(side, log, c.queue) && FineBalance(Get(c.bank.assets, owner))
    ensures FineBalance(Get(React(c, pair, side, latest, log, a).bank.assets, owner))
            <==> (a.Request? && TakesRequest(c, pair, side, a.msgSeq, a.req, owner) ==> Fine(Total(a.req)))
  {
    if a.Request? {
      if c.status == Ok { AskedIsFine(c, pair, side, a.msgSeq, a.req, owner); }
    } else if a.Apply? && c.queue != [] {
      AppliedIsFine(c, side, log, owner);
    } else if a.Reload? {
      ReloadedIsFine(c.bank, pair, a.rows, a.wasted, owner);
    }
  }

  lemma StepIsFine(w: World, e: Exchange.Event, side: int, owner: int)
    requires ChangesAreGenuine(w, side) && IsSide(side) && FineBalance(BalanceOf(w, side, owner))
    ensures FineBalance(BalanceOf(Step(w, e), side, owner)) <==> (Takes(w, e, side, owner) ==> Fine(Total(e.act.req)))
  {
    if e.On? && e.side == side {
      ActIsFine(At(w, side), w.pair, side, Latest(w.engine, side), w.log, e.act, owner);
    } else {
      OthersRest(w, e, side);
    }
  }

  /** The balance is fine after the first `k` events. */
  predicate FineAt(o: Opening, events: seq<Exchange.Event>, k: nat, side: int, owner: int)
    requires k <= |events|
  {
    FineBalance(BalanceOf(Runs(Begin(o), events[..k]), side, owner))
  }

  /** If the `k`-th event has the bank take a request of the user, its total is fine. */
  predicate FineTotalAt(o: Opening, events: seq<Exchange.Event>, k: nat, side: int, owner: int)
    requires k < |events|
  {
    Takes(Runs(Begin(o), events[..k]), events[k], side, owner) ==> Fine(Total(events[k].act.req))
  }

  lemma NextIsFine(o: Opening, events: seq<Exchange.Event>, k: nat, side: int, owner: int)
    requires k < |events| && IsSide(side) && FineAt(o, events, k, side, owner)
    ensures FineAt(o, events, k + 1, side, owner) <==> FineTotalAt(o, events, k, side, owner)
  {
    assert events[..k + 1][..k] == events[..k] && Last(events[..k + 1]) == events[k];
    GenuineHolds(o, events[..k], side);
    StepIsFine(Runs(Begin(o), events[..k]), events[k], side, owner);
  }

  lemma BeginsFine(o: Opening, events: seq<Exchange.Event>, side: int, owner: int)
    requires IsSide(side) && FineBalance(Get(Loaded(o, side), owner))
    ensures FineAt(o, events, 0, side, owner)
  {
    assert events[..0] == [];
  }

  lemma {:induction false} FineUpTo(o: Opening, events: seq<Exchange.Event>, n: nat, side: int, owner: int)
    requires n <= |events| && IsSide(side) && FineAt(o, events, 0, side, owner)
    ensures (forall k :: 0 <= k <= n ==> FineAt(o, events, k, side, owner))
            <==> (forall k :: 0 <= k < n ==> FineTotalAt(o, events, k, side, owner))
  {
    if n > 0 {
      FineUpTo(o, events, n - 1, side, owner);
      if FineAt(o, events, n - 1, side, owner) { NextIsFine(o, events, n - 1, side, owner); }
    }
  }

  /** In every run of the exchange, whatever the streams, the engine and the banks go through: a user's balance at a
      bank can be read back in full from its row at every point if and only if every total the user had frozen there
      has at most 18 decimal places. */
  lemma RunsStayExact(o: Opening, events: seq<Exchange.Event>, side: int, owner: int)
    requires IsSide(side) && BankTables.HeldBalance(Get(Loaded(o, side), owner)) == Get(Loaded(o, side), owner)
    ensures (forall k :: 0 <= k <= |events| ==>
              var balance := BalanceOf(Runs(Begin(o), events[..k]), side, owner);
              BankTables.HeldBalance(balance) == balance)
            <==> (forall k :: 0 <= k < |events| ==> FineTotalAt(o, events, k, side, owner))
  {
    HeldIsFine(Get(Loaded(o, side), owner));
    BeginsFine(o, events, side, owner);
    FineUpTo(o, events, |events|, side, owner);
    forall k | 0 <= k <= |events|
      ensures var balance := BalanceOf(Runs(Begin(o), events[..k]), side, owner);
              BankTables.HeldBalance(balance) == balance <==> FineAt(o, events, k, side, owner)
    {
      HeldIsFine(BalanceOf(Runs(Begin(o), events[..k]), side, owner));
    }
  }
}
