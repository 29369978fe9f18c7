/** What a bank finds in its tables: the ledger the last one had in memory, as far as the columns hold it. */
module BankRecovery {
  import opened Columns
  import opened Ledger
  import opened BankTables
  import opened BankWriter
  import opened BankLives
  import opened Matching
  import Streams

  lemma {:induction false} BalancesAreRecorded(start: BankTables, log: seq<BankLine>)
    ensures WriteLines(start, log).balances == Updated(start.balances, Recorded(log))
  {
    if log == [] {
      assert Updated(start.balances, map[]) == start.balances;
    } else {
      BalancesAreRecorded(start, log[..|log| - 1]);
      UpdatesMerge(start.balances, Recorded(log[..|log| - 1]), News(Last(log)));
    }
  }

  // ---- points of a life ----

  /** The bank after the first `k` events of a life. */
  function After(first: Bank, coin: string, life: seq<Ledger.Event>, k: nat): Bank
    requires k <= |life|
  {
    Life(first, coin, life[..k]).bank
  }

  lemma {:induction false} PrefixesAreOk(b: Bank, coin: string, life: seq<Ledger.Event>, k: nat)
    requires Life(b, coin, life).status == Ok && k <= |life|
    ensures Life(b, coin, life[..k]).status == Ok && Life(b, coin, life[..k]).bank.log <= Life(b, coin, life).bank.log
    decreases |life|
  {
    if k == |life| {
      assert life[..k] == life;
    } else {
      PrefixesAreOk(b, coin, life[..|life| - 1], k);
      assert life[..|life| - 1][..k] == life[..k];
      HandleRecords(Life(b, coin, life[..|life| - 1]).bank, coin, Last(life));
    }
  }

  /** The log had this many lines at some point of the life. */
  lemma {:induction false} PointOfALine(first: Bank, coin: string, life: seq<Ledger.Event>, n: nat) returns (k: nat)
    requires Life(first, coin, life).status == Ok && |first.log| <= n <= |Life(first, coin, life).bank.log|
    ensures k <= |life| && |After(first, coin, life, k).log| == n
    decreases |life|
  {
    if n == |Life(first, coin, life).bank.log| {
      k := |life|;
      assert life[..k] == life;
    } else {
      var before := life[..|life| - 1];
      HandleRecords(Life(first, coin, before).bank, coin, Last(life));
      k := PointOfALine(first, coin, before, n);
      assert before[..k] == life[..k];
    }
  }

  // ---- rows ----

  lemma StoredTwice(x: real)
    ensures Stored(Stored(x)) == Stored(x)
  {
    ColumnKeepsFineNumbers(x);
    ColumnKeepsFineNumbers(Stored(x));
  }

  // A row holds what its columns keep of what was last recorded of its owner.
  lemma RowsAreRecorded(db: BankTables, lines: seq<BankLine>, owner: int)
    requires owner in db.balances
    ensures var rows := Held(WriteLines(db, lines)).balances;
            && owner in rows
            && rows[owner] == HeldBalance(Get(Held(db).balances + Recorded(lines), owner))
  {
    BalancesAreRecorded(db, lines);
    StoredTwice(db.balances[owner].free);
    StoredTwice(db.balances[owner].freeze);
  }

  lemma OwnersStay(start: BankTables, log: seq<BankLine>, owner: int)
    ensures owner in start.balances <==> owner in WriteLines(start, log).balances
  {
    BalancesAreRecorded(start, log);
  }

  lemma {:induction false} SavedStays(start: BankTables, rounds: seq<BankWriter.Event>, more: seq<BankWriter.Event>)
    requires Wellformed(start, Live(Beginning(start), rounds + more).log)
    ensures Wellformed(start, Live(Beginning(start), rounds).log)
    ensures Live(Beginning(start), rounds).db.saved <= Live(Beginning(start), rounds + more).db.saved
  {
    if more == [] {
      assert rounds + more == rounds;
    } else {
      var before, e := rounds + more[..|more| - 1], Last(more);
      assert rounds + more == before + [e] && (before + [e])[..|before|] == before;
      var w := Live(Beginning(start), before);
      LogOnlyGrows(start, w, e);
      SavedStays(start, rounds, more[..|more| - 1]);
      TablesFollowTheLog(start, before);
      TablesFollowTheLog(start, rounds + more);
      StepKeepsTheSaved(start, w, e);
    }
  }

  lemma LogOnlyGrows(start: BankTables, w: BankWriter.World, e: BankWriter.Event)
    requires Wellformed(start, BankWriter.Step(w, e).log)
    ensures Wellformed(start, w.log)
  {
    assert w.log == BankWriter.Step(w, e).log[..|w.log|];
    WellformedPrefix(start, BankWriter.Step(w, e).log, |w.log|);
  }

  lemma StepKeepsTheSaved(start: BankTables, w: BankWriter.World, e: BankWriter.Event)
    requires Faithful(start, w) && Wellformed(start, w.log) && Faithful(start, BankWriter.Step(w, e))
    ensures w.db.saved <= BankWriter.Step(w, e).db.saved
  {
    if e.Write? && e.size > 0 && w.pos + e.size <= |w.log| {
      WriteKeepsFaith(start, w, e.size, e.commits, e.inserted);
    }
  }

  lemma LinesAtAPoint(first: Bank, coin: string, life: seq<Ledger.Event>, k: nat) returns (lines: seq<BankLine>)
    requires Life(first, coin, life).status == Ok && k <= |life|
    ensures var b, n := Life(first, coin, life).bank, |After(first, coin, life, k).log|;
            && n <= |b.log| && b.log[..n] == first.log + lines
            && After(first, coin, life, k).assets == first.assets + Recorded(lines)
  {
    var log := After(first, coin, life, k).log;
    PrefixesAreOk(first, coin, life, k);
    LedgerIsItsLog(first, coin, life[..k]);
    lines := log[|first.log|..];
    assert log == first.log + lines;
  }

  lemma RowAtAPoint(start: BankTables, first: Bank, coin: string, life: seq<Ledger.Event>, k: nat, owner: int)
    requires Life(first, coin, life).status == Ok && k <= |life| && owner in start.balances
    requires first.assets == Held(WriteLines(start, first.log)).balances
    ensures var n, b := |After(first, coin, life, k).log|, Life(first, coin, life).bank;
            && n <= |b.log|
            && var rows := Held(WriteLines(start, b.log[..n])).balances;
               owner in rows && rows[owner] == HeldBalance(Get(After(first, coin, life, k).assets, owner))
  {
    var lines := LinesAtAPoint(first, coin, life, k);
    WriteConcat(start, first.log, lines);
    OwnersStay(start, first.log, owner);
    RowsAreRecorded(WriteLines(start, first.log), lines, owner);
  }

  /** At some point of the life the log had `n` lines, and whenever it had, the row is what was in memory. */
  ghost predicate HoldsPoints(first: Bank, coin: string, life: seq<Ledger.Event>, n: int, owner: int, row: Balance) {
    && (exists k :: 0 <= k <= |life| && |After(first, coin, life, k).log| == n)
    && (forall k :: 0 <= k <= |life| && |After(first, coin, life, k).log| == n ==>
          row == HeldBalance(Get(After(first, coin, life, k).assets, owner)))
  }

  lemma RowsHoldPoints(start: BankTables, first: Bank, coin: string, life: seq<Ledger.Event>, n: nat, owner: int)
    requires Life(first, coin, life).status == Ok && owner in start.balances
    requires |first.log| <= n <= |Life(first, coin, life).bank.log|
    requires first.assets == Held(WriteLines(start, first.log)).balances
    ensures var rows := Held(WriteLines(start, Life(first, coin, life).bank.log[..n])).balances;
            owner in rows && HoldsPoints(first, coin, life, n, owner, rows[owner])
  {
    var point := PointOfALine(first, coin, life, n);
    forall k | 0 <= k <= |life| && |After(first, coin, life, k).log| == n
      ensures var rows := Held(WriteLines(start, Life(first, coin, life).bank.log[..n])).balances;
              owner in rows && rows[owner] == HeldBalance(Get(After(first, coin, life, k).assets, owner))
    {
      RowAtAPoint(start, first, coin, life, k, owner);
    }
  }

  lemma LoadedHoldsTheRows(start: BankTables, symbol: seq<string>, coin: string, eras: seq<Era>)
    requires Blank(start) && Waited(start, symbol, coin, eras)
    ensures var first := Loaded(start, symbol, coin, eras);
            && first.assets == Held(WriteLines(start, first.log)).balances
            && Wellformed(start, first.log) && |first.log| == Written(start, eras).db.saved
  {
    LivesTakeRequestsOnce(start, symbol, coin, eras);
    SavedSoFar(start, Loaded(start, symbol, coin, eras).log, |Loaded(start, symbol, coin, eras).log|);
    var log := Loaded(start, symbol, coin, eras).log;
    assert log[..|log|] == log;
  }

  lemma TablesInALife(start: BankTables, symbol: seq<string>, coin: string, eras: seq<Era>, life: seq<Ledger.Event>,
                      rounds: seq<BankWriter.Event>)
    requires Blank(start) && Waited(start, symbol, coin, eras)
    requires Life(Loaded(start, symbol, coin, eras), coin, life).status == Ok
    requires Live(Beginning(start), Rounds(eras) + rounds).log
             == Life(Loaded(start, symbol, coin, eras), coin, life).bank.log
    ensures var first, w := Loaded(start, symbol, coin, eras), Live(Beginning(start), Rounds(eras) + rounds);
            var b := Life(first, coin, life).bank;
            && InOrder(start, b) && |first.log| <= w.db.saved <= |b.log|
            && w.db == WriteLines(start, b.log[..w.db.saved])
  {
    LivesTakeRequestsOnce(start, symbol, coin, eras);
    LoadedHoldsTheRows(start, symbol, coin, eras);
    var last := LifeStaysInOrder(start, Loaded(start, symbol, coin, eras), coin, life, symbol);
    SavedStays(start, Rounds(eras), rounds);
    TablesFollowTheLog(start, Rounds(eras) + rounds);
  }

  /** In any life of a bank, and whatever the batches, failures and restarts of the writer: the saved log ID is that of
      the last line at some point of this life, and every balance row holds, to the precision of its columns, the
      balance that was in memory then. Once the whole log is saved that is the balance in memory, and the saved stream
      sequence is that of the last request taken. */
  lemma TablesHoldTheLedger(start: BankTables, symbol: seq<string>, coin: string, eras: seq<Era>,
                            life: seq<Ledger.Event>, rounds: seq<BankWriter.Event>, owner: int)
    requires Blank(start) && Waited(start, symbol, coin, eras) && owner in start.balances
    requires Life(Loaded(start, symbol, coin, eras), coin, life).status == Ok
    requires Live(Beginning(start), Rounds(eras) + rounds).log
             == Life(Loaded(start, symbol, coin, eras), coin, life).bank.log
    ensures var first := Loaded(start, symbol, coin, eras);
            var b, db := Life(first, coin, life).bank, Held(Live(Beginning(start), Rounds(eras) + rounds).db);
            && |first.log| <= db.saved <= |b.log| && owner in db.balances
            && HoldsPoints(first, coin, life, db.saved, owner, db.balances[owner])
            && (db.saved == |b.log| ==>
                  db.balances[owner] == HeldBalance(Get(b.assets, owner)) && db.msgSeq == b.latestMsgSeq)
  {
    var first := Loaded(start, symbol, coin, eras);
    var b, db := Life(first, coin, life).bank, Live(Beginning(start), Rounds(eras) + rounds).db;
    LoadedHoldsTheRows(start, symbol, coin, eras);
    TablesInALife(start, symbol, coin, eras, life, rounds);
    RowsHoldPoints(start, first, coin, life, db.saved, owner);
    if db.saved == |b.log| { WholeLogIsHeld(start, first, coin, life, owner, db); }
  }

  lemma WholeLogIsHeld(start: BankTables, first: Bank, coin: string, life: seq<Ledger.Event>, owner: int,
                       db: BankTables)
    requires var b := Life(first, coin, life).bank;
             InOrder(start, b) && db == WriteLines(start, b.log[..|b.log|]) && owner in db.balances
    requires HoldsPoints(first, coin, life, |Life(first, coin, life).bank.log|, owner, Held(db).balances[owner])
    ensures var b := Life(first, coin, life).bank;
            Held(db).balances[owner] == HeldBalance(Get(b.assets, owner)) && db.msgSeq == b.latestMsgSeq
  {
    var b := Life(first, coin, life).bank;
    assert b.log[..|b.log|] == b.log;
    assert life[..|life|] == life && After(first, coin, life, |life|) == b;
  }

  // ---- what rounding costs ----

  predicate FineBalance(b: Balance) {
    Fine(b.free) && Fine(b.freeze)
  }

  /** In any life, a caught-up row is the balance in memory exactly when that balance has at most 18 decimal places. */
  lemma RowIsExactWhenFine(start: BankTables, symbol: seq<string>, coin: string, eras: seq<Era>,
                           life: seq<Ledger.Event>, rounds: seq<BankWriter.Event>, owner: int)
    requires Blank(start) && Waited(start, symbol, coin, eras) && owner in start.balances
    requires Life(Loaded(start, symbol, coin, eras), coin, life).status == Ok
    requires Live(Beginning(start), Rounds(eras) + rounds).log
             == Life(Loaded(start, symbol, coin, eras), coin, life).bank.log
    requires Live(Beginning(start), Rounds(eras) + rounds).db.saved
             == |Live(Beginning(start), Rounds(eras) + rounds).log|
    ensures var first := Loaded(start, symbol, coin, eras);
            var b, db := Life(first, coin, life).bank, Held(Live(Beginning(start), Rounds(eras) + rounds).db);
            && owner in db.balances
            && (db.balances[owner] == Get(b.assets, owner) <==> FineBalance(Get(b.assets, owner)))
  {
    TablesHoldTheLedger(start, symbol, coin, eras, life, rounds, owner);
    HeldIsFine(Get(Life(Loaded(start, symbol, coin, eras), coin, life).bank.assets, owner));
  }

  /** A restart gives a user back the balance the last bank had in memory exactly when the user has a row and the
      balance at most 18 decimal places. A user without a row is left with nothing. */
  lemma RestartKeepsTheBalance(start: BankTables, symbol: seq<string>, coin: string, eras: seq<Era>, owner: int)
    requires Blank(start) && Waited(start, symbol, coin, eras)
    requires eras != [] && Ended(start, symbol, coin, eras).status == Ok
    ensures var balance := Get(Ended(start, symbol, coin, eras).bank.assets, owner);
            Get(Loaded(start, symbol, coin, eras).assets, owner) == balance
            <==> if owner in start.balances then FineBalance(balance) else balance == Balance(0.0, 0.0)
  {
    var before := eras[..|eras| - 1];
    assert Rounds(eras) == Rounds(before) + Last(eras).rounds;
    if owner in start.balances {
      RowIsExactWhenFine(start, symbol, coin, before, Last(eras).life, Last(eras).rounds, owner);
    } else {
      LivesTakeRequestsOnce(start, symbol, coin, eras);
      OwnersStay(start, Loaded(start, symbol, coin, eras).log, owner);
    }
  }

  /** What a bank loads has at most 18 decimal places. */
  lemma LoadedIsFine(start: BankTables, symbol: seq<string>, coin: string, eras: seq<Era>, owner: int)
    ensures FineBalance(Get(Loaded(start, symbol, coin, eras).assets, owner))
  {
    var rows := Written(start, eras).db.balances;
    EngineAmountsAreFine(0);
    if owner in rows {
      ColumnKeepsFineNumbers(rows[owner].free);
      ColumnKeepsFineNumbers(rows[owner].freeze);
    }
  }

  /** Changes and direct changes have at most 18 decimal places, as those of the engine do. */
  predicate FineArguments(e: Ledger.Event) {
    match e
    case Order(_, _, _) => true
    case Change(c, _) => Fine(c.freeChange) && Fine(c.freezeChange) && Fine(c.freeChange2) && Fine(c.freezeChange2)
    case Direct(_, free, freeze, _) => Fine(free) && Fine(freeze)
  }

  lemma EngineChangesAreFine(side: int, l: Line)
    requires l.MatchLine?
    ensures FineArguments(Change(Streams.ChangeFor(side, l), true))
  {
    EngineAmountsAreFine(l.quantity);
    EngineAmountsAreFine(l.amount);
  }

  /** The event is a request of `owner` that the bank has not taken before. */
  predicate Asks(b: Bank, e: Ledger.Event, owner: int) {
    e.Order? && e.req.owner == owner && e.msgSeq > b.latestMsgSeq
  }

  lemma CreditIsFine(m: Assets, o: int, free: real, freeze: real, owner: int)
    requires FineBalance(Get(m, owner)) && Fine(free) && Fine(freeze)
    ensures FineBalance(Get(Credit(m, o, free, freeze), owner))
  {
    FineAdds(Get(m, owner).free, free);
    FineAdds(Get(m, owner).freeze, freeze);
  }

  lemma FreezeIsFine(m: Assets, total: real, owner: int)
    requires FineBalance(Get(m, owner))
    ensures FineBalance(Get(Credit(m, owner, -total, total), owner)) <==> Fine(total)
  {
    FineAdds(Get(m, owner).free, -total);
    FineAdds(Get(m, owner).freeze, total);
    if Fine(total) { FineNegates(total); }
  }

  lemma HandleIsFine(b: Bank, coin: string, e: Ledger.Event, owner: int)
    requires Ledger.Handle(b, coin, e).status == Ok && FineArguments(e) && FineBalance(Get(b.assets, owner))
    ensures FineBalance(Get(Ledger.Handle(b, coin, e).bank.assets, owner))
            <==> (Asks(b, e, owner) ==> Fine(Total(e.req)))
  {
    match e {
      case Order(_, r, _) => FreezeIsFine(b.assets, Total(r), owner);
      case Change(c, _) =>
        CreditIsFine(b.assets, c.owner, c.freeChange, c.freezeChange, owner);
        CreditIsFine(Credit(b.assets, c.owner, c.freeChange, c.freezeChange), c.owner2, c.freeChange2, c.freezeChange2,
                     owner);
      case Direct(o, free, freeze, _) => CreditIsFine(b.assets, o, free, freeze, owner);
    }
  }

  lemma StepIsFine(first: Bank, coin: string, life: seq<Ledger.Event>, k: nat, owner: int)
    requires Life(first, coin, life).status == Ok && k < |life| && FineArguments(life[k])
    requires FineBalance(Get(After(first, coin, life, k).assets, owner))
    ensures FineBalance(Get(After(first, coin, life, k + 1).assets, owner))
            <==> (Asks(After(first, coin, life, k), life[k], owner) ==> Fine(Total(life[k].req)))
  {
    PrefixesAreOk(first, coin, life, k + 1);
    assert life[..k + 1][..k] == life[..k] && Last(life[..k + 1]) == life[k];
    HandleIsFine(After(first, coin, life, k), coin, life[k], owner);
  }

  ghost predicate FineSoFar(first: Bank, coin: string, life: seq<Ledger.Event>, n: nat, owner: int)
    requires n <= |life|
  {
    forall k :: 0 <= k <= n ==> FineBalance(Get(After(first, coin, life, k).assets, owner))
  }

  ghost predicate FineRequests(first: Bank, coin: string, life: seq<Ledger.Event>, n: nat, owner: int)
    requires n <= |life|
  {
    forall k :: 0 <= k < n && Asks(After(first, coin, life, k), life[k], owner) ==> Fine(Total(life[k].req))
  }

  lemma {:induction false} FineUpTo(first: Bank, coin: string, life: seq<Ledger.Event>, n: nat, owner: int)
    requires Life(first, coin, life).status == Ok && FineBalance(Get(first.assets, owner)) && n <= |life|
    requires forall k :: 0 <= k < |life| ==> FineArguments(life[k])
    ensures FineSoFar(first, coin, life, n, owner) <==> FineRequests(first, coin, life, n, owner)
  {
    if n == 0 {
      assert life[..0] == [];
    } else {
      FineUpTo(first, coin, life, n - 1, owner);
      if FineSoFar(first, coin, life, n - 1, owner) { StepIsFine(first, coin, life, n - 1, owner); }
    }
  }

  /** A user's row can lose something in any life of a bank if and only if the user froze a total with more than 18
      decimal places in it: the balance has at most 18 at every point of the life exactly when every total does. */
  lemma RowsStayExact(start: BankTables, symbol: seq<string>, coin: string, eras: seq<Era>, life: seq<Ledger.Event>,
                      owner: int)
    requires Life(Loaded(start, symbol, coin, eras), coin, life).status == Ok
    requires forall k :: 0 <= k < |life| ==> FineArguments(life[k])
    ensures var first := Loaded(start, symbol, coin, eras);
            (forall k :: 0 <= k <= |life| ==>
              var balance := Get(After(first, coin, life, k).assets, owner);
              HeldBalance(balance) == balance)
            <==> FineRequests(first, coin, life, |life|, owner)
  {
    var first := Loaded(start, symbol, coin, eras);
    LoadedIsFine(start, symbol, coin, eras, owner);
    FineUpTo(first, coin, life, |life|, owner);
    forall k | 0 <= k <= |life|
      ensures var balance := Get(After(first, coin, life, k).assets, owner);
              HeldBalance(balance) == balance <==> FineBalance(balance)
    {
      HeldIsFine(Get(After(first, coin, life, k).assets, owner));
    }
  }

  lemma HeldIsFine(b: Balance)
    ensures HeldBalance(b) == b <==> FineBalance(b)
  {
    ColumnKeepsFineNumbers(b.free);
    ColumnKeepsFineNumbers(b.freeze);
  }

  /** A bid whose amount is the smallest number a column holds, with a fee of one hundredth. */
  function SmallBid(symbol: seq<string>, owner: int): OrderReq {
    OrderReq(symbol, owner, BID, 0, 1.0, 0.0, 0.000000000000000001, 0.01)
  }

  /** Such a bid in any life of a bank: the caught-up row of its owner is not the balance in memory. */
  lemma SmallFeesAreLostInTheRow(start: BankTables, symbol: seq<string>, eras: seq<Era>, msgSeq: int, owner: int,
                                 rounds: seq<BankWriter.Event>)
    requires Blank(start) && |symbol| == 2 && owner in start.balances && Waited(start, symbol, symbol[1], eras)
    requires msgSeq > Loaded(start, symbol, symbol[1], eras).latestMsgSeq
    requires var w := Live(Beginning(start), Rounds(eras) + rounds);
             && w.log == Life(Loaded(start, symbol, symbol[1], eras), symbol[1],
                              [Order(msgSeq, SmallBid(symbol, owner), true)]).bank.log
             && w.db.saved == |w.log|
    ensures var b := Life(Loaded(start, symbol, symbol[1], eras), symbol[1],
                          [Order(msgSeq, SmallBid(symbol, owner), true)]).bank;
            var db := Held(Live(Beginning(start), Rounds(eras) + rounds).db);
            owner in db.balances && db.balances[owner] != Get(b.assets, owner)
  {
    var first, r := Loaded(start, symbol, symbol[1], eras), SmallBid(symbol, owner);
    var life := [Order(msgSeq, r, true)];
    assert life[..0] == [];
    SmallFeesAreLost();
    LoadedIsFine(start, symbol, symbol[1], eras, owner);
    FreezeIsFine(first.assets, Total(r), owner);
    RowIsExactWhenFine(start, symbol, symbol[1], eras, life, rounds, owner);
  }
}
