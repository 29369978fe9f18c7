/** Bank after bank over one log file: each life loads what the writer has made of the lives before it. */
module BankLives {
  import opened Ledger
  import opened BankTables
  import opened BankWriter
  import opened TicketKeys
  import opened Matching
  import Streams

  /** Tables without a line in them, and balance rows that are numbers their columns can hold. */
  ghost predicate Blank(start: BankTables) {
    && start.snaps == [] && start.tickets == [] && start.saved == start.msgSeq == 0
    && forall o :: o in start.balances ==> HeldBalance(start.balances[o]) == start.balances[o]
  }

  /** One life of a bank, and what its writer does from its beginning until the next bank loads the tables. */
  datatype Era = Era(life: seq<Ledger.Event>, rounds: seq<BankWriter.Event>)

  function Rounds(eras: seq<Era>): seq<BankWriter.Event> {
    if eras == [] then [] else Rounds(eras[..|eras| - 1]) + Last(eras).rounds
  }

  function Written(start: BankTables, eras: seq<Era>): BankWriter.World {
    Live(Beginning(start), Rounds(eras))
  }

  /** How the last life ended, whatever ended it. */
  function Ended(start: BankTables, symbol: seq<string>, coin: string, eras: seq<Era>): Outcome
    requires eras != []
    decreases |eras|, 0
  {
    Life(Loaded(start, symbol, coin, eras[..|eras| - 1]), coin, Last(eras).life)
  }

  /** The bank a new process starts with: balances, the newest ticket key and the stream sequence from the tables, the
      log and its last ID from the file. */
  function Loaded(start: BankTables, symbol: seq<string>, coin: string, eras: seq<Era>): Bank
    decreases |eras|, 1
  {
    Reload(Held(Written(start, eras).db), symbol, Newest(KeysAfter(start, symbol, Rounds(eras))),
           if eras == [] then [] else Ended(start, symbol, coin, eras).bank.log)
  }

  /** Every bank but the first has waited until the tables have caught up with the file. */
  ghost predicate Waited(start: BankTables, symbol: seq<string>, coin: string, eras: seq<Era>) {
    eras == [] ||
    (Waited(start, symbol, coin, eras[..|eras| - 1]) &&
     var w := Written(start, eras);
     w.log == Ended(start, symbol, coin, eras).bank.log && w.db.saved == |w.log|)
  }

  // ---- one life ----

  ghost predicate Ready(start: BankTables, b: Bank) {
    && Wellformed(start, b.log) && b.logID == |b.log| && WriteLines(start, b.log).msgSeq == b.latestMsgSeq
    && forall i :: 0 <= i < |b.log| ==> b.log[i].msgSeq <= b.latestMsgSeq
  }

  lemma LineIsReady(start: BankTables, b: Bank, b': Bank, l: BankLine)
    requires Ready(start, b) && b'.log == b.log + [l] && |l.legs| > 0
    requires l.logID == b.logID + 1 && b'.logID == l.logID
    requires (l.msgSeq == 0 && b'.latestMsgSeq == b.latestMsgSeq)
          || (l.msgSeq == b'.latestMsgSeq > b.latestMsgSeq)
    ensures Ready(start, b')
  {
    assert b'.log[..|b'.log| - 1] == b.log;
  }

  lemma HandleWrites(b: Bank, coin: string, e: Ledger.Event)
    requires Ledger.Handle(b, coin, e).status == Ok
    ensures var b' := Ledger.Handle(b, coin, e).bank;
            || b' == b.(acks := b'.acks)
            || (var l := Last(b'.log);
                && b'.log == b.log + [l] && |l.legs| > 0 && l.logID == b.logID + 1 == b'.logID
                && ((l.msgSeq == 0 && b'.latestMsgSeq == b.latestMsgSeq)
                    || (l.msgSeq == b'.latestMsgSeq > b.latestMsgSeq)))
  {}

  /** Sequences strictly grow, log IDs have no gaps, and the tables are ready for what comes next. */
  ghost predicate InOrder(start: BankTables, b: Bank) {
    Ready(start, b) && RequestsAreInOrder(b) && OneTicketEach(b.log)
  }

  lemma HandleStaysReady(start: BankTables, b: Bank, coin: string, e: Ledger.Event)
    requires Ready(start, b) && OneTicketEach(b.log) && Ledger.Handle(b, coin, e).status == Ok
    ensures Ready(start, Ledger.Handle(b, coin, e).bank) && OneTicketEach(Ledger.Handle(b, coin, e).bank.log)
  {
    var b' := Ledger.Handle(b, coin, e).bank;
    HandleWrites(b, coin, e);
    HandleExtends(b, coin, e);
    if b' != b.(acks := b'.acks) { LineIsReady(start, b, b', Last(b'.log)); }
  }

  lemma HandleStaysInOrder(start: BankTables, b: Bank, coin: string, e: Ledger.Event, symbol: seq<string>)
    requires InOrder(start, b) && Ledger.Handle(b, coin, e).status == Ok
    ensures var b' := Ledger.Handle(b, coin, e).bank;
            InOrder(start, b') && (TicketsAreNumbered(b, symbol) ==> TicketsAreNumbered(b', symbol))
  {
    HandleStaysReady(start, b, coin, e);
    HandleKeepsOrder(b, coin, e);
  }

  // Up to its first error a bank stays in order; the failing operation adds nothing to the log.
  lemma {:induction false} LifeStaysInOrder(start: BankTables, b: Bank, coin: string, life: seq<Ledger.Event>,
                                            symbol: seq<string>) returns (last: Bank)
    requires InOrder(start, b)
    ensures InOrder(start, last) && last.log == Life(b, coin, life).bank.log
    ensures Life(b, coin, life).status == Ok ==> last == Life(b, coin, life).bank
    ensures TicketsAreNumbered(b, symbol) ==> TicketsAreNumbered(last, symbol)
  {
    if life == [] {
      last := b;
    } else {
      last := LifeStaysInOrder(start, b, coin, life[..|life| - 1], symbol);
      if Life(b, coin, life[..|life| - 1]).status == Ok {
        if Life(b, coin, life).status == Ok {
          HandleStaysInOrder(start, last, coin, Last(life), symbol);
          last := Life(b, coin, life).bank;
        } else {
          FailureKeepsTheLog(last, coin, Last(life));
        }
      }
    }
  }

  // ---- from one life to the next ----

  lemma LoadStaysInOrder(start: BankTables, last: Bank, db: BankTables, symbol: seq<string>, newest: int)
    requires InOrder(start, last) && db == WriteLines(start, last.log)
    ensures InOrder(start, Reload(Held(db), symbol, newest, last.log))
  {
    assert last.log != [] ==> Last(last.log).logID == |last.log|;
  }

  lemma CaughtUpTables(start: BankTables, rounds: seq<BankWriter.Event>, log: seq<BankLine>)
    requires Wellformed(start, log)
    requires var w := Live(Beginning(start), rounds); w.log == log && w.db.saved == |w.log|
    ensures Live(Beginning(start), rounds).db == WriteLines(start, log)
  {
    TablesFollowTheLog(start, rounds);
    assert log[..|log|] == log;
  }

  /** At most once over any number of lives, whatever ended each of them: no stream sequence makes two tickets, and log
      IDs go on without a gap. */
  lemma {:induction false} LivesTakeRequestsOnce(start: BankTables, symbol: seq<string>, coin: string, eras: seq<Era>)
    requires Blank(start) && Waited(start, symbol, coin, eras)
    ensures var b := Loaded(start, symbol, coin, eras);
            && InOrder(start, b)
            && Written(start, eras).log == b.log && Written(start, eras).db == WriteLines(start, b.log)
  {
    if eras != [] {
      var first := Loaded(start, symbol, coin, eras[..|eras| - 1]);
      LivesTakeRequestsOnce(start, symbol, coin, eras[..|eras| - 1]);
      var last := LifeStaysInOrder(start, first, coin, Last(eras).life, symbol);
      CaughtUpTables(start, Rounds(eras), last.log);
      LoadStaysInOrder(start, last, Written(start, eras).db, symbol, Newest(KeysAfter(start, symbol, Rounds(eras))));
    }
  }

  // ---- ticket numbers ----

  lemma Regroup(a: seq<BankWriter.Event>, b: seq<BankWriter.Event>)
    requires b != []
    ensures a + b != [] && (a + b)[..|a + b| - 1] == a + b[..|b| - 1]
  {}

  lemma {:induction false} WasteGrows(start: BankTables, symbol: seq<string>, a: seq<BankWriter.Event>,
                                      b: seq<BankWriter.Event>)
    ensures Waste(start, symbol, a) <= Waste(start, symbol, a + b)
  {
    if b == [] {
      assert a + b == a;
    } else {
      WasteGrows(start, symbol, a, b[..|b| - 1]);
      Regroup(a, b);
    }
  }

  // The number loaded is that of the tickets logged and of the keys wasted.
  lemma LoadedNumber(start: BankTables, symbol: seq<string>, coin: string, eras: seq<Era>)
    requires Blank(start) && Waited(start, symbol, coin, eras)
    ensures var b := Loaded(start, symbol, coin, eras);
            TicketID(b.ticketIDs, symbol) == |TicketsOf(b.log, symbol)| + Waste(start, symbol, Rounds(eras))
  {
    LivesTakeRequestsOnce(start, symbol, coin, eras);
    if eras != [] { NewestKeyIsTheCountAndTheWaste(start, symbol, Rounds(eras)); }
  }

  ghost predicate FromOne(log: seq<BankLine>, symbol: seq<string>) {
    forall i :: 0 <= i < |TicketsOf(log, symbol)| ==> TicketsOf(log, symbol)[i].id == i + 1
  }

  lemma LifeNumbers(start: BankTables, b: Bank, coin: string, life: seq<Ledger.Event>, symbol: seq<string>)
    requires InOrder(start, b) && TicketsAreNumbered(b, symbol)
    ensures FromOne(Life(b, coin, life).bank.log, symbol)
  {
    var last := LifeStaysInOrder(start, b, coin, life, symbol);
  }

  lemma GoesOn(b: Bank, symbol: seq<string>, waste: nat)
    requires TicketID(b.ticketIDs, symbol) == |TicketsOf(b.log, symbol)| + waste
    requires waste == 0 ==> FromOne(b.log, symbol)
    ensures TicketsAreNumbered(b, symbol) <==> waste == 0
  {}

  /** After any number of lives a bank goes on with the next ticket number, and has numbered its tickets 1, 2, 3, ... so
      far, if and only if no transaction has failed after inserting tickets. */
  lemma {:induction false} NumbersGoOn(start: BankTables, symbol: seq<string>, coin: string, eras: seq<Era>)
    requires Blank(start) && Waited(start, symbol, coin, eras)
    ensures TicketsAreNumbered(Loaded(start, symbol, coin, eras), symbol) <==> Waste(start, symbol, Rounds(eras)) == 0
  {
    LoadedNumber(start, symbol, coin, eras);
    if Waste(start, symbol, Rounds(eras)) == 0 { NumbersFromOne(start, symbol, coin, eras); }
    GoesOn(Loaded(start, symbol, coin, eras), symbol, Waste(start, symbol, Rounds(eras)));
  }

  lemma {:induction false} NumbersFromOne(start: BankTables, symbol: seq<string>, coin: string, eras: seq<Era>)
    requires Blank(start) && Waited(start, symbol, coin, eras) && Waste(start, symbol, Rounds(eras)) == 0
    ensures FromOne(Loaded(start, symbol, coin, eras).log, symbol)
  {
    if eras != [] {
      var before := eras[..|eras| - 1];
      var first := Loaded(start, symbol, coin, before);
      WasteGrows(start, symbol, Rounds(before), Last(eras).rounds);
      NumbersFromOne(start, symbol, coin, before);
      LoadedNumber(start, symbol, coin, before);
      GoesOn(first, symbol, 0);
      LivesTakeRequestsOnce(start, symbol, coin, before);
      LifeNumbers(start, first, coin, Last(eras).life, symbol);
    }
  }

  /** The ticket of the next request a bank takes. */
  function NextTicket(b: Bank, coin: string, msgSeq: int, r: OrderReq): TicketLog
    requires Refusal(coin, r) == Ok && msgSeq > b.latestMsgSeq
  {
    Last(HandleOrderReq(b, coin, msgSeq, r, true).bank.log).tickets[0]
  }

  /** An engine that has every ticket logged takes the next one, or stops over it if a key was ever wasted. */
  lemma EngineTakesTheNext(start: BankTables, symbol: seq<string>, coin: string, eras: seq<Era>, msgSeq: int,
                           r: OrderReq, s: State)
    requires Blank(start) && Waited(start, symbol, coin, eras) && r.symbol == symbol
    requires Refusal(coin, r) == Ok && msgSeq > Loaded(start, symbol, coin, eras).latestMsgSeq
    requires (if r.side == ASK then s.askTicket else s.bidTicket)
             == |TicketsOf(Loaded(start, symbol, coin, eras).log, symbol)|
    ensures var t := NextTicket(Loaded(start, symbol, coin, eras), coin, msgSeq, r);
            Judge(s, Streams.Pushed(t)) == if Waste(start, symbol, Rounds(eras)) == 0 then Accept else NotContinuous
  {
    LoadedNumber(start, symbol, coin, eras);
  }

  // ---- a wasted key ----

  /** A line is logged; the transaction that writes it fails after inserting its ticket, and the next one commits. */
  function SecondTry(symbol: seq<string>, l: BankLine): seq<BankWriter.Event> {
    [Grow(l), Write(1, false, {symbol}), Write(1, true, {})]
  }

  lemma SecondTryCommits(start: BankTables, symbol: seq<string>, l: BankLine)
    requires Wellformed(start, [l])
    ensures Live(Beginning(start), [Grow(l)]) == World([l], start, 0, 0)
    ensures Live(Beginning(start), SecondTry(symbol, l)[..2]) == World([l], start, 0, 0)
    ensures var w := Live(Beginning(start), SecondTry(symbol, l)); w.log == [l] && w.db.saved == 1
  {
    var w1 := World([l], start, 0, 0);
    assert [Grow(l)][..0] == [] && [] + [l] == [l];
    assert SecondTry(symbol, l)[..2] == [Grow(l), Write(1, false, {symbol})];
    assert [Grow(l), Write(1, false, {symbol})][..1] == [Grow(l)];
    assert [l][..0] == [];
    assert Faithful(start, w1);
    WriteKeepsFaith(start, w1, 1, false, {symbol});
    FailedRoundStartsOver(start, w1, symbol);
    WriteKeepsFaith(start, w1, 1, true, {});
  }

  lemma FailedRoundStartsOver(start: BankTables, w: BankWriter.World, symbol: seq<string>)
    requires Faithful(start, w) && Wellformed(start, w.log) && w.pos == w.savedLogID == 0 && |w.log| > 0
    ensures BankWriter.Step(w, Write(1, false, {symbol})) == w
  {
    StepIsIdeal(start, w, 1, false, {symbol});
  }

  lemma FirstTryWastes(start: BankTables, symbol: seq<string>, l: BankLine)
    requires Wellformed(start, [l]) && HasTicket(l, symbol)
    ensures Wasted(World([l], start, 0, 0), Write(1, false, {symbol}), symbol) == 1
  {
    var w, e := World([l], start, 0, 0), Write(1, false, {symbol});
    assert [l][..0] == [] && [l][0..1] == [l] && Last([l]) == l;
    assert [l][0].logID == 1;
    assert CountNew(0, [l], symbol) == 1;
    assert Brings(w, e, symbol) == 1;
    assert Faithful(start, w);
    NewLinesReach(start, w, e);
  }

  lemma SecondTryWastes(start: BankTables, symbol: seq<string>, l: BankLine)
    requires Wellformed(start, [l]) && HasTicket(l, symbol)
    ensures Waste(start, symbol, SecondTry(symbol, l)) == 1
  {
    var events := SecondTry(symbol, l);
    SecondTryCommits(start, symbol, l);
    FirstTryWastes(start, symbol, l);
    assert events[..2] == [Grow(l), Write(1, false, {symbol})] && events[..2][..1] == [Grow(l)] && [Grow(l)][..0] == [];
    assert Waste(start, symbol, [Grow(l)]) == 0;
    assert Waste(start, symbol, events[..2]) == 1;
  }

  /** The bank that wrote the line, and the next one. */
  function Twice(symbol: seq<string>, r: OrderReq, l: BankLine): seq<Era> {
    [Era([Order(1, r, true)], SecondTry(symbol, l))]
  }

  /** The line of the first request a bank takes. */
  function FirstLine(start: BankTables, r: OrderReq): BankLine {
    BankLine(1, 1, [TicketFor(r, 1)],
             [OrderLeg(Credit(Held(start).balances, r.owner, -Total(r), Total(r)), r.owner, Total(r))])
  }

  lemma FirstRequest(start: BankTables, symbol: seq<string>, coin: string, r: OrderReq)
    requires Blank(start) && r.symbol == symbol && Refusal(coin, r) == Ok
    ensures var l, era := FirstLine(start, r), [Order(1, r, true)];
            Wellformed(start, [l]) && Life(Loaded(start, symbol, coin, []), coin, era).bank.log == [l]
  {
    assert [Order(1, r, true)][..0] == [];
  }

  lemma FirstEra(start: BankTables, symbol: seq<string>, coin: string, r: OrderReq)
    requires Blank(start) && r.symbol == symbol && Refusal(coin, r) == Ok
    ensures var l := FirstLine(start, r);
            var eras := Twice(symbol, r, l);
            && Rounds(eras) == SecondTry(symbol, l) && Waited(start, symbol, coin, eras)
            && Loaded(start, symbol, coin, eras).log == [l]
  {
    var l := FirstLine(start, r);
    FirstRequest(start, symbol, coin, r);
    SecondTryCommits(start, symbol, l);
    assert Twice(symbol, r, l)[..0] == [] && Rounds([]) + SecondTry(symbol, l) == SecondTry(symbol, l);
  }

  lemma NumbersAfterAGap(b: Bank, coin: string, symbol: seq<string>, msgSeq: int, r: OrderReq, s: State)
    requires r.symbol == symbol && Refusal(coin, r) == Ok && msgSeq > b.latestMsgSeq
    requires TicketID(b.ticketIDs, symbol) == 2
    requires (if r.side == ASK then s.askTicket else s.bidTicket) == 1
    ensures NextTicket(b, coin, msgSeq, r).id == 3
    ensures Matching.Run(s, [Streams.Pushed(NextTicket(b, coin, msgSeq, r))]) == ([], false)
  {}

  /** One request is taken, and its ticket inserted twice. The next bank numbers its first ticket 3, and an engine that
      has ticket 1 stops over it. */
  lemma OneFailedTransactionStopsTheEngine(start: BankTables, symbol: seq<string>, coin: string, r: OrderReq,
                                           msgSeq: int, r2: OrderReq, s: State)
    requires Blank(start) && r.symbol == r2.symbol == symbol && msgSeq > 1
    requires Refusal(coin, r) == Refusal(coin, r2) == Ok
    requires (if r2.side == ASK then s.askTicket else s.bidTicket) == 1
    ensures var eras := Twice(symbol, r, FirstLine(start, r));
            var b := Loaded(start, symbol, coin, eras);
            && Waited(start, symbol, coin, eras) && msgSeq > b.latestMsgSeq
            && NextTicket(b, coin, msgSeq, r2).id == 3
            && Matching.Run(s, [Streams.Pushed(NextTicket(b, coin, msgSeq, r2))]) == ([], false)
  {
    var l := FirstLine(start, r);
    var eras := Twice(symbol, r, l);
    var b := Loaded(start, symbol, coin, eras);
    FirstRequest(start, symbol, coin, r);
    FirstEra(start, symbol, coin, r);
    SecondTryWastes(start, symbol, l);
    LivesTakeRequestsOnce(start, symbol, coin, eras);
    LoadedNumber(start, symbol, coin, eras);
    OneLineOneTicket(l, symbol);
    NumbersAfterAGap(b, coin, symbol, msgSeq, r2, s);
  }

  lemma OneLineOneTicket(l: BankLine, symbol: seq<string>)
    requires |l.tickets| == 1 && l.tickets[0].symbol == symbol
    ensures TicketsOf([l], symbol) == l.tickets && Sequences([l]) == [l.msgSeq] && LastSequence([l]) == l.msgSeq
  {
    LogGrows([], l, symbol);
    assert [] + [l] == [l] && [] + l.tickets == l.tickets && [] + [l.msgSeq] == [l.msgSeq];
  }
}
