/** The tables of a bank, written line by line and in batches, and what its log says of every balance. */
module BankTables {
  import opened Columns
  import opened Ledger
  import Matching
  import Tables

  datatype Snap = Snap(logID: int, logIndex: int, leg: Leg)

  /** A row of the ticket table of its symbol. */
  datatype TicketRow = TicketRow(symbol: seq<string>, logID: int, price: real, quantity: real, amount: real)

  /** Balance rows by owner, balance snapshots, the ticket tables (each row names its own), and the last stream
      sequence, all as they were written; `saved` is the log ID of the newest snapshot. Nothing but a load reads a
      column back, so rounding is left to `Held`, and the keys of ticket rows to another module. */
  datatype BankTables = BankTables(balances: map<int, Balance>, snaps: seq<Snap>,
                                   tickets: seq<TicketRow>, msgSeq: int, saved: int)

  // ---- what a line says ----

  /** The legs the writer reads: a second one only if its owner is positive. */
  function Read(l: BankLine): seq<Leg> {
    if |l.legs| == 0 then []
    else if |l.legs| > 1 && l.legs[1].owner > 0 then l.legs[..2] else l.legs[..1]
  }

  function Snaps(l: BankLine): seq<Snap> {
    var first, legs := if |l.tickets| == 0 then 1 else 2, Read(l);
    if |legs| == 0 then []
    else if |legs| == 1 then [Snap(l.logID, first, legs[0])]
    else [Snap(l.logID, first, legs[0]), Snap(l.logID, first + 1, legs[1])]
  }

  function New(leg: Leg): Balance {
    Balance(leg.freeNew, leg.freezeNew)
  }

  /** The balances a line leaves, the second leg last. */
  function News(l: BankLine): map<int, Balance> {
    var legs := Read(l);
    if |legs| == 0 then map[]
    else if |legs| == 1 then map[legs[0].owner := New(legs[0])]
    else map[legs[0].owner := New(legs[0])][legs[1].owner := New(legs[1])]
  }

  function Tickets(l: BankLine): seq<TicketRow> {
    if |l.tickets| == 0 then []
    else
      var t := l.tickets[0];
      [TicketRow(t.symbol, l.logID, t.price, t.quantity, t.amount)]
  }

  /** Only balance rows that exist are updated. */
  function Updated(rows: map<int, Balance>, news: map<int, Balance>): map<int, Balance> {
    map o | o in rows :: if o in news then news[o] else rows[o]
  }

  function WriteLine(t: BankTables, l: BankLine): BankTables {
    BankTables(Updated(t.balances, News(l)), t.snaps + Snaps(l), t.tickets + Tickets(l),
               if l.msgSeq > 0 then l.msgSeq else t.msgSeq, if |l.legs| == 0 then t.saved else l.logID)
  }

  function WriteLines(t: BankTables, log: seq<BankLine>): BankTables {
    if |log| == 0 then t else WriteLine(WriteLines(t, log[..|log| - 1]), Matching.Last(log))
  }

  /** The log ID of the last snapshot, which is what a writer starts from. */
  function NewestSnap(t: BankTables): int {
    if t.snaps == [] then 0 else Matching.Last(t.snaps).logID
  }

  // ---- what the columns hold ----

  predicate LegInRange(leg: Leg) {
    InRange(leg.freeChange) && InRange(leg.freezeChange) && InRange(leg.freeNew) && InRange(leg.freezeNew)
  }

  predicate TicketInRange(t: TicketLog) {
    InRange(t.price) && InRange(t.quantity) && InRange(t.amount)
  }

  /** Every value of a line fits its column. A statement with one that does not fails, and its transaction with it. */
  predicate LineInRange(l: BankLine) {
    (forall leg :: leg in Read(l) ==> LegInRange(leg)) && (l.tickets != [] ==> TicketInRange(l.tickets[0]))
  }

  function HeldBalance(b: Balance): Balance {
    Balance(Stored(b.free), Stored(b.freeze))
  }

  function HeldSnaps(rows: seq<Snap>): seq<Snap> {
    if |rows| == 0 then []
    else
      var s := Matching.Last(rows);
      HeldSnaps(rows[..|rows| - 1]) +
      [s.(leg := Leg(s.leg.owner, Stored(s.leg.freeChange), Stored(s.leg.freezeChange),
                     Stored(s.leg.freeNew), Stored(s.leg.freezeNew)))]
  }

  function HeldTickets(rows: seq<TicketRow>): seq<TicketRow> {
    if |rows| == 0 then []
    else
      var r := Matching.Last(rows);
      HeldTickets(rows[..|rows| - 1]) +
      [r.(price := Stored(r.price), quantity := Stored(r.quantity), amount := Stored(r.amount))]
  }

  /** The tables as the database holds them. */
  function Held(t: BankTables): BankTables {
    BankTables(map o | o in t.balances :: HeldBalance(t.balances[o]), HeldSnaps(t.snaps), HeldTickets(t.tickets),
               t.msgSeq, t.saved)
  }

  // ---- what a bank loads ----

  function TicketCount(rows: seq<TicketRow>, symbol: seq<string>): nat {
    if |rows| == 0 then 0
    else TicketCount(rows[..|rows| - 1], symbol) + (if Matching.Last(rows).symbol == symbol then 1 else 0)
  }

  /** A bank that has loaded its tables, and the newest key in its symbol's ticket table, over a log file that is all in
      them. */
  function Reload(db: BankTables, symbol: seq<string>, newest: int, log: seq<BankLine>): Bank {
    Bank(db.balances, map[symbol := newest], map[], db.msgSeq, if log == [] then 0 else Matching.Last(log).logID,
         log, [])
  }

  // ---- a batch ----

  datatype Batch = Batch(balances: map<int, Balance>, snaps: seq<Snap>,
                         tickets: seq<TicketRow>, msgSeq: int, logID: int, newest: int)

  const NOTHING := Batch(map[], [], [], 0, 0, 0)

  function Collect(b: Batch, l: BankLine): Batch {
    Batch(b.balances + News(l), b.snaps + Snaps(l), b.tickets + Tickets(l), Tables.Max(b.msgSeq, l.msgSeq), l.logID,
          if |l.legs| == 0 then b.newest else l.logID)
  }

  function BatchOf(saved: int, lines: seq<BankLine>): Batch {
    if |lines| == 0 then NOTHING
    else
      var b, l := BatchOf(saved, lines[..|lines| - 1]), Matching.Last(lines);
      if l.logID <= saved then b.(logID := l.logID) else Collect(b, l)
  }

  function Commit(t: BankTables, b: Batch): BankTables {
    BankTables(Updated(t.balances, b.balances), t.snaps + b.snaps, t.tickets + b.tickets,
               if b.msgSeq > 0 then b.msgSeq else t.msgSeq, if |b.snaps| == 0 then t.saved else b.newest)
  }

  // ---- the batch refines the lines ----

  /** A line the tables are ready for: it has a leg, and a stream sequence that is new or absent. */
  ghost predicate Fits(t: BankTables, l: BankLine) {
    |l.legs| > 0 && l.logID > t.saved >= 0 && (l.msgSeq == 0 || l.msgSeq > t.msgSeq >= 0)
  }

  ghost predicate AllFit(t: BankTables, log: seq<BankLine>) {
    |log| == 0 || (AllFit(t, log[..|log| - 1]) && Fits(WriteLines(t, log[..|log| - 1]), Matching.Last(log)))
  }

  lemma UpdatesMerge(rows: map<int, Balance>, a: map<int, Balance>, b: map<int, Balance>)
    ensures Updated(rows, a + b) == Updated(Updated(rows, a), b)
  {}

  lemma SnapsAreLast(t: BankTables, l: BankLine)
    requires |l.legs| > 0
    ensures |Snaps(l)| > 0 && WriteLine(t, l).saved == l.logID
  {}

  lemma CollectRefines(t: BankTables, b: Batch, l: BankLine)
    requires Fits(Commit(t, b), l) && 0 <= b.msgSeq && (b.msgSeq == 0 || b.msgSeq >= t.msgSeq)
    ensures Commit(t, Collect(b, l)) == WriteLine(Commit(t, b), l)
  {
    UpdatesMerge(t.balances, b.balances, News(l));
    assert t.snaps + (b.snaps + Snaps(l)) == (t.snaps + b.snaps) + Snaps(l);
    assert t.tickets + (b.tickets + Tickets(l)) == (t.tickets + b.tickets) + Tickets(l);
  }

  /** Writing new lines in one transaction does what writing them one at a time does. */
  lemma {:induction false} BatchRefinesLines(t: BankTables, lines: seq<BankLine>)
    requires AllFit(t, lines) && 0 <= t.msgSeq
    ensures var b := BatchOf(t.saved, lines);
            && Commit(t, b) == WriteLines(t, lines)
            && 0 <= b.msgSeq && (b.msgSeq == 0 || b.msgSeq >= t.msgSeq)
            && (lines != [] ==> |b.snaps| > 0 && b.logID == Matching.Last(lines).logID > t.saved)
    ensures 0 <= WriteLines(t, lines).msgSeq && t.saved <= WriteLines(t, lines).saved
  {
    if lines == [] {
      assert Updated(t.balances, map[]) == t.balances && t.snaps + [] == t.snaps && t.tickets + [] == t.tickets;
    } else {
      var before, l := lines[..|lines| - 1], Matching.Last(lines);
      BatchRefinesLines(t, before);
      CollectRefines(t, BatchOf(t.saved, before), l);
      SnapsAreLast(WriteLines(t, before), l);
    }
  }

  // Lines that are already saved change nothing in a batch but the last log ID it has seen.
  lemma {:induction false} SeenLinesBringNothing(saved: int, seen: seq<BankLine>)
    requires forall i :: 0 <= i < |seen| ==> seen[i].logID <= saved
    ensures BatchOf(saved, seen).(logID := 0) == NOTHING
  {
    if seen != [] {
      var before := seen[..|seen| - 1];
      assert forall i :: 0 <= i < |before| ==> before[i] == seen[i];
      SeenLinesBringNothing(saved, before);
    }
  }

  lemma {:induction false} SavedLinesAreSkipped(saved: int, seen: seq<BankLine>, news: seq<BankLine>)
    requires forall i :: 0 <= i < |seen| ==> seen[i].logID <= saved
    requires forall i :: 0 <= i < |news| ==> news[i].logID > saved
    ensures news != [] ==> BatchOf(saved, seen + news) == BatchOf(saved, news)
  {
    if news != [] {
      var before := news[..|news| - 1];
      assert (seen + news)[..|seen + news| - 1] == seen + before;
      assert forall i :: 0 <= i < |before| ==> before[i] == news[i];
      if before == [] {
        assert seen + [] == seen;
        SeenLinesBringNothing(saved, seen);
      } else {
        SavedLinesAreSkipped(saved, seen, before);
      }
    }
  }

  // ---- the log against the ledger ----

  /** The last balances a log records. */
  function Recorded(log: seq<BankLine>): Assets {
    if log == [] then map[] else Recorded(log[..|log| - 1]) + News(Matching.Last(log))
  }

  /** What the changes of a line make of the balances before it, leg by leg. */
  function Changed(before: Assets, legs: seq<Leg>): Assets {
    if |legs| == 0 then before
    else
      var first := Credit(before, legs[0].owner, legs[0].freeChange, legs[0].freezeChange);
      if |legs| == 1 then first else Credit(first, legs[1].owner, legs[1].freeChange, legs[1].freezeChange)
  }

  /** The balances the changes in a log lead to from those before it. */
  function Replayed(before: Assets, log: seq<BankLine>): Assets {
    if log == [] then before
    else Changed(Replayed(before, log[..|log| - 1]), Matching.Last(log).legs)
  }

  /** The line is not that of a request with a negative total. */
  predicate Readable(l: BankLine) {
    |l.tickets| > 0 && |l.legs| > 0 ==> 0.0 <= l.legs[0].freezeChange
  }

  /** At every point of a log the changes so far lead to the balances recorded so far. */
  ghost predicate ChangesAddUp(before: Assets, log: seq<BankLine>) {
    log == [] || (ChangesAddUp(before, log[..|log| - 1]) && Replayed(before, log) == before + Recorded(log))
  }

  lemma MergesAssociate(a: Assets, b: Assets, c: Assets)
    ensures a + (b + c) == (a + b) + c
  {}

  // A line records the balances after it, and a request's line the change that led to them unless its total is
  // negative.
  lemma HandleRecords(b: Bank, coin: string, e: Event)
    requires Handle(b, coin, e).status == Ok
    ensures var b' := Handle(b, coin, e).bank;
            || b' == b.(acks := b'.acks)
            || (var l := Matching.Last(b'.log);
                && b'.log == b.log + [l] && b'.assets == b.assets + News(l)
                && (b'.assets == Changed(b.assets, l.legs) <==> Readable(l)))
  {}

  lemma {:induction false} LifeExtends(b: Bank, coin: string, events: seq<Event>)
    requires Life(b, coin, events).status == Ok
    ensures b.log <= Life(b, coin, events).bank.log
  {
    if events != [] {
      LifeExtends(b, coin, events[..|events| - 1]);
      HandleRecords(Life(b, coin, events[..|events| - 1]).bank, coin, Matching.Last(events));
    }
  }

  lemma OneMoreAddsUp(before: Assets, log: seq<BankLine>, l: BankLine, now: Assets)
    requires before + Recorded(log) == now && now + News(l) == before + Recorded(log + [l])
    requires now + News(l) == Changed(now, l.legs) <==> Readable(l)
    ensures ChangesAddUp(before, log + [l]) <==> ChangesAddUp(before, log) && Readable(l)
  {
    assert (log + [l])[..|log|] == log;
    assert Matching.Last(log + [l]) == l && log + [l] != [];
    if log == [] { assert before + map[] == before; }
    assert Replayed(before, log + [l]) == Changed(Replayed(before, log), l.legs);
  }

  /** From whatever bank a life began with: the ledger in memory is what the lines written since record, also when both
      owners of a change are one. The changes in them add up to it, at every line, if and only if no request had a
      negative total. */
  lemma {:induction false} LedgerIsItsLog(first: Bank, coin: string, events: seq<Event>)
    requires Life(first, coin, events).status == Ok
    ensures var b := Life(first, coin, events).bank;
            && first.log <= b.log
            && var lines := b.log[|first.log|..];
               && b.assets == first.assets + Recorded(lines)
               && (ChangesAddUp(first.assets, lines) <==> forall l :: l in lines ==> Readable(l))
  {
    var b' := Life(first, coin, events).bank;
    LifeExtends(first, coin, events);
    if events == [] {
      assert first.assets + map[] == first.assets;
      assert b'.log[|first.log|..] == [];
    } else {
      var b := Life(first, coin, events[..|events| - 1]).bank;
      LedgerIsItsLog(first, coin, events[..|events| - 1]);
      HandleRecords(b, coin, Matching.Last(events));
      if b' != b.(acks := b'.acks) { NextLineIsRecorded(first, b, b'); }
    }
  }

  lemma NextLineIsRecorded(first: Bank, b: Bank, b': Bank)
    requires first.log <= b.log && b'.log != [] && b'.log == b.log + [Matching.Last(b'.log)]
    requires b'.assets == b.assets + News(Matching.Last(b'.log))
    requires b'.assets == Changed(b.assets, Matching.Last(b'.log).legs) <==> Readable(Matching.Last(b'.log))
    requires var lines := b.log[|first.log|..];
             && b.assets == first.assets + Recorded(lines)
             && (ChangesAddUp(first.assets, lines) <==> forall l :: l in lines ==> Readable(l))
    ensures var lines := b'.log[|first.log|..];
            && b'.assets == first.assets + Recorded(lines)
            && (ChangesAddUp(first.assets, lines) <==> forall l :: l in lines ==> Readable(l))
  {
    var l, lines := Matching.Last(b'.log), b.log[|first.log|..];
    assert b'.log[|first.log|..] == lines + [l];
    assert (lines + [l])[..|lines|] == lines;
    MergesAssociate(first.assets, Recorded(lines), News(l));
    OneMoreAddsUp(first.assets, lines, l, b.assets);
  }

  /** A bid with a negative total is one. */
  lemma NegativeTotalsDoNotAddUp(first: Bank, coin: string, msgSeq: int, r: OrderReq)
    requires Refusal(coin, r) == Ok && Total(r) < 0.0 && msgSeq > first.latestMsgSeq
    ensures var b := HandleOrderReq(first, coin, msgSeq, r, true).bank;
            b.log == first.log + [Matching.Last(b.log)] && !Readable(Matching.Last(b.log))
            && Changed(first.assets, Matching.Last(b.log).legs) != b.assets
  {}
}
