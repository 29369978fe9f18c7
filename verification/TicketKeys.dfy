/** The keys of a bank's ticket table. The database gives them out one by one, and never takes one back: a transaction
    that fails after it has inserted its tickets uses them up. */
module TicketKeys {
  import opened Ledger
  import opened BankTables
  import opened BankWriter
  import opened Matching

  /** The keys of the rows of one symbol, oldest first, and the last key given out. */
  datatype Keys = Keys(rows: seq<int>, last: int)

  function GiveOut(k: Keys, n: nat): Keys {
    if n == 0 then k
    else
      var k' := GiveOut(k, n - 1);
      Keys(k'.rows + [k'.last + 1], k'.last + 1)
  }

  /** The key a load finds: rows are asked for by descending key. */
  function Newest(k: Keys): int {
    if k.rows == [] then 0 else Last(k.rows)
  }

  predicate HasTicket(l: BankLine, symbol: seq<string>) {
    |l.tickets| > 0 && l.tickets[0].symbol == symbol
  }

  /** The tickets of a symbol among the lines past the saved ones. */
  function CountNew(saved: int, lines: seq<BankLine>, symbol: seq<string>): nat {
    if |lines| == 0 then 0
    else
      var l := Last(lines);
      CountNew(saved, lines[..|lines| - 1], symbol) + (if l.logID > saved && HasTicket(l, symbol) then 1 else 0)
  }

  /** A delivery that reaches the database, and how many tickets of the symbol it brings. */
  predicate Reaches(w: BankWriter.World, e: BankWriter.Event) {
    e.Write? && e.size > 0 && w.pos + e.size <= |w.log| &&
    var lines := w.log[w.pos..w.pos + e.size];
    Last(lines).logID > w.savedLogID && |BatchOf(w.savedLogID, lines).snaps| > 0
  }

  function Brings(w: BankWriter.World, e: BankWriter.Event, symbol: seq<string>): nat
    requires e.Write? && w.pos + e.size <= |w.log|
  {
    CountNew(w.savedLogID, w.log[w.pos..w.pos + e.size], symbol)
  }

  /** The keys an event uses up without a row to show for them. */
  function Wasted(w: BankWriter.World, e: BankWriter.Event, symbol: seq<string>): nat {
    if Reaches(w, e) && !e.commits && symbol in e.inserted then Brings(w, e, symbol) else 0
  }

  function Use(k: Keys, w: BankWriter.World, e: BankWriter.Event, symbol: seq<string>): Keys {
    if Reaches(w, e) && e.commits then GiveOut(k, Brings(w, e, symbol))
    else k.(last := k.last + Wasted(w, e, symbol))
  }

  /** The keys after a life of the writer. */
  function KeysAfter(start: BankTables, symbol: seq<string>, events: seq<BankWriter.Event>): Keys {
    if events == [] then Keys([], 0)
    else
      var before := events[..|events| - 1];
      Use(KeysAfter(start, symbol, before), Live(Beginning(start), before), Last(events), symbol)
  }

  /** The keys used up in vain over a life of the writer. */
  function Waste(start: BankTables, symbol: seq<string>, events: seq<BankWriter.Event>): nat {
    if events == [] then 0
    else
      var before := events[..|events| - 1];
      Waste(start, symbol, before) + Wasted(Live(Beginning(start), before), Last(events), symbol)
  }

  /** The keys used up in vain by the `i`-th event of a life. */
  function WastedAt(start: BankTables, symbol: seq<string>, events: seq<BankWriter.Event>, i: nat): nat
    requires i < |events|
  {
    Wasted(Live(Beginning(start), events[..i]), events[i], symbol)
  }

  lemma WastedBefore(start: BankTables, symbol: seq<string>, events: seq<BankWriter.Event>, i: nat)
    requires i < |events| - 1
    ensures WastedAt(start, symbol, events, i) == WastedAt(start, symbol, events[..|events| - 1], i)
  {
    assert events[..|events| - 1][..i] == events[..i];
  }

  lemma {:induction false} WasteAddsUp(start: BankTables, symbol: seq<string>, events: seq<BankWriter.Event>, i: nat)
    requires i < |events|
    ensures WastedAt(start, symbol, events, i) <= Waste(start, symbol, events)
    decreases |events|
  {
    if i < |events| - 1 {
      WasteAddsUp(start, symbol, events[..|events| - 1], i);
      WastedBefore(start, symbol, events, i);
    }
  }

  lemma {:induction false} WasteIsSomewhere(start: BankTables, symbol: seq<string>, events: seq<BankWriter.Event>)
    returns (i: nat)
    requires Waste(start, symbol, events) > 0
    ensures i < |events| && WastedAt(start, symbol, events, i) > 0
  {
    var n := |events| - 1;
    if WastedAt(start, symbol, events, n) > 0 {
      i := n;
    } else {
      i := WasteIsSomewhere(start, symbol, events[..n]);
      WastedBefore(start, symbol, events, i);
    }
  }

  /** Nothing is wasted exactly when no transaction fails that has inserted tickets of the symbol. */
  lemma NothingIsWasted(start: BankTables, symbol: seq<string>, events: seq<BankWriter.Event>)
    ensures Waste(start, symbol, events) == 0 <==>
            forall i :: 0 <= i < |events| ==> WastedAt(start, symbol, events, i) == 0
  {
    if Waste(start, symbol, events) > 0 {
      var i := WasteIsSomewhere(start, symbol, events);
    } else {
      forall i | 0 <= i < |events| ensures WastedAt(start, symbol, events, i) == 0 {
        WasteAddsUp(start, symbol, events, i);
      }
    }
  }

  // ---- counting rows ----

  ghost predicate OneTicketEach(log: seq<BankLine>) {
    forall i :: 0 <= i < |log| ==> |log[i].tickets| <= 1
  }

  lemma CountOneMore(rows: seq<TicketRow>, l: BankLine, symbol: seq<string>)
    ensures TicketCount(rows + Tickets(l), symbol)
            == TicketCount(rows, symbol) + (if HasTicket(l, symbol) then 1 else 0)
  {
    if |l.tickets| == 0 {
      assert rows + [] == rows;
    } else {
      assert (rows + Tickets(l))[..|rows|] == rows;
    }
  }

  /** What is counted are the rows a batch inserts. */
  lemma {:induction false} BatchesBringTheNew(saved: int, lines: seq<BankLine>, symbol: seq<string>)
    ensures TicketCount(BatchOf(saved, lines).tickets, symbol) == CountNew(saved, lines, symbol)
  {
    if |lines| > 0 {
      BatchesBringTheNew(saved, lines[..|lines| - 1], symbol);
      CountOneMore(BatchOf(saved, lines[..|lines| - 1]).tickets, Last(lines), symbol);
    }
  }

  /** ... and the rows written line by line. */
  lemma {:induction false} RowsAreCounted(start: BankTables, log: seq<BankLine>, symbol: seq<string>)
    requires start.tickets == [] && forall i :: 0 <= i < |log| ==> log[i].logID > 0
    ensures TicketCount(WriteLines(start, log).tickets, symbol) == CountNew(0, log, symbol)
  {
    if |log| > 0 {
      var before, l := log[..|log| - 1], Last(log);
      assert forall i :: 0 <= i < |before| ==> before[i] == log[i];
      RowsAreCounted(start, before, symbol);
      CountOneMore(WriteLines(start, before).tickets, l, symbol);
    }
  }

  lemma {:induction false} TicketsAreCounted(log: seq<BankLine>, symbol: seq<string>)
    requires OneTicketEach(log) && forall i :: 0 <= i < |log| ==> log[i].logID > 0
    ensures |TicketsOf(log, symbol)| == CountNew(0, log, symbol)
  {
    if log != [] {
      var before := log[..|log| - 1];
      assert forall i :: 0 <= i < |before| ==> before[i] == log[i];
      TicketsAreCounted(before, symbol);
    }
  }

  ghost predicate Numbered(log: seq<BankLine>) {
    forall i :: 0 <= i < |log| ==> log[i].logID == i + 1
  }

  /** The tickets in the first `n` lines. */
  function UpTo(log: seq<BankLine>, n: nat, symbol: seq<string>): nat
    requires n <= |log|
  {
    CountNew(0, log[..n], symbol)
  }

  lemma UpToNext(log: seq<BankLine>, n: nat, symbol: seq<string>)
    requires Numbered(log) && n < |log|
    ensures UpTo(log, n + 1, symbol) == UpTo(log, n, symbol) + (if HasTicket(log[n], symbol) then 1 else 0)
  {
    assert log[..n + 1][..n] == log[..n] && Last(log[..n + 1]) == log[n];
  }

  lemma LastOfStretch(log: seq<BankLine>, pos: nat, end: nat)
    requires pos < end <= |log|
    ensures log[pos..end][..|log[pos..end]| - 1] == log[pos..end - 1] && Last(log[pos..end]) == log[end - 1]
  {}

  lemma {:induction false} StretchCounts(log: seq<BankLine>, saved: nat, pos: nat, end: nat, symbol: seq<string>)
    requires Numbered(log) && pos <= saved <= |log| && pos <= end <= |log|
    ensures CountNew(saved, log[pos..end], symbol)
            == if end <= saved then 0 else UpTo(log, end, symbol) - UpTo(log, saved, symbol)
    decreases end
  {
    if pos < end {
      StretchCounts(log, saved, pos, end - 1, symbol);
      LastOfStretch(log, pos, end);
      UpToNext(log, end - 1, symbol);
    }
  }

  lemma {:induction false} MoreLinesMoreTickets(log: seq<BankLine>, n: nat, m: nat, symbol: seq<string>)
    requires Numbered(log) && n <= m <= |log|
    ensures UpTo(log, n, symbol) <= UpTo(log, m, symbol)
    decreases m
  {
    if n < m {
      MoreLinesMoreTickets(log, n, m - 1, symbol);
      UpToNext(log, m - 1, symbol);
    }
  }

  // ---- keys and rows ----

  /** A key for every row, ascending; the last one given out is the number of rows and of keys wasted; and unless there
      are tickets still to be written, it is that of the newest row. */
  ghost predicate KeysFit(k: Keys, rows: nat, logged: nat, waste: nat) {
    && |k.rows| == rows <= logged && k.last == rows + waste
    && (forall i, j :: 0 <= i < j < rows ==> k.rows[i] < k.rows[j])
    && (forall i :: 0 <= i < rows ==> i < k.rows[i] <= k.last)
    && (rows == logged ==> Newest(k) == k.last)
  }

  lemma {:induction false} GiveOutFits(k: Keys, n: nat, rows: nat, logged: nat, waste: nat)
    requires KeysFit(k, rows, logged, waste) && rows + n <= logged
    ensures KeysFit(GiveOut(k, n), rows + n, logged, waste)
    ensures n > 0 ==> Newest(GiveOut(k, n)) == GiveOut(k, n).last
  {
    if n > 0 { GiveOutFits(k, n - 1, rows, logged, waste); }
  }

  // A failed transaction leaves its tickets to be written.
  lemma AbortFits(k: Keys, n: nat, rows: nat, logged: nat, waste: nat)
    requires KeysFit(k, rows, logged, waste) && rows + n <= logged
    ensures KeysFit(k.(last := k.last + n), rows, logged, waste + n)
  {}

  lemma GrowthFits(k: Keys, rows: nat, logged: nat, logged': nat, waste: nat)
    requires KeysFit(k, rows, logged, waste) && logged <= logged'
    ensures KeysFit(k, rows, logged', waste)
  {}

  ghost predicate WorldFits(w: BankWriter.World, symbol: seq<string>, k: Keys, waste: nat) {
    && Numbered(w.log) && w.pos <= w.savedLogID <= |w.log|
    && KeysFit(k, UpTo(w.log, w.savedLogID, symbol), UpTo(w.log, |w.log|, symbol), waste)
  }

  lemma BringsTheUnsaved(w: BankWriter.World, e: BankWriter.Event, symbol: seq<string>)
    requires Numbered(w.log) && w.pos <= w.savedLogID && e.Write? && w.savedLogID < w.pos + e.size <= |w.log|
    ensures var end := w.pos + e.size;
            && UpTo(w.log, w.savedLogID, symbol) + Brings(w, e, symbol) == UpTo(w.log, end, symbol)
            && UpTo(w.log, end, symbol) <= UpTo(w.log, |w.log|, symbol)
  {
    StretchCounts(w.log, w.savedLogID, w.pos, w.pos + e.size, symbol);
    MoreLinesMoreTickets(w.log, w.pos + e.size, |w.log|, symbol);
  }

  lemma DeliveryFits(w: BankWriter.World, w': BankWriter.World, e: BankWriter.Event, symbol: seq<string>, k: Keys,
                     waste: nat)
    requires WorldFits(w, symbol, k, waste) && e.Write? && e.size > 0 && w.pos + e.size <= |w.log|
    requires Reaches(w, e) <==> w.savedLogID < w.pos + e.size
    requires w'.log == w.log && w'.pos <= w'.savedLogID
    requires w'.savedLogID == if w.savedLogID < w.pos + e.size && e.commits then w.pos + e.size else w.savedLogID
    ensures WorldFits(w', symbol, Use(k, w, e, symbol), waste + Wasted(w, e, symbol))
  {
    if Reaches(w, e) {
      BringsTheUnsaved(w, e, symbol);
      var rows, logged := UpTo(w.log, w.savedLogID, symbol), UpTo(w.log, |w.log|, symbol);
      if e.commits {
        GiveOutFits(k, Brings(w, e, symbol), rows, logged, waste);
      } else {
        AbortFits(k, Wasted(w, e, symbol), rows, logged, waste);
      }
    }
  }

  lemma LineFits(w: BankWriter.World, l: BankLine, symbol: seq<string>, k: Keys, waste: nat)
    requires WorldFits(w, symbol, k, waste) && l.logID == |w.log| + 1
    ensures WorldFits(w.(log := w.log + [l]), symbol, k, waste)
  {
    var log := w.log + [l];
    assert log[..|w.log|] == w.log[..|w.log|] && log[..w.savedLogID] == w.log[..w.savedLogID];
    UpToNext(log, |w.log|, symbol);
    GrowthFits(k, UpTo(w.log, w.savedLogID, symbol), UpTo(w.log, |w.log|, symbol), UpTo(log, |log|, symbol), waste);
  }

  // Which deliveries reach the database, in a world whose tables are faithful.
  lemma NewLinesReach(start: BankTables, w: BankWriter.World, e: BankWriter.Event)
    requires Faithful(start, w) && Wellformed(start, w.log)
    requires e.Write? && e.size > 0 && w.pos + e.size <= |w.log|
    ensures Reaches(w, e) <==> w.savedLogID < w.pos + e.size
  {
    var end := w.pos + e.size;
    assert Last(w.log[w.pos..end]) == w.log[end - 1];
    if w.savedLogID < end {
      StretchBatch(start, w.log, w.savedLogID, w.pos, end);
      FreshBatch(start, w.log, w.savedLogID, end);
    }
  }

  lemma WriteFits(start: BankTables, symbol: seq<string>, w: BankWriter.World, size: nat, commits: bool,
                  inserted: set<seq<string>>, k: Keys, waste: nat)
    requires Faithful(start, w) && Wellformed(start, w.log) && WorldFits(w, symbol, k, waste)
    requires size > 0 && w.pos + size <= |w.log|
    ensures var e := Write(size, commits, inserted);
            WorldFits(BankWriter.Step(w, e), symbol, Use(k, w, e, symbol), waste + Wasted(w, e, symbol))
  {
    var e := Write(size, commits, inserted);
    var w' := BankWriter.Step(w, e);
    NewLinesReach(start, w, e);
    WriteKeepsFaith(start, w, size, commits, inserted);
    DeliveryFits(w, w', e, symbol, k, waste);
  }

  lemma StepFits(start: BankTables, symbol: seq<string>, w: BankWriter.World, e: BankWriter.Event, k: Keys, waste: nat)
    requires Faithful(start, w) && Wellformed(start, w.log) && WorldFits(w, symbol, k, waste)
    requires e.Grow? ==> e.l.logID == |w.log| + 1
    ensures WorldFits(BankWriter.Step(w, e), symbol, Use(k, w, e, symbol), waste + Wasted(w, e, symbol))
  {
    match e {
      case Grow(l) => LineFits(w, l, symbol, k, waste);
      case Restart =>
      case Write(size, commits, inserted) =>
        if size > 0 && w.pos + size <= |w.log| { WriteFits(start, symbol, w, size, commits, inserted, k, waste); }
    }
  }

  /** Whatever the batches, failures and restarts of the writer: every row of a symbol's tickets has a key, keys ascend,
      and the last one given out is the number of rows and of keys wasted. */
  lemma {:induction false} KeysFollowTheWaste(start: BankTables, symbol: seq<string>, events: seq<BankWriter.Event>)
    requires Wellformed(start, Live(Beginning(start), events).log)
    ensures WorldFits(Live(Beginning(start), events), symbol, KeysAfter(start, symbol, events),
                      Waste(start, symbol, events))
  {
    if events != [] {
      var before, e := events[..|events| - 1], Last(events);
      var w := Live(Beginning(start), before);
      EventIsReady(start, w, e);
      TablesFollowTheLog(start, before);
      KeysFollowTheWaste(start, symbol, before);
      StepFits(start, symbol, w, e, KeysAfter(start, symbol, before), Waste(start, symbol, before));
    }
  }

  lemma EventIsReady(start: BankTables, w: BankWriter.World, e: BankWriter.Event)
    requires Wellformed(start, BankWriter.Step(w, e).log)
    ensures Wellformed(start, w.log) && (e.Grow? ==> e.l.logID == |w.log| + 1)
  {
    var log := BankWriter.Step(w, e).log;
    assert w.log == log[..|w.log|];
    WellformedPrefix(start, log, |w.log|);
    if e.Grow? { assert log[|w.log|] == e.l; }
  }

  /** The number a bank loads once its writer has caught up: the tickets logged, and the keys wasted. */
  lemma NewestKeyIsTheCountAndTheWaste(start: BankTables, symbol: seq<string>, events: seq<BankWriter.Event>)
    requires var w := Live(Beginning(start), events);
             Wellformed(start, w.log) && OneTicketEach(w.log) && w.db.saved == |w.log|
    ensures var log := Live(Beginning(start), events).log;
            Newest(KeysAfter(start, symbol, events)) == |TicketsOf(log, symbol)| + Waste(start, symbol, events)
  {
    var w := Live(Beginning(start), events);
    TablesFollowTheLog(start, events);
    KeysFollowTheWaste(start, symbol, events);
    assert w.log[..|w.log|] == w.log;
    TicketsAreCounted(w.log, symbol);
  }
}
