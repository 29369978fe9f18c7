/** What the rows of a bank's tables hold, in terms of the log they were written from. */
module BankRows {
  import opened Columns
  import opened Ledger
  import opened BankTables
  import opened BankWriter
  import opened Matching

  // ---- snapshots ----

  /** The snapshots of one log line, in order. */
  function Of(snaps: seq<Snap>, logID: int): seq<Snap> {
    if |snaps| == 0 then []
    else Of(snaps[..|snaps| - 1], logID) + (if Last(snaps).logID == logID then [Last(snaps)] else [])
  }

  /** The snapshots are those of the line's legs, in order, numbered after its ticket if it has one: the first leg, and
      a second one if its owner is positive. */
  ghost predicate Pictures(snaps: seq<Snap>, l: BankLine) {
    var first := if |l.tickets| > 0 then 2 else 1;
    if |l.legs| == 0 then snaps == []
    else
      && 1 <= |snaps| <= 2 && (|snaps| == 2 <==> |l.legs| > 1 && l.legs[1].owner > 0)
      && (forall i :: 0 <= i < |snaps| ==> snaps[i] == Snap(l.logID, first + i, l.legs[i]))
  }

  lemma {:induction false} OfConcat(a: seq<Snap>, b: seq<Snap>, logID: int)
    ensures Of(a + b, logID) == Of(a, logID) + Of(b, logID)
  {
    if b == [] {
      assert a + b == a;
    } else {
      OfConcat(a, b[..|b| - 1], logID);
      assert (a + b)[..|a + b| - 1] == a + b[..|b| - 1];
    }
  }

  lemma LineIsPictured(l: BankLine)
    ensures Pictures(Snaps(l), l)
  {}

  lemma OfOneLine(l: BankLine, logID: int)
    ensures Of(Snaps(l), logID) == if l.logID == logID then Snaps(l) else []
  {
    var snaps := Snaps(l);
    if |snaps| == 2 {
      assert snaps == [snaps[0]] + [snaps[1]];
      OfConcat([snaps[0]], [snaps[1]], logID);
      OfOneSnap(snaps[0], logID);
      OfOneSnap(snaps[1], logID);
    } else if |snaps| == 1 {
      assert snaps == [snaps[0]];
      OfOneSnap(snaps[0], logID);
    }
  }

  lemma OfOneSnap(s: Snap, logID: int)
    ensures Of([s], logID) == if s.logID == logID then [s] else []
  {
    assert [s][..0] == [];
  }

  lemma OfNext(t: BankTables, l: BankLine, logID: int)
    ensures Of(WriteLine(t, l).snaps, logID) == Of(t.snaps, logID) + (if l.logID == logID then Snaps(l) else [])
  {
    OfConcat(t.snaps, Snaps(l), logID);
    OfOneLine(l, logID);
  }

  lemma {:induction false} OthersAddNone(t: BankTables, log: seq<BankLine>, logID: int)
    requires forall l :: l in log ==> l.logID != logID
    ensures Of(WriteLines(t, log).snaps, logID) == Of(t.snaps, logID)
  {
    if |log| > 0 {
      var before := log[..|log| - 1];
      assert Last(log) in log && forall l :: l in before ==> l in log;
      OthersAddNone(t, before, logID);
      OfNext(WriteLines(t, before), Last(log), logID);
    }
  }

  lemma OneLine(t: BankTables, l: BankLine)
    ensures WriteLines(t, [l]) == WriteLine(t, l)
  {
    assert [l][..0] == [];
  }

  /** A line among others has the snapshots of its legs and no others. */
  lemma LinesArePictured(start: BankTables, a: seq<BankLine>, l: BankLine, b: seq<BankLine>)
    requires start.snaps == []
    requires (forall x :: x in a ==> x.logID != l.logID) && (forall x :: x in b ==> x.logID != l.logID)
    ensures Pictures(Of(WriteLines(start, (a + [l]) + b).snaps, l.logID), l)
  {
    var t := WriteLines(start, a);
    WriteConcat(start, a, [l]);
    WriteConcat(start, a + [l], b);
    OneLine(t, l);
    OthersAddNone(start, a, l.logID);
    OfNext(t, l, l.logID);
    OthersAddNone(WriteLine(t, l), b, l.logID);
    assert [] + Snaps(l) == Snaps(l);
    LineIsPictured(l);
  }

  lemma NumberedLinesArePictured(start: BankTables, log: seq<BankLine>, n: int)
    requires Wellformed(start, log) && 0 <= n < |log|
    ensures Pictures(Of(WriteLines(start, log).snaps, n + 1), log[n])
  {
    var a, b := log[..n], log[n + 1..];
    assert log == (a + [log[n]]) + b && log[n].logID == n + 1;
    forall x | x in a ensures x.logID != n + 1 { var i :| 0 <= i < n && a[i] == x; assert log[i].logID == i + 1; }
    forall x | x in b ensures x.logID != n + 1 {
      var i :| 0 <= i < |b| && b[i] == x;
      assert log[n + 1 + i].logID == n + 2 + i;
    }
    LinesArePictured(start, a, log[n], b);
  }

  /** The balance in an owner's newest snapshot, or the one before all of them. */
  function Newest(snaps: seq<Snap>, owner: int, before: Balance): Balance {
    if |snaps| == 0 then before
    else if Last(snaps).leg.owner == owner then Balance(Last(snaps).leg.freeNew, Last(snaps).leg.freezeNew)
    else Newest(snaps[..|snaps| - 1], owner, before)
  }

  lemma NewestAfterALine(snaps: seq<Snap>, l: BankLine, owner: int, before: Balance)
    ensures var news := News(l);
            Newest(snaps + Snaps(l), owner, before)
            == if owner in news then news[owner] else Newest(snaps, owner, before)
  {
    var more := snaps + Snaps(l);
    if |Snaps(l)| == 0 {
      assert more == snaps;
    } else if |Snaps(l)| == 1 {
      assert more[..|more| - 1] == snaps;
    } else {
      assert more[..|more| - 1] == snaps + [Snaps(l)[0]] && (snaps + [Snaps(l)[0]])[..|snaps|] == snaps;
    }
  }

  /** A balance row is the owner's newest snapshot. */
  lemma {:induction false} RowsAreNewest(start: BankTables, log: seq<BankLine>, owner: int)
    requires start.snaps == [] && owner in start.balances
    ensures var t := WriteLines(start, log);
            owner in t.balances && t.balances[owner] == Newest(t.snaps, owner, start.balances[owner])
  {
    if |log| > 0 {
      RowsAreNewest(start, log[..|log| - 1], owner);
      NewestAfterALine(WriteLines(start, log[..|log| - 1]).snaps, Last(log), owner, start.balances[owner]);
    }
  }

  // ---- tickets ----

  function TicketRowsOf(rows: seq<TicketRow>, symbol: seq<string>): seq<TicketRow> {
    if |rows| == 0 then []
    else TicketRowsOf(rows[..|rows| - 1], symbol) + (if Last(rows).symbol == symbol then [Last(rows)] else [])
  }

  /** One row for every ticket of the symbol, in order, with its price, quantity and amount. */
  ghost predicate Copies(rows: seq<TicketRow>, ts: seq<TicketLog>) {
    && |rows| == |ts|
    && forall k :: 0 <= k < |ts| ==>
         rows[k].price == ts[k].price && rows[k].quantity == ts[k].quantity && rows[k].amount == ts[k].amount
  }

  lemma TicketsAfterALine(rows: seq<TicketRow>, l: BankLine, symbol: seq<string>, ts: seq<TicketLog>)
    requires |l.tickets| <= 1 && Copies(TicketRowsOf(rows, symbol), ts)
    ensures Copies(TicketRowsOf(rows + Tickets(l), symbol),
                   ts + (if |l.tickets| == 1 && l.tickets[0].symbol == symbol then l.tickets else []))
  {
    if |l.tickets| == 1 {
      assert (rows + Tickets(l))[..|rows|] == rows;
    } else {
      assert rows + Tickets(l) == rows;
    }
  }

  /** The ticket rows of a symbol copy the tickets of the log. */
  lemma {:induction false} TicketsAreCopied(start: BankTables, log: seq<BankLine>, symbol: seq<string>)
    requires start.tickets == [] && forall i :: 0 <= i < |log| ==> |log[i].tickets| <= 1
    ensures Copies(TicketRowsOf(WriteLines(start, log).tickets, symbol), TicketsOf(log, symbol))
  {
    if |log| > 0 {
      var before, l := log[..|log| - 1], Last(log);
      assert forall i :: 0 <= i < |before| ==> before[i] == log[i];
      TicketsAreCopied(start, before, symbol);
      TicketsAfterALine(WriteLines(start, before).tickets, l, symbol, TicketsOf(before, symbol));
    }
  }

  // ---- every life of the writer ----

  /** Whatever the batches, failures and restarts of the writer, the tables hold the saved lines: their legs as
      snapshots, each owner's newest balance as the owner's row, and their tickets. */
  lemma SavedRowsTell(start: BankTables, events: seq<BankWriter.Event>, n: int, owner: int, symbol: seq<string>)
    requires start.tickets == [] && owner in start.balances
    requires var w := Live(Beginning(start), events);
             && Wellformed(start, w.log) && 0 <= n < w.db.saved
             && forall i :: 0 <= i < |w.log| ==> |w.log[i].tickets| <= 1
    ensures var w := Live(Beginning(start), events);
            && w.db.saved <= |w.log| && Pictures(Of(w.db.snaps, n + 1), w.log[n])
            && owner in w.db.balances && w.db.balances[owner] == Newest(w.db.snaps, owner, start.balances[owner])
            && Copies(TicketRowsOf(w.db.tickets, symbol), TicketsOf(w.log[..w.db.saved], symbol))
  {
    var w := Live(Beginning(start), events);
    TablesFollowTheLog(start, events);
    SavedPrefixTells(start, w.log, w.db.saved, n, owner, symbol);
  }

  lemma SavedPrefixTells(start: BankTables, log: seq<BankLine>, saved: nat, n: int, owner: int, symbol: seq<string>)
    requires start.tickets == [] && owner in start.balances && Wellformed(start, log) && 0 <= n < saved <= |log|
    requires forall i :: 0 <= i < |log| ==> |log[i].tickets| <= 1
    ensures var db := WriteLines(start, log[..saved]);
            && Pictures(Of(db.snaps, n + 1), log[n])
            && owner in db.balances && db.balances[owner] == Newest(db.snaps, owner, start.balances[owner])
            && Copies(TicketRowsOf(db.tickets, symbol), TicketsOf(log[..saved], symbol))
  {
    WellformedPrefix(start, log, saved);
    NumberedLinesArePictured(start, log[..saved], n);
    RowsAreNewest(start, log[..saved], owner);
    TicketsAreCopied(start, log[..saved], symbol);
  }

  // ---- what fits, and what is read back ----

  ghost predicate SnapFits(s: Snap) {
    InRange(s.leg.freeChange) && InRange(s.leg.freezeChange) && InRange(s.leg.freeNew) && InRange(s.leg.freezeNew)
  }

  ghost predicate RowFits(r: TicketRow) {
    InRange(r.price) && InRange(r.quantity) && InRange(r.amount)
  }

  lemma LineNumbersFit(l: BankLine)
    requires LineInRange(l)
    ensures (forall s :: s in Snaps(l) ==> SnapFits(s)) && (forall r :: r in Tickets(l) ==> RowFits(r))
  {
    forall s | s in Snaps(l) ensures SnapFits(s) { assert s.leg in Read(l) && LegInRange(s.leg); }
  }

  lemma {:induction false} FittingLinesFit(start: BankTables, log: seq<BankLine>)
    requires start.snaps == [] && start.tickets == [] && Fit(log, |log|)
    ensures forall s :: s in WriteLines(start, log).snaps ==> SnapFits(s)
    ensures forall r :: r in WriteLines(start, log).tickets ==> RowFits(r)
  {
    if |log| > 0 {
      var before := log[..|log| - 1];
      assert forall i :: 0 <= i < |before| ==> before[i] == log[i];
      FittingLinesFit(start, before);
      LineNumbersFit(Last(log));
    }
  }

  /** Where no transaction commits with a number that is too large, no row ever holds one. */
  lemma SavedNumbersFit(start: BankTables, events: seq<BankWriter.Event>)
    requires start.tickets == [] && Wellformed(start, Live(Beginning(start), events).log) && Honest(start, events)
    ensures var db := Live(Beginning(start), events).db;
            (forall s :: s in db.snaps ==> SnapFits(s)) && (forall r :: r in db.tickets ==> RowFits(r))
  {
    var w := Live(Beginning(start), events);
    TablesFollowTheLog(start, events);
    SavedLinesFit(start, events);
    FittingLinesFit(start, w.log[..w.db.saved]);
  }

  /** Read back, every number of a row is the one written, rounded to the nearest its column can hold. */
  lemma {:induction false} SnapsAreHeld(rows: seq<Snap>, i: int)
    requires 0 <= i < |rows|
    ensures |HeldSnaps(rows)| == |rows|
    ensures var held, s := HeldSnaps(rows)[i], rows[i];
            held == Snap(s.logID, s.logIndex, Leg(s.leg.owner, Stored(s.leg.freeChange), Stored(s.leg.freezeChange),
                                                  Stored(s.leg.freeNew), Stored(s.leg.freezeNew)))
  {
    HeldSnapsCount(rows);
    if i < |rows| - 1 { SnapsAreHeld(rows[..|rows| - 1], i); } else { HeldSnapsCount(rows[..|rows| - 1]); }
  }

  lemma {:induction false} HeldSnapsCount(rows: seq<Snap>)
    ensures |HeldSnaps(rows)| == |rows|
  {
    if |rows| > 0 { HeldSnapsCount(rows[..|rows| - 1]); }
  }

  lemma {:induction false} HeldTicketsCount(rows: seq<TicketRow>)
    ensures |HeldTickets(rows)| == |rows|
  {
    if |rows| > 0 { HeldTicketsCount(rows[..|rows| - 1]); }
  }

  lemma {:induction false} TicketsAreHeld(rows: seq<TicketRow>, i: int)
    requires 0 <= i < |rows|
    ensures |HeldTickets(rows)| == |rows|
    ensures var held, r := HeldTickets(rows)[i], rows[i];
            held == TicketRow(r.symbol, r.logID, Stored(r.price), Stored(r.quantity), Stored(r.amount))
  {
    HeldTicketsCount(rows);
    if i < |rows| - 1 { TicketsAreHeld(rows[..|rows| - 1], i); } else { HeldTicketsCount(rows[..|rows| - 1]); }
  }
}
