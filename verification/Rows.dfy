/** What the rows of the engine's tables hold, in terms of the log they were written from. */
module Rows {
  import opened Books
  import opened Fixed
  import opened Matching
  import opened Tables
  import opened Accounting
  import Recovery
  import Writer

  /** The decimal is exactly the scaled integer. */
  predicate Exactly(d: real, i: int) {
    d * 1_000_000_000_000.0 == i as real
  }

  // ---- trades ----

  /** The matches of a log, in order. */
  function Matches(log: seq<Line>): seq<Line> {
    if log == [] then [] else Matches(log[..|log| - 1]) + (if Last(log).MatchLine? then [Last(log)] else [])
  }

  /** The row names both orders and both owners of the match, and its price, quantity and amount. */
  ghost predicate Reports(row: Trade, l: Line) {
    && l.MatchLine? && row.logID == l.logID && row.askOrder == l.askID && row.bidOrder == l.bidID
    && row.asker == l.asker && row.bider == l.bider
    && Exactly(row.price, l.price) && Exactly(row.quantity, l.quantity) && Exactly(row.amount, l.amount)
  }

  ghost predicate AllReport(rows: seq<Trade>, matches: seq<Line>) {
    |rows| == |matches| && forall j :: 0 <= j < |rows| ==> Reports(rows[j], matches[j])
  }

  /** One trade row for every match, in log order. */
  lemma {:induction false} TradeRows(log: seq<Line>)
    ensures AllReport(WriteLines(EMPTY, log).trades, Matches(log))
  {
    if log != [] { TradeRows(log[..|log| - 1]); }
  }

  lemma {:induction false} MatchesAreLines(log: seq<Line>, j: int) returns (i: int)
    requires 0 <= j < |Matches(log)|
    ensures 0 <= i < |log| && log[i].MatchLine? && log[i] == Matches(log)[j]
  {
    var before := log[..|log| - 1];
    if j < |Matches(before)| { i := MatchesAreLines(before, j); } else { i := |log| - 1; }
  }

  /** Every trade row of every log is of an ask and a bid placed before it, at the limit of the one placed first, and
      its amount is the price times the quantity, rounded down. */
  lemma TradeRowsAreFair(log: seq<Line>, j: int) returns (i: int, a: int, b: int)
    requires Legal(START, log) && 0 <= j < |Matches(log)|
    ensures |WriteLines(EMPTY, log).trades| == |Matches(log)|
    ensures 0 <= a < i < |log| && 0 <= b < i && log[a].OrderLine? && log[b].OrderLine?
    ensures var row := WriteLines(EMPTY, log).trades[j];
            && row.logID == i + 1 && row.askOrder == log[a].id && row.bidOrder == log[b].id
            && log[a].side == ASK && log[b].side == BID && row.asker == log[a].owner && row.bider == log[b].owner
            && Exactly(row.price, if a < b then log[a].price else log[b].price)
            && row.amount <= row.price * row.quantity < row.amount + 0.000000000001
  {
    TradeRows(log);
    i := MatchesAreLines(log, j);
    LogIDsAreConsecutive(log);
    TradesAreFair(log, i);
    a, b :| FairTrade(log, i, a, b);
    var row := WriteLines(EMPTY, log).trades[j];
    assert Reports(row, log[i]);
    MatchesRoundDown(log, i);
    RoundedAmount(row, log[i]);
  }

  lemma MatchesRoundDown(log: seq<Line>, i: int)
    requires Legal(START, log) && 0 <= i < |log| && log[i].MatchLine?
    ensures log[i].amount == Amount(log[i].price, log[i].quantity)
  {
    LegalPrefix(START, log, i + 1);
    assert log[..i + 1][..i] == log[..i] && Last(log[..i + 1]) == log[i];
  }

  lemma RoundedAmount(row: Trade, l: Line)
    requires Reports(row, l) && l.amount == Amount(l.price, l.quantity)
    ensures row.amount <= row.price * row.quantity < row.amount + 0.000000000001
  {
    AmountsRoundDown(l.price, l.quantity);
    var e := 1_000_000_000_000.0;
    assert row.price * e * (row.quantity * e) == (l.price * l.quantity) as real;
    assert row.price * e * (row.quantity * e) == row.price * row.quantity * e * e;
    assert l.amount as real * e <= row.price * row.quantity * e * e < (l.amount as real + 1.0) * e;
  }

  // ---- orders ----

  predicate Names(l: Line, id: int) {
    l.MatchLine? && (l.askID == id || l.bidID == id)
  }

  /** What a log says is left of an order: what its last line says. */
  function Left(log: seq<Line>, id: int): int {
    if log == [] then 0
    else
      var l := Last(log);
      if l.OrderLine? && l.id == id then l.quantity
      else if l.MatchLine? && l.askID == id then l.askQuantity
      else if l.MatchLine? && l.bidID == id then l.bidQuantity
      else Left(log[..|log| - 1], id)
  }

  /** The amount of its last match, or before the first one its quantity. */
  function LastAmount(log: seq<Line>, id: int): int {
    if log == [] then 0
    else
      var l := Last(log);
      if l.OrderLine? && l.id == id then l.quantity
      else if Names(l, id) then l.amount
      else LastAmount(log[..|log| - 1], id)
  }

  /** The row of the order placed by line `k`. */
  ghost predicate Tells(log: seq<Line>, k: int, row: Row)
    requires 0 <= k < |log| && log[k].OrderLine?
  {
    var l := log[k];
    && row.id == l.id && row.logID == l.logID && row.ticketID == l.ticketID && row.owner == l.owner
    && row.side == l.side && row.kind == l.kind && row.feeLevel == l.feeRate
    && Exactly(row.price, l.price) && Exactly(row.origQty, l.quantity)
    && Exactly(row.quantity, Left(log, l.id)) && Exactly(row.amount, LastAmount(log, l.id))
    && row.trades == SumLog(log, Trades(l.id))
  }

  ghost predicate AllTell(log: seq<Line>, orders: map<int, Row>) {
    forall k :: 0 <= k < |log| && log[k].OrderLine? ==> log[k].id in orders && Tells(log, k, orders[log[k].id])
  }

  lemma OneMore(log: seq<Line>, l: Line, id: int)
    ensures SumLog(log + [l], Trades(id)) == SumLog(log, Trades(id)) + (if Names(l, id) then 1 else 0)
    ensures Left(log + [l], id) == (if l.OrderLine? && l.id == id then l.quantity
                                    else if l.MatchLine? && l.askID == id then l.askQuantity
                                    else if l.MatchLine? && l.bidID == id then l.bidQuantity
                                    else Left(log, id))
    ensures LastAmount(log + [l], id) == (if l.OrderLine? && l.id == id then l.quantity
                                          else if Names(l, id) then l.amount
                                          else LastAmount(log, id))
  {
    assert (log + [l])[..|log|] == log;
  }

  // An order that is not there yet has not been matched.
  lemma {:induction false} NotYetNamed(log: seq<Line>, id: int)
    requires AllFit(EMPTY, log) && id !in WriteLines(EMPTY, log).orders
    ensures SumLog(log, Trades(id)) == 0
  {
    if log != [] { NotYetNamed(log[..|log| - 1], id); }
  }

  lemma RowGoesOn(log: seq<Line>, k: int, t: Tables, l: Line)
    requires 0 <= k < |log| && log[k].OrderLine? && log[k].id in t.orders && Tells(log, k, t.orders[log[k].id])
    requires Fits(t, l)
    ensures var t' := WriteLine(t, l); log[k].id in t'.orders && Tells(log + [l], k, t'.orders[log[k].id])
  {
    OneMore(log, l, log[k].id);
  }

  lemma NewRow(log: seq<Line>, t: Tables, l: Line)
    requires l.OrderLine? && SumLog(log, Trades(l.id)) == 0
    ensures Tells(log + [l], |log|, WriteLine(t, l).orders[l.id])
  {
    OneMore(log, l, l.id);
  }

  /** Every order has a row that tells its line, what is left of it, its last amount and the number of its trades. */
  lemma {:induction false} OrderRows(log: seq<Line>)
    requires AllFit(EMPTY, log)
    ensures AllTell(log, WriteLines(EMPTY, log).orders)
  {
    if log != [] {
      var before, l := log[..|log| - 1], Last(log);
      var t := WriteLines(EMPTY, before);
      OrderRows(before);
      assert log == before + [l];
      forall k | 0 <= k < |log| && log[k].OrderLine?
        ensures var orders := WriteLines(EMPTY, log).orders; log[k].id in orders && Tells(log, k, orders[log[k].id])
      {
        if k < |before| {
          assert before[k] == log[k];
          RowGoesOn(before, k, t, l);
        } else {
          NotYetNamed(before, l.id);
          NewRow(before, t, l);
        }
      }
    }
  }

  /** What the trade rows say was traded of an order. */
  function Traded(rows: seq<Trade>, id: int): real {
    if rows == [] then 0.0
    else
      var row := rows[|rows| - 1];
      Traded(rows[..|rows| - 1], id) + (if row.askOrder == id then row.quantity else 0.0)
                                     + (if row.bidOrder == id then row.quantity else 0.0)
  }

  lemma {:induction false} TradedIsMatched(rows: seq<Trade>, matches: seq<Line>, id: int)
    requires AllReport(rows, matches)
    ensures Exactly(Traded(rows, id), SumLog(matches, Filled(id)))
  {
    if rows != [] {
      var n := |rows| - 1;
      assert AllReport(rows[..n], matches[..n]);
      TradedIsMatched(rows[..n], matches[..n], id);
      assert Reports(rows[n], matches[n]);
    }
  }

  lemma {:induction false} OnlyMatchesFill(log: seq<Line>, id: int)
    ensures SumLog(Matches(log), Filled(id)) == SumLog(log, Filled(id))
  {
    if log != [] {
      var before, l := log[..|log| - 1], Last(log);
      OnlyMatchesFill(before, id);
      if l.MatchLine? {
        assert (Matches(before) + [l])[..|Matches(before)|] == Matches(before);
      } else {
        assert Matches(before) + [] == Matches(before);
      }
    }
  }

  // A row is deleted exactly when its order rests in no book.
  lemma DeletedIsGone(t: Tables, s: State, id: int)
    requires Recovery.Agree(t, s) && id in t.orders
    ensures t.orders[id].deleted <==> !HasID(s.asks, id) && !HasID(s.bids, id)
  {
    var o := Recovery.OrderInRow(t.orders[id]);
    if !t.orders[id].deleted {
      assert Recovery.Rests(t.orders, o, t.orders[id].side) && (o in s.asks || o in s.bids);
    } else {
      assert forall i :: 0 <= i < |s.asks| ==> s.asks[i] in s.asks && Recovery.Rests(t.orders, s.asks[i], ASK);
      assert forall i :: 0 <= i < |s.bids| ==> s.bids[i] in s.bids && Recovery.Rests(t.orders, s.bids[i], BID);
    }
  }

  lemma RestIsWhatWasNotTraded(placed: real, traded: real, quantity: int, filled: int, rest: int)
    requires Exactly(placed, quantity) && Exactly(traded, filled) && quantity == filled + rest
    ensures Exactly(placed - traded, rest)
  {}

  /** The log of any run: an order's row says what was placed, and what is left; the trade rows add up to the
      difference; and the row is gone from the next load exactly when the order rests in no book. */
  lemma RowsAddUp(log: seq<Line>, k: int)
    requires Legal(START, log) && 0 <= k < |log| && log[k].OrderLine?
    ensures var t, s, id := WriteLines(EMPTY, log), ApplyLines(START, log), log[k].id;
            && id in t.orders && Tells(log, k, t.orders[id])
            && Exactly(t.orders[id].origQty - Traded(t.trades, id),
                       Sum(s.asks, QuantityOf(id)) + Sum(s.bids, QuantityOf(id)))
            && (t.orders[id].deleted <==> !HasID(s.asks, id) && !HasID(s.bids, id))
  {
    var t, s, id := WriteLines(EMPTY, log), ApplyLines(START, log), log[k].id;
    Recovery.LegalLogsAgree(log);
    OrderRows(log);
    DeletedIsGone(t, s, id);
    TradeRows(log);
    TradedIsMatched(t.trades, Matches(log), id);
    OnlyMatchesFill(log, id);
    QuantityIsConserved(log, id);
    PlacedOnce(log, k);
    RestIsWhatWasNotTraded(t.orders[id].origQty, Traded(t.trades, id), log[k].quantity, SumLog(log, Filled(id)),
                           Sum(s.asks, QuantityOf(id)) + Sum(s.bids, QuantityOf(id)));
  }

  lemma {:induction false} PlacedOnce(log: seq<Line>, k: int)
    requires Legal(START, log) && 0 <= k < |log| && log[k].OrderLine?
    ensures SumLog(log, Placed(log[k].id)) == log[k].quantity
  {
    var before, n := log[..|log| - 1], |log| - 1;
    OrderIDsGrow(log);
    if k < n {
      PlacedOnce(before, k);
    } else {
      NotPlaced(before, log[k].id);
    }
  }

  lemma {:induction false} NotPlaced(log: seq<Line>, id: int)
    requires forall i :: 0 <= i < |log| && log[i].OrderLine? ==> log[i].id != id
    ensures SumLog(log, Placed(id)) == 0
  {
    if log != [] {
      var before := log[..|log| - 1];
      assert forall i :: 0 <= i < |before| ==> before[i] == log[i];
      NotPlaced(before, id);
      assert Last(log) == log[|log| - 1];
    }
  }

  /** The same of the tables a writer leaves, whatever its batches, failures and restarts: they are the rows of the
      lines saved so far. */
  lemma WrittenRowsAddUp(events: seq<Writer.Event>, k: int)
    requires var w := Writer.Live(Writer.BEGIN, events);
             Legal(START, w.log) && 0 <= k < w.db.savedLogID && k < |w.log| && w.log[k].OrderLine?
    ensures var w := Writer.Live(Writer.BEGIN, events);
            && w.db.savedLogID <= |w.log|
            && var saved, id := w.log[..w.db.savedLogID], w.log[k].id;
               var s := ApplyLines(START, saved);
               && AllReport(w.db.trades, Matches(saved)) && id in w.db.orders && Tells(saved, k, w.db.orders[id])
               && Exactly(w.db.orders[id].origQty - Traded(w.db.trades, id),
                          Sum(s.asks, QuantityOf(id)) + Sum(s.bids, QuantityOf(id)))
               && (w.db.orders[id].deleted <==> !HasID(s.asks, id) && !HasID(s.bids, id))
  {
    var w := Writer.Live(Writer.BEGIN, events);
    Recovery.LegalLogsAreWellformed(w.log);
    Writer.TablesFollowTheLog(events);
    LegalPrefix(START, w.log, w.db.savedLogID);
    TradeRows(w.log[..w.db.savedLogID]);
    RowsAddUp(w.log[..w.db.savedLogID], k);
  }
}
