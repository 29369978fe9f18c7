/** The database tables of the matching engine, written line by line and in batches. */
module Tables {
  import opened Fixed
  import opened Matching

  datatype Option<T> = None | Some(value: T)

  /** A row of the orders table; `deleted` stands for status -1. */
  datatype Row = Row(id: int, logID: int, ticketID: int, owner: int, side: int, kind: int, feeLevel: int,
                     price: real, origQty: real, quantity: real, amount: real, trades: int, deleted: bool)

  datatype Trade = Trade(logID: int, askOrder: int, bidOrder: int, asker: int, bider: int,
                         price: real, quantity: real, amount: real)

  /** The orders by primary key, the trades, and the four key-value rows of this engine. */
  datatype Tables = Tables(orders: map<int, Row>, trades: seq<Trade>,
                           savedLogID: int, orderID: int, askTicket: int, bidTicket: int)

  const EMPTY := Tables(map[], [], 0, 0, 0, 0)

  function RowOf(l: Line): Row
    requires l.OrderLine?
  {
    var quantity := IntToDecimal(l.quantity);
    Row(l.id, l.logID, l.ticketID, l.owner, l.side, l.kind, l.feeRate,
        IntToDecimal(l.price), quantity, quantity, quantity, 0, false)
  }

  function TradeOf(l: Line): Trade
    requires l.MatchLine?
  {
    Trade(l.logID, l.askID, l.bidID, l.asker, l.bider,
          IntToDecimal(l.price), IntToDecimal(l.quantity), IntToDecimal(l.amount))
  }

  function Max(a: int, b: int): int {
    if a < b then b else a
  }

  // ---- one line at a time ----

  /** One match seen by one order: its new remaining quantity and amount, one more trade, gone if nothing remains. */
  function FillRow(orders: map<int, Row>, id: int, quantity: real, amount: real): map<int, Row> {
    if id !in orders then orders
    else
      var row := orders[id];
      orders[id := row.(quantity := quantity, amount := amount, trades := row.trades + 1,
                        deleted := row.deleted || quantity == 0.0)]
  }

  function WriteLine(t: Tables, l: Line): Tables {
    match l
    case OrderLine(logID, id, ticketID, _, _, side, _, _, _) =>
      t.(orders := t.orders[id := RowOf(l)], savedLogID := logID, orderID := id,
         askTicket := if side == ASK then ticketID else t.askTicket,
         bidTicket := if side == ASK then t.bidTicket else ticketID)
    case MatchLine(logID, _, askID, _, askQuantity, _, bidID, _, bidQuantity, _, _, amount) =>
      var asks := FillRow(t.orders, askID, IntToDecimal(askQuantity), IntToDecimal(amount));
      t.(orders := FillRow(asks, bidID, IntToDecimal(bidQuantity), IntToDecimal(amount)),
         trades := t.trades + [TradeOf(l)], savedLogID := logID)
  }

  function WriteLines(t: Tables, log: seq<Line>): Tables {
    if log == [] then t else WriteLine(WriteLines(t, log[..|log| - 1]), Last(log))
  }

  // ---- a batch ----

  /** What a batch will do to one order: last quantity, last amount, number of trades. */
  datatype Update = Update(quantity: real, amount: real, trades: int)

  datatype Batch = Batch(newOrders: seq<Row>, newTrades: seq<Trade>, updates: map<int, Update>,
                         logID: int, orderID: int, askTicket: int, bidTicket: int)

  const NOTHING := Batch([], [], map[], 0, 0, 0, 0)

  function Merge(updates: map<int, Update>, id: int, quantity: real, amount: real): map<int, Update> {
    if id !in updates then updates[id := Update(quantity, amount, 1)]
    else updates[id := Update(quantity, amount, updates[id].trades + 1)]
  }

  function Collect(b: Batch, l: Line): Batch {
    match l
    case OrderLine(logID, id, ticketID, _, _, side, _, _, _) =>
      b.(newOrders := b.newOrders + [RowOf(l)], logID := logID, orderID := id,
         askTicket := if side == ASK then ticketID else b.askTicket,
         bidTicket := if side == ASK then b.bidTicket else ticketID)
    case MatchLine(logID, _, askID, _, askQuantity, _, bidID, _, bidQuantity, _, _, amount) =>
      var asks := Merge(b.updates, askID, IntToDecimal(askQuantity), IntToDecimal(amount));
      b.(newTrades := b.newTrades + [TradeOf(l)],
         updates := Merge(asks, bidID, IntToDecimal(bidQuantity), IntToDecimal(amount)), logID := logID)
  }

  /** The batch made of the lines above `saved`; lines at or below it are only counted as seen. */
  function BatchOf(saved: int, lines: seq<Line>): Batch {
    if lines == [] then NOTHING
    else
      var b, l := BatchOf(saved, lines[..|lines| - 1]), Last(lines);
      if l.logID <= saved then b.(logID := l.logID) else Collect(b, l)
  }

  predicate IsEmpty(b: Batch) {
    b.newOrders == [] && b.newTrades == [] && b.updates == map[]
  }

  /** Insert rows one by one; a primary key that is taken fails the whole insertion. */
  function InsertAll(orders: map<int, Row>, rows: seq<Row>): Option<map<int, Row>> {
    if rows == [] then Some(orders)
    else
      match InsertAll(orders, rows[..|rows| - 1])
      case None => None
      case Some(m) => if Last(rows).id in m then None else Some(m[Last(rows).id := Last(rows)])
  }

  function UpdateRow(row: Row, u: Update): Row {
    row.(quantity := u.quantity, amount := u.amount, trades := row.trades + u.trades,
         deleted := row.deleted || u.quantity == 0.0)
  }

  function UpdateAll(orders: map<int, Row>, updates: map<int, Update>): map<int, Row> {
    map id | id in orders :: if id in updates then UpdateRow(orders[id], updates[id]) else orders[id]
  }

  /** The transaction of one batch, or None when an insertion violates a key. */
  function Commit(t: Tables, b: Batch): Option<Tables> {
    match InsertAll(t.orders, b.newOrders)
    case None => None
    case Some(orders) =>
      Some(Tables(UpdateAll(orders, b.updates), t.trades + b.newTrades,
                  Max(t.savedLogID, b.logID),
                  if b.orderID > 0 then Max(t.orderID, b.orderID) else t.orderID,
                  if b.askTicket > 0 then Max(t.askTicket, b.askTicket) else t.askTicket,
                  if b.bidTicket > 0 then Max(t.bidTicket, b.bidTicket) else t.bidTicket))
  }

  // ---- what the engine guarantees about its log ----

  /** A line the tables are ready for: a new order has fresh, larger numbers; a match names two live orders. */
  ghost predicate Fits(t: Tables, l: Line) {
    && l.logID > t.savedLogID >= 0
    && match l
       case OrderLine(_, id, ticketID, _, _, side, _, _, _) =>
         && id !in t.orders && id > t.orderID >= 0
         && ticketID > (if side == ASK then t.askTicket else t.bidTicket) >= 0
       case MatchLine(_, _, askID, _, _, _, bidID, _, _, _, _, _) =>
         && askID in t.orders && !t.orders[askID].deleted
         && bidID in t.orders && !t.orders[bidID].deleted && askID != bidID
  }

  ghost predicate AllFit(t: Tables, log: seq<Line>) {
    log == [] || (AllFit(t, log[..|log| - 1]) && Fits(WriteLines(t, log[..|log| - 1]), Last(log)))
  }

  // ---- what holds of any batch ----

  /** Rows can be inserted exactly when their keys are new and differ; then each is there, and no other row changes. */
  lemma {:induction false} KeysAreUnique(orders: map<int, Row>, rows: seq<Row>)
    ensures InsertAll(orders, rows).Some? <==>
            && (forall i :: 0 <= i < |rows| ==> rows[i].id !in orders)
            && (forall i, j :: 0 <= i < j < |rows| ==> rows[i].id != rows[j].id)
    ensures InsertAll(orders, rows).Some? ==>
              var m := InsertAll(orders, rows).value;
              && (forall i :: 0 <= i < |rows| ==> rows[i].id in m && m[rows[i].id] == rows[i])
              && (forall id :: id in orders ==> id in m && m[id] == orders[id])
              && (forall id :: id in m ==> id in orders || exists i :: 0 <= i < |rows| && rows[i].id == id)
  {
    if rows != [] {
      var before, n := rows[..|rows| - 1], |rows| - 1;
      KeysAreUnique(orders, before);
      forall i | 0 <= i < n ensures before[i] == rows[i] {}
    }
  }

  /** Whatever a transaction writes, the saved log ID, the order ID and the ticket IDs never go back. */
  lemma CountersNeverGoBack(t: Tables, b: Batch)
    ensures var c := Commit(t, b);
            c.Some? ==>
              && c.value.savedLogID == Max(t.savedLogID, b.logID) && c.value.orderID >= t.orderID
              && c.value.askTicket >= t.askTicket && c.value.bidTicket >= t.bidTicket
  {}

  // ---- the batch refines the lines ----

  /** A batch only updates rows that are there once its insertions are done, and agrees with the counters. */
  ghost predicate Commits(t: Tables, b: Batch, t': Tables) {
    && Commit(t, b) == Some(t')
    && b.updates.Keys <= t'.orders.Keys
    && (b == NOTHING || t'.savedLogID == b.logID > t.savedLogID >= 0)
    && b.logID >= 0 && b.orderID >= 0 && b.askTicket >= 0 && b.bidTicket >= 0
  }

  lemma UpdatedKeys(orders: map<int, Row>, updates: map<int, Update>)
    ensures UpdateAll(orders, updates).Keys == orders.Keys
  {}

  lemma CollectOrder(t: Tables, b: Batch, t': Tables, l: Line)
    requires Commits(t, b, t') && Fits(t', l) && l.OrderLine? && t.savedLogID >= 0
    ensures Commits(t, Collect(b, l), WriteLine(t', l))
  {
    var orders := InsertAll(t.orders, b.newOrders).value;
    var row := RowOf(l);
    UpdatedKeys(orders, b.updates);
    assert (b.newOrders + [row])[..|b.newOrders|] == b.newOrders;
    assert InsertAll(t.orders, b.newOrders + [row]) == Some(orders[l.id := row]);
    assert UpdateAll(orders[l.id := row], b.updates) == UpdateAll(orders, b.updates)[l.id := row];
  }

  /** Merging one more match into a batch does what writing it on its own does, except when the batch has filled the
      order and the match would leave something of it again. */
  lemma MergeFills(orders: map<int, Row>, updates: map<int, Update>, id: int, quantity: real, amount: real)
    requires id in orders && updates.Keys <= orders.Keys
    ensures UpdateAll(orders, Merge(updates, id, quantity, amount)) ==
            FillRow(UpdateAll(orders, updates), id, quantity, amount)
            <==> !UpdateAll(orders, updates)[id].deleted || orders[id].deleted || quantity == 0.0
  {
    var merged := UpdateAll(orders, Merge(updates, id, quantity, amount));
    var filled := FillRow(UpdateAll(orders, updates), id, quantity, amount);
    assert forall o :: o in orders && o != id ==> merged[o] == filled[o];
    assert merged[id] == filled[id] <==> merged[id].deleted == filled[id].deleted;
    assert merged[id] == filled[id] ==> merged == filled;
  }

  lemma CollectMatch(t: Tables, b: Batch, t': Tables, l: Line)
    requires Commits(t, b, t') && Fits(t', l) && l.MatchLine? && t.savedLogID >= 0
    ensures Commits(t, Collect(b, l), WriteLine(t', l))
  {
    var orders := InsertAll(t.orders, b.newOrders).value;
    UpdatedKeys(orders, b.updates);
    var amount := IntToDecimal(l.amount);
    var asks := Merge(b.updates, l.askID, IntToDecimal(l.askQuantity), amount);
    MergeFills(orders, b.updates, l.askID, IntToDecimal(l.askQuantity), amount);
    UpdatedKeys(orders, asks);
    assert UpdateAll(orders, asks)[l.bidID] == UpdateAll(orders, b.updates)[l.bidID];
    MergeFills(orders, asks, l.bidID, IntToDecimal(l.bidQuantity), amount);
    assert t.trades + (b.newTrades + [TradeOf(l)]) == (t.trades + b.newTrades) + [TradeOf(l)];
  }

  /** Writing new lines in one transaction does what writing them one at a time does. */
  lemma {:induction false} BatchRefinesLines(t: Tables, lines: seq<Line>)
    requires AllFit(t, lines) && t.savedLogID >= 0
    ensures Commits(t, BatchOf(t.savedLogID, lines), WriteLines(t, lines))
    ensures lines != [] ==> !IsEmpty(BatchOf(t.savedLogID, lines))
    ensures WriteLines(t, lines).savedLogID >= t.savedLogID
  {
    if lines == [] {
      assert UpdateAll(t.orders, map[]) == t.orders && t.trades + [] == t.trades;
    } else {
      var before, l := lines[..|lines| - 1], Last(lines);
      BatchRefinesLines(t, before);
      var b, t' := BatchOf(t.savedLogID, before), WriteLines(t, before);
      if l.OrderLine? { CollectOrder(t, b, t', l); } else { CollectMatch(t, b, t', l); }
    }
  }

  // Lines that are already saved change nothing in a batch but the last log ID it has seen.
  lemma {:induction false} SavedLinesAreSkipped(saved: int, seen: seq<Line>, news: seq<Line>)
    requires forall i :: 0 <= i < |seen| ==> seen[i].logID <= saved
    requires forall i :: 0 <= i < |news| ==> news[i].logID > saved
    ensures news != [] ==> BatchOf(saved, seen + news) == BatchOf(saved, news)
    ensures IsEmpty(BatchOf(saved, seen))
    ensures BatchOf(saved, seen).(logID := 0) == NOTHING
  {
    if news == [] {
      if seen != [] {
        assert seen[..|seen| - 1] + [] == seen[..|seen| - 1];
        SavedLinesAreSkipped(saved, seen[..|seen| - 1], []);
      }
    } else {
      var last := Last(news);
      assert (seen + news)[..|seen + news| - 1] == seen + news[..|news| - 1];
      SavedLinesAreSkipped(saved, seen, news[..|news| - 1]);
      if |news| == 1 {
        assert seen + [] == seen;
        assert news[..0] == [];
      }
    }
  }
}
