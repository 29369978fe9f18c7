/** Restart of the engine: the books come back from the tables, and the log continues as if nothing had happened. */
module Recovery {
  import opened Books
  import opened Fixed
  import opened Matching
  import opened Tables
  import Accounting
  import Writer

  function OrderInRow(r: Row): Order {
    Order(r.id, r.ticketID, r.owner, DecimalToInt(r.price), DecimalToInt(r.quantity))
  }

  ghost predicate Rests(orders: map<int, Row>, o: Order, side: int) {
    o.id in orders && !orders[o.id].deleted && orders[o.id].side == side && OrderInRow(orders[o.id]) == o
  }

  /** The tables and the engine's memory say the same thing. */
  ghost predicate Agree(t: Tables, s: State) {
    && t.savedLogID == s.logID >= 0 && t.orderID == s.orderID
    && t.askTicket == s.askTicket >= 0 && t.bidTicket == s.bidTicket >= 0
    && (forall id :: id in t.orders ==>
          1 <= id <= s.orderID && t.orders[id].id == id && (t.orders[id].side == ASK || t.orders[id].side == BID))
    && (forall o :: o in s.asks <==> Rests(t.orders, o, ASK))
    && (forall o :: o in s.bids <==> Rests(t.orders, o, BID))
  }

  lemma OrderAgrees(t: Tables, s: State, l: Line)
    requires Agree(t, s) && Inv(s) && LegalLine(s, l) && l.OrderLine?
    ensures Fits(t, l) && Agree(WriteLine(t, l), ApplyLine(s, l))
  {
    RoundTrip(l.price);
    RoundTrip(l.quantity);
    Accounting.NewOrderOriginates(s, l);
    forall i | 0 <= i < |s.asks| ensures s.asks[i].id != l.id { assert s.asks[i] in s.asks; }
    forall i | 0 <= i < |s.bids| ensures s.bids[i].id != l.id { assert s.bids[i] in s.bids; }
    InsertContents(s.asks, OrderIn(l));
    InsertContents(s.bids, OrderIn(l));
  }

  // Who rests after a fill: everyone else, and the filled order if anything remains of it.
  lemma RestingAfterFill(b: Book, best: Order, b': Book, q: int, orders: map<int, Row>, side: int, amount: real)
    requires Sorted(b) && b != [] && forall o :: o in b <==> Rests(orders, o, side)
    requires (best == b[0] && b' == (if q == 0 then [] else [best.(quantity := q)]) + b[1..])
          || (best == Last(b) && b' == b[..|b| - 1] + (if q == 0 then [] else [best.(quantity := q)]))
    requires forall id :: id in orders ==> orders[id].id == id
    ensures forall o :: o in b' <==> Rests(FillRow(orders, best.id, IntToDecimal(q), amount), o, side)
  {
    RoundTrip(q);
    RoundTrip(0);
    var orders' := FillRow(orders, best.id, IntToDecimal(q), amount);
    assert best in b;
    forall o ensures o in b' <==> Rests(orders', o, side) {
      MembersAfterFill(b, best, b', q, o);
      if o.id != best.id { assert Rests(orders', o, side) <==> Rests(orders, o, side); }
    }
  }

  lemma MembersAfterFill(b: Book, best: Order, b': Book, q: int, o: Order)
    requires Sorted(b) && b != []
    requires (best == b[0] && b' == (if q == 0 then [] else [best.(quantity := q)]) + b[1..])
          || (best == Last(b) && b' == b[..|b| - 1] + (if q == 0 then [] else [best.(quantity := q)]))
    ensures o in b' <==> (o in b && o.id != best.id) || (q != 0 && o == best.(quantity := q))
  {
    if o in b {
      var i :| 0 <= i < |b| && b[i] == o;
      if best == b[0] {
        if i > 0 { assert b[1..][i - 1] == o; }
      } else if i < |b| - 1 {
        assert b[..|b| - 1][i] == o;
      }
    }
  }

  // A fill leaves every row of another order, and of the other side, as it was.
  lemma OtherSideUntouched(orders: map<int, Row>, id: int, q: real, amount: real, o: Order, side: int)
    requires id in orders && orders[id].side != side
    ensures Rests(FillRow(orders, id, q, amount), o, side) <==> Rests(orders, o, side)
  {}

  lemma MatchAgrees(t: Tables, s: State)
    requires Agree(t, s) && Inv(s) && Crossed(s)
    ensures Fits(t, MatchOf(s)) && Agree(WriteLine(t, MatchOf(s)), ApplyLine(s, MatchOf(s)))
  {
    var l, s' := MatchOf(s), ApplyLine(s, MatchOf(s));
    var amount := IntToDecimal(l.amount);
    MatchTouchesTheBest(s);
    assert s.asks[0] in s.asks && Last(s.bids) in s.bids;
    var orders := t.orders;
    var orders1 := FillRow(orders, l.askID, IntToDecimal(l.askQuantity), amount);
    var orders2 := FillRow(orders1, l.bidID, IntToDecimal(l.bidQuantity), amount);
    RestingAfterFill(s.asks, s.asks[0], s'.asks, l.askQuantity, orders, ASK, amount);
    forall o ensures Rests(orders1, o, BID) <==> Rests(orders, o, BID) {
      OtherSideUntouched(orders, l.askID, IntToDecimal(l.askQuantity), amount, o, BID);
    }
    RestingAfterFill(s.bids, Last(s.bids), s'.bids, l.bidQuantity, orders1, BID, amount);
    forall o ensures Rests(orders2, o, ASK) <==> Rests(orders1, o, ASK) {
      OtherSideUntouched(orders1, l.bidID, IntToDecimal(l.bidQuantity), amount, o, ASK);
    }
  }

  /** Every log the engine can write is one the batch writer handles, and its tables match the engine's memory. */
  lemma {:induction false} LegalLogsAgree(log: seq<Line>)
    requires Legal(START, log)
    ensures AllFit(EMPTY, log) && Agree(WriteLines(EMPTY, log), ApplyLines(START, log))
  {
    if log != [] {
      var before, l := log[..|log| - 1], Last(log);
      var s, t := ApplyLines(START, before), WriteLines(EMPTY, before);
      LegalLogsAgree(before);
      LegalKeepsInv(START, before);
      if Crossed(s) { MatchAgrees(t, s); } else { OrderAgrees(t, s, l); }
    }
  }

  lemma LegalLogsAreWellformed(log: seq<Line>)
    requires Legal(START, log)
    ensures Writer.Wellformed(log)
  {
    LegalLogsAgree(log);
    Accounting.LogIDsAreConsecutive(log);
  }

  // ---- loading the books ----

  /** The answer to the query for orders not deleted, in ascending ID. */
  ghost predicate IsQuery(orders: map<int, Row>, rows: seq<Row>) {
    && (forall i, j :: 0 <= i < j < |rows| ==> rows[i].id < rows[j].id)
    && (forall r :: r in rows <==> r.id in orders && orders[r.id] == r && !r.deleted)
  }

  function Live(orders: map<int, Row>, n: nat): seq<Row> {
    if n == 0 then []
    else Live(orders, n - 1) + (if n in orders && !orders[n].deleted then [orders[n]] else [])
  }

  lemma {:induction false} LiveIsQuery(orders: map<int, Row>, n: nat)
    requires forall id :: id in orders ==> orders[id].id == id
    ensures forall i, j :: 0 <= i < j < |Live(orders, n)| ==> Live(orders, n)[i].id < Live(orders, n)[j].id
    ensures forall r :: r in Live(orders, n) <==> 1 <= r.id <= n && r.id in orders && orders[r.id] == r && !r.deleted
  {
    if n > 0 {
      LiveIsQuery(orders, n - 1);
      var rows := Live(orders, n - 1);
      forall i | 0 <= i < |rows| ensures rows[i].id <= n - 1 { assert rows[i] in rows; }
    }
  }

  /** One book refilled from the rows of its side. */
  function Load(rows: seq<Row>, side: int): Book {
    if rows == [] then []
    else
      var b := Load(rows[..|rows| - 1], side);
      if Last(rows).side == side then ReplaceOrInsert(b, OrderInRow(Last(rows))) else b
  }

  lemma {:induction false} LoadContents(rows: seq<Row>, side: int)
    requires forall i, j :: 0 <= i < j < |rows| ==> rows[i].id < rows[j].id
    ensures Sorted(Load(rows, side))
    ensures forall o :: o in Load(rows, side) <==> exists r :: r in rows && r.side == side && OrderInRow(r) == o
  {
    if rows != [] {
      var before, last := rows[..|rows| - 1], Last(rows);
      LoadContents(before, side);
      var b := Load(before, side);
      forall i | 0 <= i < |b| ensures b[i].id != last.id {
        assert b[i] in b;
        var r :| r in before && OrderInRow(r) == b[i];
        var k :| 0 <= k < |before| && before[k] == r;
        assert rows[k].id < rows[|rows| - 1].id;
      }
      InsertContents(b, OrderInRow(last));
      assert forall r :: r in rows <==> r in before || r == last;
    }
  }

  /** Loading the live rows gives back exactly the book that was in memory. */
  lemma LoadIsTheBook(t: Tables, s: State, rows: seq<Row>)
    requires Agree(t, s) && Inv(s) && IsQuery(t.orders, rows)
    ensures Load(rows, ASK) == s.asks && Load(rows, BID) == s.bids
  {
    LoadContents(rows, ASK);
    LoadContents(rows, BID);
    forall o ensures o in Load(rows, ASK) <==> o in s.asks { LoadedRests(t, rows, o, ASK); }
    forall o ensures o in Load(rows, BID) <==> o in s.bids { LoadedRests(t, rows, o, BID); }
    SortedBooksAreEqual(Load(rows, ASK), s.asks);
    SortedBooksAreEqual(Load(rows, BID), s.bids);
  }

  lemma LoadedRests(t: Tables, rows: seq<Row>, o: Order, side: int)
    requires IsQuery(t.orders, rows) && forall id :: id in t.orders ==> t.orders[id].id == id
    ensures (exists r :: r in rows && r.side == side && OrderInRow(r) == o) <==> Rests(t.orders, o, side)
  {
    if Rests(t.orders, o, side) { assert t.orders[o.id] in rows; }
  }

  /** The engine's memory after a restart: books from the live rows, counters from the tables, log ID from the file. */
  function Recover(t: Tables, rows: seq<Row>, logID: int): State {
    State(Load(rows, ASK), Load(rows, BID), t.orderID, logID, t.askTicket, t.bidTicket)
  }

  /** At every point of every log, restarting from the tables restores the live engine. */
  lemma RecoveryIsExact(log: seq<Line>, rows: seq<Row>)
    requires Legal(START, log) && IsQuery(WriteLines(EMPTY, log).orders, rows)
    ensures Recover(WriteLines(EMPTY, log), rows, |log|) == ApplyLines(START, log)
  {
    LegalLogsAgree(log);
    LegalKeepsInv(START, log);
    Accounting.LogIDsAreConsecutive(log);
    LoadIsTheBook(WriteLines(EMPTY, log), ApplyLines(START, log), rows);
  }

  // ---- resuming ----

  /** The tickets a run turns into orders: duplicates are skipped, and a refused ticket ends the run. */
  function Accepted(askTicket: int, bidTicket: int, ts: seq<Ticket>): seq<Ticket>
    decreases |ts|
  {
    if ts == [] then []
    else
      var latest := if ts[0].side == ASK then askTicket else bidTicket;
      if ts[0].side != ASK && ts[0].side != BID then []
      else if ts[0].id <= latest then Accepted(askTicket, bidTicket, ts[1..])
      else if ts[0].id != latest + 1 then []
      else [ts[0]] + (if ts[0].side == ASK then Accepted(ts[0].id, bidTicket, ts[1..])
                      else Accepted(askTicket, ts[0].id, ts[1..]))
  }

  /** The log of tickets that are all accepted. */
  function Blocks(s: State, ts: seq<Ticket>): seq<Line>
    decreases |ts|
  {
    if ts == [] then [] else Handle(s, ts[0]) + Blocks(ApplyLines(s, Handle(s, ts[0])), ts[1..])
  }

  lemma HandleCounts(s: State, t: Ticket)
    requires Inv(s) && (t.side == ASK || t.side == BID)
    ensures var s' := ApplyLines(s, Handle(s, t));
            && Inv(s') && !Crossed(s')
            && s'.askTicket == (if t.side == ASK then t.id else s.askTicket)
            && s'.bidTicket == (if t.side == BID then t.id else s.bidTicket)
  {
    var l := OrderOf(s, t);
    var s1 := ApplyLine(s, l);
    OrderKeepsInv(s, l);
    MatchAllUncrosses(s1);
    LegalKeepsInv(s1, MatchAll(s1));
    TicketIDsDoNotMatter(s1, s1.askTicket, s1.bidTicket);
    ApplyCons(s, l, MatchAll(s1));
  }

  // The log of a run depends on its ticket stream only through the tickets it accepts.
  lemma {:induction false} RunIsItsAcceptedTickets(s: State, ts: seq<Ticket>)
    requires Inv(s)
    ensures Run(s, ts).0 == Blocks(s, Accepted(s.askTicket, s.bidTicket, ts))
    decreases |ts|
  {
    if ts != [] {
      match Judge(s, ts[0]) {
        case Duplicate => RunIsItsAcceptedTickets(s, ts[1..]);
        case Accept =>
          HandleCounts(s, ts[0]);
          RunIsItsAcceptedTickets(ApplyLines(s, Handle(s, ts[0])), ts[1..]);
          assert Accepted(s.askTicket, s.bidTicket, ts)[1..] ==
                 (if ts[0].side == ASK then Accepted(ts[0].id, s.bidTicket, ts[1..])
                  else Accepted(s.askTicket, ts[0].id, ts[1..]));
        case _ =>
      }
    }
  }

  lemma CutConcat(a: seq<Line>, b: seq<Line>, k: nat)
    requires k <= |a| + |b|
    ensures k <= |a| ==> (a + b)[..k] == a[..k] && (a + b)[k..] == a[k..] + b
    ensures k >= |a| ==> (a + b)[..k] == a + b[..k - |a|] && (a + b)[k..] == b[k - |a|..]
  {}

  // A matching pass cut short after `n` lines is finished by the matching pass of a restart.
  lemma {:induction false} MatchingResumes(s: State, n: nat)
    requires Inv(s) && n <= |MatchAll(s)|
    ensures MatchAll(ApplyLines(s, MatchAll(s)[..n])) == MatchAll(s)[n..]
    decreases n
  {
    if n == 0 {
      assert MatchAll(s)[..0] == [];
    } else {
      var s' := ApplyLine(s, MatchOf(s));
      MatchShrinks(s);
      MatchKeepsInv(s);
      MatchingResumes(s', n - 1);
      CutConcat([MatchOf(s)], MatchAll(s'), n);
      ApplyCons(s, MatchOf(s), MatchAll(s')[..n - 1]);
    }
  }

  function IsOrder(l: Line): int {
    if l.OrderLine? then 1 else 0
  }

  /** How many tickets have an order line in a log. */
  function Orders(log: seq<Line>): int {
    Accounting.SumLog(log, IsOrder)
  }

  lemma {:induction false} MatchesAreNotOrders(s: State, n: nat)
    requires n <= |MatchAll(s)|
    ensures Orders(MatchAll(s)[..n]) == 0
    decreases n
  {
    if n > 0 {
      var s' := ApplyLine(s, MatchOf(s));
      MatchShrinks(s);
      MatchesAreNotOrders(s', n - 1);
      CutConcat([MatchOf(s)], MatchAll(s'), n);
      Accounting.SumLogConcat([MatchOf(s)], MatchAll(s')[..n - 1], IsOrder);
      OrdersOfOne(MatchOf(s));
    }
  }

  lemma OrdersOfOne(l: Line)
    ensures Orders([l]) == IsOrder(l) && Orders([]) == 0
  {
    assert [l][..0] == [];
    assert Accounting.SumLog([l][..0], IsOrder) == 0;
  }

  lemma HandleOrders(s: State, t: Ticket, n: nat)
    requires n <= |MatchAll(ApplyLine(s, OrderOf(s, t)))|
    ensures Orders(Handle(s, t)[..n + 1]) == 1
  {
    var l, s1 := OrderOf(s, t), ApplyLine(s, OrderOf(s, t));
    CutConcat([l], MatchAll(s1), n + 1);
    Accounting.SumLogConcat([l], MatchAll(s1)[..n], IsOrder);
    OrdersOfOne(l);
    MatchesAreNotOrders(s1, n);
  }

  /** What is left of a log from which `k` lines survived: the unfinished matches, then the tickets not yet logged. */
  ghost predicate Resumes(s: State, ts: seq<Ticket>, k: nat)
    requires k <= |Blocks(s, ts)|
  {
    var log := Blocks(s, ts);
    var there := ApplyLines(s, log[..k]);
    var n := Orders(log[..k]);
    && 0 <= n <= |ts|
    && MatchAll(there) + Blocks(ApplyLines(there, MatchAll(there)), ts[n..]) == log[k..]
  }

  lemma ResumesInside(s: State, ts: seq<Ticket>, k: nat)
    requires Inv(s) && ts != [] && 1 <= k <= |Handle(s, ts[0])|
    ensures k <= |Blocks(s, ts)| && Resumes(s, ts, k)
  {
    var l, s1 := OrderOf(s, ts[0]), ApplyLine(s, OrderOf(s, ts[0]));
    var first, matches := Handle(s, ts[0]), MatchAll(s1);
    OrderKeepsInv(s, l);
    CutConcat([l], matches, k);
    ApplyCons(s, l, matches[..k - 1]);
    MatchingResumes(s1, k - 1);
    HandleOrders(s, ts[0], k - 1);
    CutConcat(first, Blocks(ApplyLines(s, first), ts[1..]), k);
    Rejoin(s, first, k);
  }

  lemma Rejoin(s: State, log: seq<Line>, k: nat)
    requires k <= |log|
    ensures ApplyLines(ApplyLines(s, log[..k]), log[k..]) == ApplyLines(s, log)
  {
    ApplyConcat(s, log[..k], log[k..]);
    assert log == log[..k] + log[k..];
  }

  // A cut behind the first ticket's block is a cut in the rest of the log.
  lemma CutBehind(s: State, ts: seq<Ticket>, k: nat, first: seq<Line>, s': State, rest: seq<Line>)
    requires ts != [] && first == Handle(s, ts[0]) && s' == ApplyLines(s, first) && rest == Blocks(s', ts[1..])
    requires |first| <= k <= |first| + |rest|
    ensures Blocks(s, ts) == first + rest
    ensures Blocks(s, ts)[k..] == rest[k - |first|..]
    ensures ApplyLines(s, Blocks(s, ts)[..k]) == ApplyLines(s', rest[..k - |first|])
    ensures Orders(Blocks(s, ts)[..k]) == 1 + Orders(rest[..k - |first|])
  {
    var early := rest[..k - |first|];
    CutConcat(first, rest, k);
    ApplyConcat(s, first, early);
    Accounting.SumLogConcat(first, early, IsOrder);
    HandleOrders(s, ts[0], |first| - 1);
    assert first[..|first|] == first;
  }

  lemma ResumesLater(s: State, ts: seq<Ticket>, k: nat)
    requires ts != [] && |Handle(s, ts[0])| <= k <= |Blocks(s, ts)|
    requires Resumes(ApplyLines(s, Handle(s, ts[0])), ts[1..], k - |Handle(s, ts[0])|)
    ensures Resumes(s, ts, k)
  {
    var first := Handle(s, ts[0]);
    var s' := ApplyLines(s, first);
    var rest := Blocks(s', ts[1..]);
    CutBehind(s, ts, k, first, s', rest);
    var n := Orders(rest[..k - |first|]);
    assert ts[1..][n..] == ts[n + 1..];
  }

  lemma {:induction false} BlocksResume(s: State, ts: seq<Ticket>, k: nat)
    requires Inv(s) && !Crossed(s) && k <= |Blocks(s, ts)|
    requires forall i :: 0 <= i < |ts| ==> ts[i].side == ASK || ts[i].side == BID
    ensures Resumes(s, ts, k)
    decreases |ts|
  {
    if k == 0 {
      assert Blocks(s, ts)[..0] == [] && Blocks(s, ts)[0..] == Blocks(s, ts);
      assert ts[0..] == ts;
    } else if k <= |Handle(s, ts[0])| {
      ResumesInside(s, ts, k);
    } else {
      HandleCounts(s, ts[0]);
      BlocksResume(ApplyLines(s, Handle(s, ts[0])), ts[1..], k - |Handle(s, ts[0])|);
      ResumesLater(s, ts, k);
    }
  }

  lemma {:induction false} AcceptedSides(a: int, b: int, ts: seq<Ticket>)
    ensures forall i :: 0 <= i < |Accepted(a, b, ts)| ==>
              Accepted(a, b, ts)[i].side == ASK || Accepted(a, b, ts)[i].side == BID
    decreases |ts|
  {
    if ts != [] {
      AcceptedSides(a, b, ts[1..]);
      AcceptedSides(ts[0].id, b, ts[1..]);
      AcceptedSides(a, ts[0].id, ts[1..]);
    }
  }

  function From(ts: seq<Ticket>, n: int): seq<Ticket> {
    if 0 <= n <= |ts| then ts[n..] else []
  }

  /** Continuing from any point of a run: the unfinished matches, then the tickets not yet logged. */
  lemma RunResumes(tickets: seq<Ticket>, k: nat, again: seq<Ticket>)
    requires k <= |Run(START, tickets).0|
    requires var log := Run(START, tickets).0;
             var s := ApplyLines(START, log[..k]);
             Accepted(s.askTicket, s.bidTicket, again) == From(Accepted(0, 0, tickets), Orders(log[..k]))
    ensures var log := Run(START, tickets).0;
            var s := ApplyLines(START, log[..k]);
            MatchAll(s) + Run(ApplyLines(s, MatchAll(s)), again).0 == log[k..]
  {
    var log, todo := Run(START, tickets).0, Accepted(0, 0, tickets);
    RunIsLegal(START, tickets);
    Accounting.LegalPrefix(START, log, k);
    var s := ApplyLines(START, log[..k]);
    LegalKeepsInv(START, log[..k]);
    MatchAllUncrosses(s);
    LegalKeepsInv(s, MatchAll(s));
    TicketIDsDoNotMatter(s, s.askTicket, s.bidTicket);
    RunIsItsAcceptedTickets(START, tickets);
    RunIsItsAcceptedTickets(ApplyLines(s, MatchAll(s)), again);
    AcceptedSides(0, 0, tickets);
    BlocksResume(START, todo, k);
  }

  /** The crash theorem. Any prefix of the log of any ticket stream may survive, and the tables hold its lines;
      the restarted engine, fed any stream whose accepted tickets are those not yet logged, writes exactly the
      missing lines and ends in the same state. */
  lemma CrashIsInvisible(tickets: seq<Ticket>, k: nat, rows: seq<Row>, again: seq<Ticket>)
    requires k <= |Run(START, tickets).0|
    requires IsQuery(WriteLines(EMPTY, Run(START, tickets).0[..k]).orders, rows)
    requires var log := Run(START, tickets).0;
             var s := Recover(WriteLines(EMPTY, log[..k]), rows, k);
             Accepted(s.askTicket, s.bidTicket, again) == From(Accepted(0, 0, tickets), Orders(log[..k]))
    ensures var log := Run(START, tickets).0;
            var s := Recover(WriteLines(EMPTY, log[..k]), rows, k);
            var missing := MatchAll(s) + Run(ApplyLines(s, MatchAll(s)), again).0;
            && log[..k] + missing == log
            && ApplyLines(s, missing) == ApplyLines(START, log)
  {
    var log := Run(START, tickets).0;
    var s := ApplyLines(START, log[..k]);
    RecoveredPoint(tickets, k, rows);
    RunResumes(tickets, k, again);
    Rejoins(START, log, k, MatchAll(s) + Run(ApplyLines(s, MatchAll(s)), again).0);
  }

  lemma Rejoins(s: State, log: seq<Line>, k: nat, missing: seq<Line>)
    requires k <= |log| && missing == log[k..]
    ensures log[..k] + missing == log && ApplyLines(ApplyLines(s, log[..k]), missing) == ApplyLines(s, log)
  {
    Rejoin(s, log, k);
  }

  lemma RecoveredPoint(tickets: seq<Ticket>, k: nat, rows: seq<Row>)
    requires k <= |Run(START, tickets).0|
    requires IsQuery(WriteLines(EMPTY, Run(START, tickets).0[..k]).orders, rows)
    ensures var log := Run(START, tickets).0;
            Recover(WriteLines(EMPTY, log[..k]), rows, k) == ApplyLines(START, log[..k])
  {
    RunIsLegal(START, tickets);
    Accounting.LegalPrefix(START, Run(START, tickets).0, k);
    RecoveryIsExact(Run(START, tickets).0[..k], rows);
  }
}
