/** Whole-run accounting of the matching engine: quantities, prices, rounding and line counts. */
module Accounting {
  import opened Books
  import opened Fixed
  import opened Matching

  // ---- sums over books and over logs ----

  function Sum(b: Book, f: Order -> int): int {
    if b == [] then 0 else f(b[0]) + Sum(b[1..], f)
  }

  function SumLog(log: seq<Line>, g: Line -> int): int {
    if log == [] then 0 else SumLog(log[..|log| - 1], g) + g(Last(log))
  }

  lemma {:induction false} SumConcat(a: Book, b: Book, f: Order -> int)
    ensures Sum(a + b, f) == Sum(a, f) + Sum(b, f)
  {
    if a == [] {
      assert a + b == b;
    } else {
      SumConcat(a[1..], b, f);
      assert (a + b)[1..] == a[1..] + b;
    }
  }

  lemma {:induction false} SumLogConcat(a: seq<Line>, b: seq<Line>, g: Line -> int)
    ensures SumLog(a + b, g) == SumLog(a, g) + SumLog(b, g)
  {
    if b == [] {
      assert a + b == a;
    } else {
      SumLogConcat(a, b[..|b| - 1], g);
      assert (a + b)[..|a + b| - 1] == a + b[..|b| - 1];
    }
  }

  lemma {:induction false} SumInsert(b: Book, o: Order, f: Order -> int)
    requires !HasID(b, o.id)
    ensures Sum(ReplaceOrInsert(b, o), f) == Sum(b, f) + f(o)
  {
    if b != [] {
      assert b[0].id != o.id;
      if Less(o, b[0]) {
        assert ([o] + b)[1..] == b;
      } else {
        forall i | 0 <= i < |b[1..]| ensures b[1..][i].id != o.id { assert b[1..][i] == b[i + 1]; }
        SumInsert(b[1..], o, f);
      }
    }
  }

  // An order enters one book; the other one is untouched.
  lemma OrderAdds(s: State, l: Line, f: Order -> int)
    requires Inv(s) && LegalLine(s, l) && l.OrderLine?
    ensures Sum(ApplyLine(s, l).asks, f) == Sum(s.asks, f) + (if l.side == ASK then f(OrderIn(l)) else 0)
    ensures Sum(ApplyLine(s, l).bids, f) == Sum(s.bids, f) + (if l.side == BID then f(OrderIn(l)) else 0)
  {
    forall i | 0 <= i < |s.asks| ensures s.asks[i].id != l.id { assert s.asks[i] in s.asks; }
    forall i | 0 <= i < |s.bids| ensures s.bids[i].id != l.id { assert s.bids[i] in s.bids; }
    SumInsert(s.asks, OrderIn(l), f);
    SumInsert(s.bids, OrderIn(l), f);
  }

  function AfterFill(o: Order, quantity: int, f: Order -> int): int {
    if quantity == 0 then 0 else f(o.(quantity := quantity))
  }

  // A match changes the best order of each book and no other.
  lemma MatchMoves(s: State, f: Order -> int)
    requires Inv(s) && Crossed(s)
    ensures var l, s' := MatchOf(s), ApplyLine(s, MatchOf(s));
            && Sum(s'.asks, f) == Sum(s.asks, f) - f(s.asks[0]) + AfterFill(s.asks[0], l.askQuantity, f)
            && Sum(s'.bids, f) == Sum(s.bids, f) - f(Last(s.bids)) + AfterFill(Last(s.bids), l.bidQuantity, f)
  {
    var l := MatchOf(s);
    MatchTouchesTheBest(s);
    var front := if l.askQuantity == 0 then [] else [s.asks[0].(quantity := l.askQuantity)];
    var back := if l.bidQuantity == 0 then [] else [Last(s.bids).(quantity := l.bidQuantity)];
    SumConcat(front, s.asks[1..], f);
    SumConcat(s.bids[..|s.bids| - 1], back, f);
    SumConcat(s.bids[..|s.bids| - 1], [Last(s.bids)], f);
    assert s.bids == s.bids[..|s.bids| - 1] + [Last(s.bids)];
    SumOne(s.asks[0].(quantity := l.askQuantity), f);
    SumOne(Last(s.bids).(quantity := l.bidQuantity), f);
    SumOne(Last(s.bids), f);
  }

  lemma SumOne(o: Order, f: Order -> int)
    ensures Sum([o], f) == f(o) && Sum([], f) == 0
  {
    assert [o][1..] == [];
  }

  // ---- quantity conservation ----

  function QuantityOf(id: int): Order -> int {
    (o: Order) => if o.id == id then o.quantity else 0
  }

  function Placed(id: int): Line -> int {
    (l: Line) => if l.OrderLine? && l.id == id then l.quantity else 0
  }

  function Filled(id: int): Line -> int {
    (l: Line) => if l.OrderLine? then 0
                 else (if l.askID == id then l.quantity else 0) + (if l.bidID == id then l.quantity else 0)
  }

  /** Every unit ever ordered is either filled or still resting. */
  lemma {:induction false} QuantityIsConserved(log: seq<Line>, id: int)
    requires Legal(START, log)
    ensures var s := ApplyLines(START, log);
            SumLog(log, Placed(id)) ==
            SumLog(log, Filled(id)) + Sum(s.asks, QuantityOf(id)) + Sum(s.bids, QuantityOf(id))
  {
    if log != [] {
      var before, l := log[..|log| - 1], Last(log);
      var s := ApplyLines(START, before);
      QuantityIsConserved(before, id);
      LegalKeepsInv(START, before);
      if Crossed(s) { MatchMoves(s, QuantityOf(id)); } else { OrderAdds(s, l, QuantityOf(id)); }
    }
  }

  // ---- line counts ----

  function IsMatch(l: Line): int {
    if l.MatchLine? then 1 else 0
  }

  /** Log IDs are 1, 2, 3, ... without gaps, over orders and matches together. */
  lemma {:induction false} LogIDsAreConsecutive(log: seq<Line>)
    requires Legal(START, log)
    ensures ApplyLines(START, log).logID == |log|
    ensures forall i :: 0 <= i < |log| ==> log[i].logID == i + 1
  {
    if log != [] { LogIDsAreConsecutive(log[..|log| - 1]); }
  }

  /** Every match retires one or two orders, so the matches of a run are bounded by its orders. */
  lemma {:induction false} MatchesAreBounded(log: seq<Line>)
    requires Legal(START, log)
    ensures var s := ApplyLines(START, log);
            var matches, live := SumLog(log, IsMatch), |s.asks| + |s.bids|;
            && s.logID == s.orderID + matches
            && matches <= s.orderID - live <= 2 * matches
            && s.logID <= 2 * s.orderID
  {
    if log != [] {
      var before, l := log[..|log| - 1], Last(log);
      var s := ApplyLines(START, before);
      MatchesAreBounded(before);
      LegalKeepsInv(START, before);
      if Crossed(s) { MatchShrinks(s); } else { OrderGrows(s, l); }
    }
  }

  lemma OrderGrows(s: State, l: Line)
    requires Inv(s) && LegalLine(s, l) && l.OrderLine?
    ensures |ApplyLine(s, l).asks| + |ApplyLine(s, l).bids| == |s.asks| + |s.bids| + 1
  {
    OrderAdds(s, l, One);
    Count(s.asks);
    Count(s.bids);
    Count(ApplyLine(s, l).asks);
    Count(ApplyLine(s, l).bids);
  }

  function One(o: Order): int { 1 }

  lemma {:induction false} Count(b: Book)
    ensures Sum(b, One) == |b|
  {
    if b != [] { Count(b[1..]); }
  }

  // ---- prices and rounding ----

  /** Order line `k` of the log placed order `o` on `side`. */
  ghost predicate PlacedAt(log: seq<Line>, k: int, o: Order, side: int) {
    && 0 <= k < |log| && log[k].OrderLine? && log[k].id == o.id && log[k].side == side
    && log[k].price == o.price && log[k].owner == o.owner && log[k].ticketID == o.ticketID
  }

  ghost predicate Originates(log: seq<Line>, b: Book, side: int) {
    forall o :: o in b ==> exists k :: PlacedAt(log, k, o, side)
  }

  /** Match line `i` trades an ask and a bid placed earlier, at the limit of the one placed first. */
  ghost predicate FairTrade(log: seq<Line>, i: int, a: int, b: int)
    requires 0 <= i < |log| && log[i].MatchLine?
  {
    && 0 <= a < i && 0 <= b < i && log[a].OrderLine? && log[b].OrderLine?
    && log[a].side == ASK && log[a].id == log[i].askID && log[a].owner == log[i].asker
    && log[b].side == BID && log[b].id == log[i].bidID && log[b].owner == log[i].bider
    && log[i].askPrice == log[a].price && log[i].bidPrice == log[b].price
    && log[i].price == (if a < b then log[a].price else log[b].price)
    && log[a].price <= log[i].price <= log[b].price
  }

  // Order IDs grow along the log, so an older order is an earlier line.
  lemma {:induction false} OrderIDsGrow(log: seq<Line>)
    requires Legal(START, log)
    ensures forall i, j :: 0 <= i < j < |log| && log[i].OrderLine? && log[j].OrderLine? ==> log[i].id < log[j].id
    ensures forall i :: 0 <= i < |log| && log[i].OrderLine? ==> log[i].id <= ApplyLines(START, log).orderID
  {
    if log != [] {
      var before := log[..|log| - 1];
      OrderIDsGrow(before);
      assert forall i :: 0 <= i < |before| ==> before[i] == log[i];
    }
  }

  // Every resting order was placed, as it is, by a line of the log.
  lemma {:induction false} OrdersOriginate(log: seq<Line>)
    requires Legal(START, log)
    ensures var s := ApplyLines(START, log); Originates(log, s.asks, ASK) && Originates(log, s.bids, BID)
  {
    if log != [] {
      var before, l := log[..|log| - 1], Last(log);
      var s := ApplyLines(START, before);
      var s' := ApplyLine(s, l);
      OrdersOriginate(before);
      LegalKeepsInv(START, before);
      if Crossed(s) {
        MatchTouchesTheBest(s);
        OriginSurvives(before, s.asks, s.asks[0], s'.asks, ASK, l);
        OriginSurvives(before, s.bids, Last(s.bids), s'.bids, BID, l);
      } else {
        NewOrderOriginates(s, l);
        NewOrigin(before, s.asks, s'.asks, ASK, l);
        NewOrigin(before, s.bids, s'.bids, BID, l);
      }
      assert before + [l] == log;
    }
  }

  lemma NewOrderOriginates(s: State, l: Line)
    requires Inv(s) && LegalLine(s, l) && l.OrderLine?
    ensures forall o :: o in ApplyLine(s, l).asks ==> o in s.asks || (l.side == ASK && o == OrderIn(l))
    ensures forall o :: o in ApplyLine(s, l).bids ==> o in s.bids || (l.side == BID && o == OrderIn(l))
  {
    forall i | 0 <= i < |s.asks| ensures s.asks[i].id != l.id { assert s.asks[i] in s.asks; }
    forall i | 0 <= i < |s.bids| ensures s.bids[i].id != l.id { assert s.bids[i] in s.bids; }
    InsertContents(s.asks, OrderIn(l));
    InsertContents(s.bids, OrderIn(l));
  }

  lemma NewOrigin(log: seq<Line>, b: Book, b': Book, side: int, l: Line)
    requires Originates(log, b, side) && l.OrderLine?
    requires forall o :: o in b' ==> o in b || (l.side == side && o == OrderIn(l))
    ensures Originates(log + [l], b', side)
  {
    forall o | o in b' ensures exists k :: PlacedAt(log + [l], k, o, side) {
      if o in b {
        var k :| PlacedAt(log, k, o, side);
        assert PlacedAt(log + [l], k, o, side);
      } else {
        assert PlacedAt(log + [l], |log|, o, side);
      }
    }
  }

  lemma OriginSurvives(log: seq<Line>, b: Book, best: Order, b': Book, side: int, l: Line)
    requires Originates(log, b, side) && best in b
    requires forall o :: o in b' ==> o in b || exists q :: o == best.(quantity := q)
    ensures Originates(log + [l], b', side)
  {
    forall o | o in b' ensures exists k :: PlacedAt(log + [l], k, o, side) {
      var p := if o in b then o else best;
      var k :| PlacedAt(log, k, p, side);
      assert PlacedAt(log + [l], k, o, side);
    }
  }

  /** Every trade of every run is fair. */
  lemma {:induction false} TradesAreFair(log: seq<Line>, i: int)
    requires Legal(START, log) && 0 <= i < |log| && log[i].MatchLine?
    ensures exists a, b :: FairTrade(log, i, a, b)
  {
    LegalPrefix(START, log, i + 1);
    var before := log[..i];
    assert log[..i + 1][..i] == before && Last(log[..i + 1]) == log[i];
    var s := ApplyLines(START, before);
    OrdersOriginate(before);
    OrderIDsGrow(before);
    assert s.asks[0] in s.asks && Last(s.bids) in s.bids;
    var a :| PlacedAt(before, a, s.asks[0], ASK);
    var b :| PlacedAt(before, b, Last(s.bids), BID);
    assert FairTrade(log, i, a, b);
  }

  lemma {:induction false} LegalPrefix(s: State, log: seq<Line>, n: nat)
    requires Legal(s, log) && n <= |log|
    ensures Legal(s, log[..n])
  {
    LegalConcat(s, log[..n], log[n..]);
    assert log == log[..n] + log[n..];
  }

  function Value(id: int): Line -> int {
    (l: Line) => if l.MatchLine? && (l.askID == id || l.bidID == id) then l.price * l.quantity else 0
  }

  function Paid(id: int): Line -> int {
    (l: Line) => if l.MatchLine? && (l.askID == id || l.bidID == id) then l.amount else 0
  }

  function Trades(id: int): Line -> int {
    (l: Line) => if l.MatchLine? && (l.askID == id || l.bidID == id) then 1 else 0
  }

  /** Rounding never favours the payer's counterparty, and an order of n trades loses less than n units to it. */
  lemma {:induction false} RoundingIsBounded(log: seq<Line>, id: int)
    requires Legal(START, log)
    ensures var lost := SumLog(log, Value(id)) - EXP * SumLog(log, Paid(id));
            0 <= lost <= SumLog(log, Trades(id)) * (EXP - 1)
  {
    if log != [] {
      RoundingIsBounded(log[..|log| - 1], id);
      var l := Last(log);
      if l.MatchLine? {
        assert l.amount == l.price * l.quantity / EXP;
        assert 0 <= l.price * l.quantity - EXP * l.amount <= EXP - 1;
      }
    }
  }
}
