/** What one incoming order does to a book at rest: a single walk along the opposite side, best order first. */
module Sweep {
  import opened Books
  import opened Fixed
  import opened Matching

  function Min(a: int, b: int): int {
    if a < b then a else b
  }

  /** A fill of resting ask `a` by incoming bid `o`, at the ask's price. */
  function BuyFill(a: Order, o: Order, logID: int): Line {
    var q := Min(a.quantity, o.quantity);
    MatchLine(logID, a.owner, a.id, a.price, a.quantity - q, o.owner, o.id, o.price, o.quantity - q,
              a.price, q, Amount(a.price, q))
  }

  /** A fill of resting bid `b` by incoming ask `o`, at the bid's price. */
  function SellFill(b: Order, o: Order, logID: int): Line {
    var q := Min(b.quantity, o.quantity);
    MatchLine(logID, o.owner, o.id, o.price, o.quantity - q, b.owner, b.id, b.price, b.quantity - q,
              b.price, q, Amount(b.price, q))
  }

  function Rest(o: Order, quantity: int): seq<Order> {
    if quantity == 0 then [] else [o.(quantity := quantity)]
  }

  datatype Result = Result(lines: seq<Line>, opposite: Book, remaining: seq<Order>)

  function Buy(asks: Book, o: Order, logID: int): Result {
    if asks == [] || asks[0].price > o.price then Result([], asks, [o])
    else
      var l := BuyFill(asks[0], o, logID + 1);
      if l.bidQuantity == 0 then Result([l], Rest(asks[0], l.askQuantity) + asks[1..], [])
      else
        var r := Buy(asks[1..], o.(quantity := l.bidQuantity), logID + 1);
        r.(lines := [l] + r.lines)
  }

  function Sell(bids: Book, o: Order, logID: int): Result {
    if bids == [] || Last(bids).price < o.price then Result([], bids, [o])
    else
      var rest := bids[..|bids| - 1];
      var l := SellFill(Last(bids), o, logID + 1);
      if l.askQuantity == 0 then Result([l], rest + Rest(Last(bids), l.bidQuantity), [])
      else
        var r := Sell(rest, o.(quantity := l.askQuantity), logID + 1);
        r.(lines := [l] + r.lines)
  }

  ghost predicate Newest(s: State, o: Order) {
    Inv(s) && !Crossed(s) && s.orderID < o.id
  }

  function WithBid(s: State, o: Order): State {
    s.(bids := ReplaceOrInsert(s.bids, o), orderID := o.id)
  }

  function WithAsk(s: State, o: Order): State {
    s.(asks := ReplaceOrInsert(s.asks, o), orderID := o.id)
  }

  // The newest order is served as the best bid exactly when no resting bid is priced above it.
  lemma {:induction false} NewestIsLast(b: Book, o: Order)
    requires Sorted(b) && forall x :: x in b ==> x.id < o.id
    ensures b == [] || Last(b).price <= o.price ==> ReplaceOrInsert(b, o) == b + [o]
    ensures b != [] && Last(b).price > o.price ==> ReplaceOrInsert(b, o) != [] && Last(ReplaceOrInsert(b, o)) == Last(b)
  {
    if b != [] {
      assert b[0] in b;
      FirstIsLeast(b, Last(b));
      if |b| > 1 { assert Last(b[1..]) == Last(b); }
      NewestIsLast(b[1..], o);
      if Less(b[0], o) && |b| > 1 && Last(b).price <= o.price {
        assert b == [b[0]] + b[1..];
      }
    }
  }

  // The newest order is served as the best ask exactly when every resting ask is priced above it.
  lemma NewestIsFirst(b: Book, o: Order)
    requires Sorted(b) && forall x :: x in b ==> x.id < o.id
    ensures b == [] || b[0].price > o.price ==> ReplaceOrInsert(b, o) == [o] + b
    ensures b != [] && b[0].price <= o.price ==> ReplaceOrInsert(b, o) != [] && ReplaceOrInsert(b, o)[0] == b[0]
  {
    assert b != [] ==> b[0] in b;
  }

  // The walk's fill is the engine's match when the newest order is the best of its side.
  lemma FillIsMatch(s: State)
    requires s.asks != [] && s.bids != []
    ensures s.asks[0].id < Last(s.bids).id ==> MatchOf(s) == BuyFill(s.asks[0], Last(s.bids), s.logID + 1)
    ensures Last(s.bids).id < s.asks[0].id ==> MatchOf(s) == SellFill(Last(s.bids), s.asks[0], s.logID + 1)
  {}

  lemma BuyAtTheEnds(s: State, s1: State, o: Order)
    requires s.asks != [] && s1 == s.(bids := s.bids + [o], orderID := o.id) && s.asks[0].id < o.id
    ensures Last(s1.bids) == o && s1.bids[..|s1.bids| - 1] == s.bids
    ensures MatchOf(s1) == BuyFill(s.asks[0], o, s.logID + 1)
  {}

  // The first step of a buying walk: the new bid meets the best ask, and only these two change.
  lemma FirstBuyFill(s: State, o: Order)
    requires Newest(s, o) && s.asks != [] && s.asks[0].price <= o.price
    ensures var s1, l := WithBid(s, o), BuyFill(s.asks[0], o, s.logID + 1);
            && Crossed(s1) && MatchOf(s1) == l
            && ApplyLine(s1, l) == s.(asks := Rest(s.asks[0], l.askQuantity) + s.asks[1..],
                                      bids := s.bids + Rest(o, l.bidQuantity),
                                      logID := s.logID + 1, orderID := o.id)
  {
    var s1 := WithBid(s, o);
    NewestIsLast(s.bids, o);
    OrderKeepsInv(s.(orderID := o.id - 1), BidLine(o));
    MatchTouchesTheBest(s1);
    BuyAtTheEnds(s, s1, o);
  }

  lemma FirstSellFill(s: State, o: Order)
    requires Newest(s, o) && s.bids != [] && Last(s.bids).price >= o.price
    ensures var s1, l := WithAsk(s, o), SellFill(Last(s.bids), o, s.logID + 1);
            && Crossed(s1) && MatchOf(s1) == l
            && ApplyLine(s1, l) == s.(bids := s.bids[..|s.bids| - 1] + Rest(Last(s.bids), l.bidQuantity),
                                      asks := Rest(o, l.askQuantity) + s.asks,
                                      logID := s.logID + 1, orderID := o.id)
  {
    var s1 := WithAsk(s, o);
    NewestIsFirst(s.asks, o);
    OrderKeepsInv(s.(orderID := o.id - 1), AskLine(o));
    assert s1.asks == [o] + s.asks && Last(s.bids) in s.bids;
    FillIsMatch(s1);
    MatchTouchesTheBest(s1);
  }

  // A book at rest is still at rest, and still older than the new order, once its best order is gone.
  lemma AskRemoved(s: State, o: Order)
    requires Newest(s, o) && s.asks != []
    ensures Newest(s.(asks := s.asks[1..], logID := s.logID + 1), o)
  {
    BestUpdateKeepsOrder(s.asks, 0);
    assert forall x :: x in s.asks[1..] ==> x in s.asks;
  }

  lemma BidRemoved(s: State, o: Order)
    requires Newest(s, o) && s.bids != []
    ensures Newest(s.(bids := s.bids[..|s.bids| - 1], logID := s.logID + 1), o)
  {
    BestUpdateKeepsOrder(s.bids, 0);
    assert forall x :: x in s.bids[..|s.bids| - 1] ==> x in s.bids;
  }

  /** Matching from `s1` writes the walk's lines and leaves the walk's books; `own` is the new order's side without
      it. */
  ghost predicate SameWalk(s1: State, r: Result, own: Book, side: int) {
    var end := ApplyLines(s1, r.lines);
    var mine := if r.remaining == [] then own else ReplaceOrInsert(own, r.remaining[0]);
    && MatchAll(s1) == r.lines
    && (if side == BID then end.asks == r.opposite && end.bids == mine
        else end.bids == r.opposite && end.asks == mine)
  }

  ghost predicate SameAsBuy(s: State, o: Order) {
    SameWalk(WithBid(s, o), Buy(s.asks, o, s.logID), s.bids, BID)
  }

  ghost predicate SameAsSell(s: State, o: Order) {
    SameWalk(WithAsk(s, o), Sell(s.bids, o, s.logID), s.asks, ASK)
  }

  // The walk stops where matching stops: the new order does not reach the opposite side.
  lemma WalkStops(s: State, o: Order)
    requires Newest(s, o)
    ensures s.asks == [] || s.asks[0].price > o.price ==> SameAsBuy(s, o)
    ensures s.bids == [] || Last(s.bids).price < o.price ==> SameAsSell(s, o)
  {
    NewestIsLast(s.bids, o);
    NewestIsFirst(s.asks, o);
    assert ApplyLines(WithBid(s, o), []) == WithBid(s, o);
    assert ApplyLines(WithAsk(s, o), []) == WithAsk(s, o);
  }

  // A fill that uses up the new order leaves books at rest.
  lemma BuyFilled(s: State, o: Order)
    requires Newest(s, o) && s.asks != [] && s.asks[0].price <= o.price
    requires BuyFill(s.asks[0], o, s.logID + 1).bidQuantity == 0
    ensures SameAsBuy(s, o)
  {
    var s1, l := WithBid(s, o), BuyFill(s.asks[0], o, s.logID + 1);
    var s2 := ApplyLine(s1, l);
    FirstBuyFill(s, o);
    MatchShrinks(s1);
    assert s2.bids == s.bids && !Crossed(s2);
    assert MatchAll(s1) == [l];
    ApplyOne(s1, l);
  }

  lemma SellFilled(s: State, o: Order)
    requires Newest(s, o) && s.bids != [] && Last(s.bids).price >= o.price
    requires SellFill(Last(s.bids), o, s.logID + 1).askQuantity == 0
    ensures SameAsSell(s, o)
  {
    var s1, l := WithAsk(s, o), SellFill(Last(s.bids), o, s.logID + 1);
    var s2 := ApplyLine(s1, l);
    FirstSellFill(s, o);
    MatchShrinks(s1);
    assert s2.asks == s.asks && !Crossed(s2);
    assert MatchAll(s1) == [l];
    ApplyOne(s1, l);
  }

  // If the engine's first match is the walk's first fill, agreeing on the rest is agreeing on the whole.
  lemma WalkGoesOn(s1: State, l: Line, s2: State, r: Result, own: Book, side: int)
    requires Crossed(s1) && l == MatchOf(s1) && s2 == ApplyLine(s1, l) && SameWalk(s2, r, own, side)
    ensures SameWalk(s1, r.(lines := [l] + r.lines), own, side)
  {
    MatchShrinks(s1);
    ApplyCons(s1, l, r.lines);
  }

  lemma BuyUnfolds(asks: Book, o: Order, logID: int, l: Line)
    requires asks != [] && asks[0].price <= o.price && l == BuyFill(asks[0], o, logID + 1) && l.bidQuantity != 0
    ensures var r := Buy(asks[1..], o.(quantity := l.bidQuantity), logID + 1);
            Buy(asks, o, logID) == r.(lines := [l] + r.lines)
  {}

  lemma SellUnfolds(bids: Book, o: Order, logID: int, l: Line)
    requires bids != [] && Last(bids).price >= o.price && l == SellFill(Last(bids), o, logID + 1) && l.askQuantity != 0
    ensures var r := Sell(bids[..|bids| - 1], o.(quantity := l.askQuantity), logID + 1);
            Sell(bids, o, logID) == r.(lines := [l] + r.lines)
  {}

  // The rest of a buying walk: what is left of the new bid against the asks that are left.
  function AfterBuy(s: State): State
    requires s.asks != []
  {
    s.(asks := s.asks[1..], logID := s.logID + 1)
  }

  function AfterSell(s: State): State
    requires s.bids != []
  {
    s.(bids := s.bids[..|s.bids| - 1], logID := s.logID + 1)
  }

  // A fill that leaves some of the new order is the engine's first match, and the walk goes on from there.
  lemma BuyGoesOn(s: State, o: Order, l: Line, o': Order)
    requires Newest(s, o) && s.asks != [] && s.asks[0].price <= o.price
    requires l == BuyFill(s.asks[0], o, s.logID + 1) && l.bidQuantity != 0 && o' == o.(quantity := l.bidQuantity)
    ensures Newest(AfterBuy(s), o')
    ensures Crossed(WithBid(s, o)) && MatchOf(WithBid(s, o)) == l
    ensures ApplyLine(WithBid(s, o), l) == WithBid(AfterBuy(s), o')
  {
    AskRemoved(s, o);
    FirstBuyFill(s, o);
    NewestIsLast(s.bids, o');
  }

  lemma SellGoesOn(s: State, o: Order, l: Line, o': Order)
    requires Newest(s, o) && s.bids != [] && Last(s.bids).price >= o.price
    requires l == SellFill(Last(s.bids), o, s.logID + 1) && l.askQuantity != 0 && o' == o.(quantity := l.askQuantity)
    ensures Newest(AfterSell(s), o')
    ensures Crossed(WithAsk(s, o)) && MatchOf(WithAsk(s, o)) == l
    ensures ApplyLine(WithAsk(s, o), l) == WithAsk(AfterSell(s), o')
  {
    BidRemoved(s, o);
    FirstSellFill(s, o);
    NewestIsFirst(s.asks, o');
  }

  lemma BuyContinues(s: State, o: Order, l: Line, o': Order)
    requires Newest(s, o) && s.asks != [] && s.asks[0].price <= o.price
    requires l == BuyFill(s.asks[0], o, s.logID + 1) && l.bidQuantity != 0 && o' == o.(quantity := l.bidQuantity)
    requires SameAsBuy(AfterBuy(s), o')
    ensures SameAsBuy(s, o)
  {
    var next := AfterBuy(s);
    BuyGoesOn(s, o, l, o');
    BuyUnfolds(s.asks, o, s.logID, l);
    WalkGoesOn(WithBid(s, o), l, WithBid(next, o'), Buy(next.asks, o', next.logID), s.bids, BID);
  }

  lemma SellContinues(s: State, o: Order, l: Line, o': Order)
    requires Newest(s, o) && s.bids != [] && Last(s.bids).price >= o.price
    requires l == SellFill(Last(s.bids), o, s.logID + 1) && l.askQuantity != 0 && o' == o.(quantity := l.askQuantity)
    requires SameAsSell(AfterSell(s), o')
    ensures SameAsSell(s, o)
  {
    var next := AfterSell(s);
    SellGoesOn(s, o, l, o');
    SellUnfolds(s.bids, o, s.logID, l);
    WalkGoesOn(WithAsk(s, o), l, WithAsk(next, o'), Sell(next.bids, o', next.logID), s.asks, ASK);
  }

  /** Sweep theorem, bids: matching after a new bid is exactly the walk, in its lines and in both books. */
  lemma {:induction false} NewBidSweeps(s: State, o: Order)
    requires Newest(s, o)
    ensures SameAsBuy(s, o)
    decreases |s.asks|
  {
    if s.asks == [] || s.asks[0].price > o.price {
      WalkStops(s, o);
    } else {
      var l := BuyFill(s.asks[0], o, s.logID + 1);
      if l.bidQuantity == 0 {
        BuyFilled(s, o);
      } else {
        var o' := o.(quantity := l.bidQuantity);
        BuyGoesOn(s, o, l, o');
        NewBidSweeps(AfterBuy(s), o');
        BuyContinues(s, o, l, o');
      }
    }
  }

  /** Sweep theorem, asks. */
  lemma {:induction false} NewAskSweeps(s: State, o: Order)
    requires Newest(s, o)
    ensures SameAsSell(s, o)
    decreases |s.bids|
  {
    if s.bids == [] || Last(s.bids).price < o.price {
      WalkStops(s, o);
    } else {
      var l := SellFill(Last(s.bids), o, s.logID + 1);
      if l.askQuantity == 0 {
        SellFilled(s, o);
      } else {
        var o' := o.(quantity := l.askQuantity);
        SellGoesOn(s, o, l, o');
        NewAskSweeps(AfterSell(s), o');
        SellContinues(s, o, l, o');
      }
    }
  }

  function BidLine(o: Order): Line {
    OrderLine(0, o.id, o.ticketID, o.owner, 0, BID, 0, o.price, o.quantity)
  }

  function AskLine(o: Order): Line {
    OrderLine(0, o.id, o.ticketID, o.owner, 0, ASK, 0, o.price, o.quantity)
  }

  function Bought(lines: seq<Line>): int {
    if lines == [] then 0
    else (if lines[0].MatchLine? then lines[0].quantity else 0) + Bought(lines[1..])
  }

  /** A walk's line `i` fills the order at place `place` of the opposite side, at that order's own price. */
  ghost predicate Took(l: Line, resting: Order, restingSide: int, o: Order, logID: int) {
    && l.MatchLine? && l.logID == logID && l.price == resting.price
    && (if restingSide == ASK then l.askID == resting.id && l.bidID == o.id && resting.price <= o.price
        else l.bidID == resting.id && l.askID == o.id && resting.price >= o.price)
  }

  /** The walk takes the resting asks in order: each one whole, at its own price, until the last. */
  lemma {:induction false} BuyTakesInOrder(asks: Book, o: Order, logID: int)
    ensures var lines := Buy(asks, o, logID).lines;
            && |lines| <= |asks|
            && (forall i :: 0 <= i < |lines| ==> Took(lines[i], asks[i], ASK, o, logID + 1 + i))
            && (forall i :: 0 <= i < |lines| - 1 ==> lines[i].quantity == asks[i].quantity)
    decreases |asks|
  {
    var r := Buy(asks, o, logID);
    if asks != [] && asks[0].price <= o.price && BuyFill(asks[0], o, logID + 1).bidQuantity != 0 {
      var o' := o.(quantity := BuyFill(asks[0], o, logID + 1).bidQuantity);
      var r' := Buy(asks[1..], o', logID + 1);
      BuyTakesInOrder(asks[1..], o', logID + 1);
      assert r.lines == [BuyFill(asks[0], o, logID + 1)] + r'.lines;
      forall i | 1 <= i < |r.lines| ensures Took(r.lines[i], asks[i], ASK, o, logID + 1 + i) {
        assert Took(r'.lines[i - 1], asks[1..][i - 1], ASK, o', logID + 1 + i);
      }
      forall i | 1 <= i < |r.lines| - 1 ensures r.lines[i].quantity == asks[i].quantity {
        assert r'.lines[i - 1].quantity == asks[1..][i - 1].quantity;
      }
    }
  }

  /** What is bought and what remains make up the order, and the walk ends only when one side is exhausted. */
  lemma {:induction false} BuyIsComplete(asks: Book, o: Order, logID: int)
    ensures var r := Buy(asks, o, logID);
            var n := |r.lines|;
            && n <= |asks|
            && Bought(r.lines) + (if r.remaining == [] then 0 else r.remaining[0].quantity) == o.quantity
            && (if r.remaining == [] then n > 0 && r.lines[n - 1].MatchLine? &&
                                          r.opposite == Rest(asks[n - 1], r.lines[n - 1].askQuantity) + asks[n..]
                else r.opposite == asks[n..] && (n == |asks| || asks[n].price > o.price))
    decreases |asks|
  {
    var r := Buy(asks, o, logID);
    if asks != [] && asks[0].price <= o.price {
      var l := BuyFill(asks[0], o, logID + 1);
      if l.bidQuantity == 0 {
        assert r.lines == [l] && r.lines[1..] == [];
      } else {
        var r' := Buy(asks[1..], o.(quantity := l.bidQuantity), logID + 1);
        BuyIsComplete(asks[1..], o.(quantity := l.bidQuantity), logID + 1);
        assert r.lines == [l] + r'.lines && r.lines[1..] == r'.lines;
        assert asks[1..][|r'.lines|..] == asks[|r.lines|..];
      }
    }
  }

  /** The walk takes the resting bids from the back: each one whole, at its own price, until the last. */
  lemma {:induction false} SellTakesInOrder(bids: Book, o: Order, logID: int)
    ensures var lines, n := Sell(bids, o, logID).lines, |bids|;
            && |lines| <= n
            && (forall i :: 0 <= i < |lines| ==> Took(lines[i], bids[n - 1 - i], BID, o, logID + 1 + i))
            && (forall i :: 0 <= i < |lines| - 1 ==> lines[i].quantity == bids[n - 1 - i].quantity)
    decreases |bids|
  {
    var r, n := Sell(bids, o, logID), |bids|;
    if bids != [] && Last(bids).price >= o.price && SellFill(Last(bids), o, logID + 1).askQuantity != 0 {
      var l, rest := SellFill(Last(bids), o, logID + 1), bids[..n - 1];
      var o' := o.(quantity := l.askQuantity);
      var lines := Sell(rest, o', logID + 1).lines;
      SellTakesInOrder(rest, o', logID + 1);
      SellUnfolds(bids, o, logID, l);
      assert r.lines == [l] + lines;
      forall i | 1 <= i < |r.lines|
        ensures Took(r.lines[i], bids[n - 1 - i], BID, o, logID + 1 + i)
        ensures i < |r.lines| - 1 ==> r.lines[i].quantity == bids[n - 1 - i].quantity
      {
        assert r.lines[i] == lines[i - 1] && rest[n - 1 - i] == bids[n - 1 - i];
        assert Took(lines[i - 1], rest[n - 2 - (i - 1)], BID, o', logID + 2 + (i - 1));
      }
    }
  }

  /** Fills and rest make up the order; the bids that are left are those in front, and the last one met if it was not
      filled; and a rest means that no bid in reach is left. */
  ghost predicate SoldOut(bids: Book, o: Order, r: Result) {
    var n, m := |r.lines|, |bids| - |r.lines|;
    && n <= |bids|
    && Bought(r.lines) + (if r.remaining == [] then 0 else r.remaining[0].quantity) == o.quantity
    && (if r.remaining == [] then n > 0 && r.lines[n - 1].MatchLine? &&
                                  r.opposite == bids[..m] + Rest(bids[m], r.lines[n - 1].bidQuantity)
        else r.opposite == bids[..m] && (m == 0 || bids[m - 1].price < o.price))
  }

  // One more fill in front of a walk that is complete.
  lemma OneMoreSold(bids: Book, o: Order, l: Line, r': Result)
    requires bids != [] && l.MatchLine? && l.quantity + l.askQuantity == o.quantity
    requires SoldOut(bids[..|bids| - 1], o.(quantity := l.askQuantity), r')
    ensures SoldOut(bids, o, r'.(lines := [l] + r'.lines))
  {
    var rest, lines := bids[..|bids| - 1], [l] + r'.lines;
    assert lines[1..] == r'.lines;
    assert rest[..|rest| - |r'.lines|] == bids[..|bids| - |lines|];
  }

  /** What is sold and what remains make up the order, and the walk ends only when one side is exhausted. */
  lemma {:induction false} SellIsComplete(bids: Book, o: Order, logID: int)
    ensures SoldOut(bids, o, Sell(bids, o, logID))
    decreases |bids|
  {
    if bids != [] && Last(bids).price >= o.price {
      var l, rest := SellFill(Last(bids), o, logID + 1), bids[..|bids| - 1];
      if l.askQuantity == 0 {
        assert [l][1..] == [];
      } else {
        SellIsComplete(rest, o.(quantity := l.askQuantity), logID + 1);
        SellUnfolds(bids, o, logID, l);
        OneMoreSold(bids, o, l, Sell(rest, o.(quantity := l.askQuantity), logID + 1));
      }
    }
  }

  /** Both theorems for a ticket: its log is the order line and the walk along the other side. */
  lemma TicketSweeps(s: State, t: Ticket)
    requires Inv(s) && !Crossed(s) && Judge(s, t) == Accept
    ensures var l := OrderOf(s, t);
            Handle(s, t) == [l] + (if t.side == BID then Buy(s.asks, OrderIn(l), l.logID).lines
                                   else Sell(s.bids, OrderIn(l), l.logID).lines)
  {
    var l := OrderOf(s, t);
    var s' := s.(logID := l.logID, askTicket := if t.side == ASK then t.id else s.askTicket,
                 bidTicket := if t.side == BID then t.id else s.bidTicket);
    if t.side == BID { NewBidSweeps(s', OrderIn(l)); } else { NewAskSweeps(s', OrderIn(l)); }
  }
}
