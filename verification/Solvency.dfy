/** What the engine's log owes: the orders placed by a user cover the user's debits and what still rests. */
module Solvency {
  import opened Books
  import opened Fixed
  import opened Matching
  import opened Accounting

  function BookOf(s: State, side: int): Book {
    if side == ASK then s.asks else s.bids
  }

  /** The most an order may still cost its owner: an ask its base quantity, a bid its limit times its quantity, or
      nothing if it bids less than nothing. */
  function Worst(side: int, price: int, quantity: int): int {
    if side == ASK then quantity else AtLeastZero(Amount(price, quantity))
  }

  function AtLeastZero(x: int): int {
    if x < 0 then 0 else x
  }

  function Reserve(side: int, owner: int): Order -> int {
    (o: Order) => if o.owner == owner then Worst(side, o.price, o.quantity) else 0
  }

  function Committed(side: int, owner: int): Line -> int {
    (l: Line) => if l.OrderLine? && l.side == side && l.owner == owner then Worst(side, l.price, l.quantity) else 0
  }

  /** What a match takes from a user: base coin from the asker, quote coin from the bider. */
  function Debit(side: int, owner: int): Line -> int {
    (l: Line) => if l.OrderLine? then 0
                 else if side == ASK then (if l.asker == owner then l.quantity else 0)
                 else (if l.bider == owner then l.amount else 0)
  }

  /** What a match gives to a user: base coin to the bider, quote coin to the asker. */
  function Gain(side: int, owner: int): Line -> int {
    (l: Line) => if l.OrderLine? then 0
                 else if side == ASK then (if l.bider == owner then l.quantity else 0)
                 else (if l.asker == owner then l.amount else 0)
  }

  // ---- quantities ----

  /** The orders a claim relies on: all of them, or all but the bids of owners whose changes no bank applies. */
  predicate Counts(all: bool, side: int, owner: int) {
    all || side == ASK || owner > 0
  }

  /** The orders that count have quantities that are not negative, and nothing else has been matched. */
  ghost predicate Sane(all: bool, log: seq<Line>) {
    && (forall i :: 0 <= i < |log| && log[i].OrderLine? && Counts(all, log[i].side, log[i].owner) ==>
          0 <= log[i].quantity)
    && (forall i :: 0 <= i < |log| && log[i].MatchLine? ==> Counts(all, BID, log[i].bider))
  }

  ghost predicate SaneBook(all: bool, side: int, b: Book) {
    forall o :: o in b && Counts(all, side, o.owner) ==> 0 <= o.quantity
  }

  lemma SaneMatch(all: bool, s: State)
    requires Inv(s) && Crossed(s) && SaneBook(all, ASK, s.asks) && SaneBook(all, BID, s.bids)
    requires Counts(all, BID, MatchOf(s).bider)
    ensures var l, s' := MatchOf(s), ApplyLine(s, MatchOf(s));
            && 0 <= l.quantity && SaneBook(all, ASK, s'.asks) && SaneBook(all, BID, s'.bids)
  {
    var l, s' := MatchOf(s), ApplyLine(s, MatchOf(s));
    assert s.asks[0] in s.asks && Last(s.bids) in s.bids;
    MatchTouchesTheBest(s);
    assert forall o :: o in s'.asks ==> o in s.asks || o == s.asks[0].(quantity := l.askQuantity);
    assert forall o :: o in s'.bids ==> o in s.bids || o == Last(s.bids).(quantity := l.bidQuantity);
  }

  lemma SanePrefix(all: bool, log: seq<Line>, n: nat)
    requires Sane(all, log) && n <= |log|
    ensures Sane(all, log[..n])
  {}

  lemma {:induction false} SaneBooks(all: bool, log: seq<Line>)
    requires Legal(START, log) && Sane(all, log)
    ensures var s := ApplyLines(START, log); SaneBook(all, ASK, s.asks) && SaneBook(all, BID, s.bids)
  {
    if log != [] {
      var before, l := log[..|log| - 1], log[|log| - 1];
      var s := ApplyLines(START, before);
      SanePrefix(all, log, |before|);
      SaneBooks(all, before);
      LegalKeepsInv(START, before);
      if Crossed(s) { SaneMatch(all, s); } else { NewOrderOriginates(s, l); }
    }
  }

  /** Every match has a quantity that is not negative. */
  ghost predicate Forward(log: seq<Line>) {
    forall i :: 0 <= i < |log| && log[i].MatchLine? ==> 0 <= log[i].quantity
  }

  lemma {:induction false} SaneLogsAreForward(all: bool, log: seq<Line>)
    requires Legal(START, log) && Sane(all, log)
    ensures Forward(log)
  {
    if log != [] {
      var before, n := log[..|log| - 1], |log| - 1;
      SanePrefix(all, log, n);
      SaneLogsAreForward(all, before);
      SaneBooks(all, before);
      LegalKeepsInv(START, before);
      assert forall i :: 0 <= i < n ==> before[i] == log[i];
      if log[n].MatchLine? { SaneMatch(all, ApplyLines(START, before)); }
    }
  }

  // ---- debits ----

  lemma FillFitsWorst(limit: int, price: int, remaining: int, quantity: int)
    requires price <= limit && 0 <= quantity <= remaining
    ensures Amount(price, quantity) + Worst(BID, limit, remaining - quantity) <= Worst(BID, limit, remaining)
  {
    FillFitsReserve(limit, price, remaining, quantity);
    if 0 <= limit {
      assert 0 <= limit * (remaining - quantity);
    } else {
      assert price * quantity <= 0 && limit * (remaining - quantity) <= 0;
    }
  }

  // One match never debits more than it releases.
  lemma MatchIsCovered(s: State, side: int, owner: int)
    requires Inv(s) && Crossed(s) && 0 <= MatchOf(s).quantity
    ensures Debit(side, owner)(MatchOf(s)) + Sum(BookOf(ApplyLine(s, MatchOf(s)), side), Reserve(side, owner))
            <= Sum(BookOf(s, side), Reserve(side, owner))
  {
    var l := MatchOf(s);
    MatchMoves(s, Reserve(side, owner));
    TradePriceIsFair(s);
    FillFitsWorst(Last(s.bids).price, l.price, Last(s.bids).quantity, l.quantity);
    assert Amount(Last(s.bids).price, 0) == 0;
  }

  /** Over every run and for every user: what the user's orders committed covers all debits plus what still rests. */
  lemma {:induction false} OrdersCoverDebits(log: seq<Line>, side: int, owner: int)
    requires Legal(START, log) && Forward(log) && (side == ASK || side == BID)
    ensures SumLog(log, Debit(side, owner)) + Sum(BookOf(ApplyLines(START, log), side), Reserve(side, owner))
            <= SumLog(log, Committed(side, owner))
  {
    if log != [] {
      var before, l := log[..|log| - 1], log[|log| - 1];
      var s := ApplyLines(START, before);
      assert forall i :: 0 <= i < |before| ==> before[i] == log[i];
      OrdersCoverDebits(before, side, owner);
      LegalKeepsInv(START, before);
      if Crossed(s) { MatchIsCovered(s, side, owner); } else { OrderAdds(s, l, Reserve(side, owner)); }
    }
  }

  lemma {:induction false} ReservesAreNonNegative(b: Book, side: int, owner: int)
    requires SaneBook(true, side, b) || side != ASK
    ensures 0 <= Sum(b, Reserve(side, owner))
  {
    if b != [] {
      assert b[0] in b && forall o :: o in b[1..] ==> o in b;
      ReservesAreNonNegative(b[1..], side, owner);
    }
  }
}
