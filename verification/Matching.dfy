/** The matching engine as a state machine over the lines of its log. */
module Matching {
  import opened Books
  import opened Fixed

  const ASK: int := 1
  const BID: int := 2

  datatype Ticket = Ticket(id: int, owner: int, feeRate: int, side: int, kind: int, price: real, quantity: real)

  /** One line of the OME log. Every line holds exactly one record: a new order or a match. */
  datatype Line =
    | OrderLine(logID: int, id: int, ticketID: int, owner: int, feeRate: int, side: int, kind: int,
                price: int, quantity: int)
    | MatchLine(logID: int, asker: int, askID: int, askPrice: int, askQuantity: int,
                bider: int, bidID: int, bidPrice: int, bidQuantity: int,
                price: int, quantity: int, amount: int)

  datatype State = State(asks: Book, bids: Book, orderID: int, logID: int, askTicket: int, bidTicket: int)

  const START := State([], [], 0, 0, 0, 0)

  function Last<T>(s: seq<T>): T
    requires s != []
  {
    s[|s| - 1]
  }

  predicate Crossed(s: State) {
    s.asks != [] && s.bids != [] && s.asks[0].price <= Last(s.bids).price
  }

  /** The match of the best ask with the best bid: the older order's price, the smaller quantity. */
  function MatchOf(s: State): Line
    requires s.asks != [] && s.bids != []
  {
    var oa, ob := s.asks[0], Last(s.bids);
    var price := if oa.id < ob.id then oa.price else ob.price;
    var quantity := if oa.quantity < ob.quantity then oa.quantity else ob.quantity;
    MatchLine(s.logID + 1, oa.owner, oa.id, oa.price, oa.quantity - quantity,
              ob.owner, ob.id, ob.price, ob.quantity - quantity,
              price, quantity, Amount(price, quantity))
  }

  function OrderIn(l: Line): Order
    requires l.OrderLine?
  {
    Order(l.id, l.ticketID, l.owner, l.price, l.quantity)
  }

  /** Reading a line back: an order rests in its book, a match leaves the remaining quantities it names. */
  function ApplyLine(s: State, l: Line): State {
    match l
    case OrderLine(logID, id, ticketID, _, _, side, _, _, _) =>
      if side == ASK then
        s.(asks := ReplaceOrInsert(s.asks, OrderIn(l)), orderID := id, logID := logID, askTicket := ticketID)
      else
        s.(bids := ReplaceOrInsert(s.bids, OrderIn(l)), orderID := id, logID := logID, bidTicket := ticketID)
    case MatchLine(logID, _, askID, _, askQuantity, _, bidID, _, bidQuantity, _, _, _) =>
      s.(asks := SetRemaining(s.asks, askID, askQuantity), bids := SetRemaining(s.bids, bidID, bidQuantity),
         logID := logID)
  }

  function ApplyLines(s: State, log: seq<Line>): State {
    if log == [] then s else ApplyLine(ApplyLines(s, log[..|log| - 1]), Last(log))
  }

  /** The lines TryMatch writes, until the books no longer cross. */
  function MatchAll(s: State): seq<Line>
    decreases |s.asks| + |s.bids|
  {
    if !Crossed(s) then []
    else
      MatchShrinks(s);
      [MatchOf(s)] + MatchAll(ApplyLine(s, MatchOf(s)))
  }

  datatype Verdict = Duplicate | NotContinuous | InvalidSide | Accept

  function Judge(s: State, t: Ticket): Verdict {
    if t.side != ASK && t.side != BID then InvalidSide
    else
      var latest := if t.side == ASK then s.askTicket else s.bidTicket;
      if t.id <= latest then Duplicate else if t.id != latest + 1 then NotContinuous else Accept
  }

  function OrderOf(s: State, t: Ticket): Line {
    OrderLine(s.logID + 1, s.orderID + 1, t.id, t.owner, t.feeRate, t.side, t.kind,
              DecimalToInt(t.price), DecimalToInt(t.quantity))
  }

  /** The lines one accepted ticket writes: its order, then every match it makes possible. */
  function Handle(s: State, t: Ticket): seq<Line> {
    [OrderOf(s, t)] + MatchAll(ApplyLine(s, OrderOf(s, t)))
  }

  /** The log lines of a stream of tickets, and whether no ticket was refused. */
  function Run(s: State, ts: seq<Ticket>): (seq<Line>, bool)
    decreases |ts|
  {
    if ts == [] then ([], true)
    else match Judge(s, ts[0])
      case Duplicate => Run(s, ts[1..])
      case Accept =>
        var lines := Handle(s, ts[0]);
        var (rest, ok) := Run(ApplyLines(s, lines), ts[1..]);
        (lines + rest, ok)
      case _ => ([], false)
  }

  /** The first line of an accepted ticket: the next numbers, and the ticket's own data at the engine's scale. */
  lemma AcceptedOrder(s: State, t: Ticket)
    requires Judge(s, t) == Accept
    ensures Handle(s, t) != []
    ensures var l := Handle(s, t)[0];
            && l.OrderLine? && l.logID == s.logID + 1 && l.id == s.orderID + 1
            && l.ticketID == t.id && l.owner == t.owner && l.feeRate == t.feeRate
            && l.side == t.side && l.kind == t.kind
            && Truncates(l.price, t.price) && Truncates(l.quantity, t.quantity)
  {
    ScalingTruncates(t.price, DecimalToInt(t.price));
    ScalingTruncates(t.quantity, DecimalToInt(t.quantity));
  }

  /** Books are sorted, their orders carry issued IDs, and no order rests on both sides. */
  ghost predicate BooksInv(asks: Book, bids: Book, orderID: int) {
    && Sorted(asks) && Sorted(bids) && 0 <= orderID
    && (forall o :: o in asks ==> 1 <= o.id <= orderID)
    && (forall o :: o in bids ==> 1 <= o.id <= orderID)
    && (forall a, b :: a in asks && b in bids ==> a.id != b.id)
  }

  ghost predicate Inv(s: State) {
    BooksInv(s.asks, s.bids, s.orderID)
  }

  /** The only line the engine can write next: a match while the books cross, otherwise a new order. */
  ghost predicate LegalLine(s: State, l: Line) {
    if Crossed(s) then l == MatchOf(s)
    else
      && l.OrderLine? && l.logID == s.logID + 1 && l.id == s.orderID + 1
      && ((l.side == ASK && l.ticketID == s.askTicket + 1) || (l.side == BID && l.ticketID == s.bidTicket + 1))
  }

  ghost predicate Legal(s: State, log: seq<Line>) {
    log == [] ||
    (Legal(s, log[..|log| - 1]) && LegalLine(ApplyLines(s, log[..|log| - 1]), Last(log)))
  }

  // ---- one match ----

  lemma SetRemainingSize(b: Book, id: int, q: int)
    requires HasID(b, id)
    ensures |SetRemaining(b, id, q)| == if q == 0 then |b| - 1 else |b|
  {
    if b[0].id != id {
      var i :| 0 <= i < |b| && b[i].id == id;
      assert b[1..][i - 1].id == id;
      SetRemainingSize(b[1..], id, q);
    }
  }

  // Every match fills at least one of its two orders, so the number of resting orders falls.
  lemma MatchShrinks(s: State)
    requires s.asks != [] && s.bids != []
    ensures var l, s' := MatchOf(s), ApplyLine(s, MatchOf(s));
            && (l.askQuantity == 0 || l.bidQuantity == 0)
            && |s'.asks| == |s.asks| - (if l.askQuantity == 0 then 1 else 0)
            && |s'.bids| == |s.bids| - (if l.bidQuantity == 0 then 1 else 0)
  {
    var l := MatchOf(s);
    assert Last(s.bids) == s.bids[|s.bids| - 1];
    SetRemainingSize(s.asks, l.askID, l.askQuantity);
    SetRemainingSize(s.bids, l.bidID, l.bidQuantity);
  }

  // A match touches the front of the asks and the back of the bids, and nothing else.
  lemma MatchTouchesTheBest(s: State)
    requires Inv(s) && s.asks != [] && s.bids != []
    ensures var l, s' := MatchOf(s), ApplyLine(s, MatchOf(s));
            && s'.asks == (if l.askQuantity == 0 then [] else [s.asks[0].(quantity := l.askQuantity)]) + s.asks[1..]
            && s'.bids == s.bids[..|s.bids| - 1] +
                          (if l.bidQuantity == 0 then [] else [Last(s.bids).(quantity := l.bidQuantity)])
  {
    MinIsFound(s.asks, s.asks[0]);
    MaxIsFound(s.bids, Last(s.bids), MatchOf(s).bidQuantity);
  }

  /** Who is matched: of the asks the cheapest, the oldest first; of the bids the dearest, but the newest first. */
  lemma BestIsMatched(s: State)
    requires Inv(s) && Crossed(s)
    ensures var l := MatchOf(s);
            && (forall o :: o in s.asks ==> l.askPrice < o.price || (l.askPrice == o.price && l.askID <= o.id))
            && (forall o :: o in s.bids ==> o.price < l.bidPrice || (o.price == l.bidPrice && o.id <= l.bidID))
  {
    forall o | o in s.asks ensures s.asks[0] == o || Less(s.asks[0], o) {
      var i :| 0 <= i < |s.asks| && s.asks[i] == o;
    }
    forall o | o in s.bids ensures Last(s.bids) == o || Less(o, Last(s.bids)) {
      var i :| 0 <= i < |s.bids| && s.bids[i] == o;
    }
  }

  // Every trade is at the limit of the older order, inside both limits.
  lemma TradePriceIsFair(s: State)
    requires Crossed(s)
    ensures var l := MatchOf(s);
            && l.askPrice <= l.price <= l.bidPrice
            && (l.price == if l.askID < l.bidID then l.askPrice else l.bidPrice)
  {}

  // ---- the invariant ----

  lemma MatchKeepsInv(s: State)
    requires Inv(s) && s.asks != [] && s.bids != []
    ensures Inv(ApplyLine(s, MatchOf(s)))
  {
    MatchTouchesTheBest(s);
    BestUpdateKeepsOrder(s.asks, MatchOf(s).askQuantity);
    BestUpdateKeepsOrder(s.bids, MatchOf(s).bidQuantity);
    assert s.asks[0] in s.asks && Last(s.bids) in s.bids;
  }

  lemma OrderKeepsInv(s: State, l: Line)
    requires Inv(s) && l.OrderLine? && l.id == s.orderID + 1
    ensures Inv(ApplyLine(s, l))
    ensures l.side == ASK ==> !Has(s.asks, OrderIn(l))
    ensures l.side != ASK ==> !Has(s.bids, OrderIn(l))
  {
    forall i | 0 <= i < |s.asks| ensures s.asks[i].id != l.id { assert s.asks[i] in s.asks; }
    forall i | 0 <= i < |s.bids| ensures s.bids[i].id != l.id { assert s.bids[i] in s.bids; }
    InsertContents(s.asks, OrderIn(l));
    InsertContents(s.bids, OrderIn(l));
  }

  lemma LegalLineKeepsInv(s: State, l: Line)
    requires Inv(s) && LegalLine(s, l)
    ensures Inv(ApplyLine(s, l))
  {
    if Crossed(s) { MatchKeepsInv(s); } else { OrderKeepsInv(s, l); }
  }

  lemma {:induction false} LegalKeepsInv(s: State, log: seq<Line>)
    requires Inv(s) && Legal(s, log)
    ensures Inv(ApplyLines(s, log))
  {
    if log != [] {
      LegalKeepsInv(s, log[..|log| - 1]);
      LegalLineKeepsInv(ApplyLines(s, log[..|log| - 1]), Last(log));
    }
  }

  // ---- logs ----

  lemma {:induction false} ApplyConcat(s: State, a: seq<Line>, b: seq<Line>)
    ensures ApplyLines(s, a + b) == ApplyLines(ApplyLines(s, a), b)
  {
    if b == [] {
      assert a + b == a;
    } else {
      ApplyConcat(s, a, b[..|b| - 1]);
      assert (a + b)[..|a + b| - 1] == a + b[..|b| - 1];
    }
  }

  lemma {:induction false} LegalConcat(s: State, a: seq<Line>, b: seq<Line>)
    ensures Legal(s, a + b) <==> Legal(s, a) && Legal(ApplyLines(s, a), b)
  {
    if b == [] {
      assert a + b == a;
    } else {
      LegalConcat(s, a, b[..|b| - 1]);
      ApplyConcat(s, a, b[..|b| - 1]);
      assert (a + b)[..|a + b| - 1] == a + b[..|b| - 1];
    }
  }

  lemma ApplyOne(s: State, l: Line)
    ensures ApplyLines(s, [l]) == ApplyLine(s, l)
    ensures Legal(s, [l]) <==> LegalLine(s, l)
  {
    assert [l][..0] == [];
    assert ApplyLines(s, []) == s;
  }

  lemma ApplyCons(s: State, l: Line, rest: seq<Line>)
    ensures ApplyLines(s, [l] + rest) == ApplyLines(ApplyLine(s, l), rest)
    ensures Legal(s, [l] + rest) <==> LegalLine(s, l) && Legal(ApplyLine(s, l), rest)
  {
    ApplyOne(s, l);
    ApplyConcat(s, [l], rest);
    LegalConcat(s, [l], rest);
  }

  // Matching writes a legal log, and it always stops with books that do not cross.
  lemma {:induction false} MatchAllUncrosses(s: State)
    requires Inv(s)
    ensures Legal(s, MatchAll(s))
    ensures !Crossed(ApplyLines(s, MatchAll(s)))
    decreases |s.asks| + |s.bids|
  {
    if Crossed(s) {
      var s' := ApplyLine(s, MatchOf(s));
      MatchShrinks(s);
      MatchKeepsInv(s);
      MatchAllUncrosses(s');
      ApplyCons(s, MatchOf(s), MatchAll(s'));
    }
  }

  lemma HandleIsLegal(s: State, t: Ticket)
    requires Inv(s) && !Crossed(s) && Judge(s, t) == Accept
    ensures Legal(s, Handle(s, t)) && Inv(ApplyLines(s, Handle(s, t)))
    ensures !Crossed(ApplyLines(s, Handle(s, t)))
  {
    var l := OrderOf(s, t);
    OrderKeepsInv(s, l);
    MatchAllUncrosses(ApplyLine(s, l));
    ApplyCons(s, l, MatchAll(ApplyLine(s, l)));
    LegalKeepsInv(s, Handle(s, t));
  }

  // Whatever arrives on the ticket channel, the log stays legal and the books are uncrossed between tickets.
  lemma {:induction false} RunIsLegal(s: State, ts: seq<Ticket>)
    requires Inv(s) && !Crossed(s)
    ensures var log := Run(s, ts).0;
            Legal(s, log) && Inv(ApplyLines(s, log)) && !Crossed(ApplyLines(s, log))
    decreases |ts|
  {
    if ts != [] {
      match Judge(s, ts[0]) {
        case Duplicate => RunIsLegal(s, ts[1..]);
        case Accept =>
          var lines := Handle(s, ts[0]);
          HandleIsLegal(s, ts[0]);
          var s' := ApplyLines(s, lines);
          RunIsLegal(s', ts[1..]);
          LegalConcat(s, lines, Run(s', ts[1..]).0);
          ApplyConcat(s, lines, Run(s', ts[1..]).0);
        case _ =>
      }
    }
  }

  // The matching pass neither reads nor writes the ticket counters.
  lemma {:induction false} TicketIDsDoNotMatter(s: State, a: int, b: int)
    requires Inv(s)
    ensures var s' := s.(askTicket := a, bidTicket := b);
            && MatchAll(s') == MatchAll(s)
            && ApplyLines(s', MatchAll(s)) == ApplyLines(s, MatchAll(s)).(askTicket := a, bidTicket := b)
    ensures ApplyLines(s, MatchAll(s)).askTicket == s.askTicket
    ensures ApplyLines(s, MatchAll(s)).bidTicket == s.bidTicket
    decreases |s.asks| + |s.bids|
  {
    if Crossed(s) {
      var l := MatchOf(s);
      var next := ApplyLine(s, l);
      MatchShrinks(s);
      MatchKeepsInv(s);
      TicketIDsDoNotMatter(next, a, b);
      ApplyCons(s, l, MatchAll(next));
      ApplyCons(s.(askTicket := a, bidTicket := b), l, MatchAll(next));
    }
  }
}
