/** The matching engine as it runs: books and counters updated in place, one log line per event. */
module Ome {
  import opened Books
  import opened Fixed
  import opened Matching
  import opened Recovery
  import opened Tables
  import Accounting
  import Writer

  datatype Error = TicketNotContinuous | InvalidOrderSide | OrderExists | WriteFailed

  datatype Status = Ok | Err(error: Error)

  /** At one of the polls the writer has saved every line of the file. */
  ghost predicate CaughtUp(log: seq<Line>, polls: seq<Writer.World>) {
    log == [] || exists k :: 0 <= k < |polls| && polls[k].savedLogID >= |log|
  }

  /** The writer as it is found in turn, and as it is when the tables are loaded, while the engine writes nothing. */
  ghost predicate Observed(log: seq<Line>, polls: seq<Writer.World>, writer: Writer.World) {
    && Writer.Faithful(writer) && writer.log == log
    && forall k :: 0 <= k < |polls| ==>
         Writer.Faithful(polls[k]) && polls[k].log == log && polls[k].savedLogID <= writer.savedLogID
  }

  // Tables that have caught up hold the whole log, and stay as they are until the engine writes.
  lemma CaughtUpTables(log: seq<Line>, polls: seq<Writer.World>, writer: Writer.World)
    requires CaughtUp(log, polls) && Observed(log, polls, writer)
    ensures writer.db == WriteLines(EMPTY, log)
  {
    assert log[..|log|] == log;
    assert writer.db.savedLogID == |log|;
  }

  class Worker {
    var asks: Book
    var bids: Book
    var orderID: int
    var logID: int
    var latestAskTicketID: int
    var latestBidTicketID: int

    // The log file, and how many more lines the disk will take before a write fails.
    var log: seq<Line>
    var room: nat

    // A new process finds whatever log an earlier one left.
    constructor (log: seq<Line>, room: nat)
      ensures State() == START && this.log == log && this.room == room
    {
      asks, bids := [], [];
      orderID, logID, latestAskTicketID, latestBidTicketID := 0, 0, 0, 0;
      this.log := log;
      this.room := room;
    }

    function State(): State
      reads this
    {
      Matching.State.State(asks, bids, orderID, logID, latestAskTicketID, latestBidTicketID)
    }

    method WriteLine(l: Line) returns (ok: bool)
      modifies this`log, this`room
      ensures ok == (old(room) > 0)
      ensures ok ==> log == old(log) + [l] && room == old(room) - 1
      ensures !ok ==> log == old(log) && room == 0
    {
      ok := room > 0;
      if ok {
        log := log + [l];
        room := room - 1;
      }
    }

    /** Cross the best ask with the best bid in place, and describe the match. */
    method CrossBest() returns (l: Line)
      requires Inv(State()) && asks != [] && bids != []
      modifies this`asks, this`bids, this`logID
      ensures l == MatchOf(old(State())) && State() == ApplyLine(old(State()), l)
    {
      var oa, ob := asks[0], bids[|bids| - 1];
      var price := ob.price;
      if oa.id < ob.id { price := oa.price; }
      var quantity := ob.quantity;
      if oa.quantity < ob.quantity { quantity := oa.quantity; }
      var amount := price * quantity / EXP;
      var newAsk := oa.(quantity := oa.quantity - quantity);
      var newBid := ob.(quantity := ob.quantity - quantity);

      CrossedInPlace(State(), newAsk, newBid);
      if newAsk.quantity == 0 { asks := Delete(asks, newAsk); } else { asks := ReplaceOrInsert(asks, newAsk); }
      if newBid.quantity == 0 { bids := Delete(bids, newBid); } else { bids := ReplaceOrInsert(bids, newBid); }
      logID := logID + 1;
      l := MatchLine(logID, oa.owner, oa.id, newAsk.price, newAsk.quantity,
                     ob.owner, ob.id, newBid.price, newBid.quantity, price, quantity, amount);
    }

    /** Match until the books no longer cross: the whole pass, or as much of it as the disk takes. */
    method TryMatch() returns (ok: bool)
      requires Inv(State())
      modifies this
      ensures var pass := PassOf(old(State()), old(log), old(room));
              ok == pass.fits && log == pass.log && (ok ==> room == pass.room && State() == pass.end)
      decreases |asks| + |bids|
    {
      ghost var s := State();
      if asks == [] || bids == [] { return true; }
      if asks[0].price > bids[|bids| - 1].price { return true; }

      OneMatchOfMany(s, log, room);
      var l := CrossBest();
      ok := WriteLine(l);
      if !ok { return; }
      if l.askQuantity == 0 || l.bidQuantity == 0 { ok := TryMatch(); }
    }

    method NewAsk(l: Line) returns (r: Status)
      requires BooksInv(asks, bids, orderID - 1) && l.OrderLine? && l.side == ASK && l.id == orderID
      modifies this
      ensures r.Ok? || r.error == WriteFailed
      ensures var pass := PassOf(Placed(old(State()), l), old(log), old(room));
              r.Ok? == pass.fits && log == pass.log && (r.Ok? ==> room == pass.room && State() == pass.end)
    {
      var o := OrderIn(l);
      OrderKeepsInv(State().(orderID := orderID - 1), l);
      if Has(asks, o) { return Err(OrderExists); }
      asks := ReplaceOrInsert(asks, o);
      var ok := TryMatch();
      r := if ok then Ok else Err(WriteFailed);
    }

    method NewBid(l: Line) returns (r: Status)
      requires BooksInv(asks, bids, orderID - 1) && l.OrderLine? && l.side == BID && l.id == orderID
      modifies this
      ensures r.Ok? || r.error == WriteFailed
      ensures var pass := PassOf(Placed(old(State()), l), old(log), old(room));
              r.Ok? == pass.fits && log == pass.log && (r.Ok? ==> room == pass.room && State() == pass.end)
    {
      var o := OrderIn(l);
      OrderKeepsInv(State().(orderID := orderID - 1), l);
      if Has(bids, o) { return Err(OrderExists); }
      bids := ReplaceOrInsert(bids, o);
      var ok := TryMatch();
      r := if ok then Ok else Err(WriteFailed);
    }

    /** Rest the order on its side, match, and count its ticket once all of that is logged. */
    method Place(l: Line) returns (r: Status)
      requires BooksInv(asks, bids, orderID - 1) && l.OrderLine? && (l.side == ASK || l.side == BID) && l.id == orderID
      modifies this
      ensures r.Ok? || r.error == WriteFailed
      ensures var pass := PassOf(Placed(old(State()), l), old(log), old(room));
              && r.Ok? == pass.fits && log == pass.log
              && (r.Ok? ==> room == pass.room && State() == Counted(pass.end, l.side, l.ticketID))
    {
      if l.side == ASK {
        r := NewAsk(l);
        if r.Ok? { latestAskTicketID := l.ticketID; }
      } else {
        r := NewBid(l);
        if r.Ok? { latestBidTicketID := l.ticketID; }
      }
    }

    /** A ticket is skipped, refused, or turned into an order and matched; "order exists" never happens. */
    method TicketToMatchEngine(t: Ticket) returns (r: Status)
      requires Inv(State())
      modifies this
      ensures Judge(old(State()), t) != Accept ==> unchanged(this)
      ensures match Judge(old(State()), t)
              case Duplicate => r == Ok
              case NotContinuous => r == Err(TicketNotContinuous)
              case InvalidSide => r == Err(InvalidOrderSide)
              case Accept =>
                var due := Handle(old(State()), t);
                && r == (if |due| <= old(room) then Ok else Err(WriteFailed))
                && log == old(log) + Fitting(due, old(room))
                && (r.Ok? ==> room == old(room) - |due| && State() == ApplyLines(old(State()), due))
                && (old(room) == 0 ==> State() == old(State()))
      ensures var due := Writes(old(State()), t);
              && r.Ok? == (!Refused(old(State()), t) && |due| <= old(room))
              && log == old(log) + Fitting(due, old(room))
              && (r.Ok? ==> room == old(room) - |due| && State() == ApplyLines(old(State()), due))
    {
      if t.side == ASK {
        if t.id <= latestAskTicketID { return Ok; }
        if t.id != latestAskTicketID + 1 { return Err(TicketNotContinuous); }
      } else if t.side == BID {
        if t.id <= latestBidTicketID { return Ok; }
        if t.id != latestBidTicketID + 1 { return Err(TicketNotContinuous); }
      } else {
        return Err(InvalidOrderSide);
      }
      r := Enter(t);
    }

    /** The accepting half of TicketToMatchEngine: number the order, log it, rest it, match. */
    method Enter(t: Ticket) returns (r: Status)
      requires Inv(State()) && Judge(State(), t) == Accept
      modifies this
      ensures var due := Handle(old(State()), t);
              && r == (if |due| <= old(room) then Ok else Err(WriteFailed))
              && log == old(log) + Fitting(due, old(room))
              && (r.Ok? ==> room == old(room) - |due| && State() == ApplyLines(old(State()), due))
              && (old(room) == 0 ==> State() == old(State()))
    {
      ghost var s := State();
      OneOrderOfMany(s, t, log, room);
      var l := OrderOf(State(), t);
      orderID := orderID + 1;
      logID := logID + 1;
      assert State() == s.(orderID := l.id, logID := l.logID);
      var ok := WriteLine(l);
      if !ok {
        orderID := orderID - 1;
        logID := logID - 1;
        assert State() == s;
        return Err(WriteFailed);
      }
      assert State() == s.(orderID := l.id, logID := l.logID);
      r := Place(l);
      if r.Err? {
        orderID := orderID - 1;
        logID := logID - 1;
      }
    }

    /** Rebuild the books from the rows of a query, and the counters from the tables. */
    method LoadAllOrders(db: Tables, rows: seq<Row>) returns (ok: bool)
      requires asks == [] && bids == []
      modifies this
      ensures ok == forall r :: r in rows ==> r.side == ASK || r.side == BID
      ensures ok ==> State() == Recover(db, rows, old(logID))
      ensures log == old(log) && room == old(room)
    {
      var i := 0;
      assert rows[..0] == [];
      while i < |rows|
        invariant 0 <= i <= |rows|
        invariant asks == Load(rows[..i], ASK) && bids == Load(rows[..i], BID)
        invariant forall j :: 0 <= j < i ==> rows[j].side == ASK || rows[j].side == BID
        invariant logID == old(logID) && log == old(log) && room == old(room)
      {
        assert rows[..i + 1][..i] == rows[..i] && Last(rows[..i + 1]) == rows[i];
        var o := OrderInRow(rows[i]);
        if rows[i].side == ASK {
          asks := ReplaceOrInsert(asks, o);
        } else if rows[i].side == BID {
          bids := ReplaceOrInsert(bids, o);
        } else {
          return false;
        }
        i := i + 1;
      }
      assert rows[..i] == rows;
      orderID, latestAskTicketID, latestBidTicketID := db.orderID, db.askTicket, db.bidTicket;
      ok := true;
    }

    /** Take the log ID from the file and look, again and again, at how far the writer says it is; `polls` are the
        states it is found in. Nothing is asked about an empty file. */
    method WaitForFiledb(polls: seq<Writer.World>) returns (ready: bool)
      requires logID == 0 && Legal(START, log)
      modifies this`logID
      ensures logID == |log| && ready == CaughtUp(log, polls)
    {
      Accounting.LogIDsAreConsecutive(log);
      if log == [] { return true; }
      logID := Last(log).logID;
      ready := false;
      var i := 0;
      while i < |polls| && !ready
        invariant 0 <= i <= |polls|
        invariant ready <==> exists k :: 0 <= k < i && polls[k].savedLogID >= |log|
      {
        ready := polls[i].savedLogID >= logID;
        i := i + 1;
      }
    }

    /** A process from start to halt: wait until the writer has caught up with the file, load the tables as it has left
        them by then, and match. It goes on exactly where the log left off, and writes nothing before that. */
    method Run(polls: seq<Writer.World>, writer: Writer.World, rows: seq<Row>, tickets: seq<Ticket>) returns (ok: bool)
      requires State() == START && Legal(START, log)
      requires Observed(log, polls, writer) && IsQuery(writer.db.orders, rows)
      modifies this
      ensures var s := ApplyLines(START, old(log));
              var first := MatchAll(s);
              var (rest, accepted) := Matching.Run(ApplyLines(s, first), tickets);
              if CaughtUp(old(log), polls) then
                && ok == (accepted && |first + rest| <= old(room))
                && log == old(log) + Fitting(first + rest, old(room))
                && (ok ==> State() == ApplyLines(s, first + rest))
              else !ok && log == old(log)
    {
      ok := WaitForFiledb(polls);
      if !ok { return; }
      CaughtUpTables(log, polls, writer);
      LegalLogsAgree(log);
      RecoveryIsExact(log, rows);
      LegalKeepsInv(START, log);
      ok := LoadAllOrders(writer.db, rows);
      if !ok { return; }
      ok := StartMatching(tickets);
    }

    /** The main loop: one matching pass, then the tickets of the channel until one is refused or a write fails. */
    method StartMatching(tickets: seq<Ticket>) returns (ok: bool)
      requires Inv(State())
      modifies this
      ensures var first := MatchAll(old(State()));
              var (rest, accepted) := Matching.Run(ApplyLines(old(State()), first), tickets);
              && ok == (accepted && |first + rest| <= old(room))
              && log == old(log) + Fitting(first + rest, old(room))
              && (ok ==> State() == ApplyLines(old(State()), first + rest))
    {
      ghost var s := State();
      ghost var first := MatchAll(s);
      ghost var rest := Matching.Run(ApplyLines(s, first), tickets).0;
      MatchAllUncrosses(s);
      LegalKeepsInv(s, first);
      FittingConcat(first, rest, room);
      ApplyConcat(s, first, rest);
      if |first| <= room { Associative(log, first, Fitting(rest, room - |first|)); }
      ok := TryMatch();
      if ok { ok := HandleTickets(tickets); }
    }

    method HandleTickets(tickets: seq<Ticket>) returns (ok: bool)
      requires Inv(State()) && !Crossed(State())
      modifies this
      ensures var (due, accepted) := Matching.Run(old(State()), tickets);
              && ok == (accepted && |due| <= old(room))
              && log == old(log) + Fitting(due, old(room))
              && (ok ==> State() == ApplyLines(old(State()), due))
    {
      ghost var outlook := OutlookOf(State(), tickets, log, room);
      var i := 0;
      assert tickets[0..] == tickets;
      while i < |tickets|
        invariant 0 <= i <= |tickets|
        invariant Inv(State()) && !Crossed(State())
        invariant outlook == OutlookOf(State(), tickets[i..], log, room)
      {
        assert tickets[i..][0] == tickets[i] && tickets[i..][1..] == tickets[i + 1..];
        OneTicketOfMany(State(), tickets[i..], log, room);
        var r := TicketToMatchEngine(tickets[i]);
        if r.Err? { return false; }
        i := i + 1;
      }
      assert tickets[i..] == [];
      ok := true;
    }
  }

  // The line of a match does to the books what finding its two orders again does.
  lemma CrossedInPlace(s: State, newAsk: Order, newBid: Order)
    requires Inv(s) && s.asks != [] && s.bids != []
    requires newAsk == s.asks[0].(quantity := MatchOf(s).askQuantity)
    requires newBid == s.bids[|s.bids| - 1].(quantity := MatchOf(s).bidQuantity)
    ensures var s' := ApplyLine(s, MatchOf(s));
            && s'.asks == (if newAsk.quantity == 0 then Delete(s.asks, newAsk) else ReplaceOrInsert(s.asks, newAsk))
            && s'.bids == (if newBid.quantity == 0 then Delete(s.bids, newBid) else ReplaceOrInsert(s.bids, newBid))
            && s' == s.(asks := s'.asks, bids := s'.bids, logID := s.logID + 1)
  {
    MinIsFound(s.asks, newAsk);
    MaxIsFound(s.bids, newBid, newBid.quantity);
    MatchTouchesTheBest(s);
  }

  /** What reaches the disk of the lines that were due. */
  function Fitting(due: seq<Line>, room: nat): seq<Line> {
    if |due| <= room then due else due[..room]
  }

  lemma FittingConcat(a: seq<Line>, b: seq<Line>, room: nat)
    ensures Fitting(a + b, room) == if |a| <= room then a + Fitting(b, room - |a|) else Fitting(a, room)
  {}

  lemma Associative(a: seq<Line>, b: seq<Line>, c: seq<Line>)
    ensures a + (b + c) == (a + b) + c
  {}

  /** What a matching pass comes to: the log after it, whether the disk holds it, the room left, and the state. */
  datatype Pass = Pass(log: seq<Line>, fits: bool, room: int, end: State)

  ghost function PassOf(s: State, log: seq<Line>, room: nat): Pass {
    var due := MatchAll(s);
    Pass(log + Fitting(due, room), |due| <= room, room - |due|, ApplyLines(s, due))
  }

  // One match of a pass: what is due is that match, then what is due after it.
  lemma OneMatchOfMany(s: State, log: seq<Line>, room: nat)
    requires Inv(s) && Crossed(s)
    ensures var l, s', pass := MatchOf(s), ApplyLine(s, MatchOf(s)), PassOf(s, log, room);
            && Inv(s') && |s'.asks| + |s'.bids| < |s.asks| + |s.bids|
            && (l.askQuantity == 0 || l.bidQuantity == 0)
            && (if room == 0 then !pass.fits && pass.log == log else pass == PassOf(s', log + [l], room - 1))
  {
    var l, s' := MatchOf(s), ApplyLine(s, MatchOf(s));
    MatchShrinks(s);
    MatchKeepsInv(s);
    ApplyCons(s, l, MatchAll(s'));
    FittingConcat([l], MatchAll(s'), room);
    if room > 0 { Associative(log, [l], Fitting(MatchAll(s'), room - 1)); }
  }

  // The order of a ticket is in its book while its matches run, but the ticket is not counted until they are done.
  function Placed(s: State, l: Line): State
    requires l.OrderLine?
  {
    if l.side == ASK then s.(asks := ReplaceOrInsert(s.asks, OrderIn(l)))
    else s.(bids := ReplaceOrInsert(s.bids, OrderIn(l)))
  }

  function Counted(s: State, side: int, ticketID: int): State {
    if side == ASK then s.(askTicket := ticketID) else s.(bidTicket := ticketID)
  }

  function Resting(s: State, t: Ticket): State {
    var l := OrderOf(s, t);
    Placed(s.(orderID := l.id, logID := l.logID), l)
  }

  // The order counted before its matches, or after them: the matches are the same.
  lemma CountingCanWait(s: State, t: Ticket)
    requires Inv(s) && Judge(s, t) == Accept
    ensures var mid, s1 := Resting(s, t), ApplyLine(s, OrderOf(s, t));
            && Inv(mid) && MatchAll(s1) == MatchAll(mid)
            && ApplyLines(s1, MatchAll(s1)) == Counted(ApplyLines(mid, MatchAll(mid)), t.side, t.id)
  {
    var s1 := ApplyLine(s, OrderOf(s, t));
    OrderKeepsInv(s, OrderOf(s, t));
    TicketIDsDoNotMatter(s1, s.askTicket, s.bidTicket);
    assert Resting(s, t) == s1.(askTicket := s.askTicket, bidTicket := s.bidTicket);
  }

  // One accepted ticket: its order line first, then a matching pass over the book that holds the order.
  lemma OneOrderOfMany(s: State, t: Ticket, log: seq<Line>, room: nat)
    requires Inv(s) && Judge(s, t) == Accept
    ensures var due := Handle(s, t);
            && Inv(Resting(s, t)) && |due| > 0
            && (room == 0 ==> log + Fitting(due, room) == log)
            && (room > 0 ==>
                  var pass := PassOf(Resting(s, t), log + [OrderOf(s, t)], room - 1);
                  && pass.fits == (|due| <= room) && pass.log == log + Fitting(due, room) && pass.room == room - |due|
                  && Counted(pass.end, t.side, t.id) == ApplyLines(s, due))
  {
    var l, due := OrderOf(s, t), MatchAll(Resting(s, t));
    CountingCanWait(s, t);
    ApplyCons(s, l, due);
    FittingConcat([l], due, room);
    if room > 0 { Associative(log, [l], Fitting(due, room - 1)); }
  }

  /** The lines a ticket is due, and whether the main loop ends at it. */
  function Writes(s: State, t: Ticket): seq<Line> {
    if Judge(s, t) == Accept then Handle(s, t) else []
  }

  predicate Refused(s: State, t: Ticket) {
    Judge(s, t) == NotContinuous || Judge(s, t) == InvalidSide
  }

  lemma RunUnfolds(s: State, ts: seq<Ticket>)
    requires ts != []
    ensures Refused(s, ts[0]) ==> Matching.Run(s, ts) == ([], false)
    ensures !Refused(s, ts[0]) ==>
              var rest := Matching.Run(ApplyLines(s, Writes(s, ts[0])), ts[1..]);
              Matching.Run(s, ts) == (Writes(s, ts[0]) + rest.0, rest.1)
  {
    if Judge(s, ts[0]) == Duplicate {
      assert Writes(s, ts[0]) == [] && ApplyLines(s, []) == s;
      assert [] + Matching.Run(s, ts[1..]).0 == Matching.Run(s, ts[1..]).0;
    }
  }

  lemma WritesRests(s: State, t: Ticket)
    requires Inv(s) && !Crossed(s)
    ensures Inv(ApplyLines(s, Writes(s, t))) && !Crossed(ApplyLines(s, Writes(s, t)))
  {
    if Judge(s, t) == Accept { HandleIsLegal(s, t); }
  }

  /** What a stream of tickets will come to: the log in the end, whether the disk holds it, whether every ticket is
      taken or skipped, and the engine's state if so. */
  datatype Outlook = Outlook(log: seq<Line>, fits: bool, accepted: bool, end: State)

  ghost function OutlookOf(s: State, ts: seq<Ticket>, log: seq<Line>, room: nat): Outlook {
    var (due, accepted) := Matching.Run(s, ts);
    Outlook(log + Fitting(due, room), |due| <= room, accepted, ApplyLines(s, due))
  }

  // One ticket of a stream: it ends the stream, or leaves the outlook as it was.
  lemma OneTicketOfMany(s: State, ts: seq<Ticket>, log: seq<Line>, room: nat)
    requires Inv(s) && !Crossed(s) && ts != []
    ensures var lines, outlook := Writes(s, ts[0]), OutlookOf(s, ts, log, room);
            if Refused(s, ts[0]) then lines == [] && !outlook.accepted && outlook.log == log
            else
              var s' := ApplyLines(s, lines);
              && Inv(s') && !Crossed(s')
              && (|lines| <= room ==> outlook == OutlookOf(s', ts[1..], log + lines, room - |lines|))
              && (|lines| > room ==> !outlook.fits && outlook.log == log + Fitting(lines, room))
  {
    RunUnfolds(s, ts);
    WritesRests(s, ts[0]);
    var lines := Writes(s, ts[0]);
    var rest := Matching.Run(ApplyLines(s, lines), ts[1..]).0;
    FittingConcat(lines, rest, room);
    ApplyConcat(s, lines, rest);
    if |lines| <= room { Associative(log, lines, Fitting(rest, room - |lines|)); }
  }
}
