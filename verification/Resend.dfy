/** After a crash the banks may send every ticket again: the engine takes exactly those its log does not have. */
module Resend {
  import opened Matching
  import opened Recovery
  import opened Tables
  import Accounting
  import Writer

  datatype Counts = Counts(ask: int, bid: int)

  function CountsOf(s: State): Counts {
    Counts(s.askTicket, s.bidTicket)
  }

  function Count(c: Counts, t: Ticket): Counts {
    if t.side == ASK then c.(ask := t.id) else c.(bid := t.id)
  }

  function CountAll(c: Counts, ts: seq<Ticket>): Counts
    decreases |ts|
  {
    if ts == [] then c else CountAll(Count(c, ts[0]), ts[1..])
  }

  lemma CountShift(c: Counts, ts: seq<Ticket>, n: nat)
    requires 1 <= n <= |ts|
    ensures CountAll(c, ts[..n]) == CountAll(Count(c, ts[0]), ts[1..][..n - 1])
  {
    assert ts[..n][1..] == ts[1..][..n - 1] && ts[..n][0] == ts[0];
  }

  // A ticket that is taken, or was taken before, is skipped when it comes again.
  lemma AcceptedHead(c: Counts, ts: seq<Ticket>)
    requires Accepted(c.ask, c.bid, ts) != []
    ensures var t, todo := ts[0], Accepted(c.ask, c.bid, ts);
            && ts != [] && (t.side == ASK || t.side == BID)
            && (if t.id <= (if t.side == ASK then c.ask else c.bid) then todo == Accepted(c.ask, c.bid, ts[1..])
                else
                  var d := Count(c, t);
                  todo[0] == t && todo[1..] == Accepted(d.ask, d.bid, ts[1..]) && c.ask <= d.ask && c.bid <= d.bid)
    ensures forall d: Counts ::
              (var t := ts[0]; t.id <= (if t.side == ASK then d.ask else d.bid)) ==>
              Accepted(d.ask, d.bid, ts) == Accepted(d.ask, d.bid, ts[1..])
  {}

  // A stream sent again from its beginning: what was taken is skipped, and nothing else is.
  lemma {:induction false} ResentAccepted(c: Counts, ts: seq<Ticket>, n: nat)
    requires n <= |Accepted(c.ask, c.bid, ts)|
    ensures var todo := Accepted(c.ask, c.bid, ts);
            var d := CountAll(c, todo[..n]);
            && Accepted(d.ask, d.bid, ts) == todo[n..] && c.ask <= d.ask && c.bid <= d.bid
    decreases |ts|
  {
    var todo := Accepted(c.ask, c.bid, ts);
    if n == 0 {
      assert todo[..0] == [] && todo[0..] == todo;
    } else {
      AcceptedHead(c, ts);
      var t := ts[0];
      if t.id <= (if t.side == ASK then c.ask else c.bid) {
        ResentAccepted(c, ts[1..], n);
      } else {
        ResentAccepted(Count(c, t), ts[1..], n - 1);
        CountShift(c, todo, n);
        assert todo[1..][n - 1..] == todo[n..];
      }
    }
  }

  // Matches do not count tickets.
  lemma {:induction false} MatchesKeepCounts(s: State, n: nat)
    requires Inv(s) && n <= |MatchAll(s)|
    ensures CountsOf(ApplyLines(s, MatchAll(s)[..n])) == CountsOf(s)
    decreases n
  {
    if n == 0 {
      assert MatchAll(s)[..0] == [];
    } else {
      var s' := ApplyLine(s, MatchOf(s));
      MatchShrinks(s);
      MatchKeepsInv(s);
      MatchesKeepCounts(s', n - 1);
      CutConcat([MatchOf(s)], MatchAll(s'), n);
      ApplyCons(s, MatchOf(s), MatchAll(s')[..n - 1]);
    }
  }

  lemma CountOne(c: Counts, t: Ticket)
    ensures CountAll(c, [t]) == Count(c, t)
  {
    assert [t][1..] == [];
  }

  lemma InsideIsMatching(s: State, ts: seq<Ticket>, k: nat)
    requires Inv(s) && ts != [] && 1 <= k <= |Handle(s, ts[0])|
    ensures var s1 := ApplyLine(s, OrderOf(s, ts[0]));
            && k <= |Blocks(s, ts)| && k - 1 <= |MatchAll(s1)| && Inv(s1)
            && ApplyLines(s, Blocks(s, ts)[..k]) == ApplyLines(s1, MatchAll(s1)[..k - 1])
            && Orders(Blocks(s, ts)[..k]) == 1
  {
    var l, s1 := OrderOf(s, ts[0]), ApplyLine(s, OrderOf(s, ts[0]));
    OrderKeepsInv(s, l);
    CutConcat([l], MatchAll(s1), k);
    CutConcat(Handle(s, ts[0]), Blocks(ApplyLines(s, Handle(s, ts[0])), ts[1..]), k);
    ApplyCons(s, l, MatchAll(s1)[..k - 1]);
    HandleOrders(s, ts[0], k - 1);
  }

  lemma CountsInside(s: State, ts: seq<Ticket>, k: nat)
    requires Inv(s) && ts != [] && (ts[0].side == ASK || ts[0].side == BID) && 1 <= k <= |Handle(s, ts[0])|
    ensures k <= |Blocks(s, ts)| && Orders(Blocks(s, ts)[..k]) == 1
    ensures CountsOf(ApplyLines(s, Blocks(s, ts)[..k])) == CountAll(CountsOf(s), ts[..1])
  {
    InsideIsMatching(s, ts, k);
    MatchesKeepCounts(ApplyLine(s, OrderOf(s, ts[0])), k - 1);
    assert ts[..1] == [ts[0]];
    CountOne(CountsOf(s), ts[0]);
  }

  // The ticket counters at any point of a log are those of the tickets logged so far.
  lemma {:induction false} BlocksCount(s: State, ts: seq<Ticket>, k: nat)
    requires Inv(s) && k <= |Blocks(s, ts)|
    requires forall i :: 0 <= i < |ts| ==> ts[i].side == ASK || ts[i].side == BID
    ensures var n := Orders(Blocks(s, ts)[..k]);
            0 <= n <= |ts| && CountsOf(ApplyLines(s, Blocks(s, ts)[..k])) == CountAll(CountsOf(s), ts[..n])
    decreases |ts|
  {
    if k == 0 {
      assert Blocks(s, ts)[..0] == [] && ts[..0] == [];
      assert Orders([]) == 0 && ApplyLines(s, []) == s;
    } else if k <= |Handle(s, ts[0])| {
      CountsInside(s, ts, k);
    } else {
      HandleCounts(s, ts[0]);
      BlocksCount(ApplyLines(s, Handle(s, ts[0])), ts[1..], k - |Handle(s, ts[0])|);
      var first := Handle(s, ts[0]);
      CutBehind(s, ts, k, first, ApplyLines(s, first), Blocks(ApplyLines(s, first), ts[1..]));
      CountShift(CountsOf(s), ts, Orders(Blocks(s, ts)[..k]));
    }
  }

  /** The crash theorem for banks that send everything again: whatever prefix of the log survived, the restarted engine
      writes exactly the missing lines and ends in the same state. */
  lemma CrashIsInvisibleOnResend(tickets: seq<Ticket>, k: nat, rows: seq<Row>)
    requires k <= |Run(START, tickets).0|
    requires IsQuery(WriteLines(EMPTY, Run(START, tickets).0[..k]).orders, rows)
    ensures var log := Run(START, tickets).0;
            var s := Recover(WriteLines(EMPTY, log[..k]), rows, k);
            var missing := MatchAll(s) + Run(ApplyLines(s, MatchAll(s)), tickets).0;
            && log[..k] + missing == log
            && ApplyLines(s, missing) == ApplyLines(START, log)
  {
    var log, todo := Run(START, tickets).0, Accepted(0, 0, tickets);
    RunIsItsAcceptedTickets(START, tickets);
    AcceptedSides(0, 0, tickets);
    BlocksCount(START, todo, k);
    ResentAccepted(Counts(0, 0), tickets, Orders(log[..k]));
    RecoveredPoint(tickets, k, rows);
    CrashIsInvisible(tickets, k, rows, tickets);
  }

  /** The same after any life of the writer: any batches, aborted transactions and restarts, once it has caught up with
      the lines that survived. */
  lemma CrashIsInvisibleAfterAnyWrites(tickets: seq<Ticket>, rounds: seq<Writer.Event>, rows: seq<Row>)
    requires var w := Writer.Live(Writer.BEGIN, rounds);
             w.log <= Run(START, tickets).0 && w.db.savedLogID == |w.log| && IsQuery(w.db.orders, rows)
    ensures var log := Run(START, tickets).0;
            var w := Writer.Live(Writer.BEGIN, rounds);
            var s := Recover(w.db, rows, |w.log|);
            var missing := MatchAll(s) + Run(ApplyLines(s, MatchAll(s)), tickets).0;
            && w.log + missing == log
            && ApplyLines(s, missing) == ApplyLines(START, log)
  {
    var w, log := Writer.Live(Writer.BEGIN, rounds), Run(START, tickets).0;
    var k := |w.log|;
    assert w.log == log[..k] && w.log[..k] == w.log;
    RunIsLegal(START, tickets);
    Accounting.LegalPrefix(START, log, k);
    LegalLogsAreWellformed(w.log);
    Writer.TablesFollowTheLog(rounds);
    CrashIsInvisibleOnResend(tickets, k, rows);
  }
}
