/** The two streams between a bank and the engine: tickets one way, balance changes the other. */
module Streams {
  import opened Fixed
  import opened Matching
  import opened Ledger
  import Tables

  // ---- tickets ----

  /** What the bank pushes for a ticket of its log; the fee rate is not sent. */
  function Pushed(t: TicketLog): Ticket {
    Ticket(t.id, t.owner, 0, t.side, t.kind, t.price, t.quantity)
  }

  /** The message is that ticket, with fee rate 0. */
  predicate Carries(m: Ticket, t: TicketLog) {
    && m.id == t.id && m.owner == t.owner && m.feeRate == 0 && m.side == t.side && m.kind == t.kind
    && m.price == t.price && m.quantity == t.quantity
  }

  /** The tickets of one side in the engine's channel. */
  function Of(channel: seq<Ticket>, side: int): seq<Ticket> {
    if channel == [] then []
    else (if channel[0].side == side then [channel[0]] else []) + Of(channel[1..], side)
  }

  /** The latest ticket once the queued ones are consumed. */
  function Reach(latest: int, q: seq<Ticket>): int
    decreases |q|
  {
    if q == [] then latest else Reach(Tables.Max(latest, q[0].id), q[1..])
  }

  /** Each queued ticket is a duplicate or the next one when its turn comes. */
  ghost predicate Gapless(latest: int, q: seq<Ticket>)
    decreases |q|
  {
    q == [] || (q[0].id <= latest + 1 && Gapless(Tables.Max(latest, q[0].id), q[1..]))
  }

  lemma {:induction false} OfSnoc(channel: seq<Ticket>, t: Ticket, side: int)
    ensures Of(channel + [t], side) == Of(channel, side) + (if t.side == side then [t] else [])
  {
    if channel == [] {
      assert channel + [t] == [t] && [t][1..] == [];
    } else {
      var rest, first := channel[1..], if channel[0].side == side then [channel[0]] else [];
      var last := if t.side == side then [t] else [];
      assert (channel + [t])[1..] == rest + [t] && (channel + [t])[0] == channel[0];
      OfSnoc(rest, t, side);
      assert first + (Of(rest, side) + last) == (first + Of(rest, side)) + last;
    }
  }

  lemma {:induction false} GaplessSnoc(latest: int, q: seq<Ticket>, t: Ticket)
    ensures Gapless(latest, q + [t]) <==> Gapless(latest, q) && t.id <= Reach(latest, q) + 1
    ensures Reach(latest, q + [t]) == Tables.Max(Reach(latest, q), t.id)
    ensures Reach(latest, q) >= latest
    decreases |q|
  {
    if q == [] {
      assert q + [t] == [t] && [t][1..] == [];
    } else {
      assert (q + [t])[1..] == q[1..] + [t];
      GaplessSnoc(Tables.Max(latest, q[0].id), q[1..], t);
    }
  }

  // A stream that breaks loses what is in flight, and the rest is still gapless.
  lemma {:induction false} GaplessPrefix(latest: int, a: seq<Ticket>, b: seq<Ticket>)
    requires Gapless(latest, a + b)
    ensures Gapless(latest, a) && Reach(latest, a) >= latest
    decreases |a|
  {
    if a != [] {
      assert (a + b)[0] == a[0] && (a + b)[1..] == a[1..] + b;
      GaplessPrefix(Tables.Max(latest, a[0].id), a[1..], b);
    }
  }

  /** One ticket stream: the ID the engine asked from, the server's place among the tickets, what is in flight. */
  datatype Down = Down(lastID: int, pos: nat, inFlight: seq<Ticket>)

  ghost predicate Genuine(issued: seq<TicketLog>, t: Ticket) {
    1 <= t.id <= |issued| && Carries(t, issued[t.id - 1])
  }

  /** Everything on its way is a ticket of the bank, and consuming it in order never meets a gap. */
  ghost predicate TicketsFlow(issued: seq<TicketLog>, d: Down, side: int, latest: int, channel: seq<Ticket>) {
    var q := Of(channel, side) + d.inFlight;
    && 0 <= d.lastID <= latest <= |issued| && d.pos <= |issued|
    && d.pos <= Reach(latest, q) && Gapless(latest, q)
    && (forall t :: t in q ==> Genuine(issued, t) && t.side == side)
  }

  function Connect(lastID: int): Down {
    Down(lastID, 0, [])
  }

  /** The server reads its next ticket and sends it if the engine does not have it. */
  function Send(d: Down, issued: seq<TicketLog>): Down
    requires d.pos < |issued|
  {
    Down(d.lastID, d.pos + 1, if issued[d.pos].id > d.lastID then d.inFlight + [Pushed(issued[d.pos])] else d.inFlight)
  }

  lemma ConnectFlows(issued: seq<TicketLog>, d: Down, side: int, latest: int, channel: seq<Ticket>, lastID: int)
    requires TicketsFlow(issued, d, side, latest, channel) && 0 <= lastID <= latest
    ensures TicketsFlow(issued, Connect(lastID), side, latest, channel)
    ensures TicketsFlow(issued, Connect(lastID), side, latest, [])
  {
    GaplessPrefix(latest, Of(channel, side), d.inFlight);
    assert Of(channel, side) + [] == Of(channel, side);
    assert Of([], side) + [] == [];
  }

  lemma SendFlows(issued: seq<TicketLog>, d: Down, side: int, latest: int, channel: seq<Ticket>)
    requires TicketsFlow(issued, d, side, latest, channel) && d.pos < |issued|
    requires issued[d.pos].id == d.pos + 1 && issued[d.pos].side == side
    ensures TicketsFlow(issued, Send(d, issued), side, latest, channel)
  {
    var t, q := Pushed(issued[d.pos]), Of(channel, side) + d.inFlight;
    GaplessSnoc(latest, q, t);
    assert Genuine(issued, t) && t.side == side;
    if t.id > d.lastID {
      assert Of(channel, side) + (d.inFlight + [t]) == q + [t];
      assert forall u :: u in q + [t] ==> u in q || u == t;
    }
  }

  lemma TicketReceiveFlows(issued: seq<TicketLog>, d: Down, side: int, latest: int, channel: seq<Ticket>)
    requires TicketsFlow(issued, d, side, latest, channel) && d.inFlight != []
    ensures TicketsFlow(issued, d.(inFlight := d.inFlight[1..]), side, latest, channel + [d.inFlight[0]])
  {
    OfSnoc(channel, d.inFlight[0], side);
    assert d.inFlight[0] in Of(channel, side) + d.inFlight;
    assert (Of(channel, side) + [d.inFlight[0]]) + d.inFlight[1..] == Of(channel, side) + d.inFlight;
  }

  // A ticket of the other side passes through the channel unnoticed.
  lemma OthersFlow(issued: seq<TicketLog>, d: Down, side: int, latest: int, channel: seq<Ticket>, t: Ticket)
    requires t.side != side
    ensures TicketsFlow(issued, d, side, latest, channel + [t]) <==> TicketsFlow(issued, d, side, latest, channel)
    ensures TicketsFlow(issued, d, side, latest, [t] + channel) <==> TicketsFlow(issued, d, side, latest, channel)
  {
    OfSnoc(channel, t, side);
    assert Of(channel, side) + [] == Of(channel, side);
    assert ([t] + channel)[1..] == channel && [] + Of(channel, side) == Of(channel, side);
  }

  /** The ticket at the head of the channel is a duplicate or the next one; consuming it keeps the stream gapless. */
  lemma ConsumeFlows(issued: seq<TicketLog>, d: Down, side: int, latest: int, channel: seq<Ticket>)
    requires TicketsFlow(issued, d, side, latest, channel) && channel != [] && channel[0].side == side
    ensures channel[0].id <= latest + 1 && Genuine(issued, channel[0])
    ensures TicketsFlow(issued, d, side, Tables.Max(latest, channel[0].id), channel[1..])
  {
    var q := Of(channel, side) + d.inFlight;
    assert q == [channel[0]] + (Of(channel[1..], side) + d.inFlight);
    assert q[1..] == Of(channel[1..], side) + d.inFlight && channel[0] in q;
    assert forall t :: t in q[1..] ==> t in q;
  }

  lemma IssueFlows(issued: seq<TicketLog>, d: Down, side: int, latest: int, channel: seq<Ticket>, t: TicketLog)
    requires TicketsFlow(issued, d, side, latest, channel)
    ensures TicketsFlow(issued + [t], d, side, latest, channel)
  {}

  // ---- balance changes ----

  /** The change a match line makes at one bank: base coin moves from asker to bider, quote coin the other way. */
  function ChangeFor(side: int, l: Line): BalanceChange
    requires l.MatchLine?
  {
    if side == ASK then
      BalanceChange(OmeLogs, l.logID, l.asker, 0.0, -IntToDecimal(l.quantity), l.bider, IntToDecimal(l.quantity), 0.0)
    else
      BalanceChange(OmeLogs, l.logID, l.asker, IntToDecimal(l.amount), 0.0, l.bider, 0.0, -IntToDecimal(l.amount))
  }

  /** The changes due at one bank for a stretch of the engine's log. */
  function Due(side: int, log: seq<Line>): seq<BalanceChange> {
    if log == [] then []
    else Due(side, log[..|log| - 1]) + (if Last(log).MatchLine? then [ChangeFor(side, Last(log))] else [])
  }

  lemma {:induction false} DueConcat(side: int, a: seq<Line>, b: seq<Line>)
    ensures Due(side, a + b) == Due(side, a) + Due(side, b)
  {
    if b == [] {
      assert a + b == a;
    } else {
      DueConcat(side, a, b[..|b| - 1]);
      assert (a + b)[..|a + b| - 1] == a + b[..|b| - 1];
    }
  }

  lemma DueSplit(side: int, log: seq<Line>, lo: nat, mid: nat, hi: nat)
    requires lo <= mid <= hi <= |log|
    ensures Due(side, log[lo..hi]) == Due(side, log[lo..mid]) + Due(side, log[mid..hi])
  {
    assert log[lo..hi] == log[lo..mid] + log[mid..hi];
    DueConcat(side, log[lo..mid], log[mid..hi]);
  }

  lemma DueNext(side: int, log: seq<Line>, lo: nat, hi: nat)
    requires lo <= hi < |log|
    ensures Due(side, log[lo..hi + 1]) ==
            Due(side, log[lo..hi]) + (if log[hi].MatchLine? then [ChangeFor(side, log[hi])] else [])
  {
    assert log[lo..hi + 1][..hi - lo] == log[lo..hi];
  }

  // The first change due in a stretch names the line it comes from; nothing else is due up to there.
  lemma {:induction false} DueHead(side: int, log: seq<Line>, lo: nat, hi: nat)
    requires lo <= hi <= |log| && Due(side, log[lo..hi]) != []
    requires forall i :: 0 <= i < |log| ==> log[i].logID == i + 1
    ensures var k := Due(side, log[lo..hi])[0].reasonID;
            && lo < k <= hi && log[k - 1].MatchLine? && Due(side, log[lo..hi])[0] == ChangeFor(side, log[k - 1])
            && Due(side, log[lo..k - 1]) == []
            && Due(side, log[lo..k]) == Due(side, log[lo..hi])[..1]
            && Due(side, log[k..hi]) == Due(side, log[lo..hi])[1..]
  {
    var k := FirstMatch(side, log, lo, hi);
    DueNext(side, log, lo, k - 1);
    DueSplit(side, log, lo, k, hi);
  }

  lemma {:induction false} FirstMatch(side: int, log: seq<Line>, lo: nat, hi: nat) returns (k: nat)
    requires lo <= hi <= |log| && Due(side, log[lo..hi]) != []
    ensures lo < k <= hi && log[k - 1].MatchLine? && Due(side, log[lo..k - 1]) == []
    decreases hi - lo
  {
    assert log[lo..lo] == [];
    if log[lo].MatchLine? {
      k := lo + 1;
    } else {
      DueNext(side, log, lo, lo);
      DueSplit(side, log, lo, lo + 1, hi);
      k := FirstMatch(side, log, lo + 1, hi);
      DueSplit(side, log, lo, lo + 1, k - 1);
    }
  }

  /** One change stream: whether it stands, the first ID agreed on, the engine's place in its log, what is in flight,
      and the reason ID of the last change the bank received on any stream. */
  datatype Up = Up(connected: bool, firstID: int, pos: nat, inFlight: seq<BalanceChange>, received: int)

  /** Applied, queued and in flight, the changes are those of the log, in order, each once. */
  ghost predicate ChangesFlow(side: int, log: seq<Line>, reason: int, queue: seq<BalanceChange>, u: Up) {
    && 0 <= reason <= u.received <= |log| && u.pos <= |log| && 0 <= u.firstID <= |log|
    && queue == Due(side, log[reason..u.received])
    && (if u.connected then
          u.received <= Tables.Max(u.pos, u.firstID)
          && u.inFlight == Due(side, log[u.received..Tables.Max(u.pos, u.firstID)])
        else u.inFlight == [])
  }

  /** The bank answers the first message of a stream with the reason ID it has applied last. */
  function Handshake(reason: int): Up {
    Up(true, reason, 0, [], reason)
  }

  function Broken(u: Up): Up {
    u.(connected := false, inFlight := [])
  }

  /** The engine reads its next log line and sends its change if it is a match above the first ID. */
  function Push(side: int, u: Up, log: seq<Line>): Up
    requires u.pos < |log|
  {
    var l := log[u.pos];
    u.(pos := u.pos + 1,
       inFlight := if l.MatchLine? && l.logID > u.firstID then u.inFlight + [ChangeFor(side, l)] else u.inFlight)
  }

  function Receive(u: Up): Up
    requires u.inFlight != []
  {
    u.(inFlight := u.inFlight[1..], received := u.inFlight[0].reasonID)
  }

  lemma HandshakeFlows(side: int, log: seq<Line>, reason: int)
    requires 0 <= reason <= |log|
    ensures ChangesFlow(side, log, reason, [], Handshake(reason))
  {
    assert log[reason..reason] == [];
  }

  lemma PushFlows(side: int, log: seq<Line>, reason: int, queue: seq<BalanceChange>, u: Up)
    requires ChangesFlow(side, log, reason, queue, u) && u.connected && u.pos < |log|
    requires forall i :: 0 <= i < |log| ==> log[i].logID == i + 1
    ensures ChangesFlow(side, log, reason, queue, Push(side, u, log))
  {
    var l, u' := log[u.pos], Push(side, u, log);
    if u.pos >= u.firstID {
      DueNext(side, log, u.received, u.pos);
      assert u'.inFlight == Due(side, log[u.received..u.pos + 1]);
    } else {
      assert u' == u.(pos := u.pos + 1) && Tables.Max(u'.pos, u'.firstID) == Tables.Max(u.pos, u.firstID);
    }
  }

  lemma ChangeReceiveFlows(side: int, log: seq<Line>, reason: int, queue: seq<BalanceChange>, u: Up)
    requires ChangesFlow(side, log, reason, queue, u) && u.connected && u.inFlight != []
    requires forall i :: 0 <= i < |log| ==> log[i].logID == i + 1
    ensures ChangesFlow(side, log, reason, queue + [u.inFlight[0]], Receive(u))
  {
    var hi := Tables.Max(u.pos, u.firstID);
    DueHead(side, log, u.received, hi);
    DueSplit(side, log, reason, u.received, u.inFlight[0].reasonID);
  }

  lemma ApplyFlows(side: int, log: seq<Line>, reason: int, queue: seq<BalanceChange>, u: Up)
    requires ChangesFlow(side, log, reason, queue, u) && queue != []
    requires forall i :: 0 <= i < |log| ==> log[i].logID == i + 1
    ensures ChangesFlow(side, log, queue[0].reasonID, queue[1..], u)
  {
    DueHead(side, log, reason, u.received);
  }

  lemma LogGrowthFlows(side: int, log: seq<Line>, reason: int, queue: seq<BalanceChange>, u: Up, l: Line)
    requires ChangesFlow(side, log, reason, queue, u)
    ensures ChangesFlow(side, log + [l], reason, queue, u)
  {
    assert (log + [l])[reason..u.received] == log[reason..u.received];
    if u.connected {
      var hi := Tables.Max(u.pos, u.firstID);
      assert (log + [l])[u.received..hi] == log[u.received..hi];
    }
  }
}
