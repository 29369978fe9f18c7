/** The loops at both ends of the two streams, over one connection from its first message to its last. */
module Grpc {
  import opened Matching
  import opened Ledger
  import opened Streams
  import Recovery

  // ---- tickets: the bank's side ----

  /** The stream after the server has gone through the first `n` tickets. */
  function Sent(lastID: int, issued: seq<TicketLog>, n: nat): Down
    requires n <= |issued|
    ensures Sent(lastID, issued, n).pos == n && Sent(lastID, issued, n).lastID == lastID
  {
    if n == 0 then Connect(lastID) else Send(Sent(lastID, issued, n - 1), issued)
  }

  lemma {:induction false} SentIsStable(lastID: int, issued: seq<TicketLog>, more: seq<TicketLog>, n: nat)
    requires n <= |issued|
    ensures Sent(lastID, issued + more, n) == Sent(lastID, issued, n)
  {
    if n > 0 { SentIsStable(lastID, issued, more, n - 1); }
  }

  /** Push the tickets of one line; `done` are the tickets of the lines before it. */
  method PushLine(lastID: int, ghost done: seq<TicketLog>, ts: seq<TicketLog>, stream: seq<Ticket>)
    returns (stream': seq<Ticket>)
    requires stream == Sent(lastID, done, |done|).inFlight
    ensures stream' == Sent(lastID, done + ts, |done + ts|).inFlight
  {
    stream' := stream;
    SentIsStable(lastID, done, ts, |done|);
    var k := 0;
    while k < |ts|
      invariant 0 <= k <= |ts| && stream' == Sent(lastID, done + ts, |done| + k).inFlight
    {
      assert (done + ts)[|done| + k] == ts[k];
      if ts[k].id > lastID { stream' := stream' + [Pushed(ts[k])]; }
      k := k + 1;
    }
  }

  /** Push the tickets above `lastID` that the lines of the log file hold, whatever their symbol. */
  method Tickets(lastID: int, log: seq<BankLine>) returns (stream: seq<Ticket>)
    ensures stream == Sent(lastID, AllTickets(log), |AllTickets(log)|).inFlight
  {
    stream := [];
    var i := 0;
    assert log[..0] == [];
    while i < |log|
      invariant 0 <= i <= |log|
      invariant stream == Sent(lastID, AllTickets(log[..i]), |AllTickets(log[..i])|).inFlight
    {
      assert log[..i + 1][..i] == log[..i];
      assert AllTickets(log[..i + 1]) == AllTickets(log[..i]) + log[i].tickets;
      stream := PushLine(lastID, AllTickets(log[..i]), log[i].tickets, stream);
      i := i + 1;
    }
    assert log[..i] == log;
  }

  /** Each message carries its ticket, field by field. */
  ghost predicate AllCarried(ms: seq<Ticket>, ts: seq<TicketLog>) {
    |ms| == |ts| && forall i :: 0 <= i < |ms| ==> Carries(ms[i], ts[i])
  }

  lemma OneMoreCarried(ms: seq<Ticket>, ts: seq<TicketLog>, t: TicketLog)
    requires AllCarried(ms, ts)
    ensures AllCarried(ms + [Pushed(t)], ts + [t])
  {}

  /** The tickets from one place to another. */
  function Between(issued: seq<TicketLog>, lo: int, hi: nat): seq<TicketLog>
    requires 0 <= lo && hi <= |issued|
  {
    if hi <= lo then [] else issued[lo..hi]
  }

  lemma BetweenGrows(issued: seq<TicketLog>, lo: int, hi: nat)
    requires 0 <= lo < hi <= |issued|
    ensures Between(issued, lo, hi) == Between(issued, lo, hi - 1) + [issued[hi - 1]]
  {}

  lemma SentNext(lastID: int, issued: seq<TicketLog>, n: nat)
    requires n < |issued|
    ensures Sent(lastID, issued, n + 1).inFlight
            == Sent(lastID, issued, n).inFlight + (if issued[n].id > lastID then [Pushed(issued[n])] else [])
  {}

  ghost predicate FromOne(issued: seq<TicketLog>) {
    forall i :: 0 <= i < |issued| ==> issued[i].id == i + 1
  }

  lemma SentOneMore(lastID: int, issued: seq<TicketLog>, n: nat)
    requires 0 <= lastID && n < |issued| && issued[n].id == n + 1
    requires AllCarried(Sent(lastID, issued, n).inFlight, Between(issued, lastID, n))
    ensures AllCarried(Sent(lastID, issued, n + 1).inFlight, Between(issued, lastID, n + 1))
  {
    SentNext(lastID, issued, n);
    if n + 1 > lastID {
      BetweenGrows(issued, lastID, n + 1);
      OneMoreCarried(Sent(lastID, issued, n).inFlight, Between(issued, lastID, n), issued[n]);
    } else {
      assert Sent(lastID, issued, n).inFlight + [] == Sent(lastID, issued, n).inFlight;
    }
  }

  /** A connection sends exactly the tickets after the one asked from, in order. */
  lemma {:induction false} ConnectionResumes(lastID: int, issued: seq<TicketLog>, n: nat)
    requires 0 <= lastID && n <= |issued| && FromOne(issued)
    ensures AllCarried(Sent(lastID, issued, n).inFlight, Between(issued, lastID, n))
  {
    if n > 0 {
      ConnectionResumes(lastID, issued, n - 1);
      SentOneMore(lastID, issued, n - 1);
    }
  }

  // ---- tickets: the engine's side ----

  /** The tickets of a bank: numbered without gaps, all of one side. */
  ghost predicate OfOneSide(issued: seq<TicketLog>, side: int) {
    forall i :: 0 <= i < |issued| ==> issued[i].id == i + 1 && issued[i].side == side
  }

  lemma {:induction false} ConsecutiveAreTaken(askTicket: int, bidTicket: int, side: int, ts: seq<Ticket>)
    requires side == ASK || side == BID
    requires var latest := if side == ASK then askTicket else bidTicket;
             forall i :: 0 <= i < |ts| ==> ts[i].side == side && ts[i].id == latest + 1 + i
    ensures Recovery.Accepted(askTicket, bidTicket, ts) == ts
    decreases |ts|
  {
    if ts != [] {
      ConsecutiveAreTaken(if side == ASK then ts[0].id else askTicket, if side == ASK then bidTicket else ts[0].id,
                          side, ts[1..]);
      assert ts == [ts[0]] + ts[1..];
    }
  }

  /** The tickets of a bank that an engine with these counters does not have, in order; it takes each of them. */
  ghost predicate Missing(issued: seq<TicketLog>, side: int, askTicket: int, bidTicket: int, ts: seq<Ticket>) {
    var latest := if side == ASK then askTicket else bidTicket;
    OfOneSide(issued, side) && 0 <= latest <= |issued| ==>
      AllCarried(ts, issued[latest..]) && Recovery.Accepted(askTicket, bidTicket, ts) == ts
  }

  lemma SentAreTaken(sent: seq<Ticket>, issued: seq<TicketLog>, side: int, askTicket: int, bidTicket: int)
    requires side == ASK || side == BID
    requires var latest := if side == ASK then askTicket else bidTicket;
             OfOneSide(issued, side) && 0 <= latest <= |issued| && AllCarried(sent, issued[latest..])
    ensures Recovery.Accepted(askTicket, bidTicket, sent) == sent
  {
    var latest := if side == ASK then askTicket else bidTicket;
    forall i | 0 <= i < |sent| ensures sent[i].side == side && sent[i].id == latest + 1 + i {
      assert Carries(sent[i], issued[latest..][i]) && issued[latest..][i] == issued[latest + i];
    }
    ConsecutiveAreTaken(askTicket, bidTicket, side, sent);
  }

  lemma ConnectionsSendTheMissing(issued: seq<TicketLog>, side: int, askTicket: int, bidTicket: int)
    requires side == ASK || side == BID
    ensures var latest := if side == ASK then askTicket else bidTicket;
            Missing(issued, side, askTicket, bidTicket, Sent(latest, issued, |issued|).inFlight)
  {
    var latest := if side == ASK then askTicket else bidTicket;
    if OfOneSide(issued, side) && 0 <= latest <= |issued| {
      ConnectionResumes(latest, issued, |issued|);
      assert Between(issued, latest, |issued|) == issued[latest..];
      SentAreTaken(Sent(latest, issued, |issued|).inFlight, issued, side, askTicket, bidTicket);
    }
  }

  /** Open a ticket stream after the last ticket the engine has of that bank, and put all that comes on the channel: the
      tickets it does not have, each of which it takes, none a second time. */
  method PullTickets(coin: string, base: string, quote: string, latestAsk: int, latestBid: int, log: seq<BankLine>)
    returns (pulled: seq<Ticket>)
    requires base != quote && (coin == base || coin == quote)
    ensures Missing(AllTickets(log), if coin == base then ASK else BID, latestAsk, latestBid, pulled)
  {
    var lastID := latestAsk;
    if coin == quote { lastID := latestBid; }
    var stream := Tickets(lastID, log);
    pulled := [];
    var i := 0;
    while i < |stream|
      invariant 0 <= i <= |stream| && pulled == stream[..i]
    {
      pulled := pulled + [stream[i]];
      i := i + 1;
    }
    assert pulled == stream;
    ConnectionsSendTheMissing(AllTickets(log), if coin == base then ASK else BID, latestAsk, latestBid);
  }

  // ---- balance changes: the engine's side ----

  function PushedUp(side: int, firstID: int, log: seq<Line>, n: nat): Up
    requires n <= |log|
    ensures PushedUp(side, firstID, log, n).pos == n && PushedUp(side, firstID, log, n).firstID == firstID
  {
    if n == 0 then Handshake(firstID) else Push(side, PushedUp(side, firstID, log, n - 1), log)
  }

  /** A change as it travels, tagged with the first ID of its stream. */
  datatype Message = Message(reasonIDFirst: int, reasonTable: ReasonTable, change: BalanceChange)

  function Tagged(firstID: int, cs: seq<BalanceChange>): seq<Message> {
    if cs == [] then [] else Tagged(firstID, cs[..|cs| - 1]) + [Message(firstID, OmeLogs, Last(cs))]
  }

  /** Push one change for every match line of the log file above the first ID. */
  method PushBalanceLogs(side: int, firstID: int, log: seq<Line>) returns (stream: seq<Message>)
    ensures stream == Tagged(firstID, PushedUp(side, firstID, log, |log|).inFlight)
  {
    stream := [];
    var i := 0;
    while i < |log|
      invariant 0 <= i <= |log| && stream == Tagged(firstID, PushedUp(side, firstID, log, i).inFlight)
    {
      var l := log[i];
      if l.MatchLine? && l.logID > firstID {
        ghost var before := PushedUp(side, firstID, log, i).inFlight;
        assert (before + [ChangeFor(side, l)])[..|before|] == before;
        stream := stream + [Message(firstID, OmeLogs, ChangeFor(side, l))];
      }
      i := i + 1;
    }
  }

  /** Each message carries its change, the first ID, and the change's own reason table. */
  lemma {:induction false} MessagesCarryChanges(firstID: int, cs: seq<BalanceChange>, i: int)
    requires 0 <= i < |cs| && forall c :: c in cs ==> c.reasonTable == OmeLogs
    ensures |Tagged(firstID, cs)| == |cs|
    ensures var m := Tagged(firstID, cs)[i];
            m.change == cs[i] && m.reasonIDFirst == firstID && m.reasonTable == m.change.reasonTable
  {
    var before := cs[..|cs| - 1];
    TaggedCount(firstID, before);
    assert cs[i] in cs;
    if i < |before| {
      assert forall c :: c in before ==> c in cs;
      MessagesCarryChanges(firstID, before, i);
    }
  }

  lemma {:induction false} TaggedCount(firstID: int, cs: seq<BalanceChange>)
    ensures |Tagged(firstID, cs)| == |cs|
  {
    if cs != [] { TaggedCount(firstID, cs[..|cs| - 1]); }
  }

  /** A stream carries exactly the changes due after its first ID. */
  lemma {:induction false} PushesAreDue(side: int, firstID: int, log: seq<Line>, n: nat)
    requires 0 <= firstID <= n <= |log| && forall i :: 0 <= i < |log| ==> log[i].logID == i + 1
    ensures PushedUp(side, firstID, log, n).inFlight == Due(side, log[firstID..n])
  {
    if n == firstID {
      NothingBeforeFirst(side, firstID, log, n);
      assert log[firstID..n] == [];
    } else {
      PushesAreDue(side, firstID, log, n - 1);
      DueNext(side, log, firstID, n - 1);
    }
  }

  lemma {:induction false} NothingBeforeFirst(side: int, firstID: int, log: seq<Line>, n: nat)
    requires n <= firstID <= |log| && forall i :: 0 <= i < |log| ==> log[i].logID == i + 1
    ensures PushedUp(side, firstID, log, n).inFlight == []
  {
    if n > 0 { NothingBeforeFirst(side, firstID, log, n - 1); }
  }

  // ---- balance changes: the bank's side ----

  datatype Inbox = Inbox(firstID: int, replies: seq<int>, queued: seq<BalanceChange>)

  /** A greeting is answered with the reason ID applied last; a change is queued if it carries that same ID. */
  function Received(reasons: map<ReasonTable, int>, msgs: seq<Message>): Inbox {
    if msgs == [] then Inbox(0, [], [])
    else
      var b, m := Received(reasons, msgs[..|msgs| - 1]), Last(msgs);
      var reason := if m.reasonTable in reasons then reasons[m.reasonTable] else 0;
      var b' := if m.reasonIDFirst == -1 then Inbox(reason, b.replies + [reason], b.queued) else b;
      if m.reasonIDFirst == b'.firstID then b'.(queued := b'.queued + [m.change]) else b'
  }

  method BalanceChanges(reasons: map<ReasonTable, int>, msgs: seq<Message>)
    returns (replies: seq<int>, queued: seq<BalanceChange>)
    ensures replies == Received(reasons, msgs).replies && queued == Received(reasons, msgs).queued
  {
    var firstID := 0;
    replies, queued := [], [];
    var i := 0;
    assert msgs[..0] == [];
    while i < |msgs|
      invariant 0 <= i <= |msgs| && Received(reasons, msgs[..i]) == Inbox(firstID, replies, queued)
    {
      var m := msgs[i];
      assert msgs[..i + 1][..i] == msgs[..i] && Last(msgs[..i + 1]) == m;
      if m.reasonIDFirst == -1 {
        firstID := if m.reasonTable in reasons then reasons[m.reasonTable] else 0;
        replies := replies + [firstID];
      }
      if m.reasonIDFirst == firstID { queued := queued + [m.change]; }
      i := i + 1;
    }
    assert msgs[..i] == msgs;
  }

  lemma OneMore(reasons: map<ReasonTable, int>, seen: seq<Message>, m: Message)
    requires m.reasonIDFirst != -1
    ensures var b := Received(reasons, seen);
            Received(reasons, seen + [m])
            == if m.reasonIDFirst == b.firstID then b.(queued := b.queued + [m.change]) else b
  {
    assert (seen + [m])[..|seen|] == seen;
  }

  lemma TaggedAfter(seen: seq<Message>, firstID: int, cs: seq<BalanceChange>)
    requires cs != []
    ensures seen + Tagged(firstID, cs)
            == (seen + Tagged(firstID, cs[..|cs| - 1])) + [Message(firstID, OmeLogs, Last(cs))]
  {}

  // After the greeting, the changes tagged with the agreed ID pass and nothing else does.
  lemma {:induction false} OwnChangesPass(reasons: map<ReasonTable, int>, seen: seq<Message>, firstID: int,
                                          cs: seq<BalanceChange>)
    requires firstID == Received(reasons, seen).firstID != -1
    ensures var b := Received(reasons, seen);
            Received(reasons, seen + Tagged(firstID, cs)) == b.(queued := b.queued + cs)
  {
    var b := Received(reasons, seen);
    if cs == [] {
      assert seen + [] == seen && b.queued + [] == b.queued;
    } else {
      var cs', m := cs[..|cs| - 1], Message(firstID, OmeLogs, Last(cs));
      OwnChangesPass(reasons, seen, firstID, cs');
      TaggedAfter(seen, firstID, cs);
      OneMore(reasons, seen + Tagged(firstID, cs'), m);
      assert b.queued + cs == (b.queued + cs') + [Last(cs)];
    }
  }

  lemma {:induction false} OthersChangesStay(reasons: map<ReasonTable, int>, seen: seq<Message>, other: int,
                                             cs: seq<BalanceChange>)
    requires other != -1 && other != Received(reasons, seen).firstID
    ensures Received(reasons, seen + Tagged(other, cs)) == Received(reasons, seen)
  {
    if cs == [] {
      assert seen + [] == seen;
    } else {
      var cs' := cs[..|cs| - 1];
      OthersChangesStay(reasons, seen, other, cs');
      TaggedAfter(seen, other, cs);
      OneMore(reasons, seen + Tagged(other, cs'), Message(other, OmeLogs, Last(cs)));
    }
  }

  lemma Greeted(reasons: map<ReasonTable, int>, hello: Message)
    requires hello.reasonIDFirst == -1 && hello.reasonTable == OmeLogs
    requires 0 <= (if OmeLogs in reasons then reasons[OmeLogs] else 0)
    ensures var firstID := if OmeLogs in reasons then reasons[OmeLogs] else 0;
            Received(reasons, [hello]) == Inbox(firstID, [firstID], [])
  {
    assert [hello][..0] == [];
    assert Received(reasons, []) == Inbox(0, [], []);
  }

  /** One connection end to end: greeted, answered and read to the end of the log, it queues exactly the changes the
      bank had not applied, in log order; changes of a stream that agreed on another ID are not queued. */
  lemma ConnectionDeliversWhatIsDue(side: int, reasons: map<ReasonTable, int>, log: seq<Line>, hello: Message,
                                    other: int, stale: seq<BalanceChange>)
    requires hello.reasonIDFirst == -1 && hello.reasonTable == OmeLogs
    requires forall i :: 0 <= i < |log| ==> log[i].logID == i + 1
    requires 0 <= (if OmeLogs in reasons then reasons[OmeLogs] else 0) <= |log|
    requires other != -1 && other != (if OmeLogs in reasons then reasons[OmeLogs] else 0)
    ensures var firstID := if OmeLogs in reasons then reasons[OmeLogs] else 0;
            var pushed := Tagged(firstID, PushedUp(side, firstID, log, |log|).inFlight);
            Received(reasons, [hello] + pushed + Tagged(other, stale))
            == Inbox(firstID, [firstID], Due(side, log[firstID..]))
  {
    var firstID := if OmeLogs in reasons then reasons[OmeLogs] else 0;
    var changes := PushedUp(side, firstID, log, |log|).inFlight;
    PushesAreDue(side, firstID, log, |log|);
    assert log[firstID..|log|] == log[firstID..];
    Greeted(reasons, hello);
    OwnChangesPass(reasons, [hello], firstID, changes);
    OthersChangesStay(reasons, [hello] + Tagged(firstID, changes), other, stale);
  }

  /** A handshake delivers every change exactly once if and only if nothing received earlier is still queued: its
      stream, read to the end of the log, carries everything not applied, so whatever is queued comes a second time. */
  lemma HandshakeIsExactWhenIdle(side: int, log: seq<Line>, reason: int, queue: seq<BalanceChange>, u: Up)
    requires ChangesFlow(side, log, reason, queue, u) && forall i :: 0 <= i < |log| ==> log[i].logID == i + 1
    ensures Due(side, log[..reason]) + (queue + PushedUp(side, reason, log, |log|).inFlight) == Due(side, log)
            <==> queue == []
  {
    PushesAreDue(side, reason, log, |log|);
    assert log[..reason] + log[reason..] == log && log[reason..|log|] == log[reason..];
    DueConcat(side, log[..reason], log[reason..]);
  }
}
