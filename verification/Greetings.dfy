/** When a change stream may be opened: a greeting that overtakes changes received before has them sent again. */
module Greetings {
  import opened Fixed
  import opened Matching
  import opened Ledger
  import opened Streams
  import opened Exchange
  import opened Funds
  import opened Settlement
  import opened Drive
  import opened Market
  import opened Overdraw

  /** A bank has applied each change due up to its reason ID once, in log order, and no other. */
  ghost predicate AppliesOnce(w: World, side: int) {
    Exact(At(w, side).bank, side, w.log)
  }

  /** What may follow a greeting: anything but another one, or a restart of a bank. */
  ghost predicate Follows(pair: seq<string>, more: seq<Exchange.Event>) {
    Quiet(more) && forall i :: 0 <= i < |more| ==> Listed(pair, more[i])
  }

  function AfterGreeting(o: Opening, events: seq<Exchange.Event>, side: int, more: seq<Exchange.Event>): World {
    Runs(Begin(o), (events + [On(side, Greet)]) + more)
  }

  /** Every run that goes on from a greeting now, with no other one and no restart, applies changes once. */
  ghost predicate Harmless(o: Opening, events: seq<Exchange.Event>, side: int) {
    forall more :: Follows(o.pair, more) ==> AppliesOnce(AfterGreeting(o, events, side, more), side)
  }

  // ---- with nothing queued ----

  lemma IdleGreetingIsHarmless(o: Opening, events: seq<Exchange.Event>, side: int, more: seq<Exchange.Event>)
    requires Trading(o, events) && Timely(o, events) && IsSide(side) && At(Runs(Begin(o), events), side).queue == []
    requires Follows(o.pair, more)
    ensures AppliesOnce(AfterGreeting(o, events, side, more), side)
  {
    var all := (events + [On(side, Greet)]) + more;
    GreetingIsTimely(o, events, side);
    QuietEventsAreTimely(o, events + [On(side, Greet)], more);
    MoreTrading(o, events, [On(side, Greet)]);
    MoreTrading(o, events + [On(side, Greet)], more);
    SettledHolds(o, all, side);
  }

  // ---- with a change queued that cannot be applied ----

  /** The first `n` changes queued are those due up to `received`, and one of them will stop the bank. */
  ghost predicate Front(c: Coin, side: int, log: seq<Line>, n: nat, received: int) {
    && n <= |c.queue| && 0 <= Reason(c.bank) <= received <= |log|
    && c.queue[..n] == Due(side, log[Reason(c.bank)..received]) && !Appliable(c.queue, n)
  }

  ghost predicate Stuck(loaded: Assets, c: Coin, side: int, log: seq<Line>) {
    && Settled(loaded, c.bank, side, log)
    && (c.status != Ok || exists n: nat, received :: Front(c, side, log, n, received))
  }

  /** The coin without what was queued after the front. */
  function Shadow(c: Coin, n: nat, received: int): Coin
    requires n <= |c.queue|
  {
    c.(queue := c.queue[..n], up := Up(false, 0, 0, [], received))
  }

  lemma FrontMoves(c: Coin, c': Coin, side: int, log: seq<Line>, n: nat, received: int)
    requires forall i :: 0 <= i < |log| ==> log[i].logID == i + 1
    requires Front(c, side, log, n, received) && c.queue != [] && c'.queue == c.queue[1..]
    requires c.queue[0].owner2 > 0 && Reason(c'.bank) == c.queue[0].reasonID
    ensures n > 0 && Front(c', side, log, n - 1, received)
  {
    var s := Shadow(c, n, received);
    assert n > 0 && s.queue[0] == c.queue[0];
    ApplyFlows(side, log, Reason(c.bank), s.queue, s.up);
    var j :| 0 <= j < n && j < |c.queue| && c.queue[j].owner2 <= 0;
    assert c'.queue[..n - 1] == s.queue[1..] && c'.queue[j - 1] == c.queue[j];
  }

  lemma FrontIsApplied(loaded: Assets, c: Coin, side: int, log: seq<Line>, n: nat, received: int)
    requires forall i :: 0 <= i < |log| ==> log[i].logID == i + 1
    requires Front(c, side, log, n, received) && Settled(loaded, c.bank, side, log) && c.status == Ok
    ensures c.queue != [] && Stuck(loaded, Changed(c), side, log)
  {
    var s, c' := Shadow(c, n, received), Changed(c);
    assert n > 0 && s.queue[0] == c.queue[0];
    if c'.status == Ok {
      ApplySettles(loaded, s, side, log);
      ChangeTakes(c.bank, c.queue[0]);
      ApplyTakes(side, log, s);
      FrontMoves(c, c', side, log, n, received);
    }
  }

  lemma FrontStays(c: Coin, c': Coin, side: int, log: seq<Line>, n: nat, received: int)
    requires Front(c, side, log, n, received) && Reason(c'.bank) == Reason(c.bank)
    requires c'.queue == c.queue || (|c'.queue| > |c.queue| && c'.queue[..|c.queue|] == c.queue)
    ensures Front(c', side, log, n, received)
  {
    assert c'.queue[..n] == c.queue[..n];
    var j :| 0 <= j < n && j < |c.queue| && c.queue[j].owner2 <= 0;
    assert c'.queue[j] == c.queue[j];
  }

  lemma ActStaysStuck(loaded: Assets, c: Coin, pair: seq<string>, side: int, latest: int, log: seq<Line>, a: Act)
    requires |pair| == 2 && pair[0] != pair[1] && IsSide(side) && Listed(pair, On(side, a)) && !a.Reload?
    requires forall i :: 0 <= i < |log| ==> log[i].logID == i + 1
    requires Stuck(loaded, c, side, log)
    ensures Stuck(loaded, React(c, pair, side, latest, log, a), side, log)
  {
    if c.status == Ok {
      var n: nat, received :| Front(c, side, log, n, received);
      if a.Apply? {
        FrontIsApplied(loaded, c, side, log, n, received);
      } else {
        if a.Request? {
          AskedSettles(loaded, c, pair, side, log, a.msgSeq, a.req);
          AskedKeepsReason(c, pair, side, a.msgSeq, a.req);
        }
        FrontStays(c, React(c, pair, side, latest, log, a), side, log, n, received);
      }
    }
  }

  lemma LongerLogStaysStuck(loaded: Assets, c: Coin, c': Coin, side: int, log: seq<Line>, l: Line)
    requires Stuck(loaded, c, side, log) && c'.bank == c.bank && c'.status == c.status && c'.queue == c.queue
    ensures Stuck(loaded, c', side, log + [l])
  {
    LongerLogSettles(loaded, c.bank, side, log, l);
    if c.status == Ok {
      var n: nat, received :| Front(c, side, log, n, received);
      assert (log + [l])[Reason(c.bank)..received] == log[Reason(c.bank)..received];
      assert Front(c', side, log + [l], n, received);
    }
  }

  lemma StepStaysStuck(loaded: Assets, w: World, e: Exchange.Event, side: int)
    requires EngineOk(w) && IsSide(side) && Listed(w.pair, e) && Stuck(loaded, At(w, side), side, w.log)
    requires e.On? ==> !e.act.Reload?
    ensures Stuck(loaded, At(Step(w, e), side), side, Step(w, e).log)
  {
    var c, c' := At(w, side), At(Step(w, e), side);
    if e.On? && e.side == side {
      ActStaysStuck(loaded, c, w.pair, side, Latest(w.engine, side), w.log, e.act);
    } else {
      OthersRest(w, e, side);
      LogGrowsByOne(w, e);
      if Step(w, e).log != w.log {
        LongerLogStaysStuck(loaded, c, c', side, w.log, Last(Step(w, e).log));
      } else if c.status == Ok {
        var n: nat, received :| Front(c, side, w.log, n, received);
        FrontStays(c, c', side, w.log, n, received);
      }
    }
  }

  lemma Regroup(a: seq<Exchange.Event>, e: Exchange.Event, b: seq<Exchange.Event>)
    ensures (a + [e]) + b == a + ([e] + b)
  {}

  lemma SameEvents(w: World, a: seq<Exchange.Event>, b: seq<Exchange.Event>)
    requires a == b
    ensures Runs(w, a) == Runs(w, b)
  {}

  lemma MoreByOne(a: seq<Exchange.Event>, b: seq<Exchange.Event>)
    requires b != []
    ensures a + b == (a + b[..|b| - 1]) + [b[|b| - 1]]
  {}

  lemma StuckOneMore(o: Opening, events: seq<Exchange.Event>, side: int, e: Exchange.Event)
    requires Trading(o, events) && IsSide(side) && Listed(o.pair, e) && (e.On? ==> !e.act.Reload?)
    requires var w := Runs(Begin(o), events); Stuck(Loaded(o, side), At(w, side), side, w.log)
    ensures var w := Runs(Begin(o), events + [e]); Stuck(Loaded(o, side), At(w, side), side, w.log)
  {
    FlowHolds(o, events);
    RunsOneMore(Begin(o), events, e);
    StepStaysStuck(Loaded(o, side), Runs(Begin(o), events), e, side);
  }

  lemma {:induction false} StuckStaysStuck(o: Opening, events: seq<Exchange.Event>, side: int,
                                           more: seq<Exchange.Event>)
    requires Trading(o, events) && IsSide(side)
    requires forall i :: 0 <= i < |more| ==> Listed(o.pair, more[i]) && (more[i].On? ==> !more[i].act.Reload?)
    requires var w := Runs(Begin(o), events); Stuck(Loaded(o, side), At(w, side), side, w.log)
    ensures var w := Runs(Begin(o), events + more); Stuck(Loaded(o, side), At(w, side), side, w.log)
  {
    if more == [] {
      SameEvents(Begin(o), events + more, events);
    } else {
      var before, n := more[..|more| - 1], |more| - 1;
      assert forall i :: 0 <= i < n ==> before[i] == more[i];
      StuckStaysStuck(o, events, side, before);
      MoreTrading(o, events, before);
      StuckOneMore(o, events + before, side, more[n]);
      MoreByOne(events, more);
      SameEvents(Begin(o), events + more, (events + before) + [more[n]]);
    }
  }

  lemma StuckNow(o: Opening, events: seq<Exchange.Event>, side: int)
    requires Trading(o, events) && Timely(o, events) && IsSide(side)
    requires var c := At(Runs(Begin(o), events), side); !Appliable(c.queue, |c.queue|)
    ensures var w := Runs(Begin(o), events); Stuck(Loaded(o, side), At(w, side), side, w.log)
  {
    var w := Runs(Begin(o), events);
    var c := At(w, side);
    ChangesHold(o, events, side);
    SettledHolds(o, events, side);
    assert c.queue[..|c.queue|] == c.queue;
    assert Front(c, side, w.log, |c.queue|, c.up.received);
  }

  lemma GreetingAndMore(pair: seq<string>, side: int, more: seq<Exchange.Event>)
    requires Follows(pair, more)
    ensures var all := [On(side, Greet)] + more;
            forall i :: 0 <= i < |all| ==> Listed(pair, all[i]) && (all[i].On? ==> !all[i].act.Reload?)
  {
    var all := [On(side, Greet)] + more;
    forall i | 0 <= i < |all| ensures Listed(pair, all[i]) && (all[i].On? ==> !all[i].act.Reload?) {
      if i > 0 { assert all[i] == more[i - 1]; }
    }
  }

  lemma StuckGreetingIsHarmless(o: Opening, events: seq<Exchange.Event>, side: int, more: seq<Exchange.Event>)
    requires Trading(o, events) && Timely(o, events) && IsSide(side)
    requires var c := At(Runs(Begin(o), events), side); !Appliable(c.queue, |c.queue|)
    requires Follows(o.pair, more)
    ensures AppliesOnce(AfterGreeting(o, events, side, more), side)
  {
    StuckNow(o, events, side);
    GreetingAndMore(o.pair, side, more);
    StuckStaysStuck(o, events, side, [On(side, Greet)] + more);
    Regroup(events, On(side, Greet), more);
    SameEvents(Begin(o), (events + [On(side, Greet)]) + more, events + ([On(side, Greet)] + more));
  }

  // ---- otherwise ----

  lemma {:induction false} TransfersCount(cs: seq<BalanceChange>)
    ensures |Transfers(cs)| == |cs|
  {
    if cs != [] { TransfersCount(cs[..|cs| - 1]); }
  }

  /** All queued changes are applied, and then the first of them once more. */
  function Again(w: World, side: int): seq<Exchange.Event> {
    OnSide(side, Flow(|w.log|, 1, |At(w, side).queue| + 1))
  }

  lemma AgainFollows(pair: seq<string>, side: int, w: World)
    ensures Follows(pair, Again(w, side))
  {
    FlowIsQuiet(|w.log|, 1, |At(w, side).queue| + 1);
    OnSideIs(side, Flow(|w.log|, 1, |At(w, side).queue| + 1));
  }

  // The first change due is the first one queued.
  lemma HeadIsDueAgain(side: int, log: seq<Line>, reason: int, queue: seq<BalanceChange>, u: Up)
    requires ChangesFlow(side, log, reason, queue, u) && queue != []
    requires forall i :: 0 <= i < |log| ==> log[i].logID == i + 1
    ensures var due, d := Due(side, log[reason..]), queue[0];
            && |due| > 0 && due[..1] == [d] && d.reasonTable == OmeLogs && 0 <= d.reasonID <= |log|
            && |Due(side, log[..d.reasonID])| == |Due(side, log[..reason])| + 1
  {
    var d := queue[0];
    assert log[reason..|log|] == log[reason..];
    DueSplit(side, log, reason, u.received, |log|);
    DueHead(side, log, reason, u.received);
    assert log[0..reason] == log[..reason] && log[0..d.reasonID] == log[..d.reasonID];
    DueSplit(side, log, 0, reason, d.reasonID);
  }

  // A bank that applies a queue and its head once more has applied too much.
  lemma OneTooMany(b: Bank, side: int, log: seq<Line>, reason: int, queue: seq<BalanceChange>)
    requires 0 <= reason <= |log| && Applied(b.log) == Transfers(Due(side, log[..reason]))
    requires queue != [] && Appliable(queue, |queue|) && queue[0].reasonTable == OmeLogs
    requires 0 <= queue[0].reasonID <= |log|
    requires |Due(side, log[..queue[0].reasonID])| == |Due(side, log[..reason])| + 1
    ensures !Exact(Drive.Settle(b, queue + [queue[0]]), side, log)
  {
    var q := queue + [queue[0]];
    SettleAdds(b, q, 0);
    ReasonAfter(b, q);
    TransfersCount(q);
    TransfersCount(Due(side, log[..reason]));
    TransfersCount(Due(side, log[..queue[0].reasonID]));
  }

  lemma QueueSettles(c: Coin, side: int, log: seq<Line>, pair: seq<string>, latest: int)
    requires c.status == Ok && c.queue != [] && Appliable(c.queue, |c.queue|)
    requires 0 <= Reason(c.bank) <= |log| && forall i :: 0 <= i < |log| ==> log[i].logID == i + 1
    requires var due := Due(side, log[Reason(c.bank)..]); |due| > 0 && due[..1] == [c.queue[0]]
    ensures Acts(c, pair, side, latest, log, Stream(|log|, 1, |c.queue| + 1)).bank
            == Drive.Settle(c.bank, c.queue + [c.queue[0]])
  {
    var q := c.queue + [c.queue[0]];
    assert q[..|q|] == q;
    StreamSettles(c, pair, side, latest, log, 1, |q|);
  }

  /** A bank in order, with changes queued that it can apply. */
  ghost predicate Busy(c: Coin, side: int, log: seq<Line>) {
    && c.status == Ok && c.queue != [] && Appliable(c.queue, |c.queue|)
    && (forall i :: 0 <= i < |log| ==> log[i].logID == i + 1)
    && ChangesFlow(side, log, Reason(c.bank), c.queue, c.up)
    && Applied(c.bank.log) == Transfers(Due(side, log[..Reason(c.bank)]))
  }

  // A stream opened over a queue of changes that can be applied applies the first of them twice.
  lemma QueueIsSentAgain(c: Coin, side: int, log: seq<Line>, pair: seq<string>, latest: int)
    requires Busy(c, side, log)
    ensures !Exact(Acts(c, pair, side, latest, log, Stream(|log|, 1, |c.queue| + 1)).bank, side, log)
  {
    HeadIsDueAgain(side, log, Reason(c.bank), c.queue, c.up);
    OneTooMany(c.bank, side, log, Reason(c.bank), c.queue);
    QueueSettles(c, side, log, pair, latest);
  }

  lemma ReasonAfter(b: Bank, cs: seq<BalanceChange>)
    requires cs != [] && Appliable(cs, |cs|) && Last(cs).reasonTable == OmeLogs
    ensures Reason(Drive.Settle(b, cs)) == Last(cs).reasonID
  {
    ChangeTakes(Drive.Settle(b, cs[..|cs| - 1]), Last(cs));
  }

  lemma AgainIsAStream(events: seq<Exchange.Event>, side: int, w: World)
    ensures (events + [On(side, Greet)]) + Again(w, side)
            == Streaming(events, side, |w.log|, 1, |At(w, side).queue| + 1)
  {
    StreamIsAGreetingAndAFlow(side, |w.log|, 1, |At(w, side).queue| + 1);
    Regroup(events, On(side, Greet), Again(w, side));
  }

  lemma GreetingThenAgain(o: Opening, events: seq<Exchange.Event>, side: int)
    ensures var w := Runs(Begin(o), events);
            AfterGreeting(o, events, side, Again(w, side))
            == Runs(Begin(o), Streaming(events, side, |w.log|, 1, |At(w, side).queue| + 1))
  {
    var w := Runs(Begin(o), events);
    AgainIsAStream(events, side, w);
    SameEvents(Begin(o), (events + [On(side, Greet)]) + Again(w, side),
               Streaming(events, side, |w.log|, 1, |At(w, side).queue| + 1));
  }

  lemma BusyNow(o: Opening, events: seq<Exchange.Event>, side: int)
    requires Trading(o, events) && Timely(o, events) && IsSide(side)
    requires var c := At(Runs(Begin(o), events), side); c.status == Ok && c.queue != [] && Appliable(c.queue, |c.queue|)
    ensures Busy(At(Runs(Begin(o), events), side), side, Runs(Begin(o), events).log)
  {
    FlowHolds(o, events);
    ChangesHold(o, events, side);
    SettledHolds(o, events, side);
  }

  lemma StreamedBank(o: Opening, events: seq<Exchange.Event>, side: int, pushes: nat, n: nat, k: nat)
    requires IsSide(side)
    ensures var w, w' := Runs(Begin(o), events), Runs(Begin(o), Streaming(events, side, pushes, n, k));
            && w'.pair == w.pair && w'.engine == w.engine && w'.log == w.log
            && At(w', side) == Acts(At(w, side), w.pair, side, Latest(w.engine, side), w.log, Stream(pushes, n, k))
  {
    StreamingRuns(o, events, side, pushes, n, k);
  }

  lemma BusyStreamRepeats(o: Opening, events: seq<Exchange.Event>, side: int)
    requires Trading(o, events) && Timely(o, events) && IsSide(side)
    requires var c := At(Runs(Begin(o), events), side); c.status == Ok && c.queue != [] && Appliable(c.queue, |c.queue|)
    ensures var w := Runs(Begin(o), events);
            !AppliesOnce(Runs(Begin(o), Streaming(events, side, |w.log|, 1, |At(w, side).queue| + 1)), side)
  {
    var w := Runs(Begin(o), events);
    BusyNow(o, events, side);
    QueueIsSentAgain(At(w, side), side, w.log, w.pair, Latest(w.engine, side));
    StreamedBank(o, events, side, |w.log|, 1, |At(w, side).queue| + 1);
  }

  lemma BusyGreetingIsHarmful(o: Opening, events: seq<Exchange.Event>, side: int)
    requires Trading(o, events) && Timely(o, events) && IsSide(side)
    requires var c := At(Runs(Begin(o), events), side); c.status == Ok && c.queue != [] && Appliable(c.queue, |c.queue|)
    ensures !Harmless(o, events, side)
  {
    var more := Again(Runs(Begin(o), events), side);
    BusyStreamRepeats(o, events, side);
    AgainFollows(o.pair, side, Runs(Begin(o), events));
    GreetingThenAgain(o, events, side);
    assert !AppliesOnce(AfterGreeting(o, events, side, more), side);
  }

  /** At any point of any run so far in order, a greeting leaves every change applied once, however the run goes on, if
      and only if nothing received before is still queued, or the bank is about to stop over a queued change. */
  lemma GreetingIsHarmlessExactlyWhenIdle(o: Opening, events: seq<Exchange.Event>, side: int)
    requires Trading(o, events) && Timely(o, events) && IsSide(side) && At(Runs(Begin(o), events), side).status == Ok
    ensures var queue := At(Runs(Begin(o), events), side).queue;
            queue == [] || (exists i :: 0 <= i < |queue| && queue[i].owner2 <= 0) <==> Harmless(o, events, side)
  {
    var c := At(Runs(Begin(o), events), side);
    if c.queue == [] {
      forall more | Follows(o.pair, more) ensures AppliesOnce(AfterGreeting(o, events, side, more), side) {
        IdleGreetingIsHarmless(o, events, side, more);
      }
    } else if !Appliable(c.queue, |c.queue|) {
      forall more | Follows(o.pair, more) ensures AppliesOnce(AfterGreeting(o, events, side, more), side) {
        StuckGreetingIsHarmless(o, events, side, more);
      }
    } else {
      BusyGreetingIsHarmful(o, events, side);
    }
  }

  // ---- a run in which one match is settled twice ----

  /** A change is delivered, the stream breaks, and the greeting of the next one overtakes the change, so that it is
      delivered again. */
  function BrokenOff(events: seq<Exchange.Event>, side: int): seq<Exchange.Event> {
    Streaming(Streaming(events, side, 3, 1, 0) + [On(side, Break)], side, 3, 1, 2)
  }

  /** Two orders meet, and their change is sent over such a stream. */
  function Twice(a: OrderReq, b: OrderReq, side: int): seq<Exchange.Event> {
    BrokenOff(Meeting(a, b), side)
  }

  function ActsTwice(w: World, side: int): Coin {
    var latest := Latest(w.engine, side);
    var c := Acts(At(w, side), w.pair, side, latest, w.log, Stream(3, 1, 0));
    Acts(c.(up := Broken(c.up)), w.pair, side, latest, w.log, Stream(3, 1, 2))
  }

  lemma BreakBreaks(w: World, side: int)
    requires IsSide(side)
    ensures var w' := Step(w, On(side, Break));
            && w'.pair == w.pair && w'.engine == w.engine && w'.log == w.log
            && At(w', side) == At(w, side).(up := Broken(At(w, side).up))
  {}

  lemma BrokenRuns(o: Opening, events: seq<Exchange.Event>, side: int)
    requires IsSide(side)
    ensures var w, w' := Runs(Begin(o), events), Runs(Begin(o), Streaming(events, side, 3, 1, 0) + [On(side, Break)]);
            var c := Acts(At(w, side), w.pair, side, Latest(w.engine, side), w.log, Stream(3, 1, 0));
            && w'.pair == w.pair && w'.engine == w.engine && w'.log == w.log
            && At(w', side) == c.(up := Broken(c.up))
  {
    StreamedBank(o, events, side, 3, 1, 0);
    RunsOneMore(Begin(o), Streaming(events, side, 3, 1, 0), On(side, Break));
    BreakBreaks(Runs(Begin(o), Streaming(events, side, 3, 1, 0)), side);
  }

  lemma TwiceRuns(o: Opening, events: seq<Exchange.Event>, side: int)
    requires IsSide(side)
    ensures At(Runs(Begin(o), BrokenOff(events, side)), side) == ActsTwice(Runs(Begin(o), events), side)
  {
    BrokenRuns(o, events, side);
    StreamedBank(o, Streaming(events, side, 3, 1, 0) + [On(side, Break)], side, 3, 1, 2);
  }

  lemma MatchIsSettledTwice(a: OrderReq, b: OrderReq, side: int)
    requires Pair(a, b) && DecimalToInt(a.price) <= DecimalToInt(b.price) && b.owner > 0 && a.owner != b.owner
    requires IsSide(side)
    ensures Both(a, b).asks != [] && Both(a, b).bids != []
    ensures var c, m, mine := At(Runs(Begin(Empty(a.symbol)), Twice(a, b, side)), side), MatchOf(Both(a, b)),
                              if side == ASK then a else b;
            var cost := IntToDecimal(if side == ASK then m.quantity else m.amount);
            && Applied(c.bank.log) == Transfers([ChangeFor(side, m), ChangeFor(side, m)])
            && Get(c.bank.assets, mine.owner).freeze == Total(mine) - cost - cost
  {
    MeetingOwes(a, b, side);
    OrdersMeet(a, b);
    NothingIsAppliedYet(a, b, side);
    var o, m, mine := Empty(a.symbol), MatchOf(Both(a, b)), if side == ASK then a else b;
    var w := Runs(Begin(o), Meeting(a, b));
    TwiceRuns(o, Meeting(a, b), side);
    ChangeIsSettledTwice(At(w, side), w.pair, side, Latest(w.engine, side), w.log, ChangeFor(side, m), mine.owner);
  }

  lemma NothingIsAppliedYet(a: OrderReq, b: OrderReq, side: int)
    requires Pair(a, b) && DecimalToInt(a.price) <= DecimalToInt(b.price) && IsSide(side)
    ensures Applied(At(Runs(Begin(Empty(a.symbol)), Meeting(a, b)), side).bank.log) == []
  {
    var o, events := Empty(a.symbol), Meeting(a, b);
    MeetingOwes(a, b, side);
    MeetingIsTrading(a, b);
    SettledHolds(o, events, side);
    var w := Runs(Begin(o), events);
    assert w.log[..0] == [];
  }

  lemma ChangeIsSettledTwice(c: Coin, pair: seq<string>, side: int, latest: int, log: seq<Line>, d: BalanceChange,
                             owner: int)
    requires c.status == Ok && c.queue == [] && Reason(c.bank) == 0 && |log| == 3 && log[0..] == log
    requires (forall i :: 0 <= i < 3 ==> log[i].logID == i + 1) && Due(side, log) == [d] && d.owner2 > 0
    ensures var c1 := Acts(c, pair, side, latest, log, Stream(3, 1, 0));
            var b := Acts(c1.(up := Broken(c1.up)), pair, side, latest, log, Stream(3, 1, 2)).bank;
            && Applied(b.log) == Applied(c.bank.log) + Transfers([d, d])
            && Get(b.assets, owner).freeze
               == Get(c.bank.assets, owner).freeze + FreezePart(TransferOf(d), owner) + FreezePart(TransferOf(d), owner)
  {
    assert c.queue + [d][..1] == [d] && [d] + [d][..1] == [d, d] && [d, d][..2] == [d, d] && [d][0..] == [d];
    StreamSettles(c, pair, side, latest, log, 1, 0);
    var c1 := Acts(c, pair, side, latest, log, Stream(3, 1, 0));
    assert c1.queue == [d] && c1.bank == c.bank;
    StreamSettles(c1.(up := Broken(c1.up)), pair, side, latest, log, 1, 2);
    SettleAdds(c.bank, [d, d], owner);
    TwoChangesNet(d, d, owner);
  }

  /** One coin sold for one coin, with exactly that frozen. */
  function OneCoin(side: int, owner: int): OrderReq {
    OrderReq([['a'], ['b']], owner, side, 1, 1.0, 1.0, 1.0, 0.0)
  }

  lemma OneCoinIsTraded()
    ensures var a, b := OneCoin(ASK, 1), OneCoin(BID, 2);
            && DecimalToInt(a.price) == DecimalToInt(b.price) && Covered(a) && Covered(b)
            && Both(a, b).asks != [] && Both(a, b).bids != []
            && var m := MatchOf(Both(a, b)); IntToDecimal(m.quantity) == IntToDecimal(m.amount) == 1.0
  {
    var a, b := OneCoin(ASK, 1), OneCoin(BID, 2);
    SoundRequestsAreCovered(a);
    SoundRequestsAreCovered(b);
    OrdersMeet(a, b);
    assert DecimalToInt(1.0) == EXP;
    assert Amount(EXP, EXP) == EXP;
  }

  /** Two covered requests; their match is settled twice, and the user owes a coin that was never frozen. */
  lemma CoveredUserIsChargedTwice(side: int)
    requires IsSide(side)
    ensures Covered(OneCoin(ASK, 1)) && Covered(OneCoin(BID, 2))
    ensures var c := At(Runs(Begin(Empty([['a'], ['b']])), Twice(OneCoin(ASK, 1), OneCoin(BID, 2), side)), side);
            Get(c.bank.assets, if side == ASK then 1 else 2).freeze == -1.0
  {
    OneCoinIsTraded();
    MatchIsSettledTwice(OneCoin(ASK, 1), OneCoin(BID, 2), side);
  }
}
