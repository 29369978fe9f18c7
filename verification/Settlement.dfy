/** Whole runs of the exchange: changes are applied once, both banks agree with the engine's log, and what is frozen
    covers what is owed. */
module Settlement {
  import opened Fixed
  import opened Matching
  import opened Ledger
  import opened Streams
  import opened Exchange
  import opened Solvency
  import opened Funds
  import Accounting
  import Tables

  // ---- one bank's step ----

  /** Every match up to a place in the log has a bider whose change a bank can apply. */
  ghost predicate Settleable(log: seq<Line>, n: int) {
    forall i :: 0 <= i < n && i < |log| && log[i].MatchLine? ==> log[i].bider > 0
  }

  ghost predicate Settled(loaded: Assets, b: Bank, side: int, log: seq<Line>) {
    Balanced(loaded, b.assets, b.log) && Exact(b, side, log) && Settleable(log, Reason(b))
  }

  lemma IssueBalances(loaded: Assets, b: Bank, b': Bank, pair: seq<string>, msgSeq: int, r: OrderReq, total: real)
    requires Balanced(loaded, b.assets, b.log) && Issues(b, b', pair, msgSeq, r, total)
    ensures Balanced(loaded, b'.assets, b'.log) && Applied(b'.log) == Applied(b.log)
  {
    assert b'.log == b.log + [Last(b'.log)];
    RequestKeepsBalance(loaded, b.assets, b.log, Last(b'.log), r.owner, total);
  }

  lemma ExactCarriesOver(b: Bank, b': Bank, side: int, log: seq<Line>)
    requires Exact(b, side, log) && b'.omeReasonIDs == b.omeReasonIDs && Applied(b'.log) == Applied(b.log)
    ensures Exact(b', side, log)
  {}

  lemma IssueSettles(loaded: Assets, b: Bank, b': Bank, pair: seq<string>, msgSeq: int, r: OrderReq, total: real,
                     side: int, log: seq<Line>)
    requires Settled(loaded, b, side, log) && Issues(b, b', pair, msgSeq, r, total)
    ensures Settled(loaded, b', side, log)
  {
    IssueBalances(loaded, b, b', pair, msgSeq, r, total);
    ExactCarriesOver(b, b', side, log);
  }

  lemma IssueIsBacked(all: bool, b: Bank, b': Bank, pair: seq<string>, msgSeq: int, r: OrderReq, total: real)
    requires Backed(all, b, Issued(b)) && Issues(b, b', pair, msgSeq, r, total)
    requires total == Total(r) && Pays(all, r)
    ensures Backed(all, b', Issued(b'))
  {
    var id := TicketID(b.ticketIDs, pair) + 1;
    PriceIsPaid(all, r, id);
    RequestIsBacked(all, b, b', Issued(b), r, id, total, Last(b'.log));
  }

  lemma ApplySettles(loaded: Assets, c: Coin, side: int, log: seq<Line>)
    requires ChangesFlow(side, log, Reason(c.bank), c.queue, c.up) && c.queue != []
    requires forall i :: 0 <= i < |log| ==> log[i].logID == i + 1
    requires HandleBalanceChange(c.bank, c.queue[0], true).status == Ok && Settled(loaded, c.bank, side, log)
    ensures Settled(loaded, HandleBalanceChange(c.bank, c.queue[0], true).bank, side, log)
  {
    var b, b' := c.bank, HandleBalanceChange(c.bank, c.queue[0], true).bank;
    ChangeTakes(b, c.queue[0]);
    ApplyTakes(side, log, c);
    ChangeKeepsBalance(loaded, b.assets, b.log, Last(b'.log), c.queue[0]);
    ChangeIsExact(side, log, c, b');
    HeadSettles(side, log, c);
  }

  // The head of a queue is the next match in the log, and it can be applied if its bider is positive.
  lemma HeadSettles(side: int, log: seq<Line>, c: Coin)
    requires ChangesFlow(side, log, Reason(c.bank), c.queue, c.up) && c.queue != []
    requires forall i :: 0 <= i < |log| ==> log[i].logID == i + 1
    requires HandleBalanceChange(c.bank, c.queue[0], true).status == Ok && Settleable(log, Reason(c.bank))
    ensures Settleable(log, c.queue[0].reasonID)
  {
    var r, k := Reason(c.bank), c.queue[0].reasonID;
    ChangeTakes(c.bank, c.queue[0]);
    DueHead(side, log, r, c.up.received);
    forall i | 0 <= i < k && log[i].MatchLine? ensures log[i].bider > 0 {
      if r <= i < k - 1 { NothingIsDue(side, log, r, k - 1, i); }
    }
  }

  lemma {:induction false} NothingIsDue(side: int, log: seq<Line>, lo: nat, hi: nat, i: nat)
    requires lo <= i < hi <= |log| && Due(side, log[lo..hi]) == []
    ensures log[i].OrderLine?
    decreases hi
  {
    DueNext(side, log, lo, hi - 1);
    if i < hi - 1 { NothingIsDue(side, log, lo, hi - 1, i); }
  }

  lemma ApplyIsBacked(all: bool, c: Coin, pair: seq<string>)
    requires c.queue != [] && HandleBalanceChange(c.bank, c.queue[0], true).status == Ok
    requires Backed(all, c.bank, Issued(c.bank))
    ensures var b' := HandleBalanceChange(c.bank, c.queue[0], true).bank; Backed(all, b', Issued(b'))
  {
    var b, b' := c.bank, HandleBalanceChange(c.bank, c.queue[0], true).bank;
    ChangeTakes(b, c.queue[0]);
    LogGrows(b.log, Last(b'.log), pair);
    assert Issued(b') == Issued(b);
    ChangeIsBacked(all, b, b', Issued(b), Last(b'.log));
  }

  // ---- every step ----

  lemma AskedSettles(loaded: Assets, c: Coin, pair: seq<string>, side: int, log: seq<Line>, msgSeq: int, r: OrderReq)
    requires |pair| == 2 && pair[0] != pair[1] && IsSide(side) && Listed(pair, On(side, Request(msgSeq, r)))
    requires Settled(loaded, c.bank, side, log)
    ensures Settled(loaded, Asked(c, CoinName(pair, side), msgSeq, r).bank, side, log)
  {
    var o := HandleOrderReq(c.bank, CoinName(pair, side), msgSeq, r, true);
    if o.status == Ok {
      RequestTakes(c.bank, pair, side, msgSeq, r);
      if o.bank == c.bank.(acks := o.bank.acks) {
        AcksDoNotSettle(loaded, c.bank, o.bank.acks, side, log);
      } else {
        IssueSettles(loaded, c.bank, o.bank, pair, msgSeq, r, Total(r), side, log);
      }
    } else {
      AcksDoNotSettle(loaded, c.bank, o.bank.acks, side, log);
    }
  }

  lemma AcksDoNotSettle(loaded: Assets, b: Bank, acks: seq<int>, side: int, log: seq<Line>)
    requires Settled(loaded, b, side, log)
    ensures Settled(loaded, b.(acks := acks), side, log)
  {}

  lemma AskedIsBacked(all: bool, c: Coin, pair: seq<string>, side: int, msgSeq: int, r: OrderReq)
    requires |pair| == 2 && pair[0] != pair[1] && IsSide(side) && Listed(pair, On(side, Request(msgSeq, r)))
    requires Backed(all, c.bank, Issued(c.bank)) && (IsSide(r.side) ==> Pays(all, r))
    ensures var b' := Asked(c, CoinName(pair, side), msgSeq, r).bank; Backed(all, b', Issued(b'))
  {
    var o := HandleOrderReq(c.bank, CoinName(pair, side), msgSeq, r, true);
    if o.status == Ok {
      RequestTakes(c.bank, pair, side, msgSeq, r);
      if o.bank == c.bank.(acks := o.bank.acks) {
        SameLogIsBacked(all, c.bank, c.bank.(acks := o.bank.acks), Issued(c.bank));
      } else {
        IssueIsBacked(all, c.bank, o.bank, pair, msgSeq, r, Total(r));
      }
    } else {
      SameLogIsBacked(all, c.bank, c.bank.(acks := o.bank.acks), Issued(c.bank));
    }
  }

  lemma SameLogIsBacked(all: bool, b: Bank, b': Bank, issued: seq<TicketLog>)
    requires Backed(all, b, issued) && b'.log == b.log
    ensures Backed(all, b', issued)
  {
    forall o ensures BackedFor(all, b', issued, o) { assert BackedFor(all, b, issued, o); }
  }

  predicate MovesFunds(e: Exchange.Event, side: int) {
    e.On? && e.side == side && (e.act.Request? || e.act.Apply? || e.act.Reload?)
  }

  lemma BankRests(w: World, e: Exchange.Event, side: int)
    requires !MovesFunds(e, side) && IsSide(side)
    ensures At(Step(w, e), side).bank == At(w, side).bank
  {}

  ghost predicate SettledAt(o: Opening, w: World, side: int) {
    Settled(Loaded(o, side), At(w, side).bank, side, w.log)
  }

  ghost predicate BackedAt(all: bool, w: World, side: int) {
    Backed(all, At(w, side).bank, Issued(At(w, side).bank))
  }

  lemma LongerLogSettles(loaded: Assets, b: Bank, side: int, log: seq<Line>, l: Line)
    requires Settled(loaded, b, side, log)
    ensures Settled(loaded, b, side, log + [l])
  {
    assert (log + [l])[..Reason(b)] == log[..Reason(b)];
  }

  // A bank that has its balances back, and has applied nothing, may forget its reason ID.
  lemma ReloadSettles(loaded: Assets, b: Bank, b': Bank, side: int, log: seq<Line>)
    requires Settled(loaded, b, side, log) && Reason(b) == Reason(b') == 0 && b'.log == b.log
    requires forall o :: Get(b'.assets, o) == Get(b.assets, o)
    ensures Settled(loaded, b', side, log)
  {
    forall o ensures BalancedFor(loaded, b'.assets, b'.log, o) {
      assert BalancedFor(loaded, b.assets, b.log, o);
      assert Get(b'.assets, o) == Get(b.assets, o);
    }
  }

  lemma CoinSettles(loaded: Assets, c: Coin, pair: seq<string>, side: int, latest: int, log: seq<Line>, a: Act)
    requires |pair| == 2 && pair[0] != pair[1] && IsSide(side) && Listed(pair, On(side, a))
    requires ChangesFlow(side, log, Reason(c.bank), c.queue, c.up) && Settled(loaded, c.bank, side, log)
    requires forall i :: 0 <= i < |log| ==> log[i].logID == i + 1
    requires a.Request? || a.Apply? || a.Reload?
    requires a.Reload? ==> Reason(c.bank) == 0
    requires a.Reload? ==> forall o :: Get(Reloaded(c.bank, pair, a.rows, a.wasted).assets, o) == Get(c.bank.assets, o)
    ensures Settled(loaded, React(c, pair, side, latest, log, a).bank, side, log)
  {
    if a.Request? {
      AskedSettles(loaded, c, pair, side, log, a.msgSeq, a.req);
    } else if a.Reload? {
      ReloadSettles(loaded, c.bank, Reloaded(c.bank, pair, a.rows, a.wasted), side, log);
    } else if c.queue != [] && HandleBalanceChange(c.bank, c.queue[0], true).status == Ok {
      ApplySettles(loaded, c, side, log);
    }
  }

  lemma StepSettles(o: Opening, w: World, e: Exchange.Event, side: int)
    requires EngineOk(w) && ChangesOk(w, side) && IsSide(side) && SettledAt(o, w, side)
    requires Listed(w.pair, e) && InTime(w, e) && Kept(w, e)
    ensures SettledAt(o, Step(w, e), side)
  {
    if MovesFunds(e, side) {
      CoinSettles(Loaded(o, side), At(w, side), w.pair, side, Latest(w.engine, side), w.log, e.act);
    } else {
      BankRests(w, e, side);
      LogGrowsByOne(w, e);
      if Step(w, e).log != w.log {
        LongerLogSettles(Loaded(o, side), At(w, side).bank, side, w.log, Last(Step(w, e).log));
      }
    }
  }

  lemma CoinIsBacked(all: bool, c: Coin, pair: seq<string>, side: int, latest: int, log: seq<Line>, a: Act)
    requires |pair| == 2 && pair[0] != pair[1] && IsSide(side) && Listed(pair, On(side, a))
    requires a.Request? || a.Apply? || a.Reload?
    requires a.Request? && IsSide(a.req.side) ==> Pays(all, a.req)
    requires Backed(all, c.bank, Issued(c.bank))
    ensures var b' := React(c, pair, side, latest, log, a).bank; Backed(all, b', Issued(b'))
  {
    if a.Request? {
      AskedIsBacked(all, c, pair, side, a.msgSeq, a.req);
    } else if a.Apply? && c.queue != [] && HandleBalanceChange(c.bank, c.queue[0], true).status == Ok {
      ApplyIsBacked(all, c, pair);
    } else if a.Reload? {
      SameLogIsBacked(all, c.bank, Reloaded(c.bank, pair, a.rows, a.wasted), Issued(c.bank));
    }
  }

  lemma StepIsBacked(all: bool, w: World, e: Exchange.Event, side: int)
    requires EngineOk(w) && IsSide(side) && Listed(w.pair, e) && BackedAt(all, w, side)
    requires e.On? && e.act.Request? && IsSide(e.act.req.side) ==> Pays(all, e.act.req)
    ensures BackedAt(all, Step(w, e), side)
  {
    PairIsFixed(w, e);
    if MovesFunds(e, side) {
      CoinIsBacked(all, At(w, side), w.pair, side, Latest(w.engine, side), w.log, e.act);
    } else {
      BankRests(w, e, side);
    }
  }

  lemma BeginSettles(o: Opening, side: int)
    requires IsSide(side)
    ensures SettledAt(o, Begin(o), side)
  {
    forall i ensures BalancedFor(Loaded(o, side), At(Begin(o), side).bank.assets, [], i) {}
  }

  lemma {:induction false} SettledHolds(o: Opening, events: seq<Exchange.Event>, side: int)
    requires Trading(o, events) && Timely(o, events) && IsSide(side)
    ensures SettledAt(o, Runs(Begin(o), events), side)
  {
    if events == [] {
      BeginSettles(o, side);
    } else {
      var before := events[..|events| - 1];
      SettledHolds(o, before, side);
      FlowHolds(o, before);
      ChangesHold(o, before, side);
      StepSettles(o, Runs(Begin(o), before), Last(events), side);
    }
  }

  lemma {:induction false} BackedHolds(all: bool, o: Opening, events: seq<Exchange.Event>, side: int)
    requires Trading(o, events) && Paying(all, events) && IsSide(side)
    ensures BackedAt(all, Runs(Begin(o), events), side)
  {
    if events == [] {
      assert IntToDecimal(0) == 0.0;
    } else {
      var before := events[..|events| - 1];
      BackedHolds(all, o, before, side);
      FlowHolds(o, before);
      assert Last(events) == events[|events| - 1];
      StepIsBacked(all, Runs(Begin(o), before), Last(events), side);
    }
  }

  // ---- exactly once ----

  lemma DueInOrder(side: int, log: seq<Line>, reason: int, queue: seq<BalanceChange>, u: Up)
    requires ChangesFlow(side, log, reason, queue, u)
    ensures Due(side, log) == Due(side, log[..reason]) + queue + Due(side, log[u.received..])
    ensures u.inFlight <= Due(side, log[u.received..])
  {
    assert log[..|log|] == log && log[0..u.received] == log[..u.received] && log[0..reason] == log[..reason];
    DueSplit(side, log, 0, u.received, |log|);
    DueSplit(side, log, 0, reason, u.received);
    if u.connected { DueSplit(side, log, u.received, Tables.Max(u.pos, u.firstID), |log|); }
  }

  /** Balance changes are applied exactly once and in log order: what a bank's log says it applied is what is due up
      to its reason ID, and the rest is queued, in flight, or still to be pushed. */
  lemma ChangesAreAppliedOnce(o: Opening, events: seq<Exchange.Event>, side: int)
    requires Trading(o, events) && Timely(o, events) && IsSide(side)
    ensures var w := Runs(Begin(o), events);
            var c, log := At(w, side), w.log;
            && 0 <= Reason(c.bank) <= c.up.received <= |log|
            && Applied(c.bank.log) == Transfers(Due(side, log[..Reason(c.bank)]))
            && Due(side, log) == Due(side, log[..Reason(c.bank)]) + c.queue + Due(side, log[c.up.received..])
            && c.up.inFlight <= Due(side, log[c.up.received..])
  {
    ChangesHold(o, events, side);
    SettledHolds(o, events, side);
    var w := Runs(Begin(o), events);
    DueInOrder(side, w.log, Reason(At(w, side).bank), At(w, side).queue, At(w, side).up);
  }

  // ---- both banks against the engine's log ----

  // One owner pays x out of the frozen part, the other gets it; they may be the same.
  lemma MatchMoves(side: int, l: Line, owner: int)
    requires l.MatchLine?
    ensures FreePart(TransferOf(ChangeFor(side, l)), owner) == IntToDecimal(Gain(side, owner)(l))
    ensures FreezePart(TransferOf(ChangeFor(side, l)), owner) == -IntToDecimal(Debit(side, owner)(l))
  {}

  lemma DueGrows(side: int, log: seq<Line>, l: Line)
    ensures Transfers(Due(side, log + [l])) ==
            Transfers(Due(side, log)) + (if l.MatchLine? then [TransferOf(ChangeFor(side, l))] else [])
  {
    var due := Due(side, log);
    assert (log + [l])[..|log|] == log;
    if l.MatchLine? {
      assert (due + [ChangeFor(side, l)])[..|due|] == due;
    } else {
      assert due + [] == due;
    }
  }

  function Gained(side: int, log: seq<Line>, owner: int): int {
    Accounting.SumLog(log, Gain(side, owner))
  }

  function Debited(side: int, log: seq<Line>, owner: int): int {
    Accounting.SumLog(log, Debit(side, owner))
  }

  lemma SumsGrow(side: int, log: seq<Line>, l: Line, owner: int)
    ensures Gained(side, log + [l], owner) == Gained(side, log, owner) + Gain(side, owner)(l)
    ensures Debited(side, log + [l], owner) == Debited(side, log, owner) + Debit(side, owner)(l)
  {
    assert (log + [l])[..|log|] == log;
  }

  // The changes due for a stretch of the log move what its matches gain and debit.
  lemma {:induction false} NetOfDue(side: int, log: seq<Line>, owner: int)
    ensures NetFree(Transfers(Due(side, log)), owner) == IntToDecimal(Gained(side, log, owner))
    ensures NetFreeze(Transfers(Due(side, log)), owner) == -IntToDecimal(Debited(side, log, owner))
  {
    if log != [] {
      var before, l := log[..|log| - 1], Last(log);
      NetOfDue(side, before, owner);
      assert log == before + [l];
      DueGrows(side, before, l);
      SumsGrow(side, before, l, owner);
      if l.MatchLine? {
        MatchMoves(side, l, owner);
        NetExtends(Transfers(Due(side, before)), TransferOf(ChangeFor(side, l)), owner);
      } else {
        assert Transfers(Due(side, before)) + [] == Transfers(Due(side, before));
      }
    }
  }

  lemma SettledBalance(loaded: Assets, b: Bank, side: int, log: seq<Line>, owner: int)
    requires Settled(loaded, b, side, log)
    ensures var done, frozen := log[..Reason(b)], Frozen(b.log, owner);
            && Get(b.assets, owner).free == Get(loaded, owner).free + IntToDecimal(Gained(side, done, owner)) - frozen
            && Get(b.assets, owner).freeze
               == Get(loaded, owner).freeze + frozen - IntToDecimal(Debited(side, done, owner))
  {
    NetOfDue(side, log[..Reason(b)], owner);
    assert BalancedFor(loaded, b.assets, b.log, owner);
  }

  /** At each bank, a user's balance is the one loaded, less what the user's orders froze, with what the matches up to
      the bank's reason ID moved: the debits leave the frozen part, the gains enter the free part. */
  lemma BalancesFollowTheMatches(o: Opening, events: seq<Exchange.Event>, side: int, owner: int)
    requires Trading(o, events) && Timely(o, events) && IsSide(side)
    ensures var w := Runs(Begin(o), events);
            var b, was := At(w, side).bank, Get(Loaded(o, side), owner);
            var frozen := Frozen(b.log, owner);
            && 0 <= Reason(b) <= |w.log|
            && var done := w.log[..Reason(b)];
            && Get(b.assets, owner).free == was.free + IntToDecimal(Gained(side, done, owner)) - frozen
            && Get(b.assets, owner).freeze == was.freeze + frozen - IntToDecimal(Debited(side, done, owner))
  {
    SettledHolds(o, events, side);
    var w := Runs(Begin(o), events);
    SettledBalance(Loaded(o, side), At(w, side).bank, side, w.log, owner);
  }

  // ---- conservation ----

  /** Every change on its way is that of a match in the engine's log. */
  ghost predicate GenuineChanges(side: int, log: seq<Line>, cs: seq<BalanceChange>) {
    forall d :: d in cs ==> exists k :: 0 <= k < |log| && log[k].MatchLine? && d == ChangeFor(side, log[k])
  }

  ghost predicate ChangesAreGenuine(w: World, side: int) {
    GenuineChanges(side, w.log, At(w, side).queue) && GenuineChanges(side, w.log, At(w, side).up.inFlight)
  }

  lemma GenuineParts(side: int, log: seq<Line>, cs: seq<BalanceChange>, d: BalanceChange)
    requires GenuineChanges(side, log, cs)
    ensures |cs| > 0 ==> GenuineChanges(side, log, cs[1..]) && GenuineChanges(side, log, cs[..1])
    ensures GenuineChanges(side, log, [d]) ==> GenuineChanges(side, log, cs + [d])
  {
    if |cs| > 0 {
      assert forall x :: x in cs[1..] ==> x in cs;
      assert forall x :: x in cs[..1] ==> x in cs;
    }
    assert d in [d];
  }

  lemma MatchIsGenuine(side: int, log: seq<Line>, k: int)
    requires 0 <= k < |log| && log[k].MatchLine?
    ensures GenuineChanges(side, log, [ChangeFor(side, log[k])])
  {}

  lemma ActIsGenuine(pair: seq<string>, c: Coin, side: int, latest: int, log: seq<Line>, a: Act)
    requires GenuineChanges(side, log, c.queue) && GenuineChanges(side, log, c.up.inFlight)
    ensures var c' := React(c, pair, side, latest, log, a);
            GenuineChanges(side, log, c'.queue) && GenuineChanges(side, log, c'.up.inFlight)
  {
    if a.Push? && c.up.connected && c.up.pos < |log| {
      if log[c.up.pos].MatchLine? {
        MatchIsGenuine(side, log, c.up.pos);
        GenuineParts(side, log, c.up.inFlight, ChangeFor(side, log[c.up.pos]));
      }
    } else if a.Deliver? && c.up.inFlight != [] {
      var d := c.up.inFlight[0];
      assert c.up.inFlight[..1] == [d];
      GenuineParts(side, log, c.up.inFlight, d);
      GenuineParts(side, log, c.queue, d);
    } else if a.Apply? && c.queue != [] {
      GenuineParts(side, log, c.queue, c.queue[0]);
    }
  }

  lemma LongerLogIsGenuine(side: int, log: seq<Line>, l: Line, cs: seq<BalanceChange>)
    requires GenuineChanges(side, log, cs)
    ensures GenuineChanges(side, log + [l], cs)
  {
    forall d | d in cs
      ensures exists k :: 0 <= k < |log + [l]| && (log + [l])[k].MatchLine? && d == ChangeFor(side, (log + [l])[k])
    {
      var k :| 0 <= k < |log| && log[k].MatchLine? && d == ChangeFor(side, log[k]);
      assert (log + [l])[k] == log[k];
    }
  }

  lemma StepIsGenuine(w: World, e: Exchange.Event, side: int)
    requires ChangesAreGenuine(w, side) && IsSide(side)
    ensures ChangesAreGenuine(Step(w, e), side)
  {
    var c := At(w, side);
    if e.On? && e.side == side {
      ActIsGenuine(w.pair, c, side, Latest(w.engine, side), w.log, e.act);
    } else {
      OthersRest(w, e, side);
      LogGrowsByOne(w, e);
      if Step(w, e).log != w.log {
        LongerLogIsGenuine(side, w.log, Last(Step(w, e).log), c.queue);
        LongerLogIsGenuine(side, w.log, Last(Step(w, e).log), c.up.inFlight);
      }
    }
  }

  lemma {:induction false} GenuineHolds(o: Opening, events: seq<Exchange.Event>, side: int)
    requires IsSide(side)
    ensures ChangesAreGenuine(Runs(Begin(o), events), side)
  {
    if events != [] {
      GenuineHolds(o, events[..|events| - 1], side);
      StepIsGenuine(Runs(Begin(o), events[..|events| - 1]), Last(events), side);
    }
  }

  lemma RequestKeepsTheSum(c: Coin, coin: string, msgSeq: int, r: OrderReq)
    ensures Ledger.Sum(Asked(c, coin, msgSeq, r).bank.assets) == Ledger.Sum(c.bank.assets)
  {
    HandleSum(c.bank, coin, Ledger.Order(msgSeq, r, true));
  }

  lemma ApplyKeepsTheSum(c: Coin, side: int, log: seq<Line>)
    requires GenuineChanges(side, log, c.queue) && c.queue != []
    ensures Ledger.Sum(Changed(c).bank.assets) == Ledger.Sum(c.bank.assets)
  {
    var d := c.queue[0];
    assert d in c.queue;
    HandleSum(c.bank, [], Change(d, true));
  }

  lemma SameWithout(m: Assets, m': Assets, o: int)
    requires forall p :: Get(m, p) == Get(m', p)
    ensures forall p :: Get(m - {o}, p) == Get(m' - {o}, p)
  {
    forall p ensures Get(m - {o}, p) == Get(m' - {o}, p) { assert Get(m, p) == Get(m', p); }
  }

  lemma {:induction false} NothingHeld(m: Assets)
    requires forall o :: Get(m, o) == Balance(0.0, 0.0)
    ensures Ledger.Sum(m) == 0.0
  {
    if o :| o in m {
      assert Get(m, o) == Balance(0.0, 0.0);
      forall p ensures Get(m - {o}, p) == Balance(0.0, 0.0) { assert Get(m, p) == Balance(0.0, 0.0); }
      SumWithout(m, o);
      NothingHeld(m - {o});
    }
  }

  lemma {:induction false} SameBalancesSameSum(m: Assets, m': Assets)
    requires forall o :: Get(m, o) == Get(m', o)
    ensures Ledger.Sum(m) == Ledger.Sum(m')
    decreases |m|
  {
    if o :| o in m {
      SameWithout(m, m', o);
      SumWithout(m, o);
      SumOfOne(m', o);
      SameBalancesSameSum(m - {o}, m' - {o});
    } else {
      forall o ensures Get(m', o) == Balance(0.0, 0.0) { assert Get(m, o) == Get(m', o); }
      NothingHeld(m');
    }
  }

  lemma SumOfOne(m: Assets, o: int)
    ensures Ledger.Sum(m) == Get(m, o).free + Get(m, o).freeze + Ledger.Sum(m - {o})
  {
    if o in m { SumWithout(m, o); } else { assert m - {o} == m; }
  }

  lemma ActKeepsTheSum(c: Coin, pair: seq<string>, side: int, latest: int, log: seq<Line>, a: Act)
    requires GenuineChanges(side, log, c.queue)
    requires a.Reload? ==> forall o :: Get(Reloaded(c.bank, pair, a.rows, a.wasted).assets, o) == Get(c.bank.assets, o)
    ensures Ledger.Sum(React(c, pair, side, latest, log, a).bank.assets) == Ledger.Sum(c.bank.assets)
  {
    if a.Request? {
      RequestKeepsTheSum(c, CoinName(pair, side), a.msgSeq, a.req);
    } else if a.Apply? && c.queue != [] {
      ApplyKeepsTheSum(c, side, log);
    } else if a.Reload? {
      SameBalancesSameSum(Reloaded(c.bank, pair, a.rows, a.wasted).assets, c.bank.assets);
    }
  }

  lemma StepKeepsTheSum(w: World, e: Exchange.Event, side: int)
    requires ChangesAreGenuine(w, side) && IsSide(side) && Kept(w, e)
    ensures Ledger.Sum(At(Step(w, e), side).bank.assets) == Ledger.Sum(At(w, side).bank.assets)
  {
    if e.On? && e.side == side {
      ActKeepsTheSum(At(w, side), w.pair, side, Latest(w.engine, side), w.log, e.act);
    } else {
      OthersRest(w, e, side);
    }
  }

  /** Every restart of the run finds the balances as they were. */
  ghost predicate AllKept(o: Opening, events: seq<Exchange.Event>) {
    events == [] ||
    (AllKept(o, events[..|events| - 1]) && Kept(Runs(Begin(o), events[..|events| - 1]), Last(events)))
  }

  /** Trading neither makes nor destroys coin at either bank, whoever trades with whom, self-trades included, however
      the streams behave and even where a change is applied twice. */
  lemma {:induction false} TradingMakesNoCoin(o: Opening, events: seq<Exchange.Event>, side: int)
    requires IsSide(side) && AllKept(o, events)
    ensures Ledger.Sum(At(Runs(Begin(o), events), side).bank.assets) == Ledger.Sum(Loaded(o, side))
  {
    if events != [] {
      var before := events[..|events| - 1];
      TradingMakesNoCoin(o, before, side);
      GenuineHolds(o, before, side);
      StepKeepsTheSum(Runs(Begin(o), before), Last(events), side);
    }
  }
}
