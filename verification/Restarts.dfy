/** A bank that restarts does not know which changes it has applied. */
module Restarts {
  import opened Matching
  import opened Ledger
  import opened Streams
  import opened Exchange
  import opened Funds
  import opened Settlement
  import opened Drive
  import opened Market
  import BankLives
  import BankRecovery
  import BankTables
  import TicketKeys

  // ---- what a restart loads ----

  lemma LoadedFields(start: BankTables.BankTables, symbol: seq<string>, coin: string, eras: seq<BankLives.Era>)
    requires eras != []
    ensures var b := BankLives.Loaded(start, symbol, coin, eras);
            var log := BankLives.Ended(start, symbol, coin, eras).bank.log;
            && b.log == log && b.logID == (if log == [] then 0 else Last(log).logID)
            && b.ticketIDs.Keys == {symbol} && b.omeReasonIDs == map[] && b.acks == []
            && b.assets == BankTables.Held(BankLives.Written(start, eras).db).balances
  {}

  lemma SameBank(b: Bank, last: Bank, symbol: seq<string>, rows: set<int>, waste: nat)
    requires b.log == last.log && b.logID == (if last.log == [] then 0 else Last(last.log).logID)
    requires b.ticketIDs.Keys == {symbol} && TicketID(b.ticketIDs, symbol) == |TicketsOf(last.log, symbol)| + waste
    requires b.omeReasonIDs == map[] && b.acks == [] && b.latestMsgSeq == LastSequence(last.log)
    requires b.assets == map o | o in rows :: BankTables.HeldBalance(Get(last.assets, o))
    ensures b == Reloaded(last, symbol, rows, waste)
  {
    assert symbol in b.ticketIDs.Keys;
    assert b.ticketIDs == map[symbol := |TicketsOf(last.log, symbol)| + waste];
  }

  /** What a bank loads after any number of lives is what a restart in the exchange gives it: the last bank's balances
      as the columns hold them, its log, and ticket numbers that count the keys wasted. */
  lemma LoadsAreReloads(start: BankTables.BankTables, symbol: seq<string>, coin: string, eras: seq<BankLives.Era>)
    requires BankLives.Blank(start) && BankLives.Waited(start, symbol, coin, eras)
    requires eras != [] && BankLives.Ended(start, symbol, coin, eras).status == Ok
    ensures BankLives.Loaded(start, symbol, coin, eras)
            == Reloaded(BankLives.Ended(start, symbol, coin, eras).bank, symbol, start.balances.Keys,
                        TicketKeys.Waste(start, symbol, BankLives.Rounds(eras)))
  {
    BankLives.LivesTakeRequestsOnce(start, symbol, coin, eras);
    BankLives.LoadedNumber(start, symbol, coin, eras);
    LoadedFields(start, symbol, coin, eras);
    LoadedBalances(start, symbol, coin, eras);
    SameBank(BankLives.Loaded(start, symbol, coin, eras), BankLives.Ended(start, symbol, coin, eras).bank, symbol,
             start.balances.Keys, TicketKeys.Waste(start, symbol, BankLives.Rounds(eras)));
  }

  lemma LoadedBalances(start: BankTables.BankTables, symbol: seq<string>, coin: string, eras: seq<BankLives.Era>)
    requires BankLives.Blank(start) && BankLives.Waited(start, symbol, coin, eras)
    requires eras != [] && BankLives.Ended(start, symbol, coin, eras).status == Ok
    ensures var b := BankLives.Ended(start, symbol, coin, eras).bank;
            BankLives.Loaded(start, symbol, coin, eras).assets
            == map o | o in start.balances.Keys :: BankTables.HeldBalance(Get(b.assets, o))
  {
    var assets := BankLives.Loaded(start, symbol, coin, eras).assets;
    var b := BankLives.Ended(start, symbol, coin, eras).bank;
    LoadedFields(start, symbol, coin, eras);
    forall o ensures o in assets <==> o in start.balances { LoadedOwners(start, symbol, coin, eras, o); }
    forall o | o in start.balances ensures assets[o] == BankTables.HeldBalance(Get(b.assets, o)) {
      LoadedBalance(start, symbol, coin, eras, o);
    }
  }

  lemma LoadedOwners(start: BankTables.BankTables, symbol: seq<string>, coin: string, eras: seq<BankLives.Era>, o: int)
    requires BankLives.Blank(start) && BankLives.Waited(start, symbol, coin, eras) && eras != []
    ensures o in BankLives.Loaded(start, symbol, coin, eras).assets <==> o in start.balances
  {
    BankLives.LivesTakeRequestsOnce(start, symbol, coin, eras);
    LoadedFields(start, symbol, coin, eras);
    BankRecovery.OwnersStay(start, BankLives.Loaded(start, symbol, coin, eras).log, o);
  }

  lemma LoadedBalance(start: BankTables.BankTables, symbol: seq<string>, coin: string, eras: seq<BankLives.Era>, o: int)
    requires BankLives.Blank(start) && BankLives.Waited(start, symbol, coin, eras) && o in start.balances
    requires eras != [] && BankLives.Ended(start, symbol, coin, eras).status == Ok
    ensures var assets := BankLives.Loaded(start, symbol, coin, eras).assets;
            && o in assets
            && assets[o] == BankTables.HeldBalance(Get(BankLives.Ended(start, symbol, coin, eras).bank.assets, o))
  {
    var before := eras[..|eras| - 1];
    LoadedFields(start, symbol, coin, eras);
    assert BankLives.Rounds(eras) == BankLives.Rounds(before) + Last(eras).rounds;
    BankRecovery.TablesHoldTheLedger(start, symbol, coin, before, Last(eras).life, Last(eras).rounds, o);
  }

  // ---- ticket numbers ----

  /** A bank restarts, takes one request of its pair, and its ticket is sent to the engine. */
  function Resumed(side: int, rows: set<int>, wasted: nat, r: OrderReq): seq<Exchange.Event> {
    [On(side, Reload(rows, wasted)), On(side, Request(1, r))] + Fetch(side)
  }

  function Numbering(pair: seq<string>, rows: set<int>, wasted: nat): Bank {
    Reloaded(Opened(map[]), pair, rows, wasted)
  }

  lemma NextNumber(pair: seq<string>, side: int, rows: set<int>, wasted: nat, r: OrderReq)
    requires |pair| == 2 && pair[0] != pair[1] && r.symbol == pair && r.side == side && IsSide(side)
    ensures var o := HandleOrderReq(Numbering(pair, rows, wasted), CoinName(pair, side), 1, r, true);
            o.status == Ok && Issued(o.bank) == [TicketFor(r, wasted + 1)]
  {
    var b := HandleOrderReq(Numbering(pair, rows, wasted), CoinName(pair, side), 1, r, true).bank;
    LogGrows([], Last(b.log), pair);
    assert [] + [Last(b.log)] == b.log && [] + Last(b.log).tickets == [TicketFor(r, wasted + 1)];
  }

  lemma NextArrives(w: World, side: int, t: TicketLog)
    requires IsSide(side) && Issued(At(w, side).bank) == [t] && t.id > 0 && At(w, side).status == Ok
    requires At(w, side).down == Down(0, 0, []) && w.channel == [] && w.engine == START
    ensures var w' := Step(Step(w, On(side, Send)), On(side, Receive)); w'.channel == [Pushed(t)] && w'.engine == START
  {
    assert [] + [Pushed(t)] == [Pushed(t)] && [Pushed(t)][1..] == [];
  }

  lemma ResumedRuns(pair: seq<string>, side: int, rows: set<int>, wasted: nat, r: OrderReq)
    requires IsSide(side)
    ensures var w := Step(Step(Begin(Empty(pair)), On(side, Reload(rows, wasted))), On(side, Request(1, r)));
            Runs(Begin(Empty(pair)), Resumed(side, rows, wasted, r))
            == Step(Step(Step(w, On(side, Send)), On(side, Receive)), TakeTicket)
  {
    var w0 := Begin(Empty(pair));
    var e1, e2 := On(side, Reload(rows, wasted)), On(side, Request(1, r));
    RunsOne(w0, e1);
    RunsOneMore(w0, [e1], e2);
    assert [e1] + [e2] == [e1, e2];
    RunsConcat(w0, [e1, e2], Fetch(side));
    RunsFetch(Step(Step(w0, e1), e2), side);
  }

  lemma ResumedArrives(pair: seq<string>, side: int, rows: set<int>, wasted: nat, r: OrderReq)
    requires |pair| == 2 && pair[0] != pair[1] && r.symbol == pair && r.side == side && IsSide(side)
    ensures var w := Step(Step(Begin(Empty(pair)), On(side, Reload(rows, wasted))), On(side, Request(1, r)));
            var w' := Step(Step(w, On(side, Send)), On(side, Receive));
            w'.channel == [Pushed(TicketFor(r, wasted + 1))] && w'.engine == START && !w'.refused
  {
    NextNumber(pair, side, rows, wasted, r);
    NextArrives(Step(Step(Begin(Empty(pair)), On(side, Reload(rows, wasted))), On(side, Request(1, r))), side,
                TicketFor(r, wasted + 1));
  }

  /** The engine refuses the next ticket of a restarted bank, and stops, if and only if a key was wasted. */
  lemma WastedKeysAreRefused(pair: seq<string>, side: int, rows: set<int>, wasted: nat, r: OrderReq)
    requires |pair| == 2 && pair[0] != pair[1] && r.symbol == pair && r.side == side && IsSide(side)
    ensures Runs(Begin(Empty(pair)), Resumed(side, rows, wasted, r)).refused <==> wasted > 0
  {
    ResumedRuns(pair, side, rows, wasted, r);
    ResumedArrives(pair, side, rows, wasted, r);
  }

  // ---- changes sent again ----

  lemma {:induction false} TransfersConcat(a: seq<BalanceChange>, b: seq<BalanceChange>)
    ensures Transfers(a + b) == Transfers(a) + Transfers(b) && |Transfers(a)| == |a|
    decreases |a| + |b|
  {
    if b != [] {
      TransfersConcat(a, b[..|b| - 1]);
      assert (a + b)[..|a + b| - 1] == a + b[..|b| - 1];
    } else {
      assert a + b == a;
      if a != [] { TransfersConcat(a[..|a| - 1], []); }
    }
  }

  // The first `k` changes of a log are those up to the line of the `k`-th.
  lemma {:induction false} FirstOfDue(side: int, log: seq<Line>, k: nat)
    requires 0 < k <= |Due(side, log)| && forall i :: 0 <= i < |log| ==> log[i].logID == i + 1
    ensures var d := Due(side, log)[k - 1];
            0 < d.reasonID <= |log| && d.reasonTable == OmeLogs && Due(side, log[..d.reasonID]) == Due(side, log)[..k]
  {
    var before, n := log[..|log| - 1], |log| - 1;
    assert forall i :: 0 <= i < n ==> before[i] == log[i];
    if k <= |Due(side, before)| {
      FirstOfDue(side, before, k);
      assert before[..Due(side, before)[k - 1].reasonID] == log[..Due(side, before)[k - 1].reasonID];
    } else {
      assert Last(log) == log[n] && log[..|log|] == log;
    }
  }

  /** A restart, and a change stream of which `k` changes are applied. */
  function Again(w: World, side: int, rows: set<int>, wasted: nat, k: nat): seq<Act> {
    [Reload(rows, wasted)] + Stream(|w.log|, k, k)
  }

  lemma RestartedStreams(c: Coin, pair: seq<string>, side: int, latest: int, log: seq<Line>, rows: set<int>,
                         wasted: nat, k: nat)
    requires forall i :: 0 <= i < |log| ==> log[i].logID == i + 1
    requires 0 < k <= |Due(side, log)| && Appliable(Due(side, log), k)
    ensures var acts := [Reload(rows, wasted)] + Stream(|log|, k, k);
            var b := Acts(c, pair, side, latest, log, acts).bank;
            && Applied(b.log) == Applied(c.bank.log) + Transfers(Due(side, log)[..k])
            && Reason(b) == Due(side, log)[k - 1].reasonID
  {
    var c', due := React(c, pair, side, latest, log, Reload(rows, wasted)), Due(side, log);
    ActsConcat(c, pair, side, latest, log, [Reload(rows, wasted)], Stream(|log|, k, k));
    OneAct(c, pair, side, latest, log, Reload(rows, wasted));
    assert log[0..] == log && [] + due[..k] == due[..k] && due[..k][..k] == due[..k];
    StreamSettles(c', pair, side, latest, log, k, k);
    SettleAdds(c'.bank, due[..k], 0);
    FirstOfDue(side, log, k);
    LastReason(c'.bank, due[..k]);
  }

  lemma OneAct(c: Coin, pair: seq<string>, side: int, latest: int, log: seq<Line>, a: Act)
    ensures Acts(c, pair, side, latest, log, [a]) == React(c, pair, side, latest, log, a)
  {
    assert [a][..0] == [];
  }

  lemma LastReason(b: Bank, cs: seq<BalanceChange>)
    requires cs != [] && Appliable(cs, |cs|) && Last(cs).reasonTable == OmeLogs
    ensures Reason(Drive.Settle(b, cs)) == Last(cs).reasonID
  {
    ChangeTakes(Drive.Settle(b, cs[..|cs| - 1]), Last(cs));
  }

  lemma RepeatsShow(b: Bank, side: int, log: seq<Line>, before: seq<BalanceChange>, k: nat)
    requires 0 < k <= |Due(side, log)| && forall i :: 0 <= i < |log| ==> log[i].logID == i + 1
    requires Applied(b.log) == Transfers(before) + Transfers(Due(side, log)[..k])
    requires Reason(b) == Due(side, log)[k - 1].reasonID
    ensures Exact(b, side, log) <==> before == []
  {
    var again := Due(side, log)[..k];
    FirstOfDue(side, log, k);
    TransfersConcat(before, again);
    TransfersConcat(again, []);
    assert |Applied(b.log)| == |before| + |again|;
    if before == [] { assert [] + Transfers(again) == Transfers(again); }
  }

  /** The run goes on with a restart of a bank, which is sent all changes from the first one on. */
  function RestartedRun(o: Opening, events: seq<Exchange.Event>, side: int, rows: set<int>, wasted: nat, k: nat): World
  {
    Runs(Begin(o), events + OnSide(side, Again(Runs(Begin(o), events), side, rows, wasted, k)))
  }

  lemma RestartRuns(o: Opening, events: seq<Exchange.Event>, side: int, rows: set<int>, wasted: nat, k: nat)
    requires IsSide(side)
    ensures var w := Runs(Begin(o), events);
            RestartedRun(o, events, side, rows, wasted, k)
            == Put(w, side, Acts(At(w, side), w.pair, side, Latest(w.engine, side), w.log,
                                 Again(w, side, rows, wasted, k)))
  {
    var w := Runs(Begin(o), events);
    StreamIsQuietAfterGreeting(|w.log|, k, k);
    RunsConcat(Begin(o), events, OnSide(side, Again(w, side, rows, wasted, k)));
    RunsActs(w, side, Again(w, side, rows, wasted, k));
  }

  lemma LogIsExact(o: Opening, events: seq<Exchange.Event>, side: int)
    requires Trading(o, events) && Timely(o, events) && IsSide(side)
    ensures var w := Runs(Begin(o), events);
            Exact(At(w, side).bank, side, w.log) && forall i :: 0 <= i < |w.log| ==> w.log[i].logID == i + 1
  {
    FlowHolds(o, events);
    SettledHolds(o, events, side);
  }

  /** Wherever a timely run stops, a bank that restarts, whatever it loads, is sent all changes of the engine's log from
      the first one on. Once it has applied some of them, its log says that each change up to its reason ID is applied
      once if and only if none was applied before the restart. */
  lemma RestartsRepeatChanges(o: Opening, events: seq<Exchange.Event>, side: int, rows: set<int>, wasted: nat, k: nat)
    requires Trading(o, events) && Timely(o, events) && IsSide(side)
    requires var due := Due(side, Runs(Begin(o), events).log); 0 < k <= |due| && Appliable(due, k)
    ensures var w, w' := Runs(Begin(o), events), RestartedRun(o, events, side, rows, wasted, k);
            var reason := Reason(At(w, side).bank);
            && w'.log == w.log && 0 <= reason <= |w.log|
            && (Exact(At(w', side).bank, side, w'.log) <==> Due(side, w.log[..reason]) == [])
  {
    var w := Runs(Begin(o), events);
    var c := At(w, side);
    LogIsExact(o, events, side);
    RestartRuns(o, events, side, rows, wasted, k);
    RestartedStreams(c, w.pair, side, Latest(w.engine, side), w.log, rows, wasted, k);
    RepeatsShow(At(RestartedRun(o, events, side, rows, wasted, k), side).bank, side, w.log,
                Due(side, w.log[..Reason(c.bank)]), k);
  }
}
