/** Building runs of the exchange piece by piece. */
module Drive {
  import opened Matching
  import opened Ledger
  import opened Streams
  import opened Exchange
  import opened Funds
  import opened Grpc

  // ---- runs in pieces ----

  lemma {:induction false} RunsConcat(w: World, a: seq<Exchange.Event>, b: seq<Exchange.Event>)
    ensures Runs(w, a + b) == Runs(Runs(w, a), b)
  {
    if b == [] {
      assert a + b == a;
    } else {
      RunsConcat(w, a, b[..|b| - 1]);
      assert (a + b)[..|a + b| - 1] == a + b[..|b| - 1];
    }
  }

  lemma RunsOneMore(w: World, events: seq<Exchange.Event>, e: Exchange.Event)
    ensures Runs(w, events + [e]) == Step(Runs(w, events), e)
  {
    assert (events + [e])[..|events|] == events;
  }

  lemma RunsOne(w: World, e: Exchange.Event)
    ensures Runs(w, [e]) == Step(w, e)
  {
    assert [] + [e] == [e];
    RunsOneMore(w, [], e);
  }

  /** No greeting and no restart of a bank. */
  ghost predicate Quiet(events: seq<Exchange.Event>) {
    forall i :: 0 <= i < |events| ==> !(events[i].On? && (events[i].act.Greet? || events[i].act.Reload?))
  }

  lemma {:induction false} QuietEventsAreTimely(o: Opening, a: seq<Exchange.Event>, b: seq<Exchange.Event>)
    requires Timely(o, a) && Quiet(b)
    ensures Timely(o, a + b)
  {
    if b == [] {
      assert a + b == a;
    } else {
      QuietEventsAreTimely(o, a, b[..|b| - 1]);
      assert (a + b)[..|a + b| - 1] == a + b[..|b| - 1] && Last(a + b) == b[|b| - 1];
    }
  }

  lemma MoreTrading(o: Opening, a: seq<Exchange.Event>, b: seq<Exchange.Event>)
    requires Trading(o, a) && forall i :: 0 <= i < |b| ==> Listed(o.pair, b[i])
    ensures Trading(o, a + b)
  {
    forall i | 0 <= i < |a + b| ensures Listed(o.pair, (a + b)[i]) {
      if i >= |a| { assert (a + b)[i] == b[i - |a|]; }
    }
  }

  lemma GreetingIsTimely(o: Opening, a: seq<Exchange.Event>, side: int)
    requires Timely(o, a) && IsSide(side) && At(Runs(Begin(o), a), side).queue == []
    ensures Timely(o, a + [On(side, Greet)])
  {
    assert (a + [On(side, Greet)])[..|a|] == a;
  }

  // ---- the acts of one coin ----

  function Acts(c: Coin, pair: seq<string>, side: int, latest: int, log: seq<Line>, acts: seq<Act>): Coin {
    if acts == [] then c
    else React(Acts(c, pair, side, latest, log, acts[..|acts| - 1]), pair, side, latest, log, Last(acts))
  }

  function OnSide(side: int, acts: seq<Act>): seq<Exchange.Event> {
    if acts == [] then [] else OnSide(side, acts[..|acts| - 1]) + [On(side, Last(acts))]
  }

  function Times(n: nat, a: Act): seq<Act> {
    if n == 0 then [] else Times(n - 1, a) + [a]
  }

  lemma {:induction false} ActsConcat(c: Coin, pair: seq<string>, side: int, latest: int, log: seq<Line>, a: seq<Act>,
                                      b: seq<Act>)
    ensures Acts(c, pair, side, latest, log, a + b)
            == Acts(Acts(c, pair, side, latest, log, a), pair, side, latest, log, b)
  {
    if b == [] {
      assert a + b == a;
    } else {
      ActsConcat(c, pair, side, latest, log, a, b[..|b| - 1]);
      assert (a + b)[..|a + b| - 1] == a + b[..|b| - 1];
    }
  }

  lemma ActsOnce(c: Coin, pair: seq<string>, side: int, latest: int, log: seq<Line>, n: nat, a: Act)
    ensures Acts(c, pair, side, latest, log, Times(n + 1, a))
            == React(Acts(c, pair, side, latest, log, Times(n, a)), pair, side, latest, log, a)
  {
    assert Times(n + 1, a)[..|Times(n, a)|] == Times(n, a);
  }

  // Doing the same again and again: `f` says what has become of the coin after each time.
  lemma {:induction false} ActsTimes(c: Coin, pair: seq<string>, side: int, latest: int, log: seq<Line>, n: nat, a: Act,
                                     f: nat -> Coin)
    requires f(0) == c && forall i: nat :: i < n ==> React(f(i), pair, side, latest, log, a) == f(i + 1)
    ensures Acts(c, pair, side, latest, log, Times(n, a)) == f(n)
  {
    if n > 0 {
      ActsTimes(c, pair, side, latest, log, n - 1, a, f);
      ActsOnce(c, pair, side, latest, log, n - 1, a);
    }
  }

  // Acts without a receipt touch their own coin only.
  lemma {:induction false} RunsActs(w: World, side: int, acts: seq<Act>)
    requires IsSide(side) && forall i :: 0 <= i < |acts| ==> !acts[i].Receive?
    ensures Runs(w, OnSide(side, acts))
            == Put(w, side, Acts(At(w, side), w.pair, side, Latest(w.engine, side), w.log, acts))
  {
    if acts != [] {
      var before, n := acts[..|acts| - 1], |acts| - 1;
      assert forall i :: 0 <= i < n ==> before[i] == acts[i];
      RunsActs(w, side, before);
      assert Last(acts) == acts[n];
      RunsOneMore(w, OnSide(side, before), On(side, acts[n]));
    }
  }

  lemma {:induction false} TimesIs(n: nat, a: Act)
    ensures |Times(n, a)| == n && forall i :: 0 <= i < n ==> Times(n, a)[i] == a
  {
    if n > 0 { TimesIs(n - 1, a); }
  }

  // ---- a change stream, from greeting to ledger ----

  lemma PushOneMore(c: Coin, pair: seq<string>, side: int, latest: int, log: seq<Line>, reason: int, n: nat)
    requires n < |log| && PushedUp(side, reason, log, n).connected
    ensures React(c.(up := PushedUp(side, reason, log, n)), pair, side, latest, log, Push)
            == c.(up := PushedUp(side, reason, log, n + 1))
    ensures PushedUp(side, reason, log, n + 1).connected
  {}

  function PushedCoin(c: Coin, side: int, log: seq<Line>, reason: int): nat -> Coin {
    (i: nat) => if i <= |log| then c.(up := PushedUp(side, reason, log, i)) else c
  }

  lemma {:induction false} StaysConnected(side: int, log: seq<Line>, reason: int, n: nat)
    requires n <= |log|
    ensures PushedUp(side, reason, log, n).connected
  {
    if n > 0 { StaysConnected(side, log, reason, n - 1); }
  }

  lemma PushAll(c: Coin, pair: seq<string>, side: int, latest: int, log: seq<Line>, reason: int)
    requires c.up == Handshake(reason)
    ensures Acts(c, pair, side, latest, log, Times(|log|, Push)) == c.(up := PushedUp(side, reason, log, |log|))
    ensures PushedUp(side, reason, log, |log|).connected
  {
    var f := PushedCoin(c, side, log, reason);
    forall i: nat | i < |log| ensures React(f(i), pair, side, latest, log, Push) == f(i + 1) {
      StaysConnected(side, log, reason, i);
      PushOneMore(c, pair, side, latest, log, reason, i);
    }
    ActsTimes(c, pair, side, latest, log, |log|, Push, f);
    StaysConnected(side, log, reason, |log|);
  }

  function DeliveredAll(c: Coin, n: nat): Coin
    requires n <= |c.up.inFlight|
  {
    c.(queue := c.queue + c.up.inFlight[..n],
       up := c.up.(inFlight := c.up.inFlight[n..],
                   received := if n == 0 then c.up.received else c.up.inFlight[n - 1].reasonID))
  }

  lemma DeliverOneMore(c: Coin, pair: seq<string>, side: int, latest: int, log: seq<Line>, n: nat)
    requires n < |c.up.inFlight| && c.status == Ok && c.up.connected
    ensures React(DeliveredAll(c, n), pair, side, latest, log, Deliver) == DeliveredAll(c, n + 1)
  {
    var f := c.up.inFlight;
    assert f[n..][0] == f[n] && f[n..][1..] == f[n + 1..];
    assert (c.queue + f[..n]) + [f[n]] == c.queue + f[..n + 1];
  }

  lemma DeliverAll(c: Coin, pair: seq<string>, side: int, latest: int, log: seq<Line>, n: nat)
    requires n <= |c.up.inFlight| && c.status == Ok && c.up.connected
    ensures Acts(c, pair, side, latest, log, Times(n, Deliver)) == DeliveredAll(c, n)
  {
    var f := (i: nat) => if i <= |c.up.inFlight| then DeliveredAll(c, i) else c;
    assert c.queue + c.up.inFlight[..0] == c.queue && c.up.inFlight[0..] == c.up.inFlight;
    forall i: nat | i < n ensures React(f(i), pair, side, latest, log, Deliver) == f(i + 1) {
      DeliverOneMore(c, pair, side, latest, log, i);
    }
    ActsTimes(c, pair, side, latest, log, n, Deliver, f);
  }

  /** The bank after a sequence of changes. */
  function Settle(b: Bank, cs: seq<BalanceChange>): Bank {
    if cs == [] then b else HandleBalanceChange(Settle(b, cs[..|cs| - 1]), Last(cs), true).bank
  }

  ghost predicate Appliable(cs: seq<BalanceChange>, n: int) {
    forall i :: 0 <= i < n && i < |cs| ==> cs[i].owner2 > 0
  }

  function AppliedSome(c: Coin, n: nat): Coin
    requires n <= |c.queue|
  {
    c.(bank := Settle(c.bank, c.queue[..n]), queue := c.queue[n..])
  }

  lemma SettleOneMore(b: Bank, cs: seq<BalanceChange>, n: nat)
    requires n < |cs|
    ensures Settle(b, cs[..n + 1]) == HandleBalanceChange(Settle(b, cs[..n]), cs[n], true).bank
  {
    assert cs[..n + 1][..n] == cs[..n] && Last(cs[..n + 1]) == cs[n];
  }

  lemma ApplyOneMore(c: Coin, pair: seq<string>, side: int, latest: int, log: seq<Line>, n: nat)
    requires n < |c.queue| && c.status == Ok && c.queue[n].owner2 > 0
    ensures React(AppliedSome(c, n), pair, side, latest, log, Apply) == AppliedSome(c, n + 1)
  {
    assert c.queue[n..][0] == c.queue[n] && c.queue[n..][1..] == c.queue[n + 1..];
    SettleOneMore(c.bank, c.queue, n);
  }

  lemma ApplyAll(c: Coin, pair: seq<string>, side: int, latest: int, log: seq<Line>, n: nat)
    requires n <= |c.queue| && c.status == Ok && Appliable(c.queue, n)
    ensures Acts(c, pair, side, latest, log, Times(n, Apply)) == AppliedSome(c, n)
  {
    var f := (i: nat) => if i <= |c.queue| then AppliedSome(c, i) else c;
    assert c.queue[0..] == c.queue && c.queue[..0] == [];
    forall i: nat | i < n ensures React(f(i), pair, side, latest, log, Apply) == f(i + 1) {
      ApplyOneMore(c, pair, side, latest, log, i);
    }
    ActsTimes(c, pair, side, latest, log, n, Apply, f);
  }

  lemma OneChangeAdds(b: Bank, d: BalanceChange, b': Bank, owner: int)
    requires d.owner2 > 0 && b' == HandleBalanceChange(b, d, true).bank
    ensures Get(b'.assets, owner).freeze == Get(b.assets, owner).freeze + FreezePart(TransferOf(d), owner)
    ensures Applied(b'.log) == Applied(b.log) + [TransferOf(d)]
  {
    ChangeTakes(b, d);
    TransferGets(b.assets, d, owner);
    ChangeIsHeld(b.log, Last(b'.log), TransferOf(d), owner);
  }

  /** Changes add up, in balances and in the log. */
  lemma {:induction false} SettleAdds(b: Bank, cs: seq<BalanceChange>, owner: int)
    requires Appliable(cs, |cs|)
    ensures Get(Settle(b, cs).assets, owner).freeze == Get(b.assets, owner).freeze + NetFreeze(Transfers(cs), owner)
    ensures Applied(Settle(b, cs).log) == Applied(b.log) + Transfers(cs)
  {
    if cs == [] {
      assert Applied(b.log) + [] == Applied(b.log);
    } else {
      var before, n := cs[..|cs| - 1], |cs| - 1;
      assert forall i :: 0 <= i < n ==> before[i] == cs[i];
      SettleAdds(b, before, owner);
      OneChangeAdds(Settle(b, before), cs[n], Settle(b, cs), owner);
      TransfersGrow(cs, owner);
      TransfersAssociate(Applied(b.log), Transfers(before), TransferOf(cs[n]));
    }
  }

  lemma TransfersGrow(cs: seq<BalanceChange>, owner: int)
    requires cs != []
    ensures var before := Transfers(cs[..|cs| - 1]);
            && Transfers(cs) == before + [TransferOf(Last(cs))]
            && NetFreeze(Transfers(cs), owner) == NetFreeze(before, owner) + FreezePart(TransferOf(Last(cs)), owner)
  {
    NetExtends(Transfers(cs[..|cs| - 1]), TransferOf(Last(cs)), owner);
  }

  lemma TransfersAssociate(a: seq<Transfer>, b: seq<Transfer>, t: Transfer)
    ensures (a + b) + [t] == a + (b + [t])
  {}

  /** Push `pushes` lines, deliver `n` changes and apply `k`. */
  function Flow(pushes: nat, n: nat, k: nat): seq<Act> {
    Times(pushes, Push) + Times(n, Deliver) + Times(k, Apply)
  }

  /** Greet, and let the changes flow. */
  function Stream(pushes: nat, n: nat, k: nat): seq<Act> {
    [Greet] + Flow(pushes, n, k)
  }

  lemma FlowIsQuiet(pushes: nat, n: nat, k: nat)
    ensures var acts := Flow(pushes, n, k);
            forall i :: 0 <= i < |acts| ==>
              !acts[i].Receive? && !acts[i].Request? && !acts[i].Greet? && !acts[i].Reload?
  {
    TimesIs(pushes, Push);
    TimesIs(n, Deliver);
    TimesIs(k, Apply);
  }

  lemma StreamIsQuietAfterGreeting(pushes: nat, n: nat, k: nat)
    ensures var acts := Stream(pushes, n, k);
            && (forall i :: 0 <= i < |acts| ==> !acts[i].Receive? && !acts[i].Request? && !acts[i].Reload?)
            && acts[0] == Greet && forall i :: 1 <= i < |acts| ==> !acts[i].Greet?
  {
    FlowIsQuiet(pushes, n, k);
  }

  lemma {:induction false} OnSideIs(side: int, acts: seq<Act>)
    ensures |OnSide(side, acts)| == |acts|
    ensures forall i :: 0 <= i < |acts| ==> OnSide(side, acts)[i] == On(side, acts[i])
  {
    if acts != [] {
      var before, n := acts[..|acts| - 1], |acts| - 1;
      assert forall i :: 0 <= i < n ==> before[i] == acts[i];
      OnSideIs(side, before);
    }
  }

  lemma StreamIsAGreetingAndAFlow(side: int, pushes: nat, n: nat, k: nat)
    ensures OnSide(side, Stream(pushes, n, k)) == [On(side, Greet)] + OnSide(side, Flow(pushes, n, k))
  {
    OnSideIs(side, Stream(pushes, n, k));
    OnSideIs(side, Flow(pushes, n, k));
  }

  // The whole log is pushed; `n` of the changes due are delivered behind those queued before, and `k` are applied.
  lemma StreamSettles(c: Coin, pair: seq<string>, side: int, latest: int, log: seq<Line>, n: nat, k: nat)
    requires c.status == Ok && 0 <= Reason(c.bank) <= |log| && forall i :: 0 <= i < |log| ==> log[i].logID == i + 1
    requires n <= |Due(side, log[Reason(c.bank)..])|
    requires var q := c.queue + Due(side, log[Reason(c.bank)..])[..n]; k <= |q| && Appliable(q, k)
    ensures var q := c.queue + Due(side, log[Reason(c.bank)..])[..n];
            var c' := Acts(c, pair, side, latest, log, Stream(|log|, n, k));
            c'.bank == Settle(c.bank, q[..k]) && c'.queue == q[k..] && c'.status == Ok
  {
    var reason := Reason(c.bank);
    var greeted := c.(up := Handshake(reason));
    ActsConcat(c, pair, side, latest, log, [], [Greet]);
    assert [] + [Greet] == [Greet] && [Greet][..0] == [];
    assert Acts(c, pair, side, latest, log, [Greet]) == greeted;
    PushAll(greeted, pair, side, latest, log, reason);
    PushesAreDue(side, reason, log, |log|);
    assert log[reason..|log|] == log[reason..];
    var pushed := greeted.(up := PushedUp(side, reason, log, |log|));
    DeliverAll(pushed, pair, side, latest, log, n);
    ApplyAll(DeliveredAll(pushed, n), pair, side, latest, log, k);
    ActsConcat(c, pair, side, latest, log, [Greet], Flow(|log|, n, k));
    ActsConcat(greeted, pair, side, latest, log, Times(|log|, Push), Times(n, Deliver));
    ActsConcat(greeted, pair, side, latest, log, Times(|log|, Push) + Times(n, Deliver), Times(k, Apply));
  }
}
