/** Frozen funds cover what is owed, over every interleaving. */
module Cover {
  import opened Fixed
  import opened Matching
  import opened Ledger
  import opened Exchange
  import opened Solvency
  import opened Funds
  import opened Settlement
  import Accounting

  // ---- what the engine took is what the banks' tickets promised ----

  lemma {:induction false} CommittedIsPromised(log: seq<Line>, side: int, owner: int)
    ensures Accounting.SumLog(log, Committed(side, owner)) == Promised(true, Intakes(log, side), owner)
  {
    if log != [] {
      var before, l := log[..|log| - 1], Last(log);
      CommittedIsPromised(before, side, owner);
      assert log == before + [l];
      IntakesGrow(before, l, side);
      var taken := Intakes(before, side);
      if l.OrderLine? && l.side == side {
        var i := IntakeOf(l);
        assert (taken + [i])[..|taken|] == taken;
      } else {
        assert taken + [] == taken;
      }
    }
  }

  lemma {:induction false} OrdersAreTaken(log: seq<Line>, side: int, k: int)
    requires 0 <= k < |log| && log[k].OrderLine? && log[k].side == side
    ensures var l := log[k];
            IntakeOf(l) in Intakes(log, side)
  {
    if k < |log| - 1 { OrdersAreTaken(log[..|log| - 1], side, k); }
  }

  lemma {:induction false} OffersComeFromTickets(ts: seq<TicketLog>, i: Intake)
    requires i in Offers(ts)
    ensures exists k :: 0 <= k < |ts| && i == Offer(ts[k])
  {
    if i != Offer(Last(ts)) {
      OffersComeFromTickets(ts[..|ts| - 1], i);
      var k :| 0 <= k < |ts[..|ts| - 1]| && i == Offer(ts[..|ts| - 1][k]);
      assert ts[k] == ts[..|ts| - 1][k];
    }
  }

  /** An order of the log was offered by a ticket of its bank. */
  lemma OrderWasIssued(log: seq<Line>, side: int, issued: seq<TicketLog>, latest: int, k: int) returns (j: int)
    requires 0 <= latest <= |issued| && Intakes(log, side) == Offers(issued[..latest])
    requires 0 <= k < |log| && log[k].OrderLine? && log[k].side == side
    ensures 0 <= j < latest && IntakeOf(log[k]) == Offer(issued[j])
  {
    var l := log[k];
    OrdersAreTaken(log, side, k);
    var i := IntakeOf(l);
    OffersComeFromTickets(issued[..latest], i);
    j :| 0 <= j < latest && i == Offer(issued[..latest][j]);
    assert issued[..latest][j] == issued[j];
  }

  lemma {:induction false} PromisedSplits(all: bool, a: seq<TicketLog>, b: seq<TicketLog>, owner: int)
    ensures Promised(all, Offers(a + b), owner) == Promised(all, Offers(a), owner) + Promised(all, Offers(b), owner)
  {
    if b == [] {
      assert a + b == a;
    } else {
      var b', t := b[..|b| - 1], Last(b);
      PromisedSplits(all, a, b', owner);
      assert a + b == (a + b') + [t] && b == b' + [t];
      OffersExtend(all, a + b', t, owner);
      OffersExtend(all, b', t, owner);
    }
  }

  /** The tickets that count offer quantities that are not negative. */
  ghost predicate Fair(all: bool, ts: seq<TicketLog>) {
    forall i :: 0 <= i < |ts| && Counts(all, ts[i].side, ts[i].owner) ==> 0 <= Offer(ts[i]).quantity
  }

  lemma {:induction false} PromisesAreNonNegative(all: bool, ts: seq<TicketLog>, owner: int)
    requires Fair(all, ts)
    ensures 0 <= Promised(all, Offers(ts), owner)
  {
    if ts != [] {
      var before, n := ts[..|ts| - 1], |ts| - 1;
      assert forall i :: 0 <= i < n ==> before[i] == ts[i];
      PromisesAreNonNegative(all, before, owner);
      assert ts == before + [ts[n]];
      OffersExtend(all, before, ts[n], owner);
    }
  }

  // Where every one of a user's tickets counts, leaving the others out makes no difference.
  lemma {:induction false} PromisesAgree(ts: seq<TicketLog>, side: int, owner: int)
    requires Counts(false, side, owner) && forall i :: 0 <= i < |ts| ==> ts[i].side == side
    ensures Promised(false, Offers(ts), owner) == Promised(true, Offers(ts), owner)
  {
    if ts != [] {
      var before, n := ts[..|ts| - 1], |ts| - 1;
      assert forall i :: 0 <= i < n ==> before[i] == ts[i];
      PromisesAgree(before, side, owner);
      assert ts == before + [ts[n]];
      OffersExtend(false, before, ts[n], owner);
      OffersExtend(true, before, ts[n], owner);
    }
  }

  lemma {:induction false} LegalSides(log: seq<Line>, k: int)
    requires Legal(START, log) && 0 <= k < |log| && log[k].OrderLine?
    ensures IsSide(log[k].side)
  {
    if k < |log| - 1 { LegalSides(log[..|log| - 1], k); }
  }

  lemma OrderIsFair(all: bool, w: World, k: int)
    requires Flows(w) && BackedAt(all, w, ASK) && BackedAt(all, w, BID)
    requires 0 <= k < |w.log| && w.log[k].OrderLine? && Counts(all, w.log[k].side, w.log[k].owner)
    ensures 0 <= w.log[k].quantity
  {
    LegalSides(w.log, k);
    var side := w.log[k].side;
    var j := OrderWasIssued(w.log, side, Issued(At(w, side).bank), Latest(w.engine, side), k);
  }

  ghost predicate FairLog(all: bool, log: seq<Line>) {
    forall k :: 0 <= k < |log| && log[k].OrderLine? && Counts(all, log[k].side, log[k].owner) ==> 0 <= log[k].quantity
  }

  lemma LogIsFair(all: bool, w: World)
    requires Flows(w) && BackedAt(all, w, ASK) && BackedAt(all, w, BID)
    ensures FairLog(all, w.log)
  {
    forall k | 0 <= k < |w.log| && w.log[k].OrderLine? && Counts(all, w.log[k].side, w.log[k].owner)
      ensures 0 <= w.log[k].quantity
    {
      OrderIsFair(all, w, k);
    }
  }

  /** The orders of a log are sane as far as they count, up to a match that no bank can settle. */
  lemma LogIsSane(all: bool, log: seq<Line>, n: int)
    requires FairLog(all, log) && 0 <= n <= |log| && (all || Settleable(log, n))
    ensures Sane(all, log[..n])
  {}

  // ---- what has been debited ----

  lemma LogIsForward(all: bool, w: World, n: int)
    requires Flows(w) && BackedAt(all, w, ASK) && BackedAt(all, w, BID) && 0 <= n <= |w.log|
    requires all || Settleable(w.log, n)
    ensures Legal(START, w.log[..n]) && Forward(w.log[..n])
  {
    LogIsFair(all, w);
    LogIsSane(all, w.log, n);
    Accounting.LegalPrefix(START, w.log, n);
    SaneLogsAreForward(all, w.log[..n]);
  }

  lemma {:induction false} CommitmentsGrow(log: seq<Line>, n: int, side: int, owner: int)
    requires 0 <= n <= |log|
    requires forall k :: 0 <= k < |log| && log[k].OrderLine? && side == ASK == log[k].side ==> 0 <= log[k].quantity
    ensures Accounting.SumLog(log[..n], Committed(side, owner)) <= Accounting.SumLog(log, Committed(side, owner))
    decreases |log|
  {
    if n == |log| {
      assert log[..n] == log;
    } else {
      var before, m := log[..|log| - 1], |log| - 1;
      assert forall k :: 0 <= k < m ==> before[k] == log[k];
      CommitmentsGrow(before, n, side, owner);
      assert before[..n] == log[..n] && Last(log) == log[m];
    }
  }

  // The debits of the matches up to a place stay within all that the user's orders committed.
  lemma DebitsAreCommitted(w: World, n: int, side: int, owner: int)
    requires Flows(w) && BackedAt(false, w, ASK) && BackedAt(false, w, BID) && 0 <= n <= |w.log|
    requires Settleable(w.log, n) && IsSide(side)
    ensures Debited(side, w.log[..n], owner) <= Promised(true, Intakes(w.log, side), owner)
  {
    var done := w.log[..n];
    LogIsForward(false, w, n);
    LogIsFair(false, w);
    LogIsSane(false, w.log, n);
    SaneBooks(false, done);
    OrdersCoverDebits(done, side, owner);
    ReservesAreNonNegative(BookOf(ApplyLines(START, done), side), side, owner);
    CommitmentsGrow(w.log, n, side, owner);
    CommittedIsPromised(w.log, side, owner);
  }

  lemma {:induction false} NoBiderNoDebit(log: seq<Line>, owner: int)
    requires Settleable(log, |log|) && owner <= 0
    ensures Debited(BID, log, owner) == 0
  {
    if log != [] {
      var before, n := log[..|log| - 1], |log| - 1;
      assert forall i :: 0 <= i < n ==> before[i] == log[i];
      NoBiderNoDebit(before, owner);
      assert log == before + [log[n]];
      SumsGrow(BID, before, log[n], owner);
    }
  }

  lemma CountedDebits(issued: seq<TicketLog>, latest: int, debited: int, side: int, owner: int)
    requires Fair(false, issued) && 0 <= latest <= |issued| && Counts(false, side, owner)
    requires forall i :: 0 <= i < |issued| ==> issued[i].side == side
    requires debited <= Promised(true, Offers(issued[..latest]), owner)
    ensures debited <= Promised(false, Offers(issued), owner)
  {
    assert issued == issued[..latest] + issued[latest..];
    PromisedSplits(false, issued[..latest], issued[latest..], owner);
    assert forall i :: 0 <= i < |issued[latest..]| ==> issued[latest..][i] == issued[latest + i];
    PromisesAreNonNegative(false, issued[latest..], owner);
    PromisesAgree(issued[..latest], side, owner);
  }

  lemma DebitsStayWithin(w: World, side: int, owner: int, r: int)
    requires Flows(w) && BackedAt(false, w, ASK) && BackedAt(false, w, BID) && IsSide(side)
    requires 0 <= r <= |w.log| && Settleable(w.log, r)
    ensures Debited(side, w.log[..r], owner) <= Promised(false, Offers(Issued(At(w, side).bank)), owner)
  {
    var issued, debited := Issued(At(w, side).bank), Debited(side, w.log[..r], owner);
    if Counts(false, side, owner) {
      DebitsAreCommitted(w, r, side, owner);
      CountedDebits(issued, Latest(w.engine, side), debited, side, owner);
    } else {
      NoBiderNoDebit(w.log[..r], owner);
      PromisesAreNonNegative(false, issued, owner);
    }
  }

  // What the applied matches debited stays within what the user's tickets backed.
  lemma DebitsAreBacked(w: World, side: int, owner: int, r: int)
    requires Flows(w) && BackedAt(false, w, ASK) && BackedAt(false, w, BID) && IsSide(side)
    requires 0 <= r <= |w.log| && Settleable(w.log, r)
    ensures IntToDecimal(Debited(side, w.log[..r], owner)) <= Frozen(At(w, side).bank.log, owner)
  {
    var b := At(w, side).bank;
    DebitsStayWithin(w, side, owner, r);
    assert BackedFor(false, b, Issued(b), owner);
    IntToDecimalAdds(Debited(side, w.log[..r], owner), Promised(false, Offers(Issued(b)), owner));
  }

  /** No user is ever overdrawn: if every request is safe and every greeting answered in time, no frozen balance falls
      below the one loaded, over every interleaving of requests, tickets, matches, changes, disconnections, crashes of
      the engine and failures of the banks. */
  lemma NobodyIsOverdrawn(o: Opening, events: seq<Exchange.Event>, side: int, owner: int)
    requires Trading(o, events) && Timely(o, events) && Paying(false, events) && IsSide(side)
    ensures Get(Loaded(o, side), owner).freeze <= Get(At(Runs(Begin(o), events), side).bank.assets, owner).freeze
  {
    var w := Runs(Begin(o), events);
    FlowHolds(o, events);
    BackedHolds(false, o, events, ASK);
    BackedHolds(false, o, events, BID);
    SettledHolds(o, events, side);
    DebitsAreBacked(w, side, owner, Reason(At(w, side).bank));
    BalancesFollowTheMatches(o, events, side, owner);
  }

  // ---- what is still owed ----

  /** A user's debts in one coin: match debits the bank has not applied, orders at rest at their limit, and tickets the
      engine has not taken. */
  function Owed(w: World, side: int, owner: int): int
    requires 0 <= Reason(At(w, side).bank) <= |w.log|
    requires 0 <= Latest(w.engine, side) <= |Issued(At(w, side).bank)|
  {
    var b := At(w, side).bank;
    Debited(side, w.log[Reason(b)..], owner)
    + Accounting.Sum(BookOf(w.engine, side), Reserve(side, owner))
    + Promised(true, Offers(Issued(b)[Latest(w.engine, side)..]), owner)
  }

  lemma DebitsSplit(log: seq<Line>, r: int, side: int, owner: int)
    requires 0 <= r <= |log|
    ensures Debited(side, log, owner) == Debited(side, log[..r], owner) + Debited(side, log[r..], owner)
  {
    Accounting.SumLogConcat(log[..r], log[r..], Debit(side, owner));
    assert log == log[..r] + log[r..];
  }

  lemma LogCoversDebts(s: State, log: seq<Line>, r: int, side: int, owner: int)
    requires Engine(s, log) && Forward(log) && IsSide(side) && 0 <= r <= |log|
    ensures Debited(side, log[..r], owner) + Debited(side, log[r..], owner)
            + Accounting.Sum(BookOf(s, side), Reserve(side, owner)) <= Promised(true, Intakes(log, side), owner)
  {
    OrdersCoverDebits(log, side, owner);
    CommittedIsPromised(log, side, owner);
    DebitsSplit(log, r, side, owner);
  }

  // All debits, the orders at rest and the tickets not taken stay within what the tickets promised.
  lemma DebtsArePromised(s: State, log: seq<Line>, issued: seq<TicketLog>, latest: int, r: int, side: int, owner: int)
    requires Engine(s, log) && Forward(log) && IsSide(side) && 0 <= r <= |log| && 0 <= latest <= |issued|
    requires Intakes(log, side) == Offers(issued[..latest])
    ensures Debited(side, log[..r], owner) + Debited(side, log[r..], owner)
            + Accounting.Sum(BookOf(s, side), Reserve(side, owner)) + Promised(true, Offers(issued[latest..]), owner)
            <= Promised(true, Offers(issued), owner)
  {
    LogCoversDebts(s, log, r, side, owner);
    PromisedSplits(true, issued[..latest], issued[latest..], owner);
    assert issued == issued[..latest] + issued[latest..];
  }

  lemma BackingCovers(b: Bank, issued: seq<TicketLog>, owner: int, d: int, owed: int)
    requires BackedFor(true, b, issued, owner) && d + owed <= Promised(true, Offers(issued), owner)
    ensures IntToDecimal(owed) <= Frozen(b.log, owner) - IntToDecimal(d)
  {
    IntToDecimalAdds(d, owed);
    IntToDecimalAdds(d + owed, Promised(true, Offers(issued), owner));
  }

  lemma FrozenCoversDebits(w: World, side: int, owner: int)
    requires EngineOk(w) && CoinOk(w, side) && BackedAt(true, w, side) && Forward(w.log) && IsSide(side)
    requires 0 <= Reason(At(w, side).bank) <= |w.log|
    ensures IntToDecimal(Owed(w, side, owner))
            <= Frozen(At(w, side).bank.log, owner)
               - IntToDecimal(Debited(side, w.log[..Reason(At(w, side).bank)], owner))
  {
    var b, latest := At(w, side).bank, Latest(w.engine, side);
    var issued := Issued(b);
    DebtsArePromised(w.engine, w.log, issued, latest, Reason(b), side, owner);
    assert BackedFor(true, b, issued, owner);
    BackingCovers(b, issued, owner, Debited(side, w.log[..Reason(b)], owner), Owed(w, side, owner));
  }

  /** Frozen-funds solvency: if every request is covered, what a user has frozen, beyond what was frozen when the bank
      began, covers all the user still owes. */
  lemma FrozenFundsCoverDebts(o: Opening, events: seq<Exchange.Event>, side: int, owner: int)
    requires Trading(o, events) && Timely(o, events) && Paying(true, events) && IsSide(side)
    ensures var w := Runs(Begin(o), events);
            var b := At(w, side).bank;
            && 0 <= Reason(b) <= |w.log| && 0 <= Latest(w.engine, side) <= |Issued(b)|
            && Get(Loaded(o, side), owner).freeze + IntToDecimal(Owed(w, side, owner)) <= Get(b.assets, owner).freeze
            && Get(Loaded(o, side), owner).freeze <= Get(b.assets, owner).freeze
  {
    var w := Runs(Begin(o), events);
    FlowHolds(o, events);
    BackedHolds(true, o, events, ASK);
    BackedHolds(true, o, events, BID);
    LogIsForward(true, w, |w.log|);
    assert w.log[..|w.log|] == w.log;
    SettledHolds(o, events, side);
    FrozenCoversDebits(w, side, owner);
    BalancesFollowTheMatches(o, events, side, owner);
    CoveredRunsAreSafe(events);
    NobodyIsOverdrawn(o, events, side, owner);
  }

  lemma CoveredRunsAreSafe(events: seq<Exchange.Event>)
    requires Paying(true, events)
    ensures Paying(false, events)
  {
    forall i | 0 <= i < |events| && events[i].On? && events[i].act.Request? && IsSide(events[i].act.req.side)
      ensures Pays(false, events[i].act.req)
    {
      CoveredIsSafe(events[i].act.req);
    }
  }
}
