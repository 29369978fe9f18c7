/** The process that copies a bank's log file into its tables, batch by batch, starting over when it fails. */
module BankWriter {
  import opened Ledger
  import opened BankTables
  import opened Matching
  import T = Tables

  datatype Delivery = Delivery(ok: bool, savedLogID: int, db: BankTables)

  /** One call of the handler. It counts the lines as saved even when the transaction fails. */
  function Deliver(savedLogID: int, db: BankTables, lines: seq<BankLine>, commits: bool): Delivery
    requires |lines| > 0
  {
    var b := BatchOf(savedLogID, lines);
    if Last(lines).logID <= savedLogID || |b.snaps| == 0 then Delivery(true, savedLogID, db)
    else Delivery(commits, T.Max(savedLogID, b.logID), if commits then Commit(db, b) else db)
  }

  class Worker {
    var savedLogID: int
    var db: BankTables

    /** Parse a batch of lines, skipping saved ones, and write it in one transaction that the database commits or
        not. */
    method ParseAndWriteLogs(ss: seq<BankLine>, commits: bool) returns (ok: bool)
      requires |ss| > 0
      modifies this
      ensures Delivery(ok, savedLogID, db) == Deliver(old(savedLogID), old(db), ss, commits)
    {
      if ss[|ss| - 1].logID <= savedLogID { return true; }
      var latestLogID, latestMsgSeq, newest := 0, 0, 0;
      var newTickets: seq<TicketRow> := [];
      var newSnaps: seq<Snap> := [];
      var updateBalances: map<int, Balance> := map[];
      var i := 0;
      assert ss[..0] == [];
      while i < |ss|
        invariant 0 <= i <= |ss| && savedLogID == old(savedLogID) && db == old(db)
        invariant BatchOf(savedLogID, ss[..i]) ==
                  Batch(updateBalances, newSnaps, newTickets, latestMsgSeq, latestLogID, newest)
      {
        var l := ss[i];
        BatchGrows(savedLogID, ss, i);
        if l.logID > savedLogID {
          if l.msgSeq > latestMsgSeq { latestMsgSeq := l.msgSeq; }
          var logIndex := 0;
          if |l.tickets| > 0 {
            logIndex := logIndex + 1;
            newTickets := newTickets + Tickets(l);
          }
          updateBalances, newSnaps := ReadLegs(l, logIndex, updateBalances, newSnaps);
          if |l.legs| > 0 { newest := l.logID; }
        }
        latestLogID := l.logID;
        i := i + 1;
      }
      assert ss[..i] == ss;
      if |newSnaps| == 0 { return true; }
      if commits { db := Commit(db, Batch(updateBalances, newSnaps, newTickets, latestMsgSeq, latestLogID, newest)); }
      if latestLogID > savedLogID { savedLogID := latestLogID; }
      ok := commits;
    }

    /** The snapshots of one line and the balances it leaves; the second leg has the last word. */
    method ReadLegs(l: BankLine, index: int, balances: map<int, Balance>, snaps: seq<Snap>)
      returns (balances': map<int, Balance>, snaps': seq<Snap>)
      requires index == if |l.tickets| == 0 then 0 else 1
      ensures balances' == balances + News(l) && snaps' == snaps + Snaps(l)
    {
      balances', snaps' := balances, snaps;
      if |l.legs| > 0 {
        var leg := l.legs[0];
        snaps' := snaps' + [Snap(l.logID, index + 1, leg)];
        balances' := balances'[leg.owner := Balance(leg.freeNew, leg.freezeNew)];
        if |l.legs| > 1 && l.legs[1].owner > 0 {
          var leg2 := l.legs[1];
          snaps' := snaps' + [Snap(l.logID, index + 2, leg2)];
          balances' := balances'[leg2.owner := Balance(leg2.freeNew, leg2.freezeNew)];
        }
      }
    }

    /** A round of the writer starts from the last snapshot's log ID, not from memory. */
    method LoadSavedLogID()
      modifies this`savedLogID
      ensures savedLogID == db.saved
    {
      savedLogID := db.saved;
    }
  }

  lemma BatchGrows(saved: int, ss: seq<BankLine>, i: int)
    requires 0 <= i < |ss|
    ensures var b, l := BatchOf(saved, ss[..i]), ss[i];
            BatchOf(saved, ss[..i + 1]) == if l.logID <= saved then b.(logID := l.logID) else Collect(b, l)
  {
    assert ss[..i + 1][..i] == ss[..i] && Last(ss[..i + 1]) == ss[i];
  }

  // ---- every life of the writer ----

  /** The growing file, the tables, the writer's memory of what is saved, and its place in the file. */
  datatype World = World(log: seq<BankLine>, db: BankTables, savedLogID: int, pos: nat)

  datatype Event =
    | Grow(l: BankLine)                 // the bank appends a line
    | Write(size: nat, commits: bool, inserted: set<seq<string>>)
                                        // the next `size` lines are handed to the writer; the database commits or not,
                                        // and if not it has inserted the tickets of some symbols before it fails
    | Restart                           // the writer begins again at the top of the file

  function Restarted(w: World): World {
    w.(savedLogID := w.db.saved, pos := 0)
  }

  function Delivered(w: World, size: nat, r: Delivery): World {
    var w' := w.(db := r.db, savedLogID := r.savedLogID, pos := w.pos + size);
    if r.ok then w' else Restarted(w')
  }

  function Handed(w: World, end: nat, commits: bool): Delivery
    requires w.pos < end <= |w.log|
  {
    Deliver(w.savedLogID, w.db, w.log[w.pos..end], commits)
  }

  function Step(w: World, e: Event): World {
    match e
    case Grow(l) => w.(log := w.log + [l])
    case Restart => Restarted(w)
    case Write(size, commits, _) =>
      if size == 0 || w.pos + size > |w.log| then w
      else Delivered(w, size, Handed(w, w.pos + size, commits))
  }

  function Live(w: World, events: seq<Event>): World {
    if events == [] then w else Step(Live(w, events[..|events| - 1]), Last(events))
  }

  function Beginning(start: BankTables): World {
    World([], start, 0, 0)
  }

  /** A log a bank may have written from tables without a line in them: numbered 1, 2, 3, ..., a leg in every line, and
      stream sequences that grow where there are any. */
  ghost predicate Wellformed(start: BankTables, log: seq<BankLine>) {
    && start.snaps == [] && start.saved == start.msgSeq == 0
    && (forall i :: 0 <= i < |log| ==> log[i].logID == i + 1 && |log[i].legs| > 0 && 0 <= log[i].msgSeq)
    && (forall i, j :: 0 <= i < j < |log| ==> log[j].msgSeq == 0 || log[i].msgSeq < log[j].msgSeq)
  }

  /** The tables are the lines up to the saved log ID, each written once and in order. */
  ghost predicate Faithful(start: BankTables, w: World) {
    && w.savedLogID == w.db.saved && w.pos <= w.savedLogID <= |w.log|
    && w.db == WriteLines(start, w.log[..w.savedLogID])
  }

  lemma {:induction false} WriteConcat(t: BankTables, a: seq<BankLine>, b: seq<BankLine>)
    ensures WriteLines(t, a + b) == WriteLines(WriteLines(t, a), b)
  {
    if b == [] {
      assert a + b == a;
    } else {
      WriteConcat(t, a, b[..|b| - 1]);
      assert (a + b)[..|a + b| - 1] == a + b[..|b| - 1];
    }
  }

  lemma {:induction false} FitSuffix(t: BankTables, a: seq<BankLine>, b: seq<BankLine>)
    requires AllFit(t, a + b)
    ensures AllFit(WriteLines(t, a), b)
  {
    if b != [] {
      assert (a + b)[..|a + b| - 1] == a + b[..|b| - 1];
      FitSuffix(t, a, b[..|b| - 1]);
      WriteConcat(t, a, b[..|b| - 1]);
    }
  }

  lemma WellformedPrefix(start: BankTables, log: seq<BankLine>, n: nat)
    requires Wellformed(start, log) && n <= |log|
    ensures Wellformed(start, log[..n])
  {}

  // Such a log fits the tables line by line, and its last log ID is its length.
  lemma {:induction false} WellformedFits(start: BankTables, log: seq<BankLine>)
    requires Wellformed(start, log)
    ensures AllFit(start, log)
    ensures var t := WriteLines(start, log);
            && t.saved == |log| && 0 <= t.msgSeq
            && (t.msgSeq == 0 || exists i :: 0 <= i < |log| && log[i].msgSeq == t.msgSeq)
  {
    if log != [] {
      var before, n := log[..|log| - 1], |log| - 1;
      WellformedPrefix(start, log, n);
      WellformedFits(start, before);
      var t := WriteLines(start, before);
      if t.msgSeq != 0 {
        var i :| 0 <= i < n && before[i].msgSeq == t.msgSeq;
        assert log[i] == before[i];
      }
      assert log[n].logID == n + 1;
    }
  }

  lemma BatchOnTop(start: BankTables, seen: seq<BankLine>, news: seq<BankLine>, all: seq<BankLine>, saved: int)
    requires all == seen + news && AllFit(start, all) && news != []
    requires WriteLines(start, seen).saved == saved && 0 <= WriteLines(start, seen).msgSeq
    ensures var b := BatchOf(saved, news);
            Commit(WriteLines(start, seen), b) == WriteLines(start, all) && |b.snaps| > 0 && b.logID == Last(news).logID
  {
    WriteConcat(start, seen, news);
    FitSuffix(start, seen, news);
    BatchRefinesLines(WriteLines(start, seen), news);
  }

  lemma CutTwice(log: seq<BankLine>, a: nat, b: nat)
    requires a < b <= |log|
    ensures log[..b] == log[..a] + log[a..b] && Last(log[a..b]) == log[b - 1]
  {}

  lemma SavedSoFar(start: BankTables, log: seq<BankLine>, n: nat)
    requires Wellformed(start, log) && n <= |log|
    ensures WriteLines(start, log[..n]).saved == n && 0 <= WriteLines(start, log[..n]).msgSeq
    ensures AllFit(start, log[..n])
  {
    WellformedPrefix(start, log, n);
    WellformedFits(start, log[..n]);
  }

  lemma FreshBatch(start: BankTables, log: seq<BankLine>, saved: int, end: nat)
    requires Wellformed(start, log) && 0 <= saved < end <= |log|
    ensures var db, b := WriteLines(start, log[..saved]), BatchOf(saved, log[saved..end]);
            Commit(db, b) == WriteLines(start, log[..end]) && |b.snaps| > 0 && b.logID == end
  {
    CutTwice(log, saved, end);
    SavedSoFar(start, log, saved);
    SavedSoFar(start, log, end);
    BatchOnTop(start, log[..saved], log[saved..end], log[..end], saved);
  }

  lemma StretchBatch(start: BankTables, log: seq<BankLine>, saved: int, pos: nat, end: nat)
    requires Wellformed(start, log) && pos <= saved < end <= |log|
    ensures BatchOf(saved, log[pos..end]) == BatchOf(saved, log[saved..end]) && Last(log[pos..end]).logID == end
  {
    assert log[pos..end] == log[pos..saved] + log[saved..end];
    SavedLinesAreSkipped(saved, log[pos..saved], log[saved..end]);
  }

  lemma BatchIsDelivered(saved: int, db: BankTables, lines: seq<BankLine>, commits: bool, b: Batch)
    requires |lines| > 0 && b == BatchOf(saved, lines) && |b.snaps| > 0 && Last(lines).logID == b.logID > saved
    ensures var r := Deliver(saved, db, lines, commits);
            r.ok == commits && r.savedLogID == b.logID && r.db == if commits then Commit(db, b) else db
  {}

  // A stretch that reaches past the saved lines writes exactly the lines past them.
  lemma FreshStretch(start: BankTables, log: seq<BankLine>, saved: int, db: BankTables, pos: nat, end: nat,
                     commits: bool)
    requires Wellformed(start, log) && pos <= saved < end <= |log| && db == WriteLines(start, log[..saved])
    ensures var r := Deliver(saved, db, log[pos..end], commits);
            r.ok == commits && r.savedLogID == end && r.db == if commits then WriteLines(start, log[..end]) else db
  {
    StretchBatch(start, log, saved, pos, end);
    FreshBatch(start, log, saved, end);
    BatchIsDelivered(saved, db, log[pos..end], commits, BatchOf(saved, log[saved..end]));
  }

  lemma FaithfulUpTo(start: BankTables, log: seq<BankLine>, end: nat, pos: nat)
    requires Wellformed(start, log) && pos <= end <= |log|
    ensures Faithful(start, World(log, WriteLines(start, log[..end]), end, pos))
  {
    SavedSoFar(start, log, end);
  }

  /** What one delivery comes to: the lines up to `end` saved, or nothing changed. */
  function Ideal(start: BankTables, w: World, end: nat, commits: bool): Delivery
    requires end <= |w.log|
  {
    if w.savedLogID < end then Delivery(commits, end, if commits then WriteLines(start, w.log[..end]) else w.db)
    else Delivery(true, w.savedLogID, w.db)
  }

  lemma IdealKeepsFaith(start: BankTables, w: World, size: nat, commits: bool)
    requires Faithful(start, w) && Wellformed(start, w.log) && w.pos + size <= |w.log|
    ensures var w', end := Delivered(w, size, Ideal(start, w, w.pos + size, commits)), w.pos + size;
            && Faithful(start, w') && w'.log == w.log
            && w'.savedLogID == if w.savedLogID < end && commits then end else w.savedLogID
  {
    var end := w.pos + size;
    var r := Ideal(start, w, end, commits);
    if w.savedLogID < end && commits {
      FaithfulUpTo(start, w.log, end, end);
      assert Delivered(w, size, r) == World(w.log, WriteLines(start, w.log[..end]), end, end);
    } else {
      assert Delivered(w, size, r) == (if r.ok then w.(pos := end) else Restarted(w));
    }
  }

  lemma SavedStretch(saved: int, db: BankTables, log: seq<BankLine>, pos: nat, end: nat, commits: bool)
    requires pos < end <= |log| && log[end - 1].logID <= saved
    ensures var r := Deliver(saved, db, log[pos..end], commits); r.ok && r.savedLogID == saved && r.db == db
  {
    assert Last(log[pos..end]) == log[end - 1];
  }

  lemma HandedIsIdeal(start: BankTables, w: World, end: nat, commits: bool)
    requires Faithful(start, w) && Wellformed(start, w.log) && w.pos < end <= |w.log|
    ensures Handed(w, end, commits) == Ideal(start, w, end, commits)
  {
    if w.savedLogID < end {
      FreshStretch(start, w.log, w.savedLogID, w.db, w.pos, end, commits);
    } else {
      SavedStretch(w.savedLogID, w.db, w.log, w.pos, end, commits);
    }
  }

  lemma StepDelivers(w: World, size: nat, commits: bool, inserted: set<seq<string>>, r: Delivery)
    requires size > 0 && w.pos + size <= |w.log| && Handed(w, w.pos + size, commits) == r
    ensures Step(w, Write(size, commits, inserted)) == Delivered(w, size, r)
  {}

  lemma StepIsIdeal(start: BankTables, w: World, size: nat, commits: bool, inserted: set<seq<string>>)
    requires Faithful(start, w) && Wellformed(start, w.log) && size > 0 && w.pos + size <= |w.log|
    ensures Step(w, Write(size, commits, inserted)) == Delivered(w, size, Ideal(start, w, w.pos + size, commits))
  {
    HandedIsIdeal(start, w, w.pos + size, commits);
    StepDelivers(w, size, commits, inserted, Ideal(start, w, w.pos + size, commits));
  }

  /** Any stretch of the file, partly saved or not, in any size, with or without a working database. */
  lemma WriteKeepsFaith(start: BankTables, w: World, size: nat, commits: bool, inserted: set<seq<string>>)
    requires Faithful(start, w) && Wellformed(start, w.log) && size > 0 && w.pos + size <= |w.log|
    ensures var w', end := Step(w, Write(size, commits, inserted)), w.pos + size;
            && Faithful(start, w') && w'.log == w.log
            && w'.savedLogID == if w.savedLogID < end && commits then end else w.savedLogID
  {
    StepIsIdeal(start, w, size, commits, inserted);
    IdealKeepsFaith(start, w, size, commits);
  }

  lemma GrowthKeepsFaith(start: BankTables, w: World, l: BankLine)
    requires Faithful(start, w)
    ensures Faithful(start, Step(w, Grow(l))) && Faithful(start, Restarted(w))
  {
    assert (w.log + [l])[..w.savedLogID] == w.log[..w.savedLogID];
  }

  /** Whatever the batches, failures and restarts, the tables are exactly the saved prefix of the file. */
  lemma {:induction false} TablesFollowTheLog(start: BankTables, events: seq<Event>)
    requires Wellformed(start, Live(Beginning(start), events).log)
    ensures Faithful(start, Live(Beginning(start), events))
  {
    if events != [] {
      var before, e := events[..|events| - 1], Last(events);
      var w := Live(Beginning(start), before);
      var w' := Step(w, e);
      assert w.log == w'.log[..|w.log|];
      WellformedPrefix(start, w'.log, |w.log|);
      TablesFollowTheLog(start, before);
      match e {
        case Grow(l) => GrowthKeepsFaith(start, w, l);
        case Restart => GrowthKeepsFaith(start, w, BankLine(0, 0, [], []));
        case Write(size, commits, inserted) =>
          if size > 0 && w.pos + size <= |w.log| { WriteKeepsFaith(start, w, size, commits, inserted); }
      }
    }
  }

  // ---- where a round starts ----

  lemma {:induction false} BatchEndsWithASnap(saved: int, lines: seq<BankLine>)
    ensures var b := BatchOf(saved, lines); b.snaps != [] ==> b.newest == Last(b.snaps).logID
  {
    if |lines| > 0 {
      var before, l := BatchOf(saved, lines[..|lines| - 1]), Last(lines);
      BatchEndsWithASnap(saved, lines[..|lines| - 1]);
      if |l.legs| == 0 { assert before.snaps + [] == before.snaps; }
    }
  }

  lemma CommitKeepsTheNewest(t: BankTables, b: Batch)
    requires t.saved == NewestSnap(t) && (b.snaps != [] ==> b.newest == Last(b.snaps).logID)
    ensures Commit(t, b).saved == NewestSnap(Commit(t, b))
  {
    if b.snaps == [] { assert t.snaps + [] == t.snaps; }
  }

  /** The log ID a round starts from is that of the newest snapshot, whatever has been written. */
  lemma {:induction false} RoundsStartAtTheNewestSnap(start: BankTables, events: seq<Event>)
    requires start.saved == NewestSnap(start)
    ensures var db := Live(Beginning(start), events).db; db.saved == NewestSnap(db)
  {
    if events != [] {
      RoundsStartAtTheNewestSnap(start, events[..|events| - 1]);
      StepKeepsTheNewest(Live(Beginning(start), events[..|events| - 1]), Last(events));
    }
  }

  lemma DeliverKeepsTheNewest(saved: int, db: BankTables, lines: seq<BankLine>, commits: bool)
    requires |lines| > 0 && db.saved == NewestSnap(db)
    ensures var db' := Deliver(saved, db, lines, commits).db; db'.saved == NewestSnap(db')
  {
    BatchEndsWithASnap(saved, lines);
    CommitKeepsTheNewest(db, BatchOf(saved, lines));
  }

  lemma StepKeepsTheNewest(w: World, e: Event)
    requires w.db.saved == NewestSnap(w.db)
    ensures Step(w, e).db.saved == NewestSnap(Step(w, e).db)
  {
    if e.Write? && e.size > 0 && w.pos + e.size <= |w.log| {
      DeliverKeepsTheNewest(w.savedLogID, w.db, w.log[w.pos..w.pos + e.size], e.commits);
      StepDelivers(w, e.size, e.commits, e.inserted, Handed(w, w.pos + e.size, e.commits));
    }
  }

  // ---- values that do not fit ----

  /** The first `n` lines of a log fit their columns. */
  ghost predicate Fit(log: seq<BankLine>, n: int)
    requires n <= |log|
  {
    forall i :: 0 <= i < n ==> LineInRange(log[i])
  }

  /** The new lines up to `end` fit their columns. */
  ghost predicate Acceptable(w: World, end: int)
    requires 0 <= w.savedLogID && end <= |w.log|
  {
    forall i :: w.savedLogID <= i < end ==> LineInRange(w.log[i])
  }

  /** Lives in which no transaction commits with a value that does not fit its column. */
  ghost predicate Honest(start: BankTables, events: seq<Event>) {
    forall k :: 0 <= k < |events| && events[k].Write? && events[k].commits ==>
      var w := Live(Beginning(start), events[..k]);
      0 <= w.savedLogID && (w.pos + events[k].size <= |w.log| ==> Acceptable(w, w.pos + events[k].size))
  }

  lemma HonestPrefix(start: BankTables, events: seq<Event>)
    requires Honest(start, events) && events != []
    ensures Honest(start, events[..|events| - 1])
  {
    var before := events[..|events| - 1];
    forall k | 0 <= k < |before| && before[k].Write? && before[k].commits
      ensures var w := Live(Beginning(start), before[..k]);
              0 <= w.savedLogID && (w.pos + before[k].size <= |w.log| ==> Acceptable(w, w.pos + before[k].size))
    {
      assert before[..k] == events[..k] && before[k] == events[k];
    }
  }

  lemma StepKeepsFit(start: BankTables, w: World, e: Event)
    requires Faithful(start, w) && Wellformed(start, w.log) && Fit(w.log, w.savedLogID)
    requires e.Write? && e.commits && w.pos + e.size <= |w.log| ==> Acceptable(w, w.pos + e.size)
    ensures Step(w, e).savedLogID <= |Step(w, e).log| && Fit(Step(w, e).log, Step(w, e).savedLogID)
  {
    if e.Write? && e.size > 0 && w.pos + e.size <= |w.log| {
      WriteKeepsFaith(start, w, e.size, e.commits, e.inserted);
    }
  }

  /** A line with a value that does not fit its column is never saved, and neither is any line after it. */
  lemma {:induction false} SavedLinesFit(start: BankTables, events: seq<Event>)
    requires Wellformed(start, Live(Beginning(start), events).log) && Honest(start, events)
    ensures var w := Live(Beginning(start), events); 0 <= w.savedLogID <= |w.log| && Fit(w.log, w.savedLogID)
  {
    if events != [] {
      var before, e := events[..|events| - 1], Last(events);
      var w := Live(Beginning(start), before);
      assert w.log == Step(w, e).log[..|w.log|];
      WellformedPrefix(start, Step(w, e).log, |w.log|);
      TablesFollowTheLog(start, before);
      HonestPrefix(start, events);
      SavedLinesFit(start, before);
      StepKeepsFit(start, w, e);
      TablesFollowTheLog(start, events);
    }
  }

  /** From any point of any life, a fresh round can save the whole file if and only if every value of it fits. */
  lemma WriterCatchesUp(start: BankTables, events: seq<Event>)
    requires Wellformed(start, Live(Beginning(start), events).log) && Honest(start, events)
    ensures var w := Restarted(Live(Beginning(start), events));
            && w.savedLogID >= 0
            && (Acceptable(w, |w.log|) <==> Fit(w.log, |w.log|))
            && Step(w, Write(|w.log|, true, {})).savedLogID == |w.log|
  {
    var w := Live(Beginning(start), events);
    TablesFollowTheLog(start, events);
    SavedLinesFit(start, events);
    GrowthKeepsFaith(start, w, BankLine(0, 0, [], []));
    if w.log != [] { WriteKeepsFaith(start, Restarted(w), |w.log|, true, {}); }
  }

  /** After a failed transaction the lines count as saved in memory: handed over again, they would be dropped. Only
      the fresh start of the next round brings them back. */
  lemma AbortedLinesNeedARestart(start: BankTables, log: seq<BankLine>, saved: int, db: BankTables, pos: nat, end: nat)
    requires Wellformed(start, log) && pos <= saved < end <= |log| && db == WriteLines(start, log[..saved])
    ensures var r := Deliver(saved, db, log[pos..end], false);
            && !r.ok && r.db == db
            && Deliver(r.savedLogID, db, log[pos..end], true).db == db
            && Deliver(db.saved, db, log[pos..end], true).db == WriteLines(start, log[..end]) != db
  {
    FreshStretch(start, log, saved, db, pos, end, false);
    FreshStretch(start, log, saved, db, pos, end, true);
    SavedStretch(end, db, log, pos, end, true);
    SavedSoFar(start, log, saved);
    SavedSoFar(start, log, end);
  }
}
