/** The process that copies the engine's log file into the tables, batch by batch, restarting when it fails. */
module Writer {
  import opened Fixed
  import opened Matching
  import opened Tables

  datatype Outcome = Outcome(ok: bool, savedLogID: int, db: Tables)

  /** One call of the handler: nothing to do, one committed transaction, or a failure that changes nothing. */
  function Deliver(savedLogID: int, db: Tables, lines: seq<Line>, dbUp: bool): Outcome {
    var b := BatchOf(savedLogID, lines);
    if IsEmpty(b) then Outcome(true, savedLogID, db)
    else match Commit(db, b)
      case Some(db') => if dbUp then Outcome(true, b.logID, db') else Outcome(false, savedLogID, db)
      case None => Outcome(false, savedLogID, db)
  }

  class Worker {
    var savedLogID: int
    var db: Tables

    /** Parse a batch of lines, skipping saved ones, and write it in one transaction that `dbUp` lets commit. */
    method ParseAndWriteLogs(ss: seq<Line>, dbUp: bool) returns (ok: bool)
      modifies this
      ensures Outcome(ok, savedLogID, db) == Deliver(old(savedLogID), old(db), ss, dbUp)
    {
      var latestLogID, latestOrderID, latestAskTicketID, latestBidTicketID := 0, 0, 0, 0;
      var newOrders: seq<Row>, newTrades: seq<Trade> := [], [];
      var updateOrders: map<int, Update> := map[];
      var i := 0;
      assert ss[..0] == [];
      while i < |ss|
        invariant 0 <= i <= |ss|
        invariant savedLogID == old(savedLogID) && db == old(db)
        invariant BatchOf(savedLogID, ss[..i]) ==
                  Batch(newOrders, newTrades, updateOrders,
                        latestLogID, latestOrderID, latestAskTicketID, latestBidTicketID)
      {
        var l := ss[i];
        assert ss[..i + 1][..i] == ss[..i] && Last(ss[..i + 1]) == l;
        if l.logID > savedLogID {
          if l.MatchLine? {
            newTrades := newTrades + [TradeOf(l)];
            var amount := IntToDecimal(l.amount);
            updateOrders := Merge(updateOrders, l.askID, IntToDecimal(l.askQuantity), amount);
            updateOrders := Merge(updateOrders, l.bidID, IntToDecimal(l.bidQuantity), amount);
          } else {
            newOrders := newOrders + [RowOf(l)];
            latestOrderID := l.id;
            if l.side == ASK { latestAskTicketID := l.ticketID; } else { latestBidTicketID := l.ticketID; }
          }
        }
        latestLogID := l.logID;
        i := i + 1;
      }
      assert ss[..i] == ss;
      if newTrades == [] && newOrders == [] && updateOrders == map[] { return true; }
      var batch := Batch(newOrders, newTrades, updateOrders,
                         latestLogID, latestOrderID, latestAskTicketID, latestBidTicketID);
      var committed := Commit(db, batch);
      if committed.None? || !dbUp { return false; }
      db := committed.value;
      savedLogID := latestLogID;
      ok := true;
    }

    /** A round of the writer starts from the log ID the tables hold, not from memory. */
    method LoadSavedLogID()
      modifies this`savedLogID
      ensures savedLogID == db.savedLogID
    {
      savedLogID := db.savedLogID;
    }
  }

  // ---- every life of the writer ----

  /** The growing file, the tables, the writer's memory of what is saved, and its place in the file. */
  datatype World = World(log: seq<Line>, db: Tables, savedLogID: int, pos: nat)

  datatype Event =
    | Grow(l: Line)                     // the engine appends a line
    | Write(size: nat, dbUp: bool)      // the next `size` lines are handed to the writer
    | Restart                           // the writer is killed and begins again at the top of the file

  function Restarted(w: World): World {
    w.(savedLogID := w.db.savedLogID, pos := 0)
  }

  function Delivered(w: World, r: Outcome, size: nat): World {
    if r.ok then World(w.log, r.db, r.savedLogID, w.pos + size) else Restarted(w)
  }

  function Step(w: World, e: Event): World {
    match e
    case Grow(l) => w.(log := w.log + [l])
    case Restart => Restarted(w)
    case Write(size, dbUp) =>
      if w.pos + size > |w.log| then w
      else
        Delivered(w, Deliver(w.savedLogID, w.db, w.log[w.pos..w.pos + size], dbUp), size)
  }

  function Live(w: World, events: seq<Event>): World {
    if events == [] then w else Step(Live(w, events[..|events| - 1]), Last(events))
  }

  /** A log the engine may have written: numbered 1, 2, 3, ... and every line fit for the tables before it. */
  ghost predicate Wellformed(log: seq<Line>) {
    AllFit(EMPTY, log) && forall i :: 0 <= i < |log| ==> log[i].logID == i + 1
  }

  /** The tables are the lines up to the saved log ID, each written once and in order. */
  ghost predicate Faithful(w: World) {
    && w.savedLogID == w.db.savedLogID && w.pos <= w.db.savedLogID <= |w.log|
    && w.db == WriteLines(EMPTY, w.log[..w.db.savedLogID])
  }

  const BEGIN := World([], EMPTY, 0, 0)

  lemma {:induction false} WriteConcat(t: Tables, a: seq<Line>, b: seq<Line>)
    ensures WriteLines(t, a + b) == WriteLines(WriteLines(t, a), b)
    ensures AllFit(t, a + b) <==> AllFit(t, a) && AllFit(WriteLines(t, a), b)
  {
    if b == [] {
      assert a + b == a;
    } else {
      WriteConcat(t, a, b[..|b| - 1]);
      assert (a + b)[..|a + b| - 1] == a + b[..|b| - 1];
    }
  }

  lemma WellformedPrefix(log: seq<Line>, n: nat)
    requires Wellformed(log) && n <= |log|
    ensures Wellformed(log[..n])
  {
    WriteConcat(EMPTY, log[..n], log[n..]);
    assert log == log[..n] + log[n..];
  }

  lemma {:induction false} SavedIsLength(log: seq<Line>)
    requires Wellformed(log)
    ensures WriteLines(EMPTY, log).savedLogID == |log|
  {
    if log != [] { WellformedPrefix(log, |log| - 1); SavedIsLength(log[..|log| - 1]); }
  }

  // A stretch of the file that is saved already leaves the writer where it was.
  lemma SavedStretch(log: seq<Line>, saved: int, db: Tables, pos: nat, end: nat)
    requires Wellformed(log) && pos <= end <= saved <= |log|
    ensures Deliver(saved, db, log[pos..end], true) == Outcome(true, saved, db)
    ensures Deliver(saved, db, log[pos..end], false) == Outcome(true, saved, db)
  {
    SavedLinesAreSkipped(saved, log[pos..end], []);
  }

  lemma FreshBatch(log: seq<Line>, saved: int, end: nat)
    requires Wellformed(log) && 0 <= saved < end <= |log|
    ensures var db, b := WriteLines(EMPTY, log[..saved]), BatchOf(saved, log[saved..end]);
            Commit(db, b) == Some(WriteLines(EMPTY, log[..end])) && !IsEmpty(b) && b.logID == end
  {
    assert log[..end] == log[..saved] + log[saved..end];
    WellformedPrefix(log, end);
    SavedIsLength(log[..end]);
    WellformedPrefix(log, saved);
    SavedIsLength(log[..saved]);
    WriteConcat(EMPTY, log[..saved], log[saved..end]);
    BatchRefinesLines(WriteLines(EMPTY, log[..saved]), log[saved..end]);
  }

  // A stretch that reaches past the saved lines writes exactly the lines past them.
  lemma FreshStretch(log: seq<Line>, saved: int, db: Tables, pos: nat, end: nat)
    requires Wellformed(log) && 0 <= pos <= saved < end <= |log|
    requires db == WriteLines(EMPTY, log[..saved]) && db.savedLogID == saved
    ensures Deliver(saved, db, log[pos..end], true) == Outcome(true, end, WriteLines(EMPTY, log[..end]))
    ensures Deliver(saved, db, log[pos..end], false) == Outcome(false, saved, db)
  {
    assert log[pos..end] == log[pos..saved] + log[saved..end];
    SavedLinesAreSkipped(saved, log[pos..saved], log[saved..end]);
    FreshBatch(log, saved, end);
  }

  /** Any stretch of the file, partly saved or not, in any size, with or without a working database. */
  lemma WriteKeepsFaith(w: World, size: nat, dbUp: bool)
    requires Faithful(w) && Wellformed(w.log)
    ensures Faithful(Step(w, Write(size, dbUp)))
    ensures w.pos + size <= |w.log| && dbUp ==> Step(w, Write(size, dbUp)).pos == w.pos + size
  {
    var end := w.pos + size;
    if end <= w.savedLogID {
      SavedStretch(w.log, w.savedLogID, w.db, w.pos, end);
      assert Step(w, Write(size, dbUp)) == Delivered(w, Outcome(true, w.savedLogID, w.db), size);
    } else if end <= |w.log| {
      FreshStretch(w.log, w.savedLogID, w.db, w.pos, end);
      var r := if dbUp then Outcome(true, end, WriteLines(EMPTY, w.log[..end]))
               else Outcome(false, w.savedLogID, w.db);
      assert Step(w, Write(size, dbUp)) == Delivered(w, r, size);
      WellformedPrefix(w.log, end);
      SavedIsLength(w.log[..end]);
    }
  }

  lemma StepKeepsTheLog(w: World, e: Event)
    ensures w.log <= Step(w, e).log
  {}

  /** Whatever the batches, failures and restarts, the tables are exactly the saved prefix of the file. */
  lemma {:induction false} TablesFollowTheLog(events: seq<Event>)
    requires Wellformed(Live(BEGIN, events).log)
    ensures Faithful(Live(BEGIN, events))
  {
    if events != [] {
      var before, e := events[..|events| - 1], Last(events);
      var w := Live(BEGIN, before);
      var w' := Live(BEGIN, events);
      StepKeepsTheLog(w, e);
      assert w.log == w'.log[..|w.log|];
      WellformedPrefix(w'.log, |w.log|);
      TablesFollowTheLog(before);
      match e {
        case Grow(l) => assert w'.log[..w.db.savedLogID] == w.log[..w.db.savedLogID];
        case Restart =>
        case Write(size, dbUp) => WriteKeepsFaith(w, size, dbUp);
      }
    }
  }
}
