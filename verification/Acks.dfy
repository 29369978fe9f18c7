/** The acknowledgements a bank sends: one per batch, for everything up to its sequence. */
module Acks {
  import opened Ledger

  /** Sequence `s` arrived in one of the first `n` batches. */
  ghost predicate Arrived(batches: seq<seq<int>>, n: int, s: int) {
    exists i :: 0 <= i < n && i < |batches| && s in batches[i]
  }

  /** The `i`-th acknowledgement is for a sequence that has arrived, and covers its batch. */
  ghost predicate Answers(batches: seq<seq<int>>, sent: seq<int>, i: int) {
    0 <= i < |sent| && i < |batches| ==>
      Arrived(batches, i + 1, sent[i]) && forall s :: s in batches[i] ==> s <= sent[i]
  }

  /** An acknowledgement that failed is made up for by the next one. */
  ghost predicate MadeUpFor(sent: seq<int>, fails: seq<bool>, i: int) {
    0 <= i < |sent| - 1 && i < |fails| && fails[i] ==> sent[i] <= sent[i + 1]
  }

  lemma OneMoreSent(batches: seq<seq<int>>, fails: seq<bool>, sent: seq<int>, latest: int, largest: int, mp: int)
    requires |sent| < |batches| == |fails| && mp in batches[|sent|] && 0 < mp
    requires latest == 0 || Arrived(batches, |sent|, latest)
    requires largest >= latest && (largest == latest || largest in batches[|sent|])
    requires forall s :: s in batches[|sent|] ==> s <= largest
    requires |sent| > 0 && fails[|sent| - 1] ==> latest == sent[|sent| - 1]
    requires forall k :: Answers(batches, sent, k) && MadeUpFor(sent, fails, k)
    ensures Arrived(batches, |sent| + 1, largest) && Arrived(batches, |sent| + 1, mp)
    ensures forall k :: Answers(batches, sent + [largest], k) && MadeUpFor(sent + [largest], fails, k)
  {
    forall k ensures Answers(batches, sent + [largest], k) && MadeUpFor(sent + [largest], fails, k) {
      assert Answers(batches, sent, k) && MadeUpFor(sent, fails, k);
    }
  }

  /** Take what has arrived at once, acknowledge the largest sequence known, and remember the last one; an
      acknowledgement that fails is remembered as it is. */
  method AckBatches(batches: seq<seq<int>>, fails: seq<bool>) returns (sent: seq<int>)
    requires forall i :: 0 <= i < |batches| ==> |batches[i]| > 0 && forall s :: s in batches[i] ==> 0 < s
    requires |fails| == |batches|
    ensures |sent| == |batches|
    ensures forall i :: Answers(batches, sent, i) && MadeUpFor(sent, fails, i)
  {
    sent := [];
    var latest := 0;
    var i := 0;
    while i < |batches|
      invariant 0 <= i <= |batches| && |sent| == i
      invariant latest == 0 || Arrived(batches, i, latest)
      invariant forall k :: Answers(batches, sent, k) && MadeUpFor(sent, fails, k)
      invariant i > 0 && fails[i - 1] ==> latest == sent[i - 1]
    {
      var largest, mp := TakeBatch(batches[i], latest);
      OneMoreSent(batches, fails, sent, latest, largest, mp);
      sent := sent + [largest];
      latest := if fails[i] then largest else mp;
      i := i + 1;
    }
  }

  /** The largest of what was known and what has arrived, and what arrived last. */
  method TakeBatch(batch: seq<int>, latest: int) returns (largest: int, mp: int)
    requires |batch| > 0
    ensures mp == batch[|batch| - 1] && largest >= latest && (largest == latest || largest in batch)
    ensures forall s :: s in batch ==> s <= largest
  {
    largest, mp := latest, batch[0];
    var k := 0;
    while k < |batch|
      invariant 0 <= k <= |batch| && largest >= latest && (largest == latest || largest in batch)
      invariant forall j :: 0 <= j < k ==> batch[j] <= largest
      invariant k > 0 ==> mp == batch[k - 1]
    {
      mp := batch[k];
      if mp > largest { largest := mp; }
      k := k + 1;
    }
  }

  /** However the acknowledgements of a bank are batched, none goes beyond the last sequence in its log, as long as
      none of its operations has failed. */
  lemma BatchedAcksAreLogged(b: Bank, batches: seq<seq<int>>, sent: seq<int>)
    requires Orderly(b) && |sent| == |batches|
    requires forall i, s :: 0 <= i < |batches| && s in batches[i] ==> s in b.acks
    requires forall i :: Answers(batches, sent, i)
    ensures forall i :: 0 <= i < |sent| ==> sent[i] <= LastSequence(b.log)
  {
    forall i | 0 <= i < |sent| ensures sent[i] <= LastSequence(b.log) {
      assert Answers(batches, sent, i);
      assert sent[i] in b.acks;
    }
  }
}
