/** Resting orders and the two price-ordered books (the btrees of the engine). */
module Books {

  datatype Order = Order(id: int, ticketID: int, owner: int, price: int, quantity: int)

  /** AskOrder.Less and BidOrder.Less are the same relation: asks are served from Min, bids from Max. */
  predicate Less(a: Order, b: Order) {
    a.id != b.id && (a.price < b.price || (a.price == b.price && a.id < b.id))
  }

  // A btree holding distinct keys, listed in ascending order.
  type Book = seq<Order>

  predicate Sorted(b: Book) {
    forall i, j :: 0 <= i < j < |b| ==> Less(b[i], b[j])
  }

  ghost predicate HasID(b: Book, id: int) {
    exists i :: 0 <= i < |b| && b[i].id == id
  }

  // The container operations see the orders through Less only, as the btree does.

  function Has(b: Book, o: Order): bool {
    if b == [] || Less(o, b[0]) then false
    else if Less(b[0], o) then Has(b[1..], o)
    else true
  }

  function ReplaceOrInsert(b: Book, o: Order): Book {
    if b == [] || Less(o, b[0]) then [o] + b
    else if Less(b[0], o) then [b[0]] + ReplaceOrInsert(b[1..], o)
    else [o] + b[1..]
  }

  function Delete(b: Book, key: Order): Book {
    if b == [] || Less(key, b[0]) then b
    else if Less(b[0], key) then [b[0]] + Delete(b[1..], key)
    else b[1..]
  }

  /** What the log says of a resting order: its remaining quantity; nothing remains of a filled one. */
  function SetRemaining(b: Book, id: int, quantity: int): Book {
    if b == [] then []
    else if b[0].id == id then (if quantity == 0 then [] else [b[0].(quantity := quantity)]) + b[1..]
    else [b[0]] + SetRemaining(b[1..], id, quantity)
  }

  // Less chains exactly when the outer orders differ, so it is a strict order where an ID determines the price.
  lemma LessChains(a: Order, b: Order, c: Order)
    requires Less(a, b) && Less(b, c)
    ensures Less(a, c) <==> a.id != c.id
    ensures a.id == c.id ==> a.price != c.price
  {}

  // Exactly one of the three relations holds between two keys.
  lemma LessIsTrichotomous(a: Order, b: Order)
    ensures Less(a, b) <==> a.id != b.id && !Less(b, a)
  {}

  // Three orders on which Less is not transitive, because two of them share an ID at different prices.
  lemma LessNeedsStablePrices()
    ensures exists a, b, c :: Less(a, b) && Less(b, c) && !Less(a, c)
  {
    var a, b, c := Order(1, 0, 0, 10, 1), Order(2, 0, 0, 20, 1), Order(1, 0, 0, 30, 1);
    assert Less(a, b) && Less(b, c) && !Less(a, c);
  }

  lemma {:induction false} InsertContents(b: Book, o: Order)
    requires Sorted(b) && !HasID(b, o.id)
    ensures !Has(b, o)
    ensures Sorted(ReplaceOrInsert(b, o))
    ensures forall x :: x in ReplaceOrInsert(b, o) <==> x == o || x in b
    ensures |ReplaceOrInsert(b, o)| == |b| + 1
  {
    if b != [] {
      var r := ReplaceOrInsert(b, o);
      assert b[0].id != o.id;
      assert Sorted(b[1..]);
      forall i | 0 <= i < |b[1..]| ensures b[1..][i].id != o.id { assert b[1..][i] == b[i + 1]; }
      InsertContents(b[1..], o);
      forall x ensures x in b <==> x == b[0] || x in b[1..] {}
      if Less(o, b[0]) {
        assert r == [o] + b;
        forall j | 0 <= j < |b| ensures Less(o, b[j]) {
          if j > 0 { LessChains(o, b[0], b[j]); }
        }
      } else {
        var tail := ReplaceOrInsert(b[1..], o);
        assert r == [b[0]] + tail;
        forall j | 0 <= j < |tail| ensures Less(b[0], tail[j]) {
          assert tail[j] in tail;
        }
      }
    }
  }

  // The best ask is updated or removed where the comparator finds it: at the front.
  lemma MinIsFound(b: Book, key: Order)
    requires b != [] && key.id == b[0].id && key.price == b[0].price
    ensures ReplaceOrInsert(b, key) == [key] + b[1..]
    ensures Delete(b, key) == b[1..]
    ensures forall q :: SetRemaining(b, b[0].id, q) == (if q == 0 then [] else [b[0].(quantity := q)]) + b[1..]
  {}

  // The best bid is updated or removed where the comparator finds it: at the back.
  lemma {:induction false} MaxIsFound(b: Book, key: Order, q: int)
    requires Sorted(b) && b != []
    requires key.id == b[|b| - 1].id && key.price == b[|b| - 1].price
    ensures ReplaceOrInsert(b, key) == b[..|b| - 1] + [key]
    ensures Delete(b, key) == b[..|b| - 1]
    ensures SetRemaining(b, key.id, q) == b[..|b| - 1] + (if q == 0 then [] else [b[|b| - 1].(quantity := q)])
  {
    if |b| > 1 {
      var n := |b| - 1;
      assert Less(b[0], b[n]) && Less(b[0], key);
      assert b[1..][|b[1..]| - 1] == b[n];
      MaxIsFound(b[1..], key, q);
      assert b[..n] == [b[0]] + b[1..][..n - 1];
    } else {
      assert b[1..] == [] && b[..0] == [];
    }
  }

  // Updating or removing the best order leaves a sorted book, whose orders were all there before.
  lemma BestUpdateKeepsOrder(b: Book, q: int)
    requires Sorted(b) && b != []
    ensures var first, rest := b[0], b[1..];
            var r := (if q == 0 then [] else [first.(quantity := q)]) + rest;
            Sorted(r) && forall o :: o in r ==> o in b || o.id == first.id
    ensures var last, rest := b[|b| - 1], b[..|b| - 1];
            var r := rest + (if q == 0 then [] else [last.(quantity := q)]);
            Sorted(r) && forall o :: o in r ==> o in b || o.id == last.id
  {}

  lemma FirstIsLeast(b: Book, x: Order)
    requires Sorted(b) && x in b
    ensures x == b[0] || Less(b[0], x)
  {
    var i :| 0 <= i < |b| && b[i] == x;
  }

  // A sorted book is determined by the orders in it.
  lemma {:induction false} SortedBooksAreEqual(a: Book, b: Book)
    requires Sorted(a) && Sorted(b) && forall x :: x in a <==> x in b
    ensures a == b
  {
    assert b != [] ==> b[0] in b;
    if a != [] {
      assert a[0] in b && b != [];
      assert b[0] in a;
      FirstIsLeast(a, b[0]);
      FirstIsLeast(b, a[0]);
      assert a[0] == b[0];
      forall x ensures x in a[1..] <==> x in b[1..] {
        if x in a[1..] { TailMember(a, b, x); }
        if x in b[1..] { TailMember(b, a, x); }
      }
      SortedBooksAreEqual(a[1..], b[1..]);
      assert a == [a[0]] + a[1..] && b == [b[0]] + b[1..];
    }
  }

  lemma TailMember(a: Book, b: Book, x: Order)
    requires Sorted(a) && a != [] && b != [] && a[0] == b[0] && x in a[1..] && x in b
    ensures x in b[1..]
  {
    var i :| 1 <= i < |a| && a[i] == x;
    assert Less(a[0], a[i]);
    var j :| 0 <= j < |b| && b[j] == x;
    assert b[1..][j - 1] == x;
  }
}
