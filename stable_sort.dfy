/** A stable sort of transactions by amount, largest first: the ordering that
    `Stream.sorted` with the comparator `Double.compare(t2.amount, t1.amount)`
    produces on a list's stream, where records with equal amounts keep their
    input order. */
module StableSort {
  import opened Transactions
  import opened Sequences

  ghost predicate SortedByAmountDesc(s: seq<Record>)
  {
    forall i, j :: 0 <= i < j < |s| ==> s[i].amount >= s[j].amount
  }

  /** Puts `x` in front of the first record whose amount is not larger than its own. */
  function Insert(x: Record, t: seq<Record>): (r: seq<Record>)
    requires SortedByAmountDesc(t)
    ensures |r| == |t| + 1
    ensures SortedByAmountDesc(r)
    ensures r[0] == x || (t != [] && r[0] == t[0])
  {
    if t == [] || t[0].amount <= x.amount then
      assert forall j :: 0 <= j < |t| ==> x.amount >= t[j].amount;
      [x] + t
    else
      assert t == [t[0]] + t[1..];
      var rest := Insert(x, t[1..]);
      assert forall j :: 0 <= j < |rest| ==> t[0].amount >= rest[j].amount;
      [t[0]] + rest
  }

  /** Sorts by amount, largest first, by inserting each record into the sorted rest. */
  function SortByAmountDesc(s: seq<Record>): (r: seq<Record>)
    ensures |r| == |s|
    ensures SortedByAmountDesc(r)
  {
    if s == [] then []
    else
      assert s == [s[0]] + s[1..];
      Insert(s[0], SortByAmountDesc(s[1..]))
  }

  /** Inserting adds exactly the one record. */
  lemma {:induction false} InsertAddsOne(x: Record, t: seq<Record>)
    requires SortedByAmountDesc(t)
    ensures multiset(Insert(x, t)) == multiset(t) + multiset{x}
  {
    if t != [] && t[0].amount > x.amount {
      assert t == [t[0]] + t[1..];
      InsertAddsOne(x, t[1..]);
    }
  }

  /** The sort is a permutation of its input. */
  lemma {:induction false} SortIsPermutation(s: seq<Record>)
    ensures multiset(SortByAmountDesc(s)) == multiset(s)
  {
    if s != [] {
      assert s == [s[0]] + s[1..];
      SortIsPermutation(s[1..]);
      InsertAddsOne(s[0], SortByAmountDesc(s[1..]));
    }
  }

  /** Inserting `x` adds it in front of the records that have the same amount. */
  lemma {:induction false} InsertStable(x: Record, t: seq<Record>, a: real)
    requires SortedByAmountDesc(t)
    ensures Filter(Insert(x, t), AmountIs(a)) == (if x.amount == a then [x] else []) + Filter(t, AmountIs(a))
  {
    var r := Insert(x, t);
    if t == [] || t[0].amount <= x.amount {
      assert r[0] == x && r[1..] == t;
    } else {
      assert r[0] == t[0] && r[1..] == Insert(x, t[1..]);
      InsertStable(x, t[1..], a);
    }
  }

  /** Stability: for every amount, the records with that amount appear in input order. */
  lemma {:induction false} SortStable(s: seq<Record>, a: real)
    ensures Filter(SortByAmountDesc(s), AmountIs(a)) == Filter(s, AmountIs(a))
  {
    if s != [] {
      SortStable(s[1..], a);
      InsertStable(s[0], SortByAmountDesc(s[1..]), a);
    }
  }
}
