/** The queries of `TransactionDataFetcher` over its list of transaction
    records. The class keeps the list in one field that it never reassigns, so
    each query is a function of that list, passed here as `data`. A query that
    throws in Java returns `Err` here. */
module TransactionDataFetcher {
  import opened Wrappers
  import opened Transactions
  import opened Sequences
  import opened StableSort

  // ---------------------------------------------------------------- amounts

  /** `getTotalTransactionAmount`: the sum of all amounts. */
  function TotalTransactionAmount(data: seq<Record>): (r: real)
    ensures data == [] ==> r == 0.0
    ensures (forall i :: 0 <= i < |data| ==> data[i].amount >= 0.0) ==> r >= 0.0
  {
    if data == [] then 0.0 else data[0].amount + TotalTransactionAmount(data[1..])
  }

  /** The sum over a concatenation is the sum of the two sums. */
  lemma {:induction false} TotalAppend(a: seq<Record>, b: seq<Record>)
    ensures TotalTransactionAmount(a + b) == TotalTransactionAmount(a) + TotalTransactionAmount(b)
  {
    if a == [] {
      assert a + b == b;
    } else {
      assert (a + b)[1..] == a[1..] + b;
      TotalAppend(a[1..], b);
    }
  }

  /** `getTotalTransactionAmountSentBy`: the sum of the amounts of the records
      whose sender is `senderName`, 0 when there is none. */
  function TotalTransactionAmountSentBy(data: seq<Record>, senderName: string): (r: real)
    ensures (forall i :: 0 <= i < |data| ==> data[i].senderFullName != Some(senderName)) ==> r == 0.0
  {
    if data == [] then 0.0
    else
      (if data[0].senderFullName == Some(senderName) then data[0].amount else 0.0)
      + TotalTransactionAmountSentBy(data[1..], senderName)
  }

  /** The amount sent by a name is the total of exactly the records it sent. */
  lemma {:induction false} SentByIsTotalOfItsRecords(data: seq<Record>, senderName: string)
    ensures TotalTransactionAmountSentBy(data, senderName)
            == TotalTransactionAmount(Filter(data, SentBy(senderName)))
  {
    if data != [] {
      SentByIsTotalOfItsRecords(data[1..], senderName);
    }
  }

  /** The records sent by `senderName` and all other records together make up the total. */
  lemma {:induction false} SentByAndRestMakeTotal(data: seq<Record>, senderName: string)
    ensures TotalTransactionAmountSentBy(data, senderName)
            + TotalTransactionAmount(Filter(data, NotSentBy(senderName)))
            == TotalTransactionAmount(data)
  {
    if data != [] {
      SentByAndRestMakeTotal(data[1..], senderName);
      var others := Filter(data[1..], NotSentBy(senderName));
      assert ([data[0]] + others)[1..] == others;
    }
  }

  /** `getMaxTransactionAmount`: the largest amount, 0 for an empty list. */
  function MaxTransactionAmount(data: seq<Record>): (r: real)
    ensures data == [] ==> r == 0.0
    ensures forall i :: 0 <= i < |data| ==> data[i].amount <= r
    ensures data != [] ==> exists i :: 0 <= i < |data| && data[i].amount == r
  {
    if data == [] then 0.0
    else if |data| == 1 then data[0].amount
    else
      var m := MaxTransactionAmount(data[1..]);
      if data[0].amount >= m then data[0].amount else m
  }

  // ---------------------------------------------------------------- clients

  /** `Collectors.toSet()` of the senders; a null sender is kept as `None`. */
  function SenderSet(data: seq<Record>): (s: set<Option<string>>)
    ensures forall c :: c in s <==> exists i :: 0 <= i < |data| && data[i].senderFullName == c
    ensures |s| <= |data|
  {
    if data == [] then {}
    else
      var rest := SenderSet(data[1..]);
      assert forall i :: 0 <= i < |data| - 1 ==> data[1..][i] == data[i + 1];
      {data[0].senderFullName} + rest
  }

  /** `Collectors.toSet()` of the beneficiaries; a null beneficiary is kept as `None`. */
  function BeneficiarySet(data: seq<Record>): (s: set<Option<string>>)
    ensures forall c :: c in s <==> exists i :: 0 <= i < |data| && data[i].beneficiaryFullName == c
    ensures |s| <= |data|
  {
    if data == [] then {}
    else
      var rest := BeneficiarySet(data[1..]);
      assert forall i :: 0 <= i < |data| - 1 ==> data[1..][i] == data[i + 1];
      {data[0].beneficiaryFullName} + rest
  }

  /** Every name that occurs as sender or beneficiary; absence is one of the values. */
  ghost function Clients(data: seq<Record>): set<Option<string>>
  {
    (set i | 0 <= i < |data| :: data[i].senderFullName)
    + (set i | 0 <= i < |data| :: data[i].beneficiaryFullName)
  }

  /** `countUniqueClients`: the number of distinct sender or beneficiary values. */
  function CountUniqueClients(data: seq<Record>): (n: nat)
    ensures n == |Clients(data)|
    ensures n <= 2 * |data|
    ensures data != [] ==> n >= 1
  {
    var clients := SenderSet(data) + BeneficiarySet(data);
    assert clients == Clients(data);
    assert data != [] ==> data[0].senderFullName in clients;
    |clients|
  }

  /** The names, without the absent value. */
  ghost function NamedClients(data: seq<Record>): set<string>
  {
    (set i | 0 <= i < |data| && data[i].senderFullName.Some? :: data[i].senderFullName.value)
    + (set i | 0 <= i < |data| && data[i].beneficiaryFullName.Some? :: data[i].beneficiaryFullName.value)
  }

  predicate SomeNameAbsent(data: seq<Record>)
  {
    exists i :: 0 <= i < |data| && (data[i].senderFullName.None? || data[i].beneficiaryFullName.None?)
  }

  lemma {:induction false} WrappedNamesCount(names: set<string>)
    ensures |set n | n in names :: Some(n)| == |names|
  {
    if names != {} {
      var x :| x in names;
      WrappedNamesCount(names - {x});
      assert (set n | n in names :: Some(n)) == (set n | n in names - {x} :: Some(n)) + {Some(x)};
    }
  }

  /** A missing sender or beneficiary is counted as one more client. */
  lemma AbsentNameCountsAsOneClient(data: seq<Record>)
    ensures CountUniqueClients(data) == |NamedClients(data)| + (if SomeNameAbsent(data) then 1 else 0)
  {
    var named := NamedClients(data);
    var wrapped := set n | n in named :: Some(n);
    WrappedNamesCount(named);
    var absent: set<Option<string>> := if SomeNameAbsent(data) then {None} else {};
    forall c | c in Clients(data)
      ensures c in wrapped + absent
    {
      if c.Some? {
        assert c.value in named;
      }
    }
    assert Clients(data) == wrapped + absent;
  }

  // ------------------------------------------------------------- compliance

  /** The record names `customerName` as its sender or its beneficiary. */
  predicate Involves(t: Record, customerName: string)
  {
    t.senderFullName == Some(customerName) || t.beneficiaryFullName == Some(customerName)
  }

  /** `hasOpenComplianceIssues`: some record involving the customer is not
      explicitly solved (a missing or `false` issueSolved counts as open). */
  function HasOpenComplianceIssues(data: seq<Record>, customerName: string): (r: bool)
    ensures r <==> exists i :: 0 <= i < |data| && Involves(data[i], customerName) && !IssueSolved(data[i])
  {
    if data == [] then false
    else
      assert forall i :: 0 < i < |data| ==> data[i] == data[1..][i - 1];
      (Involves(data[0], customerName) && !IssueSolved(data[0]))
      || HasOpenComplianceIssues(data[1..], customerName)
  }

  // --------------------------------------------------------------- grouping

  /** `m` groups `data` by beneficiary: its keys are exactly the beneficiary
      names, and each maps to the records addressed to it, in input order. */
  ghost predicate GroupsByBeneficiary(data: seq<Record>, m: map<string, seq<Record>>)
  {
    && (forall b :: b in m <==> exists i :: 0 <= i < |data| && data[i].beneficiaryFullName == Some(b))
    && (forall b :: b in m ==> m[b] == Filter(data, ReceivedBy(b)))
  }

  /** `getTransactionsByBeneficiaryName`: each beneficiary name mapped to the
      records it received, in input order; fails on a missing beneficiary. */
  function TransactionsByBeneficiaryName(data: seq<Record>): (r: Result<map<string, seq<Record>>, Error>)
    ensures r.Ok? <==> forall i :: 0 <= i < |data| ==> data[i].beneficiaryFullName.Some?
    ensures r.Err? ==> r.error == NullGroupingKey
    ensures r.Ok? ==> GroupsByBeneficiary(data, r.value)
  {
    if data == [] then Ok(map[])
    else
      assert forall i :: 0 < i < |data| ==> data[i] == data[1..][i - 1];
      match data[0].beneficiaryFullName
      case None => Err(NullGroupingKey)
      case Some(b) =>
        match TransactionsByBeneficiaryName(data[1..])
        case Err(e) => Err(e)
        case Ok(m) =>
          GroupStep(data, m);
          Ok(m[b := [data[0]] + (if b in m then m[b] else [])])
  }

  /** Adding the first record to the grouping of the rest groups the whole list. */
  lemma GroupStep(data: seq<Record>, m: map<string, seq<Record>>)
    requires data != [] && data[0].beneficiaryFullName.Some?
    requires GroupsByBeneficiary(data[1..], m)
    ensures var b := data[0].beneficiaryFullName.value;
            GroupsByBeneficiary(data, m[b := [data[0]] + (if b in m then m[b] else [])])
  {
    var b := data[0].beneficiaryFullName.value;
    var m' := m[b := [data[0]] + (if b in m then m[b] else [])];
    forall k ensures k in m' <==> exists i :: 0 <= i < |data| && data[i].beneficiaryFullName == Some(k)
    {
      if k in m' && k != b {
        var i :| 0 <= i < |data[1..]| && data[1..][i].beneficiaryFullName == Some(k);
        assert data[i + 1] == data[1..][i];
      }
      if k !in m' {
        forall i | 0 <= i < |data| ensures data[i].beneficiaryFullName != Some(k) {
          if i > 0 {
            assert data[i] == data[1..][i - 1];
          }
        }
      }
    }
    if b !in m {
      FilterNone(data[1..], ReceivedBy(b));
    }
  }

  /** The groups form a permutation of the input: every record sits in the
      group of its own beneficiary as often as it occurs in the input, a
      group holds only records addressed to its key, and a record that is not
      in the input is in no group. */
  lemma GroupsArePermutation(data: seq<Record>, t: Record)
    requires TransactionsByBeneficiaryName(data).Ok?
    ensures var m := TransactionsByBeneficiaryName(data).value;
            && (t in data ==> t.beneficiaryFullName.Some? && t.beneficiaryFullName.value in m
                              && multiset(m[t.beneficiaryFullName.value])[t] == multiset(data)[t])
            && (forall b :: b in m && t in m[b] ==> t.beneficiaryFullName == Some(b))
            && (t !in data ==> forall b :: b in m ==> t !in m[b])
  {
    var m := TransactionsByBeneficiaryName(data).value;
    if t in data {
      var b := t.beneficiaryFullName.value;
      FilterCount(data, ReceivedBy(b), t);
    }
    forall b | b in m && t in m[b]
      ensures t.beneficiaryFullName == Some(b)
    {
      FilterCount(data, ReceivedBy(b), t);
    }
    forall b | b in m {
      FilterCount(data, ReceivedBy(b), t);
    }
  }

  // ---------------------------------------------------------- issue ids

  /** `intValue()` of a Double: the integer part, rounding toward zero. */
  function TruncateTowardZero(x: real): (r: int)
    ensures 0.0 <= x ==> 0 <= r && r as real <= x < r as real + 1.0
    ensures x < 0.0 ==> r <= 0 && r as real - 1.0 < x <= r as real
  {
    if x >= 0.0 then x.Floor else -((-x).Floor)
  }

  /** The conversion of one `issueId` to an Integer, or the exception it throws. */
  function CoerceIssueId(id: IssueId): (r: Result<int, Error>)
    ensures r.Ok? <==> id.IntId? || id.DblId?
    ensures id.IntId? ==> r == Ok(id.i)
    ensures id.DblId? ==> r == Ok(TruncateTowardZero(id.d))
    ensures id.OtherId? ==> r == Err(InvalidIssueIdType(id.className))
    ensures id.NoId? ==> r == Err(NullIssueId)
  {
    match id
    case IntId(i) => Ok(i)
    case DblId(d) => Ok(TruncateTowardZero(d))
    case OtherId(className) => Err(InvalidIssueIdType(className))
    case NoId => Err(NullIssueId)
  }

  /** An open issue whose id cannot be converted: the records that make the query throw. */
  predicate BadOpenIssue(t: Record)
  {
    !IssueSolved(t) && CoerceIssueId(t.issueId).Err?
  }

  /** `getUnsolvedIssueIds`: the converted ids of exactly the records not
      explicitly solved; the first such record whose id is neither an Integer
      nor a Double makes the whole call fail. Solved records' ids are never read. */
  function UnsolvedIssueIds(data: seq<Record>): (r: Result<set<int>, Error>)
    ensures r.Ok? <==> forall i :: 0 <= i < |data| ==> !BadOpenIssue(data[i])
    ensures r.Ok? ==> forall k :: k in r.value <==>
              exists i :: 0 <= i < |data| && !IssueSolved(data[i]) && CoerceIssueId(data[i].issueId) == Ok(k)
    ensures r.Err? ==> exists i :: (0 <= i < |data| && BadOpenIssue(data[i])
              && CoerceIssueId(data[i].issueId) == Err(r.error)
              && forall j :: 0 <= j < i ==> !BadOpenIssue(data[j]))
  {
    if data == [] then Ok({})
    else
      assert forall i :: 0 < i < |data| ==> data[i] == data[1..][i - 1];
      var rest := UnsolvedIssueIds(data[1..]);
      if IssueSolved(data[0]) then
        if rest.Err? then
          var i :| 0 <= i < |data[1..]| && BadOpenIssue(data[1..][i])
                   && CoerceIssueId(data[1..][i].issueId) == Err(rest.error)
                   && forall j :: 0 <= j < i ==> !BadOpenIssue(data[1..][j]);
          assert BadOpenIssue(data[i + 1]);
          rest
        else rest
      else
        match CoerceIssueId(data[0].issueId)
        case Err(e) => Err(e)
        case Ok(k) =>
          match rest
          case Err(e) =>
            var i :| 0 <= i < |data[1..]| && BadOpenIssue(data[1..][i])
                     && CoerceIssueId(data[1..][i].issueId) == Err(e)
                     && forall j :: 0 <= j < i ==> !BadOpenIssue(data[1..][j]);
            assert BadOpenIssue(data[i + 1]);
            Err(e)
          case Ok(ids) => Ok({k} + ids)
  }

  /** Two lists that differ only in the issue ids of solved records. */
  ghost predicate SameUpToSolvedIds(a: seq<Record>, b: seq<Record>)
  {
    && |a| == |b|
    && forall i :: 0 <= i < |a| ==>
         a[i] == b[i] || (IssueSolved(a[i]) && a[i] == b[i].(issueId := a[i].issueId))
  }

  /** The ids of solved records are never inspected: changing them changes nothing. */
  lemma {:induction false} UnsolvedIgnoresSolvedIds(a: seq<Record>, b: seq<Record>)
    requires SameUpToSolvedIds(a, b)
    ensures UnsolvedIssueIds(a) == UnsolvedIssueIds(b)
  {
    if a != [] {
      assert SameUpToSolvedIds(a[1..], b[1..]);
      UnsolvedIgnoresSolvedIds(a[1..], b[1..]);
    }
  }

  // --------------------------------------------------------- solved messages

  /** `getAllSolvedIssueMessages`: the messages of the solved records, in input
      order, duplicates and missing messages kept. */
  function AllSolvedIssueMessages(data: seq<Record>): (r: seq<Option<string>>)
    ensures |r| == |Filter(data, IssueSolved)|
    ensures forall k :: 0 <= k < |r| ==> r[k] == Filter(data, IssueSolved)[k].issueMessage
  {
    if data == [] then []
    else
      var rest := AllSolvedIssueMessages(data[1..]);
      if IssueSolved(data[0]) then [data[0].issueMessage] + rest else rest
  }

  // -------------------------------------------------------------- top three

  /** `getTop3TransactionsByAmount`: the first three records of the stable
      descending sort by amount (all of them when there are fewer). */
  function Top3TransactionsByAmount(data: seq<Record>): (r: seq<Record>)
    ensures |r| == if |data| < 3 then |data| else 3
    ensures SortedByAmountDesc(r)
    ensures multiset(r) <= multiset(data)
    ensures r != [] ==> forall t :: multiset(r)[t] < multiset(data)[t] ==> t.amount <= r[|r| - 1].amount
  {
    var sorted := SortByAmountDesc(data);
    var k := if |sorted| < 3 then |sorted| else 3;
    SortIsPermutation(data);
    PrefixLeavesOutNothingLarger(sorted, k);
    sorted[..k]
  }

  /** A prefix of a sorted list is drawn from it and leaves out no record
      larger than its own last one. */
  lemma PrefixLeavesOutNothingLarger(sorted: seq<Record>, k: nat)
    requires SortedByAmountDesc(sorted) && k <= |sorted|
    ensures SortedByAmountDesc(sorted[..k])
    ensures multiset(sorted[..k]) <= multiset(sorted)
    ensures 0 < k ==> forall t :: multiset(sorted[..k])[t] < multiset(sorted)[t] ==> t.amount <= sorted[k - 1].amount
  {
    var front, back := sorted[..k], sorted[k..];
    assert sorted == front + back;
    assert multiset(sorted) == multiset(front) + multiset(back);
    forall t | 0 < k && multiset(front)[t] < multiset(sorted)[t]
      ensures t.amount <= sorted[k - 1].amount
    {
      assert t in multiset(back);
      var j :| 0 <= j < |back| && back[j] == t;
      assert sorted[k + j] == t;
    }
  }

  /** Records with equal amounts come out of the top three in input order:
      for every amount, those returned are the first ones of the input. */
  lemma Top3KeepsTiesInInputOrder(data: seq<Record>, a: real)
    ensures Filter(Top3TransactionsByAmount(data), AmountIs(a)) <= Filter(data, AmountIs(a))
  {
    var sorted := SortByAmountDesc(data);
    var k := if |sorted| < 3 then |sorted| else 3;
    assert sorted == sorted[..k] + sorted[k..];
    SortStable(data, a);
    FilterAppend(sorted[..k], sorted[k..], AmountIs(a));
  }

  // ------------------------------------------------------------- top sender

  /** `m` maps exactly the sender names of `data`, each to the total it sent. */
  ghost predicate TotalsBySender(data: seq<Record>, m: map<string, real>)
  {
    && (forall n :: n in m <==> exists i :: 0 <= i < |data| && data[i].senderFullName == Some(n))
    && (forall n :: n in m ==> m[n] == TotalTransactionAmountSentBy(data, n))
  }

  /** `groupingBy(senderFullName, summingDouble(amount))`: each sender's total;
      fails on a missing sender. */
  function SenderTotals(data: seq<Record>): (r: Result<map<string, real>, Error>)
    ensures r.Ok? <==> forall i :: 0 <= i < |data| ==> data[i].senderFullName.Some?
    ensures r.Err? ==> r.error == NullGroupingKey
    ensures r.Ok? ==> TotalsBySender(data, r.value)
  {
    if data == [] then Ok(map[])
    else
      assert forall i :: 0 < i < |data| ==> data[i] == data[1..][i - 1];
      match data[0].senderFullName
      case None => Err(NullGroupingKey)
      case Some(s) =>
        match SenderTotals(data[1..])
        case Err(e) => Err(e)
        case Ok(m) =>
          SenderTotalsStep(data, m);
          Ok(m[s := data[0].amount + (if s in m then m[s] else 0.0)])
  }

  /** Adding the first record's amount to the totals of the rest gives the totals of the whole list. */
  lemma SenderTotalsStep(data: seq<Record>, m: map<string, real>)
    requires data != [] && data[0].senderFullName.Some?
    requires TotalsBySender(data[1..], m)
    ensures var s := data[0].senderFullName.value;
            TotalsBySender(data, m[s := data[0].amount + (if s in m then m[s] else 0.0)])
  {
  }

  /** The sender of `data` with the largest total in `totals`. `Stream.max`
      keeps the first maximal entry in `HashMap` iteration order, which is not
      modelled; on a tie this picks the earlier record's sender instead. */
  function MaxSender(data: seq<Record>, totals: map<string, real>): (s: string)
    requires data != []
    requires forall i :: 0 <= i < |data| ==> data[i].senderFullName.Some? && data[i].senderFullName.value in totals
    ensures s in totals
    ensures exists i :: 0 <= i < |data| && data[i].senderFullName == Some(s)
    ensures forall i :: 0 <= i < |data| ==> totals[data[i].senderFullName.value] <= totals[s]
  {
    if |data| == 1 then data[0].senderFullName.value
    else
      assert forall i :: 0 < i < |data| ==> data[i] == data[1..][i - 1];
      var best := MaxSender(data[1..], totals);
      if totals[data[0].senderFullName.value] >= totals[best] then data[0].senderFullName.value else best
  }

  /** `getTopSender`: a sender whose total is at least every other sender's;
      empty when there are no records; fails on a missing sender. */
  function TopSender(data: seq<Record>): (r: Result<Option<string>, Error>)
    ensures r.Ok? <==> forall i :: 0 <= i < |data| ==> data[i].senderFullName.Some?
    ensures r.Err? ==> r.error == NullGroupingKey
    ensures r.Ok? ==> (r.value.None? <==> data == [])
    ensures r.Ok? && r.value.Some? ==>
              (exists i :: 0 <= i < |data| && data[i].senderFullName == r.value)
              && forall i :: 0 <= i < |data| ==>
                   TotalTransactionAmountSentBy(data, data[i].senderFullName.value)
                   <= TotalTransactionAmountSentBy(data, r.value.value)
  {
    match SenderTotals(data)
    case Err(e) => Err(e)
    case Ok(totals) =>
      if totals == map[] then
        Ok(None)
      else
        Ok(Some(MaxSender(data, totals)))
  }

  // ---------------------------------------------------------------- example

  /** Two records: A pays X 10 with a solved issue 1, B pays A 20 with the
      unsolved issue 2.0 stored as a Double. */
  function TwoRecords(): seq<Record>
  {
    [Record(10.0, Some("A"), Some("X"), IntId(1), Some(true), Some("ok")),
     Record(20.0, Some("B"), Some("A"), DblId(2.0), Some(false), None)]
  }

  lemma TwoRecordAmounts()
    ensures TotalTransactionAmount(TwoRecords()) == 30.0
    ensures TotalTransactionAmountSentBy(TwoRecords(), "A") == 10.0
    ensures MaxTransactionAmount(TwoRecords()) == 20.0
  {
  }

  lemma TwoRecordClients()
    ensures CountUniqueClients(TwoRecords()) == 3
  {
    var data := TwoRecords();
    var senders := set i | 0 <= i < |data| :: data[i].senderFullName;
    var beneficiaries := set i | 0 <= i < |data| :: data[i].beneficiaryFullName;
    assert senders == {Some("A"), Some("B")} by {
      assert data[0].senderFullName in senders && data[1].senderFullName in senders;
    }
    assert beneficiaries == {Some("X"), Some("A")} by {
      assert data[0].beneficiaryFullName in beneficiaries && data[1].beneficiaryFullName in beneficiaries;
    }
    assert "A" != "B" && "A" != "X" && "B" != "X" by {
      assert "A"[0] != "B"[0] && "A"[0] != "X"[0] && "B"[0] != "X"[0];
    }
    assert Clients(data) == {Some("A"), Some("B"), Some("X")};
  }

  lemma TwoRecordIssues()
    ensures HasOpenComplianceIssues(TwoRecords(), "A")
    ensures UnsolvedIssueIds(TwoRecords()) == Ok({2})
    ensures AllSolvedIssueMessages(TwoRecords()) == [Some("ok")]
  {
    var data := TwoRecords();
    assert data[1..] == [data[1]] && data[1..][1..] == [];
    assert Involves(data[1], "A") && !IssueSolved(data[1]);
    assert TruncateTowardZero(2.0) == 2;
    var open := data[1..];
    assert open[0] == data[1] && open[1..] == [];
    assert CoerceIssueId(open[0].issueId) == Ok(2);
    assert UnsolvedIssueIds(open[1..]) == Ok({});
    assert {2} + {} == {2};
    assert UnsolvedIssueIds(open) == Ok({2});
  }

  lemma TwoRecordTop3()
    ensures Top3TransactionsByAmount(TwoRecords()) == [TwoRecords()[1], TwoRecords()[0]]
  {
  }

  lemma TwoRecordTopSender()
    ensures TopSender(TwoRecords()) == Ok(Some("B"))
  {
  }
}
