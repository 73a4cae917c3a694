# TransactionDataFetcher in Dafny

A model of `com.smallworld.TransactionDataFetcher`, a read-only analytics
class over a list of transaction records loaded from a JSON file. The class
keeps the list in a single field that no method reassigns, and each of its
ten queries reads that list through one or two stream pipelines
(`countUniqueClients` runs two and joins them with `addAll`; `getTopSender`
groups, then takes the maximum over the groups). So every query is
modelled as a function of the record sequence `data`, and its contract says
what the answer means.

Files:

- `wrappers.dfy` (`Wrappers`): `Option` for a value that may be Java `null`,
  `Result` for a query that returns or throws.
- `transactions.dfy` (`Transactions`): the typed `Record` that replaces the
  dynamic `Map<String, Object>`, with the six fields the queries read; the
  `IssueId` sum type (an Integer, a Double, some other class, or null); the
  `Error` values for the exceptions the queries can throw; the filter
  predicates the pipelines use.
- `sequences.dfy` (`Sequences`): `Filter`, the meaning of
  `filter(...).collect(toList())`, with lemmas that it keeps input order
  (`Subsequence`), keeps every selected record as often as it occurs, and
  distributes over concatenation.
- `stable_sort.dfy` (`StableSort`): the sort by amount, largest first, that
  `Stream.sorted` performs. It is proved sorted, a permutation and stable.
- `transaction_data_fetcher.dfy` (`TransactionDataFetcher`): the ten queries,
  the lemmas about them, and a worked example with two records.

Amounts are `real`. Equal amounts compare equal, and sums are exact.

Four behaviours of the code worth noting:

- `countUniqueClients` collects the raw field values into a `HashSet`, which
  accepts `null`. A missing sender or beneficiary therefore counts as one
  extra client (`AbsentNameCountsAsOneClient`). It is not excluded.
- `getTopSender` groups by sender with `Collectors.groupingBy`, which throws
  on a `null` key. Any record without a sender makes the call fail. The
  result is empty only when there are no records at all.
- `getUnsolvedIssueIds` on a missing `issueId` throws a
  `NullPointerException` from `getClass()`, not the `IllegalStateException`
  for an invalid type. The model keeps the two apart (`NullIssueId` and
  `InvalidIssueIdType`).
- `getMaxTransactionAmount` returns 0 for an empty list, but a non-empty list
  can also give 0 (an amount of 0) or a negative maximum. The contract states
  "empty gives 0; otherwise the result is one of the amounts and no amount is
  larger".

## Model

| member | source | states |
|---|---|---|
| `TransactionDataFetcher.TotalTransactionAmount` | src/main/java/com/smallworld/TransactionDataFetcher.java:23-27 | the total of an empty list is 0; the total of non-negative amounts is non-negative |
| `TransactionDataFetcher.TotalAppend` | src/main/java/com/smallworld/TransactionDataFetcher.java:23-27 | the total of a concatenation is the sum of the two totals |
| `TransactionDataFetcher.TotalTransactionAmountSentBy` | src/main/java/com/smallworld/TransactionDataFetcher.java:32-37 | 0 when no record has the name as sender (a null sender never matches) |
| `TransactionDataFetcher.SentByIsTotalOfItsRecords` | src/main/java/com/smallworld/TransactionDataFetcher.java:32-37 | the amount sent by a name equals the total of exactly the records whose sender equals that name |
| `TransactionDataFetcher.SentByAndRestMakeTotal` | src/main/java/com/smallworld/TransactionDataFetcher.java:32-37 | the amount sent by one name plus the total of all other records is the overall total |
| `TransactionDataFetcher.MaxTransactionAmount` | src/main/java/com/smallworld/TransactionDataFetcher.java:42-47 | 0 for an empty list; otherwise at least every amount and equal to one of them |
| `TransactionDataFetcher.SenderSet` | src/main/java/com/smallworld/TransactionDataFetcher.java:53-55 | the collected set holds exactly the sender values that occur, absence included, and is no larger than the list |
| `TransactionDataFetcher.BeneficiarySet` | src/main/java/com/smallworld/TransactionDataFetcher.java:57-59 | the collected set holds exactly the beneficiary values that occur, absence included, and is no larger than the list |
| `TransactionDataFetcher.CountUniqueClients` | src/main/java/com/smallworld/TransactionDataFetcher.java:52-62 | the number of distinct values among all senders and beneficiaries; at most twice the number of records; at least 1 when there is a record |
| `TransactionDataFetcher.AbsentNameCountsAsOneClient` | src/main/java/com/smallworld/TransactionDataFetcher.java:53-61 | the count is the number of distinct names, plus exactly one when some sender or beneficiary is missing |
| `TransactionDataFetcher.HasOpenComplianceIssues` | src/main/java/com/smallworld/TransactionDataFetcher.java:68-73 | true iff some record with the customer as sender or beneficiary has `issueSolved` other than an explicit `true` |
| `TransactionDataFetcher.TransactionsByBeneficiaryName` | src/main/java/com/smallworld/TransactionDataFetcher.java:78-81 | fails with the null-key error iff some beneficiary is missing; otherwise the keys are exactly the beneficiary names, and each key maps to exactly the records addressed to it, in input order (`GroupsByBeneficiary`) |
| `TransactionDataFetcher.GroupStep` | src/main/java/com/smallworld/TransactionDataFetcher.java:80 | adding one record in front of a list extends the grouping of the rest to a grouping of the whole list |
| `TransactionDataFetcher.GroupsArePermutation` | src/main/java/com/smallworld/TransactionDataFetcher.java:78-81 | every record sits in its own beneficiary's group as often as it occurs in the input, and no group holds a record addressed to another name |
| `TransactionDataFetcher.TruncateTowardZero` | src/main/java/com/smallworld/TransactionDataFetcher.java:94 | the integer part of a Double: never further from zero than the value, and less than 1 away from it |
| `TransactionDataFetcher.CoerceIssueId` | src/main/java/com/smallworld/TransactionDataFetcher.java:90-99 | an Integer is kept, a Double is truncated, any other class fails with its class name, a null id fails with the null-pointer error |
| `TransactionDataFetcher.UnsolvedIssueIds` | src/main/java/com/smallworld/TransactionDataFetcher.java:86-102 | succeeds iff every record not explicitly solved has an Integer or Double id; then holds exactly the converted ids of those records; otherwise fails with the error of the first such record whose id is invalid |
| `TransactionDataFetcher.UnsolvedIgnoresSolvedIds` | src/main/java/com/smallworld/TransactionDataFetcher.java:87-89 | the ids of solved records are never read: changing them changes neither the result nor the failure |
| `TransactionDataFetcher.AllSolvedIssueMessages` | src/main/java/com/smallworld/TransactionDataFetcher.java:107-112 | one message per explicitly solved record, in input order, duplicates and missing messages kept |
| `Sequences.Filter` | src/main/java/com/smallworld/TransactionDataFetcher.java:108-111 | the selection is no longer than its input; with `FilterIsSubsequence` and `FilterCount` it is exactly the qualifying records in input order, the meaning of `filter(...).collect(toList())` (also :33-34, :87-88) |
| `Transactions.IssueSolved` | src/main/java/com/smallworld/TransactionDataFetcher.java:109 | a record is solved only when `issueSolved` is an explicit `true`; missing and `false` are open, as `Boolean.TRUE.equals` decides at :72, :88 and :109 |
| `Transactions.SentBy` | src/main/java/com/smallworld/TransactionDataFetcher.java:34 | the filter `senderName.equals(senderFullName)`: a record matches when its sender is the name; a null sender never matches |
| `Transactions.ReceivedBy` | src/main/java/com/smallworld/TransactionDataFetcher.java:80 | a record belongs to the group of a name when its beneficiary, the grouping key, equals that name |
| `TransactionDataFetcher.Involves` | src/main/java/com/smallworld/TransactionDataFetcher.java:70-71 | the customer is the record's sender or its beneficiary; a null name never matches |
| `TransactionDataFetcher.BadOpenIssue` | src/main/java/com/smallworld/TransactionDataFetcher.java:88-98 | an open record whose id is neither an Integer nor a Double: the records that make `getUnsolvedIssueIds` throw |
| `Sequences.FilterIsSubsequence` | src/main/java/com/smallworld/TransactionDataFetcher.java:108-111 | a filtered list keeps the input order |
| `Sequences.FilterCount` | src/main/java/com/smallworld/TransactionDataFetcher.java:108-111 | a filtered list holds each selected record as often as the input does, and no other record |
| `Sequences.FilterAppend` | src/main/java/com/smallworld/TransactionDataFetcher.java:108-111 | filtering a concatenation is the concatenation of the filtered parts |
| `Sequences.FilterNone` | src/main/java/com/smallworld/TransactionDataFetcher.java:108-111 | nothing is selected when no record qualifies |
| `StableSort.Insert` | src/main/java/com/smallworld/TransactionDataFetcher.java:119 | inserting into a list sorted by amount, largest first, keeps it sorted; its head is the new record or the old head |
| `StableSort.SortByAmountDesc` | src/main/java/com/smallworld/TransactionDataFetcher.java:118-119 | the sorted list has the input's length and is ordered by amount, largest first |
| `StableSort.InsertAddsOne` | src/main/java/com/smallworld/TransactionDataFetcher.java:119 | inserting adds exactly the one record to the multiset of records |
| `StableSort.SortIsPermutation` | src/main/java/com/smallworld/TransactionDataFetcher.java:118-119 | the sorted list is a permutation of the input |
| `StableSort.InsertStable` | src/main/java/com/smallworld/TransactionDataFetcher.java:119 | an inserted record goes in front of the records with the same amount |
| `StableSort.SortStable` | src/main/java/com/smallworld/TransactionDataFetcher.java:118-119 | the sort is stable: for every amount, the records with that amount keep their input order |
| `TransactionDataFetcher.Top3TransactionsByAmount` | src/main/java/com/smallworld/TransactionDataFetcher.java:117-122 | length min(3, n); amounts non-increasing; every element comes from the input (as a sub-multiset); no omitted record has a larger amount than the last one returned |
| `TransactionDataFetcher.Top3KeepsTiesInInputOrder` | src/main/java/com/smallworld/TransactionDataFetcher.java:118-121 | for every amount, the returned records with that amount are the first ones of the input with that amount, in input order |
| `TransactionDataFetcher.PrefixLeavesOutNothingLarger` | src/main/java/com/smallworld/TransactionDataFetcher.java:120 | a prefix of a sorted list is sorted, drawn from the list, and leaves out no record larger than its last one |
| `TransactionDataFetcher.SenderTotals` | src/main/java/com/smallworld/TransactionDataFetcher.java:128-132 | fails with the null-key error iff some sender is missing; otherwise maps exactly the sender names, each to the total amount it sent (`TotalsBySender`) |
| `TransactionDataFetcher.SenderTotalsStep` | src/main/java/com/smallworld/TransactionDataFetcher.java:129-131 | adding one record's amount to its sender's running sum extends the totals of the rest to the totals of the whole list |
| `TransactionDataFetcher.MaxSender` | src/main/java/com/smallworld/TransactionDataFetcher.java:134-136 | returns a sender of the list whose total is at least every sender's total |
| `TransactionDataFetcher.TopSender` | src/main/java/com/smallworld/TransactionDataFetcher.java:127-137 | fails iff some sender is missing; empty iff there are no records; otherwise a sender whose total sent amount is at least every other sender's |
| `TransactionDataFetcher.TwoRecordAmounts` | src/main/java/com/smallworld/TransactionDataFetcher.java:23-47 | on the two-record example: total 30, sent by A 10, maximum 20 |
| `TransactionDataFetcher.TwoRecordClients` | src/main/java/com/smallworld/TransactionDataFetcher.java:52-62 | on the two-record example: three clients, A, B and X |
| `TransactionDataFetcher.TwoRecordIssues` | src/main/java/com/smallworld/TransactionDataFetcher.java:68-112 | on the two-record example: A has an open issue, the unsolved ids are {2} (from the Double 2.0), the solved messages are ["ok"] |
| `TransactionDataFetcher.TwoRecordTop3` | src/main/java/com/smallworld/TransactionDataFetcher.java:117-122 | on the two-record example: the top list is the 20 record, then the 10 record |
| `TransactionDataFetcher.TwoRecordTopSender` | src/main/java/com/smallworld/TransactionDataFetcher.java:127-137 | on the two-record example: the top sender is B |

## Left out

- `main` (src/main/java/com/smallworld/TransactionDataFetcher.java:139-160): it reads `transactions.json`, deserialises it with Gson and prints each query's result. File I/O, the JSON library and console output are not modelled; the record sequence is the input.
- The constructor only stores the list; the field becomes the `data` parameter of every query.
- IEEE-754 arithmetic: amounts are exact reals, so `DoubleStream.sum`'s compensated summation, rounding, NaN and the ordering of -0.0 in `Double.compare` are not modelled.
- `TruncateTowardZero`: does not model `Double.intValue`'s saturation at the 32-bit bounds or NaN giving 0, because doubles are modelled as reals; only the in-range truncation toward zero is.
- `CoerceIssueId`: does not model 32-bit `Integer` bounds, because ids are unbounded integers.
- Hash order: the key order of the grouping map is not modelled (a Dafny `map` has none). `MaxSender` keeps the first maximal sender in input order, where Java keeps the first in `HashMap` iteration order; `TopSender`'s contract therefore promises only some maximal sender.
- Dynamic typing failures: a `ClassCastException` for a non-Double `amount`, a non-String name or a non-String `issueMessage` (:110) cannot arise with a typed record.
- Null `amount`: the `(double)` unboxing at src/main/java/com/smallworld/TransactionDataFetcher.java:25, :35, :44, :119 and :131 throws a `NullPointerException` on a missing amount (at :35 only for the named sender's records, at :119 only when the comparator runs). `Record.amount` is a plain `real`, so the model assumes every record has an amount and does not capture this failure.
- Null arguments: a null `senderName` (:34) or `customerName` (:70) throws a `NullPointerException` on a non-empty list. The name parameters are `string`, which cannot be null, so this failure is not captured.
- Laziness of streams: every query runs its pipeline to the end, to the first match (`anyMatch` at src/main/java/com/smallworld/TransactionDataFetcher.java:72), or to the first exception; the model computes the same value or the same error.
