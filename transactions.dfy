/** The transaction record read from the input file, with the six fields the
    queries look at. For the name, message and `issueSolved` fields a missing
    JSON key or a JSON null becomes `None`; `amount` is always present. */
module Transactions {
  import opened Wrappers

  /** The dynamic type the deserialised `issueId` value can have. */
  datatype IssueId =
    | IntId(i: int)                 // a java.lang.Integer
    | DblId(d: real)                // a java.lang.Double
    | OtherId(className: string)    // any other class, named by its class name
    | NoId                          // the key is missing or null

  datatype Record = Record(
    amount: real,
    senderFullName: Option<string>,
    beneficiaryFullName: Option<string>,
    issueId: IssueId,
    issueSolved: Option<bool>,
    issueMessage: Option<string>)

  /** Why a query throws instead of returning. */
  datatype Error =
    | NullGroupingKey                       // Collectors.groupingBy met a null key
    | InvalidIssueIdType(className: string) // the IllegalStateException for a non-numeric issueId
    | NullIssueId                           // getClass() called on a null issueId

  /** `Boolean.TRUE.equals(issueSolved)`: only an explicit `true` is solved. */
  predicate IssueSolved(t: Record)
  {
    t.issueSolved == Some(true)
  }

  /** The filter `senderName.equals(senderFullName)`; a null sender never matches. */
  function SentBy(name: string): Record -> bool
  {
    (t: Record) => t.senderFullName == Some(name)
  }

  /** The complement of `SentBy(name)`. */
  function NotSentBy(name: string): Record -> bool
  {
    (t: Record) => t.senderFullName != Some(name)
  }

  /** The grouping key `beneficiaryFullName` equals `name`. */
  function ReceivedBy(name: string): Record -> bool
  {
    (t: Record) => t.beneficiaryFullName == Some(name)
  }

  function AmountIs(a: real): Record -> bool
  {
    (t: Record) => t.amount == a
  }
}
