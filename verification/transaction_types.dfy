/** The transaction types the finality poller reads: the status enumeration,
    the poll response, and the tagged union of transaction results. They
    belong to the typed bindings of the wallet; only the fields the poller
    and the projection inspect are kept. */
module TransactionTypes {
  import opened Values

  /** Status of a submitted transaction as reported by the wallet. */
  datatype TransactionStatus =
    | New
    | DryRun
    | Pending
    | Accepted
    | Rejected
    | InvalidTransaction
    | OnlyFeeAccepted

  type SubstateId = string

  datatype Substate = Substate(version: nat, value: JsValue)

  /** Substates produced (up) and consumed (down, with their version) by a transaction. */
  datatype SubstateDiff = SubstateDiff(upSubstates: seq<(SubstateId, Substate)>, downSubstates: seq<(SubstateId, nat)>)

  /** A transaction result object, seen as the set of variant keys it holds.
      The declared union `{Accept} | {AcceptFeeRejectRest: [diff, reason]} |
      {Reject}` has exactly one key; the projection tests keys one at a time,
      so an object holding none, or several, is representable too. */
  datatype TransactionResult = TransactionResult(
    accept: Option<SubstateDiff>,
    acceptFeeRejectRest: Option<(SubstateDiff, JsValue)>,
    reject: Option<JsValue>)

  function Accept(diff: SubstateDiff): TransactionResult {
    TransactionResult(Some(diff), None, None)
  }

  function AcceptFeeRejectRest(diff: SubstateDiff, reason: JsValue): TransactionResult {
    TransactionResult(None, Some((diff, reason)), None)
  }

  function Reject(reason: JsValue): TransactionResult {
    TransactionResult(None, None, Some(reason))
  }

  /** The result is one of the three declared variants. */
  predicate IsVariant(t: TransactionResult) {
    match t
    case TransactionResult(Some(_), None, None) => true
    case TransactionResult(None, Some(_), None) => true
    case TransactionResult(None, None, Some(_)) => true
    case _ => false
  }

  /** The finalize result body of a poll response; its `result` field may be missing. */
  datatype FinalizeResult = FinalizeResult(transactionHash: string, result: Option<TransactionResult>)

  /** One answer of `getTransactionResult`: its `result` body may be null. */
  datatype GetTransactionResultResponse = GetTransactionResultResponse(
    transactionId: string,
    status: TransactionStatus,
    result: Option<FinalizeResult>)

  datatype SubmitTransactionRequest = SubmitTransactionRequest(
    transaction: JsValue,
    accountId: int,
    detectInputsUseUnversioned: bool)

  datatype SubmitTransactionResponse = SubmitTransactionResponse(transactionId: string)
}
