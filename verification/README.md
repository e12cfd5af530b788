# Tari signer bridge and transaction finality poller, in Dafny

This project models two small pieces of the tari.js client libraries.

- **The Tari Universe signer** (`packages/tari_universe/src/signer.ts`). An
  embedded application asks a host wallet for operations. Each public method
  packages its own method name and its arguments, in declared order, into a
  request. The request gets the next identifier from a counter owned by the
  signer instance, and is handed to the transport. The constructor also
  installs a window-message filter that turns `{type: "resize", width, height}`
  messages into resize events.
- **Submitting and waiting for a transaction**
  (`packages/builders/src/helpers/submitTransaction.ts`).
  `waitForTransactionResult` polls `getTransactionResult` until the
  transaction is settled. It fails on a rejected status or a missing result
  body, and otherwise waits 500 ms between polls.
  `submitAndWaitForTransaction` submits, waits on the returned id, and
  rethrows any error wrapped once. `getAcceptResultSubstates` projects a
  transaction result onto its up and down substates.

Modules:

- `Values` (`values.dfy`): `Option`, `Result`, the settlement of an awaited
  call (`Reply`: answered, or rejected with a reason), and JavaScript values
  (`JsValue`) with truthiness and property access.
- `Signer` (`signer.dfy`): the signer as an immutable record whose `lastId`
  is the private counter. Every public method is a function from a signer to
  the next signer and the call it sent (`Sent`). `Decode` reads a request back
  the way the host would: the method name selects the operation and the
  arguments are read by position. It is the reference definition that each
  method's contract is stated against.
- `TransactionTypes` (`transaction_types.dfy`): the status enumeration, the
  poll response, and the transaction result union. The union is a record of
  optional variant keys, because the projection tests the keys with `in`, one
  after another, in a fixed order.
- `SubmitTransaction` (`submit_transaction.dfy`): the per-poll decision
  `Decide`, the polling loop as recursion over the finite sequence of poll
  answers (`WaitForTransactionResult`), the same loop as a `while`
  (`WaitLoop`), `SubmitAndWaitForTransaction`, and
  `GetAcceptResultSubstates`.

Outside parties are inputs. The answer of `submitTransaction` and the answers
of the successive `getTransactionResult` polls are parameters.
`SimpleTransactionResult.fromResponse` is a function parameter. The delay
between polls is a `Sleep(500)` event in a trace, next to one `PollCall`
event per poll. When the given answers run out while the loop is still
waiting, the outcome is `StillPolling`.

## Model

| member | source | states |
|---|---|---|
| `Signer.NewSigner` | packages/tari_universe/src/signer.ts:29-30 | a new signer is named "TariUniverse" and its counter starts at 0 |
| `Signer.SendRequest` | packages/tari_universe/src/signer.ts:44-49 | the counter is pre-incremented: the request goes out unchanged under an id one above the last one, the counter becomes that id, and nothing else about the signer changes |
| `Signer.IsConnected` | packages/tari_universe/src/signer.ts:51-53 | always true; it is pure, so no state changes |
| `Signer.GetPublicKey` | packages/tari_universe/src/signer.ts:55-57 | allocates exactly one id; sends method "getPublicKey" with an empty argument list, which decodes back to this operation |
| `Signer.ListSubstates` | packages/tari_universe/src/signer.ts:59-69 | allocates exactly one id; sends "listSubstates", and the host reads back template filter, type filter, limit and offset in that order, nulls included |
| `Signer.GetConfidentialVaultBalances` | packages/tari_universe/src/signer.ts:71-81 | allocates exactly one id; sends "getConfidentialVaultBalances", and the host reads back viewKeyId, vaultId, min and max in that order |
| `Signer.CreateFreeTestCoins` | packages/tari_universe/src/signer.ts:83-85 | allocates exactly one id; sends "createFreeTestCoins" with no arguments |
| `Signer.RequestParentSize` | packages/tari_universe/src/signer.ts:87-89 | allocates exactly one id; sends "requestParentSize" with no arguments |
| `Signer.GetAccount` | packages/tari_universe/src/signer.ts:91-93 | allocates exactly one id; sends "getAccount" with no arguments |
| `Signer.GetAccountBalances` | packages/tari_universe/src/signer.ts:95-100 | allocates exactly one id; sends "getAccountBalances" with exactly the one-element list holding the component address |
| `Signer.GetSubstate` | packages/tari_universe/src/signer.ts:102-107 | allocates exactly one id; sends "getSubstate" with exactly the one-element list holding the substate id |
| `Signer.SubmitTransaction` | packages/tari_universe/src/signer.ts:109-114 | allocates exactly one id; sends "submitTransaction" with exactly the one-element list holding the request |
| `Signer.GetTransactionResult` | packages/tari_universe/src/signer.ts:116-121 | allocates exactly one id; sends "getTransactionResult" with exactly the one-element list holding the transaction id |
| `Signer.GetTemplateDefinition` | packages/tari_universe/src/signer.ts:123-125 | allocates exactly one id; sends "getTemplateDefinition" with exactly the one-element list holding the template address |
| `Signer.GetNftsList` | packages/tari_universe/src/signer.ts:127-129 | allocates exactly one id; sends "getNftsList" with exactly the one-element list holding the request |
| `Signer.GetNftsFromAccountBalances` | packages/tari_universe/src/signer.ts:131-133 | allocates exactly one id; sends "getNftsFromAccountBalances" with exactly the one-element list holding the request |
| `Signer.Invoke` | packages/tari_universe/src/signer.ts:55-133 | for every operation and every argument value, the request sent decodes back to that same operation with the same arguments, and exactly one id is allocated |
| `Signer.DistinctInvocationsDistinctRequests` | packages/tari_universe/src/signer.ts:55-133 | two different operations, or one operation with different arguments, never produce the same request |
| `Signer.IssueAll` | packages/tari_universe/src/signer.ts:47 | issuing n requests in a row raises the counter by exactly n; the j-th request gets id lastId+j+1 and carries the j-th operation |
| `Signer.IssuedIdsStrictlyIncrease` | packages/tari_universe/src/signer.ts:30-47 | the ids one signer issues are strictly increasing in issue order, pairwise distinct, and above every id issued earlier |
| `Signer.FreshSignerIdsStartAtOne` | packages/tari_universe/src/signer.ts:30-47 | on a fresh signer the first request gets id 1 and the n-th gets id n |
| `Signer.FilterResizeEvent` | packages/tari_universe/src/signer.ts:33-39 | an event is produced exactly when the message data is an object whose `type` is the string "resize"; it carries the data's width and height unchanged, absent ones as undefined |
| `Signer.ResizeMessageRoundTrip` | packages/tari_universe/src/signer.ts:33-39 | a resize message of a given width and height passes the filter with that width and height |
| `Signer.ResponseEnvelopeIsNotResize` | packages/tari_universe/src/signer.ts:33-39 | a response envelope `{id, result, error}` never produces a resize event |
| `SubmitTransaction.FinalizedStatusesAreAllButPending` | packages/builders/src/helpers/submitTransaction.ts:42-48 | the finalized list holds every status except New and Pending |
| `SubmitTransaction.Decide` | packages/builders/src/helpers/submitTransaction.ts:41-63 | a rejected status throws "rejected" with the payload, whatever else the response holds; otherwise a missing result body throws "result undefined", even for a pending status; a present body finishes exactly for Accepted, InvalidTransaction, OnlyFeeAccepted and DryRun, and waits exactly for New and Pending; the "BUG: result is empty" error is never produced; a failed poll call throws its reason |
| `SubmitTransaction.WaitForTransactionResult` | packages/builders/src/helpers/submitTransaction.ts:36-65 | the trace alternates a poll of the given id with a 500 ms delay, starting with a poll; a loop still polling has used every answer with one delay each; a loop that stopped ended on a poll with no delay after it |
| `SubmitTransaction.StopsAtFirstStop` | packages/builders/src/helpers/submitTransaction.ts:40-64 | if the first answer that does not wait is at index k, the loop makes k+1 polls and k delays, then throws that poll's error or returns `fromResponse` of that response |
| `SubmitTransaction.KeepsPollingWhilePending` | packages/builders/src/helpers/submitTransaction.ts:56-63 | while every answer is pending with a body, the loop polls and sleeps once per answer and keeps polling |
| `SubmitTransaction.PendingPendingAccepted` | packages/builders/src/helpers/submitTransaction.ts:40-64 | answers Pending, Pending, Accepted give three polls, two delays, and the accepted response |
| `SubmitTransaction.IgnoresAnswersAfterStop` | packages/builders/src/helpers/submitTransaction.ts:50-61 | answers after the first one that stops the loop are never consulted |
| `SubmitTransaction.WaitLoop` | packages/builders/src/helpers/submitTransaction.ts:40-64 | the `while` loop computes the same outcome and trace as the recursive definition |
| `SubmitTransaction.SubmitAndWaitForTransaction` | packages/builders/src/helpers/submitTransaction.ts:24-34 | the submit call comes first; a failed submit throws one wrapped error and polls nothing; otherwise it polls the returned transaction id, returns the poller's result unchanged, and wraps any poller error exactly once |
| `SubmitTransaction.GetAcceptResultSubstates` | packages/builders/src/helpers/submitTransaction.ts:68-91 | a Reject key fails first, whatever other keys are present; then Accept gives its up and down substates; then AcceptFeeRejectRest gives those of its element 0; it succeeds exactly when there is no Reject key and one of the accept keys is present, and fails as unexpected exactly when no variant key is present |
| `SubmitTransaction.ProjectionOfVariants` | packages/builders/src/helpers/submitTransaction.ts:72-88 | for a diff with substates U and D, `Accept` and `AcceptFeeRejectRest` both project to exactly (U, D), and `Reject` fails with its reason |
| `SubmitTransaction.VariantsAreExpected` | packages/builders/src/helpers/submitTransaction.ts:72-90 | none of the three declared variants falls through to the unexpected-result error |

## Left out

- The transport behind `sendSignerCall` and its pending-call table live in a file that is not part of this model. The signer model ends at the call it hands over (request plus id). Response matching and settlement are not modelled.
- Registering the window listener, building the `CustomEvent` and dispatching it are DOM plumbing. Only the filter's decision and the event's detail are modelled.
- Promises, `await` and `setTimeout` are not modelled. The delay is a `Sleep(500)` trace event, and call answers are given as inputs.
- `SimpleTransactionResult.fromResponse` comes from an external package. It is a function parameter, and an error it might throw is not modelled.
- Errors are tags of `TransactionError`. Message text and `JSON.stringify` formatting are not modelled.
- The polling loop has no bound in the source. The model runs it over a finite sequence of answers and reports `StillPolling` when they run out.
- The `TransactionStatus` enumeration is external. The model assumes the members New, DryRun, Pending, Accepted, Rejected, InvalidTransaction and OnlyFeeAccepted.
- Substate, diff and request types are external bindings. Only the fields the code reads are kept; other values are opaque `JsValue`s.
- JavaScript numbers are modelled as integers, so floating point and NaN are not modelled.
- `buildTransactionRequest` (submitTransaction.ts:12-22) only copies its arguments into a record, with the flag defaulting to true. It is not modelled.
- `signerName` and `params` are carried unchanged, and nothing reads them.
