/** Submitting a transaction and waiting for its finality: the per-poll
    decision, the polling loop, the error wrapping of the submit-and-wait
    helper, and the projection of a transaction result onto its substate
    changes.

    The signer is an outside party: what `submitTransaction` answers and what
    the successive `getTransactionResult` polls answer are inputs. The
    conversion of the final response into a simple transaction result belongs
    to the type library and is passed in as `fromResponse`. */
module SubmitTransaction {
  import opened Values
  import opened TransactionTypes

  /** The errors these helpers throw, one tag per `throw` site. */
  datatype TransactionError =
    | SignerCallFailed(reason: JsValue)
    | TransactionRejected(payload: Option<FinalizeResult>)
    | ResultUndefined
    | EmptyResult(transactionId: string)
    | TransactionFailed(cause: TransactionError)
    | ResultRejected(reason: JsValue)
    | UnexpectedTransactionResult(result: TransactionResult)

  /** The statuses the poller lists as finalized (Rejected among them). */
  const FinalizedStatuses: seq<TransactionStatus> := [Accepted, Rejected, InvalidTransaction, OnlyFeeAccepted, DryRun]

  /** The delay between two polls of a pending transaction. */
  const PollDelay: nat := 500

  lemma FinalizedStatusesAreAllButPending(status: TransactionStatus)
    ensures status in FinalizedStatuses <==> status !in {New, Pending}
  {
  }

  /** What one poll decides: throw, return the response, or wait and poll again. */
  datatype PollStep = Throw(error: TransactionError) | Finish | Wait

  /** `resp.result?.result` is present. */
  predicate HasResultBody(resp: GetTransactionResultResponse) {
    resp.result.Some? && resp.result.value.result.Some?
  }

  /** The statuses after which the transaction no longer changes, other than Rejected. */
  predicate IsSettledStatus(status: TransactionStatus) {
    status !in {New, Pending, Rejected}
  }

  /** One iteration of the polling loop, given what the poll answered. The
      checks run in source order: rejected status, missing result body,
      finalized status (with the inner empty-result check), otherwise wait. */
  function Decide(transactionId: string, reply: Reply<GetTransactionResultResponse>): (r: PollStep)
    ensures reply.CallRejected? ==> r == Throw(SignerCallFailed(reply.reason))
    ensures reply.Answered? && reply.value.status == Rejected ==>
              r == Throw(TransactionRejected(reply.value.result))
    ensures reply.Answered? && reply.value.status != Rejected && !HasResultBody(reply.value) ==>
              r == Throw(ResultUndefined)
    ensures r == Finish <==> reply.Answered? && HasResultBody(reply.value) && IsSettledStatus(reply.value.status)
    ensures r == Wait <==> reply.Answered? && HasResultBody(reply.value) && reply.value.status in {New, Pending}
    ensures r != Throw(EmptyResult(transactionId))
    ensures r.Throw? ==> !r.error.TransactionFailed?
  {
    match reply
    case CallRejected(reason) => Throw(SignerCallFailed(reason))
    case Answered(resp) =>
      FinalizedStatusesAreAllButPending(resp.status);
      if resp.status == Rejected then Throw(TransactionRejected(resp.result))
      else if !HasResultBody(resp) then Throw(ResultUndefined)
      else if resp.status in FinalizedStatuses then
        if resp.result.None? then Throw(EmptyResult(transactionId))
        else Finish
      else Wait
  }

  /** Calls made and delays taken, in order. */
  datatype Event =
    | SubmitCall(request: SubmitTransactionRequest)
    | PollCall(transactionId: string)
    | Sleep(ms: nat)

  /** How an awaited helper has settled once the given answers are used up:
      resolved, thrown, or still waiting on a poll. */
  datatype Outcome<R> = Resolved(value: R) | Thrown(error: TransactionError) | StillPolling

  datatype Run<R> = Run(outcome: Outcome<R>, trace: seq<Event>)

  /** `n` polls that each decided to wait, with their delays. */
  function WaitingTrace(transactionId: string, n: nat): (t: seq<Event>)
    decreases n
  {
    if n == 0 then [] else [PollCall(transactionId), Sleep(PollDelay)] + WaitingTrace(transactionId, n - 1)
  }

  function Polls(t: seq<Event>): nat {
    if |t| == 0 then 0 else (if t[0].PollCall? then 1 else 0) + Polls(t[1..])
  }

  function Sleeps(t: seq<Event>): nat {
    if |t| == 0 then 0 else (if t[0].Sleep? then 1 else 0) + Sleeps(t[1..])
  }

  /** The trace alternates polls of `transactionId` with delays of `PollDelay`, starting with a poll. */
  ghost predicate Alternates(transactionId: string, t: seq<Event>) {
    forall i :: 0 <= i < |t| ==> t[i] == (if i % 2 == 0 then PollCall(transactionId) else Sleep(PollDelay))
  }

  /** The polling loop of `waitForTransactionResult`, with `replies` the
      answers of the successive polls. Once the answers run out while the
      loop still waits, it is still polling. */
  function WaitForTransactionResult<R>(
    transactionId: string,
    replies: seq<Reply<GetTransactionResultResponse>>,
    fromResponse: GetTransactionResultResponse -> R): (r: Run<R>)
    ensures Alternates(transactionId, r.trace)
    ensures r.outcome.StillPolling? ==> |r.trace| == 2 * |replies|
    ensures !r.outcome.StillPolling? ==> |r.trace| % 2 == 1 && |r.trace| < 2 * |replies|
    ensures r.outcome.Thrown? ==> !r.outcome.error.TransactionFailed?
    decreases |replies|
  {
    if |replies| == 0 then Run(StillPolling, [])
    else
      match Decide(transactionId, replies[0])
      case Throw(e) => Run(Thrown(e), [PollCall(transactionId)])
      case Finish => Run(Resolved(fromResponse(replies[0].value)), [PollCall(transactionId)])
      case Wait =>
        var rest := WaitForTransactionResult(transactionId, replies[1..], fromResponse);
        Run(rest.outcome, [PollCall(transactionId), Sleep(PollDelay)] + rest.trace)
  }

  /** Index `k` is the first poll that does not wait. */
  ghost predicate FirstStop(transactionId: string, replies: seq<Reply<GetTransactionResultResponse>>, k: nat) {
    && k < |replies|
    && Decide(transactionId, replies[k]) != Wait
    && forall j :: 0 <= j < k ==> Decide(transactionId, replies[j]) == Wait
  }

  lemma {:induction false} CountsAppend(a: seq<Event>, b: seq<Event>)
    ensures Polls(a + b) == Polls(a) + Polls(b)
    ensures Sleeps(a + b) == Sleeps(a) + Sleeps(b)
    decreases |a|
  {
    if |a| > 0 {
      assert (a + b)[1..] == a[1..] + b;
      CountsAppend(a[1..], b);
    } else {
      assert a + b == b;
    }
  }

  lemma {:induction false} WaitingTraceCounts(transactionId: string, n: nat)
    ensures Polls(WaitingTrace(transactionId, n)) == n
    ensures Sleeps(WaitingTrace(transactionId, n)) == n
    decreases n
  {
    if n > 0 {
      WaitingTraceCounts(transactionId, n - 1);
      CountsAppend([PollCall(transactionId), Sleep(PollDelay)], WaitingTrace(transactionId, n - 1));
    }
  }

  /** The loop stops at the first poll that is rejected, lacks its result or
      is settled: with that poll at index k it makes k+1 polls and k delays,
      throws that poll's error or returns `fromResponse` of that response. */
  lemma {:induction false} StopsAtFirstStop<R>(
    transactionId: string,
    replies: seq<Reply<GetTransactionResultResponse>>,
    fromResponse: GetTransactionResultResponse -> R,
    k: nat)
    requires FirstStop(transactionId, replies, k)
    ensures var run := WaitForTransactionResult(transactionId, replies, fromResponse);
      && run.trace == WaitingTrace(transactionId, k) + [PollCall(transactionId)]
      && Polls(run.trace) == k + 1
      && Sleeps(run.trace) == k
      && (Decide(transactionId, replies[k]).Throw? ==>
            run.outcome == Thrown(Decide(transactionId, replies[k]).error))
      && (Decide(transactionId, replies[k]) == Finish ==>
            replies[k].Answered? && run.outcome == Resolved(fromResponse(replies[k].value)))
    decreases k
  {
    var run := WaitForTransactionResult(transactionId, replies, fromResponse);
    if k > 0 {
      assert Decide(transactionId, replies[0]) == Wait;
      assert FirstStop(transactionId, replies[1..], k - 1) by {
        forall j | 0 <= j < k - 1
          ensures Decide(transactionId, replies[1..][j]) == Wait
        {
          assert replies[1..][j] == replies[j + 1];
        }
      }
      StopsAtFirstStop(transactionId, replies[1..], fromResponse, k - 1);
    }
    WaitingTraceCounts(transactionId, k);
    CountsAppend(WaitingTrace(transactionId, k), [PollCall(transactionId)]);
  }

  /** While every answer says wait, the loop polls once and sleeps once per
      answer and is still polling when they run out. */
  lemma {:induction false} KeepsPollingWhilePending<R>(
    transactionId: string,
    replies: seq<Reply<GetTransactionResultResponse>>,
    fromResponse: GetTransactionResultResponse -> R)
    requires forall j :: 0 <= j < |replies| ==> Decide(transactionId, replies[j]) == Wait
    ensures var run := WaitForTransactionResult(transactionId, replies, fromResponse);
      && run.outcome == StillPolling
      && run.trace == WaitingTrace(transactionId, |replies|)
      && Polls(run.trace) == |replies| && Sleeps(run.trace) == |replies|
    decreases |replies|
  {
    if |replies| > 0 {
      assert Decide(transactionId, replies[0]) == Wait;
      forall j | 0 <= j < |replies| - 1
        ensures Decide(transactionId, replies[1..][j]) == Wait
      {
        assert replies[1..][j] == replies[j + 1];
      }
      KeepsPollingWhilePending(transactionId, replies[1..], fromResponse);
    }
    WaitingTraceCounts(transactionId, |replies|);
  }

  /** Two pending polls then an accepted one: three polls, two delays, and
      the accepted response is returned. */
  lemma PendingPendingAccepted<R>(
    transactionId: string,
    body: FinalizeResult,
    fromResponse: GetTransactionResultResponse -> R)
    requires body.result.Some?
    ensures var pending := Answered(GetTransactionResultResponse(transactionId, Pending, Some(body)));
      var accepted := GetTransactionResultResponse(transactionId, Accepted, Some(body));
      var run := WaitForTransactionResult(transactionId, [pending, pending, Answered(accepted)], fromResponse);
      && run.outcome == Resolved(fromResponse(accepted))
      && Polls(run.trace) == 3 && Sleeps(run.trace) == 2
  {
    var pending := Answered(GetTransactionResultResponse(transactionId, Pending, Some(body)));
    var accepted := GetTransactionResultResponse(transactionId, Accepted, Some(body));
    var replies := [pending, pending, Answered(accepted)];
    assert FirstStop(transactionId, replies, 2);
    StopsAtFirstStop(transactionId, replies, fromResponse, 2);
  }

  /** Answers after the first stop are never consulted. */
  lemma {:induction false} IgnoresAnswersAfterStop<R>(
    transactionId: string,
    replies: seq<Reply<GetTransactionResultResponse>>,
    later: seq<Reply<GetTransactionResultResponse>>,
    fromResponse: GetTransactionResultResponse -> R,
    k: nat)
    requires FirstStop(transactionId, replies, k)
    ensures WaitForTransactionResult(transactionId, replies + later, fromResponse)
         == WaitForTransactionResult(transactionId, replies[..k + 1], fromResponse)
    decreases k
  {
    if k > 0 {
      assert Decide(transactionId, replies[0]) == Wait;
      assert (replies + later)[1..] == replies[1..] + later;
      assert replies[..k + 1][1..] == replies[1..][..k];
      assert FirstStop(transactionId, replies[1..], k - 1) by {
        forall j | 0 <= j < k - 1
          ensures Decide(transactionId, replies[1..][j]) == Wait
        {
          assert replies[1..][j] == replies[j + 1];
        }
      }
      IgnoresAnswersAfterStop(transactionId, replies[1..], later, fromResponse, k - 1);
    }
  }

  /** The same loop as an iteration, in the shape of the source's `while (true)`. */
  method WaitLoop<R>(
    transactionId: string,
    replies: seq<Reply<GetTransactionResultResponse>>,
    fromResponse: GetTransactionResultResponse -> R)
    returns (outcome: Outcome<R>, trace: seq<Event>)
    ensures Run(outcome, trace) == WaitForTransactionResult(transactionId, replies, fromResponse)
  {
    var i := 0;
    trace := [];
    while i < |replies|
      invariant 0 <= i <= |replies|
      invariant trace == WaitingTrace(transactionId, i)
      invariant forall j :: 0 <= j < i ==> Decide(transactionId, replies[j]) == Wait
      decreases |replies| - i
    {
      var reply := replies[i];
      var step := Decide(transactionId, reply);
      if step.Throw? || step.Finish? {
        StopsAtFirstStop(transactionId, replies, fromResponse, i);
        outcome := if step.Throw? then Thrown(step.error) else Resolved(fromResponse(reply.value));
        trace := trace + [PollCall(transactionId)];
        return;
      }
      WaitingTraceSnoc(transactionId, i);
      trace := trace + [PollCall(transactionId), Sleep(PollDelay)];
      i := i + 1;
    }
    KeepsPollingWhilePending(transactionId, replies, fromResponse);
    outcome := StillPolling;
  }

  lemma {:induction false} WaitingTraceSnoc(transactionId: string, n: nat)
    ensures WaitingTrace(transactionId, n + 1) == WaitingTrace(transactionId, n) + [PollCall(transactionId), Sleep(PollDelay)]
    decreases n
  {
    if n > 0 {
      WaitingTraceSnoc(transactionId, n - 1);
    }
  }

  /** `submitAndWaitForTransaction`: submit, then wait on the returned
      transaction id; any error from either step is rethrown wrapped once as
      a transaction failure. */
  function SubmitAndWaitForTransaction<R>(
    req: SubmitTransactionRequest,
    submitted: Reply<SubmitTransactionResponse>,
    replies: seq<Reply<GetTransactionResultResponse>>,
    fromResponse: GetTransactionResultResponse -> R): (r: Run<R>)
    ensures |r.trace| > 0 && r.trace[0] == SubmitCall(req)
    ensures submitted.CallRejected? ==>
              r == Run(Thrown(TransactionFailed(SignerCallFailed(submitted.reason))), [SubmitCall(req)])
    ensures submitted.Answered? ==>
              var polled := WaitForTransactionResult(submitted.value.transactionId, replies, fromResponse);
              && r.trace == [SubmitCall(req)] + polled.trace
              && (polled.outcome.Resolved? ==> r.outcome == polled.outcome)
              && (polled.outcome.Thrown? ==> r.outcome == Thrown(TransactionFailed(polled.outcome.error)))
              && (polled.outcome.StillPolling? ==> r.outcome.StillPolling?)
    ensures r.outcome.Thrown? ==> r.outcome.error.TransactionFailed? && !r.outcome.error.cause.TransactionFailed?
  {
    match submitted
    case CallRejected(reason) => Run(Thrown(TransactionFailed(SignerCallFailed(reason))), [SubmitCall(req)])
    case Answered(response) =>
      var polled := WaitForTransactionResult(response.transactionId, replies, fromResponse);
      var outcome := match polled.outcome
        case Thrown(e) => Thrown(TransactionFailed(e))
        case other => other;
      Run(outcome, [SubmitCall(req)] + polled.trace)
  }

  /** The substate changes of an accepted transaction. */
  datatype AcceptedSubstates = AcceptedSubstates(
    upSubstates: seq<(SubstateId, Substate)>,
    downSubstates: seq<(SubstateId, nat)>)

  /** `getAcceptResultSubstates`: the variant keys are tested in the order
      Reject, Accept, AcceptFeeRejectRest. */
  function GetAcceptResultSubstates(txResult: TransactionResult): (r: Result<AcceptedSubstates, TransactionError>)
    ensures txResult.reject.Some? ==> r == Err(ResultRejected(txResult.reject.value))
    ensures txResult.reject.None? && txResult.accept.Some? ==>
              r == Ok(AcceptedSubstates(txResult.accept.value.upSubstates, txResult.accept.value.downSubstates))
    ensures txResult.reject.None? && txResult.accept.None? && txResult.acceptFeeRejectRest.Some? ==>
              var diff := txResult.acceptFeeRejectRest.value.0;
              r == Ok(AcceptedSubstates(diff.upSubstates, diff.downSubstates))
    ensures r.Ok? <==> txResult.reject.None? && (txResult.accept.Some? || txResult.acceptFeeRejectRest.Some?)
    ensures r == Err(UnexpectedTransactionResult(txResult)) <==> txResult == TransactionResult(None, None, None)
  {
    if txResult.reject.Some? then Err(ResultRejected(txResult.reject.value))
    else if txResult.accept.Some? then
      Ok(AcceptedSubstates(txResult.accept.value.upSubstates, txResult.accept.value.downSubstates))
    else if txResult.acceptFeeRejectRest.Some? then
      var diff := txResult.acceptFeeRejectRest.value.0;
      Ok(AcceptedSubstates(diff.upSubstates, diff.downSubstates))
    else Err(UnexpectedTransactionResult(txResult))
  }

  /** Projection of each declared variant: Accept and AcceptFeeRejectRest give
      back exactly their diff's up and down substates, Reject fails; none of
      them is an unexpected shape. */
  lemma ProjectionOfVariants(diff: SubstateDiff, reason: JsValue)
    ensures GetAcceptResultSubstates(Accept(diff)) == Ok(AcceptedSubstates(diff.upSubstates, diff.downSubstates))
    ensures GetAcceptResultSubstates(AcceptFeeRejectRest(diff, reason))
         == Ok(AcceptedSubstates(diff.upSubstates, diff.downSubstates))
    ensures GetAcceptResultSubstates(Reject(reason)) == Err(ResultRejected(reason))
  {
  }

  /** A declared variant never falls through to the unexpected-shape error. */
  lemma VariantsAreExpected(t: TransactionResult)
    requires IsVariant(t)
    ensures !GetAcceptResultSubstates(t).Err? || GetAcceptResultSubstates(t).error.ResultRejected?
  {
  }
}
