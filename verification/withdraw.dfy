/** The withdraw modal: sends a hub-chain token back to an external chain
    through the withdrawer contract, then tracks the cross-chain transfer with
    the indexer until the destination leg is mined. */
module Withdraw {
  import opened Common
  import opened Settlement
  import opened Amounts

  const INVALID_RECIPIENT: string := "Invalid recipient address"
  const NOT_ENOUGH_COINS: string := "Not enough coins removed"
  const NOT_ENOUGH_COINS_HINT: string :=
    "Not enough coins removed. Try increasing the slippage tolerance or gas allocation percentage."
  const WITHDRAWAL_FAILED: string := "Withdrawal failed"

  /** The outcomes of the awaited steps of `handleWithdraw`, in order:
      `parseUnits` of the amount, the allowance read, sending and awaiting the
      approval, sending `withdrawToChain` (its hash) and awaiting it, and the
      indexer's reply to the immediate first poll. */
  datatype WithdrawEnv = WithdrawEnv(
    parsed: Result<nat>,
    allowance: Result<nat>,
    approveSend: Outcome,
    approveWait: Outcome,
    withdrawSend: Result<string>,
    withdrawWait: Outcome,
    firstPoll: Reply)

  /** The allowance read succeeded and falls short of the parsed amount. */
  predicate ApprovalNeeded(env: WithdrawEnv) {
    env.parsed.Ok? && env.allowance.Ok? && NeedsApproval(env.allowance.value, env.parsed.value)
  }

  /** The awaited steps before `withdrawToChain` all succeed, so the
      withdrawal is sent. */
  predicate ReachesWithdraw(env: WithdrawEnv) {
    env.parsed.Ok? && env.allowance.Ok? &&
    (ApprovalNeeded(env) ==> env.approveSend.Done? && env.approveWait.Done?)
  }

  /** The exception that ends `handleWithdraw`'s `try` block, if any: the
      first awaited step that throws, skipping the approval steps when no
      approval is needed. */
  function WithdrawFailure(env: WithdrawEnv): Option<JsError> {
    if env.parsed.Throw? then Some(env.parsed.err)
    else if env.allowance.Throw? then Some(env.allowance.err)
    else if ApprovalNeeded(env) && env.approveSend.Thrown? then Some(env.approveSend.err)
    else if ApprovalNeeded(env) && env.approveWait.Thrown? then Some(env.approveWait.err)
    else if env.withdrawSend.Throw? then Some(env.withdrawSend.err)
    else if env.withdrawWait.Thrown? then Some(env.withdrawWait.err)
    else None
  }

  /** The message the `catch` block shows. `None`: the error has no
      `message`, so `err.message.includes(..)` throws inside the `catch` and
      no message is set. A message that is set is never empty, and the
      "not enough coins" hint wins over every other source. */
  function WithdrawErrorMessage(e: JsError): (m: Option<string>)
    ensures m.None? <==> e.message.None?
    ensures m.Some? ==> m.value != ""
    ensures e.message.Some? && Contains(e.message.value, NOT_ENOUGH_COINS) ==>
      m == Some(NOT_ENOUGH_COINS_HINT)
    ensures e.message.Some? && !Contains(e.message.value, NOT_ENOUGH_COINS) ==>
      m == Some(if Truthy(e.dataMessage) then "Error: " + e.dataMessage.value
                else if e.message.value != "" then e.message.value
                else WITHDRAWAL_FAILED)
  {
    match e.message
    case None => None
    case Some(msg) =>
      if Contains(msg, NOT_ENOUGH_COINS) then Some(NOT_ENOUGH_COINS_HINT)
      else if Truthy(e.dataMessage) then Some("Error: " + e.dataMessage.value)
      else if msg != "" then Some(msg)
      else Some(WITHDRAWAL_FAILED)
  }

  /** The approval steps: none when the allowance covers the amount, else
      the approval and, unless sending it threw, its awaited inclusion. */
  function ApprovalLog(env: WithdrawEnv): seq<Call>
    requires env.parsed.Ok?
  {
    if !ApprovalNeeded(env) then []
    else if env.approveSend.Thrown? then [Approve(Withdrawer, env.parsed.value)]
    else [Approve(Withdrawer, env.parsed.value), AwaitApproval]
  }

  /** The on-chain steps `handleWithdraw` takes once past its checks: the
      approval steps, then `withdrawToChain` and its inclusion, each only if
      the steps before it did not throw. */
  function WithdrawLog(env: WithdrawEnv, targetChain: int): seq<Call> {
    if env.parsed.Throw? || env.allowance.Throw? then []
    else
      var p := env.parsed.value;
      if !ReachesWithdraw(env) then ApprovalLog(env)
      else ApprovalLog(env) + [WithdrawToChain(targetChain, p, TruncDiv(p * 0, 100), p)] +
           (if env.withdrawSend.Ok? then [AwaitMain] else [])
  }

  /** An approval for the amount is sent exactly when the allowance falls
      short; `withdrawToChain` is sent exactly when every step before it
      succeeded, at most once, right after the awaited approval when one was
      needed and first otherwise, with `minAmountOut` 0 and `maxSwapAmount`
      equal to the amount; and the withdrawal is awaited only once sent. */
  lemma WithdrawLogOrder(env: WithdrawEnv, targetChain: int)
    ensures var log := WithdrawLog(env, targetChain);
      (env.parsed.Ok? ==> (Approve(Withdrawer, env.parsed.value) in log <==> ApprovalNeeded(env))) &&
      ((exists i :: 0 <= i < |log| && log[i].WithdrawToChain?) <==> ReachesWithdraw(env)) &&
      (forall i :: 0 <= i < |log| && log[i].WithdrawToChain? ==>
        env.parsed.Ok? &&
        log[i] == WithdrawToChain(targetChain, env.parsed.value, 0, env.parsed.value) &&
        (if ApprovalNeeded(env)
         then i == 2 && log[..2] == [Approve(Withdrawer, env.parsed.value), AwaitApproval]
         else i == 0)) &&
      (AwaitMain in log <==> ReachesWithdraw(env) && env.withdrawSend.Ok?)
  {
    var log := WithdrawLog(env, targetChain);
    if ReachesWithdraw(env) {
      var p := env.parsed.value;
      var k := if ApprovalNeeded(env) then 2 else 0;
      assert log[k] == WithdrawToChain(targetChain, p, 0, p);
    }
  }

  /** The statuses `handleWithdraw` sets once past its checks, in order:
      `pending`; `confirming` once the withdrawal is sent; then `failed` if a
      step threw, or else whatever the first poll sets. */
  function WithdrawTrail(env: WithdrawEnv): seq<Status> {
    [Pending] + TryTrail(env) + (if WithdrawFailure(env).Some? then [Failed] else [])
  }

  /** The statuses set inside the `try` block. */
  function TryTrail(env: WithdrawEnv): seq<Status> {
    (if ReachesWithdraw(env) && env.withdrawSend.Ok? then [Confirming] else []) +
    (if WithdrawFailure(env).None? && SetsStatus(env.firstPoll)
     then [Step(WithdrawFlow, Poller(Confirming, None, true, 0), env.firstPoll).status]
     else [])
  }

  /** The transfer form is shown only before a transfer or after one failed. */
  predicate FormShown(st: Status) {
    st == Idle || st == Failed
  }

  /** The submit button's `disabled` expression. */
  predicate SubmitDisabled(amount: string, targetChain: Option<int>, recipient: string, loading: bool) {
    amount == "" || targetChain.None? || recipient == "" || loading
  }

  /** `handleWithdraw`'s opening guard lets the request through. */
  predicate GuardPasses(signer: bool, token: bool, amount: string, targetChain: Option<int>, recipient: string) {
    signer && token && amount != "" && targetChain.Some? && recipient != ""
  }

  /** An enabled submit button, with a wallet signer and a token, always gets
      past the handler's guard. */
  lemma EnabledSubmitPassesGuard(signer: bool, token: bool, amount: string,
                                 targetChain: Option<int>, recipient: string, loading: bool)
    requires signer && token
    requires !SubmitDisabled(amount, targetChain, recipient, loading)
    ensures GuardPasses(signer, token, amount, targetChain, recipient)
  {
  }

  class WithdrawModal {
    var loading: bool
    var error: Option<string>
    var txStatus: Status
    var zetaTxHash: Option<string>
    var externalTxHash: Option<string>
    /** The status-check interval is live (`statusCheckInterval` is set). */
    var polling: bool
    /** How many times `onSuccess` has been called. */
    var successes: nat
    /** The on-chain steps taken so far. */
    var calls: seq<Call>
    /** Every status set so far, in order. */
    var statusTrail: seq<Status>

    /** The tracker's view of the modal. */
    function Tracker(): Poller
      reads this
    {
      Poller(txStatus, externalTxHash, polling, successes)
    }

    /** The modal as first rendered. */
    constructor ()
      ensures !loading && error == None && txStatus == Idle
      ensures zetaTxHash == None && externalTxHash == None
      ensures !polling && successes == 0 && calls == [] && statusTrail == []
    {
      loading, error, txStatus := false, None, Idle;
      zetaTxHash, externalTxHash := None, None;
      polling, successes, calls, statusTrail := false, 0, [], [];
    }

    /** The reset effect run when the modal opens or the token changes. */
    method Reset()
      modifies this
      ensures error == None && txStatus == Idle && zetaTxHash == None && externalTxHash == None
      ensures !polling
      ensures loading == old(loading) && successes == old(successes) && calls == old(calls)
      ensures statusTrail == old(statusTrail) + [Idle]
    {
      error, txStatus := None, Idle;
      statusTrail := statusTrail + [Idle];
      zetaTxHash, externalTxHash := None, None;
      polling := false;
    }

    /** The "Make Another Withdrawal" handler, offered while a transfer is in
        flight and not yet mined: it stops the interval and clears the status
        and both hashes, so the form shows again. The error and the success
        count stay. */
    method AnotherWithdrawal()
      modifies this
      ensures txStatus == Idle && zetaTxHash == None && externalTxHash == None && !polling
      ensures FormShown(txStatus)
      ensures loading == old(loading) && error == old(error) && successes == old(successes) && calls == old(calls)
      ensures statusTrail == old(statusTrail) + [Idle]
    {
      polling := false;
      txStatus, zetaTxHash, externalTxHash := Idle, None, None;
      statusTrail := statusTrail + [Idle];
    }

    /** `checkTransactionStatus`: one poll of the indexer. */
    method Poll(r: Reply)
      modifies this
      ensures Tracker() == WithdrawStep(old(Tracker()), r)
      ensures statusTrail == old(statusTrail) + (if SetsStatus(r) then [txStatus] else [])
      ensures !FormShown(old(txStatus)) ==> !FormShown(txStatus)
      ensures loading == old(loading) && error == old(error)
      ensures zetaTxHash == old(zetaTxHash) && calls == old(calls)
    {
      if r.HttpError? || r.FetchThrew? {
        return;
      }
      if r.txs.None? || |r.txs.value| == 0 {
        return;
      }
      var tx := r.txs.value[0];
      if tx.legs.Some? && |tx.legs.value| > 0 {
        var outbound := tx.legs.value[0];
        if tx.status.None? {
          // reading `cctx_status.status` throws; the `catch` returns null
          return;
        }
        if tx.status.value == "OutboundMined" {
          txStatus := OutboundMined;
          statusTrail := statusTrail + [txStatus];
          externalTxHash := outbound.hash;
          polling := false;
          successes := successes + 1;
        } else if outbound.finalization == Some("Executed") {
          txStatus := Processing;
          statusTrail := statusTrail + [txStatus];
          externalTxHash := outbound.hash;
        } else {
          txStatus := Confirming;
          statusTrail := statusTrail + [txStatus];
        }
      }
    }

    /** One tick of the 10-second interval: a poll while the interval lives. */
    method Tick(r: Reply)
      modifies this
      ensures Tracker() == Run(WithdrawFlow, old(Tracker()), [r])
      ensures statusTrail == old(statusTrail) + (if old(polling) && SetsStatus(r) then [txStatus] else [])
      ensures loading == old(loading) && error == old(error)
      ensures zetaTxHash == old(zetaTxHash) && calls == old(calls)
    {
      if polling {
        Poll(r);
      }
    }

    /** `handleWithdraw`. The allowance, the approval, the withdrawal and the
        first poll are the awaited steps whose outcomes `env` gives; the
        address check is `addressValid`. */
    method HandleWithdraw(signer: bool, token: bool, amount: string, targetChain: Option<int>,
                          recipient: string, addressValid: bool, env: WithdrawEnv)
      modifies this
      // a missing input: nothing happens
      ensures !GuardPasses(signer, token, amount, targetChain, recipient) ==>
        loading == old(loading) && error == old(error) && Tracker() == old(Tracker()) &&
        zetaTxHash == old(zetaTxHash) && calls == old(calls) && statusTrail == old(statusTrail)
      // an invalid recipient: only the error is set, nothing is submitted
      ensures GuardPasses(signer, token, amount, targetChain, recipient) && !addressValid ==>
        error == Some(INVALID_RECIPIENT) &&
        loading == old(loading) && Tracker() == old(Tracker()) &&
        zetaTxHash == old(zetaTxHash) && calls == old(calls) && statusTrail == old(statusTrail)
      // a submitted request
      ensures GuardPasses(signer, token, amount, targetChain, recipient) && addressValid ==>
        !loading && calls == old(calls) + WithdrawLog(env, targetChain.value) &&
        statusTrail == old(statusTrail) + WithdrawTrail(env) &&
        (txStatus == Failed <==> WithdrawFailure(env).Some?) &&
        (FormShown(txStatus) <==> WithdrawFailure(env).Some?)
      ensures GuardPasses(signer, token, amount, targetChain, recipient) && addressValid &&
              WithdrawFailure(env).Some? ==>
        error == WithdrawErrorMessage(WithdrawFailure(env).value) &&
        externalTxHash == old(externalTxHash) && polling == old(polling) &&
        successes == old(successes) &&
        zetaTxHash == (if ReachesWithdraw(env) && env.withdrawSend.Ok?
                       then Some(env.withdrawSend.value) else old(zetaTxHash))
      ensures GuardPasses(signer, token, amount, targetChain, recipient) && addressValid &&
              WithdrawFailure(env).None? ==>
        error == None && zetaTxHash == Some(env.withdrawSend.value) &&
        Tracker() == WithdrawStep(Poller(Confirming, old(externalTxHash), true, old(successes)), env.firstPoll)
    {
      if !signer || !token || amount == "" || targetChain.None? || recipient == "" {
        return;
      }
      if !addressValid {
        error := Some(INVALID_RECIPIENT);
        return;
      }
      Submit(targetChain.value, env);
    }

    /** `handleWithdraw` once its checks have passed. */
    method Submit(targetChain: int, env: WithdrawEnv)
      modifies this
      ensures !loading && calls == old(calls) + WithdrawLog(env, targetChain)
      ensures statusTrail == old(statusTrail) + WithdrawTrail(env)
      ensures txStatus == Failed <==> WithdrawFailure(env).Some?
      ensures FormShown(txStatus) <==> WithdrawFailure(env).Some?
      ensures WithdrawFailure(env).Some? ==>
        error == WithdrawErrorMessage(WithdrawFailure(env).value) &&
        externalTxHash == old(externalTxHash) && polling == old(polling) &&
        successes == old(successes) &&
        zetaTxHash == (if ReachesWithdraw(env) && env.withdrawSend.Ok?
                       then Some(env.withdrawSend.value) else old(zetaTxHash))
      ensures WithdrawFailure(env).None? ==>
        error == None && zetaTxHash == Some(env.withdrawSend.value) &&
        Tracker() == WithdrawStep(Poller(Confirming, old(externalTxHash), true, old(successes)), env.firstPoll)
    {
      loading := true;
      error := None;
      txStatus := Pending;
      statusTrail := statusTrail + [txStatus];
      var failure := TryWithdraw(targetChain, env);
      assert statusTrail == old(statusTrail) + ([Pending] + TryTrail(env));
      if failure.Some? {
        txStatus := Failed;
        statusTrail := statusTrail + [txStatus];
        assert statusTrail == old(statusTrail) + WithdrawTrail(env);
        // with no `message` the `catch` block throws before `setError`
        var msg := WithdrawErrorMessage(failure.value);
        if msg.Some? {
          error := msg;
        }
      } else {
        assert statusTrail == old(statusTrail) + WithdrawTrail(env);
      }
      loading := false;
    }

    /** `handleWithdraw`'s `try` block. */
    method TryWithdraw(targetChain: int, env: WithdrawEnv) returns (failure: Option<JsError>)
      modifies this
      ensures failure == WithdrawFailure(env)
      ensures calls == old(calls) + WithdrawLog(env, targetChain)
      ensures statusTrail == old(statusTrail) + TryTrail(env)
      ensures failure.Some? ==>
        externalTxHash == old(externalTxHash) && polling == old(polling) && successes == old(successes) &&
        txStatus == (if ReachesWithdraw(env) && env.withdrawSend.Ok? then Confirming else old(txStatus)) &&
        zetaTxHash == (if ReachesWithdraw(env) && env.withdrawSend.Ok?
                       then Some(env.withdrawSend.value) else old(zetaTxHash))
      ensures failure.None? ==>
        zetaTxHash == Some(env.withdrawSend.value) &&
        Tracker() == WithdrawStep(Poller(Confirming, old(externalTxHash), true, old(successes)), env.firstPoll)
      ensures loading == old(loading) && error == old(error)
    {
      if env.parsed.Throw? {
        failure := Some(env.parsed.err);
      } else if env.allowance.Throw? {
        failure := Some(env.allowance.err);
      } else {
        failure := ApproveIfNeeded(env);
        if failure.None? {
          failure := SendWithdrawal(targetChain, env);
        }
      }
    }

    /** The approval part of `handleWithdraw`'s `try` block. */
    method ApproveIfNeeded(env: WithdrawEnv) returns (failure: Option<JsError>)
      requires env.parsed.Ok? && env.allowance.Ok?
      modifies this`calls
      ensures calls == old(calls) + ApprovalLog(env)
      ensures failure.None? <==> ReachesWithdraw(env)
      ensures failure.Some? ==> failure == WithdrawFailure(env)
    {
      failure := None;
      var parsedAmount := env.parsed.value;
      if NeedsApproval(env.allowance.value, parsedAmount) {
        calls := calls + [Approve(Withdrawer, parsedAmount)];
        if env.approveSend.Thrown? {
          failure := Some(env.approveSend.err);
        } else {
          calls := calls + [AwaitApproval];
          if env.approveWait.Thrown? {
            failure := Some(env.approveWait.err);
          }
        }
      }
    }

    /** The withdrawal part of `handleWithdraw`'s `try` block: the call, its
        inclusion, the interval and the immediate first poll. */
    method SendWithdrawal(targetChain: int, env: WithdrawEnv) returns (failure: Option<JsError>)
      requires ReachesWithdraw(env)
      modifies this
      ensures calls == old(calls) + WithdrawLog(env, targetChain)[|ApprovalLog(env)|..]
      ensures failure == WithdrawFailure(env)
      ensures failure.Some? ==>
        Tracker() == old(Tracker()).(status := if env.withdrawSend.Ok? then Confirming else old(txStatus)) &&
        zetaTxHash == (if env.withdrawSend.Ok? then Some(env.withdrawSend.value) else old(zetaTxHash)) &&
        statusTrail == old(statusTrail) + (if env.withdrawSend.Ok? then [Confirming] else [])
      ensures failure.None? ==>
        statusTrail == old(statusTrail) + [Confirming] + (if SetsStatus(env.firstPoll) then [txStatus] else []) &&
        zetaTxHash == Some(env.withdrawSend.value) &&
        Tracker() == WithdrawStep(Poller(Confirming, old(externalTxHash), true, old(successes)), env.firstPoll)
      ensures loading == old(loading) && error == old(error)
    {
      failure := None;
      var parsedAmount := env.parsed.value;
      var minAmountOut := TruncDiv(parsedAmount * 0, 100);
      var maxSwapAmount := parsedAmount;
      calls := calls + [WithdrawToChain(targetChain, parsedAmount, minAmountOut, maxSwapAmount)];
      if env.withdrawSend.Throw? {
        failure := Some(env.withdrawSend.err);
      } else {
        zetaTxHash := Some(env.withdrawSend.value);
        txStatus := Confirming;
        statusTrail := statusTrail + [txStatus];
        calls := calls + [AwaitMain];
        if env.withdrawWait.Thrown? {
          failure := Some(env.withdrawWait.err);
        } else {
          polling := true;
          Poll(env.firstPoll);
        }
      }
    }
  }
}
