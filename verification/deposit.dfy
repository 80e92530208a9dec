/** The deposit modal: sends USDC from a supported external chain through
    that chain's gateway (`depositAndCall`) to the converter contract on the
    hub chain, then tracks the cross-chain transfer with the indexer. */
module Deposit {
  import opened Common
  import opened Settlement
  import opened Amounts

  const TRANSACTION_FAILED: string := "Transaction failed"

  /** `NETWORK_USDC[chainId]`, reduced to the network's display name; the
      gateway and token addresses are not part of this model. `None` is a
      chain the modal does not support (and a missing or `NaN` chain id). */
  function NetworkUsdc(chainId: Option<int>): (r: Option<string>)
    ensures r.Some? <==> chainId.Some? && chainId.value in {ARBITRUM, BASE, AVAX}
    ensures r.Some? ==> r.value in {"Arbitrum", "Base", "Avalanche"}
  {
    if chainId == Some(ARBITRUM) then Some("Arbitrum")
    else if chainId == Some(BASE) then Some("Base")
    else if chainId == Some(AVAX) then Some("Avalanche")
    else None
  }

  /** The label `renderTransactionStatus` shows: nothing while idle, the
      `statusMap` entry when there is one, and "Processing..." for every status
      the map lacks (`pending`, `processing`, `outboundMined`). */
  function StatusLabel(st: Status): (r: Option<string>)
    ensures r.None? <==> st == Idle
    ensures st in {Pending, Processing, OutboundMined} ==> r == Some("Processing...")
    ensures st == Failed ==> r == Some(TRANSACTION_FAILED)
    ensures r.Some? ==> r.value != ""
  {
    match st
    case Idle => None
    case Preparing => Some("Preparing transaction...")
    case Approving => Some("Approving USDC spending...")
    case Depositing => Some("Initiating cross-chain deposit...")
    case Confirming => Some("Confirming transaction...")
    case Failed => Some(TRANSACTION_FAILED)
    case _ => Some("Processing...")
  }

  /** The outcomes of the awaited steps of `handleDeposit`, in order: the
      token's `decimals()` with `parseUnits` of the amount, the allowance
      read, sending and awaiting the approval, encoding the recipient as the
      payload (which throws for a malformed address), sending `depositAndCall`
      (its hash) and awaiting it, and the indexer's reply to the first poll. */
  datatype DepositEnv = DepositEnv(
    parsed: Result<nat>,
    allowance: Result<nat>,
    approveSend: Outcome,
    approveWait: Outcome,
    payload: Outcome,
    depositSend: Result<string>,
    depositWait: Outcome,
    firstPoll: Reply)

  predicate ApprovalNeeded(env: DepositEnv) {
    env.parsed.Ok? && env.allowance.Ok? && NeedsApproval(env.allowance.value, env.parsed.value)
  }

  /** Every step before the status turns to `depositing` succeeded. */
  predicate ReachesDepositing(env: DepositEnv) {
    env.parsed.Ok? && env.allowance.Ok? &&
    (ApprovalNeeded(env) ==> env.approveSend.Done? && env.approveWait.Done?)
  }

  /** Every step before `depositAndCall` succeeded, so the deposit is sent. */
  predicate ReachesDeposit(env: DepositEnv) {
    ReachesDepositing(env) && env.payload.Done?
  }

  /** The exception that ends `handleDeposit`'s `try` block, if any. */
  function DepositFailure(env: DepositEnv): Option<JsError> {
    if env.parsed.Throw? then Some(env.parsed.err)
    else if env.allowance.Throw? then Some(env.allowance.err)
    else if ApprovalNeeded(env) && env.approveSend.Thrown? then Some(env.approveSend.err)
    else if ApprovalNeeded(env) && env.approveWait.Thrown? then Some(env.approveWait.err)
    else if env.payload.Thrown? then Some(env.payload.err)
    else if env.depositSend.Throw? then Some(env.depositSend.err)
    else if env.depositWait.Thrown? then Some(env.depositWait.err)
    else None
  }

  /** The message the `catch` block shows: "Error: " and `data.message`
      first, then `message`, then the generic text; never empty. */
  function DepositErrorMessage(e: JsError): (m: string)
    ensures m != ""
    ensures Truthy(e.dataMessage) ==> m == "Error: " + e.dataMessage.value
    ensures !Truthy(e.dataMessage) && Truthy(e.message) ==> m == e.message.value
    ensures !Truthy(e.dataMessage) && !Truthy(e.message) ==> m == TRANSACTION_FAILED
  {
    if Truthy(e.dataMessage) then "Error: " + e.dataMessage.value
    else if Truthy(e.message) then e.message.value
    else TRANSACTION_FAILED
  }

  /** The approval steps: none when the allowance covers the amount, else the
      approval and, unless sending it threw, its awaited inclusion. */
  function ApprovalLog(env: DepositEnv): seq<Call>
    requires env.parsed.Ok?
  {
    if !ApprovalNeeded(env) then []
    else if env.approveSend.Thrown? then [Approve(Gateway, env.parsed.value)]
    else [Approve(Gateway, env.parsed.value), AwaitApproval]
  }

  /** The on-chain steps `handleDeposit` takes once past its guard. */
  function DepositLog(env: DepositEnv, recipient: string): seq<Call> {
    if env.parsed.Throw? || env.allowance.Throw? then []
    else if !ReachesDeposit(env) then ApprovalLog(env)
    else ApprovalLog(env) + [DepositAndCall(env.parsed.value, recipient)] +
         (if env.depositSend.Ok? then [AwaitMain] else [])
  }

  /** An approval of the amount to the gateway is sent exactly when the
      allowance falls short; `depositAndCall` is sent exactly when every step
      before it succeeded, at most once, after the awaited approval when one
      was needed and first otherwise, carrying the amount and the recipient. */
  lemma DepositLogOrder(env: DepositEnv, recipient: string)
    ensures var log := DepositLog(env, recipient);
      (env.parsed.Ok? ==> (Approve(Gateway, env.parsed.value) in log <==> ApprovalNeeded(env))) &&
      ((exists i :: 0 <= i < |log| && log[i].DepositAndCall?) <==> ReachesDeposit(env)) &&
      (forall i :: 0 <= i < |log| && log[i].DepositAndCall? ==>
        env.parsed.Ok? && log[i] == DepositAndCall(env.parsed.value, recipient) &&
        (if ApprovalNeeded(env)
         then i == 2 && log[..2] == [Approve(Gateway, env.parsed.value), AwaitApproval]
         else i == 0)) &&
      (AwaitMain in log <==> ReachesDeposit(env) && env.depositSend.Ok?)
  {
    var log := DepositLog(env, recipient);
    if ReachesDeposit(env) {
      var k := if ApprovalNeeded(env) then 2 else 0;
      assert log[k] == DepositAndCall(env.parsed.value, recipient);
    }
  }

  /** The statuses `handleDeposit` sets once past its guard, in order:
      `preparing`; `approving` when an approval is needed; `depositing`;
      `confirming` once the deposit is sent; then `failed` if a step threw, or
      else whatever the first poll sets. */
  function DepositTrail(env: DepositEnv): seq<Status> {
    [Preparing] + TryTrail(env) + (if DepositFailure(env).Some? then [Failed] else [])
  }

  /** The statuses set inside the `try` block. */
  function TryTrail(env: DepositEnv): seq<Status> {
    (if ApprovalNeeded(env) then [Approving] else []) +
    (if ReachesDepositing(env)
     then [Depositing] +
       ((if ReachesDeposit(env) && env.depositSend.Ok? then [Confirming] else []) +
        (if DepositFailure(env).None? && SetsStatus(env.firstPoll)
         then [Step(DepositFlow, Poller(Confirming, None, true, 0), env.firstPoll).status]
         else []))
     else [])
  }

  /** The statuses only ever advance through the fixed progression: whatever
      steps throw, `approving` comes before `depositing`, which comes before
      `confirming`, and `failed` is the last status set if it is set at all. */
  lemma DepositTrailProgression(env: DepositEnv)
    ensures var t := DepositTrail(env);
      t[0] == Preparing &&
      (forall i, j :: 0 <= i < j < |t| && t[j] == Approving ==> t[i] == Preparing) &&
      (forall i, j :: 0 <= i < j < |t| && t[j] == Depositing ==> t[i] in {Preparing, Approving}) &&
      (Failed in t ==> t[|t| - 1] == Failed && Failed !in t[..|t| - 1]) &&
      (Failed in t <==> DepositFailure(env).Some?)
  {
    var t := DepositTrail(env);
    var p := Step(DepositFlow, Poller(Confirming, None, true, 0), env.firstPoll).status;
    assert p != Failed && p != Approving && p != Depositing;
  }

  /** `handleDeposit`'s guard lets the request through. */
  predicate GuardPasses(signer: bool, amount: string, recipient: string, chainId: Option<int>) {
    signer && amount != "" && recipient != "" && NetworkUsdc(chainId).Some?
  }

  class DepositModal {
    var loading: bool
    var error: Option<string>
    var txStatus: Status
    /** The source-chain transaction. */
    var txHash: Option<string>
    /** The hub-chain transaction the indexer reports. */
    var zetaTxHash: Option<string>
    /** The status-check interval is live. */
    var polling: bool
    /** How many times `onSuccess` has been called. */
    var successes: nat
    /** The on-chain steps taken so far. */
    var calls: seq<Call>
    /** Every status set so far, in order. */
    var statusTrail: seq<Status>

    function Tracker(): Poller
      reads this
    {
      Poller(txStatus, zetaTxHash, polling, successes)
    }

    /** The modal as first rendered. */
    constructor ()
      ensures !loading && error == None && txStatus == Idle && txHash == None
      ensures zetaTxHash == None && !polling && successes == 0 && calls == [] && statusTrail == []
    {
      loading, error, txStatus, txHash := false, None, Idle, None;
      zetaTxHash, polling, successes, calls, statusTrail := None, false, 0, [], [];
    }

    /** The reset effect run when the modal opens. */
    method Reset()
      modifies this
      ensures error == None && txStatus == Idle && txHash == None && zetaTxHash == None && !polling
      ensures loading == old(loading) && successes == old(successes) && calls == old(calls)
      ensures statusTrail == old(statusTrail) + [Idle]
    {
      error, txStatus, txHash, zetaTxHash := None, Idle, None, None;
      statusTrail := statusTrail + [Idle];
      polling := false;
    }

    /** The "Try Again" handler, offered after a failed deposit: it clears the
        status and both hashes. It leaves the interval alone, so a live poll
        keeps running, and the error message stays. */
    method TryAgain()
      modifies this
      ensures txStatus == Idle && txHash == None && zetaTxHash == None
      ensures polling == old(polling) && successes == old(successes)
      ensures loading == old(loading) && error == old(error) && calls == old(calls)
      ensures statusTrail == old(statusTrail) + [Idle]
    {
      txStatus, txHash, zetaTxHash := Idle, None, None;
      statusTrail := statusTrail + [Idle];
    }

    /** `checkDepositStatus`: one poll of the indexer. */
    method Poll(r: Reply)
      modifies this
      ensures Tracker() == DepositStep(old(Tracker()), r)
      ensures statusTrail == old(statusTrail) + (if SetsStatus(r) then [txStatus] else [])
      ensures loading == old(loading) && error == old(error)
      ensures txHash == old(txHash) && calls == old(calls)
    {
      if r.HttpError? || r.FetchThrew? {
        return;
      }
      if r.txs.None? || |r.txs.value| == 0 {
        return;
      }
      var cctx := r.txs.value[0];
      if cctx.legs.Some? && |cctx.legs.value| > 0 {
        var outbound := cctx.legs.value[0];
        if Truthy(outbound.hash) {
          zetaTxHash := outbound.hash;
        }
        if cctx.status.None? {
          // reading `cctx_status.status` throws; the `catch` returns null
          return;
        }
        if cctx.status.value == "OutboundMined" {
          txStatus := OutboundMined;
          polling := false;
          successes := successes + 1;
        } else {
          txStatus := if outbound.finalization == Some("Executed") then Processing else Confirming;
        }
        statusTrail := statusTrail + [txStatus];
      }
    }

    /** One tick of the 10-second interval: a poll while the interval lives. */
    method Tick(r: Reply)
      modifies this
      ensures Tracker() == Run(DepositFlow, old(Tracker()), [r])
      ensures statusTrail == old(statusTrail) + (if old(polling) && SetsStatus(r) then [txStatus] else [])
      ensures loading == old(loading) && error == old(error)
      ensures txHash == old(txHash) && calls == old(calls)
    {
      if polling {
        Poll(r);
      }
    }

    /** `handleDeposit` on the wallet's chain `chainId`. */
    method HandleDeposit(signer: bool, amount: string, recipient: string, chainId: Option<int>, env: DepositEnv)
      modifies this
      ensures !GuardPasses(signer, amount, recipient, chainId) ==>
        loading == old(loading) && error == old(error) && Tracker() == old(Tracker()) &&
        txHash == old(txHash) && calls == old(calls) && statusTrail == old(statusTrail)
      ensures GuardPasses(signer, amount, recipient, chainId) ==>
        !loading && calls == old(calls) + DepositLog(env, recipient) &&
        statusTrail == old(statusTrail) + DepositTrail(env) &&
        (txStatus == Failed <==> DepositFailure(env).Some?)
      ensures GuardPasses(signer, amount, recipient, chainId) && DepositFailure(env).Some? ==>
        error == Some(DepositErrorMessage(DepositFailure(env).value)) &&
        zetaTxHash == old(zetaTxHash) && polling == old(polling) && successes == old(successes) &&
        txHash == (if ReachesDeposit(env) && env.depositSend.Ok? then Some(env.depositSend.value) else old(txHash))
      ensures GuardPasses(signer, amount, recipient, chainId) && DepositFailure(env).None? ==>
        error == None && txHash == Some(env.depositSend.value) &&
        Tracker() == DepositStep(Poller(Confirming, old(zetaTxHash), true, old(successes)), env.firstPoll)
    {
      if !signer || amount == "" || recipient == "" || NetworkUsdc(chainId).None? {
        return;
      }
      Submit(recipient, env);
    }

    /** `handleDeposit` once its guard has passed. */
    method Submit(recipient: string, env: DepositEnv)
      modifies this
      ensures !loading && calls == old(calls) + DepositLog(env, recipient)
      ensures statusTrail == old(statusTrail) + DepositTrail(env)
      ensures txStatus == Failed <==> DepositFailure(env).Some?
      ensures DepositFailure(env).Some? ==>
        error == Some(DepositErrorMessage(DepositFailure(env).value)) &&
        zetaTxHash == old(zetaTxHash) && polling == old(polling) && successes == old(successes) &&
        txHash == (if ReachesDeposit(env) && env.depositSend.Ok? then Some(env.depositSend.value) else old(txHash))
      ensures DepositFailure(env).None? ==>
        error == None && txHash == Some(env.depositSend.value) &&
        Tracker() == DepositStep(Poller(Confirming, old(zetaTxHash), true, old(successes)), env.firstPoll)
    {
      loading := true;
      error := None;
      txStatus := Preparing;
      statusTrail := statusTrail + [txStatus];

      var failure := TryDeposit(recipient, env);
      assert statusTrail == old(statusTrail) + ([Preparing] + TryTrail(env));
      if failure.Some? {
        txStatus := Failed;
        statusTrail := statusTrail + [txStatus];
        assert statusTrail == old(statusTrail) + DepositTrail(env);
        error := Some(DepositErrorMessage(failure.value));
      } else {
        assert statusTrail == old(statusTrail) + DepositTrail(env);
      }
      loading := false;
    }

    /** `handleDeposit`'s `try` block. */
    method TryDeposit(recipient: string, env: DepositEnv) returns (failure: Option<JsError>)
      modifies this
      ensures failure == DepositFailure(env)
      ensures calls == old(calls) + DepositLog(env, recipient)
      ensures statusTrail == old(statusTrail) + TryTrail(env)
      ensures failure.Some? ==>
        zetaTxHash == old(zetaTxHash) && polling == old(polling) && successes == old(successes) &&
        txHash == (if ReachesDeposit(env) && env.depositSend.Ok? then Some(env.depositSend.value) else old(txHash))
      ensures failure.None? ==>
        txHash == Some(env.depositSend.value) &&
        Tracker() == DepositStep(Poller(Confirming, old(zetaTxHash), true, old(successes)), env.firstPoll)
      ensures loading == old(loading) && error == old(error)
    {
      if env.parsed.Throw? {
        failure := Some(env.parsed.err);
      } else if env.allowance.Throw? {
        failure := Some(env.allowance.err);
      } else {
        ghost var approving := if ApprovalNeeded(env) then [Approving] else [];
        failure := ApproveIfNeeded(env);
        if failure.None? {
          ghost var before := statusTrail;
          failure := SendDeposit(recipient, env);
          ghost var sending := [Depositing] +
            ((if env.payload.Done? && env.depositSend.Ok? then [Confirming] else []) +
             (if failure.None? && SetsStatus(env.firstPoll) then [txStatus] else []));
          assert statusTrail == (old(statusTrail) + approving) + sending;
          assert TryTrail(env) == approving + sending;
        } else {
          assert TryTrail(env) == [Approving];
        }
      }
    }

    /** The approval part of `handleDeposit`'s `try` block. */
    method ApproveIfNeeded(env: DepositEnv) returns (failure: Option<JsError>)
      requires env.parsed.Ok? && env.allowance.Ok?
      modifies this`calls, this`txStatus, this`statusTrail
      ensures calls == old(calls) + ApprovalLog(env)
      ensures txStatus == (if ApprovalNeeded(env) then Approving else old(txStatus))
      ensures statusTrail == old(statusTrail) + (if ApprovalNeeded(env) then [Approving] else [])
      ensures failure.None? <==> ReachesDepositing(env)
      ensures failure.Some? ==> failure == DepositFailure(env)
    {
      failure := None;
      var parsedAmount := env.parsed.value;
      if NeedsApproval(env.allowance.value, parsedAmount) {
        txStatus := Approving;
        statusTrail := statusTrail + [txStatus];
        calls := calls + [Approve(Gateway, parsedAmount)];
        if env.approveSend.Thrown? {
          failure := Some(env.approveSend.err);
        } else {
          calls := calls + [AwaitApproval];
          if env.approveWait.Thrown? {
            failure := Some(env.approveWait.err);
          }
        }
      }
    }

    /** The deposit part of `handleDeposit`'s `try` block: `depositing`, the
        payload, the call, its inclusion, the interval and the first poll. */
    method SendDeposit(recipient: string, env: DepositEnv) returns (failure: Option<JsError>)
      requires ReachesDepositing(env)
      modifies this
      ensures calls == old(calls) +
        (if env.payload.Thrown? then []
         else [DepositAndCall(env.parsed.value, recipient)] + (if env.depositSend.Ok? then [AwaitMain] else []))
      ensures failure == DepositFailure(env)
      ensures statusTrail == old(statusTrail) + ([Depositing] +
        ((if env.payload.Done? && env.depositSend.Ok? then [Confirming] else []) +
         (if failure.None? && SetsStatus(env.firstPoll) then [txStatus] else [])))
      ensures failure.Some? ==>
        zetaTxHash == old(zetaTxHash) && polling == old(polling) && successes == old(successes) &&
        txHash == (if env.payload.Done? && env.depositSend.Ok? then Some(env.depositSend.value) else old(txHash))
      ensures failure.None? ==>
        txHash == Some(env.depositSend.value) &&
        Tracker() == DepositStep(Poller(Confirming, old(zetaTxHash), true, old(successes)), env.firstPoll)
      ensures loading == old(loading) && error == old(error)
    {
      failure := None;
      var parsedAmount := env.parsed.value;
      txStatus := Depositing;
      statusTrail := statusTrail + [txStatus];
      if env.payload.Thrown? {
        failure := Some(env.payload.err);
        return;
      }
      calls := calls + [DepositAndCall(parsedAmount, recipient)];
      if env.depositSend.Throw? {
        failure := Some(env.depositSend.err);
        return;
      }
      txHash := Some(env.depositSend.value);
      txStatus := Confirming;
      statusTrail := statusTrail + [txStatus];
      calls := calls + [AwaitMain];
      if env.depositWait.Thrown? {
        failure := Some(env.depositWait.err);
        return;
      }
      polling := true;
      Poll(env.firstPoll);
    }
  }
}
