/** The conversion modal: turns a bridged USDC token into the pool's LP token
    (`add_liquidity`, "convert") or back into one chosen pool coin
    (`remove_liquidity_one_coin`, "redeem"), with a slippage minimum. */
module Conversion {
  import opened Common
  import opened Amounts

  const TRANSACTION_FAILED: string := "Transaction failed"

  /** The `mode` prop: `"convert"`, `"redeem"`, or any other string, for
      which the handler takes no on-chain step. */
  datatype Mode = Convert | Redeem | Other

  /** The outcomes of the awaited steps of `handleConvert`, in order:
      `parseUnits` of the amount, sending and awaiting the approval, the pool's
      `calc_withdraw_one_coin` quote (redeem only), sending and awaiting the
      pool call. */
  datatype ConvertEnv = ConvertEnv(
    parsed: Result<nat>,
    approveSend: Outcome,
    approveWait: Outcome,
    quote: Result<nat>,
    poolSend: Outcome,
    poolWait: Outcome)

  /** The submit button is enabled: an amount, not loading, and in redeem
      mode a chosen target coin. */
  predicate SubmitEnabled(amount: string, loading: bool, mode: Mode, targetToken: Option<string>) {
    !(amount == "" || loading || (mode == Redeem && !Truthy(targetToken)))
  }

  /** With a wallet signer and a selected token, an enabled submit button
      gets past `handleConvert`'s guard, and in redeem mode a target coin is
      chosen. */
  lemma EnabledSubmitPassesGuard(signer: bool, token: Option<string>, amount: string,
                                 loading: bool, mode: Mode, targetToken: Option<string>)
    requires signer && token.Some?
    requires SubmitEnabled(amount, loading, mode, targetToken)
    ensures !(!signer || token.None? || amount == "")
    ensures mode == Redeem ==> targetToken.Some? && targetToken.value != ""
  {
  }

  /** The pool slot `handleConvert` works on: the token's own slot when
      converting, the target coin's slot when redeeming. */
  function PoolSlot(mode: Mode, symbol: string, targetToken: Option<string>): Option<nat> {
    match mode
    case Convert => PoolIndex(symbol)
    case Redeem => if targetToken.Some? then PoolIndex(targetToken.value) else None
    case Other => None
  }

  /** The exception that ends `handleConvert`'s `try` block, if any. */
  function ConvertFailure(mode: Mode, env: ConvertEnv): Option<JsError> {
    if env.parsed.Throw? then Some(env.parsed.err)
    else if mode == Other then None
    else if env.approveSend.Thrown? then Some(env.approveSend.err)
    else if env.approveWait.Thrown? then Some(env.approveWait.err)
    else if mode == Redeem && env.quote.Throw? then Some(env.quote.err)
    else if env.poolSend.Thrown? then Some(env.poolSend.err)
    else if env.poolWait.Thrown? then Some(env.poolWait.err)
    else None
  }

  /** `err.message || "Transaction failed"`: never empty. */
  function ConvertErrorMessage(e: JsError): (m: string)
    ensures m != ""
    ensures Truthy(e.message) ==> m == e.message.value
    ensures !Truthy(e.message) ==> m == TRANSACTION_FAILED
  {
    if Truthy(e.message) then e.message.value else TRANSACTION_FAILED
  }

  /** The pool call: `add_liquidity` with the amounts vector and the minimum
      mint amount, or `remove_liquidity_one_coin` with the minimum computed
      from the pool's quote. The minimum is computed as written,
      `SlippageMin`. */
  function PoolCall(mode: Mode, slot: Option<nat>, k: int, env: ConvertEnv): Call
    requires env.parsed.Ok? && mode != Other && (mode == Redeem ==> env.quote.Ok?)
  {
    var p := env.parsed.value;
    if mode == Convert then AddLiquidity(AmountsVector(slot, p), SlippageMin(p, k))
    else RemoveLiquidityOneCoin(p, slot, SlippageMin(env.quote.value, k))
  }

  /** The on-chain steps `handleConvert` takes once past its guard: the
      approval of the amount to the pool, always, and its inclusion; then the
      pool call and its inclusion; each only if the steps before it did not
      throw. Any other mode takes no step. */
  function ConvertLog(mode: Mode, slot: Option<nat>, k: int, env: ConvertEnv): seq<Call> {
    if env.parsed.Throw? || mode == Other then []
    else if env.approveSend.Thrown? then [Approve(Pool, env.parsed.value)]
    else if env.approveWait.Thrown? || (mode == Redeem && env.quote.Throw?) then
      [Approve(Pool, env.parsed.value), AwaitApproval]
    else
      [Approve(Pool, env.parsed.value), AwaitApproval, PoolCall(mode, slot, k, env)] +
      (if env.poolSend.Done? then [AwaitMain] else [])
  }

  /** In both modes the first step is an approval of exactly the amount,
      sent without looking at the allowance; the pool call, if sent, comes
      right after the awaited approval; the convert vector holds the amount
      at the source slot only; for `k` in [0, 100] the minimum lies between 0
      and the amount (or the quote), is the whole of it when `k` is 0, and
      is never positive from `k == 100` on; and the pool call is awaited
      exactly when nothing threw before its inclusion. */
  lemma ConvertLogShape(mode: Mode, slot: Option<nat>, k: int, env: ConvertEnv)
    requires slot.Some? ==> slot.value < |POOL_SYMBOLS|
    ensures var log := ConvertLog(mode, slot, k, env);
      (env.parsed.Ok? && mode != Other <==> |log| > 0) &&
      (env.parsed.Ok? && mode != Other ==> log[0] == Approve(Pool, env.parsed.value)) &&
      (forall i :: 0 <= i < |log| && (log[i].AddLiquidity? || log[i].RemoveLiquidityOneCoin?) ==>
        i == 2 && log[1] == AwaitApproval) &&
      (forall i :: 0 <= i < |log| && log[i].AddLiquidity? ==>
        mode == Convert &&
        |log[i].amounts| == 4 &&
        (forall j :: 0 <= j < 4 ==> log[i].amounts[j] == if slot == Some(j) then env.parsed.value else 0) &&
        log[i].minMintAmount == SlippageMin(env.parsed.value, k) &&
        (0 <= k <= 100 ==> 0 <= log[i].minMintAmount <= env.parsed.value) &&
        (k == 0 ==> log[i].minMintAmount == env.parsed.value) &&
        (k >= 100 ==> log[i].minMintAmount <= 0)) &&
      (forall i :: 0 <= i < |log| && log[i].RemoveLiquidityOneCoin? ==>
        mode == Redeem && env.quote.Ok? &&
        log[i] == RemoveLiquidityOneCoin(env.parsed.value, slot, SlippageMin(env.quote.value, k)) &&
        (0 <= k <= 100 ==> 0 <= log[i].minReceived <= env.quote.value) &&
        (k >= 100 ==> log[i].minReceived <= 0)) &&
      (AwaitMain in log <==>
        env.parsed.Ok? && mode != Other && env.approveSend.Done? && env.approveWait.Done? &&
        (mode == Redeem ==> env.quote.Ok?) && env.poolSend.Done?) &&
      (ConvertFailure(mode, env).None? && mode != Other ==> AwaitMain in log)
  {
    var log := ConvertLog(mode, slot, k, env);
    if |log| > 2 {
      var c := log[2];
      assert c == PoolCall(mode, slot, k, env);
      if c.AddLiquidity? {
        var v := AmountsVector(slot, env.parsed.value);
        assert c.amounts == v;
        forall j | 0 <= j < 4
          ensures v[j] == if slot == Some(j) then env.parsed.value else 0
        {
        }
      }
    }
  }

  /** At the 2.0% option (`k == 200`) every pool call the modal sends
      carries minus the amount (convert) or minus the quote (redeem) as its
      minimum, a value no `uint256` parameter can carry. */
  lemma TwoPercentLogsNegativeMinimum(mode: Mode, slot: Option<nat>, env: ConvertEnv)
    ensures var log := ConvertLog(mode, slot, 200, env);
      (forall i :: 0 <= i < |log| && log[i].AddLiquidity? ==>
        env.parsed.Ok? && log[i].minMintAmount == -(env.parsed.value as int)) &&
      (forall i :: 0 <= i < |log| && log[i].RemoveLiquidityOneCoin? ==>
        env.quote.Ok? && log[i].minReceived == -(env.quote.value as int))
  {
    var log := ConvertLog(mode, slot, 200, env);
    if |log| > 2 {
      assert log[2] == PoolCall(mode, slot, 200, env);
      TwoPercentFloorIsNegative(env.parsed.value);
      if mode == Redeem {
        TwoPercentFloorIsNegative(env.quote.value);
      }
    }
  }

  class ConversionModal {
    var loading: bool
    var error: Option<string>
    /** `onClose` has been called. */
    var closed: bool
    /** How many times `onSuccess` has been called. */
    var successes: nat
    /** The on-chain steps taken so far. */
    var calls: seq<Call>

    constructor ()
      ensures !loading && error == None && !closed && successes == 0 && calls == []
    {
      loading, error, closed, successes, calls := false, None, false, 0, [];
    }

    /** The reset effect run when the modal opens or the token changes. The
        typed amount is an argument of `HandleConvert`, not a field. */
    method Reset()
      modifies this
      ensures error == None
      ensures loading == old(loading) && closed == old(closed)
      ensures successes == old(successes) && calls == old(calls)
    {
      error := None;
    }

    /** `handleConvert` for the token `token` (its symbol; `None` when no
        token is selected), with slippage `k = Math.floor(slippage * 100)`. */
    method HandleConvert(signer: bool, token: Option<string>, amount: string, mode: Mode,
                         targetToken: Option<string>, k: int, env: ConvertEnv)
      modifies this
      ensures !signer || token.None? || amount == "" ==>
        loading == old(loading) && error == old(error) && closed == old(closed) &&
        successes == old(successes) && calls == old(calls)
      ensures signer && token.Some? && amount != "" ==>
        !loading &&
        calls == old(calls) + ConvertLog(mode, PoolSlot(mode, token.value, targetToken), k, env) &&
        // success and close exactly when nothing threw; for another mode no
        // transaction is sent at all
        (successes == old(successes) + (if ConvertFailure(mode, env).None? then 1 else 0)) &&
        (closed == (old(closed) || ConvertFailure(mode, env).None?)) &&
        (error == if ConvertFailure(mode, env).Some?
                  then Some(ConvertErrorMessage(ConvertFailure(mode, env).value)) else None)
    {
      if !signer || token.None? || amount == "" {
        return;
      }
      loading := true;
      error := None;
      var failure := TryConvert(token.value, mode, targetToken, k, env);
      if failure.None? {
        successes := successes + 1;
        closed := true;
      } else {
        error := Some(ConvertErrorMessage(failure.value));
      }
      loading := false;
    }

    /** `handleConvert`'s `try` block up to the awaited pool transaction. */
    method TryConvert(symbol: string, mode: Mode, targetToken: Option<string>, k: int, env: ConvertEnv)
      returns (failure: Option<JsError>)
      modifies this`calls
      ensures failure == ConvertFailure(mode, env)
      ensures calls == old(calls) + ConvertLog(mode, PoolSlot(mode, symbol, targetToken), k, env)
    {
      if env.parsed.Throw? {
        return Some(env.parsed.err);
      }
      var parsedAmount := env.parsed.value;
      if mode == Other {
        return None;
      }
      calls := calls + [Approve(Pool, parsedAmount)];
      if env.approveSend.Thrown? {
        return Some(env.approveSend.err);
      }
      calls := calls + [AwaitApproval];
      if env.approveWait.Thrown? {
        return Some(env.approveWait.err);
      }
      var tokenIndex := PoolSlot(mode, symbol, targetToken);
      if mode == Convert {
        var amounts := BuildAmounts(tokenIndex, parsedAmount);
        var minMintAmount := SlippageMin(parsedAmount, k);
        calls := calls + [AddLiquidity(amounts[..], minMintAmount)];
      } else {
        if env.quote.Throw? {
          return Some(env.quote.err);
        }
        var minReceived := SlippageMin(env.quote.value, k);
        calls := calls + [RemoveLiquidityOneCoin(parsedAmount, tokenIndex, minReceived)];
      }
      if env.poolSend.Thrown? {
        return Some(env.poolSend.err);
      }
      calls := calls + [AwaitMain];
      if env.poolWait.Thrown? {
        return Some(env.poolWait.err);
      }
      return None;
    }
  }
}
