/** Values shared by every flow of the dApp: optional values, JavaScript
    exceptions as the handlers inspect them, the transfer status strings, the
    log of on-chain calls a handler issues, and the chain identifiers. */
module Common {

  datatype Option<T> = None | Some(value: T)

  /** A thrown JavaScript error, reduced to the three properties the handlers
      read: `err.message`, `err.data?.message` and `err.code`. A `None`
      component is an `undefined` property. */
  datatype JsError = JsError(message: Option<string>, dataMessage: Option<string>, code: Option<int>)

  /** An awaited call that either yields a value or throws. */
  datatype Result<T> = Ok(value: T) | Throw(err: JsError)

  /** An awaited call whose value is not used. */
  datatype Outcome = Done | Thrown(err: JsError)

  /** JavaScript truthiness of a possibly-undefined string. */
  predicate Truthy(s: Option<string>) {
    s.Some? && s.value != ""
  }

  /** A possibly-undefined string interpolated into a template literal. */
  function Show(s: Option<string>): string {
    if s.Some? then s.value else "undefined"
  }

  predicate IsPrefix(p: string, s: string) {
    |p| <= |s| && s[..|p|] == p
  }

  /** `s.includes(sub)`. */
  predicate Contains(s: string, sub: string)
    decreases |s|
  {
    IsPrefix(sub, s) || (|s| > 0 && Contains(s[1..], sub))
  }

  /** Decimal rendering of an integer, as `${n}` produces it. */
  function DecimalString(n: int): string
    decreases if n < 0 then 1 - n else n
  {
    if n < 0 then "-" + DecimalString(-n)
    else if n < 10 then ["0123456789"[n]]
    else DecimalString(n / 10) + ["0123456789"[n % 10]]
  }

  /** The `txStatus` state of the withdraw and deposit modals; `Idle` is `null`. */
  datatype Status =
    | Idle | Pending | Preparing | Approving | Depositing
    | Confirming | Processing | OutboundMined | Failed

  /** The contract an ERC-20 approval is given to. */
  datatype Spender = Withdrawer | Gateway | Pool

  /** One on-chain step a handler performs, in the order it performs it:
      transactions sent, and the inclusions it awaits. */
  datatype Call =
    | Approve(spender: Spender, amount: nat)
    | AwaitApproval
    | WithdrawToChain(targetChain: int, amount: nat, minAmountOut: int, maxSwapAmount: nat)
    | DepositAndCall(amount: nat, recipient: string)
    | AddLiquidity(amounts: seq<nat>, minMintAmount: int)
    | RemoveLiquidityOneCoin(amount: nat, index: Option<nat>, minReceived: int)
    | AwaitMain

  /** Chain identifiers (the `CHAIN_IDS` table of the repository's address
      constants, which are not part of this model; these are the chains'
      public identifiers). */
  const ZETA: int := 7000
  const ARBITRUM: int := 42161
  const BASE: int := 8453
  const AVAX: int := 43114
  const SOLANA: int := 900
}
