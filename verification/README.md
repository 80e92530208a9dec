# FluidUSDC transfer logic in Dafny

FluidUSDC is a browser dApp for moving USDC between external chains (Arbitrum,
Base, Avalanche, Solana) and ZetaChain. On ZetaChain the bridged tokens can be
pooled into the USDC.4 LP token. This project models the dApp's transfer logic
and proves properties of it:

- **Settlement poll** (`settlement.dfy`). The withdraw and deposit modals poll
  the cross-chain indexer after a transfer. One poll maps the indexer's reply
  onto the modal's status, the hash it reveals, the polling flag and the
  `onSuccess` callback. `Run` folds a sequence of interval ticks.
- **Withdraw** (`withdraw.dfy`). This is the `WithdrawModal` handler: a guard,
  address validation, approval of the withdrawer when the allowance falls
  short, then `withdrawToChain`. It tracks the status and picks the error
  message.
- **Deposit** (`deposit.dfy`). This is the `DepositModal` handler: a
  supported-chain guard, approval of the gateway, then `depositAndCall`. It
  tracks the status and derives the status label.
- **Conversion** (`conversion.dfy`). This is the `ConversionModal` handler:
  - approve the pool;
  - convert with `add_liquidity`, using an amounts vector and a slippage
    minimum;
  - redeem with `remove_liquidity_one_coin`, using a minimum taken from the
    pool's quote.
- **Amounts** (`amounts.dfy`). BigNumber truncating division, the slippage
  minimum (as written and as intended), the approval decision, and the pool's
  coin slots.
- **Balances** (`balances.dfy`). The `useZRC20Balances` hook: one record per
  token of the fixed five-token list, with a fallback record for a failed
  read. It sorts in place with non-zero balances first, then by symbol.
- **Wallet** (`wallet.dfy`). The `useWallet` hook:
  - hexadecimal chain-id encoding (`"0x" + n.toString(16)`) and
    `parseInt(s, 16)`;
  - the chain switch, with its verification and error messages;
  - the account, chain and disconnect events;
  - `isConnected`.

How the outside world appears in the model:

- **Awaited calls.** Each handler takes the outcome of every awaited step as a
  parameter, in `WithdrawEnv`, `DepositEnv`, `ConvertEnv`, a `TokenRead`
  sequence or a `Result<Details>`. The possible outcomes are a value, `Done`,
  or a thrown `JsError`.
- **Transactions and statuses.** Every transaction sent and every inclusion
  awaited is appended to a `calls` log. Every `setTxStatus` is appended to
  `statusTrail`. Each handler is proved against pure functions of its inputs:
  - `WithdrawLog` and `WithdrawTrail`;
  - `DepositLog` and `DepositTrail`;
  - `ConvertLog`;
  - `WithdrawStep` and `DepositStep`.
- **The slippage minimum.** The code computes `parsed * (100 - k) / 100`,
  where `k = Math.floor(slippage * 100)`. For the form's 0.1%, 0.5%, 1.0% and
  2.0% choices, `k` is 10, 50, 100 and 200, which gives a floor of 90%, 50%,
  0% and −100% of the amount. `SlippageMin` models this as written, and its
  lemmas exhibit those floors. `k` counts hundredths of a percent, so the
  evident intent is `parsed * (10000 - k) / 10000`, which is
  `IntendedSlippageMin` (see Findings). The conversion modal's model keeps
  the minimum as written, so at 2.0% its logged pool calls carry minus the
  amount (`TwoPercentLogsNegativeMinimum`).

## Model

| member | source | states |
|---|---|---|
| Settlement.WithdrawStep | src/components/WithdrawModal.jsx:92-146 | A reply without a first record that has an outbound leg changes nothing. A mined record sets `outboundMined` and the first leg's hash, stops polling and counts one `onSuccess`. An executed leg sets `processing` and the hash. Any other status sets `confirming` and keeps the hash. An unreadable `cctx_status` changes nothing. The status only ever moves into {confirming, processing, outboundMined}. |
| Settlement.WithdrawStepAsWritten | src/components/WithdrawModal.jsx:119-130 | As the code is written: on a mined record the polling flag is left unchanged. This is the first withdrawal after the modal opens (or after its reset effect at lines 61-64): the interval handle in the closure is then still `null`. After "Make Another Withdrawal" (lines 506-508) the closure holds the previous, truthy id, and `setStatusCheckInterval(null)` lets the cleanup effect (lines 68-74) clear the live interval; that path is not this member. Otherwise it is the same as `WithdrawStep`. |
| Settlement.DepositStep | src/components/DepositModal.jsx:91-124 | On a reply with an outbound leg, a truthy leg hash is recorded whatever the status. Mined sets `outboundMined`, stops polling and counts one `onSuccess`. Otherwise the status is `processing` exactly when the leg is executed, else `confirming`. Failed or empty replies change nothing. |
| Settlement.Step | src/components/DepositModal.jsx:96-116 | In both flows a poll never fails the transfer and never returns to idle. `outboundMined` is reached only from a mined reply. Only a mined reply stops polling or calls `onSuccess`. |
| Settlement.Run | src/components/WithdrawModal.jsx:241-245 | The 10-second interval: each tick polls while polling is on, and does nothing once it is off. |
| Settlement.StoppedIsAbsorbing | src/components/DepositModal.jsx:106-110 | Once polling has stopped, no later tick changes the tracker. |
| Settlement.IndexerFailuresChangeNothing | src/components/WithdrawModal.jsx:98-111 | Any number of HTTP errors, fetch failures or replies without `CrossChainTxs` leave the tracker exactly as it was. |
| Settlement.NoSettlementWithoutMined | src/components/WithdrawModal.jsx:113-138 | Without a mined reply the tracker never reaches `outboundMined`, never calls `onSuccess` and keeps polling. |
| Settlement.SuccessFiresOnce | src/components/DepositModal.jsx:106-110 | While polling, `onSuccess` fires exactly once if some reply is mined and never otherwise. Polling stops exactly then, in `outboundMined`. |
| Settlement.NoRecordThenMined | src/components/WithdrawModal.jsx:109-130 | Five replies without records, then a mined one: `confirming` goes to `outboundMined` with one `onSuccess`, and polling stops. |
| Settlement.AsWrittenRepeatsSuccess | src/components/WithdrawModal.jsx:124-130 | As written, two ticks that both see the mined record call `onSuccess` twice. The intended stop calls it once. |
| Amounts.TruncDiv | src/components/ConversionModal.jsx:83-85 | `BigNumber.div(d)` truncates toward zero: the quotient times `d` is within `d` of the dividend, on the dividend's side of zero. |
| Amounts.TruncDivMonotone | src/components/ConversionModal.jsx:120-122 | Truncating division is monotone in the dividend. |
| Amounts.SlippageMin | src/components/ConversionModal.jsx:83-85 | `parsed * (100 - k) / 100`. For 0 ≤ k ≤ 100 it lies in [0, parsed] and is the floor of the exact product. k = 0 gives exactly `parsed`. k ≥ 100 gives no positive minimum. |
| Amounts.SlippageMinAntitone | src/components/ConversionModal.jsx:119-122 | A larger slippage never raises the minimum. |
| Amounts.HalfPercentFloorsAtHalf | src/components/ConversionModal.jsx:21-21 | At the default 0.5% (k = 50) the minimum is half the amount. |
| Amounts.OnePercentFloorsAtZero | src/components/ConversionModal.jsx:227-227 | At 1.0% (k = 100) the minimum is 0. |
| Amounts.TwoPercentFloorIsNegative | src/components/ConversionModal.jsx:228-228 | At 2.0% (k = 200) the minimum is minus the amount. |
| Conversion.TwoPercentLogsNegativeMinimum | src/components/ConversionModal.jsx:83-85 | At the 2.0% option every logged `add_liquidity` call carries minus the parsed amount and every `remove_liquidity_one_coin` call minus the quote, whatever the mode, slot or outcomes. The same happens at lines 120-122. |
| Amounts.IntendedSlippageMin | src/components/ConversionModal.jsx:83-85 | The corrected minimum `parsed * (10000 - k) / 10000`. For 0 ≤ k ≤ 10000 it lies in [0, parsed] and is the floor of the exact product. k = 0 gives exactly `parsed`. |
| Amounts.SelectorKeepsNinetyEightPercent | src/components/ConversionModal.jsx:225-228 | For every selector option (k ≤ 200) the corrected minimum is non-negative, at most the amount, and above 98% of it up to one unit of rounding. |
| Amounts.SlippageUnitsMismatch | src/components/ConversionModal.jsx:83-85 | For every positive amount at the 2.0% option, the minimum as written is negative while the corrected one is not. |
| Amounts.NeedsApproval | src/components/WithdrawModal.jsx:196-196 | `currentAllowance.lt(parsedAmount)`: an approval is needed exactly when the allowance is below the amount. The deposit modal's check at DepositModal.jsx:212 is the same. |
| Amounts.PoolIndex | src/components/ConversionModal.jsx:71-78 | `tokenIndexMap`: a slot exists exactly for the four pool symbols, and that slot holds the symbol. |
| Amounts.AmountsVector | src/components/ConversionModal.jsx:79-80 | A length-4 vector, zero at every slot but the token's, which holds the amount. |
| Amounts.BuildAmounts | src/components/ConversionModal.jsx:79-80 | The array built in place equals `AmountsVector`. |
| Withdraw.WithdrawErrorMessage | src/components/WithdrawModal.jsx:253-264 | The message is chosen in this order: the "not enough coins" hint, then `Error: data.message`, then `message`, then "Withdrawal failed". A set message is never empty. With no `message` the catch block throws and no message is set. |
| Withdraw.WithdrawLogOrder | src/components/WithdrawModal.jsx:168-236 | The approval is sent iff the allowance is below the amount. `withdrawToChain` is sent once, iff every earlier step succeeded, right after the awaited approval when one was needed. It carries `minAmountOut` 0 and `maxSwapAmount` equal to the amount. |
| Withdraw.FormShown | src/components/WithdrawModal.jsx:349-349 | The transfer form is shown exactly when the status is idle or `failed`. |
| Withdraw.SubmitDisabled | src/components/WithdrawModal.jsx:460-462 | The submit button is disabled when the amount, the target chain or the recipient is missing, or while loading. |
| Withdraw.EnabledSubmitPassesGuard | src/components/WithdrawModal.jsx:458-462 | An enabled submit button, given a signer and a token, passes `handleWithdraw`'s guard. |
| Withdraw.WithdrawModal.constructor | src/components/WithdrawModal.jsx:34-48 | The modal starts idle, with no hashes, no error and no interval. |
| Withdraw.WithdrawModal.Reset | src/components/WithdrawModal.jsx:50-65 | Opening the modal clears the error, the status and both hashes, and stops the interval. |
| Withdraw.WithdrawModal.AnotherWithdrawal | src/components/WithdrawModal.jsx:504-512 | "Make Another Withdrawal" stops the interval and clears the status and both hashes, so the form is shown again. The error, the success count and the calls stay. |
| Withdraw.WithdrawModal.Poll | src/components/WithdrawModal.jsx:92-146 | The new tracker state is `WithdrawStep` of the old one. A status is recorded iff the poll sets one. Once the form is hidden, it stays hidden. |
| Withdraw.WithdrawModal.Tick | src/components/WithdrawModal.jsx:241-243 | One interval tick is `Run` over that one reply. |
| Withdraw.WithdrawModal.HandleWithdraw | src/components/WithdrawModal.jsx:148-268 | A missing input changes nothing. An invalid address sets only "Invalid recipient address". Otherwise: the calls are `WithdrawLog`; the statuses are `WithdrawTrail` (pending, confirming with `zetaTxHash` once sent, then failed or the first poll's status); `failed` is set iff a step threw, with `WithdrawErrorMessage`. On success the tracker is the first poll applied to `confirming`. |
| Withdraw.WithdrawModal.Submit | src/components/WithdrawModal.jsx:157-268 | Once the checks pass: the calls are `WithdrawLog` and the statuses `WithdrawTrail`; `failed` is set, and the form shown again, iff a step threw, with `WithdrawErrorMessage`; on success `zetaTxHash` is the sent hash and the tracker is the first poll applied to `confirming`. |
| Withdraw.WithdrawModal.TryWithdraw | src/components/WithdrawModal.jsx:161-248 | The `try` block: it fails with `WithdrawFailure`, and its calls and statuses are `WithdrawLog` and `TryTrail`. |
| Withdraw.WithdrawModal.ApproveIfNeeded | src/components/WithdrawModal.jsx:190-207 | The approval steps are appended exactly as `ApprovalLog`. It fails iff the approval threw. |
| Withdraw.WithdrawModal.SendWithdrawal | src/components/WithdrawModal.jsx:216-247 | `withdrawToChain` and its inclusion, the `confirming` status with `zetaTxHash`, then the first poll. |
| Deposit.NetworkUsdc | src/components/DepositModal.jsx:31-53 | A network exists exactly for the Arbitrum, Base and Avalanche chain ids. |
| Deposit.StatusLabel | src/components/DepositModal.jsx:283-307 | No label while idle. Every status missing from `statusMap` (pending, processing, outboundMined) shows "Processing...". Failed shows "Transaction failed". |
| Deposit.DepositErrorMessage | src/components/DepositModal.jsx:267-274 | `Error: data.message`, else `message`, else "Transaction failed". Never empty. |
| Deposit.DepositLogOrder | src/components/DepositModal.jsx:207-248 | The gateway approval is sent iff the allowance is below the amount. `depositAndCall` is sent once, iff every earlier step succeeded, after the awaited approval when one was needed. It carries the amount and the recipient. |
| Deposit.DepositTrailProgression | src/components/DepositModal.jsx:191-265 | The statuses start at `preparing`. `approving` follows only `preparing`. `depositing` follows only `preparing` or `approving`. `failed` is set iff a step threw, and then it is the last status. |
| Deposit.DepositModal.constructor | src/components/DepositModal.jsx:55-68 | The modal starts idle, with no hashes, no error and no interval. |
| Deposit.DepositModal.Reset | src/components/DepositModal.jsx:70-83 | Opening the modal clears the error, the status and both hashes, and stops the interval. |
| Deposit.DepositModal.TryAgain | src/components/DepositModal.jsx:352-357 | "Try Again" clears the status and both hashes. It does not touch the interval, so the polling flag and the success count stay, and so does the error. |
| Deposit.DepositModal.Poll | src/components/DepositModal.jsx:91-124 | The new tracker state is `DepositStep` of the old one. A status is recorded iff the poll sets one. |
| Deposit.DepositModal.Tick | src/components/DepositModal.jsx:255-256 | One interval tick is `Run` over that one reply. |
| Deposit.DepositModal.HandleDeposit | src/components/DepositModal.jsx:186-278 | An unsupported chain or a missing input changes nothing. Otherwise: the calls are `DepositLog`; the statuses are `DepositTrail`; `failed` is set iff a step threw, with `DepositErrorMessage`; `txHash` is set once sent. On success the tracker is the first poll applied to `confirming`. |
| Deposit.DepositModal.Submit | src/components/DepositModal.jsx:189-278 | Once the guard passes: the calls are `DepositLog` and the statuses `DepositTrail`; `failed` is set iff a step threw, with `DepositErrorMessage`; on success `txHash` is the sent hash and the tracker is the first poll applied to `confirming`. |
| Deposit.DepositModal.TryDeposit | src/components/DepositModal.jsx:193-261 | The `try` block: it fails with `DepositFailure`, and its calls and statuses are `DepositLog` and `TryTrail`. |
| Deposit.DepositModal.ApproveIfNeeded | src/components/DepositModal.jsx:207-220 | `approving` and the approval steps are set iff the allowance is short. It fails iff the approval threw. |
| Deposit.DepositModal.SendDeposit | src/components/DepositModal.jsx:223-257 | `depositing`, the payload, `depositAndCall` and its inclusion, `confirming` with `txHash`, then the first poll. |
| Conversion.ConvertErrorMessage | src/components/ConversionModal.jsx:136-138 | `message`, else "Transaction failed". Never empty. |
| Conversion.SubmitEnabled | src/components/ConversionModal.jsx:237-239 | The submit button is enabled when there is an amount, nothing is loading, and in redeem mode a target coin is chosen. |
| Conversion.PoolSlot | src/components/ConversionModal.jsx:104-111 | The slot is `tokenIndexMap` of the token's own symbol when converting (line 78) and of the target coin when redeeming. Any other mode has no slot. |
| Conversion.EnabledSubmitPassesGuard | src/components/ConversionModal.jsx:237-239 | An enabled submit button passes `handleConvert`'s guard. In redeem mode it also means a target coin is chosen. |
| Conversion.ConvertLogShape | src/components/ConversionModal.jsx:61-132 | The first step is an approval of exactly the amount to the pool, sent without any allowance check. The pool call comes right after the awaited approval. The convert vector holds the amount at the token's slot only. The minimum is exactly the one as written, `SlippageMin(amount, k)` when converting and `SlippageMin(quote, k)` when redeeming: for 0 ≤ k ≤ 100 it lies in [0, amount] or [0, quote], it equals the amount at k = 0, and for k ≥ 100 it is at most 0. The redeem call carries the amount, the target slot and the quote's minimum. The pool call is awaited iff nothing threw before it. |
| Conversion.ConversionModal.constructor | src/components/ConversionModal.jsx:16-21 | The modal starts with no error, not loading and not closed. |
| Conversion.ConversionModal.Reset | src/components/ConversionModal.jsx:23-27 | Opening the modal or changing the token clears the error. Nothing else changes. |
| Conversion.ConversionModal.HandleConvert | src/components/ConversionModal.jsx:35-142 | A missing signer, token or amount changes nothing. Otherwise: the calls are `ConvertLog`; `onSuccess` and `onClose` run iff nothing threw; the error is `ConvertErrorMessage` of the exception; loading ends false. |
| Conversion.ConversionModal.TryConvert | src/components/ConversionModal.jsx:41-135 | The `try` block: it fails with `ConvertFailure`, and its calls are `ConvertLog`. |
| Balances.FetchOne | src/hooks/useZRC20Balances.js:64-92 | The record keeps the token's metadata. A failed read gives balance 0, 18 decimals and the error's message. A successful read gives what was read, with no error. |
| Balances.FetchAll | src/hooks/useZRC20Balances.js:63-94 | One record per token of the list, in list order. |
| Balances.StrCompare | src/hooks/useZRC20Balances.js:103-103 | `localeCompare` taken as lexicographic order on code points: negative, zero or positive. |
| Balances.StrCompareAntisymmetric | src/hooks/useZRC20Balances.js:103-103 | Swapping the arguments of the symbol comparison negates it. |
| Balances.StrCompareZeroIsEqual | src/hooks/useZRC20Balances.js:103-103 | The symbol comparison is zero exactly for equal symbols. |
| Balances.StrCompareTransitive | src/hooks/useZRC20Balances.js:103-103 | The symbol order is transitive. |
| Balances.Compare | src/hooks/useZRC20Balances.js:97-104 | Non-zero comes before zero, zero comes after non-zero, and otherwise entries are ordered by symbol. |
| Balances.LeTotal | src/hooks/useZRC20Balances.js:97-104 | Any two entries are ordered one way or the other. |
| Balances.LeTransitive | src/hooks/useZRC20Balances.js:97-104 | The comparator's order is transitive. |
| Balances.AdjacentSortedIsSorted | src/hooks/useZRC20Balances.js:97-104 | Neighbours in order imply every pair in order. |
| Balances.SortedMeansNonZeroFirstThenBySymbol | src/hooks/useZRC20Balances.js:99-103 | In a sorted list no zero entry precedes a non-zero one, and entries of the same kind are in symbol order. |
| Balances.SortBalances | src/hooks/useZRC20Balances.js:97-104 | The in-place sort leaves the array sorted and a permutation of its input. |
| Balances.SiftDown | src/hooks/useZRC20Balances.js:97-104 | One insertion step extends the sorted prefix by one, as a permutation. |
| Balances.SwapKeepsOrder | src/hooks/useZRC20Balances.js:97-104 | Swapping an out-of-order neighbour pair keeps the rest of the prefix ordered and moves the one unordered position left. |
| Balances.BalancesHook.constructor | src/hooks/useZRC20Balances.js:7-9 | The hook starts with an empty list, not loading and no error. |
| Balances.BalancesHook.Refresh | src/hooks/useZRC20Balances.js:11-116 | Without an account or provider the list is emptied and nothing else changes. Otherwise the list is a sorted permutation of `FetchAll` of the reads, and loading ends false. |
| Balances.RefreshListsEachTokenOnce | src/hooks/useZRC20Balances.js:25-63 | After a refresh the list has five entries, each listed token appears in it, and no two entries share a token. So each token appears exactly once. |
| Wallet.HexChar | src/hooks/useWallet.js:101-101 | A lower-case hexadecimal digit. |
| Wallet.ToHex | src/hooks/useWallet.js:101-101 | `n.toString(16)`: non-empty, with lower-case hex digits only. |
| Wallet.ChainIdHex | src/hooks/useWallet.js:101-101 | The switch request's chain id starts with `0x` and has digits after it. |
| Wallet.DigitValue | src/hooks/useWallet.js:160-160 | Hex digit values are below 16, and each lower-case digit reads back to itself. |
| Wallet.HexPrefixLength | src/hooks/useWallet.js:160-160 | `parseInt` reads the longest prefix of hex digits. |
| Wallet.ParseInt16 | src/hooks/useWallet.js:160-160 | `parseInt(s, 16)` is NaN exactly when no hex digit follows the sign and the `0x` prefix. |
| Wallet.HexValueOfToHex | src/hooks/useWallet.js:101-101 | The digits of `n.toString(16)` denote `n`. |
| Wallet.ParseChainIdHex | src/hooks/useWallet.js:160-160 | Parsing the encoded chain id returns the same id. |
| Wallet.HexValueAtLeastLeadingDigit | src/hooks/useWallet.js:160-160 | A digit string is worth at least its leading digit. |
| Wallet.ToHexOfHexValue | src/hooks/useWallet.js:101-101 | Encoding the value of canonical digits gives the digits back. |
| Wallet.ChainIdHexOfParse | src/hooks/useWallet.js:158-161 | Every canonical `0x…` chain id is the encoding of the number it parses to. |
| Wallet.NetworkName | src/hooks/useWallet.js:7-13 | A name exists exactly for the five known chains, and it is non-empty. |
| Wallet.NameOrId | src/hooks/useWallet.js:117-117 | The network's name, else the decimal chain id. |
| Wallet.MismatchError | src/hooks/useWallet.js:115-119 | The switch-mismatch error has no code, and its message begins "Network switch failed. Expected" followed by the target's name or id. |
| Wallet.SwitchErrorMessage | src/hooks/useWallet.js:126-133 | Code 4902 gives "The <network> …" and never the generic prefix. Any other error gives "Network switch error: " followed by its message. |
| Wallet.SwitchFailure | src/hooks/useWallet.js:103-121 | `switchToChain` fails with the exception from the switch request or the network query, or with the mismatch error when the reported chain is not the target. Without a provider it does not fail. |
| Wallet.MismatchFailsNamingTarget | src/hooks/useWallet.js:115-133 | A switch that reports another chain fails with the generic prefix and a message naming the target. |
| Wallet.WalletHook.constructor | src/hooks/useWallet.js:16-22 | The hook starts disconnected, with no error and no switch in progress. |
| Wallet.WalletHook.IsConnected | src/hooks/useWallet.js:227-227 | `isConnected` is `!!account`: the account is present and non-empty. |
| Wallet.WalletHook.ResetConnection | src/hooks/useWallet.js:37-42 | Provider, signer, account and chain id are cleared, so the hook is not connected. |
| Wallet.WalletHook.UpdateConnectionDetails | src/hooks/useWallet.js:45-62 | On success the four fields come from the provider and the error clears. On a throw only the error changes, to "Connection error: " followed by the message. |
| Wallet.WalletHook.ConnectWallet | src/hooks/useWallet.js:64-91 | No wallet: the no-wallet message and nothing else. A failed request or provider: "Failed to connect: …" and a reset. Otherwise it is `UpdateConnectionDetails`. Connecting ends false. |
| Wallet.WalletHook.SwitchToChain | src/hooks/useWallet.js:93-137 | A no-op without a wallet or provider. Otherwise the request carries `ChainIdHex(target)`, and switching ends false. A failure sets `SwitchErrorMessage` and keeps the connection. A reported chain other than the target is a failure. Success refreshes the connection. |
| Wallet.WalletHook.HandleAccountsChanged | src/hooks/useWallet.js:145-156 | A non-empty list selects its first account and refreshes. An empty list resets the four fields. |
| Wallet.WalletHook.HandleChainChanged | src/hooks/useWallet.js:158-168 | The chain id becomes `parseInt(hex, 16)`, then the connection refreshes. |
| Wallet.WalletHook.HandleDisconnect | src/hooks/useWallet.js:178-182 | The four fields are reset, the hook is not connected, and the error is "Wallet disconnected". |

## Left out

- **Not modelled:**
  - network requests to the indexer;
  - `ethers` contract calls;
  - `window.ethereum` requests and event wiring;
  - timers and React rendering.

  Their outcomes are parameters instead: replies, allowances, quotes, hashes, and success or exception of each awaited call.
- `parseUnits`, `formatUnits`, address validation and ABI encoding are library code. The parsed amount and address validity are inputs. An encoding failure is an input outcome.
- Negative amounts are not modelled. The parsed amount is a `nat` in `WithdrawEnv`, `DepositEnv` and `ConvertEnv`. The amount inputs have no `min`, and the guards test only for an empty string, so `parseUnits("-5", 6)` yields a negative amount. The withdraw and deposit modals would then skip the approval, because `allowance.lt` of a negative amount is false. The send would then throw in the uint256 encoder. The conversion modal's approval would throw there. The model does not represent those amounts. An environment whose send throws covers the outcome, but not the negative amount itself.
- `src/constants/addresses.js` is not part of this model. Contract addresses are omitted. The chain ids use the chains' public values, and Solana's 900 is assumed. The proofs depend only on the ids being distinct.
- The ABI encoder's rejection of an `undefined` coin index is not modelled. A missing slot is recorded in the call log as computed, as `None` or an all-zero vector. As written, the slippage minimum at 2.0% is negative, and the uint256 encoder would then make the pool send throw. The model states only the negative value (`TwoPercentFloorIsNegative`, `SlippageUnitsMismatch`). The pool send's outcome stays an input. The modal's model carries the minimum as written: at 2.0% every logged pool call holds minus the amount or minus the quote (`TwoPercentLogsNegativeMinimum`).
- Withdraw.WithdrawModal.Reset: the effect also clears the typed amount, the target chain and the recipient (lines 52-54 of src/components/WithdrawModal.jsx). These form values are arguments of `HandleWithdraw` rather than fields, so only the cleared error, status, hashes and interval are modelled.
- Deposit.DepositModal.Reset: the effect also clears the typed amount and sets the recipient to the connected account or "" (lines 72-73 of src/components/DepositModal.jsx). These form values are arguments of `HandleDeposit` rather than fields, so only the cleared error, status, hashes and interval are modelled.
- Conversion.ConversionModal.Reset: the effect also clears the typed amount. The amount is an argument of `HandleConvert` rather than a field, so only the cleared error is modelled.
- Balances.StrCompare: `localeCompare` is approximated as lexicographic order on code points. The five token symbols are ASCII and order the same way under both.
- Wallet.ParseInt16: the leading whitespace that `parseInt` skips is not modelled. Chain-change events carry no whitespace. `parseInt` returns a double, exact only up to 2^53; the model returns an unbounded integer, so `HexValueOfToHex` and `ParseChainIdHex` hold for every n. Chain ids lie far below 2^53.
- Wallet.ChainIdHex takes a non-negative id. Chain ids are positive, and negative numbers are not encoded.
- `formattedBalance` is a float. The model uses "balance > 0" for "formattedBalance > 0". This agrees because `decimals` is at most 255, so a positive balance never underflows to 0.
- `updateConnectionDetails` is not awaited in the event handlers, so its effect can interleave with later events. The model applies it at once.
- Balances.BalancesHook.Refresh: the outer `catch` of the hook is not modelled. Each token's read catches its own errors, and the comparator is total, so no exception reaches that `catch`.
- `initializeProvider`, `handleConnect` and `checkInitialConnection` reduce to whether a provider could be created plus `UpdateConnectionDetails`, and are not separate members.
- `handleMaxClick`, the balance display, explorer links, `usePoolData` and the formatters are presentation only.
- The deposit modal's `getUsdcBalance` is presentation only.
- Both modals' status trackers stop polling when the leg is mined: this is the intended behaviour (see Findings).

## Findings

| source | as written | input that shows it | evidently intended | confidence | as-written member | corrected member |
|---|---|---|---|---|---|---|
| src/components/WithdrawModal.jsx:124-128 | On `OutboundMined` the poll clears `statusCheckInterval` as captured in the closure. On the first withdrawal after the modal opens (or after its reset effect at lines 61-64) that value is still `null`, so the poll does not clear it: the interval keeps polling, calling `onSuccess` on every mined tick, until the modal closes or the token changes (lines 61-64), or the component unmounts (lines 68-74). After "Make Another Withdrawal" (lines 506-508) the closure holds the old truthy id and the cleanup effect (lines 68-74) clears the live interval. | Two ticks that both see a mined record: `onSuccess` is called twice. | Polling stops at the mined record, so `onSuccess` is called once. The deposit modal gets this through `setStatusCheckInterval(null)`. | not executed | Settlement.AsWrittenRepeatsSuccess | Settlement.SuccessFiresOnce |
| src/components/ConversionModal.jsx:83-85 | The minimum is `parsed * (100 - Math.floor(slippage * 100)) / 100`, which treats hundredths of a percent as percent. The same happens at lines 120-122. | The 2.0% option (k = 200): the minimum is minus the amount, which no uint256 can carry. The default 0.5% keeps only half the amount, and 1.0% keeps nothing. | The minimum is the amount less the selected percentage, `parsed * (10000 - k) / 10000`, as the option labels at lines 225-228 and the "0.5% default" comment at line 21 say. | not executed | Amounts.SlippageUnitsMismatch | Amounts.SelectorKeepsNinetyEightPercent |
