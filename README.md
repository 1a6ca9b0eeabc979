# Staking front end: a verified model of its state rules

This project models the client-side logic of a small dApp front end. The front end has two panels.

- A **wallet panel** connects an injected MetaMask wallet, switches it to the pSAGA chainlet and shows the full account address. The hook also keeps a one-entry native-balance list, which no component displays.
- A **staking panel** reads a fixed game contract (`stakes(account)`, `totalStaked()`, `winner()`), sends `stake`, `setWinner(account)` and `setWinner(0x0…0)` transactions, and redirects a player with a stake to the game world.

The model covers three pieces. Each is deterministic once the wallet's and the contract's answers are given as arguments.

1. **The staking panel** (`game_staking.dfy`, with `stake_amount.dfy`):
   - The keystroke filter on the amount field.
   - The `parseFloat(amount) <= 0` guard, modelled exactly without floating point.
   - How each handler changes the `GameState` record and the three busy flags.
   - The `disabled=` conditions of the buttons.
2. **The wallet session** (`use_metamask.dfy`): the provider's state hooks and the transitions that update them.
3. **The wallet panel's display rules** (`metamask_connection.dfy`): the status and button labels, which boxes are shown, and the `copied` flag. It also models `shortenAddress`, a helper the panel defines but never calls.

`js_values.dfy` holds the JavaScript conventions these pieces share:
- `null`-able values.
- The truthiness of `string | null`.
- `message || fallback`.
- The clamping of `String.prototype.substring`.

Each source file that changes state in place has two halves in the model:
- A pure **specification function** on a record (`Fetched`, `Staked`, `Connected`, …). Its `ensures` clauses state what the source promises.
- A **class** whose fields are the component's state hooks. Its methods follow the handler statement by statement, including busy flags raised and then lowered in `finally`. Each method's `ensures` ties the new state to the specification function.

The recursive functions `GameStaking.Run` and `UseMetaMask.Replay` apply any sequence of handlers. Their contracts are the invariants:
- The amount field stays well-formed.
- No busy flag is left raised.
- A connected session has an account.
- The balance list is empty or holds the single pSAGA entry with 6 decimals.

Some behaviour of the code worth stating outright:
- `fetchContractData` copies `stakes(account)` as the contract reports it and never masks it (`GameStaking.Fetched`). The only reset is the local one in `handleStartNewSession`, and the refetch at client/src/components/GameStaking.tsx:326 overwrites it when the read succeeds (`GameStaking.NewSessionStarted`).
- The contract data is polled every 15 seconds. The component never calls the contract's `unstake`.
- The filter strips `-`, so typing `"-1"` gives `"1"`.

## Model

| member | source | states |
|---|---|---|
| `StakeAmount.Sanitize` | client/src/components/GameStaking.tsx:99 | the filtered value holds only digits and points, and keeps every digit and point of the input (multiset counts) |
| `StakeAmount.SanitizeAppend` | client/src/components/GameStaking.tsx:99 | the filter works character by character: it distributes over concatenation |
| `StakeAmount.SanitizeKeepsAmountStrings` | client/src/components/GameStaking.tsx:99 | a string of digits and points passes the filter unchanged |
| `StakeAmount.SanitizeIdempotent` | client/src/components/GameStaking.tsx:99 | filtering twice is the same as filtering once |
| `StakeAmount.Split` | client/src/components/GameStaking.tsx:102-103 | `split('.')` yields one more piece than the string has points |
| `StakeAmount.JoinSplit` | client/src/components/GameStaking.tsx:102 | joining the pieces with `.` gives back the split string |
| `StakeAmount.SplitPiecesAreSeparatorFree` | client/src/components/GameStaking.tsx:102 | no piece of the split contains a point |
| `StakeAmount.SplitWithoutSeparator` | client/src/components/GameStaking.tsx:102-103 | a string with no point splits into itself alone |
| `StakeAmount.SplitAtOnlyPoint` | client/src/components/GameStaking.tsx:108 | with exactly one point, `parts[1]` is everything after it |
| `StakeAmount.PassesPointChecksExactly` | client/src/components/GameStaking.tsx:102-110 | the two early returns let a value through iff it has at most one point and at most 6 digits after it |
| `StakeAmount.AfterKeystroke` | client/src/components/GameStaking.tsx:97-113 | a keystroke sets the field to the filtered value iff that value is well-formed, and otherwise leaves it unchanged; a well-formed field stays well-formed |
| `StakeAmount.DigitValueZero` | client/src/components/GameStaking.tsx:126 | the digits of an amount spell zero iff every digit is `0` |
| `StakeAmount.ParseAmount` | client/src/components/GameStaking.tsx:126 | `parseFloat` of a well-formed amount is NaN iff it has no digit, and otherwise has at most 6 fractional digits |
| `StakeAmount.ParsesNonPositiveExactly` | client/src/components/GameStaking.tsx:126 | `parseFloat(amount) <= 0` holds iff the amount has a digit and all its digits are `0` |
| `StakeAmount.NoDigitPassesGuard` | client/src/components/GameStaking.tsx:126 | `""` and `"."` are well-formed and get past the positivity guard (NaN is not `<= 0`) |
| `JsValues.MessageOr` | client/src/hooks/useMetaMask.tsx:259 | the `message`-or-fallback of the catch blocks is the message when it is non-empty, and otherwise the fallback; it is never empty when the fallback is non-empty |
| `GameStaking.WinnerView` | client/src/components/GameStaking.tsx:70 | the shown winner is `null` iff the contract reports the zero address, and otherwise is that address |
| `GameStaking.Fetched` | client/src/components/GameStaking.tsx:43-79 | no change without connection, account and wallet; a read overwrites both amounts (stake copied verbatim) and the winner and keeps `isStaking` and `error`; a failed read changes only `error` |
| `GameStaking.FetchedIdempotent` | client/src/components/GameStaking.tsx:66-71 | applying the same read twice gives the same record as applying it once |
| `GameStaking.Staked` | client/src/components/GameStaking.tsx:116-189 | no change when not connected or when the amount parses to at most 0; otherwise `isStaking` ends false; the field becomes `'0'` iff the transaction is mined; a mined stake is refetched: a successful read shows the new stake, total and winner with the error cleared, a failed read keeps the amounts and the winner and sets `Failed to fetch game data`; a failed transaction keeps the amounts and the winner and sets a non-empty error |
| `GameStaking.EnterRequested` | client/src/components/GameStaking.tsx:192-211 | the handler is ignored when not connected or when the stake is `<= 0`, and otherwise only raises `isEntering` |
| `GameStaking.RedirectFired` | client/src/components/GameStaking.tsx:220-224 | the redirect callback lowers `isEntering` and changes nothing else |
| `GameStaking.WinnerSet` | client/src/components/GameStaking.tsx:228-277 | no change without a connection; otherwise `isSettingWinner` ends false, a failed transaction leaves the record untouched; a mined one shows the refetched stake, total and winner with the error kept, or, when the refetch fails, keeps the amounts and the winner and sets `Failed to fetch game data`; `isStaking` never changes |
| `GameStaking.NewSessionStarted` | client/src/components/GameStaking.tsx:280-345 | after a mined reset the view shows stake 0, total 0 and no winner when the refetch fails, and the refetched amounts and winner, with the error kept, when it succeeds; `isStartingNewSession` ends false on every path past the guard |
| `GameStaking.ButtonsWhenIdle` | client/src/components/GameStaking.tsx:406-466 | with no handler running, the set-winner button, the new-session button and the amount input are disabled iff not connected |
| `GameStaking.ZeroAmountBlocksStake` | client/src/components/GameStaking.tsx:474-478 | an amount whose digits are all `0` disables the stake button, and `handleStake` then changes nothing |
| `GameStaking.NoStakeBlocksEntry` | client/src/components/GameStaking.tsx:492-496 | a zero stake disables the enter button, and `handleEnterGame` then changes nothing |
| `GameStaking.NewSessionShownAfterRead` | client/src/components/GameStaking.tsx:427 | after a read, the new-session button is shown iff the winner is neither the zero address nor empty |
| `GameStaking.Run` | client/src/components/GameStaking.tsx:82-345 | any sequence of keystrokes, polls and handlers keeps the amount field well-formed and leaves no busy flag raised |
| `GameStaking.InitialPanelIsIdleAndWellFormed` | client/src/components/GameStaking.tsx:30-40 | the initial state is well-formed and idle, and its `'0'` amount disables the stake button for every wallet view |
| `GameStaking.Component.constructor` | client/src/components/GameStaking.tsx:30-40 | the state hooks start at `'0'`, zero amounts, no winner, no error and lowered flags |
| `GameStaking.Component.FetchContractData` | client/src/components/GameStaking.tsx:43-79 | the record becomes `Fetched` of the old record |
| `GameStaking.Component.HandleStakeAmountChange` | client/src/components/GameStaking.tsx:97-113 | the split-based handler sets the field to `AfterKeystroke` of its old value and keeps it well-formed |
| `GameStaking.Component.HandleStake` | client/src/components/GameStaking.tsx:116-189 | the step-by-step handler (flag up, try, catch, finally) ends in `Staked` of the old state |
| `GameStaking.Component.HandleEnterGame` | client/src/components/GameStaking.tsx:192-211 | the handler ends in `EnterRequested` of the old state |
| `GameStaking.Component.OnRedirectTimer` | client/src/components/GameStaking.tsx:220-224 | the callback ends in `RedirectFired` of the old state |
| `GameStaking.Component.HandleSetWinner` | client/src/components/GameStaking.tsx:228-277 | the handler ends in `WinnerSet` of the old state |
| `GameStaking.Component.HandleStartNewSession` | client/src/components/GameStaking.tsx:280-345 | the local reset followed by the refetch ends in `NewSessionStarted` of the old state |
| `UseMetaMask.NativeBalance` | client/src/hooks/useMetaMask.tsx:101-108 | the only stored balance entry has symbol `pSAGA`, decimals 6 and the balance that was read |
| `UseMetaMask.BalanceFetched` | client/src/hooks/useMetaMask.tsx:88-117 | no change for an empty address; otherwise the balances become exactly the one pSAGA entry, or the error is set, and `isLoadingBalances` ends false; connection fields untouched; consistency kept |
| `UseMetaMask.Refreshed` | client/src/hooks/useMetaMask.tsx:120-127 | no change without an account or a provider; otherwise a balance fetch for the account |
| `UseMetaMask.AccountsChanged` | client/src/hooks/useMetaMask.tsx:132-147 | an empty list clears connection, account and balances and keeps `chainId`; a non-empty list connects its first account and keeps `chainId`; with a provider and a non-empty account the balances become the single pSAGA entry, or the error becomes `Failed to fetch token balances`; otherwise (no provider, empty account) balances and error stay as they were, the previous account's entry included; `isConnecting` and the provider never change, and the loading flag is lowered exactly when a fetch runs |
| `UseMetaMask.ChainAddResult` | client/src/hooks/useMetaMask.tsx:168-203 | returns true iff a wallet is injected and the add request succeeds; on false only a non-empty error changes |
| `UseMetaMask.Connected` | client/src/hooks/useMetaMask.tsx:206-263 | with no wallet, only `error` is set; otherwise `isConnecting` ends false; `isConnected` is set iff already connected or (accounts granted and (switch ok or (code 4902 and add ok))); the first account is stored even when the switch fails; a failure leaves the balances and the loading flag unchanged and sets the error the panel shows: the request's message or `Failed to connect to MetaMask`, `No accounts found` for an empty list, the switch error's message or the same fallback for a code other than 4902, and `Failed to add VERSUS Chainlet to MetaMask` when the add fails, replacing the add's own message; a connect that gets through ends with the provider set, the balances replaced by the pSAGA entry of a successful read (kept on a failed read or an empty account) and the error cleared or set to the balance error; `chainId` is never changed |
| `UseMetaMask.Disconnected` | client/src/hooks/useMetaMask.tsx:266-271 | not connected, no account, no chain id, no balances; `error`, `isConnecting` and `isLoadingBalances` unchanged |
| `UseMetaMask.Started` | client/src/hooks/useMetaMask.tsx:59-85 | with a wallet the provider is kept; a listed account connects the session; only when the network was read do the chain id change and the balance fetch run, which sets the balances to the pSAGA entry or the error to the balance error; otherwise balances and error are kept; `isConnecting` never changes, and the loading flag is lowered exactly when the fetch runs |
| `UseMetaMask.Replay` | client/src/hooks/useMetaMask.tsx:49-56 | any sequence of connects, disconnects, account changes and refreshes keeps the session consistent and its busy flags lowered |
| `UseMetaMask.StartedSessionIsConsistent` | client/src/hooks/useMetaMask.tsx:59-85 | the session after mounting is consistent and settled, whatever the start-up check finds |
| `UseMetaMask.MetaMaskProvider.constructor` | client/src/hooks/useMetaMask.tsx:49-56 | the hooks start disconnected, with no account, chain, error, provider or balances |
| `UseMetaMask.MetaMaskProvider.InitProvider` | client/src/hooks/useMetaMask.tsx:59-85 | the mount effect ends in `Started` of the old session |
| `UseMetaMask.MetaMaskProvider.FetchNativeBalance` | client/src/hooks/useMetaMask.tsx:88-117 | the step-by-step fetch (flag up, try, catch, finally) ends in `BalanceFetched` |
| `UseMetaMask.MetaMaskProvider.RefreshBalances` | client/src/hooks/useMetaMask.tsx:120-127 | ends in `Refreshed` of the old session |
| `UseMetaMask.MetaMaskProvider.HandleAccountsChanged` | client/src/hooks/useMetaMask.tsx:132-147 | ends in `AccountsChanged` of the old session |
| `UseMetaMask.MetaMaskProvider.AddChainToMetaMask` | client/src/hooks/useMetaMask.tsx:168-203 | the new session and the returned flag are `ChainAddResult` of the old session |
| `UseMetaMask.MetaMaskProvider.ConnectWallet` | client/src/hooks/useMetaMask.tsx:206-263 | the handler with its nested try blocks ends in `Connected` of the old session |
| `UseMetaMask.MetaMaskProvider.DisconnectWallet` | client/src/hooks/useMetaMask.tsx:266-271 | ends in `Disconnected` of the old session |
| `MetaMaskConnection.ShortenAddress` | client/src/components/MetaMaskConnection.tsx:31-33 | the first 6 characters, `...`, then the last 4 (a shorter address is kept whole on that side); length 13 for addresses of 10 or more characters |
| `MetaMaskConnection.StatusText` | client/src/components/MetaMaskConnection.tsx:45 | `Connected` iff connected; `Error` iff not connected and an error is set; otherwise `Disconnected` |
| `MetaMaskConnection.IndicatorColour` | client/src/components/MetaMaskConnection.tsx:42-44 | green, red and grey exactly when the label is `Connected`, `Error` and `Disconnected` |
| `MetaMaskConnection.ConnectButtonText` | client/src/components/MetaMaskConnection.tsx:66 | `Connecting...` iff connecting; `Connected` iff connected and not connecting; otherwise `Connect MetaMask` |
| `MetaMaskConnection.FailedConnectShowsError` | client/src/components/MetaMaskConnection.tsx:42-78 | a failed connect from a disconnected session shows `Error` and the error box, hides the account box, and re-enables the button |
| `MetaMaskConnection.SuccessfulConnectShowsAccount` | client/src/components/MetaMaskConnection.tsx:55-78 | a connect that gets through shows `Connected`, disables the button, and shows the account box iff the account is non-empty |
| `MetaMaskConnection.DisconnectHidesAccount` | client/src/components/MetaMaskConnection.tsx:55-78 | after a disconnect the account box is hidden, the label is not `Connected`, and the button is disabled iff a connect is running |
| `MetaMaskConnection.Component.constructor` | client/src/components/MetaMaskConnection.tsx:19 | `copied` starts false |
| `MetaMaskConnection.Component.HandleCopyAddress` | client/src/components/MetaMaskConnection.tsx:21-29 | `copied` becomes true only when an account exists and the clipboard write succeeds, and is unchanged otherwise |
| `MetaMaskConnection.Component.OnCopyResetTimer` | client/src/components/MetaMaskConnection.tsx:26 | the reset callback lowers `copied` |

## Left out

- Wallet, provider and contract calls are abstracted into their answers, given as arguments. This covers provider construction, `getSigner`, the three contract reads, `stake`/`setWinner` and `tx.wait`, and the `eth_requestAccounts`, `wallet_switchEthereumChain` and `wallet_addEthereumChain` requests. A missing `error.message` is the empty string.
- `ethers.parseUnits` and `ethers.formatUnits` are library code. When `parseUnits` rejects an amount (for example `""` or `"."`, which pass the guard), that is part of the stake transaction failing. The formatted balance text is part of the balance answer.
- `formatEthers` (floating-point display formatting) is not part of this model.
- Timers and scheduling are not modelled: the 15-second poll interval, the 1.5-second redirect delay and `window.open`, and the 2-second copy reset. What their callbacks do to the state is modelled (`GameStaking.Poll`/`Fetched`, `RedirectFired`, `OnCopyResetTimer`).
- Interleaving is not captured. Each handler runs to completion: the model does not cover a poll or a second click landing while a handler awaits. The busy flags exist in the source to limit that.
- The `chainChanged` listener is not modelled. It sets `chainId` and then reloads the page, which discards all state. Registering and removing the listeners is not modelled either.
- The `Invalid chain configuration` branches of `addChainToMetaMask` and `connectWallet` are unreachable and not modelled. `getFormattedChainId` always returns the constant `0x2a`; which chain the switch asks for does not affect any transition, since the wallet's answer is an argument.
- The optional `isStartingNewSession` field of the `GameState` interface is never written by the component, which uses a separate state hook. It is left out of the record.
- `GameStaking.GameState`: the stake and total are the contract's `uint256` values as integers, not decimal strings. The component only writes `'0'` or a bigint's `toString()`. It reads them back through `getBigInt` and, for display only, through `formatEthers` in `formatStake`, which is left out.
- StakeAmount.ParseAmount: `parseFloat` is modelled only on well-formed amounts (digits and at most one point, at most 6 fractional digits). These are the only strings the component passes it, because of the field's invariant. Rounding to a double cannot change the sign of such a number.
- Toasts, console logging, JSX layout, the loading screen, the routing pages and the chain configuration record are not part of this model, apart from the constants used here. The same goes for the contract's own stake accounting.
