# Starknet withdrawal step and email step, modelled in Dafny

This project models two React components of the Layerswap web app.

- **The Starknet withdrawal step** (`StarknetWalletWithdrawStep`). It holds four pieces of state: `loading`, `account`, `isWrongNetwork` and `transferDone`. Its handlers change that state:
  - connecting a Starknet wallet, with a check of the wallet's chain id against the source network's;
  - disconnecting;
  - refreshing the account;
  - submitting the ERC-20 transfer to the managed deposit address, batched with the watchdog contract's `watch` call.

  An effect moves the wizard on when the backend reports the swap past the user's transfer. The render decides which buttons are offered.
- **The amount encoding** used by that transfer. `parseInputAmountToUint256` turns the requested decimal amount into the token's smallest unit with ethers' `parseUnits`, then into the Starknet `Uint256` calldata struct `{ type: "struct", low, high }`.
- **The email step** (`SendEmail`). `validateEmail` checks the form field against `^[A-Z0-9._%+-]+@[A-Z0-9.-]+\.[A-Z]{2,4}$` (case-insensitive). `sendEmail` asks the backend for a login code unless one was already requested for the same address. It then stores the next allowed request time, marks the code as requested, starts the 60-second resend timer, stores the address and hands it on.

## How the model is built

- `wrappers.dfy`: `Option`.
- `starknet_amount.dfy` (module `StarknetAmount`) is pure.
  - A decimal text is modelled by its value, `Decimal(digits, scale)` = digits / 10^scale.
  - `ParseUnits` yields the integer n with n · 10^scale = digits · 10^decimals. It fails when no such integer exists, and when `decimals` is above 256 (ethers' "invalid decimal size").
  - `BnToUint256` splits a number below 2^256 into its two 128-bit halves, and fails otherwise.
- `starknet_withdraw.dfy` (module `StarknetWithdraw`) holds the class `WithdrawStep`.
  - Its fields are the component's state and a `trace` of every effect performed so far: each state setter, and each call into the wallet SDK, the backend, the toaster or the wizard.
  - Its invariant `Valid()` says that the fields are exactly the replay of the trace from the initial state.
  - Each handler is a method. It is proved to append exactly the effect sequence given by a specification function (`ConnectEffects`, `TransferEffects`, and so on).
  - The properties are lemmas about those functions and about `Replay`.
  - What the wallet SDK and the backend answer is a parameter (`ConnectOutcome`, `ExecuteOutcome`, the `mutateSwap` error), so each handler is specified for each answer. A rejection of `connect()` with `null` or `undefined` is an answer of its own (`ConnectThrewNullish`).
- `email_validation.dfy` (module `EmailValidation`) is pure.
  - The pattern is stated declaratively: `MatchesPattern` says that some split into local part, '@', domain, '.' and two to four letters exists.
  - `IsValidEmailAddress` decides it without backtracking, from the first '@' and the last '.'.
- `send_email.dfy` (module `SendEmail`) holds the class `EmailStep`. It uses the same trace discipline over the auth context (stored address, `codeRequested`), the stored next-code time and the started timer.

The model follows the code as written, including four behaviours a reader might not expect:

- `handleTransfer` has no guard against a second submission. Only the disabled button prevents one (`NoReentrancyGuard`).
- `setSwapPublishedTx` is not awaited. The model orders it before `mutateSwap` and `goToStep`, as the code issues them.
- `handleRefresh` stores whatever account the wallet reports, without the chain check that `handleConnect` makes (`RefreshSkipsChainCheck`).
- If `connect()` rejects with `null` or `undefined`, reading `e.message` in `handleConnect`'s `catch` throws. The handler then stops before `setLoading(false)`, and Connect stays disabled (`ConnectNullishStaysLoading`). `handleTransfer`'s outer `catch` reads `e?.message` and has no such case.

## Model

| member | source | states |
|---|---|---|
| StarknetAmount.BnToUint256 | components/Wizard/Steps/Wallet/StarknetWalletWithdraw.tsx:26-28 | the split succeeds exactly when the value is below 2^256; then both halves are below 2^128 and `low + high · 2^128` gives back the value |
| StarknetAmount.Uint256RoundTrip | components/Wizard/Steps/Wallet/StarknetWalletWithdraw.tsx:26-28 | splitting the value of any well-formed struct gives back that struct (the inverse of `uint256ToBN`) |
| StarknetAmount.ParseUnits | components/Wizard/Steps/Wallet/StarknetWalletWithdraw.tsx:33 | a parsed amount n comes from a precision of at most 256 and is the decimal scaled to `decimals` places: n · 10^scale = digits · 10^decimals |
| StarknetAmount.ParseUnitsComplete | components/Wizard/Steps/Wallet/StarknetWalletWithdraw.tsx:33 | parsing fails exactly when `decimals` is above 256 or no integer amount exists, i.e. the fraction has more significant digits than `decimals` |
| StarknetAmount.ParseInputAmountToUint256 | components/Wizard/Steps/Wallet/StarknetWalletWithdraw.tsx:29-34 | with `decimals` defaulting to 18, a result comes from a precision of at most 256 and is a well-formed struct whose value is the input scaled to `decimals` places |
| StarknetAmount.ParseInputAmountFails | components/Wizard/Steps/Wallet/StarknetWalletWithdraw.tsx:29-34 | the encoding fails exactly when `decimals` is above 256, or the scaled amount is not an integer or is at least 2^256 |
| StarknetWithdraw.EncodeAmount | components/Wizard/Steps/Wallet/StarknetWalletWithdraw.tsx:127 | the transfer amount is the swap's requested amount at the currency's precision, or at 18 when the currency declares none, as a well-formed struct |
| StarknetWithdraw.WithdrawStep.constructor | components/Wizard/Steps/Wallet/StarknetWalletWithdraw.tsx:38-41 | the step mounts not loading, without an account, not on a wrong network and with no transfer done, with an empty trace |
| StarknetWithdraw.WithdrawStep.Perform | components/Wizard/Steps/Wallet/StarknetWalletWithdraw.tsx:38-41 | a setter changes exactly its own field and every other effect changes no field; the effect is appended to the trace and the invariant is kept |
| StarknetWithdraw.WithdrawStep.HandleConnect | components/Wizard/Steps/Wallet/StarknetWalletWithdraw.tsx:86-103 | appends exactly `ConnectEffects` for the wallet's answer, and the new state is their replay over the old one |
| StarknetWithdraw.WithdrawStep.Settle | components/Wizard/Steps/Wallet/StarknetWalletWithdraw.tsx:89-101 | once `connect()` settles: a mismatched chain id raises the flag and disconnects, a matching one clears it and stores the account, a rejection with an error toasts its message, a rejection with `null` or `undefined` toasts nothing |
| StarknetWithdraw.WithdrawStep.HandleDisconnect | components/Wizard/Steps/Wallet/StarknetWalletWithdraw.tsx:58-61 | disconnects with `clearLastWallet` and then clears the account, and nothing else |
| StarknetWithdraw.WithdrawStep.HandleRefresh | components/Wizard/Steps/Wallet/StarknetWalletWithdraw.tsx:160-163 | calls `connect()` and stores the reported account when it resolves; a rejection leaves the state unchanged |
| StarknetWithdraw.WithdrawStep.Reconcile | components/Wizard/Steps/Wallet/StarknetWalletWithdraw.tsx:79-84 | moves the wizard to the classified step exactly when one is classified and the swap no longer awaits the user's transfer |
| StarknetWithdraw.WithdrawStep.HandleTransfer | components/Wizard/Steps/Wallet/StarknetWalletWithdraw.tsx:105-158 | appends exactly `TransferEffects` for the account the handler captured, and the new state is their replay over the old one |
| StarknetWithdraw.WithdrawStep.Attempt | components/Wizard/Steps/Wallet/StarknetWalletWithdraw.tsx:107-156 | with no account, only the outer catch's toast of "starknet wallet not connected"; otherwise `BuildAndSubmit` runs |
| StarknetWithdraw.WithdrawStep.BuildAndSubmit | components/Wizard/Steps/Wallet/StarknetWalletWithdraw.tsx:112-134 | a missing currency or deposit address, or an amount that cannot be encoded, ends in the outer catch's toast before anything is submitted |
| StarknetWithdraw.WithdrawStep.Execute | components/Wizard/Steps/Wallet/StarknetWalletWithdraw.tsx:124-137 | submits one batch, the token transfer to the deposit address and then the watchdog `watch` call, before anything else happens |
| StarknetWithdraw.WithdrawStep.Submit | components/Wizard/Steps/Wallet/StarknetWalletWithdraw.tsx:136-151 | a rejected `execute` toasts its message; a resolution without a hash toasts "Transfer failed or terminated"; a hash is published |
| StarknetWithdraw.WithdrawStep.Publish | components/Wizard/Steps/Wallet/StarknetWalletWithdraw.tsx:139-143 | records the hash as completed and refreshes the swap, then, unless the refresh failed, goes to processing and marks the transfer done |
| StarknetWithdraw.WithdrawStep.Throw | components/Wizard/Steps/Wallet/StarknetWalletWithdraw.tsx:153-156 | the outer catch toasts only a non-empty message and leaves the state unchanged |
| StarknetWithdraw.ConnectHoldsLoading | components/Wizard/Steps/Wallet/StarknetWalletWithdraw.tsx:86-103 | whatever `connect()` does, `loading` is true after every effect of `handleConnect` but the last; it is false at the end exactly when `connect()` did not reject with `null` or `undefined` |
| StarknetWithdraw.TransferHoldsLoading | components/Wizard/Steps/Wallet/StarknetWalletWithdraw.tsx:105-158 | `loading` is true after every effect of `handleTransfer` but the last, and false at its end, on every path |
| StarknetWithdraw.ConnectNullishStaysLoading | components/Wizard/Steps/Wallet/StarknetWalletWithdraw.tsx:99-102 | a `connect()` rejected with `null` or `undefined` gives only: loading on, connect; `e.message` throws in the `catch`, nothing is toasted, `loading` stays true and Connect stays disabled |
| StarknetWithdraw.HandlersDisableTheirButtons | components/Wizard/Steps/Wallet/StarknetWalletWithdraw.tsx:193-206 | Connect is disabled after every effect of `handleConnect` but the last, and Transfer after every effect of `handleTransfer` but the last |
| StarknetWithdraw.TransferWrites | components/Wizard/Steps/Wallet/StarknetWalletWithdraw.tsx:107-156 | between its two `setLoading` calls `handleTransfer` writes no state but `transferDone` |
| StarknetWithdraw.TransferEffectsWrites | components/Wizard/Steps/Wallet/StarknetWalletWithdraw.tsx:105-158 | over the whole of `handleTransfer` only `loading` and `transferDone` are written |
| StarknetWithdraw.TransferKeepsConnection | components/Wizard/Steps/Wallet/StarknetWalletWithdraw.tsx:105-158 | `handleTransfer` leaves the account and the wrong-network flag as they were |
| StarknetWithdraw.ConnectRejected | components/Wizard/Steps/Wallet/StarknetWalletWithdraw.tsx:99-102 | a `connect()` rejected with an error gives exactly: loading on, connect, toast, loading off; only `loading` changes, and ends false |
| StarknetWithdraw.ConnectWrongChain | components/Wizard/Steps/Wallet/StarknetWalletWithdraw.tsx:89-93 | a wallet on another chain (or with no account) raises the flag and is disconnected; no account is stored |
| StarknetWithdraw.ConnectMatchingChain | components/Wizard/Steps/Wallet/StarknetWalletWithdraw.tsx:94-97 | a wallet on the source chain clears the flag and stores the wallet's account, in that order |
| StarknetWithdraw.HandlersKeepAccountOnChain | components/Wizard/Steps/Wallet/StarknetWalletWithdraw.tsx:86-103 | connect, disconnect, transfer and reconciliation never leave a stored account on another chain than the source network's |
| StarknetWithdraw.ConnectKeepsAccountOnChain | components/Wizard/Steps/Wallet/StarknetWalletWithdraw.tsx:89-97 | whatever `connect()` answers, `handleConnect` stores only an account on the source chain |
| StarknetWithdraw.RefreshSkipsChainCheck | components/Wizard/Steps/Wallet/StarknetWalletWithdraw.tsx:160-163 | a refresh stores an account on another chain, which breaks the chain invariant that the other handlers keep |
| StarknetWithdraw.TransferSucceeds | components/Wizard/Steps/Wallet/StarknetWalletWithdraw.tsx:105-158 | a hash and a successful refresh give exactly: loading on, the batch (transfer, then watch), publish, refresh, go to processing, done, loading off; the amount encodes the requested amount; Transfer is then disabled |
| StarknetWithdraw.TransferNotConfirmed | components/Wizard/Steps/Wallet/StarknetWalletWithdraw.tsx:105-158 | with no account, a rejected `execute` or no hash, nothing is published, the step does not change, the transfer is not marked done and only `loading` changes |
| StarknetWithdraw.UnconfirmedOnlyToasts | components/Wizard/Steps/Wallet/StarknetWalletWithdraw.tsx:107-156 | with no account, a rejected `execute` or no hash, the handler's body only submits the batch and toasts |
| StarknetWithdraw.TransferPublishesBeforeAdvancing | components/Wizard/Steps/Wallet/StarknetWalletWithdraw.tsx:138-144 | the wizard moves to processing only right after `setSwapPublishedTx` was issued (it is not awaited) and the swap refreshed, and right before the transfer is marked done |
| StarknetWithdraw.NoReentrancyGuard | components/Wizard/Steps/Wallet/StarknetWalletWithdraw.tsx:105-158 | a transfer already marked done is submitted again if the handler runs; only the disabled button prevents it |
| StarknetWithdraw.TransferDoneSticky | components/Wizard/Steps/Wallet/StarknetWalletWithdraw.tsx:143 | once set, `transferDone` stays true through every handler and the reconciliation |
| StarknetWithdraw.TransferNeverClearsDone | components/Wizard/Steps/Wallet/StarknetWalletWithdraw.tsx:143 | `handleTransfer` never sets `transferDone` to false |
| StarknetWithdraw.DisconnectOffersConnect | components/Wizard/Steps/Wallet/StarknetWalletWithdraw.tsx:193-206 | after a disconnect, Connect is rendered and Transfer is not |
| StarknetWithdraw.ControlsExclusive | components/Wizard/Steps/Wallet/StarknetWalletWithdraw.tsx:193-206 | the Connect and Transfer buttons are never rendered together |
| StarknetWithdraw.ConnectOffersTransfer | components/Wizard/Steps/Wallet/StarknetWalletWithdraw.tsx:193-206 | after a connect on the right chain that yields an account, Transfer is rendered exactly when a deposit address is known; after a wrong-chain connect it is not |
| StarknetWithdraw.ReconcileForcesNavigation | components/Wizard/Steps/Wallet/StarknetWalletWithdraw.tsx:79-84 | the effect navigates, to the classified step, exactly when a step is classified and the swap no longer awaits the user's transfer, and touches no component state |
| EmailValidation.IsValidEmailAddress | components/SendEmail.tsx:56 | the backtracking-free decision agrees with the pattern on every text |
| EmailValidation.ValidateEmail | components/SendEmail.tsx:52-60 | "Required" exactly for a missing or empty address, "Invalid email address" exactly for a non-empty one not matching the pattern, no error exactly for a match |
| EmailValidation.AcceptedLocalPart | components/SendEmail.tsx:56 | an accepted address has exactly one '@', preceded by a non-empty run of `[A-Za-z0-9._%+-]` |
| EmailValidation.AcceptedDomainPart | components/SendEmail.tsx:56 | after the '@' come a non-empty run of `[A-Za-z0-9.-]`, a '.', and two to four letters that end the text |
| EmailValidation.CaseInsensitive | components/SendEmail.tsx:56 | upper- or lower-casing the ASCII letters of an address never changes the verdict (the `i` flag) |
| SendEmail.Join | components/SendEmail.tsx:43 | joining no messages gives "", one message gives itself, and the result always starts with the first message |
| SendEmail.EmailStep.constructor | components/SendEmail.tsx:21-24 | the step starts from the auth context's address and `codeRequested` flag, with an empty trace |
| SendEmail.EmailStep.Perform | components/SendEmail.tsx:34-38 | a setter changes exactly its own part of the auth state; the effect is appended to the trace |
| SendEmail.EmailStep.SendEmail | components/SendEmail.tsx:26-50 | appends exactly `SendEffects` for the submitted address, the stored address and flag, and the backend's answer; the new state is their replay |
| SendEmail.EmailStep.RequestCode | components/SendEmail.tsx:30-36 | requests the code, then stores the next time, marks the code requested and starts a 60-second timer; the result says whether the request succeeded |
| SendEmail.EmailStep.Deliver | components/SendEmail.tsx:38-39 | updates the stored address and then calls `onSend` with it, and nothing else |
| SendEmail.RequestsCodeIffNeeded | components/SendEmail.tsx:29 | a code is requested exactly when the address differs from the stored one or no code was requested, and then as the first effect |
| SendEmail.SuccessfulRequestOrder | components/SendEmail.tsx:29-39 | a successful request gives, in order: request, store next time, mark requested, start the 60-second timer, update the address, `onSend`; the state ends with all four set |
| SendEmail.NoRequestNeeded | components/SendEmail.tsx:38-39 | without a request, only the address update and `onSend` happen, and the state is unchanged |
| SendEmail.BackendErrorAborts | components/SendEmail.tsx:41-48 | a rejected request toasts the server's messages joined with ", ", or the error's own message when the server sent none; no state changes and `onSend` is not called |
| SendEmail.ErrorAnswerAborts | components/SendEmail.tsx:32-33 | an answer with a non-empty error toasts that text; no state changes and `onSend` is not called |
| SendEmail.ResendSameAddressSkipsRequest | components/SendEmail.tsx:29-35 | after a successful send, sending the same address again requests no new code |

## Left out

- The wallet SDK (`connect`, `disconnect`, `account.execute`), the backend (`getCodeAsync`, `setSwapPublishedTx`, `mutateSwap`), the toaster, the timer and `onSend` are outside the model. Their calls are recorded as effects, and their answers are parameters.
- `parseUnits`' text parser is not modelled. Amounts are given by their decimal value (`Decimal`), so malformed numeric text, negative amounts and `swap.requested_amount.toString()`'s float formatting are left out. A precision is a natural number, so ethers' rejection of a negative or fractional `decimals` is left out too.
- The error texts of a failed `parseUnits` or `bnToUint256` are one constant, `AMOUNT_ERROR`. What matters here is that the outer catch toasts a non-empty message and submits nothing.
- Reading a property of an undefined currency or deposit response throws a `TypeError`. Its engine-specific message is the constant `TYPE_ERROR`.
- A deposit response that is present but has no address is treated like a missing response (`depositAddress` is `None`).
- `bnToUint256` returns hex strings; the model keeps the halves as numbers.
- `useState()` without an initial value starts `transferDone` and `isWrongNetwork` as `undefined`. The model starts them as `false`, which every guard reads the same way.
- `null` and `undefined` chain ids are both `None`. A wallet without an account compares as `None`, so it matches an undefined source chain id, as `!==` on two `undefined`s does. The code tells `null` from `undefined`, and the model does not. Take a source network whose `chain_id` is `null` and a dismissed wallet modal (`connect()` resolves to `undefined`). The code finds `undefined !== null`, raises the wrong-network flag and calls `disconnect()`. The model takes the matching branch: it clears the flag and stores no account.
- `GetSwapStatusStep` (components/utils/SwapStatus is not part of this model) is an input: the classified step, or `None` when it yields a falsy value.
- The classification of `error.message` when the thrown value has no `message` is left out. The model passes the text on as given. A `null` or `undefined` rejection of `account.execute` makes the inner `catch` throw a `TypeError`, which the outer `catch` toasts. That is one toast, like `ExecuteThrew` with the `TypeError`'s message.
- `res.error` is used as the thrown message as it is, without the string conversion `new Error` applies to non-strings.
- React timing is left out: the re-render between effects, the stale `codeRequested` in `sendEmail`'s closure (its dependency list names only `email`), and concurrent runs of the same handler. Each handler runs to completion on the state it starts from. `handleTransfer` uses the account captured when it starts.
- ResendSameAddressSkipsRequest: holds of the model, which reads the current `codeRequested`, but not always of the code. When the stored address already equals the input and `codeRequested` is false, a successful send sets the flag without changing `email`. The closure (dependencies `[email]`, components/SendEmail.tsx:50) is then not rebuilt and still sees `codeRequested` as false, so a second send of the same address requests another code.
- The markup, the step labels and descriptions, `shortenAddress`, the wrong-network warning text and `handleRefresh`'s missing button are left out.
- `Models/Layer.ts`, `components/modal/modal.tsx` and `components/swapComponent.tsx` are not part of this model.
