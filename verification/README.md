# Wallet connection lifecycle and task services — a Dafny model

This project models the core of a task-manager application in Dafny. The
application has a Next.js front end that connects to a MetaMask wallet and a
NestJS API that keeps tasks and categories in memory.

The centre of the model is the **wallet connection lifecycle**. The front end
contains it three times:

- `ConnectionManager` is the newest manager layer. It owns one adapter and runs
  its own reconnect policy.
- `MetaMaskAdapter` together with `BaseWalletAdapter` is the adapter layer.
- `WalletManager` is an older stand-alone copy of the same logic.

All three keep one state record: `isConnected`, `account`, `chainId`,
`connectionStatus`, `error` and the gate `manuallyDisconnected`. The record
changes only through a `setState` chokepoint. That chokepoint merges a partial
update, emits `stateChanged`, and then emits `connected`/`disconnected`, `error`
or `chainChanged` for the fields that actually changed.

How the model represents the program:

- **State and operations.** Records are immutable datatypes, and each command,
  provider event and timer callback is a pure function. It returns the next
  object and the events it emitted, in emission order: `Step`, or `Answer` for
  operations that return a boolean.
- **Replies from the outside world become inputs:**
  - `Detection`: the window check and `detectEthereumProvider`;
  - `Probe`: `eth_accounts` with `eth_chainId`;
  - `ConnectReply`: `eth_requestAccounts` with `eth_chainId`, each a success or
    a failure message;
  - a boolean: whether the wallet accepts a network switch.
- **Timers.** A pending reconnect timer is `Option<nat>`, the delay it was
  scheduled with. A timer firing, or a 10-second tick of the polling interval,
  is an input.
- **Manager and adapter together.** The source's event emitters are
  synchronous. So whatever the adapter emits during an operation is folded,
  in order, through the manager's listeners (`ConnectionManager.Hear`), but
  only while those listeners are still registered (`Slot.wired`).
- **The whole system.** `Lifecycle` drives a `ConnectionManager` that holds a
  `MetaMaskAdapter` with an arbitrary sequence of user commands, provider
  events, ticks and timer firings.

The invariant every revision keeps is `isConnected <==> account != null`
(`StateStore.Consistent`). Every state write either sets both fields
consistently or leaves both alone (`StateStore.Pairs`). A status of
`connected` with no account is reachable and is deliberately not part of the
invariant. The provider `connect` event and a failed `connect` both produce it.

The three revisions differ in ways the model keeps apart:

- **Provider handle.** The adapter keeps its provider handle in a field that
  `disconnect` does not clear. `WalletManager` keeps it only in its record, so
  after a disconnect it detects the provider again.
- **Connection check.** The adapter's check returns at once when the flag is
  set. `WalletManager`'s check has no such entry guard.
- **Backoff.** The adapter and `ConnectionManager` wait `delay * 2^(n-1)`
  before retry n. `WalletManager` waits `2000 * n`.

The secondary cores are:

- the in-memory CRUD services (`TasksService`, `CategoriesService`) over
  sequences, using the generic search, removal and filter operations in
  `Store`;
- the static category table;
- the address and chain-id helpers of `BaseWalletAdapter`;
- the UI formatting helpers.

Modules, one per file: `Wrappers`, `Decimal`, `StateStore`, `Wallet`,
`WalletAdapter`, `MetaMaskAdapter`, `WalletManager`, `ConnectionManager`,
`Lifecycle`, `Store`, `TasksService`, `CategoriesService`, `CategoryTable`,
`Ui`.

## Model

| member | source | states |
|---|---|---|
| StateStore.MergeThen | task-manager-frontend/src/lib/WalletAdapter.ts:65-67 | merging two updates in a row equals one merge of the combined update in which the later keys win; merging the same update twice changes nothing |
| StateStore.LinkEvent | task-manager-frontend/src/lib/WalletAdapter.ts:82-93 | `connected` exactly when the update sets `isConnected` from false to true, `disconnected` exactly when it sets it from true to false, with the merged account and chain as payload |
| StateStore.ErrorEvents | task-manager-frontend/src/lib/WalletAdapter.ts:95-98 | an `error` event exactly when the update writes an error different from the old one, null included, carrying the written value |
| StateStore.ChainEvents | task-manager-frontend/src/lib/WalletAdapter.ts:100-103 | a `chainChanged` event exactly when the update writes a chain id different from the old one, carrying the written value |
| StateStore.Derived | task-manager-frontend/src/lib/WalletAdapter.ts:82-103 | the point events after `stateChanged`: one per changed field, ranks strictly increasing, payloads from the update |
| StateStore.Notify | task-manager-frontend/src/lib/WalletAdapter.ts:65-104 | `stateChanged` with the new record comes first; each derived event occurs exactly when its field changed, with the payload taken from the update |
| StateStore.NotifyOrder | task-manager-frontend/src/lib/WalletAdapter.ts:82-103 | one event per changed field after `stateChanged`, no kind twice, in the order `connected`/`disconnected`, `error`, `chainChanged` |
| StateStore.MergeKeepsConsistent | task-manager-frontend/src/lib/ConnectionManager.ts:465-467 | merging an update that writes `isConnected` and `account` together and consistently preserves connected-iff-account |
| Wallet.MessageOr | task-manager-frontend/src/lib/adapters/MetaMaskAdapter.ts:109 | JavaScript `message || fallback`: a non-empty message is kept and an empty one is replaced |
| Wallet.AccountsChangedPatch | task-manager-frontend/src/lib/adapters/MetaMaskAdapter.ts:288-305 | both `accountsChanged` updates write `isConnected` and `account` together and consistently |
| Wallet.ConnectedPatch | task-manager-frontend/src/lib/adapters/MetaMaskAdapter.ts:80-88 | the success update writes `isConnected` and `account` together and consistently |
| Wallet.ConnectFailedPatch | task-manager-frontend/src/lib/adapters/MetaMaskAdapter.ts:107-111 | the failure update writes neither `isConnected` nor `account` |
| Wallet.CheckPatch | task-manager-frontend/src/lib/adapters/MetaMaskAdapter.ts:402-411 | the connection-check update writes `isConnected` and `account` together and consistently, whatever the account list |
| Wallet.NotDetectedPatch | task-manager-frontend/src/lib/adapters/MetaMaskAdapter.ts:253-256 | the detection-failure update writes neither `isConnected` nor `account` |
| Wallet.ReconnectingPatch | task-manager-frontend/src/lib/adapters/MetaMaskAdapter.ts:477-480 | the reconnecting update writes neither `isConnected` nor `account` |
| Wallet.ChainChangedPatch | task-manager-frontend/src/lib/adapters/MetaMaskAdapter.ts:311 | the chain update writes neither `isConnected` nor `account` |
| WalletAdapter.Configure | task-manager-frontend/src/lib/WalletAdapter.ts:40-48 | defaults: autoConnect false, autoReconnect true, 3 attempts, 2000 ms delay; each supplied key overrides its default |
| WalletAdapter.ConfigureFull | task-manager-frontend/src/lib/WalletAdapter.ts:40-48 | a configuration that supplies all four keys is taken as it is, with no default surviving |
| WalletAdapter.On | task-manager-frontend/src/lib/WalletAdapter.ts:107-112 | appends the callback to the event's list and leaves every other event's list alone |
| WalletAdapter.IndexOf | task-manager-frontend/src/lib/WalletAdapter.ts:117 | `indexOf`: none exactly when the callback is absent, otherwise the index of its first occurrence |
| WalletAdapter.Off | task-manager-frontend/src/lib/WalletAdapter.ts:114-122 | removes exactly the first occurrence and keeps the order of the rest; does nothing to an unregistered callback; removes one copy from the multiset; leaves other events alone |
| WalletAdapter.Emit | task-manager-frontend/src/lib/WalletAdapter.ts:124-135 | every registered listener is called once, in registration order, whether or not an earlier one threw |
| WalletAdapter.Subscribe | task-manager-frontend/src/lib/WalletAdapter.ts:138-141 | `onStateChange` appends the callback to the `stateChanged` listeners |
| WalletAdapter.UnsubscribeUndoesSubscribe | task-manager-frontend/src/lib/WalletAdapter.ts:138-141 | the returned unsubscribe function restores the `stateChanged` listeners as a multiset |
| WalletAdapter.UnsubscribeRestoresOrder | task-manager-frontend/src/lib/WalletAdapter.ts:138-141 | for a callback not yet registered, unsubscribing restores the exact listener sequence |
| WalletAdapter.Destroy | task-manager-frontend/src/lib/WalletAdapter.ts:144-146 | every event's listener list is empty afterwards |
| WalletAdapter.HexRun | task-manager-frontend/src/lib/WalletAdapter.ts:150 | a run of `[a-fA-F0-9]` characters: true exactly when every character is a hex digit |
| WalletAdapter.IsValidAddress | task-manager-frontend/src/lib/WalletAdapter.ts:149-151 | true exactly when the string is `0x` followed by exactly 40 hex digits |
| WalletAdapter.IsValidChainId | task-manager-frontend/src/lib/WalletAdapter.ts:153-155 | true exactly when the string is `0x` followed by one or more hex digits |
| WalletAdapter.FormatAddress | task-manager-frontend/src/lib/WalletAdapter.ts:157-160 | an invalid address comes back unchanged; a valid one becomes its first 6 characters, `...` and its last 4, 13 characters in all |
| WalletAdapter.FormatAddressIdempotent | task-manager-frontend/src/lib/WalletAdapter.ts:157-160 | formatting a formatted address changes nothing |
| WalletAdapter.ParseChainId | task-manager-frontend/src/lib/WalletAdapter.ts:162-167 | an invalid chain id parses to 0; a valid one parses to the number whose lower-case hexadecimal rendering is the id's digits without leading zeros and with upper-case letters lowered, so "0x0A" is 10 |
| WalletAdapter.HexValueOfToHex | task-manager-frontend/src/lib/WalletAdapter.ts:164 | the hexadecimal value of the digits of a number is that number |
| WalletAdapter.ParseChainIdRoundTrip | task-manager-frontend/src/lib/WalletAdapter.ts:162-167 | `0x` followed by the hex digits of n is a valid chain id, and it parses back to n |
| WalletAdapter.CanonicalHex | task-manager-frontend/src/lib/WalletAdapter.ts:164 | every non-empty run of hex digits, in either case and with leading zeros, renders back as its canonical form |
| MetaMaskAdapter.New | task-manager-frontend/src/lib/adapters/MetaMaskAdapter.ts:15-30 | a new adapter is disconnected, unflagged, without a provider, listeners, interval or timer, with zero attempts, and valid |
| MetaMaskAdapter.Set | task-manager-frontend/src/lib/WalletAdapter.ts:65-104 | an update that writes `isConnected` and `account` consistently keeps the adapter valid, and every `stateChanged` record it emits is consistent; an update that sets the flag emits only flagged records |
| MetaMaskAdapter.FinishCheck | task-manager-frontend/src/lib/adapters/MetaMaskAdapter.ts:386-413 | after the replies, a set flag blocks a connected answer; otherwise connected iff accounts are non-empty, the first account, the chain kept only when connected, status connected or disconnected accordingly, error cleared, flag cleared only when connected |
| MetaMaskAdapter.CheckConnectionStatus | task-manager-frontend/src/lib/adapters/MetaMaskAdapter.ts:364-418 | nothing happens without a provider, with the flag set on entry, or when an RPC fails; otherwise connected iff accounts are non-empty, the first account, the chain kept only when connected, status connected or disconnected accordingly, error cleared, flag clear; timer, attempts, config, polling and listeners unchanged |
| MetaMaskAdapter.DetectProvider | task-manager-frontend/src/lib/adapters/MetaMaskAdapter.ts:222-266 | succeeds exactly when a provider is detected, which attaches the handlers; each failure records its message and changes nothing else in the record |
| MetaMaskAdapter.EnterConnecting | task-manager-frontend/src/lib/adapters/MetaMaskAdapter.ts:45-61 | the flag is cleared, the error nulled, status becomes connecting and `isConnecting` is set; nothing else changes |
| MetaMaskAdapter.Settle | task-manager-frontend/src/lib/adapters/MetaMaskAdapter.ts:63-113 | success exactly when accounts are non-empty and both RPCs answer; otherwise the failure update is applied with some message |
| MetaMaskAdapter.RequestAccounts | task-manager-frontend/src/lib/adapters/MetaMaskAdapter.ts:45-113 | success yields connected, the first account, the fetched chain, status connected, flag clear, zero attempts and polling; failure yields status disconnected and an error, and leaves `isConnected` and `account` untouched |
| MetaMaskAdapter.Fail | task-manager-frontend/src/lib/adapters/MetaMaskAdapter.ts:105-112 | returns false with the given message recorded as the error |
| MetaMaskAdapter.Connect | task-manager-frontend/src/lib/adapters/MetaMaskAdapter.ts:32-114 | true exactly when a provider is held or detected and the wallet grants a non-empty account list and a chain; detection failure returns false and keeps the flag; the timer and config are never touched |
| MetaMaskAdapter.DetectAndRequest | task-manager-frontend/src/lib/adapters/MetaMaskAdapter.ts:34-37 | without a provider, success requires detection; a failed detection leaves the flag as it was |
| MetaMaskAdapter.Disconnect | task-manager-frontend/src/lib/adapters/MetaMaskAdapter.ts:116-175 | ends disconnected with null account, chain and error, status disconnected, flag set, no provider in the record, not detected, not connecting, zero attempts, no timer, no interval, no handlers; emits `disconnected` exactly when it was connected and never `connected` |
| MetaMaskAdapter.ResetManualDisconnect | task-manager-frontend/src/lib/adapters/MetaMaskAdapter.ts:510-513 | only the flag changes, to false |
| MetaMaskAdapter.SwitchNetwork | task-manager-frontend/src/lib/adapters/MetaMaskAdapter.ts:193-207 | true exactly when a provider is held and the wallet accepts; state unchanged |
| MetaMaskAdapter.Destroy | task-manager-frontend/src/lib/adapters/MetaMaskAdapter.ts:516-528 | the interval is stopped, the timer cancelled and the handlers removed; the record is kept |
| MetaMaskAdapter.OnAccountsChanged | task-manager-frontend/src/lib/adapters/MetaMaskAdapter.ts:274-306 | ignored without handlers or while flagged; an empty list disconnects with "Wallet disconnected"; a non-empty one connects to the first account |
| MetaMaskAdapter.OnChainChanged | task-manager-frontend/src/lib/adapters/MetaMaskAdapter.ts:309-312 | with the handlers attached, only the chain id changes, even while flagged |
| MetaMaskAdapter.OnProviderConnect | task-manager-frontend/src/lib/adapters/MetaMaskAdapter.ts:315-335 | ignored while flagged; otherwise status connected while `isConnected` and `account` stay as they were |
| MetaMaskAdapter.OnProviderDisconnect | task-manager-frontend/src/lib/adapters/MetaMaskAdapter.ts:338-359 | ignored while flagged; otherwise disconnected with null account and "Wallet disconnected" |
| MetaMaskAdapter.Tick | task-manager-frontend/src/lib/adapters/MetaMaskAdapter.ts:427-445 | a tick does nothing unless the interval runs, a provider is held, the record is connected and the flag is clear; when it runs, a failed probe changes nothing, an empty account list disconnects the record with a `disconnected` event, and a non-empty one keeps it connected with the first account; polling, timer and counter stay |
| MetaMaskAdapter.BackoffDoubles | task-manager-frontend/src/lib/adapters/MetaMaskAdapter.ts:493 | the first retry waits the base delay and each later one twice the previous |
| MetaMaskAdapter.AttemptReconnect | task-manager-frontend/src/lib/adapters/MetaMaskAdapter.ts:460-507 | blocked by the flag; at the budget the terminal error and status disconnected, nothing scheduled; otherwise it reconnects exactly when a provider is held or detected and both replies succeed with an account, then with that account and status connected and the counter reset, and a failure schedules the next try at `delay * 2^(n-1)` |
| MetaMaskAdapter.GiveUp | task-manager-frontend/src/lib/adapters/MetaMaskAdapter.ts:468-474 | records "Max reconnection attempts reached. Please refresh the page." with status disconnected and returns false |
| MetaMaskAdapter.Retry | task-manager-frontend/src/lib/adapters/MetaMaskAdapter.ts:476-507 | succeeds exactly when a provider is held or detected and both replies succeed with an account; success records that account, the chain and status connected and resets the counter; a failure with a provider shows status disconnected with an error, counts the attempt and schedules after `delay * 2^(n-1)` |
| MetaMaskAdapter.Announce | task-manager-frontend/src/lib/adapters/MetaMaskAdapter.ts:476-480 | the counter goes up by one and the record shows status reconnecting with the message `Reconnecting... Attempt n/max`, announced by the first `stateChanged`; nothing else changes |
| MetaMaskAdapter.Conclude | task-manager-frontend/src/lib/adapters/MetaMaskAdapter.ts:482-505 | the attempt's `connect()`: success iff the replies allow it, then the counter is reset; otherwise the next try is scheduled after the given delay |
| MetaMaskAdapter.AttemptShowsProgress | task-manager-frontend/src/lib/adapters/MetaMaskAdapter.ts:476-480 | an attempt within the budget first emits the record with status reconnecting and the message naming attempt n of the configured maximum |
| MetaMaskAdapter.FireTimer | task-manager-frontend/src/lib/adapters/MetaMaskAdapter.ts:489-493 | the timer is spent; a flag set in the meantime skips the attempt |
| MetaMaskAdapter.ManualFlagGatesProviderEvents | task-manager-frontend/src/lib/adapters/MetaMaskAdapter.ts:281-350 | while flagged, `accountsChanged`, `connect` and `disconnect` change nothing, and `chainChanged` changes only the chain id |
| MetaMaskAdapter.DisconnectDuringCheckWins | task-manager-frontend/src/lib/adapters/MetaMaskAdapter.ts:395-400 | replies of a connection check that arrive after a user disconnect are dropped |
| MetaMaskAdapter.DisconnectIsTerminal | task-manager-frontend/src/lib/adapters/MetaMaskAdapter.ts:116-175 | after a user disconnect, provider events and ticks change nothing and the adapter stays disconnected |
| MetaMaskAdapter.AttemptsBounded | task-manager-frontend/src/lib/adapters/MetaMaskAdapter.ts:468-476 | the attempt counter never passes the configured maximum |
| WalletManager.New | task-manager-frontend/src/lib/WalletManager.ts:34-47 | a new manager has the initial record, zero attempts and nothing scheduled, and is valid |
| WalletManager.CheckConnectionStatus | task-manager-frontend/src/lib/WalletManager.ts:204-250 | nothing without a provider in the record or on an RPC failure; a set flag blocks only a non-empty answer; otherwise connected iff accounts are non-empty, chain kept only when connected, status connected or disconnected accordingly, flag cleared only when connected; timers, counter and listeners unchanged |
| WalletManager.DetectProvider | task-manager-frontend/src/lib/WalletManager.ts:84-127 | succeeds exactly when detected; failures record their message and change nothing else in the record |
| WalletManager.RequestAccounts | task-manager-frontend/src/lib/WalletManager.ts:267-318 | success yields connected, the first account, the chain, status connected, flag clear, zero attempts and polling; failure yields status disconnected and an error with `isConnected` untouched |
| WalletManager.Fail | task-manager-frontend/src/lib/WalletManager.ts:310-317 | returns false with the message recorded as the error |
| WalletManager.Connect | task-manager-frontend/src/lib/WalletManager.ts:253-319 | true exactly when a provider is in the record or detected and the wallet grants accounts and a chain; a success records the first account, the chain, status connected and no error, clears the flag and resets attempts |
| WalletManager.Disconnect | task-manager-frontend/src/lib/WalletManager.ts:322-373 | ends disconnected with null account and chain, status disconnected, flag set, no provider, not detected, zero attempts, nothing scheduled |
| WalletManager.ResetManualDisconnect | task-manager-frontend/src/lib/WalletManager.ts:449-452 | only the flag changes, to false |
| WalletManager.SwitchNetwork | task-manager-frontend/src/lib/WalletManager.ts:455-469 | true exactly when a provider is in the record and the wallet accepts |
| WalletManager.Destroy | task-manager-frontend/src/lib/WalletManager.ts:472-484 | the interval and timer are stopped and the handlers removed; the record is kept |
| WalletManager.OnAccountsChanged | task-manager-frontend/src/lib/WalletManager.ts:135-159 | ignored while flagged; an empty list disconnects with "Wallet disconnected"; a non-empty one connects to the first account |
| WalletManager.OnChainChanged | task-manager-frontend/src/lib/WalletManager.ts:162-165 | only the chain id changes |
| WalletManager.OnProviderConnect | task-manager-frontend/src/lib/WalletManager.ts:168-181 | ignored while flagged; otherwise status connected with the account unchanged |
| WalletManager.OnProviderDisconnect | task-manager-frontend/src/lib/WalletManager.ts:184-200 | ignored while flagged; otherwise disconnected with "Wallet disconnected" |
| WalletManager.Tick | task-manager-frontend/src/lib/WalletManager.ts:381-389 | the check runs only with a provider, a connected record and the flag clear; then a failed probe changes nothing, an empty account list disconnects the record with a `disconnected` event, and a non-empty one keeps it connected with the first account |
| WalletManager.RetryDelayIsLinear | task-manager-frontend/src/lib/WalletManager.ts:432 | each retry waits 2000 ms longer than the one before, so the third waits less than doubling would |
| WalletManager.AttemptReconnect | task-manager-frontend/src/lib/WalletManager.ts:401-446 | blocked by the flag; at 3 attempts the terminal error; otherwise it reconnects exactly when a provider is in the record or detected and both replies succeed with an account, then with that account and the counter reset, and failure schedules retry n after `2000 * n` |
| WalletManager.GiveUp | task-manager-frontend/src/lib/WalletManager.ts:407-413 | the terminal error with status disconnected; returns false |
| WalletManager.Retry | task-manager-frontend/src/lib/WalletManager.ts:415-446 | succeeds exactly when a provider is in the record or detected and both replies succeed with an account; success records that account, the chain and status connected and resets the counter; failure counts the attempt and schedules after `2000 * n`; the counter stays within 3 |
| WalletManager.Announce | task-manager-frontend/src/lib/WalletManager.ts:415-419 | the counter goes up by one and the record shows status reconnecting with `Reconnecting... Attempt n/3`, announced by the first `stateChanged` |
| WalletManager.Conclude | task-manager-frontend/src/lib/WalletManager.ts:421-444 | the attempt's `connect()`: success iff the replies allow it, then the counter is reset; otherwise the next try is scheduled after the given delay |
| WalletManager.AttemptShowsProgress | task-manager-frontend/src/lib/WalletManager.ts:415-419 | an attempt within the budget first emits the record with status reconnecting and the message naming attempt n of 3 |
| WalletManager.FireTimer | task-manager-frontend/src/lib/WalletManager.ts:428-432 | a flag set meanwhile skips the retry; at the budget the timer ends and the terminal error is recorded; with a refused reply each firing counts one more attempt and schedules another |
| WalletManager.FailingRetries | task-manager-frontend/src/lib/WalletManager.ts:401-446 | with every connect refused, enough firings leave no timer pending and the terminal error recorded: the retry chain ends after the budget |
| WalletManager.ManualFlagGatesProviderEvents | task-manager-frontend/src/lib/WalletManager.ts:138-192 | while flagged, `accountsChanged`, `connect` and `disconnect` change nothing |
| WalletManager.EmptyCheckWritesDespiteFlag | task-manager-frontend/src/lib/WalletManager.ts:226-243 | unlike the adapter, an empty account list is still written while flagged, and the flag stays set |
| WalletManager.DisconnectIsTerminal | task-manager-frontend/src/lib/WalletManager.ts:322-373 | after a user disconnect, provider events and ticks change nothing |
| WalletManager.ConnectAfterDisconnectRedetects | task-manager-frontend/src/lib/WalletManager.ts:255-257 | after a disconnect a connect must detect again; without a provider it fails with "MetaMask not detected" and the flag stays set |
| ConnectionManager.Configure | task-manager-frontend/src/lib/ConnectionManager.ts:47-54 | defaults: no auto-connect, no auto-reconnect, 0 attempts, 0 delay, notifications on; each supplied key overrides its default |
| ConnectionManager.AdapterConfig | task-manager-frontend/src/lib/ConnectionManager.ts:84-89 | the adapter receives the manager's four settings exactly, so its own defaults never apply |
| ConnectionManager.New | task-manager-frontend/src/lib/ConnectionManager.ts:34-67 | a fresh manager is disconnected with null account, chain, error and wallet type, the flag clear, no adapter, no timer, and zero attempts |
| ConnectionManager.Set | task-manager-frontend/src/lib/ConnectionManager.ts:465-508 | an update that writes `isConnected` and `account` consistently keeps the manager's invariant |
| ConnectionManager.ForwardPatch | task-manager-frontend/src/lib/ConnectionManager.ts:154-160 | the mirrored update copies five fields, never the flag or the wallet type, and is consistent when the adapter's record is |
| ConnectionManager.FailurePatch | task-manager-frontend/src/lib/ConnectionManager.ts:262-265 | the failure update leaves `isConnected`, `account` and the flag alone |
| ConnectionManager.HandleAutoReconnect | task-manager-frontend/src/lib/ConnectionManager.ts:351-393 | blocked by the flag, a disabled policy or a missing adapter; at the budget the terminal error with status disconnected and the timer untouched; otherwise one more attempt scheduled after `delay * 2^(n-1)`, with no event |
| ConnectionManager.HearOne | task-manager-frontend/src/lib/ConnectionManager.ts:136-224 | a flagged `stateChanged` is dropped and an unflagged one is mirrored; adapter `connected`/`disconnected` are dropped while the manager is flagged; `connected` resets attempts and clears the timer; `disconnected` is re-emitted and then triggers the reconnect policy; `error` and `chainChanged` are re-emitted |
| ConnectionManager.Hear | task-manager-frontend/src/lib/ConnectionManager.ts:136-224 | folding adapter events never changes the flag, config, adapter or wallet type; consistent events keep the invariant; while flagged, flagged events change nothing; with the policy off, no timer appears |
| ConnectionManager.HearKeepsTimer | task-manager-frontend/src/lib/ConnectionManager.ts:187-193 | only an adapter `connected` event clears a pending retry |
| ConnectionManager.HearSchedules | task-manager-frontend/src/lib/ConnectionManager.ts:196-212 | flagged adapter events that include `disconnected` still schedule a retry when the manager's own flag is clear |
| ConnectionManager.Absorb | task-manager-frontend/src/lib/ConnectionManager.ts:252 | the adapter is replaced by its successor; its events are heard only while the listeners are attached |
| ConnectionManager.ConnectWith | task-manager-frontend/src/lib/ConnectionManager.ts:240-267 | the answer is the adapter's; the flag ends clear; a false answer ends in status disconnected with "Connection failed" |
| ConnectionManager.Connect | task-manager-frontend/src/lib/ConnectionManager.ts:227-268 | with no adapter, false with status disconnected and "No wallet adapter initialized", nothing else changed; otherwise as above |
| ConnectionManager.DisconnectAsWritten | task-manager-frontend/src/lib/ConnectionManager.ts:271-322 | the source order, flag written last: ends disconnected and flagged; no timer only when the policy is off |
| ConnectionManager.Disconnect | task-manager-frontend/src/lib/ConnectionManager.ts:271-322 | with no adapter nothing changes; otherwise ends with `isConnected` false, null account, chain and error, status disconnected, the flag set, no timer and zero attempts, for every configuration |
| ConnectionManager.SwitchNetwork | task-manager-frontend/src/lib/ConnectionManager.ts:325-348 | true exactly when an adapter with a provider is held and the wallet accepts; each failure records its prefixed message and nothing else |
| ConnectionManager.FireTimer | task-manager-frontend/src/lib/ConnectionManager.ts:382-392 | the retry calls `connect()` without checking the flag, so the flag ends clear |
| ConnectionManager.ForceReconnect | task-manager-frontend/src/lib/ConnectionManager.ts:396-410 | the answer is the adapter's and the flag ends clear; the earlier pending retry is dropped and the counter reset, so afterwards no retry is pending and the counter is 0 unless the adapter itself reported `disconnected` during the connect, which an adapter holding a provider never does |
| ConnectionManager.CancelReconnect | task-manager-frontend/src/lib/ConnectionManager.ts:413-422 | timer cleared and counter reset; nothing else changes |
| ConnectionManager.ResetManualDisconnect | task-manager-frontend/src/lib/ConnectionManager.ts:511-516 | only the flag changes, to false |
| ConnectionManager.Retire | task-manager-frontend/src/lib/ConnectionManager.ts:77-79 | the old adapter is destroyed but stays held, no longer heard |
| ConnectionManager.Install | task-manager-frontend/src/lib/ConnectionManager.ts:70-133 | only "metamask" succeeds, with a fresh, listened-to adapter, the wallet type set and the error cleared; other kinds record "Failed to initialize K wallet: …" and clear the wallet type |
| ConnectionManager.InitializeWallet | task-manager-frontend/src/lib/ConnectionManager.ts:70-133 | the answer is true exactly for "metamask", whatever the optional auto-connect does |
| ConnectionManager.Destroy | task-manager-frontend/src/lib/ConnectionManager.ts:524-539 | timer cleared; adapter destroyed, unheard, idle and with its own retry cancelled; record and config kept |
| Lifecycle.OnAdapter | task-manager-frontend/src/lib/adapters/MetaMaskAdapter.ts:268-362 | every provider event, tick and timer keeps the adapter valid; an idle adapter ignores them all |
| Lifecycle.Dispatch | task-manager-frontend/src/lib/ConnectionManager.ts:227-539 | every public command, the disconnect both as written and in the corrected order, and every adapter-side input keeps the manager's invariant and the configuration |
| Lifecycle.RunKeepsInv | task-manager-frontend/src/lib/ConnectionManager.ts:58-66 | connected-iff-account, the attempt budget and the adapter's own invariant hold after every run of inputs, including runs with the disconnect as written |
| Lifecycle.QuietIgnoresPassive | task-manager-frontend/src/lib/adapters/MetaMaskAdapter.ts:116-142 | a system whose adapter is detached, unpolled and unscheduled, and which has no retry pending, ignores provider events, ticks and timers |
| Lifecycle.QuietStays | task-manager-frontend/src/lib/adapters/MetaMaskAdapter.ts:116-142 | such a system stays exactly as it is under any run of those inputs |
| Lifecycle.DisconnectSettles | task-manager-frontend/src/lib/ConnectionManager.ts:271-322 | after the corrected disconnect, no run of provider events, ticks or timers changes anything, whatever the configuration |
| Lifecycle.DisconnectAsWrittenSettlesWithoutAutoReconnect | task-manager-frontend/src/lib/ConnectionManager.ts:196-212 | under `autoReconnect: false`, the default, the disconnect as written is terminal too |
| Lifecycle.DisconnectAsWrittenSchedulesReconnect | task-manager-frontend/src/lib/ConnectionManager.ts:284-307 | with auto-reconnect on and a budget above 0, the disconnect as written leaves a retry pending; firing it clears the flag and, if the wallet still grants the account, reconnects |
| Store.FirstIndex | task-manager-api/src/tasks/tasks.service.ts:94 | `findIndex`: none exactly when no element has the key, otherwise the first one that has it |
| Store.FirstIndexIsFirst | task-manager-api/src/tasks/tasks.service.ts:94 | any element with the key is found, at that index or earlier |
| Store.RemoveAt | task-manager-api/src/tasks/tasks.service.ts:114 | `splice(i, 1)`: one shorter, earlier elements kept in place, later ones shifted down by one |
| Store.RemoveAtUndoesAppend | task-manager-api/src/tasks/tasks.service.ts:89 | removing the element just pushed restores the sequence |
| Store.Filter | task-manager-api/src/tasks/tasks.service.ts:74 | `filter`: exactly the elements with the key, each taken from the input, with multiplicities no greater than in the input |
| Store.FilterAppend | task-manager-api/src/tasks/tasks.service.ts:74 | filtering a concatenation concatenates the filtered parts, so the stored order is kept |
| Store.FilterKeeps | task-manager-api/src/tasks/tasks.service.ts:74 | every element with the key appears in the result |
| TasksService.FindOne | task-manager-api/src/tasks/tasks.service.ts:65-71 | the first task with the id, or "Task with ID n not found" exactly when none has it |
| TasksService.FindByCategory | task-manager-api/src/tasks/tasks.service.ts:73-75 | exactly the stored tasks of that category, none invented, none duplicated beyond the store |
| TasksService.FindByCategoryComplete | task-manager-api/src/tasks/tasks.service.ts:73-75 | every task of the category is returned, and results over appended lists concatenate in order |
| TasksService.NewTask | task-manager-api/src/tasks/tasks.service.ts:78-87 | the fields come from the request; status defaults to pending and priority to medium |
| TasksService.Create | task-manager-api/src/tasks/tasks.service.ts:77-91 | appends one task with id = previous length + 1; existing tasks unchanged |
| TasksService.CreateThenFind | task-manager-api/src/tasks/tasks.service.ts:77-115 | when no id exceeds the length, the new task is found by its id, and removing it restores the list |
| TasksService.CreateAfterRemoveReusesId | task-manager-api/src/tasks/tasks.service.ts:79 | on the seed data, removing task 1 and creating gives a second task with id 4, and lookup returns the old one |
| TasksService.Patched | task-manager-api/src/tasks/tasks.service.ts:99-103 | the request's supplied fields overwrite, the others are kept, and the id never changes |
| TasksService.Update | task-manager-api/src/tasks/tasks.service.ts:93-106 | not found exactly when absent; otherwise only the first match is replaced by its patched version and the length is unchanged |
| TasksService.UpdateThenFind | task-manager-api/src/tasks/tasks.service.ts:93-106 | the updated task is what lookup returns afterwards; an empty update changes nothing |
| TasksService.Remove | task-manager-api/src/tasks/tasks.service.ts:108-115 | not found exactly when absent; otherwise exactly the first match is removed, the others keep their order |
| TasksService.Toggled | task-manager-api/src/tasks/tasks.service.ts:119 | the result is completed exactly when the old status was not, and never in-progress |
| TasksService.ToggleComplete | task-manager-api/src/tasks/tasks.service.ts:117-122 | not found exactly when lookup fails; otherwise the first match is replaced by its toggled copy and every other task stays as it was |
| TasksService.ToggleTwice | task-manager-api/src/tasks/tasks.service.ts:117-122 | toggling twice restores the list exactly when the task was not in progress |
| CategoriesService.FindOne | task-manager-api/src/categories/categories.service.ts:26-32 | the first category with the id, or "Category with ID n not found" exactly when none has it |
| CategoriesService.ColorOrDefault | task-manager-api/src/categories/categories.service.ts:39 | a non-empty colour is kept; a missing or empty one becomes "#000000" |
| CategoriesService.Create | task-manager-api/src/categories/categories.service.ts:34-45 | appends one category with id = previous length + 1; a given non-empty colour is stored, and a missing or empty one becomes "#000000" |
| CategoriesService.CreateThenFind | task-manager-api/src/categories/categories.service.ts:34-68 | when no id exceeds the length, the new category is found by its id, and removing it restores the list |
| CategoriesService.Patched | task-manager-api/src/categories/categories.service.ts:53-56 | supplied fields overwrite, others are kept, and the id never changes |
| CategoriesService.Update | task-manager-api/src/categories/categories.service.ts:47-59 | not found exactly when absent; otherwise only the first match is replaced and the length is unchanged |
| CategoriesService.UpdateThenFind | task-manager-api/src/categories/categories.service.ts:47-59 | the updated category is what lookup returns afterwards |
| CategoriesService.Remove | task-manager-api/src/categories/categories.service.ts:61-68 | not found exactly when absent; otherwise exactly one entry is removed, the order kept |
| CategoryTable.TableShape | task-manager-frontend/src/constants/categories.ts:8-78 | ten entries with ids 1 to 10 in order and pairwise distinct names |
| CategoryTable.GetCategoryById | task-manager-frontend/src/constants/categories.ts:80-82 | an entry exactly for ids 1 to 10, namely the entry with that id |
| CategoryTable.GetCategoryName | task-manager-frontend/src/constants/categories.ts:84-86 | the entry's name for a known id, otherwise "Category " followed by the decimal id |
| CategoryTable.GetCategoryNameInjective | task-manager-frontend/src/constants/categories.ts:84-86 | distinct ids always get distinct names |
| Decimal.NatToString | task-manager-frontend/src/constants/categories.ts:86 | the decimal rendering of a natural is a non-empty digit string with no leading zero |
| Decimal.IntToString | task-manager-frontend/src/constants/categories.ts:86 | a leading minus sign exactly for negative values |
| Decimal.ValueOfNatToString | task-manager-frontend/src/constants/categories.ts:86 | reading the rendered digits back gives the number |
| Decimal.IntToStringInjective | task-manager-frontend/src/constants/categories.ts:86 | distinct integers render as distinct strings |
| Ui.FormatAddress | task-manager-frontend/src/lib/utils/ui.ts:1-4 | shorter than 10 characters (empty included) comes back unchanged; otherwise the first 6, `...` and the last 4, 13 characters in all |
| Ui.FormatAddressIdempotent | task-manager-frontend/src/lib/utils/ui.ts:1-4 | formatting twice equals formatting once |
| Ui.AgreesWithAdapter | task-manager-frontend/src/lib/utils/ui.ts:1-4 | agrees with the adapter's formatter on valid addresses, and differs from it on invalid ones of 10 or more characters other than 13 |
| Ui.GetStatusColor | task-manager-frontend/src/lib/utils/ui.ts:23-34 | dedicated classes for "completed", "pending" and "failed"; every other status gets the default classes |
| Ui.StatusColorsDistinct | task-manager-frontend/src/lib/utils/ui.ts:23-34 | two statuses get the same classes exactly when they are equal or both fall back to the default |

## Left out

- **React layer.** Contexts, hooks, components and pages are not modelled. They are UI plumbing over the manager, and the hook `useConnectionManager` is a further reconnect revision tied to React effects.
- **Real timers and intervals** are not modelled. A pending timer is its delay, and a firing is an input. The 10-second polling interval is a `polling` flag plus a `Tick` input.
- **Asynchronous interleaving** is not modelled, except at one point: the adapter's connection check re-reads the flag after its RPC replies. Every other operation runs to completion as one step.
- **Provider detection** is an input, `Detection`. This covers the window check, the dynamic import of the detector and a detector that throws.
- **Getters** are not modelled: `getState`, `isConnected`, `getAccount`, `getChainId`, `getConnectionStatus`, `getError`, `getWalletType`, `getWalletAdapter`, `getProvider`, `getManuallyDisconnected` and `findAll`. They are plain reads of the record.
- **getNetworkId** is not modelled. It is one RPC followed by `parseInt`.
- **Logging** is not modelled.
- **Dates** are not modelled. The `createdAt`/`updatedAt` timestamps come from `new Date()`, and `formatDate`/`formatTime` depend on the locale.
- **Outside subscribers** are not modelled. What the `ConnectionManager` emits is its output sequence, so the `removeAllListeners()` in its `destroy` has no counterpart.
- **Unread adapter settings.** The adapter stores the `autoConnect` and `autoReconnect` settings it is given but never reads them. They appear only in its configuration.
- **Services** other than the two in-memory services are not modelled: web3 and contract access, the fetcher, performance helpers, the controllers and the NestJS bootstrap.
- **Properties the source does not guarantee** are not stated:
  - "status connected iff account present": the provider `connect` event and a failed connect break it;
  - "at most one pending timer" in `ConnectionManager`;
  - id uniqueness in the services. `TasksService.CreateAfterRemoveReusesId` shows a collision.
- ConnectionManager.HandleAutoReconnect: a newly scheduled retry replaces the pending one in the model. In the source the earlier timer is not cleared and still fires (ConnectionManager.ts:382).
- ConnectionManager.FireTimer: the retry's `catch` branch, which schedules the next attempt (ConnectionManager.ts:385-390), is not modelled. `connect()` catches every error itself and never throws, so a failed retry schedules nothing.
- ConnectionManager.Disconnect: the `catch` path (ConnectionManager.ts:310-320) is not modelled separately. The adapter's `disconnect` never throws, so that path writes the same record as the `try` path.
- MetaMaskAdapter.Disconnect: the `catch` path is not modelled separately. It writes the same record as the `try` path. The same holds for `WalletManager.Disconnect`.
- StateStore.Notify: `ConnectionManager` and `WalletManager` extend Node's `EventEmitter` (ConnectionManager.ts:27, WalletManager.ts:27). There an `error` emit with no `error` listener registered throws, and ends `setState` before its `chainChanged` emit. The model always emits the whole sequence, as if an `error` listener were registered.
- WalletAdapter.Emit: listeners are modelled as a snapshot taken when `emit` starts. `forEach` walks the live array, so a listener that calls `off` during the emit (WalletAdapter.ts:114-135) makes the next listener be skipped.
- WalletAdapter.Configure: a key present in the options with the value `undefined` is treated as absent. JavaScript's `{...defaults, ...config}` would let it replace the default. The same holds for `ConnectionManager.Configure`.
- WalletAdapter.FormatAddress: lengths and slices count code points. JavaScript's `.length` and `.slice` count UTF-16 code units, so the two differ for characters outside the Basic Multilingual Plane. The same holds for `Ui.FormatAddress`.
- Decimal.NatToString: every integer is rendered in plain decimal. JavaScript prints 1e21 and above in exponent form, and numbers above 2^53 are not exact.
- WalletAdapter.ParseChainId: values are unbounded naturals. The source's `parseInt` loses precision above 2^53.
- Ui.GetStatusColor: the statuses that name inherited object properties, such as "constructor", are not modelled. In JavaScript those return a non-string value.
- TasksService.Patched: a key the update object holds with the value `undefined` is treated as absent. JavaScript's spread would write `undefined` into the task. The same holds for `CategoriesService.Patched`.
- TasksService.Patched: the API installs no validation pipe (task-manager-api/src/main.ts:4-16), so a request body carrying `id` or keys outside the update type would overwrite them through the spread (tasks.service.ts:99-103). The model accepts only bodies of the update type, and "the id never changes" holds only for those. The same holds for `CategoriesService.Patched` (categories.service.ts:53-56).
- TasksService.FindOne: ids are integers. Requests with a non-integer or NaN id are not modelled. The same holds for the other id lookups.

## Findings

| source | as written | input that shows it | evidently intended | confidence | as-written member | corrected member |
|---|---|---|---|---|---|---|
| task-manager-frontend/src/lib/ConnectionManager.ts:284-307 | `disconnect()` writes `manuallyDisconnected: true` only after `walletAdapter.disconnect()` has returned. The adapter's `disconnected` event therefore passes the still-open gate at lines 196-212. With `autoReconnect` on, a retry is scheduled, and its callback (lines 382-384) calls `connect()`, which clears the flag and reconnects. | A manager configured with `autoReconnect: true` and `maxReconnectAttempts: 1`, holding a connected MetaMask adapter. The user calls `disconnect()`. The retry timer then fires while the wallet still grants the account. | A user disconnect blocks every automatic reconnect. The flag's gates in the listeners and in `handleAutoReconnect` (lines 200-205, 353-358) exist for exactly this. | medium; not executed | ConnectionManager.DisconnectAsWritten, Lifecycle.DisconnectAsWrittenSchedulesReconnect | ConnectionManager.Disconnect, Lifecycle.DisconnectSettles |

The corrected `ConnectionManager.Disconnect` writes the flag before it asks the
adapter to disconnect. `Lifecycle.Dispatch` offers both: the user's
disconnect command runs the method as written, and a separate input runs the
corrected order, so `Lifecycle.RunKeepsInv` covers the system as written.
With the application's default configuration, `autoReconnect: false`, both
versions behave the same: see
`Lifecycle.DisconnectAsWrittenSettlesWithoutAutoReconnect`.
