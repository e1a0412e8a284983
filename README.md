# Financia wallet dashboard — a Dafny model

Financia is a React dashboard for an Ethereum contract on the Sepolia test
network. This project models its client-side logic and proves properties
about that model:

- **Wallet session** (`session.dfy`, module `Session`). The application root
  holds the session: `isConnected`, `account`, `provider`, `signer`,
  `contract` and `loading`. The model covers:
  - the connect sequence: account access, then the chain-id check, then a
    switch to Sepolia, then adding the chain when the wallet answers 4902;
  - the mount-time check for accounts that are already authorised;
  - the handler for the wallet's `accountsChanged` notification.
- **Pages**, each a class whose fields are the page's state:
  - the balance page (`balance.dfy`): deposit and withdraw, with their
    guards, and the periodic balance refresh;
  - the transfer page (`transfer.dfy`): sending to an address, and the
    periodic wallet-balance refresh;
  - the history page (`history.dfy`): the fetched records are reshaped,
    sorted newest first and classified relative to the account;
  - the market page (`market.dfy`): a time range selects the chart query
    and the refresh period.
- **Navigation bar** (`navbar.dfy`): the shortened address, the active
  link and the connect button.
- **Shared pieces**:
  - `common.dfy` holds the modules `Wrappers` and `Web3`: call replies, the
    session view, form amounts, the calls a page issues, and the request log;
  - `jstext.dfy` (module `JsText`) holds JavaScript's `substring` clamping
    and `toLowerCase`.

Every awaited call is modelled as a parameter of type `Reply<T>`: it either
resolves with a value or throws with a code. So a single method run covers
one way the calls can resolve.

Each class records the calls it issues in a `requests` log. Every entry
also records the page's busy flag (`loading` or `transactionPending`) at the
moment of issue. This is how the contracts state that a flag is set while
the calls are outstanding and cleared afterwards.

The connect sequence, the write handlers and the market refresh are proved
against a pure function that gives the calls they issue (`ConnectRequests`,
`WriteRequests`, `TransferRequests`, `RefreshRequests`). Lemmas about those
functions state the promised properties: how many switch or add requests are
made, which balances are re-read and how often, and so on. The balance,
transfer and history fetches issue at most three calls, and their contracts
state their request logs directly.

## Model

| member | source | states |
|---|---|---|
| Session.NetworkRequests | src/App.js:90-121 | No network request when the chain id is Sepolia's `0xaa36a7`. Otherwise the first request is a switch to Sepolia. A second request, adding the Sepolia chain, is made exactly when the switch fails with code 4902. |
| Session.ConnectRequests | src/App.js:84-121 | The sequence opens with `eth_requestAccounts`. A refused account request ends it there. A failed chain-id query ends it after that query. On Sepolia, neither a switch nor an add is requested. |
| Session.NetworkRequestCounts | src/App.js:91-119 | Within the network step, one switch exactly off Sepolia, one add with the Sepolia descriptor exactly when the switch fails with 4902, and no other descriptor. |
| Session.ConnectRequestCounts | src/App.js:91-119 | A switch is requested once exactly when the chain is wrong, and never otherwise. An add request carrying the Sepolia descriptor (name, currency, RPC and explorer URLs) is made once exactly when the switch fails with 4902. No other descriptor is ever sent. |
| Session.FirstAccount | src/App.js:134 | `accounts[0]`: defined exactly when the list is non-empty, and then equal to its first element. |
| Session.AccountsChangedAction | src/App.js:67-79 | Disconnect exactly on an empty list. Do nothing exactly when the first account equals the account the handler reads. Otherwise reconnect. |
| Session.StaleListenerReconnectsSameAccount | src/App.js:37-78 | The listener registered at mount compares against the mount-time `null`, so a notification naming the connected account still reconnects. A comparison with the current account would ignore it. |
| Session.MountListenerNeverIgnores | src/App.js:65-78 | The listener as written never ignores a notification: it disconnects exactly on an empty list and otherwise reconnects. |
| Session.WalletSession.constructor | src/App.js:24-29 | Initial session: disconnected, every handle null, not loading, no request issued. |
| Session.WalletSession.View | src/App.js:153-162 | Pages see `isConnected` and `account` as held, and whether a provider and a contract are set. |
| Session.WalletSession.SwitchNetwork | src/App.js:91-121 | Issues exactly the `NetworkRequests` of the replies. Reports Sepolia afterwards exactly when the chain was already Sepolia, the switch succeeded, or the switch failed with 4902 and the add succeeded. |
| Session.WalletSession.ConnectWallet | src/App.js:81-150 | Keeps the session invariant. With no wallet object, nothing changes. Otherwise every request is issued with `loading` true, and `loading` ends false. If the sequence succeeds, the account becomes `accounts[0]` and the provider, signer and contract bound to `CONTRACT_ADDRESS` are set, with `isConnected` true. On any failure, the prior session is kept. |
| Session.WalletSession.HandleAccountsChanged | src/App.js:67-79 | As written: an empty list clears `isConnected`, account, signer and contract, but keeps the provider. Any non-empty list runs the whole connect sequence. |
| Session.WalletSession.HandleAccountsChangedCurrent | src/App.js:75-78 | Corrected handler: a notification naming the current account changes nothing. Other accounts reconnect, and an empty list disconnects. |
| Session.WalletSession.CheckExistingConnection | src/App.js:32-57 | Mount effect. With no wallet, nothing changes. Otherwise `eth_accounts` is queried. If that query fails or returns no accounts, only the query is logged. If accounts are present, the whole connect sequence follows the query in the log and `loading` ends false. If that sequence succeeds, the session is connected with `accounts[0]` and the contract bound to `CONTRACT_ADDRESS`; otherwise the prior session is kept. |
| Session.ConnectedSessionOffersContract | src/App.js:134-138 | A connected session offers a contract handle and a provider. A disconnected one offers no contract. |
| JsText.Substring | src/components/Navbar.js:13 | In-range indices give the slice between them, in either order. An index below 0 counts as 0 and one past the end as the length: so a negative start gives the prefix up to `end`, an `end` past the text gives the suffix, indices around the whole text give the text, and two indices at or beyond the same end give "". The result is never longer than the text. |
| JsText.SubstringSymmetric | src/components/Navbar.js:13 | Swapping the two indices gives the same text. |
| JsText.SubstringFrom | src/components/Navbar.js:13 | `substring(start)`: a negative start gives the whole text, and a start past the end gives "". |
| JsText.ToLower | src/pages/History.js:87-89 | Lower-cases ASCII letters only, and keeps the length. |
| JsText.EqualsIgnoringCaseIsEquivalence | src/pages/History.js:87-89 | Comparing lower-cased addresses is reflexive, symmetric and transitive, and only relates texts of equal length. |
| JsText.ToLowerIdempotent | src/pages/History.js:87-89 | Lower-casing twice equals lower-casing once. |
| History.FormatTx | src/pages/History.js:19-25 | One record: sender, recipient, amount and type are kept, and the timestamp goes from seconds to milliseconds. |
| History.FormatHistory | src/pages/History.js:19-25 | One record per contract record, in contract order, each converted as in `FormatTx`. |
| History.InsertNewest | src/pages/History.js:28 | If the first `i` records are newest first, then afterwards the first `i + 1` are. The array is a permutation of before. |
| History.SortNewestFirst | src/pages/History.js:28 | The array ends in non-increasing timestamp order and is a permutation of its input. |
| History.ShapeHistory | src/pages/History.js:16-30 | The stored list has one entry per fetched record, is newest first, and holds exactly the formatted records (same multiset). |
| History.HistoryPage.constructor | src/pages/History.js:8-9 | No transactions; loading. |
| History.HistoryPage.FetchTransactionHistory | src/pages/History.js:12-39 | Without both a connection and a contract: no request, and the list is kept. Otherwise one history request is issued while loading. A failure keeps the previous list. A success stores the formatted records, newest first. `loading` ends false on every path. |
| History.GetTransactionDirection | src/pages/History.js:82-94 | The type decides first (Deposit, Withdrawal). For transfers: outgoing iff the sender is the account (ignoring case). Incoming iff the sender is not but the recipient is. Otherwise other. Without an account, a transfer is always other. |
| History.SelfTransferIsOutgoing | src/pages/History.js:87-88 | A transfer from the account to itself is shown as outgoing. |
| History.DirectionIgnoresCase | src/pages/History.js:87-90 | Re-casing the addresses or the account never changes the direction. |
| History.AmountSign | src/pages/History.js:141-142 | '+' exactly for incoming transfers and deposits, and '-' for everything else. |
| History.OutflowShownNegative | src/pages/History.js:82-142 | Withdrawals are shown with '-'. So is every transfer sent by the account, including one to itself. |
| History.FormatAddress | src/pages/History.js:76-78 | For six or more characters: the first six, "...", and the last four. Shorter texts follow `substring` clamping. The length is min(n,6)+3+min(n,4). |
| Balance.DepositGuard | src/pages/Balance.js:60-68 | A deposit passes iff the session is connected, has a contract, and has a positive amount. A missing connection or contract is reported before a bad amount. |
| Balance.WithdrawGuard | src/pages/Balance.js:102-115 | A withdrawal passes iff connected with a contract and 0 < amount <= contract balance. The deposit guards decide first, then the balance check. |
| Balance.WithdrawWholeBalanceAllowed | src/pages/Balance.js:112 | The whole contract balance may be withdrawn, because the comparison is strict. |
| Balance.PositivityCheckedBeforeBalance | src/pages/Balance.js:107-115 | A non-positive amount is reported as invalid, never as insufficient balance. |
| Balance.WithdrawDisabled | src/pages/Balance.js:228 | The withdraw button is enabled iff no transaction is pending and the contract balance is not zero. |
| Balance.EnabledWithdrawCanPass | src/pages/Balance.js:228 | When the button is enabled (connected, with a contract), some amount passes every withdraw guard. |
| Balance.WriteRequests | src/pages/Balance.js:72-88 | For a deposit or a withdrawal, nothing is sent iff `parseEther` rejects the amount text, since the argument throws before the call. Otherwise the transaction is issued first, and the receipt is awaited iff the submission succeeded. |
| Balance.WriteRereadsOnce | src/pages/Balance.js:84-88 | After confirmation, the wallet balance is read once if a provider exists, and the contract balance once if that read succeeded. Neither is read before confirmation. A full refresh issues exactly tx, wait, wallet read, contract read. |
| Balance.BalancePage.constructor | src/pages/Balance.js:9-15 | Zero balances, no price, empty amounts, loading, not pending. |
| Balance.BalancePage.Refresh | src/pages/Balance.js:84-88 | Issues the wallet read, then the contract read. Each balance is replaced only by a read that succeeded. |
| Balance.BalancePage.SubmitAndRefresh | src/pages/Balance.js:72-88 | Issues exactly `WriteRequests`. It reports success iff every call resolved. Each balance changes only through its own completed read. |
| Balance.BalancePage.HandleDeposit | src/pages/Balance.js:58-98 | A rejected deposit changes nothing. An accepted one issues its calls while pending and ends not pending; if the amount text does not convert, no call is issued and the outcome is `Failed`. The deposit amount is cleared only after a full refresh. The withdraw amount, price and `loading` are untouched. |
| Balance.BalancePage.HandleWithdraw | src/pages/Balance.js:100-145 | The same as `HandleDeposit`, with the withdraw guards and the withdraw amount. |
| Balance.BalancePage.FetchBalances | src/pages/Balance.js:18-48 | Needs a connection, a truthy account, a provider and a contract; otherwise only `loading` changes. Otherwise it reads wallet, then contract, then price. A failed read skips the later ones, and a failed price read is swallowed. `loading` ends false. |
| Transfer.SubmitGuard | src/pages/Transfer.js:55-73 | A transfer passes iff connected, the recipient is an address, and 0 < amount <= wallet balance. The guards report in that order. |
| Transfer.WholeBalanceMayBeSent | src/pages/Transfer.js:70-73 | The whole wallet balance may be sent, because the comparison is strict. |
| Transfer.TransferRequests | src/pages/Transfer.js:79-92 | No call without a contract (reading `contract.transfer` throws) or when `parseEther` rejects the amount text; otherwise the transfer first. The wallet balance is re-read iff the transfer and its receipt succeeded and a provider exists. |
| Transfer.CompletedTransferRequests | src/pages/Transfer.js:79-92 | A completed transfer issues exactly the transfer, the wait, and one wallet-balance read. |
| Transfer.TransferPage.constructor | src/pages/Transfer.js:9-14 | Empty recipient and amount, zero balance, no price, loading, not pending. |
| Transfer.TransferPage.HandleSubmit | src/pages/Transfer.js:52-103 | A rejection changes nothing. An accepted transfer issues its calls while pending and ends not pending; with no contract or an amount text that does not convert, nothing is sent and the outcome is `Failed`. Recipient and amount are cleared and the balance replaced only when every call resolved; otherwise the inputs are kept. |
| Transfer.TransferPage.FetchData | src/pages/Transfer.js:17-42 | Needs a connection, a truthy account and a provider (no contract). It reads the wallet balance, then the price. A failed balance read skips the price. `loading` ends false. |
| Market.QueryFor | src/pages/Market.js:25-48 | Hourly exactly for "24h" (one day); daily otherwise. "7d", "30d" and "90d" ask for 7, 30 and 90 days. Any other range falls back to 7 days, daily. |
| Market.UnknownRangeFallsBackToWeek | src/pages/Market.js:45-47 | An unknown range gives the same query as "7d". |
| Market.ChartParameters | src/pages/Market.js:25-48 | The switch on the local `days`/`interval` yields exactly `QueryFor(timeRange)`. |
| Market.RefreshPeriodMs | src/pages/Market.js:77 | 60000 ms exactly for "24h", and 300000 ms for every other range. |
| Market.FastRefreshIffHourly | src/pages/Market.js:77 | The page refreshes every minute exactly when it charts hourly points. |
| Market.FormatSample | src/pages/Market.js:55-63 | The timestamp is the sample's time. The date shows a time of day exactly for "24h" and a calendar date otherwise. |
| Market.FormatPriceHistory | src/pages/Market.js:55-64 | One point per sample, in the series' order. |
| Market.FormatKeepsOrder | src/pages/Market.js:55-58 | Sample times increase iff the chart timestamps increase. |
| Market.FormatPriceHistoryAppend | src/pages/Market.js:55-64 | Formatting a concatenated series equals concatenating the formatted parts. |
| Market.RefreshRequests | src/pages/Market.js:18-52 | The snapshot is requested first. The chart for the range is requested iff the snapshot arrived. |
| Market.MarketPage.constructor | src/pages/Market.js:7-10 | No snapshot, empty history, range "7d", loading. |
| Market.MarketPage.FetchMarketData | src/pages/Market.js:13-72 | Requests are issued while loading, and `loading` ends false, so the spinner condition (line 87) is off. A snapshot is stored as soon as it arrives, before the chart request. A failed chart keeps the previous history next to the new snapshot. The range is unchanged. |
| Market.MarketPage.SelectRange | src/pages/Market.js:83-85 | Only the selected range changes. |
| Market.MarketPage.ShowsSpinner | src/pages/Market.js:87 | The spinner replaces the page exactly while loading with no snapshot yet; once a snapshot is held it never shows again. |
| Navbar.FormatAddress | src/components/Navbar.js:11-14 | A null or empty address gives "". Otherwise: the first six characters, "...", and the last four, with `substring` clamping for short text. |
| Navbar.FormatAddressAgreesWithHistory | src/components/Navbar.js:13 | For a non-empty address, the bar's shortening equals the history page's. |
| Navbar.ActiveFlags | src/components/Navbar.js:24-53 | One flag per menu link, in order. A flag is set iff the pathname equals that link's route. |
| Navbar.AtMostOneActive | src/components/Navbar.js:26-50 | No two links are active at once. Some link is active iff the pathname is one of the five routes, and then exactly one is. |
| Navbar.EndOfBar | src/components/Navbar.js:57-69 | Connected: the shortened account. Disconnected: the connect button, disabled iff loading, labelled "Connecting..." while loading and "Connect Wallet" otherwise. |

## Left out

- Toast notifications and console logging are left out. Each form handler
  instead returns an `Outcome`: the guard that rejected it, a failed call,
  or success.
- JavaScript numbers are left out: `parseFloat`, `toFixed`, the USD
  multiplications, and `formatEther`/`parseEther` rounding. Amounts and
  balances are exact reals, and history amounts are whole wei.
- A `type="number"` field is modelled as blank or a number. Text that is
  not a number reaches the handlers as "", so it counts as blank. Text the
  field keeps but `parseEther` rejects (exponent notation such as "1e-3",
  more than 18 decimals) is not told apart from other text: whether the
  conversion succeeds is the `parsed` step of `WriteReplies` and
  `TransferReplies`, and its rules are not modelled.
- `ethers.utils.isAddress` is a parameter of `HandleSubmit`; its checksum
  rules are not modelled.
- Locale date and time formatting is left out. A chart point records only
  which style (time of day or calendar date) it uses.
- Market.FormatSample: the price is kept exactly, not rounded to two
  decimals, and `new Date(t).getTime()` is taken to be `t` (no time-value
  clipping).
- History.FormatTx: `BigNumber.toNumber` overflow is not modelled.
- History.SortNewestFirst: insertion sort stands in for the engine's
  `Array.prototype.sort`. Only the order and the permutation are promised,
  not the relative order of equal timestamps.
- What re-runs a fetch is left out: the `setInterval` polling of the
  balance, transfer and market pages, the history page's `contract.on`/`off`
  subscriptions to its Deposit, Withdrawal and Transfer events
  (src/pages/History.js:43-61), their cleanup, and the effect dependency
  lists. Each fetch method models one run of the fetch function, whatever
  triggered it.
- Wallet event wiring is left out: `window.ethereum.on`/`removeListener`
  and the page reload on `chainChanged`. Only the handler for
  `accountsChanged` is modelled.
- Interleaving of asynchronous runs is left out, such as a poll that
  overlaps a write. Each method runs to completion, and React state setters
  take effect at once.
- Non-ASCII case mapping in `toLowerCase` is left out. Addresses are hex
  text.
- The environment override of the contract address is configuration. The
  model uses the fallback address.
- JSX markup, CSS classes and routing (`Routes`, `Navigate`) are left out,
  except the rules the model states: the active link, the connect button,
  the withdraw button, and the market spinner.
- src/pages/Dashboard.js and src/context/Web3Context.js are not part of
  this model. The first only fetches and formats numbers; the second only
  passes the session to the pages.

## Findings

| source | as written | input that shows it | evidently intended | confidence | as-written member | corrected member |
|---|---|---|---|---|---|---|
| src/App.js:37, src/App.js:65, src/App.js:75 | The `accountsChanged` listener is registered by an effect with an empty dependency list. Its `accounts[0] !== account` compares against the `account` of the first render, which is `null`. | Connected as account A, the wallet notifies `[A]`. The listener reconnects and re-runs the whole connect sequence, requesting accounts again. | A notification naming the connected account is ignored (comment at line 76: "User switched accounts"). | not executed | Session.StaleListenerReconnectsSameAccount | Session.WalletSession.HandleAccountsChangedCurrent |
