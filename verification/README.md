# MT5 multi-account trading relay — Dafny model

This project models the decision logic of a small relay server. The server sits between one
controller and a MetaTrader5 terminal. It has three endpoints with real logic:

- **connect** logs the terminal into one broker account and records the account in the process-wide
  connection registry (`active_connections`).
- **sync** reports, for a list of accounts, which are connected and their balances.
- **manual execute** fans one trade intent out as one order per account entry. It classifies every
  terminal reply as FILLED or REJECTED and returns one result per entry, in input order.

The health endpoint contributes the registry's size and whether `initialize()` succeeded.

The terminal library is proprietary. Its calls are never implemented; their answers are inputs:

- `order_send` is the function `send: (nat, OrderRequest) -> OrderReply`. Its first argument is
  the submission's position in the batch. The reply is `NoResult(lastError)` (the library returned
  `None`, together with the text of `last_error()` read right after) or
  `TradeResult(retcode, comment, order, price)`.
- `initialize`, `login`, `account_info` and `last_error` during a connect are the record
  `ConnectTerminal`. The calls the server makes are returned as a trace of `TerminalCall`s. This
  lets the order of the checks and the `shutdown` calls be stated.
- `account_info` during a sync is the function `info: nat -> Option<AccountInfo>`. Its argument is
  the position of the entry being processed. Each lookup can therefore see a different snapshot,
  or none, just as repeated live calls can.
- The volume rounding `round(base_volume * multiplier, 2)` is the opaque parameter
  `volume: (real, real) -> real`. The execution id and the timestamps are string parameters.

Converting a JSON field (`int(...)`, `float(...)`, a key lookup) either yields a value or raises.
It is modelled as `Parsed<T>` = `Value(v) | Unparsable(message)`. The message is `str(e)`.

Modules: `Values` (Option, Parsed), `Terminal` (the library's boundary types and the DONE return
code 10009), `Execution` (fan-out), `Registry` (connect, registry, health), `Sync`, and `Scenarios`
(properties spanning endpoints, and concrete executions).

## Behaviour of the code worth knowing

- The direction is never validated. Every direction other than exactly `"BUY"` is sent as a SELL
  (server.py:184). `Carries` states this rule.
- A malformed account entry is detected only inside the loop (server.py:187-188). By then, the
  orders of the entries before it have already been sent. The handler then returns an error with
  no results (server.py:268-273). `ExecuteManualTrade` and `MalformedEntryDiscardsSentOrder` state
  this.
- The order request names no account (server.py:194-210). Every order therefore goes to whatever
  account the single terminal session is logged into. `RequestsDifferOnlyInVolume` states that the
  requests of a batch differ only in volume.

## Model

| member | source | states |
|---|---|---|
| Execution.BuildRequest | server.py:184-210 | The request is a DEAL for the intent's symbol, with the given volume, deviation 20, magic 234000, comment `MT5Controller_<execution id>`, GTC and IOC. Its type is BUY iff the direction is exactly "BUY". It carries tp (sl) iff the intent's tp (sl) is present and non-zero, and then with that value. |
| Execution.Classify | server.py:213-254 | FILLED iff the reply exists and its retcode is DONE. A FILLED entry has ticket = order, price = fill price and no error. Otherwise the entry is REJECTED with no ticket and no price. Its error is the last-error text when there was no reply, and the reply's comment otherwise. Account, symbol, direction and volume are echoed. |
| Execution.ReportsDeterminesResult | server.py:215-254 | The classification contract is complete: two entries that both satisfy it for the same reply are equal. |
| Execution.FanOut | server.py:186-254 | The loop stops only at a malformed entry, with that entry's exception message (the account number is converted before the multiplier). Requests and results are one per processed entry, in order. Each request carries the batch fields and `volume(base, multiplier)`. Each result reports the reply to that exact request, with the same volume. |
| Execution.ExecuteManualTrade | server.py:165-273 | A body that fails to convert gives an error and sends nothing. Success holds iff every entry is well formed, and then gives exactly one result per entry, in input order, with the intent and execution id echoed. At the first malformed entry the response is that entry's error with no results, even though the orders of all earlier entries were sent. |
| Execution.RequestsDifferOnlyInVolume | server.py:194-210 | Any two requests of one batch are equal once their volumes are made equal. No request names an account. |
| Execution.FanOutIsolatesReplies | server.py:186-254 | If the terminal's reply changes only for submission j, the sent requests and the abort point stay the same. Every result other than the j-th also stays the same. |
| Execution.ExecutionIsolatesReplies | server.py:186-266 | The same holds at the endpoint. A rejection for one account does not change whether the call succeeds, the orders sent, or any other account's result. |
| Registry.Connect | server.py:27-98 | Success holds iff the body converts and initialize, login and account_info all succeed. Only success writes the registry: `account -> (server, connected, now)`. The success response echoes balance, equity, currency and leverage. Init failure gives 500 `MT5 initialization failed: <error>`. Login failure gives 401 `Login failed: <error>`. A missing account_info gives 500 `Failed to get account info`. Every failure leaves the registry unchanged. Shutdown is called iff a check after initialization fails, and it is then the last call. Each path has an exact call trace. Init failure: initialize, last_error. Login failure: initialize, login, last_error, shutdown. Missing account_info: initialize, login, account_info, shutdown. Success: initialize, login, account_info. |
| Registry.ConnectAllKeys | server.py:73-77 | A sequence of connects adds exactly the successfully connected accounts to the registry's keys and never removes one. |
| Registry.FailedAttemptsLeaveRegistry | server.py:41-70 | Any sequence of failed connects leaves the registry exactly as it was. |
| Registry.Health | server.py:280-289 | The reported connection count is the number of registry entries. The status is `initialized` iff the terminal's `initialize()` succeeded. |
| Registry.HealthCountsDistinctAccounts | server.py:280-289 | Starting from an empty registry, the health count equals the number of distinct accounts that ever connected successfully. |
| Registry.ReconnectOverwrites | server.py:73-77 | Two successful connects of the same account leave one entry for it. That entry holds the second login's server and time. |
| Sync.SyncOne | server.py:118-145 | The entry echoes the account as given. It is connected iff the account is registered and the snapshot its lookup returned exists with that login. When connected, it carries the snapshot's balance, equity, currency, margin and free margin. |
| Sync.SyncFrom | server.py:115-145 | Success holds iff every requested value converts, and then gives one entry per request, in order. Otherwise the error is the message of the first value that fails to convert. account_info is looked up for exactly the registered accounts processed. Each entry is judged against the snapshot of its own lookup. |
| Sync.SyncAccounts | server.py:105-158 | A body without an `accounts` list gives its exception message as the error, with no lookups. Otherwise success holds iff every requested value converts. It then gives one entry per requested account, in order, echoing the value as given and judged against the k-th lookup's snapshot. On failure, the error is the message of the first value that fails to convert, and every value before it converted. account_info is looked up for exactly the registered accounts processed before the failure. |
| Sync.ConnectedEntriesShareLogin | server.py:121-123 | Each connected entry is for the login its own lookup reported. If every lookup of the batch reports the same login, every connected entry is for that one account. |
| Sync.UnregisteredIsDisconnected | server.py:119-145 | An unregistered account is reported disconnected, and account_info is not looked up for it. |
| Sync.NoSessionAllDisconnected | server.py:121-139 | If no lookup returns a snapshot, every requested account is reported disconnected. |
| Scenarios.ConnectThenSyncReportsConnected | server.py:62-133 | After a successful connect whose snapshot belongs to the account, syncing that account reports it connected with the snapshot's figures, while the session still answers with that snapshot. |
| Scenarios.SecondLoginDisconnectsFirst | server.py:50-139 | After accounts a and then b connect, both are registered. A sync still reports a as disconnected and b as connected, because every snapshot the single session now gives belongs to b. |
| Scenarios.FillThenRejectExample | server.py:186-254 | One fill and one rejection: EURUSD BUY 1.0 on accounts 111 (x1) and 222 (x2). The terminal fills 111 (ticket 555 at 1.0950) and rejects 222 with "No money". The result is `[111 FILLED 1.0 ticket 555, 222 REJECTED 2.0 "No money"]`, and the first order is a BUY with no tp or sl. |
| Scenarios.MalformedEntryDiscardsSentOrder | server.py:186-273 | If the second entry is malformed, the first order has already been sent, yet the response is that entry's error with no results. |

## Left out

- HTTP routing, `request.json`, `jsonify`, CORS, logging and process startup (server.py:6-18, server.py:295-306). These are transport glue. Only the status tag, HTTP status and fields of each body are modelled.
- The internals of the MetaTrader5 library. It is proprietary, so its answers are inputs, as described above.
- Timestamps (`last_update`, `sync_time`, `executed_at`, the per-result `timestamp`) and the clock-derived execution id. These come from the clock, which is nondeterministic. The execution id and the registry's `last_login` are parameters; the other timestamps are omitted.
- Float arithmetic and `round(..., 2)`. The volume is an opaque function, and nothing is proved about rounding. Floats are modelled as `real`, with no NaN or infinity.
- Python's truthiness of raw JSON values for `tp` and `sl` (server.py:174-175). The model starts from the converted value: None when the raw value was missing or falsy, otherwise the float. The second test, `if tp:` (server.py:207-210), is modelled.
- The side effect of `initialize()` inside the health check (server.py:282). It acts on the terminal, so only its boolean result is an input of `Health`.
- The `connection_status` and `message` constant fields of the responses, and the rendering of `account_number` with `str(...)`. The model keeps the integer.
- Exceptions raised inside the terminal library itself, for example from `order_send`. These are foreign code.
- Concurrency between requests. `app.run(...)` (server.py:302-306) serves each request on its own thread, and nothing takes a lock. So a connect, with its login and shutdown, can run in the middle of a sync or an execute on the single terminal session. The model treats each request on its own. Within a request, the terminal's answers are inputs that may reflect such interference.
- Raw JSON values are modelled as strings. The echoed account number in a sync entry (server.py:125, 136, 142) and the echoed symbol and direction (server.py:220-221) need not be strings in the source. A non-string direction is sent as a SELL and echoed unchanged.
