/**
 The connection registry (`active_connections`) and the connect endpoint
 that fills it, plus the connection count the health endpoint reports.

 Connect runs three checks against the terminal, in order: initialize, log
 in, read the account snapshot. Only when all three succeed is the registry
 written; every failure leaves it as it was, and the failures after
 initialization shut the terminal session down. The terminal's answers are
 inputs (`ConnectTerminal`), and the calls the server makes are returned as a
 trace so that the order of the checks can be stated.
 */
module Registry {
  import opened Values
  import opened Terminal

  /** HTTP status of the login failure. */
  const StatusUnauthorized: int := 401

  /** HTTP status of every other failure. */
  const StatusServerError: int := 500

  const InitFailedPrefix: string := "MT5 initialization failed: "
  const LoginFailedPrefix: string := "Login failed: "
  const NoAccountInfo: string := "Failed to get account info"

  /** One registry entry; `lastLogin` is the ISO time of the login, supplied by the caller. */
  datatype Connection = Connection(server: string, connected: bool, lastLogin: string)

  /** `active_connections`: at most one entry per account number. */
  type Connections = map<int, Connection>

  /** The connect body after conversion of `account`, `password` and `server`. */
  datatype ConnectFields = ConnectFields(account: int, password: string, server: string)

  /**
   The terminal's side of one connect: whether `initialize()` and `login(...)`
   succeed, what `account_info()` returns, and the text of `last_error()`.
   */
  datatype ConnectTerminal = ConnectTerminal(
    initializes: bool,
    acceptsLogin: bool,
    info: Option<AccountInfo>,
    lastError: string)

  /** A call the server makes on the terminal library. */
  datatype TerminalCall =
    | Initialize
    | Login(account: int, password: string, server: string)
    | LastError
    | QueryAccountInfo
    | Shutdown

  datatype ConnectResponse =
    | ConnectSuccess(accountNumber: int, server: string, balance: real, equity: real, currency: string, leverage: int)
    | ConnectError(httpStatus: int, error: string)

  datatype ConnectOutcome = ConnectOutcome(connections: Connections, response: ConnectResponse, calls: seq<TerminalCall>)

  /** One connect request as the server sees it: body, terminal answers and the time of the call. */
  datatype Attempt = Attempt(body: Parsed<ConnectFields>, terminal: ConnectTerminal, now: string)

  datatype Mt5Status = Initialized | NotInitialized

  /** The health endpoint's body (its timestamp is left out). */
  datatype HealthReport = HealthReport(mt5Status: Mt5Status, activeConnections: nat)

  // ---------------------------------------------------------------------------
  // Specification predicates
  // ---------------------------------------------------------------------------

  /** The body converted and all three terminal checks pass. */
  predicate Succeeds(body: Parsed<ConnectFields>, terminal: ConnectTerminal)
  {
    body.Value? && terminal.initializes && terminal.acceptsLogin && terminal.info.Some?
  }

  /** The accounts that a sequence of connect requests successfully connects. */
  ghost function ConnectedAccounts(attempts: seq<Attempt>): set<int>
  {
    if |attempts| == 0 then {}
    else
      var a := attempts[0];
      (if Succeeds(a.body, a.terminal) then {a.body.value.account} else {}) + ConnectedAccounts(attempts[1..])
  }

  // ---------------------------------------------------------------------------
  // Operations
  // ---------------------------------------------------------------------------

  /** The connect endpoint. */
  function Connect(conns: Connections, body: Parsed<ConnectFields>, terminal: ConnectTerminal, now: string): (r: ConnectOutcome)
    ensures r.response.ConnectSuccess? <==> Succeeds(body, terminal)
    ensures r.response.ConnectSuccess? ==>
              var f := body.value;
              var info := terminal.info.value;
              && r.connections == conns[f.account := Connection(f.server, true, now)]
              && r.response == ConnectSuccess(f.account, f.server, info.balance, info.equity, info.currency, info.leverage)
              && r.calls == [Initialize, Login(f.account, f.password, f.server), QueryAccountInfo]
    ensures r.response.ConnectError? ==> r.connections == conns
    ensures body.Unparsable? ==> r.response == ConnectError(StatusServerError, body.error) && r.calls == []
    ensures body.Value? ==> |r.calls| > 0 && r.calls[0] == Initialize
    ensures body.Value? && !terminal.initializes ==>
              r.response == ConnectError(StatusServerError, InitFailedPrefix + terminal.lastError)
    ensures body.Value? && !terminal.initializes ==> r.calls == [Initialize, LastError]
    ensures body.Value? && terminal.initializes && !terminal.acceptsLogin ==>
              r.calls == [Initialize, Login(body.value.account, body.value.password, body.value.server), LastError, Shutdown]
    ensures body.Value? && terminal.initializes && terminal.acceptsLogin && terminal.info.None? ==>
              r.calls == [Initialize, Login(body.value.account, body.value.password, body.value.server), QueryAccountInfo, Shutdown]
    ensures r.response.ConnectError? && r.response.httpStatus == StatusUnauthorized <==>
              body.Value? && terminal.initializes && !terminal.acceptsLogin
    ensures body.Value? && terminal.initializes && !terminal.acceptsLogin ==>
              r.response.error == LoginFailedPrefix + terminal.lastError
    ensures body.Value? && terminal.initializes && terminal.acceptsLogin && terminal.info.None? ==>
              r.response == ConnectError(StatusServerError, NoAccountInfo)
    ensures r.response.ConnectError? ==> r.response.httpStatus in {StatusUnauthorized, StatusServerError}
    ensures Shutdown in r.calls <==> body.Value? && terminal.initializes && !Succeeds(body, terminal)
    ensures Shutdown in r.calls ==> r.calls[|r.calls| - 1] == Shutdown
    ensures body.Value? ==>
              (Login(body.value.account, body.value.password, body.value.server) in r.calls <==> terminal.initializes)
    ensures QueryAccountInfo in r.calls <==> body.Value? && terminal.initializes && terminal.acceptsLogin
  {
    match body
    case Unparsable(error) => ConnectOutcome(conns, ConnectError(StatusServerError, error), [])
    case Value(f) =>
      var login := Login(f.account, f.password, f.server);
      if !terminal.initializes then
        ConnectOutcome(conns, ConnectError(StatusServerError, InitFailedPrefix + terminal.lastError), [Initialize, LastError])
      else if !terminal.acceptsLogin then
        ConnectOutcome(conns, ConnectError(StatusUnauthorized, LoginFailedPrefix + terminal.lastError),
                       [Initialize, login, LastError, Shutdown])
      else if terminal.info.None? then
        ConnectOutcome(conns, ConnectError(StatusServerError, NoAccountInfo), [Initialize, login, QueryAccountInfo, Shutdown])
      else
        var info := terminal.info.value;
        ConnectOutcome(
          conns[f.account := Connection(f.server, true, now)],
          ConnectSuccess(f.account, f.server, info.balance, info.equity, info.currency, info.leverage),
          [Initialize, login, QueryAccountInfo])
  }

  /** The registry after a sequence of connect requests, in order. */
  function ConnectAll(conns: Connections, attempts: seq<Attempt>): Connections
    decreases |attempts|
  {
    if |attempts| == 0 then conns
    else
      var a := attempts[0];
      ConnectAll(Connect(conns, a.body, a.terminal, a.now).connections, attempts[1..])
  }

  /** The health endpoint; `initializes` is the result of the `initialize()` call it makes. */
  function Health(conns: Connections, initializes: bool): (h: HealthReport)
    ensures h.activeConnections == |conns|
    ensures h.mt5Status == Initialized <==> initializes
  {
    HealthReport(if initializes then Initialized else NotInitialized, |conns|)
  }

  // ---------------------------------------------------------------------------
  // Properties
  // ---------------------------------------------------------------------------

  /** A sequence of connects adds exactly the successfully connected accounts and removes none. */
  lemma {:induction false} ConnectAllKeys(conns: Connections, attempts: seq<Attempt>)
    ensures ConnectAll(conns, attempts).Keys == conns.Keys + ConnectedAccounts(attempts)
    decreases |attempts|
  {
    if |attempts| > 0 {
      var a := attempts[0];
      var next := Connect(conns, a.body, a.terminal, a.now).connections;
      ConnectAllKeys(next, attempts[1..]);
    }
  }

  /** A failed connect request never changes the registry, whatever came before. */
  lemma {:induction false} FailedAttemptsLeaveRegistry(conns: Connections, attempts: seq<Attempt>)
    requires forall k :: 0 <= k < |attempts| ==> !Succeeds(attempts[k].body, attempts[k].terminal)
    ensures ConnectAll(conns, attempts) == conns
    decreases |attempts|
  {
    if |attempts| > 0 {
      FailedAttemptsLeaveRegistry(conns, attempts[1..]);
    }
  }

  /**
   Starting from the empty registry, the health endpoint counts each account
   that connected successfully once, however often it reconnected.
   */
  lemma {:induction false} HealthCountsDistinctAccounts(attempts: seq<Attempt>, initializes: bool)
    ensures Health(ConnectAll(map[], attempts), initializes).activeConnections == |ConnectedAccounts(attempts)|
  {
    var conns := ConnectAll(map[], attempts);
    ConnectAllKeys(map[], attempts);
    assert conns.Keys == ConnectedAccounts(attempts);
    assert |conns| == |conns.Keys|;
  }

  /** Reconnecting an account overwrites its single entry with the data of the newer login. */
  lemma ReconnectOverwrites(conns: Connections, first: Attempt, second: Attempt)
    requires Succeeds(first.body, first.terminal) && Succeeds(second.body, second.terminal)
    requires first.body.value.account == second.body.value.account
    ensures var after := ConnectAll(conns, [first, second]);
            var acct := first.body.value.account;
            && after.Keys == conns.Keys + {acct}
            && after[acct] == Connection(second.body.value.server, true, second.now)
  {
    var c1 := Connect(conns, first.body, first.terminal, first.now).connections;
    var c2 := Connect(c1, second.body, second.terminal, second.now).connections;
    assert [first, second][1..] == [second];
    assert ConnectAll(conns, [first, second]) == ConnectAll(c1, [second]);
    assert ConnectAll(c1, [second]) == ConnectAll(c2, []);
  }
}
