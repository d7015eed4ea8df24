/**
 Properties that span several endpoints, and concrete fan-out examples:
 what a sync reports right after a connect, the consequence of the single
 shared terminal session, a two-account execution with one fill and one
 rejection, and a batch cut short by a malformed entry.
 */
module Scenarios {
  import opened Values
  import opened Terminal
  import opened Registry
  import opened Sync
  import opened Execution

  /**
   Right after a successful connect, syncing that account while the session
   still answers with the snapshot the connect read reports it connected
   with that snapshot's figures.
   */
  lemma ConnectThenSyncReportsConnected(
    conns: Connections, fields: ConnectFields, terminal: ConnectTerminal, now: string, given: string)
    requires Succeeds(Value(fields), terminal)
    requires terminal.info.value.login == fields.account
    ensures var after := Connect(conns, Value(fields), terminal, now).connections;
            var info := terminal.info.value;
            SyncFrom(after, (n: nat) => terminal.info, [RequestedAccount(given, Value(fields.account))], 0).response ==
              SyncSuccess([Connected(given, info.balance, info.equity, info.currency, info.margin, info.marginFree)])
  {
    var after := Connect(conns, Value(fields), terminal, now).connections;
    var run := SyncFrom(after, (n: nat) => terminal.info, [RequestedAccount(given, Value(fields.account))], 0);
    assert Synced(run.response.accounts[0], given, fields.account, after, terminal.info);
  }

  /**
   One terminal session serves all accounts: after connecting a and then b,
   both are registered, yet a sync sees only b as connected, because every
   snapshot the session now gives belongs to b.
   */
  lemma SecondLoginDisconnectsFirst(
    conns: Connections,
    a: ConnectFields, termA: ConnectTerminal, nowA: string, givenA: string,
    b: ConnectFields, termB: ConnectTerminal, nowB: string, givenB: string)
    requires Succeeds(Value(a), termA) && Succeeds(Value(b), termB)
    requires termB.info.value.login == b.account
    requires a.account != b.account
    ensures var c1 := Connect(conns, Value(a), termA, nowA).connections;
            var c2 := Connect(c1, Value(b), termB, nowB).connections;
            var info := termB.info.value;
            && a.account in c2 && b.account in c2
            && SyncFrom(c2, (n: nat) => termB.info,
                        [RequestedAccount(givenA, Value(a.account)), RequestedAccount(givenB, Value(b.account))], 0).response ==
                 SyncSuccess([Disconnected(givenA),
                              Connected(givenB, info.balance, info.equity, info.currency, info.margin, info.marginFree)])
  {
    var c1 := Connect(conns, Value(a), termA, nowA).connections;
    var c2 := Connect(c1, Value(b), termB, nowB).connections;
    var requested := [RequestedAccount(givenA, Value(a.account)), RequestedAccount(givenB, Value(b.account))];
    var run := SyncFrom(c2, (n: nat) => termB.info, requested, 0);
    assert Synced(run.response.accounts[0], givenA, a.account, c2, termB.info);
    assert Synced(run.response.accounts[1], givenB, b.account, c2, termB.info);
  }

  /**
   One fill and one rejection: EURUSD BUY 1.0 on accounts 111 (x1.0) and
   222 (x2.0); the terminal fills the first (ticket 555 at 1.0950) and
   rejects the second with "No money". Rounding to two decimals does not
   change these volumes, so the plain product stands in for it.
   */
  lemma FillThenRejectExample(execId: string)
    ensures var intent := TradeIntent("EURUSD", "BUY", 1.0, None, None);
            var accounts := [AccountEntry(Value(111), Value(1.0)), AccountEntry(Value(222), Value(2.0))];
            var send := (n: nat, req: OrderRequest) =>
              if n == 0 then TradeResult(RetcodeDone, "Request executed", 555, 1.0950)
              else TradeResult(10019, "No money", 0, 0.0);
            var r := ExecuteManualTrade(Value(ExecuteBody(intent, accounts)), execId, (b: real, m: real) => b * m, send);
            && r.response.ExecSuccess?
            && r.response.report.results == [
                 OrderResult(111, "EURUSD", "BUY", 1.0, Some(555), Some(1.0950), Filled, None),
                 OrderResult(222, "EURUSD", "BUY", 2.0, None, None, Rejected, Some("No money"))]
            && |r.sent| == 2
            && r.sent[0].orderType == Buy && r.sent[0].tp == None && r.sent[0].sl == None
  {
    var intent := TradeIntent("EURUSD", "BUY", 1.0, None, None);
    var accounts := [AccountEntry(Value(111), Value(1.0)), AccountEntry(Value(222), Value(2.0))];
    var send := (n: nat, req: OrderRequest) =>
      if n == 0 then TradeResult(RetcodeDone, "Request executed", 555, 1.0950)
      else TradeResult(10019, "No money", 0, 0.0);
    var volume := (b: real, m: real) => b * m;
    var r := ExecuteManualTrade(Value(ExecuteBody(intent, accounts)), execId, volume, send);
    var results := r.response.report.results;
    ReportsDeterminesResult(results[0], OrderResult(111, "EURUSD", "BUY", 1.0, Some(555), Some(1.0950), Filled, None),
                            111, intent, 1.0, send(0, r.sent[0]));
    ReportsDeterminesResult(results[1], OrderResult(222, "EURUSD", "BUY", 2.0, None, None, Rejected, Some("No money")),
                            222, intent, 2.0, send(1, r.sent[1]));
  }

  /**
   A malformed second entry: the first account's order has already reached
   the terminal, but the response is an error and carries no results.
   */
  lemma MalformedEntryDiscardsSentOrder(
    intent: TradeIntent, execId: string, volume: (real, real) -> real, send: (nat, OrderRequest) -> OrderReply,
    account: int, multiplier: real, error: string)
    ensures var accounts := [AccountEntry(Value(account), Value(multiplier)), AccountEntry(Unparsable(error), Value(1.0))];
            var r := ExecuteManualTrade(Value(ExecuteBody(intent, accounts)), execId, volume, send);
            && r.response == ExecError(error)
            && |r.sent| == 1
            && r.sent[0].volume == volume(intent.baseVolume, multiplier)
  {
    var accounts := [AccountEntry(Value(account), Value(multiplier)), AccountEntry(Unparsable(error), Value(1.0))];
    var r := ExecuteManualTrade(Value(ExecuteBody(intent, accounts)), execId, volume, send);
    assert !WellFormed(accounts[1]);
    assert WellFormed(accounts[0]);
  }
}
