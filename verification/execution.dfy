/**
 The multi-account order fan-out behind the manual-execute endpoint.

 One trade intent is turned into one order request per account entry, each
 request is handed to the terminal in input order, and each reply is
 classified as FILLED or REJECTED. The terminal (`order_send`) and the volume
 rounding (`round(base_volume * multiplier, 2)`, float code) are parameters.
 */
module Execution {
  import opened Values
  import opened Terminal

  /** Maximum price deviation, in points, sent with every order. */
  const Deviation: int := 20

  /** Magic number that tags every order this server places. */
  const Magic: int := 234000

  /** Every order comment is this prefix followed by the execution id. */
  const CommentPrefix: string := "MT5Controller_"

  /**
   The trade intent after its top-level fields were converted. `tp` and `sl`
   are None when the body's value was missing or falsy, and otherwise the
   float it converted to (which can still be 0.0).
   */
  datatype TradeIntent = TradeIntent(
    symbol: string,
    direction: string,
    baseVolume: real,
    tp: Option<real>,
    sl: Option<real>)

  /** One element of the body's `accounts` list; its two fields are converted inside the loop. */
  datatype AccountEntry = AccountEntry(accountNumber: Parsed<int>, multiplier: Parsed<real>)

  datatype ExecuteBody = ExecuteBody(intent: TradeIntent, accounts: seq<AccountEntry>)

  datatype Status = Filled | Rejected

  /** One element of the response's `results` list (its timestamp is left out). */
  datatype OrderResult = OrderResult(
    account: int,
    symbol: string,
    direction: string,
    volume: real,
    ticket: Option<int>,
    executionPrice: Option<real>,
    status: Status,
    error: Option<string>)

  datatype ExecutionReport = ExecutionReport(
    executionId: string,
    symbol: string,
    direction: string,
    baseVolume: real,
    tp: Option<real>,
    sl: Option<real>,
    results: seq<OrderResult>)

  /** The response body: `status: success` with the report, or `status: error` (HTTP 500). */
  datatype ExecResponse = ExecSuccess(report: ExecutionReport) | ExecError(error: string)

  /** The response together with every request that reached `order_send`, in order. */
  datatype ExecutionRun = ExecutionRun(response: ExecResponse, sent: seq<OrderRequest>)

  /** Internal state of the loop: what was sent, what was classified, and the exception that ended it, if any. */
  datatype Batch = Batch(sent: seq<OrderRequest>, results: seq<OrderResult>, abort: Option<string>)

  // ---------------------------------------------------------------------------
  // Specification predicates
  // ---------------------------------------------------------------------------

  /** Both fields of the entry converted, so the loop body does not raise for it. */
  predicate WellFormed(e: AccountEntry)
  {
    e.accountNumber.Value? && e.multiplier.Value?
  }

  /** The message of the exception a malformed entry raises: the account number is converted first. */
  function EntryError(e: AccountEntry): string
    requires !WellFormed(e)
  {
    if e.accountNumber.Unparsable? then e.accountNumber.error else e.multiplier.error
  }

  /** The fields every request of one batch shares, whatever the account. */
  ghost predicate Carries(req: OrderRequest, intent: TradeIntent, execId: string)
  {
    && req.action == Deal
    && req.symbol == intent.symbol
    && (req.orderType == Buy <==> intent.direction == "BUY")
    && req.deviation == Deviation
    && req.magic == Magic
    && req.comment == CommentPrefix + execId
    && req.typeTime == GoodTillCancelled
    && req.typeFilling == ImmediateOrCancel
    && (req.tp.Some? <==> intent.tp.Some? && intent.tp.value != 0.0)
    && (req.tp.Some? ==> req.tp == intent.tp)
    && (req.sl.Some? <==> intent.sl.Some? && intent.sl.value != 0.0)
    && (req.sl.Some? ==> req.sl == intent.sl)
  }

  /** The reason a reply is rejected: the last error for a missing reply, else the reply's comment. */
  function RejectionReason(reply: OrderReply): string
  {
    match reply
    case NoResult(lastError) => lastError
    case TradeResult(_, comment, _, _) => comment
  }

  /**
   What a result entry must say about the reply it was built from: FILLED
   exactly when there is a reply with the DONE code, then carrying its ticket
   and price and no error; otherwise REJECTED with no ticket, no price and the
   rejection reason as error.
   */
  ghost predicate Reports(res: OrderResult, account: int, intent: TradeIntent, volume: real, reply: OrderReply)
  {
    && res.account == account
    && res.symbol == intent.symbol
    && res.direction == intent.direction
    && res.volume == volume
    && (res.status == Filled <==> reply.TradeResult? && reply.retcode == RetcodeDone)
    && (res.status == Filled ==>
          res.ticket == Some(reply.order) && res.executionPrice == Some(reply.price) && res.error == None)
    && (res.status == Rejected ==>
          res.ticket == None && res.executionPrice == None && res.error == Some(RejectionReason(reply)))
  }

  /**
   The n-th submission of a batch: the entry was well formed, the request
   carries the batch fields and the entry's volume, and the result reports
   the terminal's reply to that very request.
   */
  ghost predicate Submission(
    intent: TradeIntent, execId: string,
    volume: (real, real) -> real, send: (nat, OrderRequest) -> OrderReply,
    e: AccountEntry, n: nat, req: OrderRequest, res: OrderResult)
  {
    && WellFormed(e)
    && Carries(req, intent, execId)
    && req.volume == volume(intent.baseVolume, e.multiplier.value)
    && Reports(res, e.accountNumber.value, intent, req.volume, send(n, req))
  }

  // ---------------------------------------------------------------------------
  // Operations
  // ---------------------------------------------------------------------------

  /** The order type is chosen once per batch; anything other than "BUY" is a sell. */
  function OrderTypeOf(direction: string): OrderType
  {
    if direction == "BUY" then Buy else Sell
  }

  /** A take-profit or stop-loss is put in the request only when it is present and non-zero. */
  function LimitField(x: Option<real>): Option<real>
  {
    if x.Some? && x.value != 0.0 then x else None
  }

  function BuildRequest(intent: TradeIntent, execId: string, volume: real): (req: OrderRequest)
    ensures Carries(req, intent, execId)
    ensures req.volume == volume
  {
    OrderRequest(
      Deal, intent.symbol, volume, OrderTypeOf(intent.direction), Deviation, Magic,
      CommentPrefix + execId, GoodTillCancelled, ImmediateOrCancel,
      LimitField(intent.tp), LimitField(intent.sl))
  }

  /** Classifies one terminal reply into a result entry. */
  function Classify(account: int, intent: TradeIntent, volume: real, reply: OrderReply): (res: OrderResult)
    ensures Reports(res, account, intent, volume, reply)
  {
    match reply
    case NoResult(lastError) =>
      OrderResult(account, intent.symbol, intent.direction, volume, None, None, Rejected, Some(lastError))
    case TradeResult(retcode, comment, order, price) =>
      if retcode != RetcodeDone then
        OrderResult(account, intent.symbol, intent.direction, volume, None, None, Rejected, Some(comment))
      else
        OrderResult(account, intent.symbol, intent.direction, volume, Some(order), Some(price), Filled, None)
  }

  /**
   The loop over `accounts[i..]`: converts the entry, builds and sends its
   request, classifies the reply, and goes on; a malformed entry raises and
   ends the loop with nothing more sent.
   */
  function FanOut(
    intent: TradeIntent, execId: string,
    volume: (real, real) -> real, send: (nat, OrderRequest) -> OrderReply,
    entries: seq<AccountEntry>, i: nat): (b: Batch)
    requires i <= |entries|
    ensures |b.sent| == |b.results| <= |entries| - i
    ensures b.abort.None? <==> forall k :: i <= k < |entries| ==> WellFormed(entries[k])
    ensures b.abort.None? ==> |b.sent| == |entries| - i
    ensures forall k :: i <= k < i + |b.sent| ==> WellFormed(entries[k])
    ensures b.abort.Some? ==>
              && i + |b.sent| < |entries|
              && !WellFormed(entries[i + |b.sent|])
              && b.abort.value == EntryError(entries[i + |b.sent|])
    ensures forall k :: 0 <= k < |b.sent| ==>
              Submission(intent, execId, volume, send, entries[i + k], i + k, b.sent[k], b.results[k])
    decreases |entries| - i
  {
    if i == |entries| then Batch([], [], None)
    else
      var e := entries[i];
      if !WellFormed(e) then Batch([], [], Some(EntryError(e)))
      else
        var v := volume(intent.baseVolume, e.multiplier.value);
        var req := BuildRequest(intent, execId, v);
        var res := Classify(e.accountNumber.value, intent, v, send(i, req));
        var rest := FanOut(intent, execId, volume, send, entries, i + 1);
        Batch([req] + rest.sent, [res] + rest.results, rest.abort)
  }

  /**
   The manual-execute endpoint. A body that fails to convert is answered with
   an error before anything is sent. Otherwise every entry is submitted in
   order; if an entry is malformed, the orders of the entries before it have
   already been sent, but the response is an error and their results are lost.
   */
  function ExecuteManualTrade(
    body: Parsed<ExecuteBody>, execId: string,
    volume: (real, real) -> real, send: (nat, OrderRequest) -> OrderReply): (r: ExecutionRun)
    ensures body.Unparsable? ==> r.response == ExecError(body.error) && r.sent == []
    ensures r.response.ExecSuccess? <==>
              body.Value? && forall k :: 0 <= k < |body.value.accounts| ==> WellFormed(body.value.accounts[k])
    ensures r.response.ExecSuccess? ==>
              var intent := body.value.intent;
              var report := r.response.report;
              && report.executionId == execId
              && report.symbol == intent.symbol
              && report.direction == intent.direction
              && report.baseVolume == intent.baseVolume
              && report.tp == intent.tp
              && report.sl == intent.sl
              && |report.results| == |body.value.accounts| == |r.sent|
              && forall k :: 0 <= k < |r.sent| ==>
                   Submission(intent, execId, volume, send, body.value.accounts[k], k, r.sent[k], report.results[k])
    ensures r.response.ExecError? && body.Value? ==>
              var accounts := body.value.accounts;
              && |r.sent| < |accounts|
              && (forall k :: 0 <= k < |r.sent| ==> WellFormed(accounts[k]))
              && !WellFormed(accounts[|r.sent|])
              && r.response.error == EntryError(accounts[|r.sent|])
    ensures body.Value? ==>
              forall k :: 0 <= k < |r.sent| ==>
                && Carries(r.sent[k], body.value.intent, execId)
                && r.sent[k].volume == volume(body.value.intent.baseVolume, body.value.accounts[k].multiplier.value)
  {
    match body
    case Unparsable(error) => ExecutionRun(ExecError(error), [])
    case Value(ExecuteBody(intent, accounts)) =>
      var b := FanOut(intent, execId, volume, send, accounts, 0);
      if b.abort.Some? then ExecutionRun(ExecError(b.abort.value), b.sent)
      else
        ExecutionRun(
          ExecSuccess(ExecutionReport(execId, intent.symbol, intent.direction, intent.baseVolume, intent.tp, intent.sl, b.results)),
          b.sent)
  }

  // ---------------------------------------------------------------------------
  // Properties
  // ---------------------------------------------------------------------------

  /** The classification contract leaves no freedom: one reply determines one result entry. */
  lemma ReportsDeterminesResult(a: OrderResult, b: OrderResult, account: int, intent: TradeIntent, volume: real, reply: OrderReply)
    requires Reports(a, account, intent, volume, reply)
    requires Reports(b, account, intent, volume, reply)
    ensures a == b
  {
    if a.status == Filled {
      assert b.status == Filled;
    } else {
      assert b.status == Rejected;
    }
  }

  /** Requests of one batch differ at most in their volume; none of them names an account. */
  lemma RequestsDifferOnlyInVolume(req1: OrderRequest, req2: OrderRequest, intent: TradeIntent, execId: string)
    requires Carries(req1, intent, execId)
    requires Carries(req2, intent, execId)
    ensures req1.(volume := req2.volume) == req2
  {
    assert req1.orderType == req2.orderType;
  }

  /**
   One account's reply only affects that account's result: two terminals that
   agree on every submission but the j-th produce the same requests and the
   same results everywhere else.
   */
  lemma {:induction false} FanOutIsolatesReplies(
    intent: TradeIntent, execId: string, volume: (real, real) -> real,
    send: (nat, OrderRequest) -> OrderReply, send': (nat, OrderRequest) -> OrderReply,
    entries: seq<AccountEntry>, i: nat, j: nat)
    requires i <= |entries|
    requires forall n, req :: n != j ==> send(n, req) == send'(n, req)
    ensures var b := FanOut(intent, execId, volume, send, entries, i);
            var b' := FanOut(intent, execId, volume, send', entries, i);
            && b.sent == b'.sent
            && b.abort == b'.abort
            && |b.results| == |b'.results|
            && forall k :: 0 <= k < |b.results| && i + k != j ==> b.results[k] == b'.results[k]
    decreases |entries| - i
  {
    if i < |entries| && WellFormed(entries[i]) {
      FanOutIsolatesReplies(intent, execId, volume, send, send', entries, i + 1, j);
    }
  }

  /** At the endpoint: a different reply for the j-th account changes no other account's result. */
  lemma ExecutionIsolatesReplies(
    body: ExecuteBody, execId: string, volume: (real, real) -> real,
    send: (nat, OrderRequest) -> OrderReply, send': (nat, OrderRequest) -> OrderReply, j: nat)
    requires forall n, req :: n != j ==> send(n, req) == send'(n, req)
    ensures var r := ExecuteManualTrade(Value(body), execId, volume, send);
            var r' := ExecuteManualTrade(Value(body), execId, volume, send');
            && r.sent == r'.sent
            && r.response.ExecSuccess? == r'.response.ExecSuccess?
            && (r.response.ExecSuccess? ==>
                  forall k :: 0 <= k < |r.response.report.results| && k != j ==>
                    r.response.report.results[k] == r'.response.report.results[k])
  {
    FanOutIsolatesReplies(body.intent, execId, volume, send, send', body.accounts, 0, j);
  }
}
