/**
 The boundary with the MetaTrader5 terminal library.

 The terminal is proprietary and is never implemented here: its replies are
 inputs of the model. This module only fixes the shapes of what crosses the
 boundary: the account snapshot `account_info()` returns, the order request
 handed to `order_send(...)` and the reply it gives back.
 */
module Terminal {
  import opened Values

  /** TRADE_RETCODE_DONE of the terminal library: the only reply code that means "filled". */
  const RetcodeDone: int := 10009

  /** ORDER_TYPE_BUY / ORDER_TYPE_SELL. */
  datatype OrderType = Buy | Sell

  /** TRADE_ACTION_DEAL, the only trade action the server sends. */
  datatype TradeAction = Deal

  /** ORDER_TIME_GTC, the only expiration mode the server sends. */
  datatype TimeMode = GoodTillCancelled

  /** ORDER_FILLING_IOC, the only filling mode the server sends. */
  datatype FillingMode = ImmediateOrCancel

  /** What `account_info()` reports about the account the session is logged into. */
  datatype AccountInfo = AccountInfo(
    login: int,
    balance: real,
    equity: real,
    currency: string,
    leverage: int,
    margin: real,
    marginFree: real)

  /**
   The request dictionary given to `order_send`. It names no account: the
   terminal places the order on whichever account its single session is
   logged into. `tp` and `sl` are None when the key is absent from the
   dictionary.
   */
  datatype OrderRequest = OrderRequest(
    action: TradeAction,
    symbol: string,
    volume: real,
    orderType: OrderType,
    deviation: int,
    magic: int,
    comment: string,
    typeTime: TimeMode,
    typeFilling: FillingMode,
    tp: Option<real>,
    sl: Option<real>)

  /**
   What `order_send` gives back: `None` (paired with the text of
   `last_error()`, which the server reads right after) or a result object
   with its return code, comment, order ticket and fill price.
   */
  datatype OrderReply =
    | NoResult(lastError: string)
    | TradeResult(retcode: int, comment: string, order: int, price: real)
}
