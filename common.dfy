/** Shared vocabulary of the trading relay: optional values, calls that may
    throw, and the transaction record every handler writes and the
    dashboard reads. */
module Common {

  datatype Option<+T> = None | Some(value: T)

  /** The result of a call into code outside the model (an exchange SDK, the
      Solana RPC, an HTTP API, the database) that may throw instead of
      returning a value. */
  datatype Fallible<+T> = Ok(value: T) | Threw

  /** The two action labels the webhook handlers act on. Stored rows may carry
      any other label as well; they are plain strings in the database. */
  const BUY: string := "buy"
  const SELL: string := "sell"

  lemma BuyIsNotSell()
    ensures BUY != SELL
  {
    assert BUY[0] != SELL[0];
  }

  /** One row of the transaction history collection. `tokenPrice` is None
      where the handler recorded the string 'N/A' (no ticker); `datetime` is
      the write time in milliseconds since the epoch. */
  datatype TransactionRecord = TransactionRecord(
    name: string,
    action: string,
    timeframe: string,
    tokenPrice: Option<real>,
    usdtPrice: real,
    datetime: int,
    indicator: string)

  /** The webhook body common to the trading handlers; a missing field is the
      empty string, which JavaScript treats as falsy just like `undefined`. */
  datatype Webhook = Webhook(name: string, action: string, timeframe: string, indicator: string)

  /** One of the four required fields is missing (falsy). */
  predicate MissingField(data: Webhook)
  {
    data.name == "" || data.action == "" || data.timeframe == "" || data.indicator == ""
  }
}
