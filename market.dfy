/** Market symbols of the centralized-exchange handlers: the unified symbol
    of a token against USDT, the base currency read back from it by
    splitting at the slash, and Binance's order symbol without a slash;
    and the balance guard both handlers apply before trading. */
module Market {
  import opened Common

  const QUOTE: string := "USDT"

  /** The token name, a slash and the quote currency. */
  function MarketSymbol(name: string): string
  {
    name + "/" + QUOTE
  }

  /** The token name followed by the quote currency: the symbol the Binance
      orders are placed on. */
  function OrderSymbol(name: string): string
  {
    name + QUOTE
  }

  /** The first piece of splitting `s` at '/': everything before the first
      slash, or all of `s` when it has none. */
  function BeforeSlash(s: string): (r: string)
    ensures r <= s
    ensures '/' !in r
    ensures '/' !in s ==> r == s
  {
    if s == [] || s[0] == '/' then []
    else [s[0]] + BeforeSlash(s[1..])
  }

  /** The base currency looked up in the balances is whatever precedes the
      first '/' of the token name itself. */
  lemma {:induction false} BaseOfMarketSymbol(name: string)
    ensures BeforeSlash(MarketSymbol(name)) == BeforeSlash(name)
  {
    if name != [] && name[0] != '/' {
      assert MarketSymbol(name)[1..] == MarketSymbol(name[1..]);
      BaseOfMarketSymbol(name[1..]);
    }
  }

  /** So a name without '/' is read back unchanged. */
  lemma BaseOfPlainName(name: string)
    requires '/' !in name
    ensures BeforeSlash(MarketSymbol(name)) == name
  {
    BaseOfMarketSymbol(name);
  }

  /** The order a handler decides on from the free balances it fetched;
      `balances` maps a currency to its free amount and lacks currencies the
      account does not hold. */
  datatype Trade = BuyToken(usdtFree: real) | SellToken(tokenFree: real) | NoTrade

  /** A buy needs a USDT balance whose free amount is above `minUsdt`, a sell
      needs a balance of the base currency whose free amount is above 0;
      every other case (another action, a missing or too small balance)
      places nothing. */
  function Dispatch(action: string, name: string, balances: map<string, real>, minUsdt: real): (t: Trade)
    ensures t.BuyToken? <==> action == BUY && QUOTE in balances && balances[QUOTE] > minUsdt
    ensures t.BuyToken? ==> t.usdtFree == balances[QUOTE]
    ensures t.SellToken? <==> action == SELL && BeforeSlash(MarketSymbol(name)) in balances
                              && balances[BeforeSlash(MarketSymbol(name))] > 0.0
    ensures t.SellToken? ==> t.tokenFree == balances[BeforeSlash(MarketSymbol(name))] && t.tokenFree > 0.0
  {
    var base := BeforeSlash(MarketSymbol(name));
    if action == BUY && QUOTE in balances && balances[QUOTE] > minUsdt then BuyToken(balances[QUOTE])
    else if action == SELL && base in balances && balances[base] > 0.0 then SellToken(balances[base])
    else NoTrade
  }

  /** The order sent to the exchange, if any: a market buy spending `cost`
      USDT, or a market sell of `amount` of the token. */
  datatype Order = NoOrder | MarketBuy(symbol: string, cost: real) | MarketSell(symbol: string, amount: real)
}
