/** The MEXC webhook handler: cancel the symbol's open orders, then buy with
    the whole free USDT balance when it is above 5, or sell the whole free
    token balance when it is above 0, and record the trade. */
module Mexc {
  import opened Common
  import opened Market

  /** The free USDT a buy needs to exceed. */
  const MIN_USDT: real := 5.0

  /** The USDT value recorded for a sell: the token amount times the
      ticker's last price. Without a ticker the price is the string 'N/A'
      and the product is NaN, written here as None. */
  function SellValue(balanceToken: real, ticker: Option<real>): (v: Option<real>)
    ensures v.None? <==> ticker.None?
    ensures v.Some? ==> v.value == balanceToken * ticker.value
  {
    if ticker.None? then None else Some(balanceToken * ticker.value)
  }

  /** What the handler writes to the history for a trade: the ticker price
      (None for 'N/A') and the USDT value (None for NaN). */
  datatype Recorded = Recorded(tokenPrice: Option<real>, usdtPrice: Option<real>)

  /** The results of the exchange calls the handler makes, in call order. */
  datatype Exchange = Exchange(
    balances: Fallible<map<string, real>>,   // fetchBalance: free amount per currency
    openOrdersCancelled: bool,               // fetchOpenOrders and cancelOrders succeed
    ticker: Fallible<Option<real>>,          // fetchTicker(marketSymbol), its last price
    orderAccepted: bool)                     // the market order (and, for a buy, the balance re-fetch) succeed

  /** The HTTP status, the order sent, and the row written (if any). */
  datatype Response = Response(status: int, order: Order, recorded: Option<Recorded>)

  /** The webhook handler. Every thrown error answers 500; an action other
      than buy or sell, or a balance that does not pass the guard, places
      nothing and answers 200. */
  function Handle(data: Webhook, ex: Exchange): (r: Response)
    ensures r.status == 200 || r.status == 500
    ensures ex.balances.Threw? || !ex.openOrdersCancelled ==> r == Response(500, NoOrder, None)
    ensures ex.balances.Ok? && ex.openOrdersCancelled && Dispatch(data.action, data.name, ex.balances.value, MIN_USDT).NoTrade?
            ==> r == Response(200, NoOrder, None)
    ensures r.order.MarketBuy? ==>
              && ex.balances.Ok? && QUOTE in ex.balances.value
              && Dispatch(data.action, data.name, ex.balances.value, MIN_USDT).BuyToken?
              && r.order == MarketBuy(MarketSymbol(data.name), ex.balances.value[QUOTE])
              && ex.ticker.Ok?
              && (r.status == 200 <==> ex.orderAccepted)
              && r.recorded == (if r.status == 200 then Some(Recorded(ex.ticker.value, Some(r.order.cost))) else None)
    ensures r.order.MarketSell? ==>
              && ex.balances.Ok?
              && Dispatch(data.action, data.name, ex.balances.value, MIN_USDT).SellToken?
              && r.order == MarketSell(MarketSymbol(data.name), ex.balances.value[BeforeSlash(MarketSymbol(data.name))])
              && ex.ticker.Ok?
              && (r.status == 200 <==> ex.orderAccepted)
              && r.recorded == (if r.status == 200 then Some(Recorded(ex.ticker.value, SellValue(r.order.amount, ex.ticker.value))) else None)
    ensures r.recorded.Some? ==> r.status == 200 && !r.order.NoOrder?
    ensures ex.balances.Ok? && ex.openOrdersCancelled && !Dispatch(data.action, data.name, ex.balances.value, MIN_USDT).NoTrade? ==>
              if ex.ticker.Threw? then r == Response(500, NoOrder, None)
              else
                && r.order == (match Dispatch(data.action, data.name, ex.balances.value, MIN_USDT)
                               case BuyToken(usdtFree) => MarketBuy(MarketSymbol(data.name), usdtFree)
                               case SellToken(tokenFree) => MarketSell(MarketSymbol(data.name), tokenFree)
                               case NoTrade => NoOrder)
                && (r.status == 200 <==> ex.orderAccepted)
                && (r.status == 200 <==> r.recorded.Some?)
  {
    if ex.balances.Threw? || !ex.openOrdersCancelled then Response(500, NoOrder, None)
    else
      var symbol := MarketSymbol(data.name);
      match Dispatch(data.action, data.name, ex.balances.value, MIN_USDT)
      case NoTrade => Response(200, NoOrder, None)
      case BuyToken(usdtFree) =>
        if ex.ticker.Threw? then Response(500, NoOrder, None)
        else if !ex.orderAccepted then Response(500, MarketBuy(symbol, usdtFree), None)
        else Response(200, MarketBuy(symbol, usdtFree), Some(Recorded(ex.ticker.value, Some(usdtFree))))
      case SellToken(tokenFree) =>
        if ex.ticker.Threw? then Response(500, NoOrder, None)
        else if !ex.orderAccepted then Response(500, MarketSell(symbol, tokenFree), None)
        else Response(200, MarketSell(symbol, tokenFree), Some(Recorded(ex.ticker.value, SellValue(tokenFree, ex.ticker.value))))
  }

  /** A buy only goes out with more than 5 USDT free, and spends all of it. */
  lemma BuyAboveMinimum(data: Webhook, ex: Exchange)
    requires Handle(data, ex).order.MarketBuy?
    ensures data.action == BUY
    ensures ex.balances.value[QUOTE] > MIN_USDT
    ensures Handle(data, ex).order.cost == ex.balances.value[QUOTE]
  {
  }

  /** A buy signal with 5 USDT or less free (or no USDT balance at all)
      places nothing and still answers 200. */
  lemma SmallBalanceNoBuy(data: Webhook, ex: Exchange)
    requires data.action == BUY && ex.balances.Ok? && ex.openOrdersCancelled
    requires QUOTE !in ex.balances.value || ex.balances.value[QUOTE] <= MIN_USDT
    ensures Handle(data, ex) == Response(200, NoOrder, None)
  {
    BuyIsNotSell();
  }

  /** A sell only goes out with a positive free amount of the token, looked
      up under the token name itself when the name has no '/'. */
  lemma SellOfPlainName(data: Webhook, ex: Exchange)
    requires '/' !in data.name
    requires Handle(data, ex).order.MarketSell?
    ensures data.action == SELL
    ensures data.name in ex.balances.value && ex.balances.value[data.name] > 0.0
    ensures Handle(data, ex).order.amount == ex.balances.value[data.name]
  {
    BaseOfPlainName(data.name);
  }

  /** A recorded sell is valued at the amount sold times the ticker
      price (`SellValue`), which is positive whenever the price is: the
      guard lets only positive amounts through. */
  lemma RecordedSellValue(data: Webhook, ex: Exchange, price: real)
    requires Handle(data, ex).order.MarketSell? && Handle(data, ex).status == 200
    requires ex.ticker == Ok(Some(price)) && price > 0.0
    ensures Handle(data, ex).recorded.Some?
    ensures Handle(data, ex).recorded.value.usdtPrice == SellValue(Handle(data, ex).order.amount, Some(price))
    ensures Handle(data, ex).recorded.value.usdtPrice.value > 0.0
  {
    var t := Dispatch(data.action, data.name, ex.balances.value, MIN_USDT);
    assert t.SellToken? && Handle(data, ex).order.amount == t.tokenFree;
    PositiveSellValue(Handle(data, ex).recorded.value.usdtPrice, Handle(data, ex).order.amount, price);
  }

  /** A positive amount at a positive price is worth their product, which
      is positive. */
  lemma PositiveSellValue(v: Option<real>, amount: real, price: real)
    requires v == SellValue(amount, Some(price)) && amount > 0.0 && price > 0.0
    ensures v == Some(amount * price) && v.value > 0.0
  {
    var product := amount * price;
    assert v.value == product;
    ProductPositive(amount, price);
  }

  lemma ProductPositive(a: real, b: real)
    requires a > 0.0 && b > 0.0
    ensures a * b > 0.0
  {
  }
}
