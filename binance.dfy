/** The Binance US webhook handler: choose how much USDT to spend on a buy
    (stored allocation against free balance, with a BNB fee-coverage
    check), floor order sizes to cents, value a sell from its fills, record
    the trade and make the proceeds the token's next allocation. */
module Binance {
  import opened Common
  import opened Allocations
  import opened History
  import opened Market

  /** Trading fee rate when fees are paid in BNB (0.075%). */
  const FEE_RATE: real := 0.00075
  /** Share of the balance spent when fees come out of the trade (0.1% kept back). */
  const FEE_RESERVE: real := 0.999

  /** USDT value of the BNB held: the ticker's last price times the BNB
      balance, the price counting as 0 when there is no ticker. */
  function BnbInUsdt(bnbLast: Option<real>, balanceBnb: real): (v: real)
    ensures bnbLast.None? ==> v == 0.0
  {
    (if bnbLast.Some? then bnbLast.value else 0.0) * balanceBnb
  }

  /** `getTokenBalance`: the amount to spend on a buy. A throwing ticker
      fetch or allocation lookup falls back to the free balance less the
      fee reserve. */
  function GetTokenBalance(bnbTicker: Fallible<Option<real>>, balanceBnb: real,
                           doc: Fallible<Option<TokenRecord>>, defaultBalance: real): (r: real)
    ensures 0.0 <= defaultBalance ==> r <= defaultBalance
    ensures bnbTicker.Ok? && doc.Ok? && UsesAllocation(doc.value, defaultBalance) ==>
              r <= doc.value.value.usdtAmount || r == doc.value.value.usdtAmount * FEE_RESERVE
  {
    if bnbTicker.Threw? || doc.Threw? then
      defaultBalance * FEE_RESERVE
    else
      var bnb := BnbInUsdt(bnbTicker.value, balanceBnb);
      if UsesAllocation(doc.value, defaultBalance) then
        var amount := doc.value.value.usdtAmount;
        if bnb > amount * FEE_RATE then amount else amount * FEE_RESERVE
      else if bnb > defaultBalance * FEE_RATE then
        defaultBalance
      else
        defaultBalance * FEE_RESERVE
  }

  /** The fee rule as one step: the whole candidate when the BNB held covers
      its fee, otherwise the candidate less the reserve. */
  function AfterFees(candidate: real, bnbInUsdt: real): (r: real)
    ensures bnbInUsdt > candidate * FEE_RATE ==> r == candidate
    ensures bnbInUsdt <= candidate * FEE_RATE ==> r == candidate * FEE_RESERVE
  {
    if bnbInUsdt > candidate * FEE_RATE then candidate else candidate * FEE_RESERVE
  }

  /** The sizing policy as two steps (pick the candidate, then apply the fee
      rule) agrees with the nested branches of `getTokenBalance`. */
  lemma GetTokenBalanceIsCandidateAfterFees(bnbLast: Option<real>, balanceBnb: real,
                                            doc: Option<TokenRecord>, defaultBalance: real)
    ensures GetTokenBalance(Ok(bnbLast), balanceBnb, Ok(doc), defaultBalance)
         == AfterFees(if UsesAllocation(doc, defaultBalance) then doc.value.usdtAmount else defaultBalance,
                      BnbInUsdt(bnbLast, balanceBnb))
  {
  }

  /** Any failure gives the free balance less the reserve; a missing BNB
      ticker counts as no BNB, so the reserve is applied to the candidate. */
  lemma GetTokenBalanceFallbacks(bnbTicker: Fallible<Option<real>>, balanceBnb: real,
                                 doc: Fallible<Option<TokenRecord>>, defaultBalance: real)
    ensures bnbTicker.Threw? || doc.Threw? ==>
              GetTokenBalance(bnbTicker, balanceBnb, doc, defaultBalance) == defaultBalance * FEE_RESERVE
    ensures bnbTicker == Ok(None) && doc.Ok? && 0.0 <= defaultBalance && !UsesAllocation(doc.value, defaultBalance) ==>
              GetTokenBalance(bnbTicker, balanceBnb, doc, defaultBalance) == defaultBalance * FEE_RESERVE
  {
  }

  /** `x` rounded down to whole cents. */
  function FloorCents(x: real): (r: real)
    ensures r <= x < r + 0.01
    ensures (r * 100.0).Floor as real == r * 100.0
  {
    (x * 100.0).Floor as real / 100.0
  }

  /** Flooring an amount already in whole cents changes nothing. */
  lemma FloorCentsIdempotent(x: real)
    ensures FloorCents(FloorCents(x)) == FloorCents(x)
  {
    var r := FloorCents(x);
    var k := (r * 100.0).Floor;
    assert k as real == r * 100.0;
    assert FloorCents(r) == k as real / 100.0;
  }

  /** A larger amount never floors to fewer cents. */
  lemma FloorCentsMonotone(x: real, y: real)
    requires x <= y
    ensures FloorCents(x) <= FloorCents(y)
  {
    assert x * 100.0 <= y * 100.0;
    assert (x * 100.0).Floor <= (y * 100.0).Floor;
  }

  datatype Fill = Fill(price: real, amount: real)

  /** What `createMarketSellOrder` reports: the fills, and the average and
      limit price used when there are no fills. */
  datatype SellOrder = SellOrder(fills: seq<Fill>, average: Option<real>, price: real)

  /** Sum of price times amount over the fills, added in order. */
  function FillsValue(fills: seq<Fill>): real
  {
    if fills == [] then 0.0
    else FillsValue(fills[..|fills| - 1]) + fills[|fills| - 1].price * fills[|fills| - 1].amount
  }

  /** The value of a batch of fills is the sum of the values of its parts. */
  lemma {:induction false} FillsValueAppend(a: seq<Fill>, b: seq<Fill>)
    ensures FillsValue(a + b) == FillsValue(a) + FillsValue(b)
  {
    if b != [] {
      assert (a + b)[..|a + b| - 1] == a + b[..|b| - 1];
      FillsValueAppend(a, b[..|b| - 1]);
    } else {
      assert a + b == a;
    }
  }

  /** Fills with non-negative prices and amounts have a non-negative value. */
  lemma {:induction false} FillsValueNonNegative(fills: seq<Fill>)
    requires forall i :: 0 <= i < |fills| ==> fills[i].price >= 0.0 && fills[i].amount >= 0.0
    ensures FillsValue(fills) >= 0.0
  {
    if fills != [] {
      FillsValueNonNegative(fills[..|fills| - 1]);
    }
  }

  /** The order's average fill price, or its price when the average is
      missing or zero. */
  function ExecutedPrice(order: SellOrder): (p: real)
    ensures p == order.price || (order.average == Some(p) && p != 0.0)
    ensures order.average.Some? && order.average.value != 0.0 ==> p == order.average.value
    ensures order.average.None? || order.average.value == 0.0 ==> p == order.price
  {
    if order.average.Some? && order.average.value != 0.0 then order.average.value else order.price
  }

  /** What a sell of `amount` brings in: the value of its fills when there
      are any, otherwise the amount times the executed price. */
  function SoldValue(order: SellOrder, amount: real): real
  {
    if |order.fills| > 0 then FillsValue(order.fills) else amount * ExecutedPrice(order)
  }

  /** `totalSellValue` in `executeSellOrder`: summed over the fills when
      there are any, otherwise the floored amount sold times the executed
      price. */
  method TotalSellValue(order: SellOrder, balanceToken: real) returns (total: real)
    ensures |order.fills| > 0 ==> total == FillsValue(order.fills)
    ensures |order.fills| == 0 ==> total == FloorCents(balanceToken) * ExecutedPrice(order)
  {
    total := 0.0;
    if |order.fills| > 0 {
      var i := 0;
      while i < |order.fills|
        invariant 0 <= i <= |order.fills|
        invariant total == FillsValue(order.fills[..i])
      {
        assert order.fills[..i + 1][..i] == order.fills[..i];
        total := total + order.fills[i].price * order.fills[i].amount;
        i := i + 1;
      }
      assert order.fills[..i] == order.fills;
    } else {
      total := FloorCents(balanceToken) * ExecutedPrice(order);
    }
  }

  /** Binance buys with any free USDT above 0. */
  const MIN_USDT: real := 0.0

  /** The results of the exchange calls the handler makes, in call order. */
  datatype Exchange = Exchange(
    balances: Fallible<map<string, real>>,   // fetchBalance: free amount per currency
    openOrdersCancelled: bool,               // fetchOpenOrders and cancelOrders succeed
    bnbTicker: Fallible<Option<real>>,       // fetchTicker('BNB/USDT'), its last price
    buyAccepted: bool,                       // createMarketBuyOrder succeeds
    tokenTicker: Fallible<Option<real>>,     // fetchTicker(marketSymbol), its last price
    sellResult: Fallible<SellOrder>)         // createMarketSellOrder

  const BNB: string := "BNB"

  /** `executeBuyOrder`: the order spends the floored amount chosen by
      `getTokenBalance`; it succeeds when the exchange accepts the order and
      the ticker fetched after it answers, and only then is the buy
      recorded. */
  method ExecuteBuyOrder(data: Webhook, ex: Exchange, balanceBnb: real, usdtFree: real, now: int,
                         tokens: TokenCollection, history: TransactionCollection)
    returns (ok: bool, order: Order)
    modifies history
    ensures order == MarketBuy(OrderSymbol(data.name),
                               FloorCents(GetTokenBalance(ex.bnbTicker, balanceBnb,
                                                          Ok(FindOne(tokens.records, data.name)), usdtFree)))
    ensures ok <==> ex.buyAccepted && ex.tokenTicker.Ok?
    ensures history.rows == old(history.rows) +
              (if ok
               then [TransactionRecord(data.name, data.action, data.timeframe, ex.tokenTicker.value,
                                       order.cost, now, data.indicator)]
               else [])
  {
    var doc := FindOne(tokens.records, data.name);
    var amount := FloorCents(GetTokenBalance(ex.bnbTicker, balanceBnb, Ok(doc), usdtFree));
    order := MarketBuy(OrderSymbol(data.name), amount);
    if !ex.buyAccepted || ex.tokenTicker.Threw? {
      return false, order;
    }
    history.InsertOne(TransactionRecord(data.name, data.action, data.timeframe, ex.tokenTicker.value,
                                        amount, now, data.indicator));
    ok := true;
  }

  /** `executeSellOrder`: the ticker is fetched first (no order when it
      throws), then the floored free amount is sold; on success the sell
      value is recorded and becomes the token's allocation. */
  method ExecuteSellOrder(data: Webhook, ex: Exchange, tokenFree: real, now: int,
                          tokens: TokenCollection, history: TransactionCollection)
    returns (ok: bool, order: Order)
    modifies tokens, history
    ensures order == if ex.tokenTicker.Threw? then NoOrder else MarketSell(OrderSymbol(data.name), FloorCents(tokenFree))
    ensures ok <==> ex.tokenTicker.Ok? && ex.sellResult.Ok?
    ensures !ok ==> tokens.records == old(tokens.records) && history.rows == old(history.rows)
    ensures ok ==>
              && history.rows == old(history.rows) +
                   [TransactionRecord(data.name, data.action, data.timeframe, ex.tokenTicker.value,
                                      SoldValue(ex.sellResult.value, order.amount), now, data.indicator)]
              && tokens.records == Upsert(old(tokens.records), data.name, SoldValue(ex.sellResult.value, order.amount))
  {
    if ex.tokenTicker.Threw? {
      return false, NoOrder;
    }
    var amount := FloorCents(tokenFree);
    order := MarketSell(OrderSymbol(data.name), amount);
    if ex.sellResult.Threw? {
      return false, order;
    }
    var value := TotalSellValue(ex.sellResult.value, tokenFree);
    assert value == SoldValue(ex.sellResult.value, amount);
    history.InsertOne(TransactionRecord(data.name, data.action, data.timeframe, ex.tokenTicker.value,
                                        value, now, data.indicator));
    var _ := tokens.UpdateOne(data.name, value);
    ok := true;
  }

  /** The webhook handler. `configured` says the four required environment
      variables are set; `connected` says the database connection, made
      after the body is checked, succeeded; `now` is the clock read when a
      record is written.
      Every caught error answers 500; a buy when no BNB balance is listed
      throws on `balanceBNB.free` and answers 500 too. */
  method HandleWebhook(configured: bool, data: Webhook, connected: bool, ex: Exchange, now: int,
                       tokens: TokenCollection, history: TransactionCollection)
    returns (status: int, order: Order)
    modifies tokens, history
    ensures status == 200 || status == 500
    ensures !configured || MissingField(data) || !connected || ex.balances.Threw? || !ex.openOrdersCancelled ==>
              status == 500 && order == NoOrder
    ensures configured && !MissingField(data) && connected && ex.balances.Ok? && ex.openOrdersCancelled &&
            Dispatch(data.action, data.name, ex.balances.value, MIN_USDT).BuyToken? ==>
              if BNB in ex.balances.value then order.MarketBuy? else status == 500 && order == NoOrder
    ensures configured && !MissingField(data) && connected && ex.balances.Ok? && ex.openOrdersCancelled &&
            Dispatch(data.action, data.name, ex.balances.value, MIN_USDT).SellToken? ==>
              if ex.tokenTicker.Ok? then order.MarketSell? else status == 500 && order == NoOrder
    ensures order.NoOrder? ==> tokens.records == old(tokens.records) && history.rows == old(history.rows)
    ensures (configured && !MissingField(data) && connected && ex.balances.Ok? && ex.openOrdersCancelled &&
             Dispatch(data.action, data.name, ex.balances.value, MIN_USDT).NoTrade?) ==> status == 200 && order == NoOrder
    ensures order.MarketBuy? ==>
              && Dispatch(data.action, data.name, ex.balances.value, MIN_USDT).BuyToken?
              && BNB in ex.balances.value
              && order.symbol == OrderSymbol(data.name)
              && order.cost == FloorCents(GetTokenBalance(ex.bnbTicker, ex.balances.value[BNB],
                                                   Ok(FindOne(old(tokens.records), data.name)),
                                                   ex.balances.value[QUOTE]))
              && tokens.records == old(tokens.records)
              && (status == 200 <==> ex.buyAccepted && ex.tokenTicker.Ok?)
              && history.rows == old(history.rows) +
                   (if status == 200
                    then [TransactionRecord(data.name, data.action, data.timeframe, ex.tokenTicker.value,
                                            order.cost, now, data.indicator)]
                    else [])
    ensures order.MarketSell? ==>
              && Dispatch(data.action, data.name, ex.balances.value, MIN_USDT).SellToken?
              && ex.tokenTicker.Ok?
              && order.symbol == OrderSymbol(data.name)
              && order.amount == FloorCents(Dispatch(data.action, data.name, ex.balances.value, MIN_USDT).tokenFree)
              && (status == 200 <==> ex.sellResult.Ok?)
              && (status == 200 ==>
                    && history.rows == old(history.rows) +
                         [TransactionRecord(data.name, data.action, data.timeframe, ex.tokenTicker.value,
                                            SoldValue(ex.sellResult.value, order.amount), now, data.indicator)]
                    && tokens.records == Upsert(old(tokens.records), data.name, SoldValue(ex.sellResult.value, order.amount)))
              && (status == 500 ==> tokens.records == old(tokens.records) && history.rows == old(history.rows))
  {
    order := NoOrder;
    if !configured || MissingField(data) || !connected || ex.balances.Threw? || !ex.openOrdersCancelled {
      return 500, NoOrder;
    }
    var balances := ex.balances.value;
    var trade := Dispatch(data.action, data.name, balances, MIN_USDT);
    match trade
    case NoTrade =>
      status := 200;
    case BuyToken(usdtFree) =>
      if BNB !in balances {
        return 500, NoOrder;
      }
      var ok;
      ok, order := ExecuteBuyOrder(data, ex, balances[BNB], usdtFree, now, tokens, history);
      status := if ok then 200 else 500;
    case SellToken(tokenFree) =>
      var ok;
      ok, order := ExecuteSellOrder(data, ex, tokenFree, now, tokens, history);
      status := if ok then 200 else 500;
  }

  /** After a successful sell the token's allocation reads back as the sell
      value, every other name keeps its documents, and a collection with at
      most one document per name still has exactly one for this name. */
  lemma AllocationAfterSell(before: seq<TokenRecord>, name: string, value: real)
    requires UniqueNames(before)
    ensures FindOne(Upsert(before, name, value), name) == Some(TokenRecord(name, value))
    ensures |Named(Upsert(before, name, value), name)| == 1
    ensures UniqueNames(Upsert(before, name, value))
    ensures forall other :: other != name ==> Named(Upsert(before, name, value), other) == Named(before, other)
  {
    FindAfterUpsert(before, name, value);
    UpsertCount(before, name, value);
    UpsertKeepsUnique(before, name, value);
    AtMostOneNamed(before, name);
    forall other | other != name
      ensures Named(Upsert(before, name, value), other) == Named(before, other)
    {
      UpsertKeepsOtherNames(before, name, value, other);
    }
  }

  /** A worked buy: 1000 USDT free, no allocation stored
      and enough BNB to cover the fee gives an order of exactly 1000.00. */
  lemma BuyWithoutAllocationExample()
    ensures FloorCents(GetTokenBalance(Ok(Some(600.0)), 1.0, Ok(None), 1000.0)) == 1000.0
  {
    assert 1000.0 * 100.0 == 100000 as real;
  }

  /** The sizing example run through the handler: 1000 USDT free, no
      allocation stored and 1 BNB at 600 USDT, so the fee is covered and a
      market buy of 1000.00 USDT goes out and is recorded. */
  method BuyWithoutAllocationScenario() returns (status: int, order: Order)
    ensures status == 200 && order == MarketBuy("ETHUSDT", 1000.0)
  {
    var tokens := new TokenCollection([]);
    var history := new TransactionCollection([]);
    var data := Webhook("ETH", BUY, "1h", "RSI");
    var ex := Exchange(Ok(map[QUOTE := 1000.0, BNB := 1.0]), true, Ok(Some(600.0)), true, Ok(Some(2500.0)), Threw);
    BuyWithoutAllocationExample();
    status, order := HandleWebhook(true, data, true, ex, 0, tokens, history);
  }
}
