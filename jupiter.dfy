/** The Solana webhook handler that trades through the Jupiter aggregator:
    a buy swaps USDT into the token, a sell swaps the wallet's holding of
    the token back into USDT. What the chain, the price API and the swap API
    answer are inputs; the sizing and routing between them is modelled. */
module Jupiter {
  import opened Common
  import opened Allocations

  /** The USDT mint on Solana. */
  const USDT_MINT: string := "Es9vMFrzaCERmJfrF4H2FYD4KCoNkY11McCe8BenwNYB"
  /** Lamports kept back for fees when selling SOL (0.1 SOL). */
  const SOL_RESERVE_LAMPORTS: int := 100000000
  /** The name the buy path looks its allocation up under. */
  const ALLOCATION_NAME: string := "USDT"
  const SOL: string := "SOL"

  /** `getWalletBalance`: the UI amount of the owner's first token account
      for the mint, 0 when there is none. `accounts` is what the RPC lookup
      returned, in its order, or Threw when it failed (the error is
      rethrown). */
  function WalletBalance(accounts: Fallible<seq<real>>): (r: Fallible<real>)
    ensures r.Threw? <==> accounts.Threw?
    ensures accounts.Ok? && accounts.value == [] ==> r == Ok(0.0)
    ensures accounts.Ok? && accounts.value != [] ==> r == Ok(accounts.value[0])
  {
    if accounts.Threw? then Threw
    else if accounts.value == [] then Ok(0.0)
    else Ok(accounts.value[0])
  }

  /** `getTokenBalance`: the USDT to spend on a buy. The stored allocation
      when it is truthy and below the wallet's USDT, otherwise the whole
      wallet balance; any failure of the lookup or the balance read gives 0. */
  function GetTokenBalance(doc: Fallible<Option<TokenRecord>>, walletUsdt: Fallible<real>): (r: real)
    ensures doc.Threw? || walletUsdt.Threw? ==> r == 0.0
    ensures doc.Ok? && walletUsdt.Ok? ==> r <= walletUsdt.value
    ensures doc.Ok? && walletUsdt.Ok? && UsesAllocation(doc.value, walletUsdt.value) ==> r == doc.value.value.usdtAmount
    ensures doc.Ok? && walletUsdt.Ok? && !UsesAllocation(doc.value, walletUsdt.value) ==> r == walletUsdt.value
  {
    if doc.Threw? || walletUsdt.Threw? then 0.0
    else if UsesAllocation(doc.value, walletUsdt.value) then doc.value.value.usdtAmount
    else walletUsdt.value
  }

  /** One swap request: what goes in, what comes out, and how much. */
  datatype Swap = Swap(inputMint: string, outputMint: string, amount: real)

  /** The swap a trade asks for: a buy spends USDT on the token, a sell
      spends the token for USDT. */
  function SwapFor(action: string, tokenMint: string, amount: real): (s: Swap)
    requires action == BUY || action == SELL
    ensures action == BUY ==> s.inputMint == USDT_MINT && s.outputMint == tokenMint
    ensures action == SELL ==> s.inputMint == tokenMint && s.outputMint == USDT_MINT
    ensures s.amount == amount
  {
    if action == BUY then Swap(USDT_MINT, tokenMint, amount) else Swap(tokenMint, USDT_MINT, amount)
  }

  /** `executeOrder`: the swap API's answer must carry a (truthy)
      serialized transaction, which is then signed and sent; the result is
      the transaction id. `swapTransaction` is None when the answer lacks
      the field, Threw when the quote or swap request failed; `sent` is the
      outcome of signing, sending and confirming. */
  function ExecuteOrder(swapTransaction: Fallible<Option<string>>, sent: Fallible<string>): (r: Fallible<string>)
    ensures r.Ok? <==> swapTransaction.Ok? && swapTransaction.value.Some? && swapTransaction.value.value != "" && sent.Ok?
    ensures r.Ok? ==> r == sent
  {
    if swapTransaction.Threw? || swapTransaction.value.None? || swapTransaction.value.value == "" then Threw
    else sent
  }

  /** `tokenAmount` of a sell: for SOL the lamport balance less the fee
      reserve, with no lower clamp; for any other token its wallet balance.
      Either read may throw. */
  function SellAmount(name: string, lamports: Fallible<int>, tokenAccounts: Fallible<seq<real>>): (r: Fallible<real>)
    ensures name == SOL ==> r == if lamports.Threw? then Threw else Ok((lamports.value - SOL_RESERVE_LAMPORTS) as real)
    ensures name != SOL ==> r == WalletBalance(tokenAccounts)
  {
    if name == SOL then
      if lamports.Threw? then Threw else Ok((lamports.value - SOL_RESERVE_LAMPORTS) as real)
    else WalletBalance(tokenAccounts)
  }

  /** Everything the handler learns from outside: the database connection,
      the allocation store (Threw when the lookup fails), the price API's
      mint for the token, the wallet's token accounts for USDT and for the
      token, its lamport balance, and the swap API's and the chain's
      answers. */
  datatype Chain = Chain(
    connected: bool,
    tokens: Fallible<seq<TokenRecord>>,
    tokenMint: Fallible<string>,
    usdtAccounts: Fallible<seq<real>>,
    tokenAccounts: Fallible<seq<real>>,
    lamports: Fallible<int>,
    swapTransaction: Fallible<Option<string>>,
    sent: Fallible<string>)

  /** The HTTP answer: the status, the swap the handler asked for (if it
      got that far) and the transaction id it reports. */
  datatype Response = Response(status: int, swap: Option<Swap>, txid: Option<string>)

  /** The allocation document the buy path reads: always the one named
      'USDT', whatever token is traded. */
  function AllocationDoc(tokens: Fallible<seq<TokenRecord>>): Fallible<Option<TokenRecord>>
  {
    if tokens.Threw? then Threw else Ok(FindOne(tokens.value, ALLOCATION_NAME))
  }

  /** The amount of the trade, or Threw when reading it fails. */
  function TradeAmount(action: string, name: string, c: Chain): (r: Fallible<real>)
    requires action == BUY || action == SELL
    ensures action == BUY ==> r == Ok(GetTokenBalance(AllocationDoc(c.tokens), WalletBalance(c.usdtAccounts)))
    ensures action == SELL ==> r == SellAmount(name, c.lamports, c.tokenAccounts)
  {
    if action == BUY then Ok(GetTokenBalance(AllocationDoc(c.tokens), WalletBalance(c.usdtAccounts)))
    else SellAmount(name, c.lamports, c.tokenAccounts)
  }

  /** The webhook handler. Missing configuration or a missing field is 500;
      so is any failure after that (connecting, the mint lookup, reading a
      sell amount, the swap). An action other than buy or sell places
      nothing and still answers 200. */
  function Handle(configured: bool, data: Webhook, c: Chain): (r: Response)
    ensures r.status == 200 || r.status == 500
    ensures !configured || MissingField(data) ==> r == Response(500, None, None)
    ensures r.status == 200 ==> configured && !MissingField(data) && c.connected && c.tokenMint.Ok?
    ensures r.status == 200 && (data.action == BUY || data.action == SELL) ==>
              r.swap.Some? && c.sent.Ok? && r.txid == Some(c.sent.value) &&
              r.swap.value.inputMint == (if data.action == BUY then USDT_MINT else c.tokenMint.value) &&
              r.swap.value.outputMint == (if data.action == BUY then c.tokenMint.value else USDT_MINT)
    ensures r.status == 200 && data.action != BUY && data.action != SELL ==> r.swap.None? && r.txid.None?
    ensures configured && !MissingField(data) && c.connected && c.tokenMint.Ok? && data.action != BUY && data.action != SELL
            ==> r.status == 200
    ensures configured && !MissingField(data) && (!c.connected || c.tokenMint.Threw?) ==> r == Response(500, None, None)
    ensures configured && !MissingField(data) && c.connected && c.tokenMint.Ok? && (data.action == BUY || data.action == SELL) ==>
              if TradeAmount(data.action, data.name, c).Threw? then r == Response(500, None, None)
              else
                && r.swap == Some(SwapFor(data.action, c.tokenMint.value, TradeAmount(data.action, data.name, c).value))
                && (ExecuteOrder(c.swapTransaction, c.sent).Ok? ==> r.status == 200 && r.txid == Some(c.sent.value))
                && (ExecuteOrder(c.swapTransaction, c.sent).Threw? ==> r.status == 500 && r.txid.None?)
  {
    if !configured || MissingField(data) then Response(500, None, None)
    else if !c.connected || c.tokenMint.Threw? then Response(500, None, None)
    else if data.action == BUY || data.action == SELL then
      var amount := TradeAmount(data.action, data.name, c);
      if amount.Threw? then Response(500, None, None)
      else
        var swap := SwapFor(data.action, c.tokenMint.value, amount.value);
        var txid := ExecuteOrder(c.swapTransaction, c.sent);
        if txid.Threw? then Response(500, Some(swap), None)
        else Response(200, Some(swap), Some(txid.value))
    else Response(200, None, None)
  }

  /** A successful buy spends the allocation stored under 'USDT' when it is
      truthy and below the wallet's USDT, and otherwise the whole wallet
      balance; it never asks for more than the wallet holds. */
  lemma BuySize(data: Webhook, c: Chain)
    requires Handle(true, data, c).status == 200 && data.action == BUY
    requires c.tokens.Ok? && c.usdtAccounts.Ok?
    ensures var amount := Handle(true, data, c).swap.value.amount;
            var wallet := WalletBalance(c.usdtAccounts).value;
            var doc := FindOne(c.tokens.value, ALLOCATION_NAME);
            amount <= wallet &&
            (UsesAllocation(doc, wallet) ==> amount == doc.value.usdtAmount) &&
            (!UsesAllocation(doc, wallet) ==> amount == wallet)
  {
  }

  /** The buy path reads the allocation under the fixed name 'USDT': an
      allocation stored under the traded token's own name (as the Binance
      handler writes them) changes nothing about the order. */
  lemma BuyIgnoresTokenAllocation(data: Webhook, c: Chain, amount: real)
    requires data.name != ALLOCATION_NAME && c.tokens.Ok?
    ensures Handle(true, data, c.(tokens := Ok(Upsert(c.tokens.value, data.name, amount)))) == Handle(true, data, c)
  {
    var c' := c.(tokens := Ok(Upsert(c.tokens.value, data.name, amount)));
    FindOneKeepsOtherNames(c.tokens.value, data.name, amount, ALLOCATION_NAME);
    assert AllocationDoc(c'.tokens) == AllocationDoc(c.tokens);
    if data.action == BUY || data.action == SELL {
      assert TradeAmount(data.action, data.name, c') == TradeAmount(data.action, data.name, c);
    }
  }

  /** A failure reading the allocation or the wallet's USDT does not stop
      the buy: it goes ahead with an amount of 0. */
  lemma BuyAfterLookupFailure(data: Webhook, c: Chain)
    requires !MissingField(data) && data.action == BUY && c.connected && c.tokenMint.Ok?
    requires c.tokens.Threw? || c.usdtAccounts.Threw?
    ensures Handle(true, data, c).swap == Some(Swap(USDT_MINT, c.tokenMint.value, 0.0))
  {
  }

  /** Selling SOL keeps 0.1 SOL back, and with less than that in the wallet
      the requested amount is negative: nothing clamps it. */
  lemma SolSellAmount(data: Webhook, c: Chain)
    requires Handle(true, data, c).status == 200 && data.action == SELL && data.name == SOL
    ensures c.lamports.Ok?
    ensures Handle(true, data, c).swap.value.amount == (c.lamports.value - SOL_RESERVE_LAMPORTS) as real
    ensures c.lamports.value < SOL_RESERVE_LAMPORTS ==> Handle(true, data, c).swap.value.amount < 0.0
  {
  }

  /** Selling any other token offers the wallet's whole balance of it, 0
      when the wallet has no account for the mint. */
  lemma TokenSellAmount(data: Webhook, c: Chain)
    requires Handle(true, data, c).status == 200 && data.action == SELL && data.name != SOL
    ensures c.tokenAccounts.Ok?
    ensures c.tokenAccounts.value == [] ==> Handle(true, data, c).swap.value.amount == 0.0
    ensures c.tokenAccounts.value != [] ==> Handle(true, data, c).swap.value.amount == c.tokenAccounts.value[0]
  {
  }

  /** A swap answer without a transaction fails the trade with 500 after
      the swap was requested. */
  lemma MissingSwapTransaction(data: Webhook, c: Chain)
    requires data.action == BUY || data.action == SELL
    requires c.swapTransaction == Ok(None)
    ensures Handle(true, data, c).status == 500
    ensures Handle(true, data, c).txid.None?
  {
  }
}
