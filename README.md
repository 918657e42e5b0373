# silly-bot-lite, modelled in Dafny

silly-bot-lite relays trading-view webhook signals to exchanges and keeps a
history of its trades. This project models the decision logic between the
exchange, chain and database calls, and the two stores and the dashboard
logic around them:

- **Binance** (`binance.dfy`): the buy size, chosen from the free USDT, the
  token's stored allocation and a BNB fee-coverage check, then floored to
  cents. The value of a sell, summed from its fills. The upsert of that value
  as the token's next allocation. The buy/sell dispatch guard and the
  handler's statuses.
- **Profit table** (`profit_table.dfy`): grouping the history by token,
  sorting each group by time, summing sells minus buys with a trailing buy
  excluded, and the total. The percentages against the first buy, and
  against the sum of the first buys.
- **Transaction table** (`transaction_table.dfy`): the colour of a history
  row, decided by the next row of the same token, and the name filter.
- **Jupiter** (`jupiter.dfy`): the allocation-or-wallet buy amount, the
  SOL fee reserve, the swap direction, the missing-transaction failure and
  the handler's statuses.
- **MEXC** (`mexc.dfy`): the market symbol, the 5 USDT buy guard and the
  positive-balance sell guard, and the values it records.
- **Token API** (`tokens_api.dfy`): POST upsert with validation and 201/200,
  GET, DELETE by name, 405 and 500.
- **History API** (`data_api.dfy`): the timestamp generator loop, the 17
  sample rows, the DELETE name-or-all choice, the newest-first GET, PUT,
  405 and 500.
- **Token editor** (`token_manager.dfy`): the dashboard's token list and
  its three dialogs, one method per handler.

Shared modules: `common.dfy` (Option, Fallible for a call that can throw,
the history record and the webhook body), `sorting.dfy` (a stable sort by an
integer key), `allocations.dfy` (the token allocation store),
`history.dfy` (the transaction store) and `market.dfy` (market symbols and
the dispatch guard shared by Binance and MEXC).

Money is `real`; timestamps are integer milliseconds. Every answer of an
exchange SDK, the Solana RPC, the Jupiter APIs, the HTTP response of the
dashboard's fetches, the clock and the random draw is a parameter. A call
that can throw is a `Fallible` value. The two MongoDB collections are classes
holding a sequence of documents; their methods are specified by pure
functions on that sequence. A JavaScript string that is missing or falsy is
the empty string.

Behaviour of the code kept as it is written:

- The Jupiter buy path reads the allocation stored under the name `USDT`,
  never under the traded token's name (`Jupiter.BuyIgnoresTokenAllocation`).
- Selling SOL asks for the lamport balance less 0.1 SOL, which is negative
  when the wallet holds less (`Jupiter.SolSellAmount`).
- A failed allocation or wallet lookup makes the Jupiter buy go ahead with an
  amount of 0 (`Jupiter.BuyAfterLookupFailure`).
- In the profit table, when the last buy-or-sell of a group is a buy, the
  price of the group's last entry is subtracted, even when that entry has
  some other action (`ProfitTable.OtherActionAfterBuy`).
- The first-buy denominator is 1 when there is no buy, so a token with only
  sells shows 100 times its profit as a percentage
  (`ProfitTable.PercentageExamples`).
- The token editor appends a new token even when the server refused it. The
  added and edited tokens carry no `_id`, so a later edit of one of them
  replaces every token without an `_id` (`TokenManager.EditLeavesNoOldId`).
- The history DELETE treats every capitalisation of `all` as "everything",
  and only those three-letter names and a missing name
  (`DataApi.DeleteSelection`).

## Model

| member | source | states |
|---|---|---|
| Allocations.FindOne | api/binance.js:81 | `findOne({name})`: None exactly when no document has the name, otherwise the first one that has it |
| Allocations.Upsert | api/binance.js:50-54 | `updateOne(..., {upsert: true})`: one document more exactly when none had the name; every document is an old one or the new one |
| Allocations.WithoutName | api/tokens.js:69 | `deleteMany({name})`: exactly the documents with another name remain |
| Allocations.FindAfterUpsert | api/binance.js:50-54 | after an upsert, `findOne` by that name gives the new amount |
| Allocations.UpsertKeepsOtherNames | api/binance.js:50-54 | an upsert leaves every other name's documents as they were |
| Allocations.FindOneKeepsOtherNames | api/jupiter.js:28 | an upsert under one name does not change what `findOne` returns for another |
| Allocations.UpsertCount | api/binance.js:50-54 | after an upsert the name has one document if it had none, otherwise as many as before |
| Allocations.UpsertKeepsUnique | api/tokens.js:39-43 | an upsert keeps at most one document per name |
| Allocations.UpsertTwice | api/binance.js:50-54 | two upserts of a name equal the second one alone |
| Allocations.DeleteKeepsOtherNames | api/tokens.js:69 | deleting a name leaves every other name's documents as they were |
| Allocations.AtMostOneNamed | api/tokens.js:39-43 | with unique names a name has at most one document |
| Allocations.TokenCollection.UpdateOne | api/tokens.js:39-46 | the store becomes the upsert; `upserted` is true exactly when no document had the name |
| Allocations.TokenCollection.DeleteMany | api/tokens.js:69 | the store becomes the documents with another name |
| History.RowsWithout | api/data.js:98 | exactly the rows with another name remain |
| History.NewestFirst | api/data.js:90 | `sort({datetime: -1})`: a permutation of the rows with datetimes non-increasing |
| History.TransactionCollection.InsertOne | api/binance.js:24-32 | the row is appended |
| History.TransactionCollection.InsertMany | api/data.js:110 | the batch is appended in order |
| History.TransactionCollection.DeleteNamed | api/data.js:98 | the rows with another name remain |
| History.TransactionCollection.DeleteAll | api/data.js:103 | no row remains |
| Market.BeforeSlash | api/mexc.js:152 | `split('/')[0]`: a prefix without '/', the whole string when it has none |
| Market.BaseOfMarketSymbol | api/mexc.js:146-152 | splitting `name/USDT` gives the part of the name before its first '/' |
| Market.BaseOfPlainName | api/mexc.js:146-152 | splitting `name/USDT` gives back a name without '/' |
| Market.Dispatch | api/binance.js:262-268 | buy exactly when the action is buy and free USDT exceeds the minimum; sell exactly when the action is sell and the base currency's free amount is positive; the carried amounts are those balances |
| Sorting.SortBy | src/components/ProfitTable.js:31 | the sort keeps the number of entries |
| Sorting.SortByPermutes | src/components/ProfitTable.js:31 | the sort is a permutation of its input |
| Sorting.SortByOrders | src/components/ProfitTable.js:31 | the sort's result is ordered by the key, ascending |
| Sorting.InsertSorted | src/components/ProfitTable.js:31 | inserting into a sorted sequence keeps it sorted |
| Sorting.WithKeyAppend | src/components/ProfitTable.js:31 | the elements of one key in a concatenation are those of each part, in order |
| Sorting.InsertWithKey | src/components/ProfitTable.js:31 | inserting into a sorted sequence puts the element after every element of its key |
| Sorting.SortByStable | src/components/ProfitTable.js:31 | the sort is stable: the elements of any one key come out in their input order |
| Sorting.SortByHead | src/components/ProfitTable.js:31 | element 0 of the sort is the first of the elements with the least key |
| Binance.BnbInUsdt | api/binance.js:71-75 | the BNB value is 0 without a ticker |
| Binance.GetTokenBalance | api/binance.js:68-104 | the amount never exceeds a non-negative default balance; in the allocation case it is at most the allocation or the allocation less the reserve |
| Binance.AfterFees | api/binance.js:86-99 | the whole candidate when the BNB value exceeds 0.075% of it, otherwise 99.9% of it |
| Binance.GetTokenBalanceIsCandidateAfterFees | api/binance.js:84-99 | the amount is the allocation (when truthy and below the default) or the default, after the fee rule |
| Binance.GetTokenBalanceFallbacks | api/binance.js:100-103 | a thrown lookup gives the default less the reserve; a missing BNB ticker applies the reserve |
| Binance.FloorCents | api/binance.js:118 | floored to whole cents: at most the amount and less than a cent below it |
| Binance.FloorCentsIdempotent | api/binance.js:118 | flooring twice equals flooring once |
| Binance.FloorCentsMonotone | api/binance.js:118 | a larger amount never floors lower |
| Binance.FillsValueAppend | api/binance.js:164-168 | the value of concatenated fills is the sum of their values |
| Binance.FillsValueNonNegative | api/binance.js:164-168 | non-negative fills have a non-negative value |
| Binance.ExecutedPrice | api/binance.js:171 | the average when it is present and non-zero, the price when it is absent or zero |
| Binance.TotalSellValue | api/binance.js:163-173 | the loop over fills gives their sum of price times amount; without fills, the floored amount times the executed price |
| Binance.ExecuteBuyOrder | api/binance.js:113-141 | the order spends the floored `getTokenBalance` amount; it succeeds exactly when the exchange accepts it and the ticker answers, and only then is the buy recorded with that amount |
| Binance.ExecuteSellOrder | api/binance.js:151-182 | no order when the ticker throws, else a sell of the floored free amount; it succeeds exactly when the sell does, and then the sold value is recorded and upserted as the allocation; nothing is written otherwise |
| Binance.HandleWebhook | api/binance.js:193-299 | 500 for configuration, missing fields, a failed connection and failed calls; 200 without an order when the guard fails; when the guard passes, a market buy is placed exactly when a BNB balance is listed (else 500 and no order) and a market sell exactly when the token ticker answers (else 500 and no order); a buy of the floored balance choice, recorded on success; a sell of the floored free amount, recorded with its sold value and upserted as the allocation on success; nothing written otherwise |
| Binance.AllocationAfterSell | api/binance.js:179 | after a sell the allocation reads back as the sell value, exactly one document has the name, names stay unique, other names unchanged |
| Binance.BuyWithoutAllocationExample | api/binance.js:93-94 | 1000 USDT free, no allocation and enough BNB: an order of 1000.00 |
| Binance.BuyWithoutAllocationScenario | api/binance.js:193-299 | the whole handler on a buy signal with 1000 USDT free, no allocation and enough BNB answers 200 with a market buy of 1000.00 |
| ProfitTable.Group | src/components/ProfitTable.js:10-20 | a name's group has at most as many entries as there are rows |
| ProfitTable.Names | src/components/ProfitTable.js:23 | the group keys: exactly the names in the data, each once |
| ProfitTable.LastTrade | src/components/ProfitTable.js:35-45 | `mostRecentTransaction` is buy or sell, and only for a non-empty group |
| ProfitTable.LastTradeNone | src/components/ProfitTable.js:35-45 | `mostRecentTransaction` stays null exactly when the group has no buy and no sell |
| ProfitTable.LastTradeIsLast | src/components/ProfitTable.js:35-45 | otherwise it is the action of an entry that no buy or sell follows |
| ProfitTable.NoTradeSnoc | src/components/ProfitTable.js:35-45 | an entry that is neither buy nor sell, appended, keeps a group free of trades and only such a group |
| ProfitTable.ShownNames | src/components/ProfitTable.js:23-26 | exactly the names that the selected token does not hide |
| ProfitTable.ProfitOfGroup | src/components/ProfitTable.js:33-53 | the loop computes the group's profit (sells minus buys, less the trailing buy) |
| ProfitTable.GroupByName | src/components/ProfitTable.js:10-20 | the `reduce`: keys in order of first appearance, each name's entries in data order |
| ProfitTable.GroupByNameStep | src/components/ProfitTable.js:10-20 | one row adds its name to the keys when it is new, and its entry to its own name's group only |
| ProfitTable.AddToGroup | src/components/ProfitTable.js:11-19 | one step of the `reduce`: the keys and every group become those of the data one row longer |
| ProfitTable.AddNameProfit | src/components/ProfitTable.js:23-57 | one key of the `forEach`: the map holds exactly the shown keys so far, each with its group's profit, and the total is their sum |
| ProfitTable.ProfitsOfGroups | src/components/ProfitTable.js:23-58 | the `forEach`: exactly the shown keys get a profit, each that of its group sorted by time; the total is the sum over the shown keys |
| ProfitTable.ShownProfitStep | src/components/ProfitTable.js:53-57 | a shown key's profit joins the map under its name and the total, which stays the sum over the shown keys so far |
| ProfitTable.HiddenProfitStep | src/components/ProfitTable.js:24-26 | a hidden key leaves the map and the total as they were |
| ProfitTable.CalculateProfits | src/components/ProfitTable.js:5-61 | a profit for exactly the shown names, each the profit of its time-sorted group; the total is the sum of those profits, both as computed from the data and as the map holds them |
| ProfitTable.GroupOfAbsentName | src/components/ProfitTable.js:10-20 | a name without rows has no entries |
| ProfitTable.SumProfitsAgree | src/components/ProfitTable.js:53-57 | summing the map over names equals summing each name's profit computed from the data, wherever the map holds those profits |
| ProfitTable.TrailingBuyExcluded | src/components/ProfitTable.js:47-50 | a trailing buy adds nothing to the profit |
| ProfitTable.ProfitWithoutOpenBuy | src/components/ProfitTable.js:47-53 | when the last buy-or-sell is not a buy, the profit is sells minus buys |
| ProfitTable.OnlySells | src/components/ProfitTable.js:37-53 | with no buy the profit is the sum of the sells |
| ProfitTable.NoBuys | src/components/ProfitTable.js:37-45 | with no buy the buy total is 0 and the last trade is not a buy |
| ProfitTable.ProfitExamples | src/components/ProfitTable.js:37-53 | [buy 100, sell 150] and [buy 100, sell 150, buy 80] make 50; [sell 50] makes 50; a lone buy makes 0 |
| ProfitTable.OtherActionAfterBuy | src/components/ProfitTable.js:47-50 | the subtracted price is the last entry's, whatever its action: [buy 100, hold 7] makes -93 |
| ProfitTable.GroupSnoc | src/components/ProfitTable.js:10-20 | a new row extends only its own name's group, by its entry |
| ProfitTable.GroupSizesSnoc | src/components/ProfitTable.js:10-20 | a new row adds one to the total size of the groups of distinct names that include its name |
| ProfitTable.GroupsPartitionRows | src/components/ProfitTable.js:10-20 | the groups' sizes add up to the number of rows: each row is in exactly one group |
| ProfitTable.GroupMembers | src/components/ProfitTable.js:10-20 | a group holds exactly the entries of the rows with its name |
| ProfitTable.BuysOf | src/components/ProfitTable.js:81-82 | exactly the buys of the name |
| ProfitTable.Earliest | src/components/ProfitTable.js:83 | element 0 of the sort is one of the rows |
| ProfitTable.EarliestIsLeast | src/components/ProfitTable.js:83 | no row is earlier than element 0 of the sort |
| ProfitTable.EarliestIsFirstOfLeast | src/components/ProfitTable.js:83 | element 0 of the stable sort: every row before it is strictly later |
| ProfitTable.SortedHeadIsEarliest | src/components/ProfitTable.js:82-83 | element 0 of the rows sorted by time with the stable sort is `Earliest` |
| ProfitTable.FirstBuyAmount | src/components/ProfitTable.js:81-83 | the denominator (with `|| 1`) is never 0 |
| ProfitTable.FirstBuyIsEarliest | src/components/ProfitTable.js:81-83 | the denominator is 1 or the price of a buy of the name no buy of it precedes |
| ProfitTable.NoBuyDenominator | src/components/ProfitTable.js:81-83 | without a buy the denominator is 1 |
| ProfitTable.Percentage | src/components/ProfitTable.js:86 | the percentage times the base is a hundred times the amount; 0 for a base of 0 |
| ProfitTable.ProfitPercentage | src/components/ProfitTable.js:80-89 | the percentage times the first buy is a hundred times the name's profit |
| ProfitTable.TotalFirstBuyAmount | src/components/ProfitTable.js:64-72 | the first buys of every name in the data, summed: 0 without rows, positive with rows whose prices are not negative |
| ProfitTable.TotalProfitPercentage | src/components/ProfitTable.js:63-78 | 0 when the summed first buys are 0, in particular without rows |
| ProfitTable.NonNegativePricesGivePositiveTotal | src/components/ProfitTable.js:66-75 | rows whose prices are not negative give a positive sum of first buys, so the guard is not taken |
| ProfitTable.NamesOfOneToken | src/components/ProfitTable.js:64 | rows of a single token have exactly that one unique name |
| ProfitTable.TotalOfOneToken | src/components/ProfitTable.js:63-89 | with rows of a single token the total percentage equals that token's own percentage |
| ProfitTable.FirstBuyPositive | src/components/ProfitTable.js:81-83 | with non-negative prices the denominator is positive |
| ProfitTable.SumFirstBuysPositive | src/components/ProfitTable.js:66-72 | a sum of positive denominators over some names is positive |
| ProfitTable.PercentageExamples | src/components/ProfitTable.js:80-89 | profit 50 on a first buy of 100 is 50%; profit 50 with no buy is 5000% |
| TransactionTable.After | src/components/TransactionTable.js:19 | `slice(index + 1)`: the rows after the index, empty past the end |
| TransactionTable.FindNamedPosition | src/components/TransactionTable.js:20-22 | `find` gives the first row with the name, None when there is none |
| TransactionTable.NextOfIndex | src/components/TransactionTable.js:19-22 | `nextBuy` is the first later row with the name, unique, and missing exactly when there is none |
| TransactionTable.RowColor | src/components/TransactionTable.js:15-39 | transparent exactly for a non-sell; yellow exactly for a sell with no next same-name row or a sell next; green or red for a sell whose next same-name row is not a sell, green exactly when it brought in strictly more |
| TransactionTable.IgnoresEarlierRows | src/components/TransactionTable.js:19 | rows before the index do not change the colour |
| TransactionTable.FindSkipsOthers | src/components/TransactionTable.js:20-22 | rows of other names in front do not change what `find` returns |
| TransactionTable.OtherNamesBetween | src/components/TransactionTable.js:19-22 | rows of other names inserted after the row do not change its colour |
| TransactionTable.FilterByName | src/components/TransactionTable.js:43-45 | an empty filter keeps every row; otherwise exactly the rows with the name |
| TransactionTable.FilterKeepsOrder | src/components/TransactionTable.js:43-45 | filtering a concatenation concatenates the filtered parts |
| TransactionTable.FilterKeepsCount | src/components/TransactionTable.js:43-45 | a kept row appears as often as in the data |
| TransactionTable.FilterIdempotent | src/components/TransactionTable.js:43-45 | filtering twice equals filtering once |
| TransactionTable.FilteredNextIsAdjacent | src/components/TransactionTable.js:43-45 | in the filtered list a row's next same-name row is the next row |
| Jupiter.WalletBalance | api/jupiter.js:52-70 | the first account's amount, 0 without an account, rethrown failure |
| Jupiter.GetTokenBalance | api/jupiter.js:22-44 | 0 on any failure; otherwise the allocation when truthy and below the wallet, else the wallet; never above the wallet |
| Jupiter.SwapFor | api/jupiter.js:217-230 | a buy swaps USDT into the token, a sell the token into USDT |
| Jupiter.ExecuteOrder | api/jupiter.js:116-168 | succeeds exactly when the swap answer has a transaction and sending succeeds, with the transaction id |
| Jupiter.SellAmount | api/jupiter.js:221-228 | SOL: lamports less 100000000; other tokens: the wallet balance |
| Jupiter.TradeAmount | api/jupiter.js:217-228 | a buy uses the balance choice for the 'USDT' allocation; a sell the sell amount |
| Jupiter.Handle | api/jupiter.js:171-241 | 500 for configuration, missing fields and failures; once connected with a token mint, a buy or sell whose amount lookup does not throw requests the swap in the action's direction for that amount, answering 200 with the transaction id exactly when the swap executes and 500 otherwise; another action answers 200 without a swap |
| Jupiter.BuySize | api/jupiter.js:217-220 | a buy spends the 'USDT' allocation when truthy and below the wallet, else the wallet; never more than the wallet |
| Jupiter.BuyIgnoresTokenAllocation | api/jupiter.js:218 | an allocation stored under the traded token's name does not change the answer |
| Jupiter.BuyAfterLookupFailure | api/jupiter.js:40-43 | a failed lookup gives a buy of 0 |
| Jupiter.SolSellAmount | api/jupiter.js:222-224 | selling SOL asks for lamports less the reserve, negative below it |
| Jupiter.TokenSellAmount | api/jupiter.js:226-228 | selling another token asks for its wallet balance, 0 without an account |
| Jupiter.MissingSwapTransaction | api/jupiter.js:142-144 | an answer without a transaction fails with 500 and no id |
| Mexc.SellValue | api/mexc.js:108-114 | amount times the ticker price; NaN (None) without a ticker |
| Mexc.Handle | api/mexc.js:124-198 | 500 on a failed call; 200 without an order when the guard fails; when the guard passes and the ticker answers, the market buy of all free USDT or market sell of the whole free token balance is placed, answering 200 and recording exactly when the exchange accepts it (the buy's amount, the sell's amount times price) |
| Mexc.BuyAboveMinimum | api/mexc.js:163-164 | a buy is sent only for a buy signal with more than 5 USDT free, and spends it all |
| Mexc.SmallBalanceNoBuy | api/mexc.js:163-175 | a buy signal with 5 USDT or less answers 200 without an order |
| Mexc.SellOfPlainName | api/mexc.js:146-166 | a sell of a name without '/' sells that currency's positive free balance |
| Mexc.RecordedSellValue | api/mexc.js:108-114 | the recorded sell value is the amount sold valued at the ticker price, positive for a positive price |
| Mexc.PositiveSellValue | api/mexc.js:114 | a positive amount at a positive price is valued at their product, which is positive |
| TokensApi.TokensEndpoint.Post | api/tokens.js:29-50 | 400 and no change for a falsy name or non-number amount; otherwise the upsert, 201 exactly when it inserted, 200 exactly when it updated; names stay unique |
| TokensApi.TokensEndpoint.Get | api/tokens.js:51-56 | all documents, store unchanged |
| TokensApi.TokensEndpoint.Delete | api/tokens.js:57-76 | 400 and no change without a name; otherwise 200 and the other names' documents remain |
| TokensApi.TokensEndpoint.Handle | api/tokens.js:7-92 | 500 before any store access without configuration or connection; 405 exactly for other verbs; GET alone answers documents, with 200; POST: 400 and no change when invalid, else the upsert with 201 exactly when it inserted and 200 exactly when it updated; DELETE: 400 and no change without a name, else 200 and the other names' documents |
| TokensApi.DeleteKeepsUnique | api/tokens.js:69 | deleting keeps names unique |
| TokensApi.PostThenGet | api/tokens.js:39-56 | after a POST, GET lists the amount under the name and other names unchanged |
| TokensApi.DeleteLeavesNone | api/tokens.js:69 | after a DELETE no document has the name |
| DataApi.RandomTime | api/data.js:6-11 | within the last day, a whole number of minutes before now |
| DataApi.GenerateTimeArray | api/data.js:14-25 | `max(length, 1)` entries, entry i being i steps of the given minutes before the first |
| DataApi.StepsBackInTime | api/data.js:18-22 | with a positive step the times strictly decrease |
| DataApi.StampAll | api/data.js:38-60 | each sample row gets its own series' timestamp |
| DataApi.SampleSeries | api/data.js:32-36 | one token's rows, its name, row i stamped i steps of the given minutes before the initial time, so stepping back in time |
| DataApi.GenerateTestData | api/data.js:27-63 | the 17 sample rows in order, each token's rows one decreasing time series starting at its own initial time in steps of 60, 1, 10, 1 and 60 minutes |
| DataApi.ToLower | api/data.js:95 | ASCII lower case, same length |
| DataApi.DeleteSelection | api/data.js:95-106 | a missing name deletes everything; a given name deletes everything exactly when it is one of the eight capitalisations of 'all' |
| DataApi.DataEndpoint.Get | api/data.js:88-93 | every row, newest first |
| DataApi.DataEndpoint.Delete | api/data.js:94-106 | all rows, or the named token's rows |
| DataApi.DataEndpoint.Put | api/data.js:107-113 | the old rows followed by the 17 sample rows, stamped from the initial times |
| DataApi.DataEndpoint.Handle | api/data.js:66-129 | 500 before any store access without configuration or connection; 405 exactly for other verbs; GET alone answers documents, a permutation of the rows, newest first; DELETE empties the store for a missing name or 'all' in any capitalisation, else removes the named token's rows; PUT keeps the old rows as a prefix followed by the 17 sample rows |
| TokenManager.ReplaceById | src/components/TokenManager.js:99 | same length; every token with the selected id becomes the updated token, others unchanged |
| TokenManager.RemoveById | src/components/TokenManager.js:121 | exactly the tokens with another id remain |
| TokenManager.RemoveByIdCount | src/components/TokenManager.js:121 | the list shrinks by the number of tokens with the id |
| TokenManager.RemoveByIdSplits | src/components/TokenManager.js:121 | removing from a concatenation removes from each part, so order is kept |
| TokenManager.ReplaceByIdIdempotent | src/components/TokenManager.js:99 | repeating an edit whose token keeps the id changes nothing |
| TokenManager.EditLeavesNoOldId | src/components/TokenManager.js:95-99 | no token keeps the replaced id, and the updated token's id gains all of them |
| TokenManager.Editor.constructor | src/components/TokenManager.js:4-15 | dialogs closed, nothing selected, inputs empty, the list is the data received |
| TokenManager.Editor.HandleAddTokenClick | src/components/TokenManager.js:17-21 | the add dialog opens with both inputs cleared |
| TokenManager.Editor.HandleCancel | src/components/TokenManager.js:23-29 | all three dialogs close and both inputs clear |
| TokenManager.Editor.HandleAdd | src/components/TokenManager.js:31-61 | nothing changes with an empty input; otherwise the typed token is appended whatever the answer, and the dialog closes only on success |
| TokenManager.Editor.HandleEditTokenClick | src/components/TokenManager.js:63-68 | the token is selected, the inputs show it, the edit dialog opens |
| TokenManager.Editor.HandleEdit | src/components/TokenManager.js:70-100 | nothing changes with an empty input; otherwise the tokens with the selected id are replaced whatever the answer, and the dialog closes only on success |
| TokenManager.Editor.HandleDeleteTokenClick | src/components/TokenManager.js:102-105 | the token is selected and the delete dialog opens |
| TokenManager.Editor.HandleDelete | src/components/TokenManager.js:107-126 | on success the tokens with the selected id go and the dialog closes; otherwise nothing changes |

## Left out

- Exchange SDK calls (tickers, balances, open orders, order placement): their results are parameters, and the `instanceof` discrimination of SDK errors is not modelled, since every branch answers 500.
- Solana RPC, the Jupiter quote and swap APIs, transaction decoding, signing and confirmation: their outcomes are parameters. A failure to decode the private key (inside the handler's `try`) is one more 500 and is not a separate input.
- MongoDB: a failed connect is an input (`connected`) of the Binance, token and history handlers, each answering 500. Closing the client and every database failure after a successful connect are not modelled: the stores never fail once connected.
- `writeActionToDb` and `updateToken` swallow their own errors; the model lets them always succeed.
- Floating point: money is `real`, so IEEE rounding, `toFixed(2)` strings, `Number()` and `parseFloat` conversions and the date formatting are not modelled.
- Mexc.SellValue: a NaN value (a price of 'N/A') is None rather than a number.
- TotalProfitPercentage: states the zero guard only; that the result times the summed first buys is a hundred times the total is Percentage's contract for every non-zero base and is not restated over the sum.
- Binance.ExecutedPrice: an order with neither an average nor a price (a NaN value) is not modelled; the price is always present.
- History.NewestFirst: datetimes are integers, so the mixed ISO-string and Date values of the real collection, and how Mongo orders equal datetimes, are not modelled.
- DataApi.ToLower: only ASCII letters are lower-cased.
- DataApi.GenerateTestData: the clock moving between the five `getRandomTime` draws is represented by one initial time per series.
- MEXC has no configuration or missing-field check and prints an absent name as 'undefined'; the model takes the name as given.
- TokenManager: the `alert`, the parent's `setTokenData` round trip through `useEffect` (collapsed into a direct update), and the input fields' change handlers are not modelled.
- Concurrent webhook invocations (an unsynchronised read-then-upsert of allocations) are not modelled.
- api/sol.js, api/webhook.js, api/health.js, src/App.js, src/components/DbManager.js, src/server.js and src/components/Header.js are not part of this model; nor is any rendering.
