/** The dashboard's profit table: transactions grouped by token, each group
    sorted oldest first, buys and sells summed with a trailing open buy left
    out, and percentages taken against each token's earliest buy. */
module ProfitTable {
  import opened Common
  import opened Sorting

  /** What the grouping keeps of a transaction: action, datetime and USDT value. */
  datatype Entry = Entry(action: string, datetime: int, usdtPrice: real)

  function EntryOf(t: TransactionRecord): Entry
  {
    Entry(t.action, t.datetime, t.usdtPrice)
  }

  function EntryTime(e: Entry): int
  {
    e.datetime
  }

  /** `groupedByName[name]` after the `reduce`: the entries of the rows named
      `name`, in data order. */
  function Group(data: seq<TransactionRecord>, name: string): (g: seq<Entry>)
    ensures |g| <= |data|
  {
    if data == [] then []
    else
      var last := data[|data| - 1];
      Group(data[..|data| - 1], name) + (if last.name == name then [EntryOf(last)] else [])
  }

  /** Some row of `data` is named `name`. */
  ghost predicate Mentions(data: seq<TransactionRecord>, name: string)
  {
    exists i :: 0 <= i < |data| && data[i].name == name
  }

  lemma MentionsSnoc(data: seq<TransactionRecord>, name: string)
    requires data != []
    ensures Mentions(data, name) <==> Mentions(data[..|data| - 1], name) || data[|data| - 1].name == name
  {
    var prefix := data[..|data| - 1];
    if Mentions(data, name) {
      var i :| 0 <= i < |data| && data[i].name == name;
      if i < |prefix| { assert prefix[i] == data[i]; }
    }
    if Mentions(prefix, name) {
      var i :| 0 <= i < |prefix| && prefix[i].name == name;
      assert data[i] == prefix[i];
    }
  }

  /** The keys of the grouping: every name once, in order of first
      appearance. */
  function Names(data: seq<TransactionRecord>): (ns: seq<string>)
    ensures forall n :: n in ns <==> Mentions(data, n)
    ensures forall i, j :: 0 <= i < j < |ns| ==> ns[i] != ns[j]
  {
    if data == [] then []
    else
      var ns := Names(data[..|data| - 1]);
      var n := data[|data| - 1].name;
      assert forall m :: Mentions(data, m) <==> Mentions(data[..|data| - 1], m) || m == n by {
        forall m ensures Mentions(data, m) <==> Mentions(data[..|data| - 1], m) || m == n {
          MentionsSnoc(data, m);
        }
      }
      if n in ns then ns else ns + [n]
  }

  /** Sum of `usdtPrice` over the entries whose action is `action`. */
  function SumAction(g: seq<Entry>, action: string): real
  {
    if g == [] then 0.0
    else SumAction(g[..|g| - 1], action) + (if g[|g| - 1].action == action then g[|g| - 1].usdtPrice else 0.0)
  }

  /** `mostRecentTransaction`: the action of the last entry that is a buy or
      a sell, if any. */
  function LastTrade(g: seq<Entry>): (r: Option<string>)
    ensures r.Some? ==> |g| > 0 && (r.value == BUY || r.value == SELL)
  {
    if g == [] then None
    else if g[|g| - 1].action == BUY || g[|g| - 1].action == SELL then Some(g[|g| - 1].action)
    else LastTrade(g[..|g| - 1])
  }

  /** No entry of `g` is a buy or a sell. */
  predicate NoTrade(g: seq<Entry>)
  {
    forall i :: 0 <= i < |g| ==> g[i].action != BUY && g[i].action != SELL
  }

  /** `LastTrade` finds nothing exactly when there is no buy or sell. */
  lemma {:induction false} LastTradeNone(g: seq<Entry>)
    ensures LastTrade(g).None? <==> NoTrade(g)
  {
    if g != [] {
      var n := |g| - 1;
      if g[n].action != BUY && g[n].action != SELL {
        var front := g[..n];
        LastTradeNone(front);
        assert g == front + [g[n]];
        NoTradeSnoc(front, g[n]);
      }
    }
  }

  /** When `LastTrade` finds an action, it is the action of an entry after
      which no buy or sell follows. */
  lemma {:induction false} LastTradeIsLast(g: seq<Entry>)
    ensures LastTrade(g).Some? ==>
              exists i :: 0 <= i < |g| && g[i].action == LastTrade(g).value && NoTrade(g[i + 1..])
  {
    if g != [] {
      var n := |g| - 1;
      if g[n].action == BUY || g[n].action == SELL {
        assert g[n + 1..] == [];
        assert g[n].action == LastTrade(g).value && NoTrade(g[n + 1..]);
      } else if LastTrade(g).Some? {
        var front := g[..n];
        assert LastTrade(g) == LastTrade(front);
        LastTradeIsLast(front);
        var i :| 0 <= i < |front| && front[i].action == LastTrade(front).value && NoTrade(front[i + 1..]);
        assert g[i + 1..] == front[i + 1..] + [g[n]];
        NoTradeSnoc(front[i + 1..], g[n]);
        assert g[i] == front[i];
        assert g[i].action == LastTrade(g).value && NoTrade(g[i + 1..]);
      }
    }
  }

  /** Appending an entry that is neither a buy nor a sell keeps `NoTrade`. */
  lemma NoTradeSnoc(g: seq<Entry>, e: Entry)
    requires e.action != BUY && e.action != SELL
    ensures NoTrade(g + [e]) <==> NoTrade(g)
  {
    if NoTrade(g + [e]) {
      forall i | 0 <= i < |g| ensures g[i].action != BUY && g[i].action != SELL {
        assert g[i] == (g + [e])[i];
      }
    }
  }

  /** The profit of one time-ordered group: sells minus buys, where, when the
      most recent buy-or-sell is a buy, the LAST entry's price is taken off
      the buys. */
  function GroupProfit(g: seq<Entry>): real
  {
    var buys := SumAction(g, BUY) - (if LastTrade(g) == Some(BUY) then g[|g| - 1].usdtPrice else 0.0);
    SumAction(g, SELL) - buys
  }

  /** The profit shown for `name`. */
  function NameProfit(data: seq<TransactionRecord>, name: string): real
  {
    GroupProfit(SortBy(Group(data, name), EntryTime))
  }

  /** A selected token hides every other name; the empty
      string stands for no selection. */
  predicate Shown(name: string, selectedToken: string)
  {
    selectedToken == "" || name == selectedToken
  }

  /** The names of `ns` that are shown, in order. */
  function ShownNames(ns: seq<string>, selectedToken: string): (r: seq<string>)
    ensures forall n :: n in r <==> n in ns && Shown(n, selectedToken)
  {
    if ns == [] then []
    else ShownNames(ns[..|ns| - 1], selectedToken)
         + (if Shown(ns[|ns| - 1], selectedToken) then [ns[|ns| - 1]] else [])
  }

  /** Sum of the profits of the names `ns` as `profits` holds them. */
  function SumProfits(profits: map<string, real>, ns: seq<string>): real
    requires forall n :: n in ns ==> n in profits
  {
    if ns == [] then 0.0 else SumProfits(profits, ns[..|ns| - 1]) + profits[ns[|ns| - 1]]
  }

  /** Sum of `profitOf` over the names `ns`. */
  function SumOf(profitOf: string -> real, ns: seq<string>): real
  {
    if ns == [] then 0.0 else SumOf(profitOf, ns[..|ns| - 1]) + profitOf(ns[|ns| - 1])
  }

  /** The profit of each name, as a function of the name. */
  function NameProfitOf(data: seq<TransactionRecord>): string -> real
  {
    n => NameProfit(data, n)
  }

  /** Sum of the profits of the names `ns`, each computed from the data. */
  function SumNameProfits(data: seq<TransactionRecord>, ns: seq<string>): real
  {
    SumOf(NameProfitOf(data), ns)
  }

  /** The `forEach` over one sorted group and the profit computed from its
      totals (lines 33-53). */
  method ProfitOfGroup(transactions: seq<Entry>) returns (profit: real)
    ensures profit == GroupProfit(transactions)
  {
    var totalBuyAmount := 0.0;
    var totalSellAmount := 0.0;
    var mostRecentTransaction: Option<string> := None;
    var i := 0;
    while i < |transactions|
      invariant 0 <= i <= |transactions|
      invariant totalBuyAmount == SumAction(transactions[..i], BUY)
      invariant totalSellAmount == SumAction(transactions[..i], SELL)
      invariant mostRecentTransaction == LastTrade(transactions[..i])
    {
      assert transactions[..i + 1][..i] == transactions[..i];
      var t := transactions[i];
      if t.action == BUY {
        totalBuyAmount := totalBuyAmount + t.usdtPrice;
        mostRecentTransaction := Some(BUY);
      } else if t.action == SELL {
        totalSellAmount := totalSellAmount + t.usdtPrice;
        mostRecentTransaction := Some(SELL);
      }
      i := i + 1;
    }
    assert transactions[..i] == transactions;
    if mostRecentTransaction == Some(BUY) {
      totalBuyAmount := totalBuyAmount - transactions[|transactions| - 1].usdtPrice;
    }
    profit := totalSellAmount - totalBuyAmount;
  }

  /** The `reduce` of `calculateProfits`: one group per name, keyed in
      order of first appearance. */
  method GroupByName(data: seq<TransactionRecord>)
    returns (groupedByName: map<string, seq<Entry>>, keys: seq<string>)
    ensures keys == Names(data)
    ensures forall n :: n in groupedByName <==> n in keys
    ensures forall n :: n in groupedByName ==> groupedByName[n] == Group(data, n)
  {
    groupedByName := map[];
    keys := [];
    var i := 0;
    while i < |data|
      invariant 0 <= i <= |data|
      invariant keys == Names(data[..i])
      invariant forall n :: n in groupedByName <==> n in keys
      invariant forall n :: n in groupedByName ==> groupedByName[n] == Group(data[..i], n)
    {
      groupedByName, keys := AddToGroup(data, i, groupedByName, keys);
      i := i + 1;
    }
    assert data[..i] == data;
  }

  /** One row of the `reduce`: a new name gets an empty group and joins the
      keys, then the row's entry joins its name's group. */
  method AddToGroup(data: seq<TransactionRecord>, i: nat, groupedByName: map<string, seq<Entry>>, keys: seq<string>)
    returns (grouped: map<string, seq<Entry>>, names: seq<string>)
    requires i < |data|
    requires keys == Names(data[..i])
    requires forall n :: n in groupedByName <==> n in keys
    requires forall n :: n in groupedByName ==> groupedByName[n] == Group(data[..i], n)
    ensures names == Names(data[..i + 1])
    ensures forall n :: n in grouped <==> n in names
    ensures forall n :: n in grouped ==> grouped[n] == Group(data[..i + 1], n)
  {
    var t := data[i];
    GroupByNameStep(data, i);
    grouped, names := groupedByName, keys;
    if t.name !in grouped {
      GroupOfAbsentName(data[..i], t.name);
      grouped := grouped[t.name := []];
      names := names + [t.name];
    }
    grouped := grouped[t.name := grouped[t.name] + [EntryOf(t)]];
  }

  /** One step of the `reduce`: the row at `i` adds its name to the keys
      when it is new, and its entry to its own name's group only. */
  lemma GroupByNameStep(data: seq<TransactionRecord>, i: nat)
    requires i < |data|
    ensures Names(data[..i + 1]) == if data[i].name in Names(data[..i]) then Names(data[..i]) else Names(data[..i]) + [data[i].name]
    ensures forall n :: Group(data[..i + 1], n) == Group(data[..i], n) + (if data[i].name == n then [EntryOf(data[i])] else [])
  {
    assert data[..i + 1][..i] == data[..i];
    assert data[..i + 1] == data[..i] + [data[i]];
    forall n ensures Group(data[..i + 1], n) == Group(data[..i], n) + (if data[i].name == n then [EntryOf(data[i])] else []) {
      GroupSnoc(data[..i], data[i], n);
    }
  }

  /** One shown name of the loop: it joins the map's keys. */
  lemma ShownKeysStep(keys: seq<string>, selectedToken: string, nameProfits: map<string, real>, j: nat, profit: real)
    requires j < |keys|
    requires forall n :: n in nameProfits <==> n in keys[..j] && Shown(n, selectedToken)
    requires Shown(keys[j], selectedToken)
    ensures forall n :: n in nameProfits[keys[j] := profit] <==> n in keys[..j + 1] && Shown(n, selectedToken)
  {
    assert keys[..j + 1] == keys[..j] + [keys[j]];
    forall n ensures n in nameProfits[keys[j] := profit] <==> n in keys[..j + 1] && Shown(n, selectedToken) {
      assert n in keys[..j + 1] <==> n in keys[..j] || n == keys[j];
    }
  }

  /** One hidden name of the loop: the map's keys stay the shown names. */
  lemma HiddenKeysStep(keys: seq<string>, selectedToken: string, nameProfits: map<string, real>, j: nat)
    requires j < |keys|
    requires forall n :: n in nameProfits <==> n in keys[..j] && Shown(n, selectedToken)
    requires !Shown(keys[j], selectedToken)
    ensures forall n :: n in nameProfits <==> n in keys[..j + 1] && Shown(n, selectedToken)
  {
    assert keys[..j + 1] == keys[..j] + [keys[j]];
    forall n ensures n in nameProfits <==> n in keys[..j + 1] && Shown(n, selectedToken) {
      assert n in keys[..j + 1] <==> n in keys[..j] || n == keys[j];
    }
  }

  /** One name of the loop: a shown name adds its profit to the sum over
      the shown names, a hidden one leaves the shown names as they are. */
  lemma ShownNamesStep(profitOf: string -> real, keys: seq<string>, selectedToken: string, j: nat)
    requires j < |keys|
    ensures Shown(keys[j], selectedToken) ==>
              SumOf(profitOf, ShownNames(keys[..j + 1], selectedToken))
              == SumOf(profitOf, ShownNames(keys[..j], selectedToken)) + profitOf(keys[j])
    ensures !Shown(keys[j], selectedToken) ==>
              ShownNames(keys[..j + 1], selectedToken) == ShownNames(keys[..j], selectedToken)
  {
    var before := ShownNames(keys[..j], selectedToken);
    var ks := keys[..j + 1];
    ShownNamesSnoc(ks, selectedToken);
    assert ks[..j] == keys[..j];
    if Shown(keys[j], selectedToken) {
      var after := before + [keys[j]];
      assert ShownNames(ks, selectedToken) == after;
      assert after[..|before|] == before;
    }
  }

  /** The profit of each key of a grouping: its group sorted by time. */
  function GroupProfitOf(groupedByName: map<string, seq<Entry>>): string -> real
  {
    n => if n in groupedByName then GroupProfit(SortBy(groupedByName[n], EntryTime)) else 0.0
  }

  /** The profit of one key: its group sorted by time, then summed. */
  method ProfitOfName(groupedByName: map<string, seq<Entry>>, name: string) returns (profit: real)
    requires name in groupedByName
    ensures profit == GroupProfitOf(groupedByName)(name)
  {
    var transactions := SortBy(groupedByName[name], EntryTime);
    profit := ProfitOfGroup(transactions);
  }

  /** One shown key of the `forEach`: its profit joins the map and the
      total. */
  lemma ShownProfitStep(profitOf: string -> real, keys: seq<string>, selectedToken: string, j: nat,
                        nameProfits: map<string, real>, totalProfit: real, profit: real)
    requires j < |keys| && Shown(keys[j], selectedToken) && profit == profitOf(keys[j])
    requires forall n :: n in nameProfits <==> n in keys[..j] && Shown(n, selectedToken)
    requires forall n :: n in nameProfits ==> nameProfits[n] == profitOf(n)
    requires totalProfit == SumOf(profitOf, ShownNames(keys[..j], selectedToken))
    ensures forall n :: n in nameProfits[keys[j] := profit] <==> n in keys[..j + 1] && Shown(n, selectedToken)
    ensures forall n :: n in nameProfits[keys[j] := profit] ==> nameProfits[keys[j] := profit][n] == profitOf(n)
    ensures totalProfit + profit == SumOf(profitOf, ShownNames(keys[..j + 1], selectedToken))
  {
    ShownNamesStep(profitOf, keys, selectedToken, j);
    ShownKeysStep(keys, selectedToken, nameProfits, j, profit);
  }

  /** One hidden key of the `forEach`: the map and the total stay. */
  lemma HiddenProfitStep(profitOf: string -> real, keys: seq<string>, selectedToken: string, j: nat,
                         nameProfits: map<string, real>, totalProfit: real)
    requires j < |keys| && !Shown(keys[j], selectedToken)
    requires forall n :: n in nameProfits <==> n in keys[..j] && Shown(n, selectedToken)
    requires totalProfit == SumOf(profitOf, ShownNames(keys[..j], selectedToken))
    ensures forall n :: n in nameProfits <==> n in keys[..j + 1] && Shown(n, selectedToken)
    ensures totalProfit == SumOf(profitOf, ShownNames(keys[..j + 1], selectedToken))
  {
    ShownNamesStep(profitOf, keys, selectedToken, j);
    HiddenKeysStep(keys, selectedToken, nameProfits, j);
  }

  /** The `forEach` of `calculateProfits` over the keys: for every shown
      name, the profit of its group sorted by time goes into the map and
      into the total. */
  method ProfitsOfGroups(groupedByName: map<string, seq<Entry>>, keys: seq<string>, selectedToken: string)
    returns (nameProfits: map<string, real>, totalProfit: real)
    requires forall n :: n in keys ==> n in groupedByName
    ensures forall n :: n in nameProfits <==> n in keys && Shown(n, selectedToken)
    ensures forall n :: n in nameProfits ==> nameProfits[n] == GroupProfitOf(groupedByName)(n)
    ensures totalProfit == SumOf(GroupProfitOf(groupedByName), ShownNames(keys, selectedToken))
  {
    ghost var profitOf := GroupProfitOf(groupedByName);
    nameProfits := map[];
    totalProfit := 0.0;
    var j := 0;
    while j < |keys|
      invariant 0 <= j <= |keys|
      invariant forall n :: n in nameProfits <==> n in keys[..j] && Shown(n, selectedToken)
      invariant forall n :: n in nameProfits ==> nameProfits[n] == profitOf(n)
      invariant totalProfit == SumOf(profitOf, ShownNames(keys[..j], selectedToken))
    {
      nameProfits, totalProfit := AddNameProfit(groupedByName, keys, selectedToken, j, nameProfits, totalProfit);
      j := j + 1;
    }
    assert keys[..j] == keys;
  }

  /** One key of the `forEach`: a shown name's profit goes into the map and
      the total; a hidden name changes nothing. */
  method AddNameProfit(groupedByName: map<string, seq<Entry>>, keys: seq<string>, selectedToken: string, j: nat,
                       nameProfits: map<string, real>, totalProfit: real)
    returns (profits: map<string, real>, total: real)
    requires j < |keys| && keys[j] in groupedByName
    requires forall n :: n in nameProfits <==> n in keys[..j] && Shown(n, selectedToken)
    requires forall n :: n in nameProfits ==> nameProfits[n] == GroupProfitOf(groupedByName)(n)
    requires totalProfit == SumOf(GroupProfitOf(groupedByName), ShownNames(keys[..j], selectedToken))
    ensures forall n :: n in profits <==> n in keys[..j + 1] && Shown(n, selectedToken)
    ensures forall n :: n in profits ==> profits[n] == GroupProfitOf(groupedByName)(n)
    ensures total == SumOf(GroupProfitOf(groupedByName), ShownNames(keys[..j + 1], selectedToken))
  {
    ghost var profitOf := GroupProfitOf(groupedByName);
    var name := keys[j];
    if Shown(name, selectedToken) {
      var profit := ProfitOfName(groupedByName, name);
      ShownProfitStep(profitOf, keys, selectedToken, j, nameProfits, totalProfit, profit);
      total := totalProfit + profit;
      profits := nameProfits[name := profit];
    } else {
      HiddenProfitStep(profitOf, keys, selectedToken, j, nameProfits, totalProfit);
      profits, total := nameProfits, totalProfit;
    }
  }

  /** Sums of two profit functions that agree on the names are equal. */
  lemma {:induction false} SumOfAgree(f: string -> real, g: string -> real, ns: seq<string>)
    requires forall n :: n in ns ==> f(n) == g(n)
    ensures SumOf(f, ns) == SumOf(g, ns)
  {
    if ns != [] {
      SumOfAgree(f, g, ns[..|ns| - 1]);
    }
  }

  /** `calculateProfits`: group by name, then for every shown name sort
      its group by time, compute its profit and add it to the total. */
  method CalculateProfits(data: seq<TransactionRecord>, selectedToken: string)
    returns (nameProfits: map<string, real>, totalProfit: real)
    ensures forall n :: n in nameProfits <==> n in Names(data) && Shown(n, selectedToken)
    ensures forall n :: n in nameProfits ==> nameProfits[n] == NameProfit(data, n)
    ensures totalProfit == SumNameProfits(data, ShownNames(Names(data), selectedToken))
    ensures totalProfit == SumProfits(nameProfits, ShownNames(Names(data), selectedToken))
  {
    var groupedByName, keys := GroupByName(data);
    nameProfits, totalProfit := ProfitsOfGroups(groupedByName, keys, selectedToken);
    SumOfAgree(GroupProfitOf(groupedByName), NameProfitOf(data), ShownNames(keys, selectedToken));
    SumProfitsAgree(data, nameProfits, ShownNames(keys, selectedToken));
  }

  /** A name with no row has an empty group. */
  lemma {:induction false} GroupOfAbsentName(data: seq<TransactionRecord>, name: string)
    requires name !in Names(data)
    ensures Group(data, name) == []
  {
    if data != [] {
      var prefix := data[..|data| - 1];
      assert forall i :: 0 <= i < |prefix| ==> prefix[i] == data[i];
      GroupOfAbsentName(prefix, name);
    }
  }

  lemma ShownNamesSnoc(ns: seq<string>, selectedToken: string)
    requires ns != []
    ensures ShownNames(ns, selectedToken)
            == ShownNames(ns[..|ns| - 1], selectedToken) + (if Shown(ns[|ns| - 1], selectedToken) then [ns[|ns| - 1]] else [])
  {
  }

  /** The total is the sum of the values the map holds: wherever the map
      holds each name's profit, summing the map over names equals summing
      the profits. */
  lemma {:induction false} SumProfitsAgree(data: seq<TransactionRecord>, profits: map<string, real>, ns: seq<string>)
    requires forall n :: n in ns ==> n in profits && profits[n] == NameProfit(data, n)
    ensures SumProfits(profits, ns) == SumNameProfits(data, ns)
  {
    if ns != [] {
      SumProfitsAgree(data, profits, ns[..|ns| - 1]);
    }
  }

  // ----- properties of the profit of one group -----

  /** A trailing buy with no sell after it adds nothing: appending one to a
      group gives sells minus buys of the group before it. */
  lemma TrailingBuyExcluded(g: seq<Entry>, t: int, price: real)
    ensures GroupProfit(g + [Entry(BUY, t, price)]) == SumAction(g, SELL) - SumAction(g, BUY)
  {
    var h := g + [Entry(BUY, t, price)];
    assert h[..|h| - 1] == g;
  }

  /** When the most recent buy-or-sell is not a buy, the profit is plain
      sells minus buys; with the lemma above, a group ending on a sell has
      the same profit with or without one more trailing buy. */
  lemma ProfitWithoutOpenBuy(g: seq<Entry>)
    requires LastTrade(g) != Some(BUY)
    ensures GroupProfit(g) == SumAction(g, SELL) - SumAction(g, BUY)
  {
  }

  /** No buy at all: the profit is the total of the sells. */
  lemma {:induction false} OnlySells(g: seq<Entry>)
    requires forall i :: 0 <= i < |g| ==> g[i].action != BUY
    ensures GroupProfit(g) == SumAction(g, SELL)
  {
    NoBuys(g);
  }

  lemma {:induction false} NoBuys(g: seq<Entry>)
    requires forall i :: 0 <= i < |g| ==> g[i].action != BUY
    ensures SumAction(g, BUY) == 0.0
    ensures LastTrade(g) != Some(BUY)
  {
    if g != [] {
      NoBuys(g[..|g| - 1]);
    }
  }

  /** Worked groups: [buy 100, sell 150] and
      [buy 100, sell 150, buy 80] both make 50; [sell 50] makes 50; a lone
      buy makes 0. */
  lemma ProfitExamples()
    ensures GroupProfit([Entry(BUY, 1, 100.0), Entry(SELL, 2, 150.0)]) == 50.0
    ensures GroupProfit([Entry(BUY, 1, 100.0), Entry(SELL, 2, 150.0), Entry(BUY, 3, 80.0)]) == 50.0
    ensures GroupProfit([Entry(SELL, 1, 50.0)]) == 50.0
    ensures GroupProfit([Entry(BUY, 1, 100.0)]) == 0.0
  {
    var b := Entry(BUY, 1, 100.0);
    var s := Entry(SELL, 2, 150.0);
    BuyIsNotSell();
    assert [b][..0] == [];
    assert SumAction([b], BUY) == 100.0 && SumAction([b], SELL) == 0.0;
    assert [b, s][..1] == [b];
    assert SumAction([b, s], BUY) == 100.0 && SumAction([b, s], SELL) == 150.0;
    assert LastTrade([b, s]) == Some(SELL);
    TrailingBuyExcluded([b, s], 3, 80.0);
    assert [b, s] + [Entry(BUY, 3, 80.0)] == [b, s, Entry(BUY, 3, 80.0)];
    var lone := Entry(SELL, 1, 50.0);
    assert [lone][..0] == [];
    assert SumAction([lone], SELL) == 50.0 && SumAction([lone], BUY) == 0.0;
  }

  /** The tail adjustment takes the price of the last entry, which is the
      open buy only when nothing else follows it: a row with another action
      after the last buy is what gets subtracted. */
  lemma OtherActionAfterBuy()
    ensures GroupProfit([Entry(BUY, 1, 100.0), Entry("hold", 2, 7.0)]) == -93.0
  {
    var b := Entry(BUY, 1, 100.0);
    var h := Entry("hold", 2, 7.0);
    BuyIsNotSell();
    assert [b][..0] == [];
    assert [b][0].action != SELL;
    assert SumAction([b], SELL) == SumAction([], SELL) + 0.0;
    assert SumAction([b], BUY) == 100.0 && SumAction([b], SELL) == 0.0;
    assert LastTrade([b]) == Some(BUY);
    assert [b, h][..1] == [b];
    assert "hold"[0] != BUY[0] && "hold"[0] != SELL[0];
    assert SumAction([b, h], BUY) == 100.0 && SumAction([b, h], SELL) == 0.0;
    assert LastTrade([b, h]) == Some(BUY);
  }

  // ----- grouping -----

  /** Adding a row extends its own name's group by its entry and leaves every
      other group alone. */
  lemma GroupSnoc(data: seq<TransactionRecord>, t: TransactionRecord, name: string)
    ensures Group(data + [t], name) == Group(data, name) + (if t.name == name then [EntryOf(t)] else [])
  {
    assert (data + [t])[..|data|] == data;
  }

  /** Total size of the groups of the names `ns`. */
  function GroupSizes(data: seq<TransactionRecord>, ns: seq<string>): nat
  {
    if ns == [] then 0 else GroupSizes(data, ns[..|ns| - 1]) + |Group(data, ns[|ns| - 1])|
  }

  lemma {:induction false} GroupSizesSnoc(data: seq<TransactionRecord>, t: TransactionRecord, ns: seq<string>)
    requires forall i, j :: 0 <= i < j < |ns| ==> ns[i] != ns[j]
    ensures GroupSizes(data + [t], ns) == GroupSizes(data, ns) + (if t.name in ns then 1 else 0)
  {
    if ns != [] {
      var init := ns[..|ns| - 1];
      GroupSizesSnoc(data, t, init);
      GroupSnoc(data, t, ns[|ns| - 1]);
      assert t.name in ns <==> t.name in init || t.name == ns[|ns| - 1];
      assert ns[|ns| - 1] !in init;
    }
  }

  /** Every row lands in exactly one group: the groups of the distinct names
      together hold as many entries as there are rows. */
  lemma {:induction false} GroupsPartitionRows(data: seq<TransactionRecord>)
    ensures GroupSizes(data, Names(data)) == |data|
  {
    if data != [] {
      var prefix := data[..|data| - 1];
      var t := data[|data| - 1];
      assert data == prefix + [t];
      GroupsPartitionRows(prefix);
      var ns := Names(prefix);
      GroupSizesSnoc(prefix, t, ns);
      if t.name !in ns {
        GroupOfAbsentName(prefix, t.name);
        GroupSnoc(prefix, t, t.name);
        assert (ns + [t.name])[..|ns|] == ns;
      }
    }
  }

  /** Each row's entry is in the group of its own name, and a group holds
      only entries of rows with that name. */
  lemma {:induction false} GroupMembers(data: seq<TransactionRecord>, name: string)
    ensures forall i :: 0 <= i < |data| && data[i].name == name ==> EntryOf(data[i]) in Group(data, name)
    ensures forall e :: e in Group(data, name) ==> exists i :: 0 <= i < |data| && data[i].name == name && EntryOf(data[i]) == e
  {
    if data != [] {
      var prefix := data[..|data| - 1];
      GroupMembers(prefix, name);
      assert forall i :: 0 <= i < |prefix| ==> prefix[i] == data[i];
    }
  }

  // ----- percentages -----

  /** The buys of `name`, in data order. */
  function BuysOf(data: seq<TransactionRecord>, name: string): (r: seq<TransactionRecord>)
    ensures forall t :: t in r <==> t in data && t.name == name && t.action == BUY
  {
    if data == [] then []
    else
      var last := data[|data| - 1];
      BuysOf(data[..|data| - 1], name) + (if last.name == name && last.action == BUY then [last] else [])
  }

  /** Element 0 of the rows sorted by time with a stable sort: the first row
      of the earliest time. */
  function Earliest(s: seq<TransactionRecord>): (r: TransactionRecord)
    requires s != []
    ensures r in s
  {
    if |s| == 1 then s[0]
    else
      var rest := Earliest(s[1..]);
      if s[0].datetime <= rest.datetime then s[0] else rest
  }

  /** No row is earlier than `Earliest`. */
  lemma {:induction false} EarliestIsLeast(s: seq<TransactionRecord>)
    requires s != []
    ensures forall u :: u in s ==> Earliest(s).datetime <= u.datetime
  {
    if |s| > 1 {
      EarliestIsLeast(s[1..]);
      assert forall u :: u in s ==> u == s[0] || u in s[1..];
    }
  }

  /** The first-buy amount: the price of the earliest buy of `name`, or 1
      when there is none or its price is 0. */
  function FirstBuyAmount(data: seq<TransactionRecord>, name: string): (r: real)
    ensures r != 0.0
  {
    var buys := BuysOf(data, name);
    if buys == [] then 1.0
    else
      var first := Earliest(buys).usdtPrice;
      if first == 0.0 then 1.0 else first
  }

  /** The stable sort's element 0 is `Earliest`: among the rows of the least
      time it is the first one. */
  lemma {:induction false} EarliestIsFirstOfLeast(s: seq<TransactionRecord>)
    requires s != []
    ensures exists i :: 0 <= i < |s| && s[i] == Earliest(s) &&
              forall k :: 0 <= k < i ==> s[k].datetime > Earliest(s).datetime
  {
    if |s| > 1 {
      var tail := s[1..];
      EarliestIsFirstOfLeast(tail);
      var rest := Earliest(tail);
      if s[0].datetime > rest.datetime {
        var i :| 0 <= i < |tail| && tail[i] == rest && forall k :: 0 <= k < i ==> tail[k].datetime > rest.datetime;
        assert Earliest(s) == rest && s[i + 1] == rest;
        forall k | 0 <= k < i + 1 ensures s[k].datetime > rest.datetime {
          if k > 0 {
            assert s[k] == tail[k - 1];
          }
        }
      } else {
        assert s[0] == Earliest(s);
      }
    } else {
      assert s[0] == Earliest(s);
    }
  }

  function RecordTime(t: TransactionRecord): int
  {
    t.datetime
  }

  /** `Earliest` is element 0 of the rows sorted by time with the stable
      sort. */
  lemma SortedHeadIsEarliest(s: seq<TransactionRecord>)
    requires s != []
    ensures SortBy(s, RecordTime)[0] == Earliest(s)
  {
    EarliestIsFirstOfLeast(s);
    EarliestIsLeast(s);
    var i :| 0 <= i < |s| && s[i] == Earliest(s) &&
             forall k :: 0 <= k < i ==> s[k].datetime > Earliest(s).datetime;
    forall j | 0 <= j < |s| ensures RecordTime(s[i]) <= RecordTime(s[j]) {
      assert s[j] in s;
    }
    SortByHead(s, RecordTime, i);
  }

  /** The denominator is the price of a buy of `name` that no other buy of
      `name` precedes, unless there is none or its price is 0. */
  lemma FirstBuyIsEarliest(data: seq<TransactionRecord>, name: string)
    ensures FirstBuyAmount(data, name) == 1.0 ||
            exists t :: t in data && t.name == name && t.action == BUY && t.usdtPrice == FirstBuyAmount(data, name) &&
                        forall u :: u in data && u.name == name && u.action == BUY ==> t.datetime <= u.datetime
  {
    var buys := BuysOf(data, name);
    if buys != [] {
      var e := Earliest(buys);
      EarliestIsLeast(buys);
      assert e in data && e.name == name && e.action == BUY;
    }
  }

  /** Without a buy of `name` the denominator is 1. */
  lemma NoBuyDenominator(data: seq<TransactionRecord>, name: string)
    requires forall i :: 0 <= i < |data| && data[i].name == name ==> data[i].action != BUY
    ensures FirstBuyAmount(data, name) == 1.0
  {
    var buys := BuysOf(data, name);
    if buys != [] {
      assert buys[0] in data;
    }
  }

  /** `amount` as a percentage of `base`, 0 when the base is 0. */
  function Percentage(amount: real, base: real): (r: real)
    ensures base != 0.0 ==> r * base == amount * 100.0
    ensures base == 0.0 ==> r == 0.0
  {
    if base != 0.0 then PercentageTimesBase(amount, base); amount / base * 100.0 else 0.0
  }

  lemma PercentageTimesBase(amount: real, base: real)
    requires base != 0.0
    ensures (amount / base * 100.0) * base == amount * 100.0
  {
    var q := amount / base;
    assert q * base == amount;
    calc {
      (q * 100.0) * base;
      (q * base) * 100.0;
    }
  }

  /** `calculateProfitPercentage`: the name's profit over its first buy, as
      a percentage. The first buy is never 0, so the guard is never taken
      and the percentage times the first buy gives back a hundred times the
      profit. */
  function ProfitPercentage(name: string, nameProfits: map<string, real>, data: seq<TransactionRecord>): (r: real)
    requires name in nameProfits
    ensures r * FirstBuyAmount(data, name) == nameProfits[name] * 100.0
  {
    Percentage(nameProfits[name], FirstBuyAmount(data, name))
  }

  /** Sum of the first-buy denominators of the names `ns`. */
  function SumFirstBuys(data: seq<TransactionRecord>, ns: seq<string>): real
  {
    if ns == [] then 0.0 else SumFirstBuys(data, ns[..|ns| - 1]) + FirstBuyAmount(data, ns[|ns| - 1])
  }

  /** The `reduce` of `calculateTotalProfitPercentage`: the first-buy
      amounts of every name in the data summed, whatever token is selected.
      It is 0 only without rows when no price is negative. */
  function TotalFirstBuyAmount(data: seq<TransactionRecord>): (total: real)
    ensures data == [] ==> total == 0.0
    ensures data != [] && (forall i :: 0 <= i < |data| ==> data[i].usdtPrice >= 0.0) ==> total > 0.0
  {
    NonNegativePricesGivePositiveTotal(data);
    SumFirstBuys(data, Names(data))
  }

  /** `calculateTotalProfitPercentage`: the total profit as a percentage of
      the summed first buys, 0 when that sum is 0. */
  function TotalProfitPercentage(totalProfit: real, data: seq<TransactionRecord>): (r: real)
    ensures TotalFirstBuyAmount(data) == 0.0 ==> r == 0.0
    ensures data == [] ==> r == 0.0
  {
    Percentage(totalProfit, TotalFirstBuyAmount(data))
  }

  lemma NonNegativePricesGivePositiveTotal(data: seq<TransactionRecord>)
    ensures data != [] && (forall i :: 0 <= i < |data| ==> data[i].usdtPrice >= 0.0) ==>
              SumFirstBuys(data, Names(data)) > 0.0
  {
    if data != [] && (forall i :: 0 <= i < |data| ==> data[i].usdtPrice >= 0.0) {
      assert data[0].name in Names(data);
      forall n | n in Names(data) ensures FirstBuyAmount(data, n) > 0.0 {
        FirstBuyPositive(data, n);
      }
      SumFirstBuysPositive(data, Names(data));
    }
  }

  /** Rows of a single token have that one name. */
  lemma {:induction false} NamesOfOneToken(data: seq<TransactionRecord>, name: string)
    requires data != [] && forall i :: 0 <= i < |data| ==> data[i].name == name
    ensures Names(data) == [name]
  {
    if |data| > 1 {
      NamesOfOneToken(data[..|data| - 1], name);
    }
  }

  /** With rows of a single token the total percentage is that token's own
      percentage: the sum has one first buy. */
  lemma {:induction false} TotalOfOneToken(name: string, nameProfits: map<string, real>, data: seq<TransactionRecord>)
    requires data != [] && forall i :: 0 <= i < |data| ==> data[i].name == name
    requires name in nameProfits
    ensures TotalProfitPercentage(nameProfits[name], data) == ProfitPercentage(name, nameProfits, data)
  {
    var ns := Names(data);
    NamesOfOneToken(data, name);
    assert ns[..0] == [];
    assert SumFirstBuys(data, ns) == FirstBuyAmount(data, name);
  }

  lemma FirstBuyPositive(data: seq<TransactionRecord>, name: string)
    requires forall i :: 0 <= i < |data| ==> data[i].usdtPrice >= 0.0
    ensures FirstBuyAmount(data, name) > 0.0
  {
    var buys := BuysOf(data, name);
    if buys != [] {
      assert Earliest(buys) in data;
    }
  }

  lemma {:induction false} SumFirstBuysPositive(data: seq<TransactionRecord>, ns: seq<string>)
    requires ns != []
    requires forall n :: n in ns ==> FirstBuyAmount(data, n) > 0.0
    ensures SumFirstBuys(data, ns) > 0.0
  {
    if |ns| > 1 {
      SumFirstBuysPositive(data, ns[..|ns| - 1]);
    }
  }

  /** Worked percentages: profit 50 on a first buy of 100
      is 50%; profit 50 with no buy is 5000%. */
  lemma PercentageExamples()
    ensures ProfitPercentage("A", map["A" := 50.0],
                             [TransactionRecord("A", BUY, "1h", None, 100.0, 1, "RSI"),
                              TransactionRecord("A", SELL, "1h", None, 150.0, 2, "RSI")]) == 50.0
    ensures ProfitPercentage("A", map["A" := 50.0],
                             [TransactionRecord("A", SELL, "1h", None, 50.0, 1, "RSI")]) == 5000.0
  {
    var b := TransactionRecord("A", BUY, "1h", None, 100.0, 1, "RSI");
    var s := TransactionRecord("A", SELL, "1h", None, 150.0, 2, "RSI");
    assert [b, s][..1] == [b];
    assert [b][..0] == [];
    assert BuysOf([b], "A") == [b];
    assert BuysOf([b, s], "A") == [b];
    var s2 := TransactionRecord("A", SELL, "1h", None, 50.0, 1, "RSI");
    assert [s2][..0] == [];
    assert BuysOf([s2], "A") == [];
  }
}
