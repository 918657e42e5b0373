/** The dashboard's transaction history table: the optional name filter and
    the background colour of each row. The table lists the rows newest
    first, so "the next row" of a sell is the trade made before it. */
module TransactionTable {
  import opened Common

  /** The four backgrounds: transparent, yellow, green and red. */
  datatype Color = Transparent | Yellow | Green | Red

  /** The slice of the rows after `index`; empty when `index` is at or past
      the end. */
  function After(data: seq<TransactionRecord>, index: nat): (r: seq<TransactionRecord>)
    ensures |r| == if index + 1 <= |data| then |data| - index - 1 else 0
    ensures forall k :: 0 <= k < |r| ==> r[k] == data[index + 1 + k]
  {
    if index + 1 <= |data| then data[index + 1..] else []
  }

  /** The array `find` for a row named `name`: the first such row. */
  function FindNamed(rows: seq<TransactionRecord>, name: string): (r: Option<TransactionRecord>)
  {
    if rows == [] then None
    else if rows[0].name == name then Some(rows[0])
    else FindNamed(rows[1..], name)
  }

  /** `j` is the first row after `index` that has the name `name`. */
  ghost predicate NextSameName(data: seq<TransactionRecord>, index: nat, name: string, j: int)
  {
    index < j < |data| && data[j].name == name && forall k :: index < k < j ==> data[k].name != name
  }

  /** The first match of `find`, described by its position. */
  lemma {:induction false} FindNamedPosition(rows: seq<TransactionRecord>, name: string)
    ensures FindNamed(rows, name).None? ==> forall k :: 0 <= k < |rows| ==> rows[k].name != name
    ensures FindNamed(rows, name).Some? ==>
              exists i :: 0 <= i < |rows| && rows[i] == FindNamed(rows, name).value && rows[i].name == name &&
                          forall k :: 0 <= k < i ==> rows[k].name != name
  {
    if rows != [] && rows[0].name != name {
      FindNamedPosition(rows[1..], name);
      if FindNamed(rows, name).Some? {
        var i :| 0 <= i < |rows[1..]| && rows[1..][i] == FindNamed(rows, name).value && rows[1..][i].name == name &&
                 forall k :: 0 <= k < i ==> rows[1..][k].name != name;
        assert rows[i + 1] == rows[1..][i];
        assert forall k :: 0 < k < i + 1 ==> rows[k] == rows[1..][k - 1];
      }
    } else if rows != [] {
      assert rows[0] == FindNamed(rows, name).value;
    }
  }

  /** `nextBuy` is the row at the first position after `index` with the
      item's name, and there is none exactly when no later row has it. */
  lemma NextOfIndex(data: seq<TransactionRecord>, index: nat, name: string)
    ensures FindNamed(After(data, index), name).None? <==> forall j :: !NextSameName(data, index, name, j)
    ensures FindNamed(After(data, index), name).Some? ==>
              exists j :: NextSameName(data, index, name, j) && data[j] == FindNamed(After(data, index), name).value
    ensures forall j, j' :: NextSameName(data, index, name, j) && NextSameName(data, index, name, j') ==> j == j'
  {
    var rest := After(data, index);
    FindNamedPosition(rest, name);
    if FindNamed(rest, name).Some? {
      var i :| 0 <= i < |rest| && rest[i] == FindNamed(rest, name).value && rest[i].name == name &&
               forall k :: 0 <= k < i ==> rest[k].name != name;
      assert NextSameName(data, index, name, index + 1 + i) by {
        forall k | index < k < index + 1 + i ensures data[k].name != name {
          assert data[k] == rest[k - index - 1];
        }
      }
    } else {
      forall j ensures !NextSameName(data, index, name, j) {
        if index < j < |data| {
          assert data[j] == rest[j - index - 1];
        }
      }
    }
  }

  /** `calculateRowColor(data, item, index)`. A row that is not a sell is
      transparent. A sell is yellow when no later row has its name or the
      next one that has it is a sell; otherwise it is green when it brought
      in more USDT than that next row spent, and red when it did not (equal
      amounts are red). The next row may carry any action but a sell. */
  function RowColor(data: seq<TransactionRecord>, item: TransactionRecord, index: nat): (r: Color)
    ensures r == Transparent <==> item.action != SELL
    ensures r == Yellow <==>
              item.action == SELL && forall j :: NextSameName(data, index, item.name, j) ==> data[j].action == SELL
    ensures r == Green <==>
              item.action == SELL &&
              exists j :: NextSameName(data, index, item.name, j) && data[j].action != SELL && item.usdtPrice > data[j].usdtPrice
    ensures r == Red <==>
              item.action == SELL &&
              exists j :: NextSameName(data, index, item.name, j) && data[j].action != SELL && item.usdtPrice <= data[j].usdtPrice
  {
    NextOfIndex(data, index, item.name);
    var nextBuy := FindNamed(After(data, index), item.name);
    if item.action == SELL then
      if nextBuy.None? || nextBuy.value.action == SELL then Yellow
      else if item.usdtPrice > nextBuy.value.usdtPrice then Green
      else Red
    else Transparent
  }

  /** A row's colour depends only on the rows after it: rows put in front
      of the list, with the index shifted past them, change nothing. */
  lemma IgnoresEarlierRows(prefix: seq<TransactionRecord>, data: seq<TransactionRecord>, item: TransactionRecord, index: nat)
    ensures RowColor(prefix + data, item, |prefix| + index) == RowColor(data, item, index)
  {
    assert After(prefix + data, |prefix| + index) == After(data, index);
  }

  /** `find` skips rows without the name. */
  lemma {:induction false} FindSkipsOthers(others: seq<TransactionRecord>, rows: seq<TransactionRecord>, name: string)
    requires forall k :: 0 <= k < |others| ==> others[k].name != name
    ensures FindNamed(others + rows, name) == FindNamed(rows, name)
  {
    if others != [] {
      assert (others + rows)[1..] == others[1..] + rows;
      FindSkipsOthers(others[1..], rows, name);
    } else {
      assert others + rows == rows;
    }
  }

  /** Rows of other names inserted right after a row do not change its
      colour. */
  lemma OtherNamesBetween(data: seq<TransactionRecord>, item: TransactionRecord, index: nat, others: seq<TransactionRecord>)
    requires index < |data|
    requires forall k :: 0 <= k < |others| ==> others[k].name != item.name
    ensures RowColor(data[..index + 1] + others + data[index + 1..], item, index) == RowColor(data, item, index)
  {
    var longer := data[..index + 1] + others + data[index + 1..];
    assert After(longer, index) == others + After(data, index);
    FindSkipsOthers(others, After(data, index), item.name);
  }

  /** The rows the table shows: those named `filterByName`, or all of them
      when no filter is set (the empty string stands for the falsy filter). */
  function FilterByName(data: seq<TransactionRecord>, filterByName: string): (r: seq<TransactionRecord>)
    ensures filterByName == "" ==> r == data
    ensures filterByName != "" ==> forall t :: t in r <==> t in data && t.name == filterByName
    ensures |r| <= |data|
  {
    if filterByName == "" then data else KeepNamed(data, filterByName)
  }

  /** The rows named `name`, in order. */
  function KeepNamed(data: seq<TransactionRecord>, name: string): (r: seq<TransactionRecord>)
    ensures forall t :: t in r <==> t in data && t.name == name
    ensures |r| <= |data|
  {
    if data == [] then []
    else (if data[0].name == name then [data[0]] else []) + KeepNamed(data[1..], name)
  }

  /** The filter keeps the rows in order: filtering a concatenation
      concatenates the filtered parts. */
  lemma {:induction false} FilterKeepsOrder(a: seq<TransactionRecord>, b: seq<TransactionRecord>, filterByName: string)
    ensures FilterByName(a + b, filterByName) == FilterByName(a, filterByName) + FilterByName(b, filterByName)
  {
    if filterByName != "" {
      if a == [] {
        assert a + b == b;
      } else {
        assert (a + b)[1..] == a[1..] + b;
        FilterKeepsOrder(a[1..], b, filterByName);
        assert (a + b)[0] == a[0];
      }
    }
  }

  /** The filter keeps every row of the name as many times as it occurs,
      and drops every other row. */
  lemma {:induction false} FilterKeepsCount(data: seq<TransactionRecord>, filterByName: string, t: TransactionRecord)
    requires filterByName != ""
    ensures multiset(FilterByName(data, filterByName))[t] == if t.name == filterByName then multiset(data)[t] else 0
  {
    if data != [] {
      FilterKeepsCount(data[1..], filterByName, t);
      assert data == [data[0]] + data[1..];
    }
  }

  /** Filtering twice by the same name is filtering once. */
  lemma {:induction false} FilterIdempotent(data: seq<TransactionRecord>, filterByName: string)
    ensures FilterByName(FilterByName(data, filterByName), filterByName) == FilterByName(data, filterByName)
  {
    if filterByName != "" && data != [] {
      FilterIdempotent(data[1..], filterByName);
      var f := FilterByName(data, filterByName);
      if data[0].name == filterByName {
        assert f == [data[0]] + FilterByName(data[1..], filterByName);
        assert f[1..] == FilterByName(data[1..], filterByName);
      } else {
        assert f == FilterByName(data[1..], filterByName);
      }
    }
  }

  /** In the filtered table, which is how the rows are coloured, every row
      has the filtered name, so a row's next same-name row is simply the
      row below it. */
  lemma FilteredNextIsAdjacent(data: seq<TransactionRecord>, filterByName: string, index: nat)
    requires filterByName != ""
    requires index + 1 < |FilterByName(data, filterByName)|
    ensures var f := FilterByName(data, filterByName);
            NextSameName(f, index, f[index].name, index + 1)
  {
    var f := FilterByName(data, filterByName);
    assert f[index] in f && f[index + 1] in f;
  }
}
