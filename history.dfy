/** The transaction history collection: the trading handlers append one
    record per executed order; the data endpoint lists, seeds and purges it. */
module History {
  import opened Common
  import opened Sorting

  /** `deleteMany({ name })` on the history: the rows of every other name,
      in order. */
  function RowsWithout(rows: seq<TransactionRecord>, name: string): (r: seq<TransactionRecord>)
    ensures |r| <= |rows|
    ensures forall t :: t in r <==> t in rows && t.name != name
  {
    if rows == [] then []
    else if rows[0].name == name then RowsWithout(rows[1..], name)
    else [rows[0]] + RowsWithout(rows[1..], name)
  }

  function NegatedTime(t: TransactionRecord): int
  {
    -t.datetime
  }

  /** Every row, sorted by datetime descending: newest first. */
  function NewestFirst(rows: seq<TransactionRecord>): (r: seq<TransactionRecord>)
    ensures multiset(r) == multiset(rows)
    ensures forall i, j :: 0 <= i < j < |r| ==> r[i].datetime >= r[j].datetime
  {
    var s := SortBy(rows, NegatedTime);
    SortByPermutes(rows, NegatedTime);
    SortByOrders(rows, NegatedTime);
    assert forall i, j :: 0 <= i < j < |s| ==> NegatedTime(s[i]) <= NegatedTime(s[j]);
    s
  }

  class TransactionCollection {
    var rows: seq<TransactionRecord>

    constructor (initial: seq<TransactionRecord>)
      ensures rows == initial
    {
      rows := initial;
    }

    /** Inserts one row. */
    method InsertOne(row: TransactionRecord)
      modifies this
      ensures rows == old(rows) + [row]
    {
      rows := rows + [row];
    }

    /** Inserts a batch of rows, in order. */
    method InsertMany(batch: seq<TransactionRecord>)
      modifies this
      ensures rows == old(rows) + batch
    {
      rows := rows + batch;
    }

    /** Deletes the rows with that name. */
    method DeleteNamed(name: string)
      modifies this
      ensures rows == RowsWithout(old(rows), name)
    {
      rows := RowsWithout(rows, name);
    }

    /** Deletes every row. */
    method DeleteAll()
      modifies this
      ensures rows == []
    {
      rows := [];
    }
  }
}
