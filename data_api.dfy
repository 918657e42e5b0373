/** The transaction history endpoint: list the history newest first (GET),
    delete one token's rows or all of them (DELETE), seed it with sample
    rows (PUT). The sample rows get timestamps stepping back from a random
    recent time. */
module DataApi {
  import opened Common
  import opened History

  const MINUTE_MS: int := 60000
  /** The random offset is a whole number of minutes within a day. */
  const MINUTES_PER_DAY: int := 1440

  /** `getRandomTime`: the current time less a whole number of minutes
      below a day. The clock and the random draw are parameters. */
  function RandomTime(now: int, offsetMinutes: int): (t: int)
    requires 0 <= offsetMinutes < MINUTES_PER_DAY
    ensures now - MINUTES_PER_DAY * MINUTE_MS < t <= now
    ensures (now - t) % MINUTE_MS == 0
  {
    now - offsetMinutes * MINUTE_MS
  }

  /** `generateTimeArray(length, decMinutes)` from the initial time it
      draws: the initial time, then each entry `decMinutes` minutes before
      the previous one, `length` entries in all and always at least one. */
  method GenerateTimeArray(length: int, decMinutes: int, initial: int) returns (times: seq<int>)
    ensures |times| == if length >= 1 then length else 1
    ensures forall i :: 0 <= i < |times| ==> times[i] == initial - i * decMinutes * MINUTE_MS
  {
    times := [initial];
    var i := 1;
    while i < length
      invariant 1 <= i <= (if length >= 1 then length else 1)
      invariant |times| == i
      invariant forall k :: 0 <= k < i ==> times[k] == initial - k * decMinutes * MINUTE_MS
    {
      var previous := times[i - 1];
      times := times + [previous - decMinutes * MINUTE_MS];
      i := i + 1;
    }
  }

  /** With a positive step the timestamps are strictly decreasing. */
  lemma StepsBackInTime(times: seq<int>, decMinutes: int, initial: int)
    requires decMinutes > 0
    requires forall i :: 0 <= i < |times| ==> times[i] == initial - i * decMinutes * MINUTE_MS
    ensures forall i, j :: 0 <= i < j < |times| ==> times[i] > times[j]
  {
    forall i, j | 0 <= i < j < |times| ensures times[i] > times[j] {
      assert times[j] - times[i] == (i - j) * (decMinutes * MINUTE_MS);
      assert (j - i) * (decMinutes * MINUTE_MS) > 0;
    }
  }

  /** A sample row without its timestamp. */
  datatype Sample = Sample(name: string, action: string, timeframe: string, tokenPrice: real, usdtPrice: real, indicator: string)

  function Stamp(s: Sample, datetime: int): TransactionRecord
  {
    TransactionRecord(s.name, s.action, s.timeframe, Some(s.tokenPrice), s.usdtPrice, datetime, s.indicator)
  }

  /** The five sample tokens, each with its rows in order. */
  const SAMPLES_A: seq<Sample> := [
    Sample("AAAA", BUY, "1h", 130.0, 13000.0, "RSI"),
    Sample("AAAA", SELL, "1h", 120.0, 12000.0, "RSI"),
    Sample("AAAA", BUY, "1h", 100.0, 10000.0, "RSI")]
  const SAMPLES_B: seq<Sample> := [
    Sample("BBBB", SELL, "1m", 50.0, 5000.0, "RSI"),
    Sample("BBBB", BUY, "1m", 40.0, 4000.0, "RSI"),
    Sample("BBBB", SELL, "1m", 45.0, 4500.0, "RSI"),
    Sample("BBBB", BUY, "1m", 50.0, 5000.0, "RSI")]
  const SAMPLES_C: seq<Sample> := [
    Sample("CCCC", SELL, "10m", 80.0, 8000.0, "SuperTrend"),
    Sample("CCCC", BUY, "10m", 100.0, 10000.0, "SuperTrend"),
    Sample("CCCC", SELL, "10m", 90.0, 9000.0, "SuperTrend"),
    Sample("CCCC", BUY, "10m", 80.0, 8000.0, "SuperTrend")]
  const SAMPLES_D: seq<Sample> := [
    Sample("DDDD", SELL, "1m", 65.0, 6500.0, "Volume"),
    Sample("DDDD", BUY, "1m", 60.0, 6000.0, "Volume"),
    Sample("DDDD", SELL, "1m", 75.0, 7500.0, "Volume"),
    Sample("DDDD", BUY, "1m", 60.0, 6000.0, "Volume")]
  const SAMPLES_E: seq<Sample> := [
    Sample("EEEE", SELL, "1h", 190.0, 19000.0, "SuperTrend"),
    Sample("EEEE", BUY, "1h", 160.0, 16000.0, "SuperTrend")]

  /** One token's sample rows stamped with its time series. */
  function StampAll(samples: seq<Sample>, times: seq<int>): (rows: seq<TransactionRecord>)
    requires |times| == |samples|
    ensures |rows| == |samples|
    ensures forall i :: 0 <= i < |rows| ==> rows[i] == Stamp(samples[i], times[i])
  {
    if samples == [] then [] else [Stamp(samples[0], times[0])] + StampAll(samples[1..], times[1..])
  }

  /** One token's rows: its own name, and timestamps that step back in
      time row by row. */
  ghost predicate Series(rows: seq<TransactionRecord>, name: string)
  {
    (forall i :: 0 <= i < |rows| ==> rows[i].name == name) &&
    (forall i, j :: 0 <= i < j < |rows| ==> rows[i].datetime > rows[j].datetime)
  }

  /** Row `i` is stamped `i * decMinutes` minutes before `initial`. */
  ghost predicate SteppedFrom(rows: seq<TransactionRecord>, initial: int, decMinutes: int)
  {
    forall i :: 0 <= i < |rows| ==> rows[i].datetime == initial - i * decMinutes * MINUTE_MS
  }

  /** The stamped series of one token: `length` rows, `decMinutes` apart. */
  method SampleSeries(samples: seq<Sample>, name: string, decMinutes: int, initial: int)
    returns (rows: seq<TransactionRecord>)
    requires |samples| >= 1 && decMinutes > 0
    requires forall i :: 0 <= i < |samples| ==> samples[i].name == name
    ensures |rows| == |samples|
    ensures forall i :: 0 <= i < |rows| ==> rows[i] == Stamp(samples[i], rows[i].datetime)
    ensures SteppedFrom(rows, initial, decMinutes)
    ensures Series(rows, name)
  {
    var times := GenerateTimeArray(|samples|, decMinutes, initial);
    StepsBackInTime(times, decMinutes, initial);
    rows := StampAll(samples, times);
  }

  const SAMPLES: seq<Sample> := SAMPLES_A + SAMPLES_B + SAMPLES_C + SAMPLES_D + SAMPLES_E

  /** The seventeen sample rows, token by token (3, 4, 4, 4 and 2 rows),
      each token's rows one time series stepping back in time. */
  ghost predicate TestData(rows: seq<TransactionRecord>)
  {
    && |rows| == 17
    && (forall i :: 0 <= i < 17 ==> rows[i] == Stamp(SAMPLES[i], rows[i].datetime))
    && Series(rows[..3], "AAAA") && Series(rows[3..7], "BBBB") && Series(rows[7..11], "CCCC")
    && Series(rows[11..15], "DDDD") && Series(rows[15..], "EEEE")
  }

  /** The timestamps of the sample rows: each token's series starts at its
      own initial time and steps back 60, 1, 10, 1 and 60 minutes a row. */
  ghost predicate TestTimes(rows: seq<TransactionRecord>, initials: seq<int>)
    requires |rows| == 17 && |initials| == 5
  {
    && SteppedFrom(rows[..3], initials[0], 60) && SteppedFrom(rows[3..7], initials[1], 1)
    && SteppedFrom(rows[7..11], initials[2], 10) && SteppedFrom(rows[11..15], initials[3], 1)
    && SteppedFrom(rows[15..], initials[4], 60)
  }

  /** The five series of a concatenation are its slices at 3, 7, 11 and 15. */
  lemma FiveSlices<T>(a: seq<T>, b: seq<T>, c: seq<T>, d: seq<T>, e: seq<T>)
    requires |a| == 3 && |b| == 4 && |c| == 4 && |d| == 4 && |e| == 2
    ensures var rows := a + b + c + d + e;
      rows[..3] == a && rows[3..7] == b && rows[7..11] == c && rows[11..15] == d && rows[15..] == e
  {
    var rows := a + b + c + d + e;
    assert rows[..3] == a;
    assert rows[3..7] == b;
    assert rows[7..11] == c;
    assert rows[11..15] == d;
    assert rows[15..] == e;
  }

  /** `generateTestData`: the sample rows, each token's series drawn from
      its own random start (`initials`) in steps of 60, 1, 10, 1 and 60
      minutes. */
  method GenerateTestData(initials: seq<int>) returns (rows: seq<TransactionRecord>)
    requires |initials| == 5
    ensures TestData(rows)
    ensures TestTimes(rows, initials)
  {
    var a := SampleSeries(SAMPLES_A, "AAAA", 60, initials[0]);
    var b := SampleSeries(SAMPLES_B, "BBBB", 1, initials[1]);
    var c := SampleSeries(SAMPLES_C, "CCCC", 10, initials[2]);
    var d := SampleSeries(SAMPLES_D, "DDDD", 1, initials[3]);
    var e := SampleSeries(SAMPLES_E, "EEEE", 60, initials[4]);
    rows := a + b + c + d + e;
    FiveSlices(a, b, c, d, e);
  }

  /** An ASCII lower-casing of the query name; other characters are kept. */
  function ToLower(s: string): (r: string)
    ensures |r| == |s|
    ensures forall i :: 0 <= i < |s| ==> r[i] == if 'A' <= s[i] <= 'Z' then (s[i] as int + 32) as char else s[i]
  {
    if s == [] then [] else [if 'A' <= s[0] <= 'Z' then (s[0] as int + 32) as char else s[0]] + ToLower(s[1..])
  }

  /** DELETE removes everything unless a name is given whose lower case is
      not 'all'. */
  predicate DeletesAll(queryName: string)
  {
    queryName == "" || ToLower(queryName) == "all"
  }

  /** Every capitalisation of 'all' means everything, and so does a missing
      name; any name of another length names one token. */
  lemma DeleteSelection(queryName: string)
    ensures queryName == "" ==> DeletesAll(queryName)
    ensures queryName != "" ==>
              (DeletesAll(queryName) <==>
                 && |queryName| == 3
                 && queryName[0] in {'a', 'A'} && queryName[1] in {'l', 'L'} && queryName[2] in {'l', 'L'})
  {
    if queryName != "" && |queryName| == 3
       && queryName[0] in {'a', 'A'} && queryName[1] in {'l', 'L'} && queryName[2] in {'l', 'L'} {
      assert ToLower(queryName) == "all";
    }
  }

  /** The endpoint over the history collection. `configured` says the three
      required environment variables are set. */
  class DataEndpoint {
    const configured: bool
    const history: TransactionCollection

    constructor (configured: bool, history: TransactionCollection)
      ensures this.configured == configured && this.history == history
    {
      this.configured := configured;
      this.history := history;
    }

    /** GET: the whole history, newest first; nothing changes. */
    method Get() returns (documents: seq<TransactionRecord>)
      ensures multiset(documents) == multiset(history.rows)
      ensures forall i, j :: 0 <= i < j < |documents| ==> documents[i].datetime >= documents[j].datetime
    {
      documents := NewestFirst(history.rows);
    }

    /** DELETE: one token's rows when a name other than 'all' is given,
        every row otherwise. */
    method Delete(queryName: string)
      modifies history
      ensures DeletesAll(queryName) ==> history.rows == []
      ensures !DeletesAll(queryName) ==> history.rows == RowsWithout(old(history.rows), queryName)
    {
      if !DeletesAll(queryName) {
        history.DeleteNamed(queryName);
      } else {
        history.DeleteAll();
      }
    }

    /** PUT: appends the seventeen sample rows. */
    method Put(initials: seq<int>)
      requires |initials| == 5
      modifies history
      ensures |history.rows| == |old(history.rows)| + 17
      ensures history.rows[..|old(history.rows)|] == old(history.rows)
      ensures TestData(history.rows[|old(history.rows)|..])
      ensures TestTimes(history.rows[|old(history.rows)|..], initials)
    {
      var testData := GenerateTestData(initials);
      history.InsertMany(testData);
      assert history.rows[|old(history.rows)|..] == testData;
    }

    /** The handler: 500 without configuration or when connecting fails,
        before the store is touched; 405 for a verb other than GET, DELETE
        and PUT; otherwise the verb's method, answering 200. Only GET
        answers with documents. */
    method Handle(verb: string, queryName: string, connected: bool, initials: seq<int>)
      returns (status: int, documents: Option<seq<TransactionRecord>>)
      requires |initials| == 5
      modifies history
      ensures !configured || !connected ==> status == 500 && history.rows == old(history.rows)
      ensures status == 405 <==> configured && connected && verb !in {"GET", "DELETE", "PUT"}
      ensures status == 405 || verb == "GET" ==> history.rows == old(history.rows)
      ensures status == 200 <==> configured && connected && verb in {"GET", "DELETE", "PUT"}
      ensures documents.Some? <==> status == 200 && verb == "GET"
      ensures documents.Some? ==> multiset(documents.value) == multiset(old(history.rows))
      ensures documents.Some? ==>
                forall i, j :: 0 <= i < j < |documents.value| ==> documents.value[i].datetime >= documents.value[j].datetime
      ensures configured && connected && verb == "DELETE" ==>
                if DeletesAll(queryName) then history.rows == []
                else history.rows == RowsWithout(old(history.rows), queryName)
      ensures configured && connected && verb == "PUT" ==>
                && |history.rows| == |old(history.rows)| + 17
                && history.rows[..|old(history.rows)|] == old(history.rows)
                && TestData(history.rows[|old(history.rows)|..])
                && TestTimes(history.rows[|old(history.rows)|..], initials)
    {
      documents := None;
      if !configured || !connected {
        return 500, None;
      }
      if verb == "GET" {
        var docs := Get();
        documents := Some(docs);
        status := 200;
      } else if verb == "DELETE" {
        Delete(queryName);
        status := 200;
      } else if verb == "PUT" {
        Put(initials);
        status := 200;
      } else {
        status := 405;
      }
    }
  }
}
