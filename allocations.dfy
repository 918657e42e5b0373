/** The token (allocation) collection: one document per token name holding
    the USDT amount earmarked for that token's next buy. The database does
    not enforce one document per name; `updateOne` with `upsert` keeps it so
    as long as every write goes through it. */
module Allocations {
  import opened Common

  datatype TokenRecord = TokenRecord(name: string, usdtAmount: real)

  /** The documents matching a filter on the name, in collection order. */
  function Named(rs: seq<TokenRecord>, name: string): (r: seq<TokenRecord>)
    ensures |r| <= |rs|
    ensures forall t :: t in r <==> t in rs && t.name == name
  {
    if rs == [] then []
    else if rs[0].name == name then [rs[0]] + Named(rs[1..], name)
    else Named(rs[1..], name)
  }

  /** `findOne` by name: the first matching document, or null. */
  function FindOne(rs: seq<TokenRecord>, name: string): (r: Option<TokenRecord>)
    ensures r.None? <==> Named(rs, name) == []
    ensures r.Some? ==> r.value == Named(rs, name)[0]
  {
    if rs == [] then None
    else if rs[0].name == name then Some(rs[0])
    else FindOne(rs[1..], name)
  }

  /** `updateOne` by name with upsert: sets
      the amount of the first document with that name, or appends a new
      document when there is none. */
  function Upsert(rs: seq<TokenRecord>, name: string, amount: real): (r: seq<TokenRecord>)
    ensures |r| == if FindOne(rs, name).None? then |rs| + 1 else |rs|
    ensures forall t :: t in r ==> t in rs || t == TokenRecord(name, amount)
  {
    if rs == [] then [TokenRecord(name, amount)]
    else if rs[0].name == name then [rs[0].(usdtAmount := amount)] + rs[1..]
    else [rs[0]] + Upsert(rs[1..], name, amount)
  }

  /** `deleteMany` by name: every document with that name is removed. */
  function WithoutName(rs: seq<TokenRecord>, name: string): (r: seq<TokenRecord>)
    ensures forall t :: t in r <==> t in rs && t.name != name
  {
    if rs == [] then []
    else if rs[0].name == name then WithoutName(rs[1..], name)
    else [rs[0]] + WithoutName(rs[1..], name)
  }

  /** The stored allocation replaces a balance when the document exists,
      its amount is truthy (non-zero) and it is below the balance; both
      exchange handlers size buys by this test. */
  predicate UsesAllocation(doc: Option<TokenRecord>, balance: real)
  {
    doc.Some? && doc.value.usdtAmount != 0.0 && doc.value.usdtAmount < balance
  }

  /** At most one document per name. */
  ghost predicate UniqueNames(rs: seq<TokenRecord>)
  {
    forall i, j :: 0 <= i < j < |rs| ==> rs[i].name != rs[j].name
  }

  /** Reading a name back after an upsert gives the amount just written. */
  lemma {:induction false} FindAfterUpsert(rs: seq<TokenRecord>, name: string, amount: real)
    ensures FindOne(Upsert(rs, name, amount), name) == Some(TokenRecord(name, amount))
  {
    if rs != [] && rs[0].name != name {
      FindAfterUpsert(rs[1..], name, amount);
    }
  }

  /** An upsert leaves the documents of every other name as they were. */
  lemma {:induction false} UpsertKeepsOtherNames(rs: seq<TokenRecord>, name: string, amount: real, other: string)
    requires other != name
    ensures Named(Upsert(rs, name, amount), other) == Named(rs, other)
  {
    if rs != [] && rs[0].name != name {
      UpsertKeepsOtherNames(rs[1..], name, amount, other);
      assert Upsert(rs, name, amount)[1..] == Upsert(rs[1..], name, amount);
    } else if rs != [] {
      assert Upsert(rs, name, amount)[1..] == rs[1..];
    }
  }

  /** Looking up another name after an upsert finds what it found before. */
  lemma {:induction false} FindOneKeepsOtherNames(rs: seq<TokenRecord>, name: string, amount: real, other: string)
    requires other != name
    ensures FindOne(Upsert(rs, name, amount), other) == FindOne(rs, other)
  {
    if rs != [] && rs[0].name != name {
      FindOneKeepsOtherNames(rs[1..], name, amount, other);
      assert Upsert(rs, name, amount)[1..] == Upsert(rs[1..], name, amount);
    } else if rs != [] {
      assert Upsert(rs, name, amount)[1..] == rs[1..];
    }
  }

  /** An upsert never duplicates: the number of documents with the name is
      one if there was none, and unchanged otherwise. */
  lemma {:induction false} UpsertCount(rs: seq<TokenRecord>, name: string, amount: real)
    ensures |Named(Upsert(rs, name, amount), name)| == if Named(rs, name) == [] then 1 else |Named(rs, name)|
  {
    if rs == [] {
    } else if rs[0].name == name {
      assert Upsert(rs, name, amount)[1..] == rs[1..];
    } else {
      UpsertCount(rs[1..], name, amount);
      assert Upsert(rs, name, amount)[1..] == Upsert(rs[1..], name, amount);
    }
  }

  /** At most one document per name stays true across an upsert. */
  lemma {:induction false} UpsertKeepsUnique(rs: seq<TokenRecord>, name: string, amount: real)
    requires UniqueNames(rs)
    ensures UniqueNames(Upsert(rs, name, amount))
  {
    if rs == [] {
    } else if rs[0].name == name {
      var r := Upsert(rs, name, amount);
      assert forall i :: 0 <= i < |r| ==> r[i].name == rs[i].name;
    } else {
      UpsertKeepsUnique(rs[1..], name, amount);
      var rest := Upsert(rs[1..], name, amount);
      var r := Upsert(rs, name, amount);
      assert r == [rs[0]] + rest;
      forall j | 0 < j < |r| ensures r[0].name != r[j].name {
        assert r[j] in rest;
        if r[j] in rs[1..] {
          var k :| 0 <= k < |rs[1..]| && rs[1..][k] == r[j];
          assert rs[k + 1] == r[j];
        }
      }
    }
  }

  /** A second upsert of the same name replaces the first one's amount
      rather than adding a document. */
  lemma {:induction false} UpsertTwice(rs: seq<TokenRecord>, name: string, a: real, b: real)
    ensures Upsert(Upsert(rs, name, a), name, b) == Upsert(rs, name, b)
  {
    if rs != [] && rs[0].name != name {
      UpsertTwice(rs[1..], name, a, b);
      assert Upsert(rs, name, a)[1..] == Upsert(rs[1..], name, a);
    } else if rs != [] {
      assert Upsert(rs, name, a)[1..] == rs[1..];
    }
  }

  /** Deleting a name removes all of its documents and keeps the documents
      of every other name, in order. */
  lemma {:induction false} DeleteKeepsOtherNames(rs: seq<TokenRecord>, name: string, other: string)
    requires other != name
    ensures Named(WithoutName(rs, name), other) == Named(rs, other)
  {
    if rs != [] {
      DeleteKeepsOtherNames(rs[1..], name, other);
      if rs[0].name != name {
        assert WithoutName(rs, name)[1..] == WithoutName(rs[1..], name);
      }
    }
  }

  /** A collection with at most one document per name has at most one
      match for any name. */
  lemma {:induction false} AtMostOneNamed(rs: seq<TokenRecord>, name: string)
    requires UniqueNames(rs)
    ensures |Named(rs, name)| <= 1
  {
    if rs != [] {
      AtMostOneNamed(rs[1..], name);
      if rs[0].name == name {
        NoneNamed(rs[1..], name);
      }
    }
  }

  /** No document carries the name, so none matches it. */
  lemma {:induction false} NoneNamed(rs: seq<TokenRecord>, name: string)
    requires forall i :: 0 <= i < |rs| ==> rs[i].name != name
    ensures Named(rs, name) == []
  {
    if rs != [] {
      NoneNamed(rs[1..], name);
    }
  }

  /** The token collection as a store the handlers update in place. */
  class TokenCollection {
    var records: seq<TokenRecord>

    constructor (initial: seq<TokenRecord>)
      ensures records == initial
    {
      records := initial;
    }

    /** `updateOne` with upsert; `upserted` is the driver's
        `upsertedCount > 0`. */
    method UpdateOne(name: string, amount: real) returns (upserted: bool)
      modifies this
      ensures records == Upsert(old(records), name, amount)
      ensures upserted <==> FindOne(old(records), name).None?
    {
      upserted := FindOne(records, name).None?;
      records := Upsert(records, name, amount);
    }

    /** `deleteMany` by name. */
    method DeleteMany(name: string)
      modifies this
      ensures records == WithoutName(old(records), name)
    {
      records := WithoutName(records, name);
    }
  }
}
