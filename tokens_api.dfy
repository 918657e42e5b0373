/** The token allocation endpoint: create or update an allocation (POST),
    list them (GET), delete one by name (DELETE). Every request first
    checks the server configuration and connects to the database. */
module TokensApi {
  import opened Common
  import opened Allocations

  /** The `usdtAmount` of a request body: a JavaScript number, or anything
      else (a string, a missing field). */
  datatype JsValue = Number(n: real) | NotNumber

  /** A request: its HTTP method and the body's `name` (empty when missing)
      and `usdtAmount`. */
  datatype Request = Request(verb: string, name: string, usdtAmount: JsValue)

  /** A POST body is accepted when the name is truthy and the amount is a
      number. */
  predicate ValidPost(name: string, usdtAmount: JsValue)
  {
    name != "" && usdtAmount.Number?
  }

  /** The endpoint over the token collection. `configured` says the three
      required environment variables are set. */
  class TokensEndpoint {
    const configured: bool
    const collection: TokenCollection

    constructor (configured: bool, collection: TokenCollection)
      ensures this.configured == configured && this.collection == collection
    {
      this.configured := configured;
      this.collection := collection;
    }

    /** POST: an invalid body answers 400 and writes nothing; otherwise the
        name's allocation is upserted, answering 201 when a document was
        created and 200 when one was updated. At most one document per
        name stays true. */
    method Post(name: string, usdtAmount: JsValue) returns (status: int)
      modifies collection
      ensures !ValidPost(name, usdtAmount) ==> status == 400 && collection.records == old(collection.records)
      ensures ValidPost(name, usdtAmount) ==>
                && collection.records == Upsert(old(collection.records), name, usdtAmount.n)
                && (status == 201 <==> FindOne(old(collection.records), name).None?)
                && (status == 200 <==> FindOne(old(collection.records), name).Some?)
      ensures UniqueNames(old(collection.records)) ==> UniqueNames(collection.records)
    {
      if !ValidPost(name, usdtAmount) {
        return 400;
      }
      if UniqueNames(collection.records) {
        UpsertKeepsUnique(collection.records, name, usdtAmount.n);
      }
      var upserted := collection.UpdateOne(name, usdtAmount.n);
      status := if upserted then 201 else 200;
    }

    /** GET: every document, store untouched. */
    method Get() returns (status: int, documents: seq<TokenRecord>)
      ensures status == 200 && documents == collection.records
    {
      return 200, collection.records;
    }

    /** DELETE: a missing name answers 400 and deletes nothing; otherwise
        every document with that name goes, the others stay in order. */
    method Delete(name: string) returns (status: int)
      modifies collection
      ensures name == "" ==> status == 400 && collection.records == old(collection.records)
      ensures name != "" ==> status == 200 && collection.records == WithoutName(old(collection.records), name)
    {
      if name == "" {
        return 400;
      }
      collection.DeleteMany(name);
      status := 200;
    }

    /** The handler: 500 without configuration or when connecting fails,
        before the store is touched; then one method per verb, and 405 for
        any other verb. Only GET answers with the documents. */
    method Handle(req: Request, connected: bool) returns (status: int, documents: Option<seq<TokenRecord>>)
      modifies collection
      ensures !configured || !connected ==> status == 500 && collection.records == old(collection.records)
      ensures status == 405 <==> configured && connected && req.verb !in {"POST", "GET", "DELETE"}
      ensures status == 405 || req.verb == "GET" ==> collection.records == old(collection.records)
      ensures documents.Some? <==> configured && connected && req.verb == "GET"
      ensures documents.Some? ==> documents.value == old(collection.records)
      ensures UniqueNames(old(collection.records)) ==> UniqueNames(collection.records)
      ensures configured && connected && req.verb == "POST" ==>
                if !ValidPost(req.name, req.usdtAmount) then status == 400 && collection.records == old(collection.records)
                else
                  && collection.records == Upsert(old(collection.records), req.name, req.usdtAmount.n)
                  && (status == 201 <==> FindOne(old(collection.records), req.name).None?)
                  && (status == 200 <==> FindOne(old(collection.records), req.name).Some?)
      ensures configured && connected && req.verb == "GET" ==> status == 200
      ensures configured && connected && req.verb == "DELETE" ==>
                if req.name == "" then status == 400 && collection.records == old(collection.records)
                else status == 200 && collection.records == WithoutName(old(collection.records), req.name)
    {
      documents := None;
      if !configured || !connected {
        return 500, None;
      }
      if req.verb == "POST" {
        status := Post(req.name, req.usdtAmount);
      } else if req.verb == "GET" {
        var docs;
        status, docs := Get();
        documents := Some(docs);
      } else if req.verb == "DELETE" {
        DeleteKeepsUnique(collection.records, req.name);
        status := Delete(req.name);
      } else {
        status := 405;
      }
    }
  }

  /** Deleting by name keeps at most one document per name. */
  lemma {:induction false} DeleteKeepsUnique(rs: seq<TokenRecord>, name: string)
    ensures UniqueNames(rs) ==> UniqueNames(WithoutName(rs, name))
  {
    if rs != [] && UniqueNames(rs) {
      DeleteKeepsUnique(rs[1..], name);
      var rest := WithoutName(rs[1..], name);
      if rs[0].name != name {
        var r := WithoutName(rs, name);
        assert r == [rs[0]] + rest;
        forall j | 0 < j < |r| ensures r[0].name != r[j].name {
          assert r[j] in rest;
          var k :| 0 <= k < |rs[1..]| && rs[1..][k] == r[j];
          assert rs[k + 1] == r[j];
        }
      }
    }
  }

  /** A valid POST followed by a GET lists the posted amount under the
      name, and every other name's documents as before. */
  lemma PostThenGet(rs: seq<TokenRecord>, name: string, amount: real, other: string)
    ensures FindOne(Upsert(rs, name, amount), name) == Some(TokenRecord(name, amount))
    ensures other != name ==> Named(Upsert(rs, name, amount), other) == Named(rs, other)
  {
    FindAfterUpsert(rs, name, amount);
    if other != name {
      UpsertKeepsOtherNames(rs, name, amount, other);
    }
  }

  /** A DELETE by name leaves no document with that name. */
  lemma {:induction false} DeleteLeavesNone(rs: seq<TokenRecord>, name: string)
    ensures FindOne(WithoutName(rs, name), name).None?
  {
    var r := WithoutName(rs, name);
    if Named(r, name) != [] {
      assert Named(r, name)[0] in Named(r, name);
    }
  }
}
