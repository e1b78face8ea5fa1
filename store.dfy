/**
 * The backing document store, reduced to what ElasticIO asks of it: upserts keyed by document id,
 * and a routed, size-capped conjunctive search. How Elasticsearch matches a wildcard pattern and
 * which shard a routing value selects stay uninterpreted.
 */
module Store {
  import opened Wrappers
  import opened Schema

  /** One `prepareIndex(index, type).setId(id).setSource(source).setRouting(routing)`. */
  datatype IndexRequest = IndexRequest(index: string, docType: string, id: string, routing: string, source: seq<Field>)

  /** A stored document: its routing value and its source as a reader parses it. */
  datatype Doc = Doc(routing: string, source: map<string, string>)

  /** A `termQuery` or `wildcardQuery` on one field. */
  datatype Leaf = Term(field: string, value: string) | Wildcard(field: string, pattern: string)

  /** `prepareSearch(index).setRouting(..).setSize(..).setVersion(..).setQuery(boolQuery().must(..)...)`. */
  datatype SearchRequest = SearchRequest(index: string, routing: string, size: nat, version: bool, must: seq<Leaf>)

  /** A search hit: the document id and its parsed source. */
  datatype Hit = Hit(id: string, source: map<string, string>)

  /** The behaviour of the search engine the model does not interpret. */
  datatype Engine = Engine(wildcardMatch: (string, string) -> bool, shardOf: string -> int)

  /** The document a request stores under its id. */
  function DocOf(r: IndexRequest): Doc
  {
    Doc(r.routing, ToMap(r.source))
  }

  /** The documents after a bulk of index requests: each one replaces whatever its id held. */
  function ApplyBulk(docs: map<string, Doc>, bulk: seq<IndexRequest>): map<string, Doc>
    decreases |bulk|
  {
    if bulk == [] then docs
    else ApplyBulk(docs, bulk[..|bulk| - 1])[bulk[|bulk| - 1].id := DocOf(bulk[|bulk| - 1])]
  }

  /** A bulk overrides the store with the documents it writes, the later of two writes to one id winning. */
  lemma {:induction false} ApplyBulkOverrides(docs: map<string, Doc>, bulk: seq<IndexRequest>)
    ensures ApplyBulk(docs, bulk) == docs + ApplyBulk(map[], bulk)
    decreases |bulk|
  {
    if bulk != [] {
      ApplyBulkOverrides(docs, bulk[..|bulk| - 1]);
    }
  }

  /** Executing the same bulk twice leaves the store as executing it once: writes are upserts. */
  lemma ApplyBulkIdempotent(docs: map<string, Doc>, bulk: seq<IndexRequest>)
    ensures ApplyBulk(ApplyBulk(docs, bulk), bulk) == ApplyBulk(docs, bulk)
  {
    ApplyBulkOverrides(docs, bulk);
    ApplyBulkOverrides(ApplyBulk(docs, bulk), bulk);
  }

  /** The value the index holds for a field: RAW_METRIC_NAME is indexed from the METRIC_NAME field. */
  function IndexedValue(source: map<string, string>, field: string): Option<string>
  {
    var stored := if field == RAW_METRIC_NAME then METRIC_NAME else field;
    if stored in source then Some(source[stored]) else None
  }

  predicate LeafMatches(leaf: Leaf, doc: Doc, e: Engine)
  {
    var v := IndexedValue(doc.source, leaf.field);
    v.Some? &&
    match leaf
    case Term(_, value) => v.value == value
    case Wildcard(_, pattern) => e.wildcardMatch(v.value, pattern)
  }

  /** The request's routing selects the shard searched; every `must` clause has to hold. */
  predicate Matches(req: SearchRequest, doc: Doc, e: Engine)
  {
    e.shardOf(doc.routing) == e.shardOf(req.routing) && forall leaf <- req.must :: LeafMatches(leaf, doc, e)
  }

  function MatchingIds(docs: map<string, Doc>, req: SearchRequest, e: Engine): set<string>
  {
    set id | id in docs && Matches(req, docs[id], e)
  }

  function HitIds(hits: seq<Hit>): set<string>
  {
    set i | 0 <= i < |hits| :: hits[i].id
  }

  predicate DistinctIds(hits: seq<Hit>)
  {
    forall i, j :: 0 <= i < j < |hits| ==> hits[i].id != hits[j].id
  }

  /**
   * What a search may answer: at most `size` distinct matching documents with their sources, and
   * every matching document when fewer than `size` come back.
   */
  predicate IsResponse(docs: map<string, Doc>, req: SearchRequest, e: Engine, hits: seq<Hit>)
  {
    && |hits| <= req.size
    && DistinctIds(hits)
    && (forall i :: 0 <= i < |hits| ==>
          hits[i].id in docs && Matches(req, docs[hits[i].id], e) && hits[i].source == docs[hits[i].id].source)
    && (|hits| < req.size ==> HitIds(hits) == MatchingIds(docs, req, e))
  }

  lemma HitIdsSnoc(hits: seq<Hit>, h: Hit)
    ensures HitIds(hits + [h]) == HitIds(hits) + {h.id}
  {
    var all := hits + [h];
    forall id | id in HitIds(all) ensures id in HitIds(hits) + {h.id} {
      var i :| 0 <= i < |all| && all[i].id == id;
      if i < |hits| { assert hits[i] == all[i]; }
    }
    forall id | id in HitIds(hits) ensures id in HitIds(all) {
      var i :| 0 <= i < |hits| && hits[i].id == id;
      assert all[i] == hits[i];
    }
    assert all[|hits|] == h;
  }

  lemma {:induction false} DistinctIdsCount(hits: seq<Hit>)
    requires DistinctIds(hits)
    ensures |HitIds(hits)| == |hits|
    decreases |hits|
  {
    if hits != [] {
      var init, h := hits[..|hits| - 1], hits[|hits| - 1];
      assert hits == init + [h];
      DistinctIdsCount(init);
      HitIdsSnoc(init, h);
      assert h.id !in HitIds(init);
    }
  }

  /** A response holds exactly as many hits as the cap allows, or all the matching documents. */
  lemma ResponseSize(docs: map<string, Doc>, req: SearchRequest, e: Engine, hits: seq<Hit>)
    requires IsResponse(docs, req, e, hits)
    ensures |hits| == if req.size <= |MatchingIds(docs, req, e)| then req.size else |MatchingIds(docs, req, e)|
  {
    DistinctIdsCount(hits);
    assert HitIds(hits) <= MatchingIds(docs, req, e);
    assert |HitIds(hits)| <= |MatchingIds(docs, req, e)| by {
      SubsetCount(HitIds(hits), MatchingIds(docs, req, e));
    }
  }

  lemma SubsetCount(a: set<string>, b: set<string>)
    requires a <= b
    ensures |a| <= |b|
  {
    assert b == a + (b - a);
  }

  class Store {
    var docs: map<string, Doc>
    const engine: Engine

    constructor (engine: Engine)
      ensures docs == map[] && this.engine == engine
    {
      docs := map[];
      this.engine := engine;
    }

    /** `bulk.execute()`: the requests are applied in order. */
    method ExecuteBulk(bulk: seq<IndexRequest>)
      modifies this
      ensures docs == ApplyBulk(old(docs), bulk)
    {
      for i := 0 to |bulk|
        invariant docs == ApplyBulk(old(docs), bulk[..i])
      {
        assert bulk[..i + 1][..i] == bulk[..i];
        docs := docs[bulk[i].id := DocOf(bulk[i])];
      }
      assert bulk[..|bulk|] == bulk;
    }

    /** `search.execute()`: visits the documents in an order of its own and stops once `size` matched. */
    method ExecuteSearch(req: SearchRequest) returns (hits: seq<Hit>)
      ensures IsResponse(docs, req, engine, hits)
    {
      hits := [];
      var remaining := docs.Keys;
      while remaining != {} && |hits| < req.size
        invariant remaining <= docs.Keys
        invariant |hits| <= req.size
        invariant DistinctIds(hits)
        invariant forall i :: 0 <= i < |hits| ==>
          hits[i].id in docs && Matches(req, docs[hits[i].id], engine) && hits[i].source == docs[hits[i].id].source
        invariant HitIds(hits) == MatchingIds(docs, req, engine) - remaining
        decreases remaining
      {
        var id :| id in remaining;
        if Matches(req, docs[id], engine) {
          HitIdsSnoc(hits, Hit(id, docs[id].source));
          assert forall i :: 0 <= i < |hits| ==> hits[i].id in HitIds(hits);
          hits := hits + [Hit(id, docs[id].source)];
        }
        remaining := remaining - {id};
      }
    }
  }
}
