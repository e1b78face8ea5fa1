/**
 * `ElasticIO`: turns a batch of metrics into one bulk of index requests, and a tenant's metric-name
 * query into a routed boolean search whose hits become `SearchResult`s.
 */
module ElasticIO {
  import opened Wrappers
  import opened Schema
  import opened Text
  import opened Documents
  import opened Store

  /** `setSize(500)`: the most hits one search returns. */
  const MAX_HITS: nat := 500
  const NULL_METRIC_NAME_MESSAGE: string := "trying to insert metric discovery without a metricName"
  const ILLEGAL_QUERY_PREFIX: string := "Illegal query: "

  /** The tenant and metric name of a metric; the name may be null. */
  datatype Locator = Locator(tenantId: string, metricName: Option<string>)

  /** The parts of a `Metric` that discovery reads: its locator, its unit (may be null) and its data type. */
  datatype Metric = Metric(locator: Locator, unit: Option<string>, dataType: string)

  /** `SearchResult(tenantId, metricName, unit)`; each part is null when the hit's source lacks it. */
  datatype SearchResult = SearchResult(tenantId: Option<string>, metricName: Option<string>, unit: Option<string>)

  /** The exceptions thrown: `IllegalArgumentException` and the plain `Exception` of an illegal query. */
  datatype Error = IllegalArgument(message: string) | IllegalQuery(message: string)

  // ---------------------------------------------------------------------------------------------
  // Ingest

  /** The annotation `insertDiscovery` attaches to a metric's document. */
  function AnnotationFor(m: Metric): (info: map<string, string>)
    ensures UNIT in info <==> m.unit.Some?
    ensures m.unit.Some? ==> info[UNIT] == m.unit.value
    ensures TYPE in info && info[TYPE] == m.dataType
    ensures info.Keys <= {UNIT, TYPE}
  {
    (if m.unit.Some? then map[UNIT := m.unit.value] else map[])[TYPE := m.dataType]
  }

  /** `req` indexes the document of locator (tenantId, metricName) carrying `annotation`. */
  predicate IsRequestForDiscovery(tenantId: string, metricName: string, annotation: map<string, string>, req: IndexRequest)
  {
    && req.index == INDEX_NAME
    && req.docType == ES_TYPE
    && req.id == DocumentId(tenantId, Some(metricName))
    && req.routing == tenantId
    && |req.source| >= 2
    && req.source[0] == Field(TENANT_ID, tenantId)
    && req.source[1] == Field(METRIC_NAME, metricName)
    && Enumerates(req.source[2..], annotation)
  }

  predicate IsRequestFor(m: Metric, req: IndexRequest)
  {
    m.locator.metricName.Some? &&
    IsRequestForDiscovery(m.locator.tenantId, m.locator.metricName.value, AnnotationFor(m), req)
  }

  predicate AllNamed(batch: seq<Metric>)
  {
    forall j :: 0 <= j < |batch| ==> batch[j].locator.metricName.Some?
  }

  /** The document stored for a metric, as a search hit reads it back. */
  function ExpectedDoc(m: Metric): Doc
    requires m.locator.metricName.Some?
  {
    var t := m.locator.tenantId;
    Doc(t, map[TENANT_ID := t, METRIC_NAME := m.locator.metricName.value] + AnnotationFor(m))
  }

  /** The documents a batch writes, by document id; a later metric with the same locator wins. */
  function Written(batch: seq<Metric>): map<string, Doc>
    requires AllNamed(batch)
    decreases |batch|
  {
    if batch == [] then map[]
    else
      var m := batch[|batch| - 1];
      Written(batch[..|batch| - 1])[DocumentId(m.locator.tenantId, m.locator.metricName) := ExpectedDoc(m)]
  }

  /** An index request built for a metric stores that metric's expected document under its id. */
  lemma RequestStoresExpectedDoc(m: Metric, req: IndexRequest)
    requires IsRequestFor(m, req)
    ensures req.id == DocumentId(m.locator.tenantId, m.locator.metricName)
    ensures DocOf(req) == ExpectedDoc(m)
  {
    var t, n := m.locator.tenantId, m.locator.metricName.value;
    assert req.source == [Field(TENANT_ID, t), Field(METRIC_NAME, n)] + req.source[2..];
    SourceContentToMap(t, n, req.source[2..], AnnotationFor(m));
  }

  /** Executing the bulk built for a batch writes exactly the batch's documents over the store. */
  lemma BulkWritesBatch(docs: map<string, Doc>, batch: seq<Metric>, bulk: seq<IndexRequest>)
    requires |bulk| == |batch|
    requires forall i :: 0 <= i < |batch| ==> IsRequestFor(batch[i], bulk[i])
    ensures AllNamed(batch)
    ensures ApplyBulk(docs, bulk) == docs + Written(batch)
  {
    forall i | 0 <= i < |batch| ensures Stores(batch[i], bulk[i]) {
      RequestStoresExpectedDoc(batch[i], bulk[i]);
    }
    BulkWritesPrefix(docs, batch, bulk, |batch|);
    assert batch[..|batch|] == batch && bulk[..|bulk|] == bulk;
  }

  /** `req` writes the expected document of `m` under the id of its locator. */
  predicate Stores(m: Metric, req: IndexRequest)
  {
    m.locator.metricName.Some? &&
    req.id == DocumentId(m.locator.tenantId, m.locator.metricName) && DocOf(req) == ExpectedDoc(m)
  }

  lemma {:induction false} BulkWritesPrefix(docs: map<string, Doc>, batch: seq<Metric>, bulk: seq<IndexRequest>, k: nat)
    requires |bulk| == |batch| && k <= |batch|
    requires forall i {:trigger Stores(batch[i], bulk[i])} :: 0 <= i < |batch| ==> Stores(batch[i], bulk[i])
    ensures AllNamed(batch[..k])
    ensures ApplyBulk(docs, bulk[..k]) == docs + Written(batch[..k])
    decreases k
  {
    if k == 0 {
      assert batch[..k] == [] && bulk[..k] == [];
    } else {
      BulkWritesPrefix(docs, batch, bulk, k - 1);
      assert Stores(batch[k - 1], bulk[k - 1]);
      PrefixSnoc(batch, k);
      PrefixSnoc(bulk, k);
      BulkWritesStep(docs, batch[..k - 1], bulk[..k - 1], batch[k - 1], bulk[k - 1]);
    }
  }

  lemma PrefixSnoc<T>(s: seq<T>, k: nat)
    requires 0 < k <= |s|
    ensures s[..k] == s[..k - 1] + [s[k - 1]]
  {
  }

  /** One more request, storing one more metric's document, writes that document over the rest. */
  lemma BulkWritesStep(docs: map<string, Doc>, batch: seq<Metric>, bulk: seq<IndexRequest>, m: Metric, req: IndexRequest)
    requires AllNamed(batch) && ApplyBulk(docs, bulk) == docs + Written(batch)
    requires Stores(m, req)
    ensures AllNamed(batch + [m])
    ensures ApplyBulk(docs, bulk + [req]) == docs + Written(batch + [m])
  {
    assert (bulk + [req])[..|bulk|] == bulk;
    assert (batch + [m])[..|batch|] == batch;
    assert AllNamed(batch + [m]) by {
      assert forall j :: 0 <= j < |batch| ==> (batch + [m])[j] == batch[j];
    }
    var id := DocumentId(m.locator.tenantId, m.locator.metricName);
    calc {
      ApplyBulk(docs, bulk + [req]);
      ApplyBulk(docs, bulk)[id := DocOf(req)];
      (docs + Written(batch))[id := ExpectedDoc(m)];
      { UpdateOverride(docs, Written(batch), id, ExpectedDoc(m)); }
      docs + Written(batch)[id := ExpectedDoc(m)];
    }
  }

  lemma UpdateOverride<K, V>(a: map<K, V>, b: map<K, V>, k: K, v: V)
    ensures (a + b)[k := v] == a + b[k := v]
  {
  }

  /**
   * Inserting the same locator twice, in one batch or in two, leaves one document for it,
   * holding the later metric's annotations; no other document changes.
   */
  lemma ReinsertKeepsLatest(docs: map<string, Doc>, m1: Metric, m2: Metric)
    requires m1.locator == m2.locator && m1.locator.metricName.Some?
    ensures AllNamed([m1, m2])
    ensures docs + Written([m1, m2]) == (docs + Written([m1])) + Written([m2])
         == docs[DocumentId(m2.locator.tenantId, m2.locator.metricName) := ExpectedDoc(m2)]
  {
    assert [m1, m2][..1] == [m1];
  }

  /** Every stored document sits under the id of the locator its source names, routed by its tenant. */
  predicate Consistent(docs: map<string, Doc>)
  {
    forall id :: id in docs ==>
      var s := docs[id].source;
      && TENANT_ID in s && METRIC_NAME in s
      && docs[id].routing == s[TENANT_ID]
      && id == DocumentId(s[TENANT_ID], Some(s[METRIC_NAME]))
  }

  lemma ConsistentUpdate(docs: map<string, Doc>, id: string, doc: Doc)
    requires Consistent(docs)
    requires TENANT_ID in doc.source && METRIC_NAME in doc.source && doc.routing == doc.source[TENANT_ID]
    requires id == DocumentId(doc.source[TENANT_ID], Some(doc.source[METRIC_NAME]))
    ensures Consistent(docs[id := doc])
  {
  }

  /** Inserting a batch keeps the store consistent. */
  lemma {:induction false} InsertKeepsConsistent(docs: map<string, Doc>, batch: seq<Metric>)
    requires Consistent(docs) && AllNamed(batch)
    ensures Consistent(docs + Written(batch))
    decreases |batch|
  {
    if batch != [] {
      var n := |batch| - 1;
      assert AllNamed(batch[..n]) by {
        assert forall i :: 0 <= i < n ==> batch[..n][i] == batch[i];
      }
      InsertKeepsConsistent(docs, batch[..n]);
      var m := batch[n];
      var id := DocumentId(m.locator.tenantId, m.locator.metricName);
      var s := ExpectedDoc(m).source;
      assert TENANT_ID !in AnnotationFor(m) && METRIC_NAME !in AnnotationFor(m);
      assert s[TENANT_ID] == m.locator.tenantId && s[METRIC_NAME] == m.locator.metricName.value;
      UpdateOverride(docs, Written(batch[..n]), id, ExpectedDoc(m));
      ConsistentUpdate(docs + Written(batch[..n]), id, ExpectedDoc(m));
    }
  }

  // ---------------------------------------------------------------------------------------------
  // Search

  /**
   * The guard and query of `search`: a query mentioning TENANT_ID anywhere is illegal; otherwise an
   * exact tenant term AND, on RAW_METRIC_NAME, a wildcard query if the query holds a `*` and an exact
   * term if not, routed by the tenant and capped at MAX_HITS hits.
   */
  function BuildSearch(tenant: string, query: string): (r: Result<SearchRequest, Error>)
    ensures r.Failure? <==> exists j :: OccursAt(query, TENANT_ID, j)
    ensures r.Failure? ==> r.error == IllegalQuery(ILLEGAL_QUERY_PREFIX + query)
    ensures r.Success? ==>
      && r.value.index == INDEX_NAME && r.value.routing == tenant && r.value.size == MAX_HITS && r.value.version
      && r.value.must == [Term(TENANT_ID, tenant),
                          if '*' in query then Wildcard(RAW_METRIC_NAME, query) else Term(RAW_METRIC_NAME, query)]
  {
    ContainsChar(query, '*');
    if IndexOf(query, TENANT_ID) >= 0 then Failure(IllegalQuery(ILLEGAL_QUERY_PREFIX + query))
    else
      var name := if Contains(query, "*") then Wildcard(RAW_METRIC_NAME, query) else Term(RAW_METRIC_NAME, query);
      Success(SearchRequest(INDEX_NAME, tenant, MAX_HITS, true, [Term(TENANT_ID, tenant), name]))
  }

  function Get(source: map<string, string>, key: string): Option<string>
  {
    if key in source then Some(source[key]) else None
  }

  /**
   * `convertHitToMetricDiscoveryResult`: copies TENANT_ID, METRIC_NAME and UNIT from the hit's source,
   * null for a field the source lacks; every other field of the source is dropped.
   */
  function ConvertHit(source: map<string, string>): (r: SearchResult)
    ensures r.tenantId.Some? <==> TENANT_ID in source
    ensures r.metricName.Some? <==> METRIC_NAME in source
    ensures r.unit.Some? <==> UNIT in source
    ensures r.tenantId.Some? ==> r.tenantId.value == source[TENANT_ID]
    ensures r.metricName.Some? ==> r.metricName.value == source[METRIC_NAME]
    ensures r.unit.Some? ==> r.unit.value == source[UNIT]
  {
    SearchResult(Get(source, TENANT_ID), Get(source, METRIC_NAME), Get(source, UNIT))
  }

  /** Reading back a metric's document gives its tenant, its metric name and its unit (null if it had none). */
  lemma WriteReadRoundTrip(m: Metric)
    requires m.locator.metricName.Some?
    ensures ConvertHit(ExpectedDoc(m).source) == SearchResult(Some(m.locator.tenantId), m.locator.metricName, m.unit)
  {
    var s := ExpectedDoc(m).source;
    assert TENANT_ID !in AnnotationFor(m) && METRIC_NAME !in AnnotationFor(m);
    assert UNIT != TENANT_ID && UNIT != METRIC_NAME;
  }

  /** Every document a tenant's search matches carries that tenant in its TENANT_ID field. */
  lemma SearchIsolation(docs: map<string, Doc>, e: Engine, tenant: string, query: string, id: string)
    requires BuildSearch(tenant, query).Success?
    requires id in MatchingIds(docs, BuildSearch(tenant, query).value, e)
    ensures TENANT_ID in docs[id].source && docs[id].source[TENANT_ID] == tenant
  {
    var req := BuildSearch(tenant, query).value;
    assert LeafMatches(req.must[0], docs[id], e);
  }

  /** A document whose TENANT_ID is another tenant's is never matched, whatever the query. */
  lemma NoCrossTenantMatch(docs: map<string, Doc>, e: Engine, tenant: string, other: string, query: string, id: string)
    requires tenant != other && BuildSearch(tenant, query).Success?
    requires id in docs && TENANT_ID in docs[id].source && docs[id].source[TENANT_ID] == other
    ensures id !in MatchingIds(docs, BuildSearch(tenant, query).value, e)
  {
    if id in MatchingIds(docs, BuildSearch(tenant, query).value, e) {
      SearchIsolation(docs, e, tenant, query, id);
    }
  }

  /** A query with a `*` matches only documents whose metric name the engine's wildcard accepts. */
  lemma WildcardSearchMatches(docs: map<string, Doc>, e: Engine, tenant: string, query: string, id: string)
    requires BuildSearch(tenant, query).Success? && '*' in query
    requires id in MatchingIds(docs, BuildSearch(tenant, query).value, e)
    ensures METRIC_NAME in docs[id].source && e.wildcardMatch(docs[id].source[METRIC_NAME], query)
  {
    var req := BuildSearch(tenant, query).value;
    assert LeafMatches(req.must[1], docs[id], e);
  }

  /**
   * Conversely, in a consistent store a query with `*` matches every document of the tenant whose
   * metric name the engine's wildcard accepts.
   */
  lemma WildcardSearchFindsAccepted(docs: map<string, Doc>, e: Engine, tenant: string, query: string, id: string)
    requires Consistent(docs) && BuildSearch(tenant, query).Success? && '*' in query
    requires id in docs && TENANT_ID in docs[id].source && docs[id].source[TENANT_ID] == tenant
    requires METRIC_NAME in docs[id].source && e.wildcardMatch(docs[id].source[METRIC_NAME], query)
    ensures id in MatchingIds(docs, BuildSearch(tenant, query).value, e)
  {
    var req := BuildSearch(tenant, query).value;
    assert forall leaf <- req.must :: LeafMatches(leaf, docs[id], e);
  }

  /**
   * In a consistent store a query without `*` matches at most the one document of the locator
   * (tenant, query): the only id it can match is that locator's document id.
   */
  lemma ExactSearchMatchesOneLocator(docs: map<string, Doc>, e: Engine, tenant: string, query: string)
    requires Consistent(docs) && BuildSearch(tenant, query).Success? && '*' !in query
    ensures MatchingIds(docs, BuildSearch(tenant, query).value, e) <= {DocumentId(tenant, Some(query))}
  {
    var req := BuildSearch(tenant, query).value;
    forall id | id in MatchingIds(docs, req, e) ensures id == DocumentId(tenant, Some(query)) {
      assert LeafMatches(req.must[0], docs[id], e);
      assert LeafMatches(req.must[1], docs[id], e);
    }
  }

  /** So an exact search answers zero hits or one, and that hit's metric name is the query. */
  lemma ExactSearchAnswersAtMostOne(docs: map<string, Doc>, e: Engine, tenant: string, query: string, hits: seq<Hit>)
    requires Consistent(docs) && BuildSearch(tenant, query).Success? && '*' !in query
    requires IsResponse(docs, BuildSearch(tenant, query).value, e, hits)
    ensures |hits| <= 1
    ensures forall i :: 0 <= i < |hits| ==> ConvertHit(hits[i].source).metricName == Some(query)
  {
    var req := BuildSearch(tenant, query).value;
    ExactSearchMatchesOneLocator(docs, e, tenant, query);
    DistinctIdsCount(hits);
    assert HitIds(hits) <= {DocumentId(tenant, Some(query))} by {
      forall id | id in HitIds(hits) ensures id in MatchingIds(docs, req, e) {
        var i :| 0 <= i < |hits| && hits[i].id == id;
      }
    }
    SubsetCount(HitIds(hits), {DocumentId(tenant, Some(query))});
    forall i | 0 <= i < |hits| ensures ConvertHit(hits[i].source).metricName == Some(query) {
      assert LeafMatches(req.must[1], docs[hits[i].id], e);
    }
  }

  /** A stored metric is matched by its tenant's exact search for its name (one without `*`). */
  lemma ExactSearchFindsStored(docs: map<string, Doc>, e: Engine, m: Metric)
    requires m.locator.metricName.Some?
    requires BuildSearch(m.locator.tenantId, m.locator.metricName.value).Success?
    requires '*' !in m.locator.metricName.value
    requires DocumentId(m.locator.tenantId, m.locator.metricName) in docs
    requires docs[DocumentId(m.locator.tenantId, m.locator.metricName)] == ExpectedDoc(m)
    ensures DocumentId(m.locator.tenantId, m.locator.metricName)
         in MatchingIds(docs, BuildSearch(m.locator.tenantId, m.locator.metricName.value).value, e)
  {
    var t, n := m.locator.tenantId, m.locator.metricName.value;
    var req := BuildSearch(t, n).value;
    var doc := ExpectedDoc(m);
    assert TENANT_ID !in AnnotationFor(m) && METRIC_NAME !in AnnotationFor(m);
    assert forall leaf <- req.must :: LeafMatches(leaf, doc, e);
  }

  // ---------------------------------------------------------------------------------------------
  // The client-facing object

  class ElasticIO {
    const client: Store

    constructor (client: Store)
      ensures this.client == client
    {
      this.client := client;
    }

    /** `createSingleRequest`: rejects a null metric name, else indexes the discovery routed by its tenant. */
    method CreateSingleRequest(md: Discovery) returns (r: Result<IndexRequest, Error>)
      ensures md.metricName.None? <==> r.Failure?
      ensures r.Failure? ==> r.error == IllegalArgument(NULL_METRIC_NAME_MESSAGE)
      ensures r.Success? ==> IsRequestForDiscovery(md.tenantId, md.metricName.value, md.annotation, r.value)
    {
      if md.metricName.None? {
        return Failure(IllegalArgument(NULL_METRIC_NAME_MESSAGE));
      }
      var source := md.CreateSourceContent();
      r := Success(IndexRequest(INDEX_NAME, ES_TYPE, DocumentId(md.tenantId, md.metricName), md.tenantId, source));
    }

    /**
     * `insertDiscovery`: one index request per metric, in batch order, sent as one bulk. A metric
     * without a name aborts the call before the bulk is sent.
     */
    method InsertDiscovery(batch: seq<Metric>) returns (r: Outcome<Error>, ghost bulk: seq<IndexRequest>)
      modifies client
      ensures r.Fail? <==> !AllNamed(batch)
      ensures r.Fail? ==> r.error == IllegalArgument(NULL_METRIC_NAME_MESSAGE) && client.docs == old(client.docs)
      ensures r.Pass? ==> |bulk| == |batch| && forall i :: 0 <= i < |batch| ==> IsRequestFor(batch[i], bulk[i])
      ensures r.Pass? ==> client.docs == ApplyBulk(old(client.docs), bulk) == old(client.docs) + Written(batch)
    {
      var requests: seq<IndexRequest> := [];
      for i := 0 to |batch|
        invariant client.docs == old(client.docs)
        invariant |requests| == i
        invariant forall j :: 0 <= j < i ==> IsRequestFor(batch[j], requests[j])
      {
        var metric := batch[i];
        var md := new Discovery(metric.locator.tenantId, metric.locator.metricName);
        var info: map<string, string> := map[];
        if metric.unit.Some? {
          info := info[UNIT := metric.unit.value];
        }
        info := info[TYPE := metric.dataType];
        md := md.WithAnnotation(info);
        var request := CreateSingleRequest(md);
        if request.Failure? {
          return Fail(request.error), [];
        }
        assert info == AnnotationFor(metric);
        requests := requests + [request.value];
      }
      BulkWritesBatch(client.docs, batch, requests);
      client.ExecuteBulk(requests);
      r, bulk := Pass, requests;
    }

    /**
     * `search`: refuses an illegal query, otherwise runs the tenant's search and converts each hit,
     * in order. Every result belongs to the tenant asked for.
     */
    method Search(tenant: string, query: string) returns (r: Result<seq<SearchResult>, Error>, ghost hits: seq<Hit>)
      ensures r.Failure? <==> exists j :: OccursAt(query, TENANT_ID, j)
      ensures r.Failure? ==> r.error == IllegalQuery(ILLEGAL_QUERY_PREFIX + query)
      ensures r.Success? ==> IsResponse(client.docs, BuildSearch(tenant, query).value, client.engine, hits)
      ensures r.Success? ==> |r.value| == |hits| <= MAX_HITS
      ensures r.Success? ==> forall i :: 0 <= i < |hits| ==> r.value[i] == ConvertHit(hits[i].source)
      ensures r.Success? ==> forall i :: 0 <= i < |r.value| ==> r.value[i].tenantId == Some(tenant)
    {
      var request := BuildSearch(tenant, query);
      if request.Failure? {
        return Failure(request.error), [];
      }
      var response := client.ExecuteSearch(request.value);
      var results: seq<SearchResult> := [];
      for i := 0 to |response|
        invariant |results| == i
        invariant forall j :: 0 <= j < i ==> results[j] == ConvertHit(response[j].source)
        invariant forall j :: 0 <= j < i ==> results[j].tenantId == Some(tenant)
      {
        SearchIsolation(client.docs, client.engine, tenant, query, response[i].id);
        results := results + [ConvertHit(response[i].source)];
      }
      r, hits := Success(results), response;
    }
  }
}
