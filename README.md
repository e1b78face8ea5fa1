# Blueflood metric discovery on Elasticsearch — a Dafny model of `ElasticIO`

Blueflood records every metric it ingests in an Elasticsearch index named `metric_metadata`, so that
clients can later discover metric names per tenant. `ElasticIO` is the class that does this:

- **Documents.** A `Discovery` pairs a tenant id with a metric name and carries an annotation map.
  Its document id is `tenantId + ":" + metricName`. Its source is an ordered list of JSON fields:
  `TENANT_ID`, then `METRIC_NAME`, then one field per annotation entry.
- **Ingest.** `insertDiscovery` turns each metric of a batch into one index request and sends them
  all as one bulk. Each request targets index `metric_metadata`, type `metrics`, the document id, and
  the tenant as routing value. Its annotation holds `UNIT` when the metric has a unit, and always `TYPE`.
  `createSingleRequest` throws `IllegalArgumentException` for a null metric name. The bulk is then never sent.
- **Search.** `search(tenant, query)` rejects any query that mentions `TENANT_ID`. Otherwise it asks
  for an exact `TENANT_ID` term AND, on `RAW_METRIC_NAME`, a wildcard query if the query contains `*`,
  or an exact term if not. The search is routed by the tenant and capped at 500 hits. Each hit becomes
  a `SearchResult` made of the hit's `TENANT_ID`, `METRIC_NAME` and `UNIT` fields.

Elasticsearch itself is modelled as an abstract store (`Store.Store`). It keeps a map from document id
to document. A bulk is a sequence of upserts. A search returns at most `size` distinct matching
documents, and all of them when fewer match. Two parts of the engine stay uninterpreted, as functions
in `Store.Engine`: how a wildcard pattern matches a name, and which shard a routing value selects.

Files: `wrappers.dfy` (Option, Result, Outcome), `text.dfy` (`String.indexOf` / `contains`),
`schema.dfy` (names, fields and the parsed view of a source), `discovery.dfy` (`Discovery`),
`store.dfy` (the backing store), `elastic_io.dfy` (`ElasticIO` and the properties that span it).

Modelling choices:

- A Java `null` string is `None`. Java string concatenation renders `null` as `"null"` (`JavaText`).
- Field labels are the `ESFieldLabel` enum names, because `toString()`/`name()` of an enum constant
  return its name. So the source's keys are `TENANT_ID` and `METRIC_NAME`. An old, commented-out test
  expected `tenantId` and `metric_name`. The model follows the code.
- `HashMap` iteration order is unspecified. `CreateSourceContent` takes the annotation keys in an
  arbitrary order (`:|`). Its contract says each entry is written exactly once, in some order.
- A stored source is read back as a parsed JSON object. A repeated key keeps its last value (`Schema.ToMap`).
- Queries match `RAW_METRIC_NAME`, but no document writes that field. The model assumes that the
  index mapping fills it from `METRIC_NAME` (`Store.IndexedValue`). The mapping file is not part of this model.
- The data type annotation is held as the text it is written as in the JSON source.
- The glob syntax in the tests (`?`, `[..]`, `{..}`) is not implemented by `search`. Such patterns
  contain no `*`, so the code sends them as exact term queries. The model does the same.
- The `Discovery` constructor accepts a null metric name. Only `createSingleRequest` rejects it.
  One test expects the constructor to throw; the code does not, and the model follows the code.
- The index name is the constant `metric_metadata` for both writes and searches. The model has no
  separate read and write index names, because `ElasticIO` has none.

## Model

| member | source | states |
|---|---|---|
| `Text.IndexOf` | blueflood-elasticsearch/src/main/java/com/rackspacecloud/blueflood/io/ElasticIO.java:117 | the index of the first occurrence of the pattern, with none earlier, or -1 exactly when it occurs nowhere |
| `Text.Contains` | blueflood-elasticsearch/src/main/java/com/rackspacecloud/blueflood/io/ElasticIO.java:128 | true exactly when the pattern occurs at some index |
| `Text.ContainsChar` | blueflood-elasticsearch/src/main/java/com/rackspacecloud/blueflood/io/ElasticIO.java:128 | `contains("*")` holds exactly when the character `*` is in the query |
| `Schema.ToMapLastWins` | blueflood-elasticsearch/src/main/java/com/rackspacecloud/blueflood/io/ElasticIO.java:79 | a parsed source has exactly the keys written, each with the value of its last field |
| `Schema.EnumeratesToMap` | blueflood-elasticsearch/src/main/java/com/rackspacecloud/blueflood/io/ElasticIO.java:192-194 | writing every annotation entry once, in any order, and parsing the result gives back the annotation map |
| `Documents.DocumentId` | blueflood-elasticsearch/src/main/java/com/rackspacecloud/blueflood/io/ElasticIO.java:169-171 | the id is the tenant, a colon and the metric name ("null" when there is none); when the tenant has no colon the first colon of the id ends the tenant and the rest is the metric name |
| `Documents.DocumentIdInjective` | blueflood-elasticsearch/src/main/java/com/rackspacecloud/blueflood/io/ElasticIO.java:169-171 | for tenants without a colon, two locators share a document id iff they have the same tenant and the same metric name |
| `Documents.DocumentIdAmbiguousWithColon` | blueflood-elasticsearch/src/main/java/com/rackspacecloud/blueflood/io/ElasticIO.java:169-171 | with a colon in the tenant id, two different locators can get one document id |
| `Documents.SourceContentToMap` | blueflood-elasticsearch/src/main/java/com/rackspacecloud/blueflood/io/ElasticIO.java:184-197 | the parsed source is the TENANT_ID and METRIC_NAME fields, overridden by any annotation of the same key |
| `Documents.Discovery.constructor` | blueflood-elasticsearch/src/main/java/com/rackspacecloud/blueflood/io/ElasticIO.java:149-156 | keeps tenant and metric name as given (a null name included) with an empty annotation |
| `Documents.Discovery.WithAnnotation` | blueflood-elasticsearch/src/main/java/com/rackspacecloud/blueflood/io/ElasticIO.java:179-182 | replaces the annotation map and returns the same object |
| `Documents.Discovery.CreateSourceContent` | blueflood-elasticsearch/src/main/java/com/rackspacecloud/blueflood/io/ElasticIO.java:184-197 | the source starts with TENANT_ID = tenant and METRIC_NAME = name, then lists every annotation entry exactly once with its value |
| `Store.ApplyBulkOverrides` | blueflood-elasticsearch/src/main/java/com/rackspacecloud/blueflood/io/ElasticIO.java:102 | executing a bulk overrides the store with the documents it writes, the later of two writes to one id winning |
| `Store.ApplyBulkIdempotent` | blueflood-elasticsearch/src/main/java/com/rackspacecloud/blueflood/io/ElasticIO.java:102 | executing the same bulk twice leaves the store as executing it once |
| `Store.ResponseSize` | blueflood-elasticsearch/src/main/java/com/rackspacecloud/blueflood/io/ElasticIO.java:132-138 | a search answers min(size cap, number of matching documents) hits |
| `Store.Store.ExecuteBulk` | blueflood-elasticsearch/src/main/java/com/rackspacecloud/blueflood/io/ElasticIO.java:102 | the store afterwards is the old store with every request applied, in order, as an upsert by id |
| `Store.Store.ExecuteSearch` | blueflood-elasticsearch/src/main/java/com/rackspacecloud/blueflood/io/ElasticIO.java:132-138 | returns at most `size` distinct matching documents with their sources, and all matching documents when fewer than `size` |
| `ElasticIO.AnnotationFor` | blueflood-elasticsearch/src/main/java/com/rackspacecloud/blueflood/io/ElasticIO.java:94-99 | UNIT is present iff the unit is non-null and then holds it; TYPE is always present and holds the data type; there are no other keys |
| `ElasticIO.RequestStoresExpectedDoc` | blueflood-elasticsearch/src/main/java/com/rackspacecloud/blueflood/io/ElasticIO.java:105-113 | a request built for a metric stores, under the locator's document id, the tenant, the metric name and the metric's annotation |
| `ElasticIO.BulkWritesBatch` | blueflood-elasticsearch/src/main/java/com/rackspacecloud/blueflood/io/ElasticIO.java:88-102 | executing the bulk built for a batch writes exactly the batch's documents over the store, one per locator, the last metric of a locator winning |
| `ElasticIO.ReinsertKeepsLatest` | blueflood-elasticsearch/src/main/java/com/rackspacecloud/blueflood/io/ElasticIO.java:88-102 | inserting the same locator twice, in one batch or two, leaves one document holding the later annotation, and changes nothing else |
| `ElasticIO.InsertKeepsConsistent` | blueflood-elasticsearch/src/main/java/com/rackspacecloud/blueflood/io/ElasticIO.java:105-113 | after an insert every document still sits under the id of the locator its source names, routed by its tenant |
| `ElasticIO.BuildSearch` | blueflood-elasticsearch/src/main/java/com/rackspacecloud/blueflood/io/ElasticIO.java:115-138 | fails with "Illegal query: " + query iff the query contains TENANT_ID; otherwise tenant term AND (wildcard if the query has `*`, else term) on RAW_METRIC_NAME, routed by tenant, index metric_metadata, 500 hits |
| `ElasticIO.ConvertHit` | blueflood-elasticsearch/src/main/java/com/rackspacecloud/blueflood/io/ElasticIO.java:78-86 | each of tenant, metric name and unit is null exactly when the hit's source lacks that field, and otherwise holds its value; no other field is read |
| `ElasticIO.WriteReadRoundTrip` | blueflood-elasticsearch/src/main/java/com/rackspacecloud/blueflood/io/ElasticIO.java:78-86 | converting a stored metric's document gives its tenant, its metric name and its unit (null when it had none) |
| `ElasticIO.SearchIsolation` | blueflood-elasticsearch/src/main/java/com/rackspacecloud/blueflood/io/ElasticIO.java:125-126 | every document a tenant's search matches has that tenant in TENANT_ID |
| `ElasticIO.NoCrossTenantMatch` | blueflood-elasticsearch/src/main/java/com/rackspacecloud/blueflood/io/ElasticIO.java:125-133 | a document of another tenant is never matched, whatever the query and whatever shard routing selects |
| `ElasticIO.WildcardSearchMatches` | blueflood-elasticsearch/src/main/java/com/rackspacecloud/blueflood/io/ElasticIO.java:127-129 | a query with `*` matches only documents whose metric name the engine's wildcard accepts |
| `ElasticIO.WildcardSearchFindsAccepted` | blueflood-elasticsearch/src/main/java/com/rackspacecloud/blueflood/io/ElasticIO.java:125-133 | conversely, in a consistent store a query with `*` matches every document of the tenant whose metric name the engine's wildcard accepts |
| `ElasticIO.ExactSearchMatchesOneLocator` | blueflood-elasticsearch/src/main/java/com/rackspacecloud/blueflood/io/ElasticIO.java:127-130 | in a consistent store a query without `*` can match only the document of locator (tenant, query) |
| `ElasticIO.ExactSearchAnswersAtMostOne` | blueflood-elasticsearch/src/main/java/com/rackspacecloud/blueflood/io/ElasticIO.java:125-138 | so an exact search answers at most one hit, and its metric name is the query |
| `ElasticIO.ExactSearchFindsStored` | blueflood-elasticsearch/src/main/java/com/rackspacecloud/blueflood/io/ElasticIO.java:125-130 | a stored metric is matched by its tenant's exact search for its name |
| `ElasticIO.ElasticIO.constructor` | blueflood-elasticsearch/src/main/java/com/rackspacecloud/blueflood/io/ElasticIO.java:70-72 | keeps the given client |
| `ElasticIO.ElasticIO.CreateSingleRequest` | blueflood-elasticsearch/src/main/java/com/rackspacecloud/blueflood/io/ElasticIO.java:105-113 | fails with IllegalArgumentException iff the metric name is null; otherwise index metric_metadata, type metrics, id = document id, routing = tenant, source as built |
| `ElasticIO.ElasticIO.InsertDiscovery` | blueflood-elasticsearch/src/main/java/com/rackspacecloud/blueflood/io/ElasticIO.java:88-103 | fails iff some metric has a null name, leaving the store unchanged; otherwise one request per metric in batch order, executed as one bulk (an empty batch passes; see Left out) |
| `ElasticIO.ElasticIO.Search` | blueflood-elasticsearch/src/main/java/com/rackspacecloud/blueflood/io/ElasticIO.java:115-145 | rejects queries containing TENANT_ID; otherwise returns one converted result per hit of a valid response, in order, at most 500, each with the asked tenant |

## Left out

- The Elasticsearch client calls (`prepareBulk`, `prepareIndex`, `prepareSearch`, `execute().actionGet()`) are replaced by `Store.Store`. The constructors that obtain a `Client` (`ElasticIO()`, `ElasticIO(ElasticClientManager)`) are left out; the model has only the constructor that is given its client.
- The store does not model a bulk that fails in part or as a whole. `insertDiscovery` does not check the bulk result either (it has a TODO for that).
- The store has one index. The index name of a request is checked by the contracts but not used to address documents, because `ElasticIO` only ever uses `metric_metadata`.
- Elasticsearch's wildcard semantics and shard selection are uninterpreted functions (`Store.Engine`). Which 500 documents come back when more match, and in what order, is left open.
- JSON encoding by `XContentBuilder` is modelled as an ordered list of key/value fields. Parsing back is modelled as a map.
- The search timer, the logger and `Discovery.toString()` only produce telemetry or debugging text.
- Visibility delay between a write and a later search is a property of the store, not of this code.
- A null query string is not modelled: the query is a non-null string. In Java, `search` throws a `NullPointerException` on it at `query.indexOf` (ElasticIO.java:117).
- A null tenant id is not modelled: the tenant id is a non-null string. In Java nothing in `ElasticIO` rejects it. The document id becomes `"null:<name>"` (line 170), and the null is passed on as the routing (lines 112 and 133), as the TENANT_ID field (line 188) and as the term of the tenant query (line 126).
- `InsertDiscovery`: an empty batch passes with the store unchanged. In Java, the Elasticsearch client rejects a bulk with no requests at `bulk.execute().actionGet()` (line 102), so `insertDiscovery` throws. Validation inside the client is not part of this model.
- `Documents.Discovery.WithAnnotation`: the annotation is held as a value. In Java the `Discovery` keeps the caller's `HashMap` by reference (line 180), and `getAnnotation` returns that live map (lines 157-159). A later change made through either reference is not captured. `insertDiscovery` does not change the map after handing it over (line 99).
- `Store.Store`: documents are keyed by id alone. With custom routing, Elasticsearch keeps ids unique only within a shard. So two locators whose ids collide, as in `Documents.DocumentIdAmbiguousWithColon` (routings `"a:b"` and `"a"`), may both be kept if their routings select different shards, where the model keeps only the later one. Only tenant ids containing a colon are affected.
- Read and write index names set at run time, searching with a list of queries, and building "current and next level" regular expressions are not in `ElasticIO`. They are not part of this model.
