/**
 * The names ElasticIO writes and queries, and the shape of a document source: an ordered list of
 * key/value fields (the JSON object built with XContentBuilder) and the map a reader sees once the
 * object is parsed back.
 */
module Schema {

  /** `ElasticIO.INDEX_NAME`. */
  const INDEX_NAME: string := "metric_metadata"
  /** `ElasticIO.ES_TYPE`, the document type of every index request. */
  const ES_TYPE: string := "metrics"

  /** The `ESFieldLabel` constants; `toString()` and `name()` of an enum constant are its name. */
  const METRIC_NAME: string := "METRIC_NAME"
  const TENANT_ID: string := "TENANT_ID"
  const TYPE: string := "TYPE"
  const UNIT: string := "UNIT"

  /** The field the search queries for the metric name; the index mapping fills it from METRIC_NAME. */
  const RAW_METRIC_NAME: string := "RAW_METRIC_NAME"

  /** One `json.field(key, value)` call. */
  datatype Field = Field(key: string, value: string)

  function KeysOf(fields: seq<Field>): set<string>
  {
    set i | 0 <= i < |fields| :: fields[i].key
  }

  /** No later field has the same key as field `i`. */
  predicate LastWithKey(fields: seq<Field>, i: int)
    requires 0 <= i < |fields|
  {
    forall j :: i < j < |fields| ==> fields[j].key != fields[i].key
  }

  /** The map a JSON reader builds from the fields of an object: a repeated key keeps its last value. */
  function ToMap(fields: seq<Field>): map<string, string>
    decreases |fields|
  {
    if fields == [] then map[] else ToMap(fields[..|fields| - 1])[fields[|fields| - 1].key := fields[|fields| - 1].value]
  }

  lemma KeysOfSnoc(init: seq<Field>, f: Field)
    ensures KeysOf(init + [f]) == KeysOf(init) + {f.key}
  {
    var fields := init + [f];
    forall k | k in KeysOf(fields) ensures k in KeysOf(init) + {f.key} {
      var i :| 0 <= i < |fields| && fields[i].key == k;
      if i < |init| { assert init[i] == fields[i]; }
    }
    forall k | k in KeysOf(init) ensures k in KeysOf(fields) {
      var i :| 0 <= i < |init| && init[i].key == k;
      assert fields[i] == init[i];
    }
    assert fields[|init|] == f;
  }

  /** The parsed object has exactly the keys written, and each holds the value of its last field. */
  lemma {:induction false} ToMapLastWins(fields: seq<Field>)
    ensures ToMap(fields).Keys == KeysOf(fields)
    ensures forall i :: 0 <= i < |fields| && LastWithKey(fields, i) ==> ToMap(fields)[fields[i].key] == fields[i].value
    decreases |fields|
  {
    if fields != [] {
      var init, f := fields[..|fields| - 1], fields[|fields| - 1];
      assert fields == init + [f];
      ToMapLastWins(init);
      KeysOfSnoc(init, f);
      forall i | 0 <= i < |fields| - 1 && LastWithKey(fields, i)
        ensures ToMap(fields)[fields[i].key] == fields[i].value
      {
        assert fields[i] == init[i];
        assert LastWithKey(init, i);
      }
    }
  }

  lemma {:induction false} ToMapAppend(a: seq<Field>, b: seq<Field>)
    ensures ToMap(a + b) == ToMap(a) + ToMap(b)
    decreases |b|
  {
    if b != [] {
      var b', f := b[..|b| - 1], b[|b| - 1];
      assert (a + b)[..|a + b| - 1] == a + b';
      ToMapAppend(a, b');
    } else {
      assert a + b == a;
    }
  }

  /** No key occurs twice among the fields. */
  predicate DistinctKeys(fields: seq<Field>)
  {
    forall i, j :: 0 <= i < j < |fields| ==> fields[i].key != fields[j].key
  }

  /** `entries` visits every entry of `m` exactly once, in some order (a `HashMap`'s `entrySet()`). */
  predicate Enumerates(entries: seq<Field>, m: map<string, string>)
  {
    && DistinctKeys(entries)
    && KeysOf(entries) == m.Keys
    && forall i :: 0 <= i < |entries| ==> entries[i].key in m && m[entries[i].key] == entries[i].value
  }

  /** Writing out every entry of a map and reading the object back gives the map again. */
  lemma EnumeratesToMap(entries: seq<Field>, m: map<string, string>)
    requires Enumerates(entries, m)
    ensures ToMap(entries) == m
  {
    var r := ToMap(entries);
    ToMapLastWins(entries);
    forall k | k in m ensures r[k] == m[k] {
      var i :| 0 <= i < |entries| && entries[i].key == k;
      assert LastWithKey(entries, i);
    }
  }

  /** Visiting one more entry, with a key not seen before, enumerates the map extended by it. */
  lemma EnumeratesSnoc(entries: seq<Field>, m: map<string, string>, k: string, v: string)
    requires Enumerates(entries, m) && k !in m
    ensures Enumerates(entries + [Field(k, v)], m[k := v])
  {
    KeysOfSnoc(entries, Field(k, v));
    var e := entries + [Field(k, v)];
    forall i | 0 <= i < |entries| ensures e[i] == entries[i] && entries[i].key in m {
      assert entries[i].key in KeysOf(entries);
    }
  }
}
