/** `ElasticIO.Discovery`: the document written for one metric locator. */
module Documents {
  import opened Wrappers
  import opened Schema
  import Text

  /** How Java string concatenation renders a possibly-null string. */
  function JavaText(s: Option<string>): string
  {
    if s.Some? then s.value else "null"
  }

  /**
   * `getDocumentId`: the tenant, a colon, then the metric name. When the tenant has no colon the id
   * can be split back: its first colon ends the tenant and the rest is the metric name.
   */
  function DocumentId(tenantId: string, metricName: Option<string>): (id: string)
    ensures ':' !in tenantId ==>
      && Text.IndexOf(id, ":") == |tenantId|
      && id[..|tenantId|] == tenantId
      && id[|tenantId| + 1..] == JavaText(metricName)
  {
    FirstColon(tenantId, JavaText(metricName));
    tenantId + ":" + JavaText(metricName)
  }

  /**
   * For tenants without a colon the document id identifies the locator: two locators get the same
   * id exactly when they have the same tenant and the same metric name.
   */
  lemma DocumentIdInjective(t1: string, n1: string, t2: string, n2: string)
    requires ':' !in t1 && ':' !in t2
    ensures DocumentId(t1, Some(n1)) == DocumentId(t2, Some(n2)) <==> t1 == t2 && n1 == n2
  {
    var id1, id2 := DocumentId(t1, Some(n1)), DocumentId(t2, Some(n2));
    if id1 == id2 {
      assert t1 == id1[..|t1|] == id2[..|t2|] == t2;
      assert n1 == id1[|t1| + 1..] == id2[|t2| + 1..] == n2;
    }
  }

  /** In a tenant, a colon and a name, where the tenant has no colon, the first colon ends the tenant. */
  lemma FirstColon(t: string, n: string)
    ensures ':' !in t ==> Text.IndexOf(t + ":" + n, ":") == |t|
  {
    if ':' !in t {
      var id := t + ":" + n;
      assert id[|t|..|t| + 1] == ":";
      assert Text.OccursAt(id, ":", |t|);
      forall j | 0 <= j < |t| ensures !Text.OccursAt(id, ":", j) {
        assert id[j] == t[j];
        assert id[j..j + 1][0] == id[j];
      }
    }
  }

  /** A colon inside a tenant id lets two different locators share one document id. */
  lemma DocumentIdAmbiguousWithColon()
    ensures DocumentId("a:b", Some("c")) == DocumentId("a", Some("b:c"))
  {
  }

  /** The parsed source of a document: the two identity fields, overridden by any annotation of the same key. */
  lemma {:induction false} SourceContentToMap(tenantId: string, metricName: string, entries: seq<Field>, annotation: map<string, string>)
    requires Enumerates(entries, annotation)
    ensures ToMap([Field(TENANT_ID, tenantId), Field(METRIC_NAME, metricName)] + entries)
         == map[TENANT_ID := tenantId, METRIC_NAME := metricName] + annotation
  {
    var head := [Field(TENANT_ID, tenantId), Field(METRIC_NAME, metricName)];
    ToMapAppend(head, entries);
    EnumeratesToMap(entries, annotation);
    assert head[..1] == [Field(TENANT_ID, tenantId)] && head[..1][..0] == [];
    assert ToMap(head[..1]) == map[TENANT_ID := tenantId];
    assert ToMap(head) == map[TENANT_ID := tenantId, METRIC_NAME := metricName];
  }

  class Discovery {
    var annotation: map<string, string>
    const metricName: Option<string>
    const tenantId: string

    /** The constructor stores both parts of the locator as given, a null metric name included. */
    constructor (tenantId: string, metricName: Option<string>)
      ensures this.tenantId == tenantId && this.metricName == metricName
      ensures annotation == map[]
    {
      this.tenantId := tenantId;
      this.metricName := metricName;
      annotation := map[];
    }

    /** `withAnnotation`: replaces the annotation map and returns the same object. */
    method WithAnnotation(annotation: map<string, string>) returns (self: Discovery)
      modifies this
      ensures this.annotation == annotation && self == this
    {
      this.annotation := annotation;
      self := this;
    }

    /**
     * `createSourceContent`: TENANT_ID, then METRIC_NAME, then one field per annotation entry in the
     * map's iteration order. Its only caller has already rejected a null metric name.
     */
    method CreateSourceContent() returns (fields: seq<Field>)
      requires metricName.Some?
      ensures |fields| >= 2
      ensures fields[0] == Field(TENANT_ID, tenantId) && fields[1] == Field(METRIC_NAME, metricName.value)
      ensures Enumerates(fields[2..], annotation)
    {
      fields := [Field(TENANT_ID, tenantId), Field(METRIC_NAME, metricName.value)];
      var remaining := annotation.Keys;
      while remaining != {}
        invariant remaining <= annotation.Keys
        invariant |fields| >= 2
        invariant fields[0] == Field(TENANT_ID, tenantId) && fields[1] == Field(METRIC_NAME, metricName.value)
        invariant Enumerates(fields[2..], annotation - remaining)
        decreases remaining
      {
        var k :| k in remaining;
        EnumeratesSnoc(fields[2..], annotation - remaining, k, annotation[k]);
        assert (annotation - remaining)[k := annotation[k]] == annotation - (remaining - {k});
        assert (fields + [Field(k, annotation[k])])[2..] == fields[2..] + [Field(k, annotation[k])];
        fields := fields + [Field(k, annotation[k])];
        remaining := remaining - {k};
      }
      assert annotation - remaining == annotation;
    }
  }
}
