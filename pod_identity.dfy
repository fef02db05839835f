/**
 * The identity deriver: the root validators `set_url_and_k8_name` and
 * `set_routing_port_and_protocol_for_templates` of service/models.py.
 */
module PodIdentity {
  import opened Text

  /** Tenant used when the request carries none (an empty tenant stands for a missing one). */
  const FallbackTenant: string := "tacc"
  const HttpsScheme: string := "https://"

  function EffectiveTenant(tenant: string): (t: string)
    ensures tenant == "" ==> t == FallbackTenant
    ensures tenant != "" ==> t == tenant
  {
    if tenant == "" then FallbackTenant else tenant
  }

  /** Kubernetes name: pods-<site>-<tenant>-<pod_id>. */
  function K8Name(site: string, tenant: string, podId: string): string
  {
    "pods-" + site + "-" + EffectiveTenant(tenant) + "-" + podId
  }

  /** The tenant base URL with every "https://" replaced by "<pod_id>.pods.". */
  function PodUrl(baseUrl: string, podId: string): string
  {
    ReplaceAll(baseUrl, HttpsScheme, podId + ".pods.")
  }

  /** Routing port and wire protocol of a pod. */
  datatype Routing = Routing(port: int, protocol: string)

  /** Defaults of the record fields `routing_port` and `server_protocol`. */
  const DefaultRouting: Routing := Routing(5000, "http")

  /** The catalog templates fix port and protocol; any other template keeps what it had. */
  function TemplateRouting(template: string, current: Routing): (r: Routing)
    ensures template == "neo4j" ==> r == Routing(7687, "tcp")
    ensures template == "postgres" ==> r == Routing(5432, "postgres")
    ensures template != "neo4j" && template != "postgres" ==> r == current
  {
    var afterNeo4j := if template == "neo4j" then Routing(7687, "tcp") else current;
    if template == "postgres" then Routing(5432, "postgres") else afterNeo4j
  }

  /** The routing is a function of the template alone for catalog templates, and idempotent. */
  lemma TemplateRoutingIdempotent(template: string, current: Routing)
    ensures TemplateRouting(template, TemplateRouting(template, current)) == TemplateRouting(template, current)
  {
  }

  /** For fixed site and tenant, the Kubernetes name determines the pod id. */
  lemma K8NameInjective(site: string, tenant: string, podId1: string, podId2: string)
    requires K8Name(site, tenant, podId1) == K8Name(site, tenant, podId2)
    ensures podId1 == podId2
  {
    var prefix := "pods-" + site + "-" + EffectiveTenant(tenant) + "-";
    assert K8Name(site, tenant, podId1) == prefix + podId1;
    assert K8Name(site, tenant, podId2) == prefix + podId2;
    assert podId1 == (prefix + podId1)[|prefix|..];
    assert podId2 == (prefix + podId2)[|prefix|..];
  }

  /** The Kubernetes name starts with "pods-" and ends with "-<pod_id>". */
  lemma K8NameShape(site: string, tenant: string, podId: string)
    ensures StartsWith(K8Name(site, tenant, podId), "pods-")
    ensures var n := K8Name(site, tenant, podId);
      |n| > |podId| && n[|n| - |podId|..] == podId && n[|n| - |podId| - 1] == '-'
  {
    var n := K8Name(site, tenant, podId);
    var prefix := "pods-" + site + "-" + EffectiveTenant(tenant) + "-";
    assert n == prefix + podId;
    assert n[..5] == "pods-";
    assert n[|n| - |podId| - 1] == prefix[|prefix| - 1];
  }

  /** A base URL "https://<rest>" whose rest has no further "https://" gives "<pod_id>.pods.<rest>". */
  lemma PodUrlOfHttpsBase(rest: string, podId: string)
    requires !Contains(rest, HttpsScheme)
    ensures PodUrl(HttpsScheme + rest, podId) == podId + ".pods." + rest
  {
    ReplaceAllLeading(rest, HttpsScheme, podId + ".pods.");
    ReplaceAllAbsent(rest, HttpsScheme, podId + ".pods.");
  }

  /** A base URL without "https://" is used unchanged. */
  lemma PodUrlWithoutScheme(baseUrl: string, podId: string)
    requires !Contains(baseUrl, HttpsScheme)
    ensures PodUrl(baseUrl, podId) == baseUrl
  {
    ReplaceAllAbsent(baseUrl, HttpsScheme, podId + ".pods.");
  }

  /** Site "develop", tenant "tacc" (or none), pod "mydb". */
  lemma K8NameExample()
    ensures K8Name("develop", "tacc", "mydb") == "pods-develop-tacc-mydb"
    ensures K8Name("develop", "", "mydb") == "pods-develop-tacc-mydb"
  {
  }

  /** A base URL of the form "https://" + rest, where rest has no ':', becomes "<pod_id>.pods." + rest. */
  lemma PodUrlOfColonFreeHost(rest: string, podId: string)
    requires ':' !in rest
    ensures PodUrl(HttpsScheme + rest, podId) == podId + ".pods." + rest
  {
    assert ':' in HttpsScheme by { assert HttpsScheme[5] == ':'; }
    MissingCharExcludes(rest, HttpsScheme, ':');
    PodUrlOfHttpsBase(rest, podId);
  }

  /** Pod "mydb" on base "https://tacc.develop.tapis.io". */
  lemma PodUrlExample()
    ensures PodUrl("https://tacc.develop.tapis.io", "mydb") == "mydb.pods.tacc.develop.tapis.io"
  {
    var rest := "tacc.develop.tapis.io";
    PodUrlOfColonFreeHost(rest, "mydb");
    assert HttpsScheme + rest == "https://tacc.develop.tapis.io";
    assert "mydb" + ".pods." + rest == "mydb.pods.tacc.develop.tapis.io";
  }
}
