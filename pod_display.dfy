/** `Pod.display` of service/models.py: the record as a dict minus its internal fields. */
module PodDisplay {
  import opened Wrappers
  import opened Values
  import opened PodPipeline

  /** The keys popped, in the order the source pops them. */
  const HiddenKeys: seq<string> :=
    ["logs", "routing_port", "k8_name", "tenant_id", "server_protocol", "permissions", "site_id",
     "data_attached", "roles_inherited"]

  /** The keys left after display: every declared column except the hidden ones and the timestamps. */
  const VisibleKeys: set<string> :=
    {"pod_id", "pod_template", "description", "environment_variables", "data_requests", "roles_required",
     "status_requested", "persistent_volume", "time_to_run", "url", "status", "status_container"}

  /** `self.dict()` of a record (timestamps are left out). */
  function RecordDict(p: PodRecord): map<string, Value>
  {
    map[
      "pod_id" := Str(p.podId), "pod_template" := Str(p.podTemplate), "description" := Str(p.description),
      "environment_variables" := p.environmentVariables, "data_requests" := StrList(p.dataRequests),
      "roles_required" := StrList(p.rolesRequired), "status_requested" := Str(p.statusRequested),
      "persistent_volume" := p.persistentVolume, "time_to_run" := Int(p.timeToRun),
      "tenant_id" := Str(p.tenantId), "site_id" := Str(p.siteId), "k8_name" := Str(p.k8Name),
      "url" := Str(p.url), "status" := Str(p.status), "status_container" := p.statusContainer,
      "data_attached" := StrList(p.dataAttached), "roles_inherited" := StrList(p.rolesInherited),
      "server_protocol" := Str(p.serverProtocol), "routing_port" := Int(p.routingPort),
      "logs" := Str(p.logs), "permissions" := StrList(p.permissions)]
  }

  /**
   * Pops every hidden key in turn. `dict.pop` without a default raises
   * KeyError on a missing key, reported here as the failure carrying that key.
   */
  method Display(d: map<string, Value>) returns (r: Result<map<string, Value>, string>)
    ensures r.Success? <==> forall k :: 0 <= k < |HiddenKeys| ==> HiddenKeys[k] in d
    ensures r.Success? ==> r.value == d - (set k | k in HiddenKeys)
    ensures r.Failure? ==>
      exists i :: 0 <= i < |HiddenKeys| && r.error == HiddenKeys[i] && r.error !in d
                  && forall j :: 0 <= j < i ==> HiddenKeys[j] in d
  {
    var display := d;
    for i := 0 to |HiddenKeys|
      invariant forall j :: 0 <= j < i ==> HiddenKeys[j] in d
      invariant display == d - (set j | 0 <= j < i :: HiddenKeys[j])
    {
      var key := HiddenKeys[i];
      if key !in display {
        return Failure(key);
      }
      display := display - {key};
      assert (set j | 0 <= j < i + 1 :: HiddenKeys[j]) == (set j | 0 <= j < i :: HiddenKeys[j]) + {key};
    }
    assert (set j | 0 <= j < |HiddenKeys| :: HiddenKeys[j]) == (set k | k in HiddenKeys);
    return Success(display);
  }

  /** A record's dict holds every hidden key, so displaying a record never raises. */
  lemma RecordDictDisplayable(p: PodRecord)
    ensures forall k :: 0 <= k < |HiddenKeys| ==> HiddenKeys[k] in RecordDict(p)
  {
  }

  /** Displaying a record shows exactly the visible keys. */
  lemma DisplayedKeys(p: PodRecord)
    ensures var shown := RecordDict(p) - (set k | k in HiddenKeys);
      (forall k | k in VisibleKeys :: k in shown) && (forall k | k in shown :: k in VisibleKeys)
  {
  }
}
