/**
 * The `Pod` record of service/models.py and its validation: every field
 * validator runs, their errors are collected in field order, and a record
 * that passes all of them is completed by the root validators.
 */
module PodPipeline {
  import opened Wrappers
  import opened Values
  import opened PodChecks
  import opened PodIdentity

  /** The stored pod record (timestamps are left out). */
  datatype PodRecord = PodRecord(
    podId: string,
    podTemplate: string,
    description: string,
    environmentVariables: Value,
    dataRequests: seq<string>,
    rolesRequired: seq<string>,
    statusRequested: string,
    persistentVolume: Value,
    timeToRun: int,
    tenantId: string,
    siteId: string,
    k8Name: string,
    url: string,
    status: string,
    statusContainer: Value,
    dataAttached: seq<string>,
    rolesInherited: seq<string>,
    serverProtocol: string,
    routingPort: int,
    logs: string,
    permissions: seq<string>)

  /** What the service reads from the request and its configuration while validating. */
  datatype Context = Context(
    username: string,
    tenantId: string,
    siteId: string,
    imageAllowList: seq<string>,
    baseUrl: string)

  /** A record holding the declared field defaults, with the two required fields given. */
  function NewPodRecord(podId: string, podTemplate: string): (p: PodRecord)
    ensures p.timeToRun == 43200 && p.status == "STOPPED" && p.statusRequested == "ON"
    ensures Routing(p.routingPort, p.serverProtocol) == DefaultRouting
    ensures p.permissions == [] && !Truthy(p.environmentVariables) && !Truthy(p.persistentVolume)
  {
    PodRecord(
      podId := podId, podTemplate := podTemplate, description := "",
      environmentVariables := Dict([]), dataRequests := [], rolesRequired := [],
      statusRequested := "ON", persistentVolume := Dict([]), timeToRun := 43200,
      tenantId := "", siteId := "", k8Name := "", url := "", status := "STOPPED",
      statusContainer := Dict([]), dataAttached := [], rolesInherited := [],
      serverProtocol := "http", routingPort := 5000, logs := "", permissions := [])
  }

  /**
   * Position of a field among the fields with a validator that can fail, in
   * declaration order; -1 for any other field.
   */
  function FieldRank(field: string): int
  {
    if field == "pod_id" then 0
    else if field == "pod_template" then 1
    else if field == "environment_variables" then 2
    else if field == "persistent_volume" then 3
    else if field == "time_to_run" then 4
    else -1
  }

  /** The outcome of each validator that can fail, in field order. */
  function FieldChecks(p: PodRecord, ctx: Context): seq<Option<PodError>>
  {
    [ CheckPodId(p.podId),
      CheckPodTemplate(p.podTemplate, ctx.imageAllowList),
      CheckEnvironmentVariables(p.environmentVariables),
      CheckPersistentVolume(p.persistentVolume),
      CheckTimeToRun(p.timeToRun) ]
  }

  /** The errors raised, in the order of the checks. */
  function FailedChecks(cs: seq<Option<PodError>>): seq<PodError>
    decreases |cs|
  {
    if cs == [] then []
    else (if cs[0].Some? then [cs[0].value] else []) + FailedChecks(cs[1..])
  }

  /** How the validation library reports an error raised by a field validator. */
  function ErrorEntry(e: PodError): ErrorDict
  {
    ErrorDict([Name(Field(e))], Message(e))
  }

  /** The field an error entry is about, or "" for an entry not of that shape. */
  function EntryField(d: ErrorDict): string
  {
    if |d.loc| == 1 && d.loc[0].Name? then d.loc[0].name else ""
  }

  /** One error entry per failing validator, in the same order. */
  function ErrorEntries(es: seq<PodError>): seq<ErrorDict>
  {
    seq(|es|, i requires 0 <= i < |es| => ErrorEntry(es[i]))
  }

  /** The tenant and site overrides, default permissions, and the root validators. */
  function Complete(p: PodRecord, ctx: Context): PodRecord
  {
    var routing := TemplateRouting(p.podTemplate, Routing(p.routingPort, p.serverProtocol));
    p.(tenantId := ctx.tenantId,
       siteId := ctx.siteId,
       permissions := DefaultPermissions(p.permissions, ctx.username),
       k8Name := K8Name(ctx.siteId, ctx.tenantId, p.podId),
       url := PodUrl(ctx.baseUrl, p.podId),
       routingPort := routing.port,
       serverProtocol := routing.protocol)
  }

  function Validate(p: PodRecord, ctx: Context): Result<PodRecord, seq<ErrorDict>>
  {
    var failed := FailedChecks(FieldChecks(p, ctx));
    if failed != [] then Failure(ErrorEntries(failed)) else Success(Complete(p, ctx))
  }

  /** Independent statement of what the field validators accept. */
  predicate AcceptableFields(p: PodRecord, ctx: Context)
  {
    WellFormedPodId(p.podId)
    && (p.podTemplate == "neo4j" || p.podTemplate == "postgres"
        || (Text.StartsWith(p.podTemplate, CustomPrefix) && CustomImage(p.podTemplate) in ctx.imageAllowList))
    && EnvShapeOk(p.environmentVariables)
    && VolumeShapeOk(p.persistentVolume)
    && (p.timeToRun == Unlimited || p.timeToRun >= MinTimeToRun)
  }

  // ------------------------------------------------------------------ proofs

  lemma {:induction false} FailedChecksEmpty(cs: seq<Option<PodError>>)
    ensures FailedChecks(cs) == [] <==> forall k :: 0 <= k < |cs| ==> cs[k].None?
    decreases |cs|
  {
    if cs != [] {
      assert forall k :: 1 <= k < |cs| ==> cs[k] == cs[1..][k - 1];
      FailedChecksEmpty(cs[1..]);
    }
  }

  lemma {:induction false} FailedChecksMembers(cs: seq<Option<PodError>>)
    ensures forall k :: 0 <= k < |cs| && cs[k].Some? ==> cs[k].value in FailedChecks(cs)
    ensures forall e :: e in FailedChecks(cs) ==> Some(e) in cs
    decreases |cs|
  {
    if cs != [] {
      assert forall k :: 1 <= k < |cs| ==> cs[k] == cs[1..][k - 1];
      FailedChecksMembers(cs[1..]);
    }
  }

  lemma {:induction false} FailedChecksOrdered(cs: seq<Option<PodError>>, offset: nat)
    requires forall k :: 0 <= k < |cs| && cs[k].Some? ==> FieldRank(Field(cs[k].value)) == offset + k
    ensures var r := FailedChecks(cs);
      (forall i :: 0 <= i < |r| ==> offset <= FieldRank(Field(r[i])))
      && (forall i, j :: 0 <= i < j < |r| ==> FieldRank(Field(r[i])) < FieldRank(Field(r[j])))
    decreases |cs|
  {
    if cs != [] {
      var tail := cs[1..];
      forall k | 0 <= k < |tail| && tail[k].Some? ensures FieldRank(Field(tail[k].value)) == offset + 1 + k {
        assert tail[k] == cs[k + 1];
      }
      FailedChecksOrdered(tail, offset + 1);
      var head: seq<PodError> := if cs[0].Some? then [cs[0].value] else [];
      assert FailedChecks(cs) == head + FailedChecks(tail);
    }
  }

  lemma FieldChecksRanked(p: PodRecord, ctx: Context)
    ensures var cs := FieldChecks(p, ctx);
      |cs| == 5
      && forall k :: 0 <= k < |cs| && cs[k].Some? ==> FieldRank(Field(cs[k].value)) == k
  {
    CheckEnvironmentVariablesAccepts(p.environmentVariables);
    CheckPersistentVolumeAccepts(p.persistentVolume);
  }

  lemma FieldChecksPass(p: PodRecord, ctx: Context)
    ensures (forall k :: 0 <= k < |FieldChecks(p, ctx)| ==> FieldChecks(p, ctx)[k].None?) <==> AcceptableFields(p, ctx)
  {
    CheckPodIdAccepts(p.podId);
    CheckPodTemplateAccepts(p.podTemplate, ctx.imageAllowList);
    CheckEnvironmentVariablesAccepts(p.environmentVariables);
    CheckPersistentVolumeAccepts(p.persistentVolume);
    var cs := FieldChecks(p, ctx);
    assert cs[0].None? && cs[1].None? && cs[2].None? && cs[3].None? && cs[4].None? ==>
      forall k :: 0 <= k < |cs| ==> cs[k].None?;
  }

  /** A record is accepted exactly when every field validator accepts its field. */
  lemma ValidateAccepts(p: PodRecord, ctx: Context)
    ensures Validate(p, ctx).Success? <==> AcceptableFields(p, ctx)
  {
    FailedChecksEmpty(FieldChecks(p, ctx));
    FieldChecksPass(p, ctx);
  }

  /** Every failing check of `cs` has its entry in `errs`. */
  ghost predicate ReportsAll(errs: seq<ErrorDict>, cs: seq<Option<PodError>>)
  {
    forall k :: 0 <= k < |cs| && cs[k].Some? ==> ErrorEntry(cs[k].value) in errs
  }

  /** Every entry of `errs` comes from a failing check of `cs`. */
  ghost predicate ReportsOnly(errs: seq<ErrorDict>, cs: seq<Option<PodError>>)
  {
    forall d :: d in errs ==> exists k :: 0 <= k < |cs| && cs[k].Some? && d == ErrorEntry(cs[k].value)
  }

  /** The entries are about known fields, in field order, no field twice. */
  ghost predicate InFieldOrder(errs: seq<ErrorDict>)
  {
    forall i, j :: 0 <= i < j < |errs| ==> 0 <= FieldRank(EntryField(errs[i])) < FieldRank(EntryField(errs[j]))
  }

  /**
   * `errs` reports exactly the failing checks of `cs`: every failure has its
   * entry, every entry comes from a failure, and the entries are in field
   * order with no field twice.
   */
  ghost predicate ReportsFailures(errs: seq<ErrorDict>, cs: seq<Option<PodError>>)
  {
    errs != [] && ReportsAll(errs, cs) && ReportsOnly(errs, cs) && InFieldOrder(errs)
  }

  lemma EntriesComplete(cs: seq<Option<PodError>>)
    ensures ReportsAll(ErrorEntries(FailedChecks(cs)), cs)
  {
    FailedChecksMembers(cs);
    var failed := FailedChecks(cs);
    var errs := ErrorEntries(failed);
    forall k | 0 <= k < |cs| && cs[k].Some? ensures ErrorEntry(cs[k].value) in errs {
      var i :| 0 <= i < |failed| && failed[i] == cs[k].value;
      assert errs[i] == ErrorEntry(cs[k].value);
    }
  }

  lemma EntriesSound(cs: seq<Option<PodError>>)
    ensures ReportsOnly(ErrorEntries(FailedChecks(cs)), cs)
  {
    FailedChecksMembers(cs);
    var failed := FailedChecks(cs);
    var errs := ErrorEntries(failed);
    forall d | d in errs ensures exists k :: 0 <= k < |cs| && cs[k].Some? && d == ErrorEntry(cs[k].value) {
      var i :| 0 <= i < |errs| && errs[i] == d;
      assert failed[i] in failed;
      assert Some(failed[i]) in cs;
      var k :| 0 <= k < |cs| && cs[k] == Some(failed[i]);
      assert d == ErrorEntry(cs[k].value);
    }
  }

  lemma EntriesOrdered(cs: seq<Option<PodError>>)
    requires forall k :: 0 <= k < |cs| && cs[k].Some? ==> FieldRank(Field(cs[k].value)) == k
    ensures InFieldOrder(ErrorEntries(FailedChecks(cs)))
  {
    FailedChecksOrdered(cs, 0);
    var failed := FailedChecks(cs);
    var errs := ErrorEntries(failed);
    forall i | 0 <= i < |errs| ensures EntryField(errs[i]) == Field(failed[i]) {
      assert errs[i] == ErrorEntry(failed[i]);
    }
  }

  lemma ReportsRankedFailures(cs: seq<Option<PodError>>)
    requires forall k :: 0 <= k < |cs| && cs[k].Some? ==> FieldRank(Field(cs[k].value)) == k
    requires FailedChecks(cs) != []
    ensures ReportsFailures(ErrorEntries(FailedChecks(cs)), cs)
  {
    var errs := ErrorEntries(FailedChecks(cs));
    assert errs != [] by { assert |errs| == |FailedChecks(cs)|; }
    EntriesComplete(cs);
    EntriesSound(cs);
    EntriesOrdered(cs);
  }

  /** Errors are aggregated: a rejected record reports every failing validator, once each, in field order. */
  lemma ValidateReportsEveryFailure(p: PodRecord, ctx: Context)
    ensures Validate(p, ctx).Failure? ==> ReportsFailures(Validate(p, ctx).error, FieldChecks(p, ctx))
  {
    var cs := FieldChecks(p, ctx);
    var failed := FailedChecks(cs);
    if failed != [] {
      FieldChecksRanked(p, ctx);
      ReportsRankedFailures(cs);
      assert Validate(p, ctx) == Failure(ErrorEntries(failed));
    }
  }

  /** A record that passes validation, with its derived and overridden fields. */
  lemma ValidateCompletes(p: PodRecord, ctx: Context)
    requires Validate(p, ctx).Success?
    ensures var q := Validate(p, ctx).value;
      // the request context always wins over the submitted tenant and site
      q.tenantId == ctx.tenantId && q.siteId == ctx.siteId
      // permissions are never empty after validation
      && |q.permissions| > 0
      && (p.permissions == [] ==> q.permissions == [ctx.username + ":ADMIN"])
      && (p.permissions != [] ==> q.permissions == p.permissions)
      // derived identity
      && q.k8Name == "pods-" + ctx.siteId + "-" + EffectiveTenant(ctx.tenantId) + "-" + p.podId
      && q.url == PodUrl(ctx.baseUrl, p.podId)
      && (p.podTemplate == "neo4j" ==> q.routingPort == 7687 && q.serverProtocol == "tcp")
      && (p.podTemplate == "postgres" ==> q.routingPort == 5432 && q.serverProtocol == "postgres")
      && (p.podTemplate != "neo4j" && p.podTemplate != "postgres" ==>
            q.routingPort == p.routingPort && q.serverProtocol == p.serverProtocol)
      // everything the caller supplied is kept
      && q.podId == p.podId && q.podTemplate == p.podTemplate && q.description == p.description
      && q.environmentVariables == p.environmentVariables && q.persistentVolume == p.persistentVolume
      && q.timeToRun == p.timeToRun && q.dataRequests == p.dataRequests
      && q.rolesRequired == p.rolesRequired && q.statusRequested == p.statusRequested
      && q.status == p.status && q.statusContainer == p.statusContainer
      && q.dataAttached == p.dataAttached && q.rolesInherited == p.rolesInherited && q.logs == p.logs
  {
  }

  /** Submitted tenant, site, Kubernetes name and URL have no effect on the outcome. */
  lemma ValidateIgnoresProvidedIdentity(p: PodRecord, ctx: Context, tenant: string, site: string, k8: string, url: string)
    ensures Validate(p.(tenantId := tenant, siteId := site, k8Name := k8, url := url), ctx) == Validate(p, ctx)
  {
    var p' := p.(tenantId := tenant, siteId := site, k8Name := k8, url := url);
    assert FieldChecks(p', ctx) == FieldChecks(p, ctx);
    assert Complete(p', ctx) == Complete(p, ctx);
  }

  /** Validating an already validated record again changes nothing (the validators converge). */
  lemma ValidateIdempotent(p: PodRecord, ctx: Context)
    requires Validate(p, ctx).Success?
    ensures Validate(Validate(p, ctx).value, ctx) == Validate(p, ctx)
  {
    var q := Validate(p, ctx).value;
    assert FieldChecks(q, ctx) == FieldChecks(p, ctx);
    TemplateRoutingIdempotent(p.podTemplate, Routing(p.routingPort, p.serverProtocol));
    assert Complete(q, ctx) == q;
  }

  /** A custom template left at the declared defaults routes over http on port 5000. */
  lemma CustomTemplateKeepsDefaultRouting(podId: string, image: string, ctx: Context)
    requires Validate(NewPodRecord(podId, CustomPrefix + image), ctx).Success?
    ensures var q := Validate(NewPodRecord(podId, CustomPrefix + image), ctx).value;
      q.routingPort == 5000 && q.serverProtocol == "http"
  {
    assert (CustomPrefix + image)[..|CustomPrefix|] == CustomPrefix;
    assert CustomPrefix + image != "neo4j" by { assert (CustomPrefix + image)[0] == 'c'; }
    assert CustomPrefix + image != "postgres" by { assert (CustomPrefix + image)[0] == 'c'; }
  }

  lemma ErrorEntriesOfPair(a: PodError, b: PodError)
    ensures ErrorEntries([a, b]) == [ErrorEntry(a), ErrorEntry(b)]
  {
    var r := ErrorEntries([a, b]);
    assert |r| == 2;
    assert r[0] == ErrorEntry(a) && r[1] == ErrorEntry(b);
  }

  /** All validators run: a bad pod id and a bad time_to_run are reported together. */
  lemma TwoFailuresReported(ctx: Context)
    ensures var p := NewPodRecord("1db", "postgres").(timeToRun := 599);
      Validate(p, ctx) == Failure([ErrorEntry(PodIdFormat), ErrorEntry(TimeToRunOutOfRange)])
  {
    var p := NewPodRecord("1db", "postgres").(timeToRun := 599);
    assert !MatchPodIdPattern("1db");
    assert CheckPodId("1db") == Some(PodIdFormat);
    CheckPodTemplateAccepts("postgres", ctx.imageAllowList);
    var cs := FieldChecks(p, ctx);
    assert cs == [Some(PodIdFormat), None, None, None, Some(TimeToRunOutOfRange)];
    assert FailedChecks(cs[4..]) == [TimeToRunOutOfRange] by { assert cs[4..][1..] == []; }
    assert FailedChecks(cs[3..]) == FailedChecks(cs[4..]) by { assert cs[3..][1..] == cs[4..]; }
    assert FailedChecks(cs[2..]) == FailedChecks(cs[3..]) by { assert cs[2..][1..] == cs[3..]; }
    assert FailedChecks(cs[1..]) == FailedChecks(cs[2..]) by { assert cs[1..][1..] == cs[2..]; }
    assert FailedChecks(cs) == [PodIdFormat, TimeToRunOutOfRange];
    ErrorEntriesOfPair(PodIdFormat, TimeToRunOutOfRange);
  }

  /** Pod "mydb" from template "postgres" in tenant "tacc" at site "develop". */
  lemma PostgresExample(username: string, allowList: seq<string>)
    ensures var ctx := Context(username, "tacc", "develop", allowList, "https://tacc.develop.tapis.io");
      var r := Validate(NewPodRecord("mydb", "postgres"), ctx);
      r.Success?
      && r.value.k8Name == "pods-develop-tacc-mydb"
      && r.value.url == "mydb.pods.tacc.develop.tapis.io"
      && r.value.routingPort == 5432 && r.value.serverProtocol == "postgres"
      && r.value.permissions == [username + ":ADMIN"]
  {
    var ctx := Context(username, "tacc", "develop", allowList, "https://tacc.develop.tapis.io");
    var p := NewPodRecord("mydb", "postgres");
    CheckPodIdAccepts("mydb");
    assert WellFormedPodId("mydb");
    ValidateAccepts(p, ctx);
    K8NameExample();
    PodUrlExample();
  }
}
