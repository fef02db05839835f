/**
 * The field validators of the `Pod` record (service/models.py): each one
 * either accepts its field or reports the single error it raises.
 */
module PodChecks {
  import opened Wrappers
  import opened Text
  import opened Values

  /** The error each validator can raise; type names are those of the offending value. */
  datatype PodError =
    | ReservedPodId
    | PodIdFormat
    | PodIdTooLong(length: nat)
    | CustomImageNotAllowed
    | UnknownTemplate
    | EnvNotDict(typeName: string)
    | EnvKeyNotStr(typeName: string)
    | EnvValNotStr(typeName: string)
    | VolumeNotDict(typeName: string)
    | VolumeKeyNotStr(typeName: string)
    | VolumeValNotList(typeName: string)
    | VolumeMountsEmpty
    | VolumeMountNotStr
    | TimeToRunOutOfRange

  /** Field whose validator raises the error. */
  function Field(e: PodError): string
  {
    match e
    case ReservedPodId | PodIdFormat | PodIdTooLong(_) => "pod_id"
    case CustomImageNotAllowed | UnknownTemplate => "pod_template"
    case EnvNotDict(_) | EnvKeyNotStr(_) | EnvValNotStr(_) => "environment_variables"
    case VolumeNotDict(_) | VolumeKeyNotStr(_) | VolumeValNotList(_) | VolumeMountsEmpty | VolumeMountNotStr =>
      "persistent_volume"
    case TimeToRunOutOfRange => "time_to_run"
  }

  /** Text of the raised exception. */
  function Message(e: PodError): string
  {
    match e
    case ReservedPodId => "pod_id overlaps with reserved pod ids: []"
    case PodIdFormat => "pod_id must be lowercase alphanumeric. First character must be alpha."
    case PodIdTooLong(n) => "pod_id must be less than 64 characters. Inputted length: " + NatToString(n)
    case CustomImageNotAllowed => "Custom pod_template images must be in allowlist."
    case UnknownTemplate => "pod_template must be one of the following: ['neo4j', 'postgres']."
    case EnvNotDict(t) => "environment_variable must be dict. Got " + t + "."
    case EnvKeyNotStr(t) => "environment_variable key must be str. Got " + t + "."
    case EnvValNotStr(t) => "environment_variable val must be str. Got " + t + "."
    case VolumeNotDict(t) => "persistent_volume must be dict. Got " + t + "."
    case VolumeKeyNotStr(t) => "persistent_volume key must be str. Got " + t + "."
    // The source reports a non-list mount value with the words "must be str".
    case VolumeValNotList(t) => "persistent_volume val must be str. Got " + t + "."
    case VolumeMountsEmpty =>
      "persistent_volume val must be list of str specifying path to mount, got empty list. Got list."
    case VolumeMountNotStr => "persistent_volume mount list must consists of only str. Got list."
    case TimeToRunOutOfRange => "Pod time_to_run must be -1 or be greater than 600 seconds."
  }

  // ---------------------------------------------------------------- pod_id

  /** Reserved pod ids; the source keeps this list empty. */
  const ReservedPodIds: seq<string> := []
  const MaxPodIdLength: nat := 64

  predicate IsLowerAlpha(c: char) { 'a' <= c <= 'z' }
  predicate IsLowerAlnum(c: char) { IsLowerAlpha(c) || '0' <= c <= '9' }

  /** Full match of `[a-z0-9]+`. */
  function MatchAlnumRun(s: string): bool
    decreases |s|
  {
    |s| >= 1 && IsLowerAlnum(s[0]) && (|s| == 1 || MatchAlnumRun(s[1..]))
  }

  /** Full match of `[a-z][a-z0-9]+`. */
  function MatchPodIdPattern(v: string): bool
  {
    |v| >= 1 && IsLowerAlpha(v[0]) && MatchAlnumRun(v[1..])
  }

  /** Independent statement of an acceptable pod id. */
  predicate WellFormedPodId(v: string)
  {
    2 <= |v| <= MaxPodIdLength
    && IsLowerAlpha(v[0])
    && forall k :: 0 <= k < |v| ==> IsLowerAlnum(v[k])
  }

  function CheckPodId(v: string): Option<PodError>
  {
    if v in ReservedPodIds then Some(ReservedPodId)
    else if !MatchPodIdPattern(v) then Some(PodIdFormat)
    else if |v| > MaxPodIdLength then Some(PodIdTooLong(|v|))
    else None
  }

  lemma {:induction false} MatchAlnumRunIff(s: string)
    ensures MatchAlnumRun(s) <==> |s| >= 1 && forall k :: 0 <= k < |s| ==> IsLowerAlnum(s[k])
    decreases |s|
  {
    if |s| > 1 {
      MatchAlnumRunIff(s[1..]);
      assert forall k :: 1 <= k < |s| ==> s[k] == s[1..][k - 1];
    }
  }

  lemma MatchPodIdPatternIff(v: string)
    ensures MatchPodIdPattern(v) <==>
      |v| >= 2 && IsLowerAlpha(v[0]) && forall k :: 0 <= k < |v| ==> IsLowerAlnum(v[k])
  {
    if |v| >= 1 {
      MatchAlnumRunIff(v[1..]);
      assert forall k :: 1 <= k < |v| ==> v[k] == v[1..][k - 1];
    }
  }

  /**
   * A pod id is accepted exactly when it starts with a-z, consists of a-z0-9,
   * and has between 2 and 64 characters (64 itself is accepted).
   */
  lemma CheckPodIdAccepts(v: string)
    ensures CheckPodId(v).None? <==> WellFormedPodId(v)
  {
    MatchPodIdPatternIff(v);
  }

  /** Which error a rejected pod id gets: the pattern is tested before the length. */
  lemma CheckPodIdRejects(v: string)
    ensures CheckPodId(v) == Some(PodIdTooLong(|v|)) <==>
      |v| > MaxPodIdLength && IsLowerAlpha(v[0]) && forall k :: 0 <= k < |v| ==> IsLowerAlnum(v[k])
    ensures CheckPodId(v) == Some(PodIdFormat) <==>
      !(|v| >= 2 && IsLowerAlpha(v[0]) && forall k :: 0 <= k < |v| ==> IsLowerAlnum(v[k]))
  {
    MatchPodIdPatternIff(v);
  }

  // ---------------------------------------------------------- pod_template

  const Templates: seq<string> := ["neo4j", "postgres"]
  const CustomPrefix: string := "custom-"

  /** The image name of a custom template: every "custom-" is removed, not just the prefix. */
  function CustomImage(v: string): string
  {
    ReplaceAll(v, CustomPrefix, "")
  }

  function CheckPodTemplate(v: string, allowList: seq<string>): Option<PodError>
  {
    if StartsWith(v, CustomPrefix) then
      if CustomImage(v) !in allowList then Some(CustomImageNotAllowed) else None
    else if v !in Templates then Some(UnknownTemplate)
    else None
  }

  /**
   * A template is accepted iff it is in the catalog, or a "custom-" template whose image is
   * allow-listed. A rejected "custom-" template gets the allow-list error; any other rejected
   * template gets the catalog error.
   */
  lemma CheckPodTemplateAccepts(v: string, allowList: seq<string>)
    ensures CheckPodTemplate(v, allowList).None? <==>
      v == "neo4j" || v == "postgres" || (StartsWith(v, CustomPrefix) && CustomImage(v) in allowList)
    ensures CheckPodTemplate(v, allowList) == Some(CustomImageNotAllowed) <==>
      StartsWith(v, CustomPrefix) && CustomImage(v) !in allowList
    ensures CheckPodTemplate(v, allowList) == Some(UnknownTemplate) <==>
      !StartsWith(v, CustomPrefix) && v != "neo4j" && v != "postgres"
  {
    assert !StartsWith("neo4j", CustomPrefix);
    assert !StartsWith("postgres", CustomPrefix) by {
      assert "postgres"[0] != CustomPrefix[0];
    }
  }

  /** For an image name without '-', "custom-<name>" is accepted exactly when the name is allow-listed. */
  lemma CustomTemplateOfPlainName(name: string, allowList: seq<string>)
    requires '-' !in name
    ensures CheckPodTemplate(CustomPrefix + name, allowList).None? <==> name in allowList
  {
    assert (CustomPrefix + name)[..|CustomPrefix|] == CustomPrefix;
    ReplaceAllLeading(name, CustomPrefix, "");
    assert '-' in CustomPrefix by { assert CustomPrefix[6] == '-'; }
    MissingCharExcludes(name, CustomPrefix, '-');
    ReplaceAllAbsent(name, CustomPrefix, "");
    assert CustomImage(CustomPrefix + name) == name;
  }

  /** Because every occurrence is stripped, a doubled prefix names the same image. */
  lemma DoubledCustomPrefix(name: string, allowList: seq<string>)
    requires '-' !in name
    ensures CheckPodTemplate(CustomPrefix + CustomPrefix + name, allowList).None? <==> name in allowList
  {
    var v := CustomPrefix + CustomPrefix + name;
    assert CustomPrefix + (CustomPrefix + name) == v;
    assert v[..|CustomPrefix|] == CustomPrefix;
    ReplaceAllLeading(CustomPrefix + name, CustomPrefix, "");
    ReplaceAllLeading(name, CustomPrefix, "");
    assert '-' in CustomPrefix by { assert CustomPrefix[6] == '-'; }
    MissingCharExcludes(name, CustomPrefix, '-');
    ReplaceAllAbsent(name, CustomPrefix, "");
    assert CustomImage(v) == name;
  }

  // ------------------------------------------------------------ time_to_run

  const MinTimeToRun: int := 600
  const Unlimited: int := -1

  function CheckTimeToRun(v: int): (r: Option<PodError>)
    ensures r.None? <==> v == Unlimited || v >= MinTimeToRun
    ensures r.Some? ==> r.value == TimeToRunOutOfRange
  {
    if v != Unlimited && v < MinTimeToRun then Some(TimeToRunOutOfRange) else None
  }

  // --------------------------------------------------- environment_variables

  function CheckEnvEntries(entries: seq<(Value, Value)>): Option<PodError>
    decreases |entries|
  {
    if entries == [] then None
    else
      var (key, val) := entries[0];
      if !key.Str? then Some(EnvKeyNotStr(TypeName(key)))
      else if !val.Str? then Some(EnvValNotStr(TypeName(val)))
      else CheckEnvEntries(entries[1..])
  }

  function CheckEnvironmentVariables(v: Value): Option<PodError>
  {
    if !Truthy(v) then None
    else if !v.Dict? then Some(EnvNotDict(TypeName(v)))
    else CheckEnvEntries(v.entries)
  }

  /** Independent statement: a falsy value, or a dict from str to str. */
  predicate EnvShapeOk(v: Value)
  {
    !Truthy(v) || (v.Dict? && forall k :: 0 <= k < |v.entries| ==> v.entries[k].0.Str? && v.entries[k].1.Str?)
  }

  lemma {:induction false} CheckEnvEntriesIff(entries: seq<(Value, Value)>)
    ensures CheckEnvEntries(entries).None? <==>
      forall k :: 0 <= k < |entries| ==> entries[k].0.Str? && entries[k].1.Str?
    ensures CheckEnvEntries(entries).Some? ==> Field(CheckEnvEntries(entries).value) == "environment_variables"
    decreases |entries|
  {
    if entries != [] {
      CheckEnvEntriesIff(entries[1..]);
      assert forall k :: 1 <= k < |entries| ==> entries[k] == entries[1..][k - 1];
    }
  }

  lemma CheckEnvironmentVariablesAccepts(v: Value)
    ensures CheckEnvironmentVariables(v).None? <==> EnvShapeOk(v)
    ensures CheckEnvironmentVariables(v).Some? ==> Field(CheckEnvironmentVariables(v).value) == "environment_variables"
  {
    if v.Dict? { CheckEnvEntriesIff(v.entries); }
  }

  // ------------------------------------------------------- persistent_volume

  function CheckMounts(mounts: seq<Value>): Option<PodError>
    decreases |mounts|
  {
    if mounts == [] then None
    else if !mounts[0].Str? then Some(VolumeMountNotStr)
    else CheckMounts(mounts[1..])
  }

  function CheckVolumeEntries(entries: seq<(Value, Value)>): Option<PodError>
    decreases |entries|
  {
    if entries == [] then None
    else
      var (name, mounts) := entries[0];
      if !name.Str? then Some(VolumeKeyNotStr(TypeName(name)))
      else if !mounts.List? then Some(VolumeValNotList(TypeName(mounts)))
      else if mounts.items == [] then Some(VolumeMountsEmpty)
      else match CheckMounts(mounts.items)
        case Some(e) => Some(e)
        case None => CheckVolumeEntries(entries[1..])
  }

  function CheckPersistentVolume(v: Value): Option<PodError>
  {
    if !Truthy(v) then None
    else if !v.Dict? then Some(VolumeNotDict(TypeName(v)))
    else CheckVolumeEntries(v.entries)
  }

  /** A volume entry: a str name mapped to a non-empty list of str mount paths. */
  predicate VolumeEntryOk(entry: (Value, Value))
  {
    entry.0.Str? && entry.1.List? && |entry.1.items| > 0
    && forall j :: 0 <= j < |entry.1.items| ==> entry.1.items[j].Str?
  }

  /** Independent statement: a falsy value, or a dict whose every entry is well formed. */
  predicate VolumeShapeOk(v: Value)
  {
    !Truthy(v) || (v.Dict? && forall k :: 0 <= k < |v.entries| ==> VolumeEntryOk(v.entries[k]))
  }

  lemma {:induction false} CheckMountsIff(mounts: seq<Value>)
    ensures CheckMounts(mounts).None? <==> forall j :: 0 <= j < |mounts| ==> mounts[j].Str?
    ensures CheckMounts(mounts).Some? ==> CheckMounts(mounts).value == VolumeMountNotStr
    decreases |mounts|
  {
    if mounts != [] {
      CheckMountsIff(mounts[1..]);
      assert forall j :: 1 <= j < |mounts| ==> mounts[j] == mounts[1..][j - 1];
    }
  }

  lemma {:induction false} CheckVolumeEntriesIff(entries: seq<(Value, Value)>)
    ensures CheckVolumeEntries(entries).None? <==> forall k :: 0 <= k < |entries| ==> VolumeEntryOk(entries[k])
    ensures CheckVolumeEntries(entries).Some? ==> Field(CheckVolumeEntries(entries).value) == "persistent_volume"
    decreases |entries|
  {
    if entries != [] {
      CheckVolumeEntriesIff(entries[1..]);
      if entries[0].1.List? { CheckMountsIff(entries[0].1.items); }
      assert forall k :: 1 <= k < |entries| ==> entries[k] == entries[1..][k - 1];
    }
  }

  /** persistent_volume is accepted iff it is falsy or maps str names to non-empty lists of str. */
  lemma CheckPersistentVolumeAccepts(v: Value)
    ensures CheckPersistentVolume(v).None? <==> VolumeShapeOk(v)
    ensures CheckPersistentVolume(v).Some? ==> Field(CheckPersistentVolume(v).value) == "persistent_volume"
  {
    if v.Dict? { CheckVolumeEntriesIff(v.entries); }
  }

  /** {"vol1": []} is rejected for its empty mount list; {"vol1": ["/data"]} and {} are accepted. */
  lemma VolumeExamples()
    ensures CheckPersistentVolume(Dict([(Str("vol1"), List([]))])) == Some(VolumeMountsEmpty)
    ensures CheckPersistentVolume(Dict([(Str("vol1"), List([Str("/data")]))])).None?
    ensures CheckPersistentVolume(Dict([])).None?
  {
    assert CheckMounts([Str("/data")]) == None by {
      assert [Str("/data")][1..] == [];
    }
    var e := [(Str("vol1"), List([Str("/data")]))];
    assert e[1..] == [];
  }

  // ------------------------------------------------------------ permissions

  /** An empty permission list becomes the creator's ADMIN grant; a non-empty one is kept. */
  function DefaultPermissions(v: seq<string>, username: string): (r: seq<string>)
    ensures |r| > 0
    ensures v == [] ==> r == [username + ":ADMIN"]
    ensures v != [] ==> r == v
  {
    if v == [] then [username + ":ADMIN"] else v
  }
}
