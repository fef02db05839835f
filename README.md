# Pods service: pod record validation, identity and permissions

A Dafny model of the record layer of a multi-tenant "pods" service (ephemeral database and
custom-image workloads). It covers:

- the field validators of the `Pod` record in `service/models.py`: pod id, template, time to run,
  environment variables, persistent volumes, default permissions, and the tenant/site override;
- the root validators that derive a pod's identity: its Kubernetes name, its URL, and its routing
  port and protocol;
- `Pod.display`, the grant list and overlap selection of `Pod.db_get_all_with_permission`,
  `Password` validation and `SetPermission.check_level`;
- from `service/req_utils.py`: the status/message decision of `error_handler`, and the
  repeated-slash redirect rule of `HttpUrlRedirectMiddleware`.

Files and modules:

- `wrappers.dfy`: `Option` and `Result`.
- `text.dfy`: Python string operations: `str.replace` as `ReplaceAll`, `startswith`, `in`, `join`, `str(int)`.
- `values.dfy`: dynamically typed Python values (`Value`), truthiness, `type(v).__name__`, and the
  validation library's error entries (`ErrorDict`).
- `pod_checks.dfy`: the field validators that can fail, each returning its error or `None`, and the permission default. The tenant and site overrides are in `PodPipeline.Complete`.
- `pod_identity.dfy`: Kubernetes name, URL, and template routing.
- `pod_pipeline.dfy`: the `PodRecord` and `Validate`. Every field validator runs, the errors are
  collected in field order, and a record that passes is completed.
- `pod_display.dfy`, `pod_permissions.dfy`, `passwords.dfy`: the remaining operations of `models.py`.
- `error_handler.dfy`, `slash_redirect.dfy`: `req_utils.py`.
- `pod_error_response.dfy`: how a rejected record's errors come out of the error handler.

Context the source reads from globals is passed in explicitly: the request's user name, tenant and
site, the image allow-list, and the tenant's base URL (`Context`). A missing tenant is modelled as
the empty string.

Behaviour of the code worth noting:

- For a template other than `neo4j` and `postgres`, `routing_port` and `server_protocol` are *kept*
  from the submitted record, not overwritten (`models.py:157-166`).
  `PodPipeline.ValidateCompletes` states this.
- The Kubernetes name uses the fallback tenant `tacc` when the tenant is empty (`models.py:146`),
  while the stored `tenant_id` keeps the request's value.
- A template's image name is found by removing *every* `custom-`, not only the prefix
  (`models.py:128`). So `custom-custom-x` names image `x` (`PodChecks.DoubledCustomPrefix`).
- The errors of the `Pod` validators carry the source's exception texts (`PodChecks.Message`).
- A pod id of exactly 64 characters is accepted, even though the error message says "less than 64".

## Model

| member | source | states |
|---|---|---|
| PodChecks.CheckPodIdAccepts | service/models.py:62-75 | a pod id is accepted iff its length is between 2 and 64 (64 included), its first character is a-z and every character is a-z0-9 |
| PodChecks.CheckPodIdRejects | service/models.py:69-74 | the pattern is tested first: the length error is raised exactly for a pattern-matching id longer than 64, the format error exactly for an id that fails the pattern |
| PodChecks.MatchAlnumRunIff | service/models.py:69 | the recursive matcher for `[a-z0-9]+` accepts exactly the non-empty strings of a-z0-9 |
| PodChecks.CheckPodTemplateAccepts | service/models.py:122-132 | a template is accepted iff it is `neo4j`, `postgres`, or starts with `custom-` and its image (every `custom-` removed) is in the allow-list; the allow-list error is raised exactly for a `custom-` template whose image is not listed, the catalog error exactly for any other template outside the catalog |
| PodChecks.CustomTemplateOfPlainName | service/models.py:127-129 | for an image name without `-`, `custom-<name>` is accepted iff the name is allow-listed |
| PodChecks.DoubledCustomPrefix | service/models.py:128 | `custom-custom-<name>` is accepted iff `<name>` is allow-listed, because every occurrence is stripped |
| PodChecks.CheckTimeToRun | service/models.py:134-138 | `time_to_run` is accepted iff it is -1 or at least 600; otherwise the one range error is raised |
| PodChecks.CheckEnvEntriesIff | service/models.py:97-101 | the item loop accepts iff every key and every value is a str; any error it raises belongs to `environment_variables` |
| PodChecks.CheckEnvironmentVariablesAccepts | service/models.py:92-102 | the field is accepted iff it is falsy or a dict from str to str |
| PodChecks.CheckMountsIff | service/models.py:116-118 | a mount list passes iff every mount is a str, and otherwise fails with the mount error |
| PodChecks.CheckVolumeEntriesIff | service/models.py:109-118 | the item loop accepts iff every volume has a str name and a non-empty list of str mounts |
| PodChecks.CheckPersistentVolumeAccepts | service/models.py:104-119 | the field is accepted iff it is falsy or a dict whose every entry is a str name with a non-empty list of str mounts |
| PodChecks.VolumeExamples | service/models.py:104-119 | `{"vol1": []}` is rejected with the empty-mount error; `{"vol1": ["/data"]}` and `{}` are accepted |
| PodChecks.DefaultPermissions | service/models.py:85-90 | the result is never empty: an empty list becomes exactly `["<username>:ADMIN"]`, a non-empty one is returned unchanged |
| PodIdentity.EffectiveTenant | service/models.py:146 | an empty (missing) tenant becomes `tacc`; a non-empty tenant is used as it is |
| PodIdentity.K8NameExample | service/models.py:145-149 | site `develop`, tenant `tacc` or no tenant, pod `mydb` give `pods-develop-tacc-mydb` |
| PodIdentity.K8NameShape | service/models.py:149 | the Kubernetes name starts with `pods-` and ends with `-<pod_id>` |
| PodIdentity.K8NameInjective | service/models.py:149 | for fixed site and tenant, equal Kubernetes names imply equal pod ids |
| PodIdentity.PodUrlOfHttpsBase | service/models.py:150-154 | a base URL `https://<rest>` whose rest has no further `https://` becomes `<pod_id>.pods.<rest>` |
| PodIdentity.PodUrlOfColonFreeHost | service/models.py:150-154 | a base URL `https://<host>` whose host has no `:` becomes `<pod_id>.pods.<host>` |
| PodIdentity.PodUrlWithoutScheme | service/models.py:154 | a base URL without `https://` is used unchanged |
| PodIdentity.PodUrlExample | service/models.py:150-154 | pod `mydb` on `https://tacc.develop.tapis.io` gets `mydb.pods.tacc.develop.tapis.io` |
| PodIdentity.TemplateRouting | service/models.py:157-166 | `neo4j` gives 7687/`tcp`, `postgres` gives 5432/`postgres`, any other template keeps the current port and protocol |
| PodIdentity.TemplateRoutingIdempotent | service/models.py:157-166 | applying the template routing twice is the same as applying it once |
| PodPipeline.NewPodRecord | service/models.py:25-54 | the declared defaults: time to run 43200, status `STOPPED`, requested `ON`, routing 5000/`http`, no permissions, empty dicts |
| PodPipeline.ValidateAccepts | service/models.py:62-138 | a record is accepted iff every field validator accepts its field, as stated by independent predicates |
| PodPipeline.ValidateReportsEveryFailure | service/models.py:62-138 | a rejected record reports a non-empty error list: one entry per failing validator and no other, with no field twice, in field declaration order |
| PodPipeline.TwoFailuresReported | service/models.py:62-138 | validation does not stop at the first failure: a bad pod id and a bad time to run are both reported, in that order |
| PodPipeline.ValidateCompletes | service/models.py:77-90 | an accepted record takes tenant and site from the request, has non-empty (defaulted) permissions, the derived name, URL and template routing, and keeps every submitted field |
| PodPipeline.ValidateIgnoresProvidedIdentity | service/models.py:77-83 | the submitted tenant, site, Kubernetes name and URL have no effect on the outcome |
| PodPipeline.ValidateIdempotent | service/models.py:140-166 | validating an accepted record again yields the same record, so repeated validator passes converge |
| PodPipeline.CustomTemplateKeepsDefaultRouting | service/models.py:51-52 | an accepted custom-template record left at the defaults routes over `http` on port 5000 |
| PodPipeline.PostgresExample | service/models.py:140-166 | `mydb` from `postgres` in tenant `tacc` at site `develop` is accepted with name `pods-develop-tacc-mydb`, URL `mydb.pods.tacc.develop.tapis.io`, 5432/`postgres` and the creator as ADMIN |
| PodDisplay.Display | service/models.py:168-179 | succeeds iff every hidden key is present, and then yields the dict without exactly the hidden keys; otherwise fails with the first missing key in pop order |
| PodDisplay.RecordDictDisplayable | service/models.py:168-179 | a record's dict holds every key that display pops, so displaying a record never fails |
| PodDisplay.DisplayedKeys | service/models.py:168-179 | once the hidden keys are removed, a record's dict has exactly the twelve visible keys |
| PodPermissions.RequiredGrants | service/models.py:193-197 | exactly one `<user>:<level>` per authorised level, in the order of the levels |
| PodPermissions.SelectOverlappingMembers | service/models.py:199-203 | a row is selected iff it is in the table and its permissions share an element with the grant list; never more rows than the table |
| PodPermissions.SelectOverlappingCounts | service/models.py:199-203 | each selected row occurs exactly as often as in the table and every other row not at all, so the result is a sub-multiset of the table |
| PodPermissions.SelectOverlappingAppend | service/models.py:199-203 | the selection is made row by row: it distributes over concatenated tables |
| PodPermissions.GetAllWithPermission | service/models.py:181-206 | returns exactly the pods granting the user one of the authorised levels, each as often as in the table and no row more often, and nothing when no pod grants any |
| PodPermissions.GrantInjective | service/models.py:197 | when levels contain no `:`, a grant determines its user and level, so there is no partial matching of user names |
| PodPermissions.AdminGrantSatisfiesUserLevel | service/models.py:194 | with the levels USER and ADMIN, a pod granting `cgarcia:ADMIN` is selected for `cgarcia` |
| PodPermissions.CheckLevel | service/models.py:326-330 | a level is accepted iff it is one of the permission levels, and is returned unchanged |
| Passwords.ValidatePassword | service/models.py:282-315 | the user name is the pod id whatever was submitted, tenant and site come from the request, the passwords are the generated secrets, the admin user name is kept |
| Passwords.UserUsernameStable | service/models.py:312-315 | revalidating a credential record keeps the user name equal to the pod id |
| ErrorHandler.HandleError | service/req_utils.py:17-54 | with the traceback flag set and a formatted trace: 500 and the trace message; otherwise a Tapis error gives its own code and message, a request or library validation error gives 400 and one line per error in order, anything else 500 with `Unexpected. `; the status is left at -1 only for a Tapis error whose own code is -1 |
| ErrorHandler.FormatErrors | service/req_utils.py:42-44 | the error list has one line per validation error, in the original order, each rendered by `FormatError` |
| ErrorHandler.FormatFieldError | service/req_utils.py:44 | an error at field `f` with message `m` renders as `f: m` |
| ErrorHandler.FormatNestedError | service/req_utils.py:44 | location parts are joined by `, ` in order, indices written as numbers: (`body`, 0, `pod_id`) gives `body, 0, pod_id: <msg>` |
| PodErrorResponse.RejectedPodLines | service/req_utils.py:41-46 | for a rejected pod, every failing validator appears as a line `<field>: <message>`, and every line is such a line |
| SlashRedirect.CollapseNoDoubleSlash | service/req_utils.py:62 | the collapsed path contains no `//` |
| SlashRedirect.CollapseKeepsNonSlash | service/req_utils.py:78 | collapsing keeps every character other than `/`, in order |
| SlashRedirect.CollapseHead | service/req_utils.py:78 | collapsing never lengthens a path, empties only the empty path, and keeps its first character |
| SlashRedirect.CollapseFixpoint | service/req_utils.py:78 | a path without `//` is its own collapse |
| SlashRedirect.CollapseShortens | service/req_utils.py:78 | a path with `//` gets strictly shorter |
| SlashRedirect.CollapseUnchangedIff | service/req_utils.py:76-78 | the collapse leaves a path unchanged iff it has no `//` |
| SlashRedirect.CollapseIdempotent | service/req_utils.py:78 | collapsing twice equals collapsing once |
| SlashRedirect.CollapseRemovesRepeatedSlashes | service/req_utils.py:62-78 | the collapse equals the path with exactly those `/` removed that come straight after another `/` |
| SlashRedirect.CollapseExample | service/req_utils.py:78 | `/a//b` becomes `/a/b` and `//x///` becomes `/x/` |
| SlashRedirect.Route | service/req_utils.py:74-82 | an http request is redirected iff its path has `//`, with status 307, to the collapsed path (repeated slashes removed), which has no `//` and keeps all other characters; everything else passes through |
| SlashRedirect.RedirectTargetPassesThrough | service/req_utils.py:76-82 | the redirect target is not redirected again |
| Text.ReplaceAllAbsent | service/models.py:154 | `str.replace` leaves a string without the pattern unchanged |
| Text.ReplaceAllLeading | service/models.py:154 | `str.replace` replaces a leading occurrence and resumes scanning after it |

## Left out

- Persistence: the table declarations, `store.run`, the SQL array-overlap statement and session lookup. The query is modelled as a selection over a sequence of rows in table order (`PodPermissions.GetAllWithPermission`).
- `codes.py` is not part of this model. `PermissionLevel.authorized_levels()` and `PERMISSION_LEVELS` are taken as parameters, so "at least level L" and the error `PermissionLevel(level)` raises for an undefined level are not modelled. The rendering of a level inside a grant is taken to be its name.
- The tenant-configuration lookup of the base URL is a parameter. Its failures are not modelled.
- Ambient request context (`g.request_tenant_id`, `g.site_id`, `g.username`) and `conf.image_allow_list` are parameters (`PodPipeline.Context`). A `None` tenant is modelled as the empty string. A `None` site, which the source would print as `None`, is not modelled.
- The validation library's behaviour beyond the validators: type coercion before a validator runs, validators skipped for fields that were not supplied, and multi-pass re-invocation of root validators. Every field is treated as supplied. The derived fields are computed once, after all field checks pass (`PodPipeline.ValidateIdempotent` shows a second pass changes nothing).
- Derived fields of a rejected record (the source computes them with missing values but discards the record).
- Passwords.ValidatePassword: the 30-character random secrets from `secrets.choice` are parameters; their alphabet and length are not stated.
- Timestamps (`creation_ts`, `update_ts`, `start_ts`) and their `utcnow()` defaults. The model's `RecordDict` omits them, so the twelve keys of `PodDisplay.DisplayedKeys` lack the three timestamps that the source's `display()` keeps.
- Logging calls.
- The response envelope built by `error(...)`, `JSONResponse`, the traceback text itself (a parameter, `None` when formatting it fails), and `repr(exc)` (carried by the exception value).
- The middleware's URL object and the ASGI calls: only the path and the redirect decision are modelled. The full redirect URL with scheme, host and query is not.
- The data-shape-only classes (`NewPod`, `UpdatePod`, `PodResponseModel`, `ExportedData`, `DeletePermission` and the `*Response` envelopes).
- PodPermissions.CheckLevel: the rejection message is the fixed text "level must be in the permission levels"; the source prints the level list itself, and how that list renders is defined in `codes.py`, which is not part of this model.
- PodDisplay.Display: the result is a Dafny `map`, so the key order of the dict that `display()` returns is not modelled.
- Non-integer numbers are not represented in `Value`. `Value` also represents dicts that Python cannot build (duplicate or unhashable keys); the validator equivalences hold for those too.
