# Yolo orchestration core, in Dafny

Yolo provisions a *cluster* and, inside it, one *environment* per GitHub
repository on a cloud provider. It keeps a local configuration record in step
with the provider:

- the record files clusters by name;
- each cluster files its environments by name;
- the provider stores the record and hands back the last version saved.

This project models the part of Yolo that orchestrates that work.

- **Entity helpers** (`entities.dfy`):
  - the environment and cluster records and their status machine (Creating, Created, Removing);
  - the environment name `owner/name`;
  - the key-pair name;
  - parsing of `ssh-keyscan` host keys;
  - port validation.
- **Repository-name resolution** (`github.dfy`):
  - `ParseRepositoryName`, with the two URL parsers passed in as oracles;
  - the two clone URLs.
- **The configuration record** (`configuration.dfy`): a `map` of cluster
  entries, each holding a `map` of environments. There are pure get/put/delete
  functions and a `Config` class whose methods change the record in place.
- **The world** (`cloud.dfy`): the cloud service, its builder, the output
  handler, the pre-remove hook and the removal confirmation.
  - Each call is decided by an `Oracle`: it says whether the call at position
    *n* of the trace succeeds, what the provider writes into the entity it is
    handed, and what the user answers.
  - A `WorldState` is the trace of calls, each with its arguments and outcome,
    plus the record last saved.
  - The `World` class is that state behind methods, one per call.
- **Action primitives** (`actions.dfy`): `UpdateClusterInConfig`,
  `RemoveClusterInConfig`, `UpdateEnvInConfig`, `RemoveEnvInConfig`,
  `InstallYolo`, `CreateCluser`, `CreateEnv`, `RemoveCluster`, `RemoveEnv`,
  `OpenPort` and `ClosePort`.
  - Each is a function over the world and the record (its specification).
  - Each is also a method that makes the same calls on a `World` and a `Config`,
    proved equal to that function.
  - The function's postconditions state the *save-through* discipline: the
    backend's error is captured, the entity is saved anyway, a failed save masks
    the backend's error, and statuses change only at fixed points.
- **Feature workflows** (`features.dfy`): Init and its `SetEnvAsCreated`
  closure, Remove, OpenPort, ClosePort, Edit and Uninstall.
  - Each is a function ending in exactly one call to the output handler.
  - Each except the read-only Edit also has a method on a `World`, proved to
    make the same calls; the closure is the `EnvSession` class.
  - Lemmas state each feature's paths as exact prefixes or positions of the
    trace: what is called, in which order, what is never called after a guard
    fails, what is saved, and what error comes back.

`strings.dfy` holds the few functions of Go's `strings` package the core relies
on: `TrimSpace`, `Split` with a one-character separator, `TrimPrefix` and
`TrimSuffix`. `wrappers.dfy` holds `Option` and `Result`.

## Model

| member | source | states |
|---|---|---|
| Entities.NewEnv | entities/env.go:46-62 | a new environment is Creating, with no host keys and no opened ports, under the given name, instance type, repository, id and time |
| Entities.NewCluster | features/init.go:130-134 | a new cluster is Creating, under the given name and default flag |
| Entities.BuildEnvNameFromResolvedRepo | entities/env.go:100-105 | the name is owner, "/" and name, so its length is theirs plus one |
| Entities.EnvNameInjective | entities/env.go:100-105 | owners without "/" give the same environment name only for the same owner and name |
| Entities.GetSSHKeyPairName | entities/env.go:68-70 | the key-pair name starts with "yolo-", ends with "-key-pair" and holds the slug in between |
| Entities.KeyPairNameDeterminesSlug | entities/env.go:68-70 | equal key-pair names mean equal slugs |
| Entities.FieldsOf | entities/env.go:113-114 | the space-split fields of every trimmed line, in order |
| Entities.ParseHostKeyLines | entities/env.go:110-128 | success exactly when every line has three fields: one (field 0, field 1) pair per line, in order; otherwise the error names the first malformed line |
| Entities.FirstMalformedReported | entities/env.go:113-120 | the error reported is the first line that does not have three fields, and there is no partial result |
| Entities.AllParsed | entities/env.go:122-128 | well-formed lines parse to exactly their pairs |
| Entities.ParseSSHHostKeys | entities/env.go:107-129 | the loop with its early return computes the specification `HostKeys` |
| Entities.BlankHostKeysRejected | entities/env.go:108-119 | empty or blank input is one empty line with one field, so it is rejected |
| Entities.SingleTokenRejected | entities/env.go:108-119 | text without white space is one single-field line, rejected with that line |
| Entities.FormatLineFields | entities/env.go:113-114 | a line `algorithm fingerprint comment` of non-blank tokens trims to itself, holds no newline and splits into its three tokens |
| Entities.FormatLineTrimmed | entities/env.go:114 | such a line is left unchanged by TrimSpace |
| Entities.FormatLineSpaces | entities/env.go:114 | the only white space in such a line is its two separating spaces |
| Entities.FormatLineSplit | entities/env.go:114 | such a line splits on " " into its three tokens |
| Entities.FormattedLines | entities/env.go:108-110 | the newline-joined text of such lines splits back into those lines |
| Entities.HostKeysRoundTrip | entities/env.go:107-129 | parsing the text of well-formed lines gives their (algorithm, fingerprint) pairs in order, with the comments dropped |
| Entities.CheckPortValidity | entities/env.go:131-151 | InvalidPort exactly when the input is not an Atoi integer in [1, 65535]; ReservedPort exactly when it is valid and string-equal to a reserved entry; no error exactly otherwise |
| Entities.CheckPortValidityByValue | entities/env.go:142-148 | the same, with reservation by numeric value: ReservedPort exactly when some reserved entry denotes the same number |
| Entities.LeadingZeroBypassesReservation | entities/env.go:142-148 | "022" is valid, not string-equal to "22", yet denotes the reserved port 22 |
| Entities.PortBoundaries | entities/env.go:133-140 | 1 and 65535 are valid; 0, 65536 and "invalid_port" are not |
| GitHub.ParseAsURL | github/parser.go:43-48 | the git-URL parser's result when it succeeds, otherwise the generic URL parser's |
| GitHub.ParseRepositoryName | github/parser.go:35-94 | without a URL host: fails exactly with more than two "/" segments; one segment gives the default owner, implicitly, and the input as name; two give owner and name, explicitly. With a host: fails exactly off github.com or with fewer than two path segments; otherwise owner is segment 0 and name is segment 1 less one ".git" |
| GitHub.BareNameResolves | github/parser.go:58-64 | a name without "/" and without a URL host resolves to the default owner, not explicit |
| GitHub.OwnerSlashNameRoundTrip | github/parser.go:66-70 | parsing an environment name `owner/name` gives back that owner, explicitly, and that name |
| GitHub.TooManySegmentsRejected | github/parser.go:51-56 | three or more segments without a host are rejected |
| GitHub.BuildGitHTTPURL | github/parser.go:13-19 | the HTTPS clone URL is `https://github.com/`, the escaped owner, `/`, the escaped name and `.git`; `GitHTTPURLRoundTrip` and `GitHTTPURLInjective` state what it preserves |
| GitHub.GitHTTPURLInjective | github/parser.go:13-19 | escaped owners without "/" give the same HTTPS clone URL only for the same escaped owner and name |
| GitHub.GitHTTPURLRoundTrip | github/parser.go:13-19 | when the URL parser reads the HTTPS clone URL as host github.com and path `/<owner>/<name>.git`, it resolves back to the escaped owner and name |
| GitHub.BuildGitURL | github/parser.go:21-27 | the SSH address is `git@github.com:`, the escaped owner, `/`, the escaped name and `.git`; `GitURLRoundTrip` and `GitURLInjective` state what it preserves |
| GitHub.GitURLInjective | github/parser.go:21-27 | escaped owners without "/" give the same SSH address only for the same escaped owner and name |
| GitHub.GitURLRoundTrip | github/parser.go:21-27 | when the git-URL parser reads the SSH address as host github.com and path `<owner>/<name>.git`, it resolves back to the escaped, non-empty owner and the name |
| Configuration.GetCluster | features/init.go:112-117 | success exactly when the cluster is filed, giving that cluster; otherwise ClusterNotExists |
| Configuration.GetEnv | features/init.go:149-156 | success exactly when the cluster and the environment are filed; ClusterNotExists or EnvNotExists otherwise |
| Configuration.PutCluster | actions/config.go:15 | files the cluster under its name, keeps that cluster's environments and leaves other entries unchanged |
| Configuration.PutEnv | actions/config.go:54 | fails exactly on a missing cluster; otherwise files the environment under its name and changes nothing else |
| Configuration.DeleteCluster | actions/config.go:34 | fails exactly on a missing cluster; otherwise removes just that entry |
| Configuration.DeleteEnv | actions/config.go:74 | fails on a missing cluster or environment with the matching error; otherwise removes just that environment |
| Configuration.CountEnvsInCluster | features/uninstall.go:98-106 | the number of environments filed in the cluster, or ClusterNotExists |
| Configuration.MutationsKeepValid | actions/config.go:8-84 | every mutation keeps each cluster and environment filed under its own name |
| Configuration.GetEnvAfterPutEnv | actions/config.go:54 | what is set is read back; other environments and the cluster are unchanged |
| Configuration.GetEnvAfterDeleteEnv | actions/config.go:74 | the removed environment is gone, the others are unchanged, and the count drops by one |
| Configuration.PutClusterTwice | actions/create_cluster.go:22-44 | saving a cluster twice under one name: the last one wins, over the same environments |
| Configuration.PutEnvTwice | actions/remove_env.go:17-49 | saving an environment twice under one name: the last one wins |
| Configuration.PutEnvIdempotent | actions/config.go:54 | re-filing an unchanged environment changes nothing |
| Configuration.Config.constructor | features/init.go:99 | the object holds the given record |
| Configuration.Config.Load | features/remove.go:75-81 | the object holds the record looked up |
| Configuration.Config.SetCluster | actions/config.go:15 | the record becomes `PutCluster` of the old one |
| Configuration.Config.SetEnv | actions/config.go:54-58 | on success the record is `PutEnv` of the old one; on failure it is unchanged and the error is returned |
| Configuration.Config.RemoveCluster | actions/config.go:34-38 | on success the record is `DeleteCluster` of the old one; on failure it is unchanged and the error is returned |
| Configuration.Config.RemoveEnv | actions/config.go:74-78 | on success the record is `DeleteEnv` of the old one; on failure it is unchanged and the error is returned |
| Cloud.World.constructor | entities/cloud_service.go:24-26 | the world starts from the given oracle and state |
| Cloud.World.Build | entities/cloud_service.go:25 | one Build call is appended; its error is the oracle's |
| Cloud.World.CheckInstanceTypeValidity | entities/cloud_service.go:15 | one check call with the instance type is appended |
| Cloud.World.CreateYoloConfigStorage | entities/cloud_service.go:6 | one storage-creation call is appended |
| Cloud.World.RemoveYoloConfigStorage | entities/cloud_service.go:7 | one storage-removal call is appended; on success the saved record is gone |
| Cloud.World.LookupYoloConfig | entities/cloud_service.go:9 | the record last saved, YoloNotInstalled when there is none, or the call's error |
| Cloud.World.SaveYoloConfig | entities/cloud_service.go:10 | one save of the snapshot is appended; on success it becomes the saved record |
| Cloud.World.CreateCluster | entities/cloud_service.go:12 | one call with the cluster as passed is appended; the provider may rewrite its infrastructure, even on failure |
| Cloud.World.RemoveCluster | entities/cloud_service.go:13 | the same, for removal |
| Cloud.World.CreateEnv | entities/cloud_service.go:17 | one call with the environment as passed is appended; the provider may rewrite its infrastructure fields, even on failure |
| Cloud.World.RemoveEnv | entities/cloud_service.go:18 | the same, for removal |
| Cloud.World.OpenPort | entities/cloud_service.go:20 | the same, with the port; the port set is the provider's to change |
| Cloud.World.ClosePort | entities/cloud_service.go:21 | the same, with the port |
| Cloud.World.RunHook | entities/hook.go:3-10 | one hook call with the cluster and environment is appended |
| Cloud.World.Confirm | features/remove.go:99 | one prompt is appended; the answer is yes only if the prompt succeeded and the user agreed |
| Cloud.World.HandleOutput | features/init.go:211-221 | one output call is appended; its error is the handler's |
| Actions.UpdateClusterInConfigRun | actions/config.go:8-25 | the cluster is filed, then the record is saved once; the save's result is returned |
| Actions.RemoveClusterInConfigRun | actions/config.go:27-44 | a missing cluster returns ClusterNotExists with no save; otherwise the cluster is removed, one save follows and its result is returned |
| Actions.UpdateEnvInConfigRun | actions/config.go:46-64 | a missing cluster returns its error with no save; otherwise the environment is filed, one save follows and its result is returned |
| Actions.RemoveEnvInConfigRun | actions/config.go:66-84 | a failed removal returns its error with no save; otherwise the environment is gone, one save follows and its result is returned |
| Actions.UpdateClusterInConfig | actions/config.go:8-25 | the method makes the calls and record change of `UpdateClusterInConfigRun` |
| Actions.RemoveClusterInConfig | actions/config.go:27-44 | the method makes the calls and record change of `RemoveClusterInConfigRun` |
| Actions.UpdateEnvInConfig | actions/config.go:46-64 | the method makes the calls and record change of `UpdateEnvInConfigRun` |
| Actions.RemoveEnvInConfig | actions/config.go:66-84 | the method makes the calls and record change of `RemoveEnvInConfigRun` |
| Actions.InstallYoloRun | actions/install_yolo.go:8-24 | storage first; if that fails, its error is returned with no save; otherwise the record, unchanged, is saved and the save's result returned |
| Actions.InstallYolo | actions/install_yolo.go:8-24 | the method makes the calls of `InstallYoloRun` and leaves the record unchanged |
| Actions.CreateClusterRun | actions/create_cluster.go:8-45 | one backend call first, then a save whatever its outcome. A failed save masks the backend error; a backend failure leaves the status as it was. Only when both succeed is the cluster marked Created and saved again, with that save's result returned |
| Actions.CreateClusterStoresRecord | actions/create_cluster.go:38-44 | when no error comes back, the record it leaves is the one saved |
| Actions.CreateCluster | actions/create_cluster.go:8-45 | the method makes the calls, record change and cluster of `CreateClusterRun` |
| Actions.CreateEnvRun | actions/create_env.go:8-38 | one backend call; a missing cluster then returns ClusterNotExists with no save; otherwise a save follows whatever the backend did, and a save failure masks the backend's error; the status is never changed |
| Actions.CreateEnv | actions/create_env.go:8-38 | the method makes the calls, record change and environment of `CreateEnvRun` |
| Actions.RemoveClusterRun | actions/remove_cluster.go:8-56 | the cluster ends Removing. If the first save, of the Removing cluster, fails, only that save is made and its error is returned |
| Actions.RemoveClusterMarksFirst | actions/remove_cluster.go:15-25 | the first call saves the record with the cluster marked Removing |
| Actions.RemoveClusterBackendOutcome | actions/remove_cluster.go:27-48 | after the first save: the backend, then a save of the returned cluster. A failed save masks the backend's error; after a backend failure the cluster stays filed, Removing |
| Actions.RemoveClusterCompletion | actions/remove_cluster.go:50-55 | when the saves and the backend succeed, the cluster is erased from the record and a last save's result is returned |
| Actions.RemoveCluster | actions/remove_cluster.go:8-56 | the method makes the calls, record change and cluster of `RemoveClusterRun` |
| Actions.RemoveEnvFinishRun | actions/remove_env.go:55-74 | the hook, if given, runs first and only there; its failure returns with the environment still filed; otherwise the environment is erased and saved |
| Actions.RemoveEnvRun | actions/remove_env.go:8-75 | whatever the prior status, the environment ends Removing; a missing cluster makes no call |
| Actions.RemoveEnvMarksFirst | actions/remove_env.go:17-24 | the first call saves the record with the environment marked Removing |
| Actions.RemoveEnvMarkFailure | actions/remove_env.go:26-28 | a failed first save ends it with no backend call |
| Actions.RemoveEnvBackendOutcome | actions/remove_env.go:30-53 | after the first save: the backend, then a save whatever the outcome. A failed save masks the backend's error; after a backend failure the environment stays filed, Removing, and no hook runs |
| Actions.RemoveEnvCompletion | actions/remove_env.go:68-74 | without a hook, once the backend and saves succeed, the environment is erased and saved |
| Actions.RemoveEnvCompletionWithHook | actions/remove_env.go:55-74 | with a hook, it runs right after the second save; its failure keeps the environment filed; otherwise the environment is erased and saved |
| Actions.RemoveEnv | actions/remove_env.go:8-75 | the method makes the calls, record change and environment of `RemoveEnvRun` |
| Actions.OpenPortRun | actions/open_port.go:8-40 | one backend call; a missing cluster then returns ClusterNotExists with no save; otherwise a save of the environment as the provider left it follows whatever the backend did, and a save failure masks the backend's error |
| Actions.OpenPort | actions/open_port.go:8-40 | the method makes the calls, record change and environment of `OpenPortRun` |
| Actions.ClosePortRun | actions/close_port.go:8-40 | the same discipline as OpenPort, for closing |
| Actions.ClosePort | actions/close_port.go:8-40 | the method makes the calls, record change and environment of `ClosePortRun` |
| Features.Report | features/init.go:56-63 | the error goes to the output handler, once and last, and is returned whatever the handler does; the saved record is unchanged |
| Features.Emit | features/init.go:211-221 | the content goes to the output handler, once and last, and the handler's result is returned |
| Features.HandleError | features/init.go:56-63 | the method hands the error to the handler and returns it |
| Features.LookupEnv | features/remove.go:83-94 | the default cluster, then the environment in the cluster under that cluster's name, or the first lookup error |
| Features.LookupEnvValid | features/remove.go:83-94 | on a record filed by name, the lookup succeeds exactly when the environment is filed in the default cluster, and gives that cluster and environment |
| Features.LocateSteps | features/remove.go:69-81 | Build then the lookup, with no output and no mutating call; an error exactly when one fails or nothing is installed |
| Features.EditRun | features/edit.go:48-112 | a lookup failure is reported; Removing is refused before Creating; a Created environment is handed out with its cluster. No path saves or makes a mutating call |
| Features.OpenPortFeatureRun | features/open_port.go:52-138 | every path calls the output handler once, last, and returns the error reported |
| Features.ClosePortFeatureRun | features/close_port.go:52-138 | every path calls the output handler once, last, and returns the error reported |
| Features.OpenPortLookupFailure | features/open_port.go:73-98 | a failed lookup is reported and returned, with no mutating call |
| Features.OpenPortStatusGuards | features/open_port.go:100-110 | Removing is refused before Creating, each with its own error and no mutating call |
| Features.OpenPortAlready | features/open_port.go:112-114 | a port already open is reported as such and the action is not called |
| Features.OpenPortActs | features/open_port.go:112-137 | otherwise actions.OpenPort runs right after the lookup and is followed by exactly one output: its error, when it has one, is output and returned; otherwise the content carries the port and the environment as the provider left it, and the handler's result is returned |
| Features.ClosePortLookupFailure | features/close_port.go:73-98 | a failed lookup is reported and returned, with no mutating call |
| Features.ClosePortStatusGuards | features/close_port.go:100-110 | Removing is refused before Creating, each with its own error and no mutating call |
| Features.ClosePortAlready | features/close_port.go:112-114 | a port missing from the set, or mapped to false, counts as closed and the action is not called |
| Features.ClosePortActs | features/close_port.go:112-137 | otherwise actions.ClosePort runs right after the lookup and is followed by exactly one output: its error, when it has one, is output and returned; otherwise the content carries the port and the environment as the provider left it, and the handler's result is returned |
| Features.OpenPortFeature | features/open_port.go:52-138 | the method makes the calls of `OpenPortFeatureRun` and returns its error |
| Features.ClosePortFeature | features/close_port.go:52-138 | the method makes the calls of `ClosePortFeatureRun` and returns its error |
| Features.RemoveFeatureRun | features/remove.go:52-132 | either the output handler is called once, last, or no error comes back and no output was made |
| Features.RemoveLocates | features/remove.go:69-94 | on a successful lookup, the removal goes on from right after Build and the lookup, on the record found |
| Features.RemoveFoundRun | features/remove.go:96-132 | when asked for, the confirmation is the first call after the lookup |
| Features.RemoveConfirmedRun | features/remove.go:112-131 | RemoveEnv's first call marks the environment Removing; exactly one output follows RemoveEnv's calls: its error, when it has one, is output and returned; otherwise the cluster and the Removing environment as RemoveEnv left it are handed out, and the handler's result is returned |
| Features.RemoveLookupFailure | features/remove.go:69-94 | a failed lookup, not-installed included, is reported and returned, with no mutating call |
| Features.RemoveAsksConfirmation | features/remove.go:96-99 | not forced and with a prompt given, the prompt comes right after the lookup |
| Features.RemoveConfirmationFails | features/remove.go:101-103 | a failing prompt is reported and returned, and nothing else is called |
| Features.RemoveSkipsConfirmation | features/remove.go:96 | forced, or without a prompt, no prompt is made |
| Features.RemoveProceeds | features/remove.go:112-131 | once confirmed or not asked, RemoveEnv starts by saving the environment found as Removing, whatever its status; exactly one output follows RemoveEnv's calls: its error, when it has one, is output and returned; otherwise the environment, Removing, is handed out with its cluster |
| Features.RemoveFoundConfirmed | features/remove.go:96-112 | after a yes, or with no prompt, the removal goes on from right after the prompt |
| Features.RemoveFoundProceeds | features/remove.go:112-131 | the same as `RemoveProceeds`, from right after the lookup |
| Features.RemoveDeclined | features/remove.go:105-107 | a declined prompt returns no error, calls no output handler and removes nothing |
| Features.RemoveReported | features/remove.go:52-132 | on every other path, the output handler is called once, last |
| Features.RemoveFeature | features/remove.go:52-132 | the method makes the calls of `RemoveFeatureRun` and returns its error |
| Features.UninstallRun | features/uninstall.go:51-136 | the already-uninstalled content only when nothing was installed, with no mutating call; the uninstalled content only once the storage is gone |
| Features.UninstallClusterRun | features/uninstall.go:88-118 | a default cluster holding environments is refused with UninstallExistingEnvs and nothing else is called; a success means the storage is gone |
| Features.UninstallStorageRun | features/uninstall.go:120-135 | storage removal, then one output: the error on failure, otherwise the uninstalled content |
| Features.UninstallLookupFailure | features/uninstall.go:63-86 | a failed Build or lookup is reported and returned, with nothing removed |
| Features.UninstallNotInstalled | features/uninstall.go:73-83 | nothing installed: the already-uninstalled content right after the lookup, and the handler's result |
| Features.UninstallRefusesExistingEnvs | features/uninstall.go:97-106 | a default cluster holding environments: UninstallExistingEnvs, with no removal of cluster or storage |
| Features.UninstallWithoutCluster | features/uninstall.go:97-126 | no default cluster: the storage is removed right after the lookup |
| Features.UninstallRemovesClusterFirst | features/uninstall.go:108-126 | an empty default cluster: RemoveCluster starts right after the lookup by saving it as Removing; the storage is removed only after the cluster's removal succeeded |
| Features.UninstallClusterMarksFirst | features/uninstall.go:108-113 | the cluster stage starts by saving the empty default cluster as Removing |
| Features.UninstallClusterRemoved | features/uninstall.go:108-120 | once RemoveCluster succeeded, four calls later, the storage stage follows |
| Features.UninstallClusterCompletes | features/uninstall.go:108-126 | then the storage removal is the call after the cluster's removal, and the output ends it |
| Features.UninstallFeature | features/uninstall.go:51-136 | the method makes the calls of `UninstallRun` and returns its error |
| Features.InitRun | features/init.go:55-222 | every path ends with one output, an error or the Init content; a session is handed out exactly with the content and carries the content's cluster and environment |
| Features.InitInstallRun | features/init.go:95-110 | the same reporting and session discipline, over InstallYolo and what follows |
| Features.InitClusterRun | features/init.go:112-147 | the same reporting and session discipline, from the cluster stage on |
| Features.InitEnvRun | features/init.go:149-222 | the same discipline; when the content is handed out, EnvCreated is true exactly when the stage began with CreateEnv; the session's cluster is the one given |
| Features.SetEnvAsCreatedRun | features/init.go:199-209 | the environment becomes Created and is saved through UpdateEnvInConfig, whose result is returned |
| Features.InitBuildFailure | features/init.go:72-76 | a failed Build is reported and returned before any other call |
| Features.InitInstanceTypeFailure | features/init.go:78-85 | a failed instance-type check is reported before the record is looked up |
| Features.InitLookupFailure | features/init.go:87-93 | a lookup error other than not-installed is reported and returned, with nothing installed |
| Features.InitLooksUpRecord | features/init.go:87-112 | with a record saved, the cluster stage starts right after the lookup, on that record |
| Features.InitFindsNothing | features/init.go:91-95 | with nothing installed, the install stage starts right after the lookup |
| Features.InitInstallStorageFirst | features/init.go:95-109 | the install stage creates the storage first; a failure there is reported and returned |
| Features.InitInstallProceeds | features/init.go:99-110 | once InstallYolo succeeded, the cluster stage runs on the empty record |
| Features.InitInstallsFirst | features/init.go:95-142 | InstallYolo saves the empty record, and then CreateCluser runs on a fresh default cluster |
| Features.InitClusterAfterCreation | features/init.go:137-147 | what follows CreateCluser only adds calls after the ones it made |
| Features.InitClusterAbsent | features/init.go:119-142 | no default cluster: CreateCluser runs first, on a fresh default cluster |
| Features.InitClusterResumed | features/init.go:119-142 | a default cluster still Creating: CreateCluser resumes that cluster, not a new one |
| Features.InitClusterReused | features/init.go:119 | a Created or Removing default cluster is used as it is, with no CreateCluser call |
| Features.InitEnvCreatesNoCluster | features/init.go:149-222 | the environment stage never calls CreateCluser |
| Features.InitEnvRemoving | features/init.go:158-162 | an environment being removed: InitRemovingEnv is reported and returned, and CreateEnv is not called |
| Features.InitEnvAlreadyCreated | features/init.go:164-166 | a Created environment: no backend call, and the content says it was not created |
| Features.InitEnvResumed | features/init.go:166-185 | an environment still Creating: CreateEnv resumes it, keeping its id and its status |
| Features.InitEnvFresh | features/init.go:171-185 | no such environment: CreateEnv runs on a fresh one with the given id and time |
| Features.InitEnvSessionFiled | features/init.go:149-221 | on a saved record, the session's record is the saved one, with the cluster and environment filed in it |
| Features.InitClusterSessionFiled | features/init.go:112-221 | the same from the cluster stage on: the default cluster is filed and no longer Creating |
| Features.InitSessionFiled | features/init.go:55-222 | whatever path Init takes, a session it hands out holds the saved record, with the default cluster and the environment filed in it |
| Features.InitFailsEarly | features/init.go:72-93 | a failed Build, check or lookup returns that error and hands out no session |
| Features.InitAfterSetEnvAsCreated | features/init.go:164-209 | after SetEnvAsCreated, a second Init on the same repository creates nothing and hands out the environment as Created, not created this time |
| Features.EnvSession.constructor | features/init.go:199-209 | the session captures the world, the record, the cluster and the environment |
| Features.EnvSession.SetEnvAsCreated | features/init.go:199-209 | the method marks its environment Created and makes the call and record change of `SetEnvAsCreatedRun` |
| Features.InitFeature | features/init.go:55-222 | the method makes the calls of `InitRun`, returns its error and hands out the session |
| Features.InitCluster | features/init.go:112-147 | the method's cluster stage makes the calls of `InitClusterRun` |
| Features.InitEnv | features/init.go:149-222 | the method's environment stage makes the calls of `InitEnvRun` |

## Left out

- Progress reporting through the stepper: it never affects control flow.
- Concrete cloud providers: the cloud service, its builder, the hook, the
  prompt and the output handler are the `Oracle`. Any call may fail, and the
  provider may rewrite the infrastructure fields of the entity it is handed.
- `uuid.NewString` and `time.Now` become the `id` and `now` parameters.
- `slug.Make` and `url.PathEscape` are function parameters.
- `giturls.Parse` and `url.Parse` are the `URLParsers` oracle: each yields a
  host and a path, or fails.
- `SetInfrastructureJSON` and `SetAdditionalPropertiesJSON`: JSON encoding
  is outside the model, so the JSON fields are plain strings the provider
  writes.
- entities/config.go and entities/cluster.go are not part of this model. The
  `Config` methods are taken to be map lookups, updates, deletions and a
  count. A new cluster is taken to start Creating with no infrastructure.
  `DefaultClusterName` is taken to be "default".
- The error branches behind `GetCluster` errors other than ClusterNotExists,
  and behind `CountEnvsInCluster` failing on a cluster just found
  (features/init.go:115-117, features/uninstall.go:93-95, 100-102), cannot be
  taken when the record is a map, so they are not modelled.
- Aliasing: the Go record holds references to the cluster and the
  environment that the actions mutate. The model passes values and re-files
  the entity at each save. So it does not capture an entity changed in the
  record but not yet saved. The saved snapshots agree with the source's.
- A nil record with no lookup error is not modelled. The model's lookup
  fails with YoloNotInstalled exactly when nothing is saved.
- The `SetEnvAsCreated` closure is the `EnvSession` object Init hands out
  beside its content. Its captured cloud service is the world itself.
- Actions.UpdateClusterInConfigRun, Configuration.Config.SetCluster: `SetCluster`
  is taken to be total, so the branch that returns its error without saving
  (actions/config.go:17-19) is not modelled. When `SetCluster` fails is
  decided in entities/config.go, which is not part of this model.
- Strings: Go strings are byte sequences, and the model's `seq<char>` cannot
  hold invalid UTF-8, which Go's `TrimSpace` and `Split` pass through
  untouched. Host-key text and port strings are taken to be valid text.
- Features.OpenPortFeatureRun, Features.ClosePortFeatureRun: their own
  contract is only the reporting discipline. Each path is stated by the
  OpenPort*/ClosePort* lemmas.
- Features.RemoveFeatureRun, Features.InitRun, Features.UninstallRun: their
  own contracts state the reporting and session discipline. The
  path-by-path properties are the Remove*, Init* and Uninstall* lemmas.
- Features.InitAfterSetEnvAsCreated: it starts from a filed, saved session
  rather than from a first Init. Features.InitSessionFiled proves that every
  session Init hands out is such a session.
- Features.InitEnvRun: its contract ties EnvCreated to the stage's first call
  being CreateEnv. That CreateEnv succeeded before the content is handed out
  follows from the reporting discipline and is not stated separately.
- Concurrency and locking: the code is sequential.
- What output handlers do with an output: the handler is one call in the
  trace whose result the oracle decides.

## Findings

| source | as written | input that shows it | evidently intended | confidence | as-written member | corrected member |
|---|---|---|---|---|---|---|
| entities/env.go:142-148 | the reserved-port test compares the input with each reserved entry as strings, after Atoi has accepted leading zeros and a "+" sign | port "022" with reserved ports ["22"]: Atoi gives 22, yet no reserved entry is string-equal, so nil is returned | refuse a port whose numeric value is reserved, however it is spelled | medium, not executed | Entities.CheckPortValidity, Entities.LeadingZeroBypassesReservation | Entities.CheckPortValidityByValue |
