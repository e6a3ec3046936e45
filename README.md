# spanner-operator, modelled in Dafny

spanner-operator is a Kubernetes operator for Cloud Spanner. Two
reconcilers watch the custom resources `SpannerInstance` and
`SpannerDatabase`. Each takes `namespace/name` keys off a rate-limited work
queue, reads the object from its informer cache, and brings the cloud side
in line through an `Operator` facade. The facade has a live implementation
that sends requests to the Spanner instance- and database-admin APIs, and
file-backed mocks that keep JSON records in a directory. Around these sit a
table of instance configurations and a parser for gcloud's configuration
file.

This project models that core and proves properties of it:

- **Reconcilers** (`instance_controller.dfy`, `database_controller.dfy`).
  - `Sync` is a pure function. It says what one `syncHandler(key)` does to a `World`: which facade calls it makes, in order, which clientset `Update` it issues, which event it records, and what it returns.
  - The `Controller` class holds the queue, the facade, the key functions and the lister. Its `SyncHandler` is proved equal to `Sync`. Its `ProcessNextWorkItem` is proved to follow the queue protocol.
  - The lemmas state each branch of `syncHandler` as "exactly these calls", plus convergence and idempotence when there are no faults.
- **Work queue** (`work_queue.dfy`). A class that records every call made on it.
- **Facade seen by the reconcilers** (`cloud.dfy`, `reconcile.dfy`). An in-memory fake: a store of instances and databases, and a log of calls. A fault oracle makes the call with a given index fail with no effect. The `IsNotFoundError` of this fake accepts exactly `NotFound`.
- **Live facades** (`operator.dfy`, `instance_operator.dfy`, `manager.dfy`).
  - They are classes over an admin client whose `i`-th reply comes from an oracle.
  - The requests they build (`admin_requests.dfy`, `resource_names.dfy`) are proved to address the right resource and to change the right fields.
  - Field masks are given field-mask semantics (`AdminApi.ApplyMask`): a field the mask names is taken from the request, every other field is kept.
- **File-backed mocks** (`operator_mock.dfy`, `instance_mock.dfy`, `mock_fs.dfy`). The directory is a map from path to record. JSON (de)serialisation is the identity. Which writes fail is given by a set of paths.
- **Instance-config table** (`instance_config.dfy`, `helper_instance_config.dfy`, `config_table.dfy`). The table of 22 names, with lookup, a linear search and the random pick. The value drawn by `rand.Intn` is an input.
- **gcloud parsers** (`gcloud.dfy`, `helper_gcloud.dfy`, `gcloud_config.dfy`, `go_strings.dfy`).
  - The line loop is a method, proved equal to a fold `Read` over the lines.
  - Go's `strings.Trim` is modelled with its cutset semantics.

Where the design prose and the code disagree, the model follows the code:

- The label step sends exactly the desired labels. It does not send a union of desired and observed labels. The write at `controller.go:318` stores into the observed map the value that map already holds.
- The status written back is the cached object unchanged. No observed field is copied into it.

## Model

| member | source | states |
|---|---|---|
| InstanceController.Controller.SyncHandler | controller.go:245-339 | the method does to queue-independent state exactly what `Sync` says, for every key, cache answer and fault pattern |
| InstanceController.Controller.HandleGone | controller.go:256-273 | the compensating branch makes exactly the calls and returns exactly the error that `Gone` gives |
| InstanceController.Controller.ObserveOrCreate | controller.go:281-300 | read, or create-label-reread, exactly as `Observe` gives |
| InstanceController.Controller.ScaleIfDifferent | controller.go:302-308 | scale only on differing node counts; a failed scale ends the sync with nil |
| InstanceController.Controller.RelabelAndFinish | controller.go:310-338 | label step, status write and event, as `Relabel` gives |
| InstanceController.CompareLabels | controller.go:310-321 | `dirty` holds iff some observed label is missing from the desired labels or differs there; the observed map is left as it was |
| InstanceController.DesiredOnlyKeysNeverDirty | controller.go:310-321 | adding desired labels on keys nobody observes never changes the verdict |
| InstanceController.SyncGone | controller.go:256-273 | object gone from the cache: an absent instance gives nil after one `GetInstance`; a present one gets exactly one `DeleteInstance(name)`, whose error is returned; no `Update`, no event |
| InstanceController.SyncGoneGetFails | controller.go:262-268 | a failing first `GetInstance` changes nothing; NotFound gives nil, any other error is returned |
| InstanceController.SyncWithoutObjectWritesNothing | controller.go:249-279 | without a cached object: no `Update`, no event, only `GetInstance`/`DeleteInstance` calls; an unsplittable key makes no call at all and returns nil; a lister error is returned as it is, with no call |
| InstanceController.SyncCreatesMissing | controller.go:281-300 | absent instance, no faults: `GetInstance`, one `CreateInstance(displayName, name, config, nodeCount)`, `UpdateLabels` only for non-empty labels, a re-read, then the status write; the store then holds the spec and the labels |
| InstanceController.SyncCreateFails | controller.go:284-287 | a failed create is returned and nothing after it happens |
| InstanceController.SyncExisting | controller.go:281-339 | existing instance, no faults: `Scale(name, n)` iff node counts differ, `UpdateLabels(name, desired)` iff dirty, then one `Update` of the cached object and the event iff that succeeds |
| InstanceController.RelabelWithoutFaults | controller.go:310-338 | without faults, `UpdateLabels(name, desired)` is sent exactly when the label step is dirty and replaces the instance's labels; then one `Update` of the cached object, with the event iff it succeeds |
| InstanceController.SyncScaleFailureSwallowed | controller.go:302-308 | a failed scale returns nil with no label step, no `Update` and no event |
| InstanceController.ConvergeStatusWritten | controller.go:302-338 | after the read, either nothing is written or exactly one `Update` of the cached object is made and an error can only be its error |
| InstanceController.SyncStatusWrite | controller.go:330-352 | the only `Update` is of the cached object unchanged; its error is returned and suppresses the Synced event |
| InstanceController.SyncConverges | controller.go:245-339 | without faults the sync returns nil and leaves the instance with the desired node count and no label the object lacks |
| InstanceController.SyncIdempotent | controller.go:245-339 | a second fault-free sync of the same key only reads the instance and changes nothing in the facade |
| InstanceController.SyncPreservesConsistency | controller.go:245-339 | whatever the faults, a sync only appends to the facade's call log and never leaves a database without its instance |
| InstanceController.Controller.UpdateStatus | controller.go:341-352 | one `Update` of a copy of the cached object, failing as the oracle says |
| InstanceController.Controller.ProcessNextWorkItem | controller.go:163-214 | shutdown: returns false after one `Get`; otherwise Get, then Forget on success or a non-key item, AddRateLimited(key) on a sync error, then Done; a non-key item is never synced |
| InstanceController.Controller.RunWorker | controller.go:156-159 | on a shutting-down queue: the log is the `Drain` of the old queue (one round per item, in queue order, each key synced and requeued iff its sync failed) and then the shutdown report; the new state is the world that fold ends in |
| InstanceController.Controller.Enqueue | controller.go:357-365 | the key of the object goes on the queue; an object without a key is dropped |
| InstanceController.Controller.Notify | controller.go:113-118 | additions and updates add the (new) object's key to the log, and to the pending items unless the queue is shutting down; an object without a key and every deletion change nothing |
| DatabaseController.Controller.SyncHandler | pkg/controllers/databaseadmins/controller.go:221-275 | the method does exactly what `Sync` says |
| DatabaseController.SyncWithoutObject | pkg/controllers/databaseadmins/controller.go:225-244 | an unsplittable key or a database gone from the cache returns nil with no call and no drop; a lister error is returned with no call |
| DatabaseController.SyncOwnerCheck | pkg/controllers/databaseadmins/controller.go:246-253 | a missing owning instance gives BadRequest after the single `GetInstance`; any other error is returned unchanged |
| DatabaseController.SyncCreatesMissing | pkg/controllers/databaseadmins/controller.go:255-275 | no faults: `GetDatabase`, then `CreateDatabase(instanceId, name)` exactly when the database is absent, then one `Update` of the cached object and the event iff that succeeds |
| DatabaseController.SyncDatabaseCallFails | pkg/controllers/databaseadmins/controller.go:256-264 | a failed `GetDatabase` (not NotFound) or `CreateDatabase` is returned, with no `Update` and no event |
| DatabaseController.SyncIdempotent | pkg/controllers/databaseadmins/controller.go:221-275 | after a fault-free sync the database exists, and a second one only reads and changes nothing |
| DatabaseController.SyncPreservesConsistency | pkg/controllers/databaseadmins/controller.go:221-275 | whatever the faults, a sync only appends to the facade's call log and never leaves a database without its instance |
| DatabaseController.Controller.UpdateStatus | pkg/controllers/databaseadmins/controller.go:277-288 | one `Update` of a copy of the cached object |
| DatabaseController.Controller.ProcessNextWorkItem | pkg/controllers/databaseadmins/controller.go:165-216 | the same queue protocol as the instance reconciler |
| DatabaseController.Controller.RunWorker | pkg/controllers/databaseadmins/controller.go:158-161 | the log is the `Drain` of the old queue under this reconciler's `Sync`, then the shutdown report; the new state is the world that fold ends in |
| DatabaseController.Controller.Enqueue | pkg/controllers/databaseadmins/controller.go:293-301 | the key goes on the queue; a key error drops the object |
| DatabaseController.Controller.Notify | pkg/controllers/databaseadmins/controller.go:115-120 | additions and updates add the key to the log, and to the pending items unless the queue is shutting down; there is no deletion handler |
| WorkQueue.RoundsBalanced | controller.go:163-214 | in a log of whole rounds, items handed out, `Done` calls, and `Forget`-or-`AddRateLimited` calls are equal in number |
| WorkQueue.RoundsAppend | controller.go:156-159 | one more round keeps a log made of whole rounds |
| WorkQueue.Round | controller.go:196-210 | the round of an item is a Get, then AddRateLimited iff its sync failed (Forget otherwise), then Done of the same item |
| Cloud.Facade.Invoke | pkg/operator/builder.go:30-45 | each facade call is logged and answered by the fault oracle or by the store |
| Cloud.ApplyKeepsStore | pkg/operator/builder.go:30-45 | a failed or read-only call leaves the store unchanged; no call orphans a database |
| Cloud.NotFoundIffMissing | pkg/operator/builder.go:43-44 | a call's error is one `IsNotFoundError` accepts exactly when the instance or database it addresses is missing; a create never fails that way |
| Reconcile.DrainRounds | controller.go:156-214 | draining gives whole rounds, one per item, and round i hands out item i |
| Reconcile.Finish | controller.go:330-338 | the status write is of the cached object; the Synced event is recorded iff it succeeds, and its failure is the error |
| LiveOperator.Operator.UpdateInstance | pkg/operator/operator.go:14-24 | both a failed start and a failed `Wait` are returned |
| LiveOperator.Operator.CreateInstance | pkg/operator/operator.go:26-55 | the request carries the facade's own `instanceId` field; only a failed start is returned, a failed `Wait` is dropped |
| LiveOperator.Operator.GetInstance | pkg/operator/operator.go:57-68 | addresses `projects/{p}/instances/{id}`; an error or the instance |
| LiveOperator.Operator.Scale | pkg/operator/operator.go:70-88 | sends a request that changes the node count and nothing else; `Wait` errors returned |
| LiveOperator.Operator.DeleteInstance | pkg/operator/operator.go:90-97 | addresses the named instance; its error is returned |
| LiveOperator.Operator.UpdateLabels | pkg/operator/operator.go:99-117 | sends the labels with mask `labels`; `Wait` errors returned |
| LiveOperator.Operator.CreateDatabase | pkg/operator/operator.go:119-134 | parent is the instance, the statement names the database; only a failed start is returned |
| LiveOperator.Operator.GetDatabase | pkg/operator/operator.go:136-143 | addresses `projects/{p}/instances/{i}/databases/{name}` |
| LiveOperator.Operator.DropDatabase | pkg/operator/operator.go:145-152 | addresses the named database; its error is returned |
| LiveOperator.IsNotFoundErrorExact | pkg/operator/operator.go:154-157 | NotFound iff the error carries gRPC code NotFound |
| LiveOperator.Operator.Build | pkg/operator/builder.go:103-108 | only the project id and the clients are set; `instanceId` stays empty |
| LiveOperator.BuiltOperatorCreateRequestMalformed | pkg/operator/operator.go:41-45 | from a built operator, the create request for any non-empty id does not name the instance it carries |
| InstanceOperator.Operator.Build | pkg/operator/instance/builder.go:63-66 | only the project id and the client are set |
| InstanceOperator.Operator.UpdateInstance | pkg/operator/instance/instance.go:71-81 | both a failed start and a failed `Wait` are returned |
| InstanceOperator.Operator.CreateInstance | pkg/operator/instance/instance.go:27-56 | request from the unset `instanceId` field; a failed `Wait` is dropped |
| InstanceOperator.Operator.GetInstance | pkg/operator/instance/instance.go:58-69 | an error or the instance |
| InstanceOperator.Operator.Scale | pkg/operator/instance/instance.go:83-101 | changes only the node count; `Wait` errors returned |
| InstanceOperator.Operator.DeleteInstance | pkg/operator/instance/instance.go:103-110 | addresses the named instance |
| InstanceOperator.Operator.UpdateLabels | pkg/operator/instance/instance.go:112-130 | changes only the labels; `Wait` errors returned |
| Manager.SpannerManager.Build | pkg/manager/builder.go:43-82 | the manager keeps the project, the instance id and the configuration's name, or "" when the configuration step was skipped |
| Manager.SpannerManager.CreateInstance | pkg/manager/client.go:26-50 | a well-formed create of the manager's own instance with node count 1 and `name` as display name; a failed `Wait` is dropped |
| Manager.SpannerManager.ScaleNode | pkg/manager/client.go:52-75 | changes only the node count of the manager's instance; `Wait` errors returned |
| Manager.SpannerManager.DeleteInstance | pkg/manager/client.go:77-84 | deletes the manager's own instance |
| Manager.SpannerManager.UpdateLabels | pkg/manager/client.go:86-107 | the labels go out under the mask `node_count`, so the request never asks for the labels and asks for node count 0 |
| Manager.IntendedLabelsRequest | pkg/manager/client.go:86-107 | the intended request replaces the labels and nothing else |
| AdminRequests.CreateInstanceRequestAddresses | pkg/operator/operator.go:34-45 | the create request names the instance and the configuration of its project and carries display name and node count |
| AdminRequests.CreateInstanceRequestWellFormedIff | pkg/operator/operator.go:36-45 | a create request is well formed iff its instance id is that of the instance it names |
| AdminRequests.IntendedCreateInstanceRequest | pkg/operator/operator.go:36-45 | the request with the argument as instance id is well formed and names that instance |
| AdminRequests.ScaleRequest | pkg/operator/operator.go:76-81 | applied under its mask, it changes the node count and nothing else |
| AdminRequests.LabelsRequestApplies | pkg/operator/operator.go:101-110 | under mask `labels` the request replaces the labels and nothing else |
| AdminRequests.LabelsRequestUnderNodeCountMask | pkg/manager/client.go:89-98 | under field-mask semantics, mask `node_count` keeps the labels and takes the request's node count, 0 |
| AdminRequests.GetInstanceRequestFor | pkg/operator/operator.go:59 | the name parses back to project and instance id |
| AdminRequests.DeleteInstanceRequestFor | pkg/operator/operator.go:92 | the name parses back to project and instance id |
| AdminRequests.CreateDatabaseRequestFor | pkg/operator/operator.go:120-125 | the parent parses back to the instance and the statement to the database name |
| AdminRequests.GetDatabaseRequestFor | pkg/operator/operator.go:138 | the name parses back to project, instance and database |
| AdminRequests.DropDatabaseRequestFor | pkg/operator/operator.go:147 | the name parses back to project, instance and database |
| ResourceNames.InstanceNameRoundTrip | pkg/operator/operator.go:34 | `projects/{p}/instances/{i}` parses back to (p, i) for a project id without '/' |
| ResourceNames.InstanceNameInjective | pkg/operator/operator.go:34 | different (project, id) pairs give different instance names |
| ResourceNames.InstanceConfigNameRoundTrip | pkg/operator/operator.go:38 | `projects/{p}/instanceConfigs/{c}` parses back to (p, c) |
| ResourceNames.DatabaseNameRoundTrip | pkg/operator/operator.go:138 | the database name parses back to (p, i, name) |
| ResourceNames.CreateDatabaseStatementRoundTrip | pkg/operator/operator.go:122 | the CREATE DATABASE statement gives back the database name |
| OperatorMock.NotFoundIffMissing | pkg/operator/operator_mock.go:18-20 | a failed read is a NotFound error exactly when the file is missing |
| OperatorMock.OperatorMockFacade.BuildMock | pkg/operator/builder.go:111-121 | the mock's data directory is `dataPath` itself |
| OperatorMock.CreatedInstance | pkg/operator/operator_mock.go:22-37 | the stored record names `projects/{p}/instances/{id}`, keeps the given fields, is READY and labelled `mock=true` |
| OperatorMock.OperatorMockFacade.CreateInstance | pkg/operator/operator_mock.go:22-38 | writes that record to `{dataDir}/{projectId}/instance_{id}.json`; only the write error is returned |
| OperatorMock.OperatorMockFacade.GetInstance | pkg/operator/operator_mock.go:40-57 | reads `{dataDir}/instance_{id}.json` |
| OperatorMock.OperatorMockFacade.Scale | pkg/operator/operator_mock.go:59-74 | a failed read is returned; otherwise only the node count changes and nil is returned even if the write fails |
| OperatorMock.OperatorMockFacade.DeleteInstance | pkg/operator/operator_mock.go:76-80 | removes the record; a missing one gives a not-exist error |
| OperatorMock.OperatorMockFacade.UpdateLabels | pkg/operator/operator_mock.go:82-97 | replaces the labels wholesale, keeps the rest; write failures ignored |
| OperatorMock.OperatorMockFacade.CreateDatabase | pkg/operator/operator_mock.go:99-107 | writes `{dataDir}/database_{name}.json`, whatever the instance, overwriting; only the write error is returned |
| OperatorMock.OperatorMockFacade.GetDatabase | pkg/operator/operator_mock.go:109-126 | reads the record of that name, whatever the instance |
| OperatorMock.OperatorMockFacade.DropDatabase | pkg/operator/operator_mock.go:128-132 | removes the record of that name; missing gives not-exist |
| OperatorMock.CreatedPathIsNotInstancePath | pkg/operator/operator_mock.go:36-42 | for ids without '/', the path written by create is never a path the other methods read |
| OperatorMock.GetAfterCreateMisses | pkg/operator/operator_mock.go:22-57 | a get right after a successful create still finds no file |
| MockFs.InstanceRoundTrip | pkg/operator/operator_mock.go:36-52 | a record written and read back is the record |
| InstanceMock.PathInjective | pkg/operator/instance/mock_instance.go:31 | different ids have different files |
| InstanceMock.CreatedInstance | pkg/operator/instance/mock_instance.go:17-33 | the stored record names project `<project>`, keeps the given fields, is READY and labelled `mock=true` |
| InstanceMock.InstanceMockFacade.BuildMock | pkg/operator/instance/builder.go:69-78 | the mock keeps `dataPath` |
| InstanceMock.InstanceMockFacade.CreateInstance | pkg/operator/instance/mock_instance.go:17-33 | writes the record to `{dataPath}/{id}.json`; only the write error is returned |
| InstanceMock.InstanceMockFacade.GetInstance | pkg/operator/instance/mock_instance.go:35-47 | reads the same file |
| InstanceMock.InstanceMockFacade.Scale | pkg/operator/instance/mock_instance.go:49-64 | only the node count changes; nil once the read succeeds |
| InstanceMock.InstanceMockFacade.DeleteInstance | pkg/operator/instance/mock_instance.go:66-70 | removes the file; a missing one gives not-exist |
| InstanceMock.InstanceMockFacade.UpdateLabels | pkg/operator/instance/mock_instance.go:72-87 | replaces the labels wholesale, keeps the rest |
| InstanceMock.GetAfterCreate | pkg/operator/instance/mock_instance.go:17-47 | a get after a create of the same id returns exactly the stored record; other ids are unaffected |
| InstanceMock.GetAfterDelete | pkg/operator/instance/mock_instance.go:66-70 | a get after a delete fails with not-exist |
| ConfigTable.IndexOf | pkg/config/instance_config/instance_config.go:64-71 | the first index holding the name, or the table's length |
| ConfigTable.FindIndex | pkg/config/instance_config/instance_config.go:64-71 | the loop returns the first matching index, and 0 when there is none |
| ConfigTable.LookupRoundTrip | pkg/config/instance_config/instance_config.go:64-71 | in a table without duplicates, looking up entry i gives i |
| ConfigTable.LookupUnknown | pkg/config/instance_config/instance_config.go:70 | a missing name gives 0 |
| InstanceConfig.FindByName | pkg/config/instance_config/instance_config.go:64-71 | an index in range whose name is the argument, or `Undefined` when no entry matches |
| InstanceConfig.TableDistinct | pkg/config/instance_config/instance_config.go:35-58 | the 22 names are pairwise different |
| InstanceConfig.FindByNameRoundTrip | pkg/config/instance_config/instance_config.go:35-71 | `FindByName(String(c)) == c` for every c in range |
| InstanceConfig.FindUndefined | pkg/config/instance_config/instance_config.go:36 | "undefined" and unknown names both give `Undefined` |
| InstanceConfig.RegionalUsWast1Name | pkg/config/instance_config/instance_config.go:32 | constant 21 names "regional-us-west1" |
| InstanceConfig.GetRandomInstanceConfig | pkg/config/instance_config/instance_config.go:73-79 | the pick is one of the first 21 entries and never "regional-us-west1" |
| InstanceConfig.RandomMayBeUndefined | pkg/config/instance_config/instance_config.go:77 | the draw 0 is possible and picks "undefined" |
| InstanceConfig.IntendedRandomInstanceConfig | pkg/config/instance_config/instance_config.go:74-77 | an index drawn from min to max never picks "undefined" |
| InstanceConfig.IntendedRandomCoversAll | pkg/config/instance_config/instance_config.go:74-77 | and every defined configuration can be picked |
| HelperInstanceConfig.SameTable | cmd/helper/instance_config.go:35-58 | the table is the same, entry for entry, as the package's |
| HelperInstanceConfig.StringRoundTrip | cmd/helper/instance_config.go:60-62 | `String()` gives the package's name for the same value, and that name is found back to the value |
| HelperInstanceConfig.FindInstanceConfigByName | cmd/helper/instance_config.go:64-71 | the matching index, else `InstanceConfigUndefined` |
| HelperInstanceConfig.FindAgrees | cmd/helper/instance_config.go:64-71 | it agrees with the package's `FindByName` on every name |
| HelperInstanceConfig.GetRandomInstanceConfig | cmd/helper/instance_config.go:73-79 | the same pick as the package's, for the same draw |
| GoStrings.TrimPrefix | pkg/helper/gcloud/gcloud.go:42 | removes the prefix when present, else returns the string |
| GoStrings.Trim | pkg/helper/gcloud/gcloud.go:45 | the result is an infix whose surroundings are all cutset characters and whose ends are not |
| GoStrings.TrimLeftOf | pkg/helper/gcloud/gcloud.go:45 | cutset characters before a non-cutset character are all removed |
| GcloudConfig.ReadProjectIdTail | pkg/helper/gcloud/gcloud.go:41-43 | lines without the project prefix leave the project id as it was |
| GcloudConfig.ReadProjectIdLast | pkg/helper/gcloud/gcloud.go:41-43 | projectId is the text after `project = ` on the last such line |
| GcloudConfig.ReadProjectIdNone | pkg/helper/gcloud/gcloud.go:29 | without such a line projectId is "" |
| GcloudConfig.ReadInstanceConfigTail | pkg/helper/gcloud/gcloud.go:44-48 | lines without the region prefix leave the configuration as it was |
| GcloudConfig.ReadInstanceConfigLast | pkg/helper/gcloud/gcloud.go:44-48 | instanceConfig comes from the last `region = ` line: `regional-` plus the trimmed value, or the fallback if unknown |
| GcloudConfig.ReadInstanceConfigNone | pkg/helper/gcloud/gcloud.go:30 | without a region line instanceConfig is "" |
| GcloudConfig.ReadInstanceConfigRange | pkg/helper/gcloud/gcloud.go:44-48 | instanceConfig is "", a known configuration, or a fallback |
| GcloudConfig.StepFields | pkg/helper/gcloud/gcloud.go:40-48 | a `project = ` line sets the project id to the text after the prefix; a `region = ` line sets the configuration to the resolved region; each field is kept otherwise |
| GcloudConfig.ReadSnoc | pkg/helper/gcloud/gcloud.go:32-50 | one more line is one more step of the fold |
| GcloudConfig.RegionConfigOf | pkg/helper/gcloud/gcloud.go:45 | a region that starts and ends outside the cutset is kept whole |
| GcloudConfig.RegionConfigDropsLeading | pkg/helper/gcloud/gcloud.go:45 | a leading cutset letter of the region is lost |
| GcloudConfig.EuropeWest1Mangled | pkg/helper/gcloud/gcloud.go:44-48 | `region = europe-west1` gives the unknown `regional-urope-west1`, although `regional-europe-west1` is known |
| GcloudConfig.EuropeWest1FallsBack | pkg/helper/gcloud/gcloud.go:46-48 | so that line reads as the fallback |
| GcloudConfig.IntendedRegionConfigOf | pkg/helper/gcloud/gcloud.go:44-45 | stripping the prefix only keeps every region whole |
| GcloudConfig.IntendedEuropeWest1 | pkg/helper/gcloud/gcloud.go:44-45 | with it `region = europe-west1` gives the known `regional-europe-west1` |
| Gcloud.GetDefaults | pkg/helper/gcloud/gcloud.go:29-51 | EOF gives the fold over all lines with "" as fallback; a read error gives ("", "", err) |
| Gcloud.ReadConfigKnownOrEmpty | pkg/helper/gcloud/gcloud.go:46-48 | the config read is "" or a known configuration |
| Gcloud.EuropeWest1ReadsEmpty | pkg/helper/gcloud/gcloud.go:44-48 | a europe-west1 region reads as "" |
| HelperGcloud.RandomFallbacks | cmd/helper/gcloud.go:45-47 | the fallback of each line is the random pick for its draw |
| HelperGcloud.GetGCPDefaults | cmd/helper/gcloud.go:28-50 | the same loop with a random configuration as fallback; a read error gives ("", "", err) |
| HelperGcloud.ReadConfigInTable | cmd/helper/gcloud.go:43-47 | the config read is "" (no region line) or a table entry |
| HelperGcloud.EuropeWest1MayReadUndefined | cmd/helper/gcloud.go:43-47 | a europe-west1 region can read as "undefined" |

## Left out

- The work queue's internals are not modelled: deduplication, per-key exclusion, the back-off timer, and the delayed re-add after `AddRateLimited`. `AddRateLimited` is recorded and puts nothing back. A blocking `Get` on an empty live queue is excluded by its precondition.
- `Run`, worker goroutines, `wait.Until`, cache sync and signal handling are concurrency and lifecycle. Only one worker draining a shutting-down queue is modelled.
- `cache.SplitMetaNamespaceKey`, `cache.MetaNamespaceKeyFunc` and the listers are library code. They are function-valued fields with arbitrary results.
- The event recorder is a log of events. klog, `log` and `utilruntime.HandleError` output is not modelled.
- `handleObject` is left out because it is registered with no informer.
- The reconcilers' facade is an in-memory fake, not the live Spanner service. Faults come from an oracle keyed by call index.
- The live admin clients are oracles. gRPC transport and the long-running `Wait` are their replies. Credentials and client construction in the builders are left out.
- JSON marshalling is the identity. A marshal error cannot happen in the model. A document of the other kind decodes to a record that keeps only its name.
- Failures of `os.Remove` other than not-exist, and failures of `os.MkdirAll` in `BuildMock`, are not modelled.
- Opening gcloud's configuration files and finding the active configuration are reduced to one `setupError` input. `ReadLine`'s `isPrefix` for over-long lines is ignored: each element of `lines` is one line.
- The random seed and `rand.Intn` are reduced to the drawn value, which is an input.
- AdminApi.ApplyMask: field-mask semantics are assumed and are not tied to the admin-client oracle's replies; the live service may instead reject a node count of 0.
- `int32` arithmetic: no operation in the core computes on node counts, so none is modelled.
- The log-only mocks `pkg/operator/mock_operator.go` and `pkg/manager/mock.go` are not part of this model. The `cmd/` command wiring is not part of this model either.

## Findings

| source | as written | input that shows it | evidently intended | confidence | as-written member | corrected member |
|---|---|---|---|---|---|---|
| pkg/helper/gcloud/gcloud.go:44-45 | `strings.Trim(s, "region = ")` strips every leading and trailing character from the set {r,e,g,i,o,n,' ','='} (the same call is at cmd/helper/gcloud.go:44) | the line `region = europe-west1` gives `regional-urope-west1`, which is unknown, so the config read is "" (a random pick in cmd/helper) | strip the prefix `region = ` only | high, not executed | GcloudConfig.EuropeWest1Mangled | GcloudConfig.IntendedRegionConfigOf |
| pkg/config/instance_config/instance_config.go:73-79 | `rand.Intn((max - min) + min)` draws from [0, 21) (the same code is at cmd/helper/instance_config.go:73-79) | the draw 0 picks "undefined"; "regional-us-west1" can never be picked | draw from [min, max], that is `rand.Intn(max - min + 1) + min` | high, not executed | InstanceConfig.RandomMayBeUndefined | InstanceConfig.IntendedRandomInstanceConfig |
| pkg/manager/client.go:89-98 | `UpdateLabels` sends the labels with the field mask `node_count` | any labels: the labels are never asked for, and the request asks for node_count 0 | the mask `labels` | high, not executed | AdminRequests.LabelsRequestUnderNodeCountMask | Manager.IntendedLabelsRequest |
| pkg/operator/operator.go:41-45 | the create request's `InstanceId` is the facade's `instanceId` field, which `Build` never sets (the same at pkg/operator/instance/instance.go:36-46) | `CreateInstance("d", "my-instance", "regional-us-east1", 1)` sends InstanceId "" for the instance `projects/{p}/instances/my-instance` | use the `instanceId` argument | high, not executed | LiveOperator.BuiltOperatorCreateRequestMalformed | AdminRequests.IntendedCreateInstanceRequest |
