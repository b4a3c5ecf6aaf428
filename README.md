# Topology-aware scheduling deployer: manifest set and deploy commands

A Dafny model of two parts of the `deployer` tool, which installs the components of
topology-aware scheduling on a Kubernetes or OpenShift cluster.

- **The resource-topology-exporter manifest set** (`pkg/manifests/rte/rte.go`). A set holds
  up to six Kubernetes objects: Namespace, ServiceAccount, Role, RoleBinding, ConfigMap and
  DaemonSet. It also holds the platform and the namespace and service account the exporter
  runs under. A set `GetManifests` builds owns its own Namespace and ServiceAccount on
  Kubernetes; on every other platform it owns neither, and uses the fixed names
  `openshift-monitoring` and `node-exporter`. A set `GetManifestsForNamespace` builds runs in
  the caller's namespace on every platform and never owns a Namespace.
  The model covers the following operations:
  - building a set from templates (`GetManifests`, `GetManifestsForNamespace`);
  - cloning it (`Clone`);
  - patching a clone (`Update`, `createConfigMap`);
  - listing the set's objects for rendering, creation and deletion (`ToObjects`,
    `ToCreatableObjects`, `ToDeletableObjects`). Creation and deletion attach wait steps.
- **The deploy and remove commands** (`pkg/commands/deploy.go`). Every command first records
  the detected platform and refuses an unknown one.
  - The full deploy calls `api`, `updater` and `sched` in that order and stops at the first
    error.
  - The full remove calls them in the reverse order. It logs every error and returns nil.
  - The six single-subsystem subcommands make one call each and return its error.

Layout:

| file | module | what |
|---|---|---|
| `wrappers.dfy` | `Wrappers` | `Option`, `Result`, `Error` |
| `platform.dfy` | `Platform` | the platform enumeration |
| `objects.dfy` | `Objects` | the Kubernetes objects, one class each, with a value `View()` and `DeepCopy` where the set needs them |
| `sequencing.dfy` | `Sequencing` | fail-fast (`FirstError`, `Attempts`) and fail-soft (`Failures`) runs of steps |
| `rte.dfy` | `Rte` | `Manifests`, `Clone`, `Update`, `createConfigMap`, the two constructors |
| `rte_objects.dfy` | `RteObjects` | the three object lists and their specification |
| `rte_properties.dfy` | `RteProperties` | properties of the lists, of `Clone` and of `Update` |
| `commands.dfy` | `Commands` | platform check, full deploy, full remove, subcommands |

How the model is built:

- **Sets and objects.** `Manifests` is a value, like the Go struct, and its object fields
  are references to heap objects, like the Go pointers. The Role, RoleBinding and DaemonSet
  are never nil. The Namespace, ServiceAccount and ConfigMap may be nil.
- **Views.** `View(mf)` is the value of a set at one moment. `Clone`, `Update` and the
  constructors are methods that allocate objects. Each is specified by the view of what it
  returns, plus the freshness of every object it returns.
- **Object lists.** Each list is specified by `Listed`: the set's objects of some kinds,
  in one fixed order of kinds per list.
- **Wait steps.** A wait step is a tag holding the object it watches, as the Go closure
  does: `PodsRunningByRegex`, `PodsGoneByRegex` or `NamespaceGone`.
- **Order and ownership.** `ToObjects` puts the ServiceAccount before the Namespace. A set
  `GetManifests` builds owns its Namespace and ServiceAccount on Kubernetes only; elsewhere it
  uses the existing `openshift-monitoring` namespace and `node-exporter` service account. A
  set `GetManifestsForNamespace` builds takes the caller's namespace and never owns a Namespace.

## Model

| member | source | states |
|---|---|---|
| `Rte.Clone` | pkg/manifests/rte/rte.go:52-69 | the clone holds fresh copies of the Role, RoleBinding and DaemonSet, of the Namespace when present, and of the ServiceAccount on Kubernetes only; it never holds a ConfigMap; the internal fields are kept; the input is not modified |
| `Rte.CreateConfigMap` | pkg/manifests/rte/rte.go:91-107 | a fresh ConfigMap of kind `ConfigMap`, version `v1`, named `rte-config` in the given namespace, holding exactly `config.yaml` mapped to the payload |
| `Rte.Update` | pkg/manifests/rte/rte.go:76-89 | as written: needs a Kubernetes set with a ServiceAccount; returns a fresh set equal to the clone with the namespace written into the ServiceAccount, Role and DaemonSet, the service account into the DaemonSet's pod template, and a ConfigMap exactly when the payload is non-empty |
| `Rte.UpdateGuarded` | pkg/manifests/rte/rte.go:76-89 | the same result as `Update` for every set of every platform, with the ServiceAccount write skipped when the clone has none |
| `Rte.WorkloadLoads` | pkg/manifests/rte/rte.go:193-204 | the first loader error of each constructor: Namespace and ServiceAccount first (Kubernetes only), then Role, RoleBinding, DaemonSet |
| `Rte.GetManifests` | pkg/manifests/rte/rte.go:172-206 | fails exactly when a loader fails, with the first loader's error. On success: Namespace and ServiceAccount from the templates with the internal names taken from them on Kubernetes; no Namespace or ServiceAccount and the names `openshift-monitoring`/`node-exporter` elsewhere; Role, RoleBinding and DaemonSet as loaded; no ConfigMap; the set has the owned shape |
| `Rte.GetManifestsForNamespace` | pkg/manifests/rte/rte.go:208-236 | as `GetManifests`, but the namespace is the caller's, no Namespace object is ever set, and no Namespace loader is called |
| `RteObjects.ToObjects` | pkg/manifests/rte/rte.go:109-125 | the set's objects in the order ServiceAccount (Kubernetes only), Namespace (when present), Role, RoleBinding, ConfigMap (when present), DaemonSet |
| `RteObjects.ToCreatableObjects` | pkg/manifests/rte/rte.go:127-147 | the set's objects in the order Namespace and ServiceAccount (Kubernetes only), ConfigMap (when present), Role, RoleBinding, DaemonSet; the DaemonSet waits for its pods to run, nothing else waits |
| `RteObjects.ToDeletableObjects` | pkg/manifests/rte/rte.go:149-170 | on Kubernetes a single entry, the Namespace, waiting for it to be gone; elsewhere DaemonSet, Role, RoleBinding, ConfigMap (when present), where only the DaemonSet waits, for its pods to be gone |
| `RteProperties.ListedHolds` | pkg/manifests/rte/rte.go:109-170 | a list holds the set's object of a kind exactly when that kind is listed |
| `RteProperties.ListedMembers` | pkg/manifests/rte/rte.go:109-170 | a list holds only the set's own objects, of listed kinds |
| `RteProperties.RenderedObjects` | pkg/manifests/rte/rte.go:109-125 | the rendered list holds the ServiceAccount exactly on Kubernetes, the Namespace and ConfigMap exactly when present, and always the Role, RoleBinding and DaemonSet |
| `RteProperties.RenderedOwnedHasNoNil` | pkg/manifests/rte/rte.go:109-125 | for a set of the shape the constructors build, the rendered list has no nil entry |
| `RteProperties.RenderingOrder` | pkg/manifests/rte/rte.go:118-123 | on Kubernetes the rendered list opens with the ServiceAccount, then the Namespace when present; elsewhere with the Namespace when present; it always closes with the DaemonSet |
| `RteProperties.CreationOrder` | pkg/manifests/rte/rte.go:127-147 | creation opens with Namespace, ServiceAccount on Kubernetes, creates the ConfigMap before the DaemonSet and closes with the DaemonSet |
| `RteProperties.CreationMatchesRendering` | pkg/manifests/rte/rte.go:109-147 | when the Namespace is present exactly on Kubernetes, creation and rendering hold the same objects |
| `RteProperties.NamespacedSetListsNilNamespace` | pkg/manifests/rte/rte.go:139-155 | a Kubernetes set without a Namespace object (as `GetManifestsForNamespace` builds) still lists a nil Namespace first for creation, and as the only entry for deletion |
| `RteProperties.DeletionUndoesCreation` | pkg/manifests/rte/rte.go:149-170 | off Kubernetes, deletion holds exactly the objects creation holds, and the DaemonSet created last is deleted first; on Kubernetes, deletion holds only the Namespace created first and waits for it to be gone |
| `RteProperties.CloneKeepsOwnedSet` | pkg/manifests/rte/rte.go:52-69 | a set of the owned shape loses only its ConfigMap when cloned |
| `RteProperties.CloneServiceAccountOnlyOnKubernetes` | pkg/manifests/rte/rte.go:62-64 | off Kubernetes the clone never has a ServiceAccount; for a set of the owned shape it has one exactly on Kubernetes |
| `RteProperties.UpdateUndefinedOffKubernetes` | pkg/manifests/rte/rte.go:78 | every set `GetManifests` builds for OpenShift, from any templates, lacks the ServiceAccount `Update` requires, and so does its clone; such a set is built whenever the OpenShift loaders succeed |
| `RteProperties.UpdateConfigMap` | pkg/manifests/rte/rte.go:79-81 | the update has a ConfigMap exactly when the payload is non-empty, named `rte-config` in the set's namespace with data exactly `{config.yaml: payload}`; any earlier ConfigMap is ignored |
| `RteProperties.UpdateRetargets` | pkg/manifests/rte/rte.go:78-85 | Role, DaemonSet and ServiceAccount move into the internal namespace, the DaemonSet runs as the internal service account; names, Namespace and internal fields are kept. The RoleBinding is kept only because the patchers at rte.go:86-87 are modelled as doing nothing |
| `RteProperties.UpdateKeepsOwned` | pkg/manifests/rte/rte.go:76-89 | updating keeps a set in the owned shape |
| `RteProperties.UpdateIdempotent` | pkg/manifests/rte/rte.go:76-85 | updating an updated set with the same options changes none of the modelled fields; this holds of rte.go only if the patchers at rte.go:86-87, modelled as doing nothing, are idempotent too |
| `RteProperties.UpdateRepeatable` | pkg/manifests/rte/rte.go:52-89 | two calls of the corrected `UpdateGuarded` on one set give sets of equal value that share no object, field by field, with each other or with the input, and leave the input's value as it was |
| `RteProperties.UpdateRepeatableAsWritten` | pkg/manifests/rte/rte.go:52-89 | the same for `Update` as written, on the Kubernetes sets with a ServiceAccount it is defined for |
| `Sequencing.Attempts` | pkg/commands/deploy.go:254-278 | a fail-fast run attempts at most every step, and at least one when there is one |
| `Sequencing.FirstErrorAppend` | pkg/manifests/rte/rte.go:172-206 | the first error of two runs in a row is that of the first run, or else that of the second |
| `Sequencing.OutcomesOfThree` | pkg/commands/deploy.go:254-278 | the first error, number of attempts and logged errors of three steps |
| `Sequencing.FailFastStopsAtFirstError` | pkg/commands/deploy.go:254-278 | a fail-fast run returns nil exactly when no step fails, and then attempts all; otherwise the last step attempted is the first that fails, its error is returned, and every step before it succeeded |
| `Sequencing.FailSoftLogsEveryError` | pkg/commands/deploy.go:67-97 | a fail-soft run logs an error exactly when some step returned it, at most one per step, one per step exactly when all fail, and none exactly when a fail-fast run would return nil |
| `Commands.SubcommandCall` | pkg/commands/deploy.go:108-245 | a subcommand calls the subsystem it names, with the action it names, on the detected platform |
| `Commands.CheckPlatform` | pkg/commands/deploy.go:249-253 | records the detected platform and fails, with `cannot autodetect the platform, and no platform given`, exactly when it is unknown |
| `Commands.DeployOnCluster` | pkg/commands/deploy.go:247-279 | refuses an unknown platform before any call; otherwise calls api (with platform and updater type), updater, sched, stopping at and returning the first error, and returns nil when all succeed |
| `Commands.RemoveAll` | pkg/commands/deploy.go:59-98 | refuses an unknown platform before any call; otherwise calls sched, updater, api (platform only) whatever each returns, logs every error in order, and returns nil |
| `Commands.RunSubcommand` | pkg/commands/deploy.go:108-245 | refuses an unknown platform before any call; otherwise makes its one call and returns that call's error unchanged |
| `Commands.RemoveReversesDeploy` | pkg/commands/deploy.go:68-96 | remove calls the subsystems in the reverse order of deploy, with the same updater and sched options; api is told the updater type on deploy only |
| `Commands.WaitReachesUpdaterAndSchedOnly` | pkg/commands/deploy.go:254-275 | the wait flag reaches the updater and sched calls and never the api call; sched gets the updater's configuration payload |
| `Commands.DeployFailFast` | pkg/commands/deploy.go:254-278 | the deploy succeeds exactly when all three calls do; after a failing updater deploy sched is not called; a returned error is one a call made returned |
| `Commands.RemoveFailSoft` | pkg/commands/deploy.go:75-97 | remove logs three lines when every call fails, none when every call succeeds, and a line for an error exactly when some call returned it |

## Left out

- The template loaders (`manifests.Namespace`, `ServiceAccount`, `Role`, `RoleBinding`,
  `DaemonSet`) are not part of this model. Each becomes a field of the `Templates`
  parameter: the value the loader returns, or its error.
- `GetManifests` and `GetManifestsForNamespace` return a partly filled set together with an
  error. The model returns only the error, because callers stop at the error.
- `manifests.UpdateRoleBinding` and `manifests.UpdateResourceTopologyExporterDaemonSet` are
  not part of this model. The RoleBinding an update returns is the cloned one, and
  `pullIfNotPresent` has no effect.
- UpdateRetargets and UpdateIdempotent: both speak of the modelled fields only. Their claims
  about the RoleBinding and about a second update rest on the two patchers above doing
  nothing, and their code is not part of this model.
- Role rules, RoleBinding subjects, and the DaemonSet spec apart from its pod template's
  service account are left out. No operation here reads them.
- The wait steps are modelled as tags holding the watched object. The polling of
  `wait.PodsToBeRunningByRegex`, `wait.PodsToBeGoneByRegex` and `wait.NamespaceToBeGone`
  is left out.
- `detectPlatform` is not part of this model. The detected platform is a parameter.
- The subsystem calls `api.Deploy`/`Remove`, `updater.Deploy`/`Remove` and
  `sched.Deploy`/`Remove` are not part of this model. Their results come from the
  `outcome` parameter, a function of the call, so a subsystem's answer cannot depend on the
  calls made before it.
- The following are left out as plumbing: cobra command and flag construction, the `tlog`
  log adapter, and writing the removal log to the standard logger. The log is returned as a
  sequence of lines.
- The controller-runtime `client.Object` interface is replaced by the `Obj` datatype, one
  constructor per kind.
- `pkg/commands/render.go` is not part of this model.

## Findings

| source | as written | input that shows it | evidently intended | confidence | as-written member | corrected member |
|---|---|---|---|---|---|---|
| pkg/manifests/rte/rte.go:78 | `Update` writes the namespace into the clone's ServiceAccount unconditionally, but `Clone` copies the ServiceAccount on Kubernetes only, and `GetManifests` sets none elsewhere | a set from `GetManifests` on OpenShift, then `Update` with any options: the clone's ServiceAccount is nil and is dereferenced | skip the write when the clone has no ServiceAccount, as the other platforms own none | not executed; high that the path dereferences nil, medium that it is reachable from callers outside this package | `Rte.Update` with `RteProperties.UpdateUndefinedOffKubernetes` | `Rte.UpdateGuarded` |
