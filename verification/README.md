# HyperFleet adapters in Dafny

Five adapters (placement, version resolution, hc, nodepool version resolution and nodepool) turn
HyperFleet clusters and node pools into ManifestWorks. They share nothing but two remote stores: the
HyperFleet API, which holds clusters, node pools and one status entry per adapter, and Maestro, which
maps (management cluster, work name) to a ManifestWork. No lock spans two calls. What holds anyway
comes from the order of the gates, from reading one snapshot per reconcile, from a placement that is
written once, and from a work queue that never hands one key to two workers.

`dafny verify dfyconfig.toml` checks the whole project.

## How the model is built

**The protocol** (`Protocol.dfy`) is a state machine. Each adapter and key has a program counter whose
constructors name the remote call made next and hold what has been read so far. Every remote call is
one atomic step, and all processes and the environment interleave freely. A write request in flight
may reach its store any number of times before its answer (`Land`), because the API client resends
the same body; it may be answered only once it has reached the store (`Return`); and it may fail
whether or not it did (`Fail`). `Invariants.dfy` says what every reachable state satisfies,
`Preservation.dfy`, `ProcessSteps.dfy`, `HcSteps.dfy`, `NpSteps.dfy` and `EnvSteps.dfy` show that
every step keeps it, `Runs.dfy` lifts that to runs, and `Safety.dfy` draws the conclusions.

**The reconcile loops** (`PlacementReconciler.dfy`, `VersionReconciler.dfy`, `HcReconciler.dfy`,
`NodePoolVersionReconciler.dfy`, `NodePoolReconciler.dfy`) are methods in the shape of the Go code.
They talk to `World.Stores`, whose methods stand for the remote calls: before each call other
processes and the environment take any steps they like, and a script decides whether the call is
answered, fails, or fails after taking effect. Each loop is shown to take only steps of the protocol,
so the results about runs are about these loops. The calls that were made are recorded with the state
each was answered in; `Behaves` says, for every answer, which call comes next, with which body, and
what the loop returns, `Outcomes` says exactly when it fails and exactly when it asks for no requeue,
and `PutSays` what it puts. `Gates.dfy` reads the loops' gates off the status entries, field by field. A Go function is split into a few methods here where its proof needs it; the calls, branches
and their order are the same.

**Whole reconciles** (`Whole.dfy`, `Effects.dfy`) that nobody interrupts are functions on the same
state, and each loop is shown to be its function when all its calls are answered at once.

**Convergence** (`Goals.dfy`, `Points.dfy`, `Convergence.dfy`) is about one cluster and one of its node
pools whose specifications stay in force. From the first time a process is idle, no step of any process,
failing and repeated ones included, and no event that leaves the specifications alone undoes what that
process has achieved; reconciles that come to an end in the right order achieve everything, however
they are interleaved and whatever the processes held at first; and then nothing changes any more. `Settling.dfy` shows that from every state with nobody half-way some schedule gets there, and
`Staleness.dfy` continues one to a run in which a node pool's skip keeps an outdated work.

**The rest** stands on its own: works as JSON documents and merge patches per section 2 of RFC 7396
(`Json.dfy`, `Documents.dfy`, `Upsert.dfy`), the tie between those documents and the protocol's typed
works (`Refinement.dfy`), generation annotations, label selectors, keys and channels, discovery, the
queue and its workers, the poison-pill counter, the selectors, and the retry loop.

### What is assumed of the environment

These assumptions are the predicate `Protocol.Allowed` and the shape of the steps.

- Cluster and node pool ids are never reused, a node pool id belongs to one cluster, and a node
  pool's `clusterId` and `id` are those of its key. The model reads both off the node pool record.
- Generations are int64 and rise with every spec edit; a cluster's name and creator never change.
- A status PUT replaces the entry of its adapter. A failing PUT may have taken effect, but only before
  the call returns. Status entries survive the deletion of their object.
- Both stores answer each call in one instant; a list of statuses is one snapshot. A read that is retried
  counts at the attempt that is answered.
- One process per adapter, and never two workers for one key (`Queue.NoTwoWorkers` shows the queue
  gives that). Adapters are the only writers of their own entries and works; nobody deletes a work.
- The payload published for a (channel, version) never changes, and a graph answer lists only
  published payloads. A graph may leave versions out.

### Where the code is followed against expectation

- `runWorker` never calls `Forget`, so nothing is claimed about backoff being reset.
- A node pool's work takes its subnet from the cluster's spec, which the node pool's generation does
  not cover. Skipping by generation is therefore only as good as writing while the stored subnet is
  the cluster's: `Safety.NodePoolSkipAgreesIff` is the exact condition, and
  `Staleness.SomeRunGoesStale` a run that violates it. The comment at
  `internal/adapters/nodepool/reconciler.go:117` says subnet and region come from the node pool spec;
  the code takes the subnet from the cluster.
- `CompareGenerations` looks only at equality, so one apply on its own accepts a rollback: an apply
  keeps a stored generation from falling exactly when the work it is given has no lower one
  (`Upsert.RollbackIsAccepted`). Whole runs never roll back (`Safety.HcGenerationMonotone`).
- `MatchesLabels` documents that every selector label must be present; a missing label reads as "".
  The promise holds exactly for selectors without an empty value (`Labels.MatchesOnlyLabelled`);
  `Labels.MissingLabelMatches` is an object that matches without the label.
- The round robin's index is negative, and the Go code panics, exactly for the negative tickets that the
  number of candidates does not divide (`Selectors.LimitPanics`); `Selectors.FirstTicketPastLimit` is
  the first one.
- `Labels`, keys and channels are exact only for inputs without their separators; each lemma states
  the exact condition.
- The counter of nacks is deleted when a message is dropped and starts again with the next delivery, so
  the limit of two nacks is kept per message exactly for messages delivered at most three times
  (`Subscriber.NackLimitHoldsIff`). In general no interleaving nacks a message more often than its
  deliveries handled one at a time would be, which is all of them but every third
  (`Subscriber.NacksByDeliveries`, `Subscriber.NacksWithin`).

## Model

| member | source | states |
|---|---|---|
| Safety.PlacementIsFinal | internal/adapters/placement/reconciler.go:64-112 | in every run, once a cluster's placement entry is ready its management cluster and base domain never change again, across edits, retries and failed PUTs that took effect |
| Safety.HcGenerationMonotone | internal/adapters/hc/reconciler.go:49-117 | in every run a stored cluster work is never lost, its generation is positive, never goes down and never exceeds the API's current generation |
| Safety.NpGenerationMonotone | internal/adapters/nodepool/reconciler.go:55-142 | the same for node pool works: never lost, positive, never down, never above the current generation |
| Safety.NothingUnappliedIsReported | internal/adapters/hc/reconciler.go:117-138 | in every reachable state an hc entry reporting generation g means the cluster's one management cluster stores its work at g or above |
| Safety.ReportIsExactWhenItLands | internal/adapters/hc/reconciler.go:135-138 | any step, by anyone, that changes the hc entry leaves it naming exactly the generation stored at that moment |
| Safety.ReportsMonotone | internal/adapters/hc/reconciler.go:146-151 | in every run the generations reported by the hc and nodepool adapters never decrease |
| Safety.NothingUnappliedIsReportedForPools | internal/adapters/nodepool/reconciler.go:142-163 | a node pool entry reporting g means its work is stored at g or above on its cluster's management cluster |
| Safety.PoolReportIsExactWhenItLands | internal/adapters/nodepool/reconciler.go:157-163 | any step, by anyone, that changes the nodepool entry leaves it naming exactly the generation stored at that moment |
| Safety.SkipAgreesWithWriting | internal/maestroclient/operations.go:207-236 | for every reachable hc apply: when it decides to skip, writing would change nothing in the store, status included; when it decides to write, exactly the built work results |
| Safety.StoredIsBuiltFromSnapshot | internal/adapters/hc/reconciler.go:85-119 | after every successful hc apply the stored work is what Build gives for the snapshot read, its version's one resolution and the cluster's placement |
| Safety.StoredSaysDetail | internal/adapters/hc/reconciler.go:88-108 | in every reachable state each value in a stored cluster work that a cluster detail decides is, path by path, that of the detail the cluster had at the work's own generation |
| Safety.StoredSaysPool | internal/adapters/nodepool/reconciler.go:120-134 | the same for stored node pool works and the node pool's detail, with the defaults the loop asks for |
| Safety.NodePoolSkipAgreesIff | internal/adapters/nodepool/reconciler.go:119-142 | for every reachable node pool apply that skips, writing would have changed nothing if and only if the stored subnet is the one in the cluster snapshot |
| Safety.BuiltFromNameAndSubnet | internal/adapters/nodepool/reconciler.go:120-134 | two details of a cluster with one name give the same node pool work exactly when their subnets agree |
| Safety.NodePoolSkipCanBeStale | internal/adapters/nodepool/reconciler.go:129 | for every node pool, every image and every two details with one identity the generation comparison says Skip, and the two works are equal exactly when the subnets are |
| Safety.VersionProvenance | internal/adapters/hc/reconciler.go:77-108 | in every reachable state the image and channel in a stored cluster work are the published payload and channel of the version the spec had at the work's own generation, and that version is not empty |
| Safety.PoolVersionProvenance | internal/adapters/nodepool/reconciler.go:103-134 | in every reachable state the release image in a stored node pool work is the published payload of the version its spec had at the work's own generation |
| Safety.OneManagementCluster | internal/adapters/hc/reconciler.go:117-119 | no cluster's work is ever on two management clusters |
| Safety.Colocation | internal/adapters/nodepool/reconciler.go:88-142 | in every reachable state a stored node pool work belongs to a known node pool, its cluster's work is on the same management cluster, and the NodePool lives in that HostedCluster's namespace and names it |
| Staleness.SomeRunGoesStale | internal/adapters/nodepool/reconciler.go:119-142 | some run from the empty state reaches a node pool apply that skips although writing would change the store |
| Runs.RunKeeps | internal/adapters/hc/reconciler.go:45-143 | every state of every interleaving of this loop with the other four, with their failures and with the environment satisfies the invariant |
| Runs.RunClimbs | internal/manifest/generation.go:65-90 | between any two states of a run no stored and no reported generation goes down |
| HcSteps.HcDecides | internal/maestroclient/operations.go:199-228 | an hc process that finds its own generation stored finds exactly its own work; otherwise the write it decides on can be carried out |
| HcSteps.HcPassesGate | internal/adapters/hc/reconciler.go:74-108 | behind the gate the placement read is final and the version read is the canonical resolution of the snapshot's version |
| NpSteps.NpPassesGate | internal/adapters/nodepool/reconciler.go:87-111 | behind the three-way gate the placement is final, the cluster's work is already stored there, and the node pool's version is resolved canonically |
| PlacementReconciler.Reconciler.Reconcile | internal/adapters/placement/reconciler.go:38-116 | for every answer of every call, which call comes next, with which body, and what is returned; success behind the first read leaves the pick's entry or the ready one the gate saw; a placement ready before is unchanged after; with nobody interfering the loop is PlWhole with the selector's pick |
| PlacementReconciler.Reconciler.Place | internal/adapters/placement/reconciler.go:58-115 | the same from the second read on: a ready placement ends it and is left as it is, otherwise the PUT is the selector's pick and, answered, is the entry left |
| PlacementReconciler.Outcomes | internal/adapters/placement/reconciler.go:38-116 | the loop fails exactly when a call is lost, and ends without a requeue exactly when the cluster is not found; any other success asks to come back after 300 seconds |
| PlacementReconciler.PutSays | internal/adapters/placement/reconciler.go:72-112 | only the fourth call puts anything, and that is the pick the third was answered with, for the generation the first read |
| VersionReconciler.Reconciler.Reconcile | internal/adapters/versionresolution/reconciler.go:38-128 | calls, bodies and result for every answer; a requeue means reconciled, or the entry names the version asked for with its published payload and channel; with nobody interfering the loop is VrWhole with the graph's page |
| VersionReconciler.Reconciler.ResolveAndReport | internal/adapters/versionresolution/reconciler.go:76-127 | a page without the version ends without a requeue and without a PUT, one with it is followed by the PUT of its first such node, and that answered, the entry is the version's one resolution |
| VersionReconciler.Outcomes | internal/adapters/versionresolution/reconciler.go:38-128 | the loop fails exactly when a call is lost, and ends without a requeue exactly when the cluster is gone, names no version, or names one that no node of the answered page has; any other success asks to come back after 300 seconds |
| VersionReconciler.PutSays | internal/adapters/versionresolution/reconciler.go:76-124 | only the fourth call puts anything: image and version of a node of the answered page with the version asked for, its channel, and the generation read |
| HcReconciler.Reconciler.Reconcile | internal/adapters/hc/reconciler.go:45-143 | calls, bodies and result for every answer; a requeue means reconciled, or the store holds exactly the work built for the cluster this call read and the entry reports that generation; with nobody interfering the loop is HcWhole |
| HcReconciler.Reconciler.BuildAndApply | internal/adapters/hc/reconciler.go:68-119 | the gate and build of that loop: a closed gate ends without a requeue, a build that fails is an error, both without asking the store |
| HcReconciler.Reconciler.ApplyAndReport | internal/adapters/hc/reconciler.go:116-142 | success means applied and reported for the given cluster detail |
| HcReconciler.Outcomes | internal/adapters/hc/reconciler.go:45-143 | the loop fails exactly when a call is lost or no work can be built, and ends without a requeue exactly when the cluster is gone or its gate closed; in these last it has only read; any other success asks to come back after 300 seconds |
| NodePoolVersionReconciler.Reconciler.Reconcile | internal/adapters/nodepoolvrresolution/reconciler.go:40-131 | a key without a slash is an error and calls nothing; otherwise, for the ids the key splits into, as for clusters |
| NodePoolVersionReconciler.Reconciler.ReconcilePool | internal/adapters/nodepoolvrresolution/reconciler.go:47-131 | calls, bodies and result for every answer: an empty version ends quietly, an unresolved one without a dot is an error, a requeue means the entry is the version's one resolution |
| NodePoolVersionReconciler.Outcomes | internal/adapters/nodepoolvrresolution/reconciler.go:40-131 | the loop fails exactly when a call is lost or an unresolved version has no dot, and ends without a requeue exactly when the node pool is gone, names no version, or names one that no node of the answered page has; any other success asks to come back after 300 seconds |
| NodePoolVersionReconciler.PutSays | internal/adapters/nodepoolvrresolution/reconciler.go:76-127 | the same for node pools |
| NodePoolReconciler.Reconciler.Reconcile | internal/adapters/nodepool/reconciler.go:44-166 | a key without a slash is an error and calls nothing; otherwise calls, bodies and result for every answer; a requeue means the node pool as read is stored on its cluster's management cluster and reported; with nobody interfering the loop is NpWhole |
| NodePoolReconciler.Reconciler.GateAndApply | internal/adapters/nodepool/reconciler.go:81-142 | any closed part of the three-way gate ends without a requeue and without asking the store |
| NodePoolReconciler.Reconciler.ApplyAndReport | internal/adapters/nodepool/reconciler.go:136-165 | a work without a positive generation is an error and the store is not asked; otherwise the apply's calls, the status read and the PUT of what was read follow in order up to the first lost one, and success means stored and reported |
| NodePoolReconciler.Outcomes | internal/adapters/nodepool/reconciler.go:44-166 | the loop fails exactly when a call is lost or the generation behind an open gate is not positive, and ends without a requeue exactly when something is gone or the gate is closed; in these last it has only read; any other success asks to come back after 300 seconds |
| NodePoolReconciler.RunsReadInt64 | internal/common/hyperfleetapi/types.go:71 | the generation a node pool reconcile reads is an int64, as `Outcomes` asks |
| World.Stores.Apply | internal/transport/maestro/client.go:35-42 | as an adapter sees it: an invalid work asks the store nothing; otherwise one lookup and then the one write it calls for, unless it is lost or calls for none; it succeeds exactly when no call was lost |
| World.Stores.Send | internal/common/hyperfleetapi/client.go:79-177 | a write may take effect any number of times with one body, and is answered only if it did |
| Convergence.Converges | internal/adapters/hc/reconciler.go:59-142 | with valid specifications in force and their versions published, in any interleaving of process steps, failures, repeated writes and outside events, and whatever the processes hold at first: if a placement and a version reconcile end before an hc reconcile begins, the agent's report on the cluster's work comes after that one and a second hc reconcile after the report, and then, after a node pool version reconcile, the same with nodepool reconciles, everything is ready from the end of the last one on |
| Convergence.SettledForGood | internal/adapters/nodepool/reconciler.go:87-166 | once all is ready and no process holds an older specification, which is how `Converges` ends, no schedule changes any entry or work of the cluster or the node pool; Sentinel setting conditions and agents repeating their reports are part of the schedules |
| Convergence.ReadinessNeverFalls | internal/adapters/versionresolution/reconciler.go:70-127 | the readiness measure, nine when all is ready, is lowered by no step of any process and no event that leaves the specifications alone, once no process holds an older one |
| Convergence.ActionAdvances | internal/adapters/placement/reconciler.go:64-115 | no such step undoes any part of readiness, each keeps what the processes hold fit for the goal, and none changes a stored entry or work once all is ready |
| Convergence.ActionKeeps | internal/adapters/hc/reconciler.go:68-142 | the same for one process and its own part of readiness, whatever the other processes hold |
| Convergence.CompletedIsDone | internal/adapters/hc/reconciler.go:68-142 | any reconcile that runs with its gate open and comes to an end without failing has done its part, whatever happened in between, and its part stays done |
| Settling.SomeScheduleSettles | internal/adapters/nodepool/reconciler.go:44-166 | from every state with valid specifications in force, the cluster not declared reconciled and the five processes idle, some schedule gets everything ready |
| Effects.HcWholeIs | internal/adapters/hc/reconciler.go:45-143 | an uninterrupted hc reconcile behind the gate does one apply and reports the status of the work it left |
| Effects.NpWholeIs | internal/adapters/nodepool/reconciler.go:44-166 | the same for a node pool reconcile |
| Effects.PlWholeIs | internal/adapters/placement/reconciler.go:38-116 | an uninterrupted placement reconcile records its pick, unless the cluster is placed |
| Effects.VrWholeIs | internal/adapters/versionresolution/reconciler.go:38-128 | an uninterrupted version reconcile records the first matching node, unless the version is resolved |
| Effects.NvrWholeIs | internal/adapters/nodepoolvrresolution/reconciler.go:40-131 | the same for a node pool version reconcile |
| Effects.HcWholeWaits | internal/adapters/hc/reconciler.go:68-84 | behind a closed gate an uninterrupted hc reconcile leaves both stores as they are |
| Effects.NpWholeWaits | internal/adapters/nodepool/reconciler.go:81-111 | the same for a nodepool reconcile |
| Refinement.ApplyRefines | internal/maestroclient/operations.go:177-243 | an apply on JSON documents is one decision and one write of the protocol on the typed works they stand for |
| Upsert.MaestroClient.ApplyManifestWork | internal/maestroclient/operations.go:177-243 | the store after an apply, for every work, consumer and fate of its two calls, exactly when it succeeds, and with which error it fails |
| Upsert.MaestroClient.CreateManifestWork | internal/maestroclient/operations.go:35-68 | creation happens only for a valid work of a free name at a registered consumer; nil, invalid, unregistered, taken and lost are each their own error |
| Upsert.MaestroClient.GetManifestWork | internal/maestroclient/operations.go:71-90 | a missing work is an answer, not a failure |
| Upsert.MaestroClient.PatchManifestWork | internal/maestroclient/operations.go:93-115 | an existing document is merged with the patch and nothing else changes |
| Upsert.CreateErrorIs | internal/maestroclient/operations.go:58-64 | a create error names a missing consumer exactly if its text contains fk_resources_consumers, and is passed on as it is otherwise |
| Upsert.CreatedMeans | internal/maestroclient/operations.go:54-66 | what a creation stores is the work as given, filed under the consumer, without a status |
| Upsert.ApplyTouches | internal/maestroclient/operations.go:177-243 | an apply changes nothing but the one work it names, and that only if it is valid, gets through and brings another generation or a new name |
| Upsert.ApplyCreates | internal/maestroclient/operations.go:215-221 | a valid new work for a registered consumer that gets through is stored |
| Upsert.ReachableStoresValid | internal/maestroclient/operations.go:186-243 | every store reached by applies of any fate holds only works that pass generation validation |
| Upsert.RepeatIsSkip | internal/maestroclient/operations.go:204-228 | once an apply's write reached the store, even if its answer was lost, the same apply is a skip that changes nothing |
| Upsert.PatchedMeans | internal/maestroclient/operations.go:246-256 | after an update: the new generation; exactly the new manifests if and only if that list is not empty or there were none; options and deletion policy are replaced where given; unrelated labels survive if and only if the new map is not nil; annotations are merged; name and namespace stay |
| Upsert.RollbackIsAccepted | internal/manifest/generation.go:76-90 | after an apply that reaches the store the stored generation is at least what it was exactly when the given work's generation is; a lower one overwrites |
| Documents.PatchIsMerge | internal/maestroclient/operations.go:246-256 | merging the patch document into any stored document is the typed patch, and leaves the agent's status alone |
| Documents.DocumentSays | internal/maestroclient/operations.go:54-58 | a stored document holds each part of its work at the part's own path and leaves absent ones out |
| Documents.MetadataPatchSays | internal/maestroclient/operations.go:246-253 | the patch sets the given labels and annotations, deletes a nil map of them, and is silent about the name and the namespace |
| Documents.SpecPatchSays | internal/maestroclient/operations.go:246-255 | the patch sets manifests, deletion policy and options where given, and is silent about the rest and the status |
| Documents.DocumentAnnotations | internal/manifest/generation.go:120-137 | the annotations read back from a document are those of the stored work |
| Json.MergeAt | internal/maestroclient/operations.go:93-107 | at every path a merge patch yields what the patch says there, erases what it nulls, and keeps what it does not mention |
| Json.MergeIdempotent | internal/maestroclient/operations.go:93-107 | applying one merge patch twice is applying it once |
| Generation.ValidateGeneration | internal/manifest/generation.go:148-174 | succeeds exactly when the getter returns a positive generation, and otherwise tells a missing, an empty, an unreadable and a non-positive annotation apart |
| Generation.ValidateGenerationFromUnstructured | internal/manifest/generation.go:220-254 | the same for unstructured objects, with a nil one as an error of its own |
| Generation.ValidateManifestWorkGeneration | internal/manifest/generation.go:184-210 | succeeds exactly for works whose own and every manifest's generation is positive, and otherwise names the first offender and what is wrong with it |
| Generation.GenerationReads | internal/manifest/generation.go:99-114 | a generation other than 0 is returned exactly where the annotation hyperfleet.io/generation spells that int64; everything else reads as 0 |
| Work.MetadataReads | internal/manifest/generation.go:374-376 | names, labels and annotations are read from the metadata members of these names; a null label reads as empty, any other non-string spoils the map |
| Work.NoMetadata | internal/manifest/generation.go:120-128 | an object without metadata has no name, namespace, labels or annotations |
| Work.UnmarshalsIff | internal/manifest/generation.go:196-199 | a manifest can be read exactly if it is an object that names its kind |
| Text.FormatParse | internal/manifest/generation.go:109-114 | the decimal text of any integer parses back to it exactly when it is an int64 |
| Text.FormatIsDecimal | internal/transport/maestro/client.go:91-94 | the text of an integer, digit by digit, with a minus sign for a negative one and nothing else in front |
| Text.ParseReads | internal/manifest/generation.go:109-114 | exactly the texts made of an optional sign, zeros and the decimal text of an int64 are read, each as that number |
| HcManifest.BuildValid | internal/adapters/hc/manifest/manifestwork.go:75-109 | whatever Build returns passes work and per-manifest validation and carries the cluster's generation |
| HcManifest.BuildFails | internal/adapters/hc/manifest/manifestwork.go:114-132 | Build fails exactly when a required field is empty, naming one that is, or the generation is not positive |
| HcManifest.FeedbackIsWhereReadersLook | internal/adapters/hc/manifest/manifestwork.go:134-157 | the manifest at the index the status reader uses is the HostedCluster, and the option entry that names it asks for both feedback values read |
| HcManifest.HostedClusterRelease | internal/adapters/hc/manifest/manifestwork.go:269-432 | the image and channel the HostedCluster asks for are the ones given |
| HcManifest.HostedClusterSays | internal/adapters/hc/manifest/manifestwork.go:269-314 | read path by path, the built HostedCluster carries at clusterID, infraID, issuerURL, release, channel, availability policy and base domain the input value that belongs there, or its default |
| HcManifest.HostedClusterPlatform | internal/adapters/hc/manifest/manifestwork.go:324-352 | the same for project, region, network, subnet, endpoint access and each part of the workload identity |
| HcManifest.HostedClusterRoutes | internal/adapters/hc/manifest/manifestwork.go:353-402 | the four services in order, the host names of the two public ones, and the serving certificate with the api host |
| HcManifest.HostedClusterTypes | internal/adapters/hc/manifest/manifestwork.go:324-384 | the platform is GCP and every service is published by a route |
| HcManifest.OthersSay | internal/adapters/hc/manifest/manifestwork.go:134-543 | namespace, pull secret with its store and key, certificate with its host name, and the Job with its generation, namespace and subject |
| HcManifest.WorkSays | internal/adapters/hc/manifest/manifestwork.go:84-109 | name, labels and deletion policy of the work, and the generation on each of its five objects |
| HcManifest.ConfigsSay | internal/adapters/hc/manifest/manifestwork.go:546-606 | the three tracked objects by name and namespace, how each is applied, and the feedback asked for |
| HcManifest.OverridesSay | internal/adapters/hc/manifest/manifestwork.go:274-284 | the annotations of the HostedCluster: its generation, two constants, and exactly the image overrides that are given |
| HcManifest.BuildInjective | internal/adapters/hc/manifest/manifestwork.go:53-111 | nothing the cluster detail, its version or its placement says is lost: with one set of options, equal works come from inputs that are equal once defaults are filled in; which value stands where is HostedClusterSays, HostedClusterPlatform, HostedClusterRoutes and OthersSay |
| NodePoolManifest.BuildValid | internal/adapters/nodepool/manifest/manifestwork.go:77-99 | the built work passes validation exactly when the generation is positive |
| NodePoolManifest.NodePoolRefersTo | internal/adapters/nodepool/manifest/manifestwork.go:78-100 | the namespace and cluster name a built NodePool carries |
| NodePoolManifest.NodePoolSays | internal/adapters/nodepool/manifest/manifestwork.go:77-129 | read path by path, the NodePool carries each input value, or its default, where it belongs |
| NodePoolManifest.WorkSays | internal/adapters/nodepool/manifest/manifestwork.go:136-201 | name, labels and deletion policy of the work, its generation, and the one tracked object with the feedback asked for |
| NodePoolManifest.BuildInjective | internal/adapters/nodepool/manifest/manifestwork.go:51-204 | the same for node pools, but for the region, which reaches the work only as the default of the zone |
| NodePoolManifest.NamesApart | internal/adapters/nodepool/manifest/manifestwork.go:80 | work names of the two adapters never collide and each determines its id |
| Latest.GetLatestGenerationFromList | internal/manifest/generation.go:265-287 | the pick has the highest generation and the least name among ties, and the list is left alone |
| Latest.LatestFirstOrder | internal/manifest/generation.go:275-283 | the comparator is a strict weak order |
| Sorting.LessMeans | internal/manifest/generation.go:282 | names are compared as in a dictionary |
| Latest.LatestIgnoresOrder | internal/manifest/generation.go:274-283 | permuting the list changes neither the generation nor the name of the pick |
| Labels.BuildLabelSelector | internal/manifest/generation.go:351-368 | the pairs in ascending key order, for any order in which the map is ranged over |
| Labels.SelectorUnique | internal/manifest/generation.go:356-367 | the text is the same whatever that order was |
| Labels.SelectorText | internal/manifest/generation.go:351-368 | the text is the least key, an equals sign and its value, followed after a comma by the text for the other labels |
| Labels.SelectorRoundTrip | internal/manifest/generation.go:351-396 | matching a built selector means equal values with missing read as empty, for all objects, exactly for keys without = and comma and values without comma |
| Labels.MatchesLabels | internal/manifest/generation.go:372-396 | the scan decides the matching relation |
| Labels.MatchesOnlyLabelled | internal/manifest/generation.go:370-396 | objects that match a clean selector carry all its labels exactly when none of its values is empty |
| Labels.MissingLabelMatches | internal/manifest/generation.go:386-391 | an object without any label matches a selector for an empty one |
| Discovery.DiscoverNestedManifest | internal/manifest/generation.go:409-445 | the matching manifests in order, nothing for a missing list, an error for a malformed one that names the first manifest that is no object |
| Discovery.DiscoveryFindsLabelled | internal/manifest/generation.go:409-445 | in a stored work, discovery by a selector built from clean labels finds exactly the manifests, of the namespace if one is given, that agree with them |
| Discovery.DiscoveryFindsNamed | internal/manifest/generation.go:502-515 | discovery by name finds exactly the manifests of that name, and of the namespace if one is given, whatever the selector |
| Discovery.SelectedKeepsOrder | internal/manifest/generation.go:430-443 | in the order of the list |
| Discovery.StoredManifests | internal/manifest/generation.go:419-428 | a stored work's manifests are at the path discovery reads, unless there are none |
| Discovery.Unstructured.Enrich | internal/manifest/generation.go:454-498 | the first entry that names the object gives it its feedback and conditions |
| Discovery.EnrichedMeans | internal/manifest/generation.go:459-497 | read path by path: the first reported manifest whose resourceMeta has the object's name and namespace gives it statusFeedback and conditions, each if it has it; without one nothing changes |
| Discovery.NothingReported | internal/manifest/generation.go:455-463 | without a parent, or a list of reported manifests in it, nothing changes |
| Discovery.EnrichOnce | internal/manifest/generation.go:454-498 | nothing but those two members changes, and enriching again changes nothing |
| Status.MapStatus | internal/transport/maestro/client.go:45-70 | the status as adapters see it, as `ReportedText` reads it |
| Status.ReportedText | internal/transport/maestro/client.go:45-105 | under each name of a manifest stands the text of the last value of that name: a string as it is, an integer in decimal, a boolean as true or false, raw JSON as it is, and nil as empty |
| Status.StatusSays | internal/transport/maestro/client.go:50-68 | the status in a stored document, element by element |
| Status.FeedbackMapIsLast | internal/transport/maestro/client.go:58-65 | of several feedback values with one name the last counts |
| Status.FeedbackMapHas | internal/transport/maestro/client.go:58-65 | a name is in the map exactly when some feedback value has it |
| ApiTypes.FindAfterPut | internal/common/hyperfleetapi/types.go:119-126 | after a PUT the adapter's entry is the new one and all other adapters read as before |
| ApiTypes.FindEntry | internal/common/hyperfleetapi/types.go:119-126 | the first entry of the adapter |
| ApiTypes.HcIsAvailable | internal/common/hyperfleetapi/types.go:243-262 | available by condition, or failing that by the data flag |
| ApiTypes.AccessorsRead | internal/common/hyperfleetapi/types.go:129-262 | each typed accessor reads the first entry of its own adapter, each field under its own key, a missing or ill-typed one as empty |
| ApiTypes.AccessorsMissing | internal/common/hyperfleetapi/types.go:166-262 | an accessor answers nil exactly when no entry is its adapter's |
| Gates.PlacementGate | internal/common/hyperfleetapi/types.go:160-175 | a placement is ready exactly when the first placement entry names both a management cluster and a base domain |
| Gates.HcGateMeans | internal/adapters/hc/reconciler.go:74-84 | the hc gate is open exactly when the entries name a placement and a release image for the version in the cluster detail |
| Gates.NpGateMeans | internal/adapters/nodepool/reconciler.go:87-111 | the nodepool gate is open exactly when the cluster's entries name a placement and an available HostedCluster, and the pool's a release image for its version |
| Gates.ResolvedMeans | internal/adapters/versionresolution/reconciler.go:70-74 | both version loops stop exactly at an entry that names a release image for the version asked for |
| Payloads.AvailableMeans | internal/adapters/hc/reconciler.go:171-195 | the nodepool gate opens on an hc entry exactly when the agent reported the HostedCluster available |
| Payloads.BuildHcPayload | internal/adapters/hc/reconciler.go:146-198 | the entry for a status, or for a work Maestro does not know |
| Payloads.BuildNodePoolPayload | internal/adapters/nodepool/reconciler.go:170-254 | the entry for a status, or for a work Maestro does not know |
| Payloads.HcEntryMeans | internal/adapters/hc/reconciler.go:165-195 | adapter, generation, data and, read as consumers read conditions, status and reason of all three: Available is the text the agent gives for the HostedCluster or Unknown, Health is True exactly when degraded is False, and Applied is the work's own |
| Payloads.NodePoolEntryMeans | internal/adapters/nodepool/reconciler.go:193-254 | the same for node pools, from the feedback of their one manifest, whose replicas and version are passed on as data |
| Payloads.PlacementEntryMeans | internal/adapters/placement/reconciler.go:77-106 | the placement entry is for the generation it is given, all its conditions are True, and its data are the pick, each under its own key |
| Payloads.VersionEntryMeans | internal/adapters/versionresolution/reconciler.go:88-121 | the same for both version adapters, with image, version, channel and channel group |
| Payloads.ConditionStatusIsFirst | internal/adapters/hc/reconciler.go:201-208 | of several conditions of a kind the first counts |
| Release.ChannelsAgree | internal/adapters/nodepoolvrresolution/reconciler.go:135-143 | the two channel functions agree exactly on versions with a dot |
| Release.ChannelDependsOnFirstTwo | internal/adapters/versionresolution/reconciler.go:132-143 | two versions share a channel exactly when their first two parts agree, a missing second one counting as 0 |
| Release.ChannelOfVersion | internal/adapters/versionresolution/reconciler.go:130-143 | the channel is candidate-, the version's first part, a dot, and its second part, whatever follows, or 0 if there is no second |
| Release.ResolveIsFirst | internal/adapters/versionresolution/cincinnati.go:77-84 | the first of several nodes with the version is taken |
| Release.ScanGraph | internal/adapters/versionresolution/cincinnati.go:77-84 | a matching node if there is one, and none only if there is none |
| Keys.KeyRoundTrip | internal/common/pubsub/subscriber.go:88-93 | splitting a queued key gives back both ids exactly when the owner is not empty and has no slash |
| Keys.KeysApart | internal/adapters/nodepool/reconciler.go:45-49 | nested resources with slash-free owners never share a key |
| Queue.RunWorker | internal/common/workqueue/worker.go:41-81 | the worker's queue operations are one block per item, each with the outcome of its reconcile; `RequeuesMatchOutcomes` and `RoundStands` say what a block is |
| Queue.Process | internal/common/workqueue/worker.go:53-80 | after its round an item is no longer with the worker, and exactly a failed id or one that asked to come back waits in the queue's delayed set, unless the queue is down |
| Queue.RequeuesMatchOutcomes | internal/common/workqueue/worker.go:60-77 | an id is put back with rate limiting exactly as often as its reconcile failed, and after a delay exactly as often as it asked for that positive delay |
| Queue.RoundStands | internal/common/workqueue/worker.go:47-80 | the one requeue of a round stands between the Get and the Done of its item |
| Queue.WorkerRunsBlocks | internal/common/workqueue/worker.go:20-81 | in every run of any number of workers each worker does exactly such blocks, with the outcomes its reconciles returned, and the begun part of one more |
| Queue.NoLostRetry | internal/common/workqueue/worker.go:60-77 | with any number of workers, an item put back before shutdown waits for its time or needs processing until a reconcile of it starts after that |
| Queue.EveryGetIsDone | internal/common/workqueue/worker.go:47-80 | over all paths each Get of an item is paired with exactly one Done of it |
| Queue.NoTwoWorkers | internal/common/workqueue/worker.go:20-39 | in no run of any number of workers do two hold the same item |
| Queue.NoLostWakeUp | internal/common/pubsub/subscriber.go:98-99 | an Add before shutdown leaves the key queued, or dirty with a worker whose Done will queue it, until a reconcile of it starts after that Add |
| Queue.HandedOutInTurn | internal/common/workqueue/worker.go:47-51 | an item at position p is handed out within the next p + 1 items handed out |
| Subscriber.Subscriber.Handle | internal/common/pubsub/subscriber.go:41-101 | counters, queue and the one reply after a message is handled: a readable event queues its id, or owner, slash and id if it has an owner, everything else queues nothing, and all that parses is acked |
| Subscriber.QueuedKeySplits | internal/common/pubsub/subscriber.go:88-99 | the key queued for a nested resource splits back exactly when its owner is not empty and has no slash |
| Subscriber.EveryThirdIsAcked | internal/common/pubsub/subscriber.go:43-71 | delivered one at a time among any others, an unparseable message is nacked twice, then acked, and so on |
| Subscriber.PoisonPillBound | internal/common/pubsub/subscriber.go:45-70 | with the two lock sections as separate steps, in every interleaving a message is nacked at most twice for each time its counter started from nothing |
| Subscriber.OneReplyEach | internal/common/pubsub/subscriber.go:51-71 | every finished handler has answered exactly once and no other has answered |
| Subscriber.MoreThanTwoNacks | internal/common/pubsub/subscriber.go:66-70 | for any unparseable message some run nacks it more than twice |
| Subscriber.NackLimitHoldsIff | internal/common/pubsub/subscriber.go:43-71 | all interleavings of n unparseable deliveries of a message keep it to two nacks exactly when n is at most three |
| Subscriber.NacksByDeliveries | internal/common/pubsub/subscriber.go:43-71 | in every interleaving a message is nacked at most as often as its unparseable deliveries handled one at a time would be: all but every third |
| Subscriber.NacksWithin | internal/common/pubsub/subscriber.go:43-71 | and that is the exact maximum: for all n and every bound, no interleaving of n deliveries exceeds the bound exactly when n less a third of it, rounded down, does not |
| Selectors.RoundRobinSelector.Select | internal/adapters/placement/selector.go:33-49 | the next candidate and its first domain; a failed pick still consumes its ticket; an empty list consumes none |
| Selectors.EachOnceARound | internal/adapters/placement/selector.go:38-43 | any n consecutive tickets pick each of n candidates exactly once |
| Selectors.CountsWithinOne | internal/adapters/placement/selector.go:38-43 | pick counts never differ by more than one, however many tickets are drawn |
| Selectors.ServesInTurn | internal/adapters/placement/selector.go:33-49 | calls by anyone with one list are served in turn until the counter reaches its limit |
| Selectors.LimitPanics | internal/adapters/placement/selector.go:39-43 | for every ticket the pick indexes out of range exactly when the ticket is negative and not a multiple of the number of candidates |
| Selectors.FirstTicketPastLimit | internal/adapters/placement/selector.go:39-43 | the first ticket past the limit is such a one, unless the number of candidates is a power of two |
| Selectors.DynamicSelector.Select | internal/adapters/placement/dynamic_selector.go:56-78 | which lookups succeed decides which counters advance by one, wrapping at 2^64, and what is returned |
| Selectors.DynamicServesInTurn | internal/adapters/placement/dynamic_selector.go:56-78 | with one listing of clusters the k-th call, from 0, draws the cluster at (start + 1 + k) mod 2^64 modulo their number, whether or not it then finds domains; domains are drawn in the same way by the calls that find them |
| Selectors.DynamicFairIff | internal/adapters/placement/dynamic_selector.go:65-75 | n successive calls that find the same n distinct clusters choose each once, from wherever the counter stands, exactly when n divides 2^64 |
| Selectors.NothingDrawn | internal/adapters/placement/dynamic_selector.go:57-63 | a call that finds no eligible cluster, or whose listings fail, fails and draws nothing |
| Selectors.FairAcrossWrapIff | internal/adapters/placement/dynamic_selector.go:65-75 | a wrapping counter stays fair in every round exactly when the list's length divides the wrap |
| Selectors.EligibleMCs | internal/adapters/placement/dynamic_selector.go:81-104 | fails exactly when a lookup fails, and else filters the secrets by the consumers |
| Selectors.EligibleIsIntersection | internal/adapters/placement/dynamic_selector.go:92-103 | exactly the registered names, each as often as it was listed |
| Selectors.EligibleKeepsOrder | internal/adapters/placement/dynamic_selector.go:92-103 | in the order of the listing |
| Retry.DoWithRetry | internal/common/hyperfleetapi/client.go:79-177 | for any attempt limit and responses, by status code: the first that is neither a network error nor 500 or above decides, 404 as not found, any other outside 200 to 299 as rejected, and a 2xx by its body; without one below the limit the attempts are exhausted, and a context that ends in a wait the loop reaches cancels |
| Retry.AttemptsAt | internal/common/hyperfleetapi/client.go:89-152 | request, wait, request, and so on, with waits that start at the initial backoff and double |
| Retry.CostBound | internal/common/hyperfleetapi/client.go:89-152 | at most N requests, all with the same body, and at most 2^(N-1) - 1 initial backoffs of waiting |
| Retry.ClientBound | internal/common/hyperfleetapi/client.go:79-152 | with the client's limit at most three requests and three initial backoffs of waiting |

## Left out

- Program start, flags, environment overrides and signal handling (cmd/main.go): wiring only.
- Construction of the Maestro client, TLS, token files and HTTP transport (internal/maestroclient/client.go): library and file input.
- The calls themselves to HTTP, gRPC, Pub/Sub and Secret Manager: answers are parameters or steps of the environment; `smMCNames`, `maestroConsumerNames` and `hcDNSDomains` of the dynamic selector appear as their results.
- The inside of client-go's queue and rate limiter: `Queue.QueueState` states the contract; delays run out whenever the environment says so.
- JSON and YAML as bytes: works are JSON trees; only annotations, selectors, keys, versions and channels are texts. Reading annotations follows apimachinery 0.34, where a null member reads as "" and any other non-string spoils the map.
- The objects of a work beyond the values taken from the input, which stand at their own paths, and labels of single manifests: further constants that no property depends on. The RBAC Job's script is modelled by the one input value in it, its subject.
- Log calls, messages and timestamps; entries are compared without `ObservedTime`. Error values keep their kind and drop their wording.
- `HcManifest.Validate`: the Go code ranges over a map, so which of several empty fields is named is arbitrary there and fixed here; whether Build fails is not affected.
- Deleting and listing works (internal/maestroclient/operations.go:118-170): no adapter uses them. Delete options other than the propagation policy, and a work's executor, are not set by the adapters.
- `DiscoverManifest` and `DiscoverManifestInWork`: thin callers of the discovery modelled in `Discovery.dfy`.
- internal/transport/mock/client.go: a test double that always overwrites, not the production Apply.
- pkg/logger, pkg/errors, pkg/version: formatting and fixed tables that would add only easy members.
- Convergence is about one cluster and one of its node pools at a time. Its schedules contain any event but edits and deletions of these two objects and reports on their two works other than the expected ones: an agent that keeps changing what it reports keeps changing the entry. The placement, version and hc reconciles that are needed begin before Sentinel declares the cluster reconciled, since these adapters skip a reconciled cluster.
- Queue.RunWorker: ends with its finite script of events and outcomes, where the Go loop ends only at shutdown.
- World.Stores.Send: takes any number of attempts, where the client makes three; `Retry.DoWithRetry` has the limit.
