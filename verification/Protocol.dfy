// The five adapters as concurrent processes over the HyperFleet API and the Maestro store. Every
// remote call is one atomic step; a process keeps only what it has read since its last return.
module Protocol {
  import opened Wrappers
  import opened Text
  import opened Work
  import opened Generation
  import opened Documents
  import opened Status
  import opened ApiTypes
  import opened Payloads
  import opened Release
  import opened Upsert
  import NodePoolManifest
  import HcManifest

  type PoolKey = (string, string)

  // Every detail an id ever had, by generation. GET returns the current one until the object is deleted.
  datatype ClusterRecord = ClusterRecord(history: map<int, Cluster>, current: int, conditions: seq<Condition>,
                                         deleted: bool)
  datatype PoolRecord = PoolRecord(history: map<int, NodePool>, current: int, deleted: bool)

  // Each constructor is named after the remote call the process makes next and holds what it has read.
  // `landed` says the request in flight has already taken effect.
  datatype PlacementPc =
    | PlIdle
    | PlStatuses(c: Cluster)
    | PlSelect(c: Cluster)
    | PlPut(entry: AdapterStatus, landed: bool)

  datatype VersionPc =
    | VrIdle
    | VrStatuses(c: Cluster)
    | VrResolve(c: Cluster)
    | VrPut(entry: AdapterStatus, landed: bool)

  datatype HcPc =
    | HcIdle
    | HcStatuses(c: Cluster)
    | HcLookup(c: Cluster, p: PlacementData, work: ManifestWork)
    | HcWrite(c: Cluster, p: PlacementData, work: ManifestWork, op: Operation, landed: bool)
    | HcReadBack(c: Cluster, p: PlacementData, work: ManifestWork)
    | HcPut(c: Cluster, p: PlacementData, work: ManifestWork, entry: AdapterStatus, landed: bool)

  datatype PoolVersionPc =
    | NvrIdle
    | NvrStatuses(n: NodePool)
    | NvrResolve(n: NodePool)
    | NvrPut(entry: AdapterStatus, landed: bool)

  datatype NodePoolPc =
    | NpIdle
    | NpCluster(n: NodePool)
    | NpClusterStatuses(n: NodePool, c: Cluster)
    | NpStatuses(n: NodePool, c: Cluster, statuses: AdapterStatuses)
    | NpLookup(n: NodePool, c: Cluster, p: PlacementData, work: ManifestWork)
    | NpWrite(n: NodePool, c: Cluster, p: PlacementData, work: ManifestWork, op: Operation, landed: bool)
    | NpReadBack(n: NodePool, c: Cluster, p: PlacementData, work: ManifestWork)
    | NpPut(n: NodePool, c: Cluster, p: PlacementData, work: ManifestWork, entry: AdapterStatus, landed: bool)

  // One process per adapter and key: the maps hold at most one reconcile in flight for each.
  datatype State = State(
    clusters: map<string, ClusterRecord>,
    pools: map<PoolKey, PoolRecord>,
    clusterStatuses: map<string, AdapterStatuses>,
    poolStatuses: map<PoolKey, AdapterStatuses>,
    works: map<Key, Stored>,
    releases: map<(string, string), string>,
    pl: map<string, PlacementPc>,
    vr: map<string, VersionPc>,
    hc: map<string, HcPc>,
    nvr: map<PoolKey, PoolVersionPc>,
    np: map<PoolKey, NodePoolPc>)

  const INITIAL := State(map[], map[], map[], map[], map[], map[], map[], map[], map[], map[], map[])

  function Rows(s: State, cid: string): AdapterStatuses {
    if cid in s.clusterStatuses then s.clusterStatuses[cid] else []
  }

  function PoolRows(s: State, key: PoolKey): AdapterStatuses {
    if key in s.poolStatuses then s.poolStatuses[key] else []
  }

  function PlOf(s: State, cid: string): PlacementPc { if cid in s.pl then s.pl[cid] else PlIdle }
  function VrOf(s: State, cid: string): VersionPc { if cid in s.vr then s.vr[cid] else VrIdle }
  function HcOf(s: State, cid: string): HcPc { if cid in s.hc then s.hc[cid] else HcIdle }
  function NvrOf(s: State, key: PoolKey): PoolVersionPc { if key in s.nvr then s.nvr[key] else NvrIdle }
  function NpOf(s: State, key: PoolKey): NodePoolPc { if key in s.np then s.np[key] else NpIdle }

  // What GET /clusters/{id} answers: nothing for an unknown or deleted id.
  predicate Found(s: State, cid: string) {
    cid in s.clusters && !s.clusters[cid].deleted && s.clusters[cid].current in s.clusters[cid].history
  }

  function Current(s: State, cid: string): Cluster
    requires Found(s, cid)
  {
    s.clusters[cid].history[s.clusters[cid].current]
  }

  predicate PoolFound(s: State, key: PoolKey) {
    key in s.pools && !s.pools[key].deleted && s.pools[key].current in s.pools[key].history
  }

  function CurrentPool(s: State, key: PoolKey): NodePool
    requires PoolFound(s, key)
  {
    s.pools[key].history[s.pools[key].current]
  }

  // ---- What the processes compute from what they read ----

  function HcInput(cid: string, c: Cluster, v: VersionData, p: PlacementData): HcManifest.Input {
    HcManifest.Input(cid, c.name, c.generation, c.createdBy, c.spec.infraID, c.spec.issuerURL, c.id, c.spec.gcp,
      v.image, v.channel, p.baseDomain, HcManifest.NO_OPTIONS)
  }

  function HcBuild(cid: string, c: Cluster, v: VersionData, p: PlacementData):
    Result<ManifestWork, HcManifest.BuildError>
  {
    HcManifest.Build(HcInput(cid, c, v, p))
  }

  /** The hc gate: placed, resolved, and resolved for the version in the cluster snapshot. */
  predicate HcGate(c: Cluster, ss: AdapterStatuses) {
    PlacementReady(Placement(ss)) && VersionReady(VersionResolution(ss))
    && VersionResolution(ss).value.version == c.spec.releaseVersion
  }

  function NpInput(n: NodePool, c: Cluster, image: string): NodePoolManifest.Input {
    NodePoolManifest.Input(n.id, n.name, n.generation, n.clusterID, c.name, NodePoolManifest.DEFAULT_REPLICAS,
      NodePoolManifest.DEFAULT_MACHINE_TYPE, n.region, NodePoolManifest.ZoneOrDefault(n.zone, n.region),
      c.spec.gcp.subnet,
      NodePoolManifest.DEFAULT_DISK_SIZE_GB, NodePoolManifest.DEFAULT_DISK_TYPE, image)
  }

  function NpBuild(n: NodePool, c: Cluster, image: string): ManifestWork {
    NodePoolManifest.Build(NpInput(n, c, image))
  }

  predicate NpGate(n: NodePool, clusterStatuses: AdapterStatuses, poolStatuses: AdapterStatuses) {
    PlacementReady(Placement(clusterStatuses)) && HcAvailable(clusterStatuses) && VersionReady(NodePoolVR(poolStatuses))
    && NodePoolVR(poolStatuses).value.version == n.releaseVersion
  }

  function Gen(work: ManifestWork): int {
    GetGeneration(work.annotations)
  }

  /** The decision an apply takes from the existing work it has just read. */
  function DecideWork(s: State, key: Key, work: ManifestWork): Operation {
    CompareGenerations(Gen(work), if key in s.works then Gen(s.works[key].work) else 0, key in s.works)
  }

  /**
   * The store once a write request is carried out; a create finding the name taken, or an update finding
   * nothing, changes nothing.
   */
  function WriteWork(works: map<Key, Stored>, key: Key, work: ManifestWork, op: Operation): map<Key, Stored> {
    if op == Create && key !in works then works[key := Created(work, key.0)]
    else if op == Update && key in works then works[key := Stored(Patched(works[key].work, work), works[key].status)]
    else works
  }

  predicate CanWrite(works: map<Key, Stored>, key: Key, op: Operation) {
    (op == Create && key !in works) || (op == Update && key in works)
  }

  function ReadStatus(s: State, key: Key): Option<ManifestWorkStatus> {
    if key in s.works then Some(Reported(s.works[key].status)) else None
  }

  // ---- One process step ----

  // Read: the next remote read is answered. Land: the request in flight takes effect, and may do so
  // again, since a retry resends the same body. Return: it is answered. Fail: the call fails, whether
  // or not it took effect, and the reconcile returns an error.
  datatype Move = Read | Select(mc: string, domain: string) | Graph(nodes: seq<Node>) | Land | Return | Fail

  function PutRow(s: State, cid: string, entry: AdapterStatus): map<string, AdapterStatuses> {
    s.clusterStatuses[cid := PutStatus(Rows(s, cid), entry)]
  }

  function PutPoolRow(s: State, key: PoolKey, entry: AdapterStatus): map<PoolKey, AdapterStatuses> {
    s.poolStatuses[key := PutStatus(PoolRows(s, key), entry)]
  }

  /** What a graph answer may contain: a (channel, version) that is listed always carries its one payload. */
  predicate Consistent(s: State, channel: string, nodes: seq<Node>) {
    forall n :: n in nodes ==> (channel, n.version) in s.releases && s.releases[(channel, n.version)] == n.payload
  }

  // A step gives the process its next program point; landing also writes the store it is aimed at.

  function PlTarget(s: State, cid: string, m: Move): PlacementPc {
    match (PlOf(s, cid), m)
    case (PlIdle, Read) =>
      if Found(s, cid) && !IsReconciled(s.clusters[cid].conditions) then PlStatuses(Current(s, cid)) else PlIdle
    case (PlStatuses(c), Read) => if PlacementReady(Placement(Rows(s, cid))) then PlIdle else PlSelect(c)
    case (PlSelect(c), Select(mc, domain)) => PlPut(PlacementEntry(c.generation, mc, domain), false)
    case (PlPut(entry, _), Land) => PlPut(entry, true)
    case (PlPut(entry, true), Return) => PlIdle
    case (_, Fail) => PlIdle
    case (pc, _) => pc
  }

  function PlNext(s: State, cid: string, m: Move): State {
    var pc := PlOf(s, cid);
    s.(pl := s.pl[cid := PlTarget(s, cid, m)],
       clusterStatuses := if pc.PlPut? && m.Land? then PutRow(s, cid, pc.entry) else s.clusterStatuses)
  }

  function VrTarget(s: State, cid: string, m: Move): VersionPc {
    match (VrOf(s, cid), m)
    case (VrIdle, Read) =>
      if Found(s, cid) && !IsReconciled(s.clusters[cid].conditions) && Current(s, cid).spec.releaseVersion != ""
      then VrStatuses(Current(s, cid)) else VrIdle
    case (VrStatuses(c), Read) =>
      var v := VersionResolution(Rows(s, cid));
      if VersionReady(v) && v.value.version == c.spec.releaseVersion then VrIdle else VrResolve(c)
    case (VrResolve(c), Graph(nodes)) =>
      var channel := BuildChannel(c.spec.releaseVersion);
      var found := Resolve(nodes, c.spec.releaseVersion);
      if !Consistent(s, channel, nodes) then VrResolve(c)
      else if found.None? then VrIdle
      else VrPut(VersionEntry(VERSION_RESOLUTION, "VersionResolved", c.generation, found.value.payload,
                             found.value.version, channel), false)
    case (VrPut(entry, _), Land) => VrPut(entry, true)
    case (VrPut(entry, true), Return) => VrIdle
    case (_, Fail) => VrIdle
    case (pc, _) => pc
  }

  function VrNext(s: State, cid: string, m: Move): State {
    var pc := VrOf(s, cid);
    s.(vr := s.vr[cid := VrTarget(s, cid, m)],
       clusterStatuses := if pc.VrPut? && m.Land? then PutRow(s, cid, pc.entry) else s.clusterStatuses)
  }

  function HcGated(s: State, cid: string, c: Cluster): HcPc {
    var ss := Rows(s, cid);
    if !HcGate(c, ss) then HcIdle
    else
      var p := Placement(ss).value;
      var built := HcBuild(cid, c, VersionResolution(ss).value, p);
      if built.Err? then HcIdle else HcLookup(c, p, built.value)
  }

  function HcTarget(s: State, cid: string, m: Move): HcPc {
    match (HcOf(s, cid), m)
    case (HcIdle, Read) =>
      if Found(s, cid) && !IsReconciled(s.clusters[cid].conditions) then HcStatuses(Current(s, cid)) else HcIdle
    case (HcStatuses(c), Read) => HcGated(s, cid, c)
    case (HcLookup(c, p, work), Read) =>
      var op := DecideWork(s, (p.managementCluster, work.name), work);
      if op == Skip then HcReadBack(c, p, work) else HcWrite(c, p, work, op, false)
    case (HcWrite(c, p, work, op, landed), Land) =>
      HcWrite(c, p, work, op, landed || CanWrite(s.works, (p.managementCluster, work.name), op))
    case (HcWrite(c, p, work, op, true), Return) => HcReadBack(c, p, work)
    case (HcReadBack(c, p, work), Read) =>
      HcPut(c, p, work, HcEntry(c.generation, ReadStatus(s, (p.managementCluster, work.name))), false)
    case (HcPut(c, p, work, entry, _), Land) => HcPut(c, p, work, entry, true)
    case (HcPut(_, _, _, _, true), Return) => HcIdle
    case (_, Fail) => HcIdle
    case (pc, _) => pc
  }

  function HcNext(s: State, cid: string, m: Move): State {
    var pc := HcOf(s, cid);
    s.(hc := s.hc[cid := HcTarget(s, cid, m)],
       works := if pc.HcWrite? && m.Land?
                then WriteWork(s.works, (pc.p.managementCluster, pc.work.name), pc.work, pc.op) else s.works,
       clusterStatuses := if pc.HcPut? && m.Land? then PutRow(s, cid, pc.entry) else s.clusterStatuses)
  }

  function NvrTarget(s: State, key: PoolKey, m: Move): PoolVersionPc {
    match (NvrOf(s, key), m)
    case (NvrIdle, Read) =>
      if PoolFound(s, key) && CurrentPool(s, key).releaseVersion != ""
      then NvrStatuses(CurrentPool(s, key)) else NvrIdle
    case (NvrStatuses(n), Read) =>
      var v := NodePoolVR(PoolRows(s, key));
      var resolved := VersionReady(v) && v.value.version == n.releaseVersion;
      if resolved || BuildNodePoolChannel(n.releaseVersion).None? then NvrIdle else NvrResolve(n)
    case (NvrResolve(n), Graph(nodes)) =>
      var channel := BuildNodePoolChannel(n.releaseVersion).GetOr("");
      var found := Resolve(nodes, n.releaseVersion);
      if !Consistent(s, channel, nodes) then NvrResolve(n)
      else if found.None? then NvrIdle
      else NvrPut(VersionEntry(NODE_POOL_VR, "ReleaseImageAvailable", n.generation, found.value.payload,
                              n.releaseVersion, channel), false)
    case (NvrPut(entry, _), Land) => NvrPut(entry, true)
    case (NvrPut(entry, true), Return) => NvrIdle
    case (_, Fail) => NvrIdle
    case (pc, _) => pc
  }

  function NvrNext(s: State, key: PoolKey, m: Move): State {
    var pc := NvrOf(s, key);
    s.(nvr := s.nvr[key := NvrTarget(s, key, m)],
       poolStatuses := if pc.NvrPut? && m.Land? then PutPoolRow(s, key, pc.entry) else s.poolStatuses)
  }

  /** The gate, the build, and the validation that opens an apply. */
  function NpGated(s: State, key: PoolKey, n: NodePool, c: Cluster, ss: AdapterStatuses): NodePoolPc {
    if !NpGate(n, ss, PoolRows(s, key)) then NpIdle
    else
      var work := NpBuild(n, c, NodePoolVR(PoolRows(s, key)).value.image);
      if !WorkValid(work) then NpIdle else NpLookup(n, c, Placement(ss).value, work)
  }

  function NpTarget(s: State, key: PoolKey, m: Move): NodePoolPc {
    match (NpOf(s, key), m)
    case (NpIdle, Read) => if PoolFound(s, key) then NpCluster(CurrentPool(s, key)) else NpIdle
    case (NpCluster(n), Read) => if Found(s, n.clusterID) then NpClusterStatuses(n, Current(s, n.clusterID)) else NpIdle
    case (NpClusterStatuses(n, c), Read) => NpStatuses(n, c, Rows(s, n.clusterID))
    case (NpStatuses(n, c, ss), Read) => NpGated(s, key, n, c, ss)
    case (NpLookup(n, c, p, work), Read) =>
      var op := DecideWork(s, (p.managementCluster, work.name), work);
      if op == Skip then NpReadBack(n, c, p, work) else NpWrite(n, c, p, work, op, false)
    case (NpWrite(n, c, p, work, op, landed), Land) =>
      NpWrite(n, c, p, work, op, landed || CanWrite(s.works, (p.managementCluster, work.name), op))
    case (NpWrite(n, c, p, work, op, true), Return) => NpReadBack(n, c, p, work)
    case (NpReadBack(n, c, p, work), Read) =>
      NpPut(n, c, p, work, NodePoolEntry(n.generation, ReadStatus(s, (p.managementCluster, work.name))), false)
    case (NpPut(n, c, p, work, entry, _), Land) => NpPut(n, c, p, work, entry, true)
    case (NpPut(_, _, _, _, _, true), Return) => NpIdle
    case (_, Fail) => NpIdle
    case (pc, _) => pc
  }

  function NpNext(s: State, key: PoolKey, m: Move): State {
    var pc := NpOf(s, key);
    s.(np := s.np[key := NpTarget(s, key, m)],
       works := if pc.NpWrite? && m.Land?
                then WriteWork(s.works, (pc.p.managementCluster, pc.work.name), pc.work, pc.op) else s.works,
       poolStatuses := if pc.NpPut? && m.Land? then PutPoolRow(s, key, pc.entry) else s.poolStatuses)
  }

  // ---- The environment ----

  // Users edit and delete objects, Sentinel sets conditions, agents report, releases are published.
  datatype Event =
    | CreateCluster(cid: string, c: Cluster)
    | EditCluster(cid: string, c: Cluster)
    | SetConditions(cid: string, conditions: seq<Condition>)
    | DeleteCluster(cid: string)
    | CreatePool(key: PoolKey, n: NodePool)
    | EditPool(key: PoolKey, n: NodePool)
    | DeletePool(key: PoolKey)
    | Report(work: Key, status: WorkStatus)
    | Publish(channel: string, version: string, payload: string)

  /**
   * What the environment is held to: ids are never reused and a node pool id belongs to one cluster;
   * generations are int64 and rise with every edit; a cluster's name and creator never change; a
   * node pool's clusterId is the cluster of its key; a published payload is never replaced.
   */
  predicate Allowed(s: State, e: Event) {
    match e
    case CreateCluster(cid, c) => cid !in s.clusters && c.id == cid && IsInt64(c.generation)
    case EditCluster(cid, c) =>
      cid in s.clusters && s.clusters[cid].current in s.clusters[cid].history && IsInt64(c.generation)
      && c.generation > s.clusters[cid].current
      && (var was := s.clusters[cid].history[s.clusters[cid].current];
          c.id == was.id && c.name == was.name && c.createdBy == was.createdBy)
    case SetConditions(cid, conditions) => cid in s.clusters
    case DeleteCluster(cid) => cid in s.clusters
    case CreatePool(key, n) =>
      key.0 in s.clusters && n.id == key.1 && n.clusterID == key.0 && IsInt64(n.generation)
        && forall k :: k in s.pools ==> k.1 != key.1
    case EditPool(key, n) =>
      key in s.pools && n.id == key.1 && n.clusterID == key.0 && IsInt64(n.generation)
      && n.generation > s.pools[key].current
    case DeletePool(key) => key in s.pools
    case Report(work, status) => work in s.works
    case Publish(channel, version, payload) => (channel, version) !in s.releases
  }

  function Happen(s: State, e: Event): State {
    if !Allowed(s, e) then s
    else
      match e
      case CreateCluster(cid, c) =>
        s.(clusters := s.clusters[cid := ClusterRecord(map[c.generation := c], c.generation, [], false)])
      case EditCluster(cid, c) =>
        var r := s.clusters[cid];
        s.(clusters := s.clusters[cid := r.(history := r.history[c.generation := c], current := c.generation)])
      case SetConditions(cid, conditions) =>
        s.(clusters := s.clusters[cid := s.clusters[cid].(conditions := conditions)])
      case DeleteCluster(cid) => s.(clusters := s.clusters[cid := s.clusters[cid].(deleted := true)])
      case CreatePool(key, n) => s.(pools := s.pools[key := PoolRecord(map[n.generation := n], n.generation, false)])
      case EditPool(key, n) =>
        var r := s.pools[key];
        s.(pools := s.pools[key := r.(history := r.history[n.generation := n], current := n.generation)])
      case DeletePool(key) => s.(pools := s.pools[key := s.pools[key].(deleted := true)])
      case Report(work, status) => s.(works := s.works[work := s.works[work].(status := status)])
      case Publish(channel, version, payload) => s.(releases := s.releases[(channel, version) := payload])
  }

  // ---- Runs ----

  datatype Action =
    | Outside(event: Event)
    | Pl(cid: string, move: Move)
    | Vr(cid: string, move: Move)
    | Hc(cid: string, move: Move)
    | Nvr(key: PoolKey, move: Move)
    | Np(key: PoolKey, move: Move)

  function Next(s: State, a: Action): State {
    match a
    case Outside(e) => Happen(s, e)
    case Pl(cid, m) => PlNext(s, cid, m)
    case Vr(cid, m) => VrNext(s, cid, m)
    case Hc(cid, m) => HcNext(s, cid, m)
    case Nvr(key, m) => NvrNext(s, key, m)
    case Np(key, m) => NpNext(s, key, m)
  }

  ghost predicate Step(s: State, t: State) {
    exists a :: t == Next(s, a)
  }

  /** A run: any interleaving of all processes and the environment, from the empty state. */
  ghost predicate IsRun(run: seq<State>) {
    |run| > 0 && run[0] == INITIAL && forall i :: 0 <= i < |run| - 1 ==> Step(run[i], run[i + 1])
  }
}
