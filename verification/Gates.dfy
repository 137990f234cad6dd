// The gates of the five loops, read field by field from the status entries of the other adapters.
module Gates {
  import opened Wrappers
  import opened ApiTypes
  import opened Protocol
  import VersionReconciler
  import NodePoolVersionReconciler

  /** The placement adapter's entry names a management cluster and a base domain. */
  ghost predicate NamesPlacement(ss: AdapterStatuses) {
    exists i ::
      && IsFirst(ss, "placement-adapter", i)
      && FieldSet(ss[i].data, "managementClusterName") && FieldSet(ss[i].data, "baseDomain")
  }

  /** The adapter's entry names an image, and for this version. */
  ghost predicate NamesRelease(ss: AdapterStatuses, adapter: string, version: string) {
    exists i ::
      IsFirst(ss, adapter, i) && FieldSet(ss[i].data, "release_image")
      && FieldIs(ss[i].data, "release_version", version)
  }

  /** The hc adapter's entry says the HostedCluster is available. */
  ghost predicate NamesAvailable(ss: AdapterStatuses) {
    exists i :: IsFirst(ss, "hc-adapter", i) && SaysAvailable(ss[i])
  }

  /** The placement loop stops at an entry that names a placement. */
  lemma PlacementGate(ss: AdapterStatuses)
    ensures PlacementReady(Placement(ss)) <==> NamesPlacement(ss)
  {
    hide Find;
    FindIs(ss, PLACEMENT);
    if i :| IsFirst(ss, "placement-adapter", i) { AccessorsRead(ss, i); }
  }

  lemma ReleaseGate(ss: AdapterStatuses, adapter: string, version: string)
    ensures var v := ReadVersion(Find(ss, adapter));
            VersionReady(v) && v.value.version == version <==> NamesRelease(ss, adapter, version)
  {
    hide Find;
    FindIs(ss, adapter);
  }

  lemma AvailableGate(ss: AdapterStatuses)
    ensures HcAvailable(ss) <==> NamesAvailable(ss)
  {
    hide Find;
    FindIs(ss, HC);
    if i :| IsFirst(ss, "hc-adapter", i) { AccessorsRead(ss, i); }
  }

  /** The hc loop waits for a placement and for the release of the version in the cluster detail. */
  lemma HcGateMeans(c: Cluster, ss: AdapterStatuses)
    ensures HcGate(c, ss) <==>
      NamesPlacement(ss) && NamesRelease(ss, "version-resolution-adapter", c.spec.releaseVersion)
  {
    hide Placement, VersionReady, PlacementReady, ReadVersion, Find;
    PlacementGate(ss);
    ReleaseGate(ss, VERSION_RESOLUTION, c.spec.releaseVersion);
  }

  /** The nodepool loop waits for its cluster's placement and HostedCluster, and for its own release. */
  lemma NpGateMeans(n: NodePool, ss: AdapterStatuses, ps: AdapterStatuses)
    ensures NpGate(n, ss, ps) <==>
      NamesPlacement(ss) && NamesAvailable(ss) && NamesRelease(ps, "nodepool-vr-adapter", n.releaseVersion)
  {
    hide Placement, VersionReady, PlacementReady, ReadVersion, Find, HcAvailable;
    PlacementGate(ss);
    AvailableGate(ss);
    ReleaseGate(ps, NODE_POOL_VR, n.releaseVersion);
  }

  /** Both version loops stop at an entry that names the release of the version asked for. */
  lemma ResolvedMeans(c: Cluster, ss: AdapterStatuses, n: NodePool, ps: AdapterStatuses)
    ensures VersionReconciler.Resolved(ss, c) <==>
      NamesRelease(ss, "version-resolution-adapter", c.spec.releaseVersion)
    ensures NodePoolVersionReconciler.Resolved(ps, n) <==> NamesRelease(ps, "nodepool-vr-adapter", n.releaseVersion)
  {
    hide VersionReady, ReadVersion, Find;
    ReleaseGate(ss, VERSION_RESOLUTION, c.spec.releaseVersion);
    ReleaseGate(ps, NODE_POOL_VR, n.releaseVersion);
  }
}
