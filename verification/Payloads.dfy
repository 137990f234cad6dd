// The status entries the hc and nodepool adapters derive from a ManifestWork's status.
module Payloads {
  import opened Wrappers
  import opened ApiTypes
  import opened Status
  import HcManifest

  /** The status of the first condition of a kind, or "Unknown". */
  function ConditionStatus(conditions: seq<Condition>, kind: string): (r: string)
    ensures (forall c :: c in conditions ==> c.kind != kind) ==> r == "Unknown"
  {
    if conditions == [] then "Unknown"
    else if conditions[0].kind == kind then conditions[0].status
    else ConditionStatus(conditions[1..], kind)
  }

  function ConditionReason(conditions: seq<Condition>, kind: string): (r: string)
    ensures (forall c :: c in conditions ==> c.kind != kind) ==> r == "Unknown"
  {
    if conditions == [] then "Unknown"
    else if conditions[0].kind == kind then conditions[0].reason
    else ConditionReason(conditions[1..], kind)
  }

  /** A feedback text of one manifest, or the default when the agent has not reported it. */
  function FeedbackOr(status: ManifestWorkStatus, index: nat, name: string, default: string): string {
    if index < |status.resourceStatuses| && name in status.resourceStatuses[index]
    then status.resourceStatuses[index][name]
    else default
  }

  function HcAvailability(status: ManifestWorkStatus): string {
    FeedbackOr(status, HcManifest.HOSTED_CLUSTER_INDEX, HcManifest.AVAILABLE_FEEDBACK, "Unknown")
  }

  function HcHealth(status: ManifestWorkStatus): string {
    if FeedbackOr(status, HcManifest.HOSTED_CLUSTER_INDEX, HcManifest.DEGRADED_FEEDBACK, "") == "False"
    then "True" else "False"
  }

  /** The hc adapter's entry; None stands for a work Maestro does not know. */
  function HcEntry(generation: int, status: Option<ManifestWorkStatus>): (entry: AdapterStatus)
    ensures entry.adapter == HC && entry.observedGeneration == generation
  {
    if status.None? then
      AdapterStatus(HC, generation,
        [Condition("Applied", "Unknown", "ManifestWorkNotFound"),
         Condition("Available", "Unknown", "ManifestWorkNotFound"),
         Condition("Health", "False", "ManifestWorkNotFound")],
        map["available" := Flag(false)])
    else
      AdapterStatus(HC, generation,
        [Condition("Applied", ConditionStatus(status.value.conditions, "Applied"), "ManifestWorkApplied"),
         Condition("Available", HcAvailability(status.value), "HostedClusterAvailable"),
         Condition("Health", HcHealth(status.value), "HostedClusterHealth")],
        map["available" := Flag(HcAvailability(status.value) == "True")])
  }

  /** The nodepool gate opens on this entry exactly when the agent reported the HostedCluster available. */
  lemma AvailableMeans(generation: int, status: Option<ManifestWorkStatus>)
    ensures ReadAvailable(Some(HcEntry(generation, status))) <==> status.Some? && HcAvailability(status.value) == "True"
  {
    var entry := HcEntry(generation, status);
    assert entry.conditions[1].kind == "Available" && entry.conditions[1] in entry.conditions;
    assert "Applied"[1] != "Available"[1] && |"Health"| != |"Available"|;
  }

  function NodePoolEntry(generation: int, status: Option<ManifestWorkStatus>): (entry: AdapterStatus)
    ensures entry.adapter == NODE_POOL && entry.observedGeneration == generation
  {
    if status.None? then
      AdapterStatus(NODE_POOL, generation,
        [Condition("Applied", "Unknown", "ManifestWorkNotFound"),
         Condition("Available", "Unknown", "ManifestWorkNotFound"),
         Condition("Health", "Unknown", "ManifestWorkNotFound")],
        map["replicas" := Text(""), "version" := Text("")])
    else
      var st := status.value;
      AdapterStatus(NODE_POOL, generation,
        [Condition("Applied", ConditionStatus(st.conditions, "Applied"), ConditionReason(st.conditions, "Applied")),
         Condition("Available", FeedbackOr(st, 0, "readyCondition", "Unknown"), ""),
         Condition("Health",
                   if FeedbackOr(st, 0, "allNodesHealthyCondition", "Unknown") == "True" then "True" else "False", "")],
        map["replicas" := Text(FeedbackOr(st, 0, "replicas", "")), "version" := Text(FeedbackOr(st, 0, "version", ""))])
  }

  /** `conditionStatus`: the first condition of the kind decides. */
  method ScanConditions(conditions: seq<Condition>, kind: string) returns (status: string)
    ensures status == ConditionStatus(conditions, kind)
  {
    for i := 0 to |conditions|
      invariant ConditionStatus(conditions, kind) == ConditionStatus(conditions[i..], kind)
    {
      if conditions[i].kind == kind {
        return conditions[i].status;
      }
      assert conditions[i..][1..] == conditions[i + 1..];
    }
    return "Unknown";
  }

  lemma {:induction false} ConditionStatusIsFirst(conditions: seq<Condition>, kind: string, i: nat)
    requires i < |conditions| && conditions[i].kind == kind && forall j :: 0 <= j < i ==> conditions[j].kind != kind
    ensures ConditionStatus(conditions, kind) == conditions[i].status
    ensures ConditionReason(conditions, kind) == conditions[i].reason
  {
    if i > 0 {
      ConditionStatusIsFirst(conditions[1..], kind, i - 1);
    }
  }

  /** The hc adapter's `buildStatusPayload`. */
  method BuildHcPayload(generation: int, mwStatus: Option<ManifestWorkStatus>) returns (payload: AdapterStatus)
    ensures payload == HcEntry(generation, mwStatus)
  {
    payload := AdapterStatus(HC, generation, [], map[]);
    if mwStatus.None? {
      payload := payload.(conditions :=
        [Condition("Applied", "Unknown", "ManifestWorkNotFound"),
         Condition("Available", "Unknown", "ManifestWorkNotFound"),
         Condition("Health", "False", "ManifestWorkNotFound")]);
      payload := payload.(data := map["available" := Flag(false)]);
      return payload;
    }
    var appliedStatus := ScanConditions(mwStatus.value.conditions, "Applied");
    var availableStatus := "Unknown";
    var healthStatus := "False";
    if |mwStatus.value.resourceStatuses| > HcManifest.HOSTED_CLUSTER_INDEX {
      var feedback := mwStatus.value.resourceStatuses[HcManifest.HOSTED_CLUSTER_INDEX];
      if HcManifest.AVAILABLE_FEEDBACK in feedback {
        availableStatus := feedback[HcManifest.AVAILABLE_FEEDBACK];
      }
      if HcManifest.DEGRADED_FEEDBACK in feedback {
        if feedback[HcManifest.DEGRADED_FEEDBACK] == "False" {
          healthStatus := "True";
        } else {
          healthStatus := "False";
        }
      }
    }
    payload := payload.(conditions :=
      [Condition("Applied", appliedStatus, "ManifestWorkApplied"),
       Condition("Available", availableStatus, "HostedClusterAvailable"),
       Condition("Health", healthStatus, "HostedClusterHealth")]);
    payload := payload.(data := map["available" := Flag(availableStatus == "True")]);
  }

  /** The nodepool adapter's `buildStatusPayload`. */
  method BuildNodePoolPayload(generation: int, mwStatus: Option<ManifestWorkStatus>) returns (payload: AdapterStatus)
    ensures payload == NodePoolEntry(generation, mwStatus)
  {
    if mwStatus.None? {
      return AdapterStatus(NODE_POOL, generation,
        [Condition("Applied", "Unknown", "ManifestWorkNotFound"),
         Condition("Available", "Unknown", "ManifestWorkNotFound"),
         Condition("Health", "Unknown", "ManifestWorkNotFound")],
        map["replicas" := Text(""), "version" := Text("")]);
    }
    var conditions := mwStatus.value.conditions;
    var appliedStatus, appliedReason := "Unknown", "Unknown";
    for i := 0 to |conditions|
      invariant appliedStatus == appliedReason == "Unknown"
      invariant ConditionStatus(conditions, "Applied") == ConditionStatus(conditions[i..], "Applied")
      invariant ConditionReason(conditions, "Applied") == ConditionReason(conditions[i..], "Applied")
    {
      if conditions[i].kind == "Applied" {
        appliedStatus, appliedReason := conditions[i].status, conditions[i].reason;
        break;
      }
      assert conditions[i..][1..] == conditions[i + 1..];
    }
    assert appliedStatus == ConditionStatus(conditions, "Applied")
      && appliedReason == ConditionReason(conditions, "Applied");
    var availableStatus, allNodesHealthy, replicas, version := "Unknown", "Unknown", "", "";
    if |mwStatus.value.resourceStatuses| > 0 {
      var feedback := mwStatus.value.resourceStatuses[0];
      if "readyCondition" in feedback { availableStatus := feedback["readyCondition"]; }
      if "allNodesHealthyCondition" in feedback { allNodesHealthy := feedback["allNodesHealthyCondition"]; }
      if "replicas" in feedback { replicas := feedback["replicas"]; }
      if "version" in feedback { version := feedback["version"]; }
    }
    var healthStatus := "False";
    if allNodesHealthy == "True" {
      healthStatus := "True";
    }
    payload := AdapterStatus(NODE_POOL, generation,
      [Condition("Applied", appliedStatus, appliedReason), Condition("Available", availableStatus, ""),
       Condition("Health", healthStatus, "")],
      map["replicas" := Text(replicas), "version" := Text(version)]);
  }

  // What a manifest's feedback says under a name, if the agent has reported it.
  ghost predicate FeedbackSays(status: Option<ManifestWorkStatus>, index: nat, name: string, text: string) {
    status.Some? && index < |status.value.resourceStatuses| && name in status.value.resourceStatuses[index]
    && status.value.resourceStatuses[index][name] == text
  }

  /** The text is what the feedback says, or the default where it says nothing. */
  ghost predicate TextOr(status: Option<ManifestWorkStatus>, index: nat, name: string, default: string, text: string) {
    FeedbackSays(status, index, name, text) || (text == default && forall t :: !FeedbackSays(status, index, name, t))
  }

  lemma KindsDistinct()
    ensures "Applied" != "Available" && "Applied" != "Health" && "Available" != "Health"
  {
    assert "Applied"[1] != "Available"[1] && |"Health"| == 6 && |"Applied"| == 7 && |"Available"| == 9;
  }

  /** An entry with the three conditions every adapter sends, as consumers read them. */
  ghost predicate ConditionIs(entry: AdapterStatus, kind: string, status: string, reason: string) {
    ConditionStatus(entry.conditions, kind) == status && ConditionReason(entry.conditions, kind) == reason
  }

  lemma ThreeSay(entry: AdapterStatus)
    requires |entry.conditions| == 3
    requires entry.conditions[0].kind == "Applied" && entry.conditions[1].kind == "Available"
    requires entry.conditions[2].kind == "Health"
    ensures var cs := entry.conditions;
            && ConditionIs(entry, "Applied", cs[0].status, cs[0].reason)
            && ConditionIs(entry, "Available", cs[1].status, cs[1].reason)
            && ConditionIs(entry, "Health", cs[2].status, cs[2].reason)
  {
    KindsDistinct();
    ConditionStatusIsFirst(entry.conditions, "Applied", 0);
    ConditionStatusIsFirst(entry.conditions, "Available", 1);
    ConditionStatusIsFirst(entry.conditions, "Health", 2);
  }

  /**
   * What an hc entry says: whether the work is applied, what the fourth manifest's feedback says of
   * the HostedCluster, and health by its degraded condition being "False".
   */
  lemma HcEntryMeans(generation: int, status: Option<ManifestWorkStatus>)
    ensures var entry := HcEntry(generation, status);
            var found := status.Some?;
            && entry.adapter == "hc-adapter" && entry.observedGeneration == generation && |entry.conditions| == 3
            && ConditionIs(entry, "Applied", if found then ConditionStatus(status.value.conditions, "Applied")
                           else "Unknown",
                    if found then "ManifestWorkApplied" else "ManifestWorkNotFound")
            && TextOr(status, 3, "availableCondition", "Unknown", ConditionStatus(entry.conditions, "Available"))
            && ConditionReason(entry.conditions, "Available") ==
              (if found then "HostedClusterAvailable" else "ManifestWorkNotFound")
            && ConditionIs(entry, "Health", if FeedbackSays(status, 3, "degradedCondition", "False") then "True"
                           else "False",
                    if found then "HostedClusterHealth" else "ManifestWorkNotFound")
            && entry.data == map["available" := Flag(FeedbackSays(status, 3, "availableCondition", "True"))]
  {
    ThreeSay(HcEntry(generation, status));
    assert "Unknown"[0] != "True"[0];
  }

  /** The same for a node pool entry, which speaks of the first manifest and passes two of its texts on. */
  lemma NodePoolEntryMeans(generation: int, status: Option<ManifestWorkStatus>)
    ensures var entry := NodePoolEntry(generation, status);
            var found := status.Some?;
            && entry.adapter == "nodepool-adapter" && entry.observedGeneration == generation && |entry.conditions| == 3
            && ConditionIs(entry, "Applied", if found then ConditionStatus(status.value.conditions, "Applied")
                           else "Unknown",
                    if found then ConditionReason(status.value.conditions, "Applied") else "ManifestWorkNotFound")
            && TextOr(status, 0, "readyCondition", "Unknown", ConditionStatus(entry.conditions, "Available"))
            && ConditionReason(entry.conditions, "Available") == (if found then "" else "ManifestWorkNotFound")
            && ConditionIs(entry, "Health",
                    if FeedbackSays(status, 0, "allNodesHealthyCondition", "True") then "True"
                    else if found then "False" else "Unknown", if found then "" else "ManifestWorkNotFound")
            && entry.data.Keys == {"replicas", "version"} && entry.data["replicas"].Text? && entry.data["version"].Text?
            && TextOr(status, 0, "replicas", "", entry.data["replicas"].s)
            && TextOr(status, 0, "version", "", entry.data["version"].s)
  {
    ThreeSay(NodePoolEntry(generation, status));
    assert "Unknown"[0] != "True"[0];
  }

  /** All three conditions of a placement entry hold, and its data are the pick. */
  lemma PlacementEntryMeans(generation: int, mc: string, domain: string)
    ensures var entry := PlacementEntry(generation, mc, domain);
            && entry.adapter == "placement-adapter" && entry.observedGeneration == generation
            && |entry.conditions| == 3 && ConditionIs(entry, "Applied", "True", "PlacementDecided")
            && ConditionIs(entry, "Available", "True", "PlacementReady")
            && ConditionIs(entry, "Health", "True", "PlacementReady")
            && entry.data.Keys == {"managementClusterName", "baseDomain"}
            && FieldIs(entry.data, "managementClusterName", mc) && FieldIs(entry.data, "baseDomain", domain)
  {
    ThreeSay(PlacementEntry(generation, mc, domain));
  }

  /** The same for the entries of both version adapters. */
  lemma VersionEntryMeans(adapter: string, reason: string, generation: int, v: VersionData)
    ensures var entry := VersionEntry(adapter, reason, generation, v.image, v.version, v.channel);
            && entry.adapter == adapter && entry.observedGeneration == generation
            && |entry.conditions| == 3 && ConditionIs(entry, "Applied", "True", "VersionResolved")
            && ConditionIs(entry, "Available", "True", reason)
            && ConditionIs(entry, "Health", "True", "VersionResolved")
            && entry.data.Keys == {"release_image", "release_version", "release_channel", "release_channel_group"}
            && VersionFields(entry.data, v) && FieldIs(entry.data, "release_channel_group", "candidate")
  {
    ThreeSay(VersionEntry(adapter, reason, generation, v.image, v.version, v.channel));
  }
}
