// The ManifestWork the hc adapter builds for a cluster.
module HcManifest {
  import opened Wrappers
  import opened Json
  import opened Text
  import opened Work
  import opened Generation
  import opened Resources

  datatype WorkloadIdentity = WorkloadIdentity(
    projectNumber: string, poolID: string, providerID: string,
    nodePool: string, controlPlane: string, cloudController: string,
    storage: string, imageRegistry: string, network: string)

  datatype GcpConfig = GcpConfig(
    projectID: string, region: string, network: string, subnet: string, endpointAccess: string,
    identity: WorkloadIdentity)

  // Optional settings; "" asks for the default.
  datatype Options = Options(
    pullSecretStore: string, pullSecretKey: string, availabilityPolicy: string,
    cpoImage: string, capgImage: string, slug: string)

  const NO_OPTIONS := Options("", "", "", "", "", "")

  datatype Input = Input(
    clusterID: string, clusterName: string, generation: int, createdBy: string,
    infraID: string, issuerURL: string, clusterUUID: string, gcp: GcpConfig,
    releaseImage: string, releaseChannel: string, baseDomain: string, options: Options)

  datatype BuildError = MissingField(field: string) | BadGeneration

  const HOSTED_CLUSTER_INDEX: nat := 3

  function Validate(input: Input): (e: Option<BuildError>)
    ensures e.None? <==> Buildable(input)
  {
    if input.clusterID == "" then Some(MissingField("ClusterID"))
    else if input.clusterName == "" then Some(MissingField("ClusterName"))
    else if input.releaseImage == "" then Some(MissingField("ReleaseImage"))
    else if input.baseDomain == "" then Some(MissingField("BaseDomain"))
    else if input.gcp.projectID == "" then Some(MissingField("GCPProjectID"))
    else if input.gcp.region == "" then Some(MissingField("GCPRegion"))
    else if input.generation <= 0 then Some(BadGeneration)
    else None
  }

  predicate Buildable(input: Input) {
    input.clusterID != "" && input.clusterName != "" && input.releaseImage != "" && input.baseDomain != ""
    && input.gcp.projectID != "" && input.gcp.region != "" && input.generation > 0
  }

  function OrElse(s: string, default: string): string {
    if s == "" then default else s
  }

  function WithDefaults(input: Input): Input {
    input.(gcp := input.gcp.(endpointAccess := OrElse(input.gcp.endpointAccess, "Private")),
           options := input.options.(
             pullSecretStore := OrElse(input.options.pullSecretStore, "gcp-secret-manager"),
             pullSecretKey := OrElse(input.options.pullSecretKey, "default-openshift-pull-secret"),
             availabilityPolicy := OrElse(input.options.availabilityPolicy, "HighlyAvailable"),
             slug := OrElse(input.options.slug, "user")))
  }

  function ClusterNamespace(clusterID: string): string {
    "clusters-" + clusterID
  }

  function ControlPlaneNamespace(clusterID: string, clusterName: string): string {
    "clusters-" + clusterID + "-" + clusterName
  }

  function WorkName(clusterID: string): string {
    clusterID + "-hc-adapter"
  }

  function Namespace(input: Input): Json {
    Resource("Namespace", ClusterNamespace(input.clusterID), "", GenerationNote(input.generation), Null)
  }

  function ExternalSecret(input: Input): Json {
    Resource("ExternalSecret", "pull-secret", ClusterNamespace(input.clusterID), GenerationNote(input.generation),
      ExternalSecretSpec(input))
  }

  function ExternalSecretSpec(input: Input): Json {
    Obj(map[
      "secretStoreRef" := StringObject(map["name" := input.options.pullSecretStore, "kind" := "ClusterSecretStore"]),
      "data" := Arr([Obj(map["remoteRef" := StringObject(map["key" := input.options.pullSecretKey])])])])
  }

  function HostName(prefix: string, input: Input): string {
    prefix + "." + input.clusterName + "-" + input.options.slug + "." + input.baseDomain
  }

  const CERTIFICATE := "external-api-cert"

  function Certificate(input: Input): Json {
    Resource("Certificate", CERTIFICATE, ClusterNamespace(input.clusterID), GenerationNote(input.generation),
      CertificateSpec(input))
  }

  function CertificateSpec(input: Input): Json {
    Obj(map["dnsNames" := Arr([Str(HostName("*", input))])])
  }

  const CPO_NOTE := "hypershift.openshift.io/control-plane-operator-image"
  const CAPG_NOTE := "hypershift.openshift.io/capi-provider-gcp-image"

  const POD_SECURITY_NOTE := "hypershift.openshift.io/pod-security-admission-label-override"
  const SAN_NOTE := "hypershift.openshift.io/skip-kas-conflict-san-validation"

  function HostedClusterNotes(input: Input): map<string, string> {
    GenerationNote(input.generation)
    + map[POD_SECURITY_NOTE := "baseline", SAN_NOTE := "true"]
    + (if input.options.cpoImage == "" then map[] else map[CPO_NOTE := input.options.cpoImage])
    + (if input.options.capgImage == "" then map[] else map[CAPG_NOTE := input.options.capgImage])
  }

  function Accounts(wif: WorkloadIdentity): map<string, string> {
    map["nodePool" := wif.nodePool, "controlPlane" := wif.controlPlane, "cloudController" := wif.cloudController,
        "storage" := wif.storage, "imageRegistry" := wif.imageRegistry, "network" := wif.network]
  }

  function Identity(wif: WorkloadIdentity): Json {
    Obj(map["projectNumber" := Str(wif.projectNumber), "poolID" := Str(wif.poolID), "providerID" := Str(wif.providerID),
            "serviceAccountsEmails" := StringObject(Accounts(wif))])
  }

  function Platform(gcp: GcpConfig): Json {
    Obj(map["type" := Str("GCP"), "gcp" := Gcp(gcp)])
  }

  function Gcp(gcp: GcpConfig): Json {
    Obj(map["project" := Str(gcp.projectID), "region" := Str(gcp.region), "networkConfig" := Network(gcp),
            "endpointAccess" := Str(gcp.endpointAccess), "workloadIdentity" := Identity(gcp.identity)])
  }

  function Network(gcp: GcpConfig): Json {
    Obj(map["network" := StringObject(map["name" := gcp.network]),
            "privateServiceConnectSubnet" := StringObject(map["name" := gcp.subnet])])
  }

  /** How a service is reached; only the first two have a host name. */
  function Route(service: string, host: map<string, string>): Json {
    Obj(map["service" := Str(service),
            "servicePublishingStrategy" := Obj(map["type" := Str("Route")]
                                               + if host == map[] then map[] else map["route" := StringObject(host)])])
  }

  function Services(input: Input): seq<Json> {
    [Route("APIServer", map["hostname" := HostName("api", input)]),
     Route("OAuthServer", map["hostname" := HostName("oauth", input)]),
     Route("Konnectivity", map[]), Route("Ignition", map[])]
  }

  function ServingCertificates(input: Input): Json {
    Obj(map["servingCerts" := Obj(map["namedCertificates" := Arr([Obj(map[
      "names" := Arr([Str(HostName("api", input))]),
      "servingCertificate" := StringObject(map["name" := CERTIFICATE])])])])])
  }

  function HostedClusterSpec(input: Input): Json {
    Obj(map["clusterID" := Str(input.clusterUUID), "infraID" := Str(input.infraID), "issuerURL" := Str(input.issuerURL),
      "release" := StringObject(map["image" := input.releaseImage]), "channel" := Str(input.releaseChannel),
      "controllerAvailabilityPolicy" := Str(input.options.availabilityPolicy),
      "dns" := StringObject(map["baseDomain" := HostName("in", input)]),
      "services" := Arr(Services(input)),
      "configuration" := Obj(map["apiServer" := ServingCertificates(input)]),
      "platform" := Platform(input.gcp)])
  }

  function HostedCluster(input: Input): Json {
    Resource("HostedCluster", input.clusterName, ClusterNamespace(input.clusterID), HostedClusterNotes(input),
      HostedClusterSpec(input))
  }

  function JobName(generation: int): string {
    "rbac-setup-gen-" + FormatInt(generation)
  }

  function RbacJob(input: Input): Json {
    Resource("Job", JobName(input.generation), ControlPlaneNamespace(input.clusterID, input.clusterName),
      GenerationNote(input.generation), RbacJobSpec(input))
  }

  function RbacJobSpec(input: Input): Json {
    StringObject(map["subject" := input.createdBy])
  }

  function Manifests(input: Input): seq<Json> {
    [Namespace(input), ExternalSecret(input), Certificate(input), HostedCluster(input), RbacJob(input)]
  }

  const AVAILABLE_FEEDBACK := "availableCondition"
  const DEGRADED_FEEDBACK := "degradedCondition"

  function ManifestConfigs(input: Input): seq<ManifestConfig> {
    [ManifestConfig("namespaces", ClusterNamespace(input.clusterID), "", "ServerSideApply", ["phase"]),
     ManifestConfig("jobs", JobName(input.generation), ControlPlaneNamespace(input.clusterID, input.clusterName),
                    "CreateOnly", []),
     ManifestConfig("hostedclusters", input.clusterName, ClusterNamespace(input.clusterID), "ServerSideApply",
       [AVAILABLE_FEEDBACK, DEGRADED_FEEDBACK, "controlPlaneEndpoint", "version"])]
  }

  function WorkLabels(clusterID: string): map<string, string> {
    map["hyperfleet.io/cluster-id" := clusterID, "hyperfleet.io/adapter" := "hc-adapter",
      "hyperfleet.io/component" := "hosted-cluster"]
  }

  function Assemble(input: Input): ManifestWork {
    ManifestWork(WorkName(input.clusterID), "", Some(WorkLabels(input.clusterID)),
                 Some(GenerationNote(input.generation)),
      WorkSpec(Manifests(input), Some("Foreground"), ConfigsJson(ManifestConfigs(input))))
  }

  function Build(input: Input): Result<ManifestWork, BuildError> {
    var e := Validate(input);
    if e.Some? then Err(e.value) else Ok(Assemble(WithDefaults(input)))
  }

  /** Building fails exactly when a required field is empty, naming one that is, or the generation is not positive. */
  lemma BuildFails(input: Input)
    ensures Build(input).Err? <==> !Buildable(input)
    ensures Build(input).Ok? <==>
      (forall i :: 0 <= i < 6 ==> RequiredFields(input)[i].1 != "") && input.generation > 0
    ensures forall name :: Build(input) == Err(MissingField(name)) ==> (name, "") in RequiredFields(input)
    ensures Build(input) == Err(BadGeneration) <==>
      (forall i :: 0 <= i < 6 ==> RequiredFields(input)[i].1 != "") && input.generation <= 0
  {
    hide Assemble, WithDefaults;
    var fields := RequiredFields(input);
    assert fields[0] == ("ClusterID", input.clusterID) && fields[1] == ("ClusterName", input.clusterName);
    assert fields[2] == ("ReleaseImage", input.releaseImage) && fields[3] == ("BaseDomain", input.baseDomain);
    assert fields[4] == ("GCPProjectID", input.gcp.projectID) && fields[5] == ("GCPRegion", input.gcp.region);
  }

  ghost function RequiredFields(input: Input): seq<(string, string)> {
    [("ClusterID", input.clusterID), ("ClusterName", input.clusterName), ("ReleaseImage", input.releaseImage),
     ("BaseDomain", input.baseDomain), ("GCPProjectID", input.gcp.projectID), ("GCPRegion", input.gcp.region)]
  }

  /** What Build returns passes the validation ApplyManifestWork runs on it, and carries the cluster's generation. */
  lemma BuildValid(input: Input)
    requires Build(input).Ok? && IsInt64(input.generation)
    ensures var work := Build(input).value;
            && WorkValid(work) && GetGeneration(work.annotations) == input.generation
            && work.name == WorkName(input.clusterID)
  {
    hide Resource, Namespace, ExternalSecret, Certificate, HostedCluster, RbacJob, ManifestConfigs, ManifestValid;
    NoteGeneration(GenerationNote(input.generation), input.generation);
    ManifestsValid(WithDefaults(input));
  }

  lemma ManifestsValid(input: Input)
    requires input.generation > 0 && IsInt64(input.generation)
    ensures forall m :: m in Manifests(input) ==> ManifestValid(m)
  {
    hide Resource, ManifestValid, ExternalSecretSpec, CertificateSpec, HostedClusterSpec, RbacJobSpec, ClusterNamespace,
      JobName, ControlPlaneNamespace, HostedClusterNotes;
    var g := input.generation;
    NotesKeepGeneration(input);
    ResourceValid("Namespace", ClusterNamespace(input.clusterID), "", GenerationNote(g), Null, g);
    ResourceValid("ExternalSecret", "pull-secret", ClusterNamespace(input.clusterID), GenerationNote(g),
                  ExternalSecretSpec(input), g);
    ResourceValid("Certificate", CERTIFICATE, ClusterNamespace(input.clusterID), GenerationNote(g),
                  CertificateSpec(input), g);
    ResourceValid("HostedCluster", input.clusterName, ClusterNamespace(input.clusterID), HostedClusterNotes(input),
      HostedClusterSpec(input), g);
    ResourceValid("Job", JobName(g), ControlPlaneNamespace(input.clusterID, input.clusterName), GenerationNote(g),
      RbacJobSpec(input), g);
  }

  lemma NotesKeepGeneration(input: Input)
    ensures var notes := HostedClusterNotes(input);
            GENERATION in notes && notes[GENERATION] == FormatInt(input.generation)
  {
    assert |GENERATION| == 24 && |CPO_NOTE| == 52 && |CAPG_NOTE| == 47;
    assert |POD_SECURITY_NOTE| == 61 && |SAN_NOTE| == 56;
  }

  /** The object at a position of the manifest list, and the one an option entry names. */
  ghost predicate IsObject(m: Json, kind: string, name: string, namespace: string) {
    StringAt(m, ["kind"]) == kind && GetName(m) == name && GetNamespace(m) == namespace
  }

  /**
   * The status reader looks for HostedCluster feedback at position 3 and for two feedback names:
   * the HostedCluster is at that position, and the option entry that names it asks for both.
   */
  lemma FeedbackIsWhereReadersLook(input: Input)
    requires Build(input).Ok?
    ensures var ms := Build(input).value.spec.manifests;
            var hc := ManifestConfigs(input)[2];
            && |ms| == 5
            && IsObject(ms[HOSTED_CLUSTER_INDEX], "HostedCluster", input.clusterName, ClusterNamespace(input.clusterID))
            && IsObject(ms[HOSTED_CLUSTER_INDEX], "HostedCluster", hc.name, hc.namespace)
            && AVAILABLE_FEEDBACK in hc.feedback && DEGRADED_FEEDBACK in hc.feedback
  {
    var full := WithDefaults(input);
    ResourceReads("HostedCluster", full.clusterName, ClusterNamespace(full.clusterID), HostedClusterNotes(full),
      HostedClusterSpec(full));
    hide Resource, GetName, GetNamespace, StringAt, HostedClusterNotes, HostedClusterSpec, Namespace, ExternalSecret,
      Certificate, RbacJob, ClusterNamespace;
  }

  /** The release image and channel a stored HostedCluster asks for are those Build was given. */
  lemma HostedClusterRelease(input: Input)
    requires Build(input).Ok?
    ensures var spec := At(Build(input).value.spec.manifests[HOSTED_CLUSTER_INDEX], ["spec"]);
            && spec == Some(HostedClusterSpec(WithDefaults(input)))
            && StringAt(spec.value, ["channel"]) == input.releaseChannel
            && At(spec.value, ["release"]) == Some(StringObject(map["image" := input.releaseImage]))
  {
    hide Resource, HostedClusterSpec, HostedClusterNotes, Namespace, ExternalSecret, Certificate, RbacJob,
      ClusterNamespace, ManifestConfigs, WorkLabels;
    var full := WithDefaults(input);
    ResourceReads("HostedCluster", full.clusterName, ClusterNamespace(full.clusterID), HostedClusterNotes(full),
      HostedClusterSpec(full));
    SpecRelease(full);
  }

  lemma SpecRelease(input: Input)
    ensures StringAt(HostedClusterSpec(input), ["channel"]) == input.releaseChannel
    ensures At(HostedClusterSpec(input), ["release"]) == Some(StringObject(map["image" := input.releaseImage]))
  {
    hide StringObject, HostName, Platform, Services, ServingCertificates;
    AtMember(HostedClusterSpec(input), "channel");
    AtMember(HostedClusterSpec(input), "release");
  }

  // ---- What stands where ----

  /** A cluster's host name under its base domain. */
  ghost predicate IsHost(host: string, prefix: string, input: Input) {
    host == prefix + input.clusterName + "-" + (if input.options.slug == "" then "user" else input.options.slug) + "."
            + input.baseDomain
  }

  /** The HostedCluster, path by path. */
  lemma HostedClusterSays(input: Input)
    requires Build(input).Ok?
    ensures var m := Build(input).value.spec.manifests[3];
            && Reads(m, ["kind"], "HostedCluster") && Reads(m, ["metadata", "name"], input.clusterName)
            && Reads(m, ["metadata", "namespace"], "clusters-" + input.clusterID)
            && At(m, ["spec"]).Some?
            && var spec := At(m, ["spec"]).value;
               && Reads(spec, ["clusterID"], input.clusterUUID) && Reads(spec, ["infraID"], input.infraID)
               && Reads(spec, ["issuerURL"], input.issuerURL) && Reads(spec, ["channel"], input.releaseChannel)
               && Reads(spec, ["release", "image"], input.releaseImage)
               && Reads(spec, ["controllerAvailabilityPolicy"],
                        if input.options.availabilityPolicy == "" then "HighlyAvailable"
                          else input.options.availabilityPolicy)
               && (exists host :: Reads(spec, ["dns", "baseDomain"], host) && IsHost(host, "in.", input))
  {
    hide Resource, GetName, GetNamespace, HostedClusterSpec, HostedClusterNotes, Namespace, ExternalSecret, Certificate,
      RbacJob, ManifestConfigs, WorkLabels, Reads;
    var full := WithDefaults(input);
    ResourceSays("HostedCluster", full.clusterName, ClusterNamespace(full.clusterID), HostedClusterNotes(full),
      HostedClusterSpec(full));
    SpecSays(full);
    HostIs(input, "in");
  }

  lemma SpecSays(input: Input)
    ensures var spec := HostedClusterSpec(input);
            && Reads(spec, ["clusterID"], input.clusterUUID) && Reads(spec, ["infraID"], input.infraID)
            && Reads(spec, ["issuerURL"], input.issuerURL) && Reads(spec, ["channel"], input.releaseChannel)
            && Reads(spec, ["release", "image"], input.releaseImage)
            && Reads(spec, ["controllerAvailabilityPolicy"], input.options.availabilityPolicy)
            && Reads(spec, ["dns", "baseDomain"], HostName("in", input))
  {
    hide Platform, StringObject, HostName, Services, ServingCertificates, Reads;
    var spec := HostedClusterSpec(input);
    ReadsMember(spec, "clusterID", input.clusterUUID);
    ReadsMember(spec, "infraID", input.infraID);
    ReadsMember(spec, "issuerURL", input.issuerURL);
    ReadsMember(spec, "channel", input.releaseChannel);
    ReadsMember(spec, "controllerAvailabilityPolicy", input.options.availabilityPolicy);
    ReadsText(map["image" := input.releaseImage], "image");
    ReadsUnder(spec, "release", ["image"], input.releaseImage);
    ReadsText(map["baseDomain" := HostName("in", input)], "baseDomain");
    ReadsUnder(spec, "dns", ["baseDomain"], HostName("in", input));
    assert ["release"] + ["image"] == ["release", "image"] && ["dns"] + ["baseDomain"] == ["dns", "baseDomain"];
  }

  /** The platform section: project, region, network, subnet, access and the workload identity. */
  lemma HostedClusterPlatform(input: Input)
    requires Build(input).Ok?
    ensures var m, gcp := Build(input).value.spec.manifests[3], input.gcp;
            && At(m, ["spec", "platform", "gcp"]).Some?
            && var p := At(m, ["spec", "platform", "gcp"]).value;
               && Reads(p, ["project"], gcp.projectID) && Reads(p, ["region"], gcp.region)
               && Reads(p, ["networkConfig", "network", "name"], gcp.network)
               && Reads(p, ["networkConfig", "privateServiceConnectSubnet", "name"], gcp.subnet)
               && Reads(p, ["endpointAccess"], if gcp.endpointAccess == "" then "Private" else gcp.endpointAccess)
               && IdentityAt(p, gcp.identity)
  {
    hide Resource, HostedClusterSpec, HostedClusterNotes, Namespace, ExternalSecret, Certificate, RbacJob,
      ManifestConfigs, WorkLabels, Reads, Gcp, IdentityAt;
    var full := WithDefaults(input);
    var m := HostedCluster(full);
    ResourceSays("HostedCluster", full.clusterName, ClusterNamespace(full.clusterID), HostedClusterNotes(full),
      HostedClusterSpec(full));
    AtUnder(m, "spec", ["platform", "gcp"], HostedClusterSpec(full));
    PlatformAt(full);
    GcpSays(full.gcp);
  }

  ghost predicate IdentityAt(p: Json, wif: WorkloadIdentity) {
    && At(p, ["workloadIdentity"]).Some?
    && var w := At(p, ["workloadIdentity"]).value;
       && Reads(w, ["projectNumber"], wif.projectNumber) && Reads(w, ["poolID"], wif.poolID)
       && Reads(w, ["providerID"], wif.providerID)
       && Reads(w, ["serviceAccountsEmails", "nodePool"], wif.nodePool)
       && Reads(w, ["serviceAccountsEmails", "controlPlane"], wif.controlPlane)
       && Reads(w, ["serviceAccountsEmails", "cloudController"], wif.cloudController)
       && Reads(w, ["serviceAccountsEmails", "storage"], wif.storage)
       && Reads(w, ["serviceAccountsEmails", "imageRegistry"], wif.imageRegistry)
       && Reads(w, ["serviceAccountsEmails", "network"], wif.network)
  }

  lemma AtUnder(doc: Json, name: string, rest: seq<string>, inner: Json)
    requires At(doc, [name]) == Some(inner)
    ensures At(doc, [name] + rest) == At(inner, rest)
  {
    assert [name][1..] == [];
    AtStep(doc, name, rest);
  }

  lemma PlatformAt(input: Input)
    ensures At(HostedClusterSpec(input), ["platform", "gcp"]) == Some(Gcp(input.gcp))
  {
    hide Gcp, StringObject, HostName, Services, ServingCertificates;
    AtStep(HostedClusterSpec(input), "platform", ["gcp"]);
    AtMember(Platform(input.gcp), "gcp");
    assert ["platform"] + ["gcp"] == ["platform", "gcp"];
  }

  lemma GcpSays(gcp: GcpConfig)
    ensures var p := Gcp(gcp);
            && Reads(p, ["project"], gcp.projectID) && Reads(p, ["region"], gcp.region)
            && Reads(p, ["networkConfig", "network", "name"], gcp.network)
            && Reads(p, ["networkConfig", "privateServiceConnectSubnet", "name"], gcp.subnet)
            && Reads(p, ["endpointAccess"], gcp.endpointAccess) && IdentityAt(p, gcp.identity)
  {
    hide Identity, Network, Reads;
    var p := Gcp(gcp);
    ReadsMember(p, "project", gcp.projectID);
    ReadsMember(p, "region", gcp.region);
    ReadsMember(p, "endpointAccess", gcp.endpointAccess);
    NetworkSays(gcp);
    ReadsUnder(p, "networkConfig", ["network", "name"], gcp.network);
    ReadsUnder(p, "networkConfig", ["privateServiceConnectSubnet", "name"], gcp.subnet);
    assert ["networkConfig"] + ["network", "name"] == ["networkConfig", "network", "name"];
    assert ["networkConfig"] + ["privateServiceConnectSubnet", "name"] ==
      ["networkConfig", "privateServiceConnectSubnet", "name"];
    AtMember(p, "workloadIdentity");
    IdentitySays(gcp.identity);
  }

  lemma NetworkSays(gcp: GcpConfig)
    ensures Reads(Network(gcp), ["network", "name"], gcp.network)
    ensures Reads(Network(gcp), ["privateServiceConnectSubnet", "name"], gcp.subnet)
  {
    hide StringObject, Reads;
    ReadsText(map["name" := gcp.network], "name");
    ReadsText(map["name" := gcp.subnet], "name");
    ReadsUnder(Network(gcp), "network", ["name"], gcp.network);
    ReadsUnder(Network(gcp), "privateServiceConnectSubnet", ["name"], gcp.subnet);
    assert ["network"] + ["name"] == ["network", "name"];
    assert ["privateServiceConnectSubnet"] + ["name"] == ["privateServiceConnectSubnet", "name"];
  }

  lemma IdentitySays(wif: WorkloadIdentity)
    ensures var w := Identity(wif);
            && Reads(w, ["projectNumber"], wif.projectNumber) && Reads(w, ["poolID"], wif.poolID)
            && Reads(w, ["providerID"], wif.providerID)
            && Reads(w, ["serviceAccountsEmails", "nodePool"], wif.nodePool)
            && Reads(w, ["serviceAccountsEmails", "controlPlane"], wif.controlPlane)
            && Reads(w, ["serviceAccountsEmails", "cloudController"], wif.cloudController)
            && Reads(w, ["serviceAccountsEmails", "storage"], wif.storage)
            && Reads(w, ["serviceAccountsEmails", "imageRegistry"], wif.imageRegistry)
            && Reads(w, ["serviceAccountsEmails", "network"], wif.network)
  {
    hide Reads, StringObject;
    var w := Identity(wif);
    ReadsMember(w, "projectNumber", wif.projectNumber);
    ReadsMember(w, "poolID", wif.poolID);
    ReadsMember(w, "providerID", wif.providerID);
    AccountReads(wif, "nodePool");
    AccountReads(wif, "controlPlane");
    AccountReads(wif, "cloudController");
    AccountReads(wif, "storage");
    AccountReads(wif, "imageRegistry");
    AccountReads(wif, "network");
  }

  lemma AccountReads(wif: WorkloadIdentity, name: string)
    requires name in Accounts(wif)
    ensures Reads(Identity(wif), ["serviceAccountsEmails", name], Accounts(wif)[name])
  {
    hide Accounts, Reads, StringObject;
    ReadsText(Accounts(wif), name);
    ReadsUnder(Identity(wif), "serviceAccountsEmails", [name], Accounts(wif)[name]);
    assert ["serviceAccountsEmails"] + [name] == ["serviceAccountsEmails", name];
  }

  /** The two public services have their host names, and the serving certificate is the Certificate's, for the first. */
  lemma HostedClusterRoutes(input: Input)
    requires Build(input).Ok?
    ensures var m := Build(input).value.spec.manifests[3];
            exists api, oauth ::
              && IsHost(api, "api.", input) && IsHost(oauth, "oauth.", input)
              && ServiceAt(m, 0, "APIServer") && ServiceAt(m, 1, "OAuthServer")
              && ServiceAt(m, 2, "Konnectivity") && ServiceAt(m, 3, "Ignition")
              && Reads(ItemAt(m, ["spec", "services"], 0), ["servicePublishingStrategy", "route", "hostname"], api)
              && Reads(ItemAt(m, ["spec", "services"], 1), ["servicePublishingStrategy", "route", "hostname"], oauth)
              && var names := ["spec", "configuration", "apiServer", "servingCerts", "namedCertificates"];
                 && At(ItemAt(m, names, 0), ["names"]) == Some(Arr([Str(api)]))
                 && Reads(ItemAt(m, names, 0), ["servingCertificate", "name"], "external-api-cert")
  {
    hide Resource, HostedClusterNotes, Namespace, ExternalSecret, Certificate, RbacJob, ManifestConfigs, WorkLabels,
      Reads, Platform, HostName, Route, ServingCertificates, HostedClusterSpec;
    var full := WithDefaults(input);
    var m, spec := HostedCluster(full), HostedClusterSpec(full);
    ResourceSays("HostedCluster", full.clusterName, ClusterNamespace(full.clusterID), HostedClusterNotes(full), spec);
    AtUnder(m, "spec", ["services"], spec);
    AtUnder(m, "spec", ["configuration", "apiServer", "servingCerts", "namedCertificates"], spec);
    ServicesSay(full);
    CertificatesSay(full);
    HostIs(input, "api");
    HostIs(input, "oauth");
    RouteSays("APIServer", HostName("api", full));
    RouteSays("OAuthServer", HostName("oauth", full));
    RouteNames("Konnectivity", map[]);
    RouteNames("Ignition", map[]);
    assert ["spec"] + ["services"] == ["spec", "services"];
    assert ["spec"] + ["configuration", "apiServer", "servingCerts", "namedCertificates"]
        == ["spec", "configuration", "apiServer", "servingCerts", "namedCertificates"];
    var api, oauth := HostName("api", full), HostName("oauth", full);
    assert IsHost(api, "api.", input) && IsHost(oauth, "oauth.", input);
  }

  /** The kinds that the sections name: a GCP platform, and four services each published by a route. */
  lemma HostedClusterTypes(input: Input)
    requires Build(input).Ok?
    ensures var m := Build(input).value.spec.manifests[3];
            && Reads(m, ["spec", "platform", "type"], "GCP")
            && forall i :: 0 <= i < 4 ==>
                 Reads(ItemAt(m, ["spec", "services"], i), ["servicePublishingStrategy", "type"], "Route")
  {
    hide Resource, HostedClusterNotes, Namespace, ExternalSecret, Certificate, RbacJob, ManifestConfigs, WorkLabels,
      Reads, Gcp, HostName, Route, ServingCertificates, HostedClusterSpec;
    var full := WithDefaults(input);
    var m, spec := HostedCluster(full), HostedClusterSpec(full);
    ResourceSays("HostedCluster", full.clusterName, ClusterNamespace(full.clusterID), HostedClusterNotes(full), spec);
    AtUnder(m, "spec", ["services"], spec);
    AtUnder(m, "spec", ["platform", "type"], spec);
    assert ["spec"] + ["services"] == ["spec", "services"];
    assert ["spec"] + ["platform", "type"] == ["spec", "platform", "type"];
    PlatformType(full);
    ReadsSame(m, ["spec", "platform", "type"], spec, ["platform", "type"], "GCP");
    ServicesSay(full);
    RouteType("APIServer", map["hostname" := HostName("api", full)]);
    RouteType("OAuthServer", map["hostname" := HostName("oauth", full)]);
    RouteType("Konnectivity", map[]);
    RouteType("Ignition", map[]);
  }

  lemma PlatformType(input: Input)
    ensures Reads(HostedClusterSpec(input), ["platform", "type"], "GCP")
  {
    hide Gcp, StringObject, HostName, Services, ServingCertificates, Reads;
    ReadsMember(Platform(input.gcp), "type", "GCP");
    ReadsUnder(HostedClusterSpec(input), "platform", ["type"], "GCP");
    assert ["platform"] + ["type"] == ["platform", "type"];
  }

  lemma RouteType(service: string, host: map<string, string>)
    ensures Reads(Route(service, host), ["servicePublishingStrategy", "type"], "Route")
  {
    hide StringObject, Reads;
    var strategy := Route(service, host).fields["servicePublishingStrategy"];
    ReadsMember(strategy, "type", "Route");
    ReadsUnder(Route(service, host), "servicePublishingStrategy", ["type"], "Route");
    assert ["servicePublishingStrategy"] + ["type"] == ["servicePublishingStrategy", "type"];
  }

  /** An element of the list at a path. */
  ghost function ItemAt(doc: Json, path: seq<string>, i: nat): Json {
    var list := At(doc, path);
    if list.Some? && list.value.Arr? && i < |list.value.items| then list.value.items[i] else Null
  }

  ghost predicate ServiceAt(doc: Json, i: nat, service: string) {
    Reads(ItemAt(doc, ["spec", "services"], i), ["service"], service)
  }

  lemma HostIs(input: Input, prefix: string)
    ensures IsHost(HostName(prefix, WithDefaults(input)), prefix + ".", input)
  {
  }

  lemma RouteNames(service: string, host: map<string, string>)
    ensures Reads(Route(service, host), ["service"], service)
  {
    hide StringObject, Reads;
    ReadsMember(Route(service, host), "service", service);
  }

  lemma RouteSays(service: string, host: string)
    ensures var route := Route(service, map["hostname" := host]);
            && Reads(route, ["service"], service)
            && Reads(route, ["servicePublishingStrategy", "route", "hostname"], host)
  {
    hide StringObject, Reads;
    var hosts := map["hostname" := host];
    RouteNames(service, hosts);
    ReadsText(hosts, "hostname");
    var strategy := Route(service, hosts).fields["servicePublishingStrategy"];
    assert strategy.fields["route"] == StringObject(hosts) by { assert "hostname" in hosts; }
    ReadsUnder(strategy, "route", ["hostname"], host);
    assert ["route"] + ["hostname"] == ["route", "hostname"];
    ReadsUnder(Route(service, hosts), "servicePublishingStrategy", ["route", "hostname"], host);
    assert ["servicePublishingStrategy"] + ["route", "hostname"] == ["servicePublishingStrategy", "route", "hostname"];
  }

  lemma ServicesSay(input: Input)
    ensures At(HostedClusterSpec(input), ["services"]) == Some(Arr(Services(input)))
  {
    hide Platform, StringObject, HostName, ServingCertificates, Services;
    AtMember(HostedClusterSpec(input), "services");
  }

  lemma CertificatesSay(input: Input)
    ensures var list := At(HostedClusterSpec(input),
                           ["configuration", "apiServer", "servingCerts", "namedCertificates"]);
            && list.Some? && list.value.Arr? && |list.value.items| == 1
            && At(list.value.items[0], ["names"]) == Some(Arr([Str(HostName("api", input))]))
            && Reads(list.value.items[0], ["servingCertificate", "name"], "external-api-cert")
  {
    hide Platform, StringObject, HostName, Services, Reads;
    var spec, serving := HostedClusterSpec(input), ServingCertificates(input);
    var certs := serving.fields["servingCerts"];
    var item := certs.fields["namedCertificates"].items[0];
    AtStep(spec, "configuration", ["apiServer", "servingCerts", "namedCertificates"]);
    AtStep(spec.fields["configuration"], "apiServer", ["servingCerts", "namedCertificates"]);
    AtStep(serving, "servingCerts", ["namedCertificates"]);
    AtMember(certs, "namedCertificates");
    assert ["configuration"] + ["apiServer", "servingCerts", "namedCertificates"]
        == ["configuration", "apiServer", "servingCerts", "namedCertificates"];
    assert ["apiServer"] + ["servingCerts", "namedCertificates"] == ["apiServer", "servingCerts", "namedCertificates"];
    assert ["servingCerts"] + ["namedCertificates"] == ["servingCerts", "namedCertificates"];
    AtMember(item, "names");
    var certificate := map["name" := CERTIFICATE];
    assert item.fields["servingCertificate"] == StringObject(certificate) && certificate["name"] == CERTIFICATE;
    ReadsText(certificate, "name");
    ReadsUnder(item, "servingCertificate", ["name"], CERTIFICATE);
    assert ["servingCertificate"] + ["name"] == ["servingCertificate", "name"];
  }

  /** The namespace, the pull secret, the certificate and the Job, path by path. */
  lemma OthersSay(input: Input)
    requires Build(input).Ok?
    ensures var ms, namespace := Build(input).value.spec.manifests, "clusters-" + input.clusterID;
            && |ms| == 5
            && Reads(ms[0], ["kind"], "Namespace") && Reads(ms[0], ["metadata", "name"], namespace)
            && Reads(ms[1], ["kind"], "ExternalSecret") && Reads(ms[1], ["metadata", "name"], "pull-secret")
            && Reads(ms[1], ["metadata", "namespace"], namespace)
            && Reads(ms[1], ["spec", "secretStoreRef", "name"],
                     if input.options.pullSecretStore == "" then "gcp-secret-manager"
                       else input.options.pullSecretStore)
            && Reads(ms[1], ["spec", "secretStoreRef", "kind"], "ClusterSecretStore")
            && Reads(ItemAt(ms[1], ["spec", "data"], 0), ["remoteRef", "key"],
                     if input.options.pullSecretKey == "" then "default-openshift-pull-secret"
                     else input.options.pullSecretKey)
            && Reads(ms[2], ["kind"], "Certificate") && Reads(ms[2], ["metadata", "name"], "external-api-cert")
            && Reads(ms[2], ["metadata", "namespace"], namespace)
            && (exists host :: At(ms[2], ["spec", "dnsNames"]) == Some(Arr([Str(host)])) && IsHost(host, "*.", input))
            && Reads(ms[4], ["kind"], "Job")
            && Reads(ms[4], ["metadata", "name"], "rbac-setup-gen-" + FormatInt(input.generation))
            && Reads(ms[4], ["metadata", "namespace"], namespace + "-" + input.clusterName)
            && Reads(ms[4], ["spec", "subject"], input.createdBy)
  {
    hide Resource, HostedCluster, ManifestConfigs, WorkLabels, Reads, HostName, FormatInt, ExternalSecretSpec,
      CertificateSpec, RbacJobSpec;
    var full := WithDefaults(input);
    var note := GenerationNote(full.generation);
    ResourceSays("Namespace", ClusterNamespace(full.clusterID), "", note, Null);
    ResourceSays("ExternalSecret", "pull-secret", ClusterNamespace(full.clusterID), note, ExternalSecretSpec(full));
    ResourceSays("Certificate", CERTIFICATE, ClusterNamespace(full.clusterID), note, CertificateSpec(full));
    ResourceSays("Job", JobName(full.generation), ControlPlaneNamespace(full.clusterID, full.clusterName), note,
                 RbacJobSpec(full));
    SecretSays(full);
    AtUnder(ExternalSecret(full), "spec", ["secretStoreRef", "name"], ExternalSecretSpec(full));
    AtUnder(ExternalSecret(full), "spec", ["data"], ExternalSecretSpec(full));
    ReadsSame(ExternalSecret(full), ["spec", "secretStoreRef", "name"], ExternalSecretSpec(full),
              ["secretStoreRef", "name"], full.options.pullSecretStore);
    AtUnder(ExternalSecret(full), "spec", ["secretStoreRef", "kind"], ExternalSecretSpec(full));
    ReadsSame(ExternalSecret(full), ["spec", "secretStoreRef", "kind"], ExternalSecretSpec(full),
              ["secretStoreRef", "kind"], "ClusterSecretStore");
    AtUnder(Certificate(full), "spec", ["dnsNames"], CertificateSpec(full));
    DnsNamesAt(full);
    HostIs(input, "*");
    AtUnder(RbacJob(full), "spec", ["subject"], RbacJobSpec(full));
    SubjectAt(full);
    ReadsSame(RbacJob(full), ["spec", "subject"], RbacJobSpec(full), ["subject"], full.createdBy);
  }

  lemma ReadsSame(doc: Json, path: seq<string>, inner: Json, rest: seq<string>, text: string)
    requires At(doc, path) == At(inner, rest) && Reads(inner, rest, text)
    ensures Reads(doc, path, text)
  {
  }

  lemma SecretSays(input: Input)
    ensures Reads(ExternalSecretSpec(input), ["secretStoreRef", "name"], input.options.pullSecretStore)
    ensures Reads(ExternalSecretSpec(input), ["secretStoreRef", "kind"], "ClusterSecretStore")
    ensures var list := At(ExternalSecretSpec(input), ["data"]);
            && list.Some? && list.value.Arr? && |list.value.items| == 1
            && Reads(list.value.items[0], ["remoteRef", "key"], input.options.pullSecretKey)
  {
    hide StringObject, Reads;
    var spec := ExternalSecretSpec(input);
    var store := map["name" := input.options.pullSecretStore, "kind" := "ClusterSecretStore"];
    ReadsText(store, "name");
    ReadsUnder(spec, "secretStoreRef", ["name"], input.options.pullSecretStore);
    ReadsText(store, "kind");
    ReadsUnder(spec, "secretStoreRef", ["kind"], "ClusterSecretStore");
    assert ["secretStoreRef"] + ["kind"] == ["secretStoreRef", "kind"];
    AtMember(spec, "data");
    ReadsText(map["key" := input.options.pullSecretKey], "key");
    ReadsUnder(spec.fields["data"].items[0], "remoteRef", ["key"], input.options.pullSecretKey);
    assert ["secretStoreRef"] + ["name"] == ["secretStoreRef", "name"]
      && ["remoteRef"] + ["key"] == ["remoteRef", "key"];
  }

  lemma DnsNamesAt(input: Input)
    ensures At(CertificateSpec(input), ["dnsNames"]) == Some(Arr([Str(HostName("*", input))]))
  {
    hide HostName;
    AtMember(CertificateSpec(input), "dnsNames");
  }

  lemma SubjectAt(input: Input)
    ensures Reads(RbacJobSpec(input), ["subject"], input.createdBy)
  {
    ReadsText(map["subject" := input.createdBy], "subject");
  }

  /** The work itself, and how its objects are tracked. */
  lemma WorkSays(input: Input)
    requires Build(input).Ok? && IsInt64(input.generation)
    ensures var work := Build(input).value;
            && work.name == input.clusterID + "-hc-adapter" && work.namespace == ""
            && work.labels == Some(map["hyperfleet.io/cluster-id" := input.clusterID,
                                       "hyperfleet.io/adapter" := "hc-adapter",
                                       "hyperfleet.io/component" := "hosted-cluster"])
            && work.spec.deleteOption == Some("Foreground")
            && forall i :: 0 <= i < 5 ==> GetGeneration(GetAnnotations(work.spec.manifests[i])) == input.generation
  {
    hide Resource, ManifestConfigs, GetAnnotations, GetGeneration, ExternalSecretSpec, CertificateSpec,
      HostedClusterSpec, RbacJobSpec, ClusterNamespace, ControlPlaneNamespace, JobName, HostedClusterNotes;
    var full := WithDefaults(input);
    var note, namespace := GenerationNote(full.generation), ClusterNamespace(full.clusterID);
    NotesKeepGeneration(full);
    NoteGeneration(note, full.generation);
    NoteGeneration(HostedClusterNotes(full), full.generation);
    ResourceReads("Namespace", namespace, "", note, Null);
    ResourceReads("ExternalSecret", "pull-secret", namespace, note, ExternalSecretSpec(full));
    ResourceReads("Certificate", CERTIFICATE, namespace, note, CertificateSpec(full));
    ResourceReads("HostedCluster", full.clusterName, namespace, HostedClusterNotes(full), HostedClusterSpec(full));
    ResourceReads("Job", JobName(full.generation), ControlPlaneNamespace(full.clusterID, full.clusterName), note,
                  RbacJobSpec(full));
  }

  /** The options: each object that is tracked, by its own name and namespace, and how it is applied. */
  lemma ConfigsSay(input: Input)
    requires Build(input).Ok?
    ensures var configs, namespace := Build(input).value.spec.configs, "clusters-" + input.clusterID;
            && |configs| == 3
            && ConfigAt(configs[0], "namespaces", namespace, "", "ServerSideApply", ["phase"])
            && ConfigAt(configs[1], "jobs", "rbac-setup-gen-" + FormatInt(input.generation),
                        namespace + "-" + input.clusterName, "CreateOnly", [])
            && ConfigAt(configs[2], "hostedclusters", input.clusterName, namespace, "ServerSideApply",
                        ["availableCondition", "degradedCondition", "controlPlaneEndpoint", "version"])
  {
    hide Manifests, WorkLabels, FormatInt, ConfigJson, ConfigAt;
    var full := WithDefaults(input);
    var configs := ManifestConfigs(full);
    ConfigSays(configs[0]);
    ConfigSays(configs[1]);
    ConfigSays(configs[2]);
  }

  /** The HostedCluster is annotated with its generation, two constants, and the image overrides it is given. */
  lemma OverridesSay(input: Input)
    requires Build(input).Ok?
    ensures GetAnnotations(Build(input).value.spec.manifests[3]) ==
      Some(map["hyperfleet.io/generation" := FormatInt(input.generation)]
           + map["hypershift.openshift.io/pod-security-admission-label-override" := "baseline",
                 "hypershift.openshift.io/skip-kas-conflict-san-validation" := "true"]
           + (if input.options.cpoImage == "" then map[]
              else map["hypershift.openshift.io/control-plane-operator-image" := input.options.cpoImage])
           + (if input.options.capgImage == "" then map[]
              else map["hypershift.openshift.io/capi-provider-gcp-image" := input.options.capgImage]))
  {
    hide Resource, GetAnnotations, HostedClusterSpec, Namespace, ExternalSecret, Certificate, RbacJob, ManifestConfigs,
      WorkLabels, FormatInt, ClusterNamespace;
    var full := WithDefaults(input);
    ResourceReads("HostedCluster", full.clusterName, ClusterNamespace(full.clusterID), HostedClusterNotes(full),
      HostedClusterSpec(full));
  }

  // ---- Nothing the input says is lost ----

  lemma TextsInjective(m: map<string, string>, n: map<string, string>)
    requires StringObject(m) == StringObject(n)
    ensures m == n
  {
    StringObjectReads(m);
    StringObjectReads(n);
  }

  lemma IdentityInjective(a: WorkloadIdentity, b: WorkloadIdentity)
    requires Identity(a) == Identity(b)
    ensures a == b
  {
    hide StringObject;
    var s, t := Identity(a).fields, Identity(b).fields;
    assert s["projectNumber"] == t["projectNumber"] && s["poolID"] == t["poolID"] && s["providerID"] == t["providerID"];
    assert s["serviceAccountsEmails"] == t["serviceAccountsEmails"];
    var m, n := Accounts(a), Accounts(b);
    TextsInjective(m, n);
    assert m["nodePool"] == n["nodePool"] && m["controlPlane"] == n["controlPlane"]
      && m["cloudController"] == n["cloudController"];
    assert m["storage"] == n["storage"] && m["imageRegistry"] == n["imageRegistry"] && m["network"] == n["network"];
  }

  lemma PlatformInjective(a: GcpConfig, b: GcpConfig)
    requires Platform(a) == Platform(b)
    ensures a == b
  {
    hide Identity, Network;
    assert Platform(a).fields["gcp"] == Platform(b).fields["gcp"];
    var m, n := Gcp(a).fields, Gcp(b).fields;
    assert m["project"] == n["project"] && m["region"] == n["region"] && m["networkConfig"] == n["networkConfig"];
    assert m["endpointAccess"] == n["endpointAccess"] && m["workloadIdentity"] == n["workloadIdentity"];
    NetworkInjective(a, b);
    IdentityInjective(a.identity, b.identity);
  }

  lemma NetworkInjective(a: GcpConfig, b: GcpConfig)
    requires Network(a) == Network(b)
    ensures a.network == b.network && a.subnet == b.subnet
  {
    hide StringObject;
    assert Network(a).fields["network"] == Network(b).fields["network"];
    assert Network(a).fields["privateServiceConnectSubnet"] == Network(b).fields["privateServiceConnectSubnet"];
    TextsInjective(map["name" := a.network], map["name" := b.network]);
    TextsInjective(map["name" := a.subnet], map["name" := b.subnet]);
    assert map["name" := a.network]["name"] == map["name" := b.network]["name"];
    assert map["name" := a.subnet]["name"] == map["name" := b.subnet]["name"];
  }

  /** With the cluster's name and the slug known, a host name gives its base domain. */
  lemma HostNameInjective(prefix: string, a: Input, b: Input)
    requires HostName(prefix, a) == HostName(prefix, b) && a.clusterName == b.clusterName
    requires a.options.slug == b.options.slug
    ensures a.baseDomain == b.baseDomain
  {
    var front := prefix + "." + a.clusterName + "-" + a.options.slug + ".";
    assert HostName(prefix, a) == front + a.baseDomain && HostName(prefix, b) == front + b.baseDomain;
    assert HostName(prefix, a)[|front|..] == a.baseDomain && HostName(prefix, b)[|front|..] == b.baseDomain;
  }

  lemma SpecInjective(a: Input, b: Input)
    requires HostedClusterSpec(a) == HostedClusterSpec(b) && a.clusterName == b.clusterName
    requires a.options.slug == b.options.slug
    ensures a.clusterUUID == b.clusterUUID && a.infraID == b.infraID && a.issuerURL == b.issuerURL
    ensures a.releaseImage == b.releaseImage && a.releaseChannel == b.releaseChannel && a.baseDomain == b.baseDomain
    ensures a.gcp == b.gcp
  {
    hide HostedClusterSpec, HostName, Gcp, At;
    SpecSays(a);
    SpecSays(b);
    PlatformAt(a);
    PlatformAt(b);
    PlatformInjective(a.gcp, b.gcp);
    HostNameInjective("in", a, b);
  }

  lemma CreatorInjective(a: Input, b: Input)
    requires RbacJobSpec(a) == RbacJobSpec(b)
    ensures a.createdBy == b.createdBy
  {
    TextsInjective(map["subject" := a.createdBy], map["subject" := b.createdBy]);
    assert map["subject" := a.createdBy]["subject"] == map["subject" := b.createdBy]["subject"];
  }

  /**
   * With the same options, two inputs give the same work only if they agree in everything but what
   * defaults fill in.
   */
  lemma BuildInjective(a: Input, b: Input)
    requires Build(a).Ok? && Build(b) == Build(a) && a.options == b.options
    requires IsInt64(a.generation) && IsInt64(b.generation)
    ensures WithDefaults(a) == WithDefaults(b)
  {
    hide Resource, HostedClusterSpec, HostedClusterNotes, RbacJobSpec, ExternalSecret, Certificate, Namespace,
      ClusterNamespace, ControlPlaneNamespace, JobName, ManifestConfigs, ConfigsJson, WorkLabels, FormatInt, StringAt,
      GetName, OrElse;
    var x, y := WithDefaults(a), WithDefaults(b);
    assert HostedCluster(x) == HostedCluster(y) && RbacJob(x) == RbacJob(y);
    HostedClusterReads(x);
    HostedClusterReads(y);
    JobReads(x);
    JobReads(y);
    SpecInjective(x, y);
    CreatorInjective(x, y);
    LabelsInjective(x.clusterID, y.clusterID);
    NotesInjective(x.generation, y.generation);
  }

  lemma HostedClusterReads(input: Input)
    ensures GetName(HostedCluster(input)) == input.clusterName
    ensures At(HostedCluster(input), ["spec"]) == Some(HostedClusterSpec(input))
  {
    hide Resource, HostedClusterSpec, HostedClusterNotes, StringAt;
    ResourceReads("HostedCluster", input.clusterName, ClusterNamespace(input.clusterID), HostedClusterNotes(input),
                  HostedClusterSpec(input));
  }

  lemma JobReads(input: Input)
    ensures At(RbacJob(input), ["spec"]) == Some(RbacJobSpec(input))
  {
    hide Resource, RbacJobSpec, StringAt;
    ResourceReads("Job", JobName(input.generation), ControlPlaneNamespace(input.clusterID, input.clusterName),
      GenerationNote(input.generation), RbacJobSpec(input));
  }

  lemma LabelsInjective(a: string, b: string)
    requires WorkLabels(a) == WorkLabels(b)
    ensures a == b
  {
    assert WorkLabels(a)["hyperfleet.io/cluster-id"] == WorkLabels(b)["hyperfleet.io/cluster-id"];
  }

  lemma NotesInjective(m: int, n: int)
    requires IsInt64(m) && IsInt64(n) && GenerationNote(m) == GenerationNote(n)
    ensures m == n
  {
    assert GenerationNote(m)[GENERATION] == GenerationNote(n)[GENERATION];
    FormatInjective(m, n);
  }
}
