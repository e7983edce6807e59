/** The Kubernetes Engine service: resource paths, the node-pool and
    cluster specifications built from loose action parameters, the
    create/delete/describe entry points and the operation poller.

    The container client is not modelled: each provider call is recorded in
    a trace of `Call`s, and what it answers is a parameter. A reply is `Ok`
    with the value the call resolved with, or `Err` with what it rejected
    with. Parameter records are maps from the key names the source
    destructures; a missing key reads as undefined. */
module Gke {
  import opened Wrappers
  import opened Strings
  import opened Values
  import opened Helpers

  /** The service as constructed: only the project id is used here
      (undefined when none was given). */
  datatype Service = Service(projectId: Json)

  /** A request sent to the provider. `zone` is undefined when the request
      goes through the regional (locations) API. */
  datatype Call =
    | CreateCluster(parent: string, cluster: Json, zone: Json)
    | CreateNodePool(clusterId: Json, nodePool: Json, parent: string, zone: Json)
    | DeleteCluster(clusterId: Json, projectId: Json, parent: string, zone: Json)
    | DeleteNodePool(clusterId: Json, nodePoolId: Json, projectId: Json, parent: string, zone: Json)
    | GetCluster(clusterId: Json, projectId: Json, parent: string, zone: Json)
    | GetOperation(name: string, zone: Json)

  /** How an entry point ends (`Unsettled`: still polling when the replies
      ran out) and the provider requests it made, in order. */
  datatype Run = Run(outcome: Settlement, calls: seq<Call>)

  // ---------------------------------------------------------------------
  // Resource paths
  // ---------------------------------------------------------------------

  /** The segments of a location path: the zone when one is given, the
      region otherwise. */
  function LocationSegments(svc: Service, region: Json, zone: Json): seq<string> {
    ["projects", ToJsString(svc.projectId),
     if Truthy(zone) then "zones" else "locations",
     ToJsString(OrElse(zone, region))]
  }

  /** `projects/<project>/zones/<zone>` or `projects/<project>/locations/<region>`. */
  function LocationAsParent(svc: Service, region: Json, zone: Json): (r: string)
    ensures r == Join(LocationSegments(svc, region, zone), "/")
  {
    var r := "projects/" + ToJsString(svc.projectId) + "/" + (if Truthy(zone) then "zones" else "locations")
      + "/" + ToJsString(OrElse(zone, region));
    JoinOfSegments(LocationSegments(svc, region, zone));
    r
  }

  lemma {:induction false} JoinOfSegments(segs: seq<string>)
    requires |segs| == 4
    ensures Join(segs, "/") == segs[0] + "/" + segs[1] + "/" + segs[2] + "/" + segs[3]
  {
    JoinSnoc([segs[0]], segs[1], "/");
    assert [segs[0]] + [segs[1]] == segs[..2];
    JoinSnoc(segs[..2], segs[2], "/");
    assert segs[..2] + [segs[2]] == segs[..3];
    JoinSnoc(segs[..3], segs[3], "/");
    assert segs[..3] + [segs[3]] == segs;
  }

  /** The location path followed by `/clusters/<cluster>`. */
  function ClusterAsParent(svc: Service, region: Json, zone: Json, cluster: Json): (r: string)
    ensures r == Join(LocationSegments(svc, region, zone) + ["clusters", ToJsString(cluster)], "/")
  {
    JoinClusterSegments(LocationSegments(svc, region, zone), ToJsString(cluster));
    LocationAsParent(svc, region, zone) + "/clusters/" + ToJsString(cluster)
  }

  lemma {:induction false} JoinClusterSegments(segs: seq<string>, c: string)
    requires |segs| >= 1
    ensures Join(segs + ["clusters", c], "/") == Join(segs, "/") + "/clusters/" + c
  {
    JoinSnoc(segs, "clusters", "/");
    JoinSnoc(segs + ["clusters"], c, "/");
    assert segs + ["clusters"] + [c] == segs + ["clusters", c];
    var j := Join(segs, "/");
    assert "/" + "clusters" + "/" == "/clusters/";
    assert j + "/" + "clusters" + "/" + c == j + ("/" + "clusters" + "/") + c;
  }

  /** When no part contains a slash, the location path splits back into
      its parts: the zone is chosen exactly when it is truthy. */
  lemma {:induction false} LocationAsParentParts(svc: Service, region: Json, zone: Json)
    requires Avoids(ToJsString(svc.projectId), {'/'})
    requires Avoids(ToJsString(OrElse(zone, region)), {'/'})
    ensures Split(LocationAsParent(svc, region, zone), {'/'}) ==
              if Truthy(zone) then ["projects", ToJsString(svc.projectId), "zones", ToJsString(zone)]
              else ["projects", ToJsString(svc.projectId), "locations", ToJsString(region)]
  {
    var segs := LocationSegments(svc, region, zone);
    assert Avoids("projects", {'/'}) && Avoids("zones", {'/'}) && Avoids("locations", {'/'});
    SplitJoin(segs, '/');
  }

  /** The cluster path splits into the location parts, `clusters` and the
      cluster id. */
  lemma {:induction false} ClusterAsParentParts(svc: Service, region: Json, zone: Json, cluster: Json)
    requires Avoids(ToJsString(svc.projectId), {'/'})
    requires Avoids(ToJsString(OrElse(zone, region)), {'/'})
    requires Avoids(ToJsString(cluster), {'/'})
    ensures Split(ClusterAsParent(svc, region, zone, cluster), {'/'}) ==
              Split(LocationAsParent(svc, region, zone), {'/'}) + ["clusters", ToJsString(cluster)]
  {
    var segs := LocationSegments(svc, region, zone) + ["clusters", ToJsString(cluster)];
    assert Avoids("projects", {'/'}) && Avoids("zones", {'/'}) && Avoids("locations", {'/'});
    assert Avoids("clusters", {'/'});
    SplitJoin(segs, '/');
    LocationAsParentParts(svc, region, zone);
    SplitJoin(LocationSegments(svc, region, zone), '/');
  }

  // ---------------------------------------------------------------------
  // parseNodePool
  // ---------------------------------------------------------------------

  /** The scopes a node gets unless full access is asked for. */
  const DefaultNodeScopes: seq<string> := [
    "https://www.googleapis.com/auth/devstorage.read_only",
    "https://www.googleapis.com/auth/logging.write",
    "https://www.googleapis.com/auth/monitoring",
    "https://www.googleapis.com/auth/servicecontrol",
    "https://www.googleapis.com/auth/service.management.readonly",
    "https://www.googleapis.com/auth/trace.append"
  ]

  const NodePoolParamsMessage: string := "Didn't provide one of the required parameters."

  /** The machine type, with `-<cpu>-<memory>` appended (string `+=`, so a
      missing part reads "undefined") when either custom value is given. */
  function ResolvedMachineType(p: map<string, Json>): (r: Json)
    ensures !Truthy(Get(p, "customMachineCpuCount")) && !Truthy(Get(p, "customMachineMem")) ==>
              r == Get(p, "machineType")
  {
    if Truthy(Get(p, "customMachineCpuCount")) || Truthy(Get(p, "customMachineMem")) then
      Str(ToJsString(Get(p, "machineType")) + "-" + ToJsString(Get(p, "customMachineCpuCount"))
          + "-" + ToJsString(Get(p, "customMachineMem")))
    else Get(p, "machineType")
  }

  /** A required node-pool parameter is missing. */
  predicate MissingPoolParam(p: map<string, Json>) {
    || !Truthy(Get(p, "nodePoolName"))
    || !Truthy(Get(p, "numberOfNodes"))
    || !Truthy(ResolvedMachineType(p))
    || !Truthy(Get(p, "diskType"))
    || !Truthy(Get(p, "diskSize"))
  }

  /** `{...v}`: an object's own keys; a string's characters and an array's
      elements under their decimal index (holes are not own keys); nothing
      for undefined, null, booleans and numbers. */
  function Spread(v: Json): map<string, Json> {
    match v
    case Obj(m) => m
    case Str(s) => IndexEntries(seq(|s|, i requires 0 <= i < |s| => Some(Str([s[i]]))))
    case Arr(a) => IndexEntries(a)
    case _ => map[]
  }

  /** The own index keys of an array, each with its element. */
  function IndexEntries(a: seq<Option<Json>>): map<string, Json> {
    NatToStringsDistinct();
    map i | 0 <= i < |a| && a[i].Some? :: NatToString(i) := a[i].value
  }

  /** The index keys are exactly those of the present elements, each
      holding its element. */
  lemma {:induction false} IndexEntriesOf(a: seq<Option<Json>>)
    ensures IndexEntries(a).Keys == set i | 0 <= i < |a| && a[i].Some? :: NatToString(i)
    ensures forall i :: 0 <= i < |a| && a[i].Some? ==> IndexEntries(a)[NatToString(i)] == a[i].value
  {
    NatToStringsDistinct();
    var m := IndexEntries(a);
    forall i | 0 <= i < |a| && a[i].Some? ensures NatToString(i) in m && m[NatToString(i)] == a[i].value {
      assert NatToString(i) in m;
    }
  }

  /** Spreading a string or an array gives one key per character or
      present element, its index, and no other key. */
  lemma {:induction false} SpreadIndexKeys(v: Json)
    ensures v.Str? ==> Spread(v).Keys == set i | 0 <= i < |v.s| :: NatToString(i)
    ensures v.Str? ==> forall i :: 0 <= i < |v.s| ==> Spread(v)[NatToString(i)] == Str([v.s[i]])
    ensures v.Arr? ==> Spread(v).Keys == set i | 0 <= i < |v.items| && v.items[i].Some? :: NatToString(i)
    ensures v.Arr? ==> forall i :: 0 <= i < |v.items| && v.items[i].Some? ==>
                         Spread(v)[NatToString(i)] == v.items[i].value
    ensures !v.Str? && !v.Arr? && !v.Obj? ==> Spread(v) == map[]
  {
    match v
    case Str(t) =>
      var chars := seq(|t|, i requires 0 <= i < |t| => Some(Str([t[i]])));
      assert Spread(v) == IndexEntries(chars);
      IndexEntriesOf(chars);
      assert (set i | 0 <= i < |chars| && chars[i].Some? :: NatToString(i)) == set i | 0 <= i < |t| :: NatToString(i);
    case Arr(a) =>
      IndexEntriesOf(a);
    case _ =>
  }

  function NodeScopes(saAccessScopes: Json): Json {
    if saAccessScopes == Str("full") then Strs([CloudPlatformScope]) else Strs(DefaultNodeScopes)
  }

  function Autoscaling(p: map<string, Json>): Json {
    if Truthy(Get(p, "enableAutoscaling")) then
      Obj(map["enabled" := Bool(true), "maxNodeCount" := Get(p, "maxNode"), "minNodeCount" := Get(p, "minNode")])
    else Obj(map[])
  }

  function MaxPodsConstraint(p: map<string, Json>): Json {
    Obj(map["maxPodsPerNode" := Str(ToJsString(OrElse(Get(p, "maxPodsPerNode"), Num(110))))])
  }

  const Management: Json := Obj(map["autoUpgrade" := Bool(true), "autoRepair" := Bool(true)])

  /** The node metadata: the caller's entries, then the legacy-endpoint
      switch, which therefore wins. */
  function NodeMetadata(p: map<string, Json>): map<string, Json> {
    Spread(OrElse(Get(p, "gceInstanceMetadata"), Obj(map[])))["disable-legacy-endpoints" := Str("true")]
  }

  /** The `config` object before trimming. The machine type sits under the
      key `resolvedMachineType`. */
  function NodeConfig(p: map<string, Json>, machine: Json): map<string, Json> {
    map[
      "diskSizeGb" := Get(p, "diskSize"),
      "metadata" := Obj(NodeMetadata(p)),
      "imageType" := Get(p, "nodeImage"),
      "tags" := Get(p, "networkTags"),
      "bootDiskKmsKey" := Get(p, "diskEncryptionKey"),
      "shieldedInstanceConfig" := Obj(map["enableSecureBoot" := Get(p, "enableSecureBoot"),
                                          "enableIntegrityMonitoring" := Get(p, "enableIntegrityMonitoring")]),
      "oauthScopes" := NodeScopes(Get(p, "saAccessScopes")),
      "management" := Management,
      "serviceAccount" := Get(p, "serviceAccount"),
      "resolvedMachineType" := machine,
      "labels" := Get(p, "labels"),
      "diskType" := Get(p, "diskType"),
      "preemptible" := Get(p, "preemptible")
    ]
  }

  /** The node-pool object before trimming. */
  function NodePoolSpec(p: map<string, Json>, machine: Json): map<string, Json> {
    map[
      "name" := Get(p, "nodePoolName"),
      "initialNodeCount" := Get(p, "numberOfNodes"),
      "autoscaling" := Autoscaling(p),
      "maxPodsConstraint" := MaxPodsConstraint(p),
      "upgradeSettings" := Obj(map["maxSurge" := Get(p, "maxSurge"), "maxUnavailable" := Get(p, "maxUnavailable")]),
      "config" := Obj(NodeConfig(p, machine)),
      "version" := Get(p, "version")
    ]
  }

  /** parseNodePool: throws when a required parameter is missing, else the
      trimmed node-pool specification. */
  function ParseNodePool(p: map<string, Json>): (r: Result<Json, Json>)
    ensures r.Err? <==> MissingPoolParam(p)
    ensures r.Err? ==> r.error == ErrorValue(NodePoolParamsMessage)
    ensures r.Ok? ==> r.value.Obj? && IsPruned(r.value)
  {
    if MissingPoolParam(p) then Err(ErrorValue(NodePoolParamsMessage))
    else
      TrimmedProperties(Obj(NodePoolSpec(p, ResolvedMachineType(p))));
      Ok(Trimmed(Obj(NodePoolSpec(p, ResolvedMachineType(p)))))
  }

  /** A custom CPU count or memory size rewrites the machine type to
      `<type>-<cpu>-<memory>`. */
  lemma {:induction false} CustomMachineType(p: map<string, Json>, t: string, cpu: int, mem: int)
    requires Get(p, "machineType") == Str(t)
    requires Get(p, "customMachineCpuCount") == Num(cpu) && Get(p, "customMachineMem") == Num(mem)
    requires cpu != 0 || mem != 0
    ensures ResolvedMachineType(p) == Str(t + "-" + IntToString(cpu) + "-" + IntToString(mem))
  {
  }

  /** `n2-custom` with 4 CPUs and 16384 MB becomes `n2-custom-4-16384`. */
  lemma {:induction false} CustomMachineTypeExample(p: map<string, Json>)
    requires Get(p, "machineType") == Str("n2-custom")
    requires Get(p, "customMachineCpuCount") == Num(4) && Get(p, "customMachineMem") == Num(16384)
    ensures ResolvedMachineType(p) == Str("n2-custom-4-16384")
  {
    assert ToJsString(Num(16384)) == "16384" by {
      assert NatToString(16) == "16";
      assert NatToString(163) == "163";
      assert NatToString(1638) == "1638";
      assert NatToString(16384) == "16384";
    }
    assert ToJsString(Num(4)) == "4" by {
      assert NatToString(4) == "4";
    }
    assert Truthy(Num(4));
    assert "n2-custom" + "-" + "4" + "-" + "16384" == "n2-custom-4-16384";
  }

  /** Only a CPU count given: the memory part reads "undefined". */
  lemma {:induction false} CustomMachineTypeCpuOnly(p: map<string, Json>, t: string, cpu: int)
    requires Get(p, "machineType") == Str(t)
    requires Get(p, "customMachineCpuCount") == Num(cpu) && cpu != 0
    requires "customMachineMem" !in p
    ensures ResolvedMachineType(p) == Str(t + "-" + IntToString(cpu) + "-undefined")
  {
    assert t + "-" + IntToString(cpu) + "-" + "undefined" == t + "-" + IntToString(cpu) + "-undefined";
  }

  /** An object of scalars, one of them defined, survives trimming unchanged. */
  lemma {:induction false} PruneManagement()
    ensures PruneEntry(Management) == Some(Management)
  {
    assert "autoUpgrade" in Management.fields;
    assert EntryPruned(Management);
    PruneEntryOfPruned(Management);
  }

  /** The node configuration after trimming. */
  function TrimmedConfig(p: map<string, Json>): map<string, Json> {
    Prune(Obj(NodeConfig(p, ResolvedMachineType(p)))).fields
  }

  lemma {:induction false} ConfigKept(p: map<string, Json>)
    requires !MissingPoolParam(p)
    ensures "config" in ParseNodePool(p).value.fields
    ensures ParseNodePool(p).value.fields["config"] == Obj(TrimmedConfig(p))
  {
    var c := NodeConfig(p, ResolvedMachineType(p));
    PruneManagement();
    PruneKeepsKey(c, "management");
    PruneKeepsKey(NodePoolSpec(p, ResolvedMachineType(p)), "config");
  }

  /** The node configuration always carries the fixed management settings. */
  lemma {:induction false} NodeConfigManagement(p: map<string, Json>)
    ensures "management" in TrimmedConfig(p)
    ensures TrimmedConfig(p)["management"] == Obj(map["autoUpgrade" := Bool(true), "autoRepair" := Bool(true)])
  {
    var c := NodeConfig(p, ResolvedMachineType(p));
    assert "management" in c && c["management"] == Management;
    PruneManagement();
    PruneKeepsEntry(c, "management", Management);
  }

  /** The scopes are `cloud-platform` for the access mode "full" and the six
      default scopes for anything else. */
  lemma {:induction false} NodeConfigScopes(p: map<string, Json>)
    ensures "oauthScopes" in TrimmedConfig(p)
    ensures TrimmedConfig(p)["oauthScopes"] ==
              if Get(p, "saAccessScopes") == Str("full") then Strs([CloudPlatformScope]) else Strs(DefaultNodeScopes)
  {
    var c := NodeConfig(p, ResolvedMachineType(p));
    var v := NodeScopes(Get(p, "saAccessScopes"));
    assert "oauthScopes" in c && c["oauthScopes"] == v;
    PruneStrs([CloudPlatformScope]);
    PruneStrs(DefaultNodeScopes);
    PruneKeepsEntry(c, "oauthScopes", v);
  }

  /** The metadata always disables the legacy endpoints, whatever the
      caller's metadata says. */
  lemma {:induction false} NodeConfigMetadata(p: map<string, Json>)
    ensures "metadata" in TrimmedConfig(p) && TrimmedConfig(p)["metadata"].Obj?
    ensures "disable-legacy-endpoints" in TrimmedConfig(p)["metadata"].fields
    ensures TrimmedConfig(p)["metadata"].fields["disable-legacy-endpoints"] == Str("true")
  {
    var c := NodeConfig(p, ResolvedMachineType(p));
    var md := NodeMetadata(p);
    assert "metadata" in c && c["metadata"] == Obj(md);
    PruneKeepsEntry(md, "disable-legacy-endpoints", Str("true"));
    PruneKeepsKey(c, "metadata");
  }

  /** The (resolved) machine type is stored under `resolvedMachineType`,
      and the configuration has no `machineType` key. */
  lemma {:induction false} NodeConfigMachineType(p: map<string, Json>)
    requires !MissingPoolParam(p) && !IsObject(ResolvedMachineType(p))
    ensures "resolvedMachineType" in TrimmedConfig(p)
    ensures TrimmedConfig(p)["resolvedMachineType"] == ResolvedMachineType(p)
    ensures "machineType" !in TrimmedConfig(p)
  {
    var c := NodeConfig(p, ResolvedMachineType(p));
    assert "resolvedMachineType" in c && c["resolvedMachineType"] == ResolvedMachineType(p);
    assert "machineType" !in c;
    PruneKeepsEntry(c, "resolvedMachineType", ResolvedMachineType(p));
  }

  /** The node pool after trimming. */
  function TrimmedPool(p: map<string, Json>): map<string, Json> {
    Prune(Obj(NodePoolSpec(p, ResolvedMachineType(p)))).fields
  }

  lemma {:induction false} ParseNodePoolFields(p: map<string, Json>)
    requires !MissingPoolParam(p)
    ensures ParseNodePool(p).value.fields == TrimmedPool(p)
  {
  }

  /** `maxPodsPerNode` is the string form of the given value, 110 when it is
      falsy. */
  lemma {:induction false} NodePoolMaxPods(p: map<string, Json>)
    ensures "maxPodsConstraint" in TrimmedPool(p)
    ensures TrimmedPool(p)["maxPodsConstraint"] ==
              Obj(map["maxPodsPerNode" := Str(ToJsString(OrElse(Get(p, "maxPodsPerNode"), Num(110))))])
  {
    var s := NodePoolSpec(p, ResolvedMachineType(p));
    var mp := MaxPodsConstraint(p);
    assert "maxPodsConstraint" in s && s["maxPodsConstraint"] == mp;
    PruneKeepsEntry(mp.fields, "maxPodsPerNode", mp.fields["maxPodsPerNode"]);
    assert Prune(mp) == mp;
    PruneKeepsEntry(s, "maxPodsConstraint", mp);
  }

  /** `autoscaling` is present exactly when it is enabled, and then says so. */
  lemma {:induction false} NodePoolAutoscaling(p: map<string, Json>)
    ensures "autoscaling" in TrimmedPool(p) <==> Truthy(Get(p, "enableAutoscaling"))
    ensures "autoscaling" in TrimmedPool(p) ==>
              && TrimmedPool(p)["autoscaling"].Obj?
              && "enabled" in TrimmedPool(p)["autoscaling"].fields
              && TrimmedPool(p)["autoscaling"].fields["enabled"] == Bool(true)
  {
    var s := NodePoolSpec(p, ResolvedMachineType(p));
    var a := Autoscaling(p);
    assert "autoscaling" in s && s["autoscaling"] == a;
    if Truthy(Get(p, "enableAutoscaling")) {
      PruneKeepsEntry(a.fields, "enabled", Bool(true));
      PruneTrimsEntry(s, "autoscaling", a, Prune(a));
    } else {
      PruneDropsEntry(s, "autoscaling", a);
    }
  }

  /** The 110 default and the string conversion of a given number. */
  lemma {:induction false} MaxPodsExamples(p: map<string, Json>, n: int)
    ensures !Truthy(Get(p, "maxPodsPerNode")) ==> MaxPodsConstraint(p).fields["maxPodsPerNode"] == Str("110")
    ensures Get(p, "maxPodsPerNode") == Num(n) && n != 0 ==>
              MaxPodsConstraint(p).fields["maxPodsPerNode"] == Str(IntToString(n))
  {
    assert NatToString(11) == "11";
    assert NatToString(110) == "110";
  }

  // ---------------------------------------------------------------------
  // createBasicCluster
  // ---------------------------------------------------------------------

  const ClusterParamsMessage: string := "Didn't provide one of the required parameters!"

  predicate IsZonal(locationType: Json) {
    locationType == Str("Zonal")
  }

  /** A required cluster parameter is missing: name, location type or
      version, the zone of a zonal cluster or the region of any other. */
  predicate MissingClusterParam(params: map<string, Json>) {
    var zonal := IsZonal(Get(params, "locationType"));
    || !Truthy(Get(params, "name"))
    || !Truthy(Get(params, "locationType"))
    || !Truthy(Get(params, "version"))
    || (zonal && !Truthy(Get(params, "zone")))
    || (!zonal && !Truthy(Get(params, "region")))
  }

  /** `{nodePoolName: "default-pool", ...params}`: every key of the
      parameters, the pool name included, overrides the default. */
  function DefaultPoolParams(params: map<string, Json>): map<string, Json> {
    map["nodePoolName" := Str("default-pool")] + params
  }

  /** The cluster object before trimming. */
  function ClusterSpec(params: map<string, Json>, pool: Json): map<string, Json> {
    var zonal := IsZonal(Get(params, "locationType"));
    map[
      "name" := Get(params, "name"),
      "location" := if zonal then Get(params, "zone") else Get(params, "region"),
      "locations" := if zonal then Arr([Some(Get(params, "zone"))]) else Undef,
      "releaseChannel" := if Get(params, "controlPlaneReleaseChannel") == Str("none") then Undef
                          else Obj(map["channel" := Get(params, "controlPlaneReleaseChannel")]),
      "initialClusterVersion" := Get(params, "version"),
      "nodePools" := Arr([Some(pool)])
    ]
  }

  /** The cluster specification createBasicCluster submits, or what it
      throws first: the parameter check, then parsing the default pool. */
  function BasicClusterJson(params: map<string, Json>): (r: Result<Json, Json>)
    ensures MissingClusterParam(params) ==> r == Err(ErrorValue(ClusterParamsMessage))
    ensures !MissingClusterParam(params) && MissingPoolParam(DefaultPoolParams(params)) ==>
              r == Err(ErrorValue(NodePoolParamsMessage))
    ensures r.Ok? ==> !MissingClusterParam(params) && !MissingPoolParam(DefaultPoolParams(params)) && r.value.Obj?
  {
    if MissingClusterParam(params) then Err(ErrorValue(ClusterParamsMessage))
    else
      match ParseNodePool(DefaultPoolParams(params))
      case Err(e) => Err(e)
      case Ok(pool) => Ok(ClusterJson(params, pool))
  }

  /** The trimmed cluster object around a given node pool. */
  function ClusterJson(params: map<string, Json>, pool: Json): (r: Json)
    ensures r == Obj(TrimmedCluster(params, pool))
  {
    Trimmed(Obj(ClusterSpec(params, pool)))
  }

  /** The default pool is named "default-pool" unless the parameters name
      it, in which case their name (even an undefined one) is used. */
  lemma {:induction false} DefaultPoolName(params: map<string, Json>)
    ensures "nodePoolName" !in params ==> Get(DefaultPoolParams(params), "nodePoolName") == Str("default-pool")
    ensures "nodePoolName" in params ==> Get(DefaultPoolParams(params), "nodePoolName") == params["nodePoolName"]
    ensures forall k :: k in params ==> Get(DefaultPoolParams(params), k) == params[k]
  {
  }

  /** The cluster after trimming, around a given node pool. */
  function TrimmedCluster(params: map<string, Json>, pool: Json): map<string, Json> {
    Prune(Obj(ClusterSpec(params, pool))).fields
  }

  /** The specification createBasicCluster submits is the trimmed cluster
      around the parsed default pool, which is a non-empty trimmed object. */
  lemma {:induction false} BasicClusterFields(params: map<string, Json>)
    requires BasicClusterJson(params).Ok?
    ensures var pool := ParseNodePool(DefaultPoolParams(params));
      && pool.Ok? && pool.value.Obj? && IsPruned(pool.value) && "config" in pool.value.fields
      && BasicClusterJson(params).value == Obj(TrimmedCluster(params, pool.value))
  {
    ConfigKept(DefaultPoolParams(params));
  }

  /** A zonal cluster is placed in its zone and lists it as its only
      location; any other is placed in its region with no location list. */
  lemma {:induction false} BasicClusterLocation(params: map<string, Json>, pool: Json)
    requires !MissingClusterParam(params)
    requires !IsObject(Get(params, "zone")) && !IsObject(Get(params, "region"))
    ensures IsZonal(Get(params, "locationType")) ==>
              && "location" in TrimmedCluster(params, pool) && TrimmedCluster(params, pool)["location"] == Get(params, "zone")
              && "locations" in TrimmedCluster(params, pool)
              && TrimmedCluster(params, pool)["locations"] == Arr([Some(Get(params, "zone"))])
    ensures !IsZonal(Get(params, "locationType")) ==>
              && "location" in TrimmedCluster(params, pool) && TrimmedCluster(params, pool)["location"] == Get(params, "region")
              && "locations" !in TrimmedCluster(params, pool)
  {
    var s := ClusterSpec(params, pool);
    var zone := Get(params, "zone");
    if IsZonal(Get(params, "locationType")) {
      assert "location" in s && s["location"] == zone;
      PruneKeepsEntry(s, "location", zone);
      var l := Arr([Some(zone)]);
      assert "locations" in s && s["locations"] == l;
      assert PruneItem(l.items, 0) == Some(zone);
      assert Prune(l).items == l.items;
      PruneKeepsEntry(s, "locations", l);
    } else {
      assert "location" in s && s["location"] == Get(params, "region");
      PruneKeepsEntry(s, "location", Get(params, "region"));
      assert "locations" in s && s["locations"] == Undef;
      PruneDropsEntry(s, "locations", Undef);
    }
  }

  /** The release channel is omitted for "none" and set otherwise. */
  lemma {:induction false} BasicClusterReleaseChannel(params: map<string, Json>, pool: Json)
    ensures Get(params, "controlPlaneReleaseChannel") == Str("none") ==> "releaseChannel" !in TrimmedCluster(params, pool)
    ensures var ch := Get(params, "controlPlaneReleaseChannel");
      Truthy(ch) && !IsObject(ch) && ch != Str("none") ==>
        "releaseChannel" in TrimmedCluster(params, pool)
        && TrimmedCluster(params, pool)["releaseChannel"] == Obj(map["channel" := ch])
  {
    var s := ClusterSpec(params, pool);
    var ch := Get(params, "controlPlaneReleaseChannel");
    if ch == Str("none") {
      assert "releaseChannel" in s && s["releaseChannel"] == Undef;
      PruneDropsEntry(s, "releaseChannel", Undef);
    } else if Truthy(ch) && !IsObject(ch) {
      var rc := Obj(map["channel" := ch]);
      assert "releaseChannel" in s && s["releaseChannel"] == rc;
      PruneKeepsEntry(rc.fields, "channel", ch);
      assert Prune(rc) == rc;
      PruneKeepsEntry(s, "releaseChannel", rc);
    }
  }

  /** The cluster has exactly one node pool, the given (already trimmed,
      non-empty) pool. */
  lemma {:induction false} BasicClusterPool(params: map<string, Json>, pool: Json)
    requires pool.Obj? && IsPruned(pool) && pool.fields != map[]
    ensures "nodePools" in TrimmedCluster(params, pool)
    ensures TrimmedCluster(params, pool)["nodePools"] == Arr([Some(pool)])
  {
    var s := ClusterSpec(params, pool);
    assert EntryPruned(pool);
    PruneEntryOfPruned(pool);
    var l := Arr([Some(pool)]);
    assert PruneItem(l.items, 0) == Some(pool);
    assert Prune(l).items == l.items;
    assert "nodePools" in s && s["nodePools"] == l;
    PruneKeepsEntry(s, "nodePools", l);
  }

  // ---------------------------------------------------------------------
  // waitForOperation
  // ---------------------------------------------------------------------

  const Done: Json := Str("DONE")
  const Aborting: Json := Str("ABORTING")

  predicate IsFinal(status: Json) {
    status == Done || status == Aborting
  }

  const FetchFailurePrefix: string := "Couldn't get operation: "

  /** The error thrown when fetching the operation fails; it carries the
      last operation seen. Reading `e.message` of an undefined or null
      rejection throws a TypeError inside the `catch` instead. */
  function FetchFailure(e: Json, last: Json): (r: Json)
    ensures e.Undef? || e.Null? ==> r == ReadError(e, "message")
    ensures e.Obj? ==> r == Obj(map["message" := Str(FetchFailurePrefix + ToJsString(Get(e.fields, "message"))),
                                    "operation" := last])
    ensures !e.Obj? && !e.Undef? && !e.Null? ==>
              r == Obj(map["message" := Str(FetchFailurePrefix + "undefined"), "operation" := last])
  {
    if e.Undef? || e.Null? then ReadError(e, "message")
    else
      var message := if e.Obj? then Get(e.fields, "message") else Undef;
      Obj(map["message" := Str(FetchFailurePrefix + ToJsString(message)), "operation" := last])
  }

  /** How polling ends and how many fetches it made. */
  datatype Polled = Polled(outcome: Settlement, fetched: nat)

  /** The end of polling at an operation whose status is final: it resolves
      only when the status is DONE and no error is recorded, and otherwise
      throws the operation itself. */
  function Finish(op: Json): (r: Settlement)
    requires op.Obj?
    ensures r.Resolved? ==> r.value == op && Get(op.fields, "status") == Done
    ensures r.Resolved? <==> Get(op.fields, "status") == Done && !Truthy(Get(op.fields, "error"))
    ensures r.Rejected? ==> r.reason == op
    ensures !r.Unsettled?
  {
    if Get(op.fields, "status") == Done && !Truthy(Get(op.fields, "error")) then Resolved(op) else Rejected(op)
  }

  /** The polling loop over the replies its fetches get, in order: `Ok`
      with the fetched operation or `Err` with the fetch error. */
  function Poll(op: Json, replies: seq<Result<Json, Json>>): (r: Polled)
    ensures r.fetched <= |replies|
    decreases |replies|
  {
    match Property(op, "status")
    case Err(e) => Polled(Rejected(e), 0)
    case Ok(status) =>
      if IsFinal(status) then Polled(Finish(op), 0)
      else if replies == [] then Polled(Unsettled, 0)
      else match replies[0]
        case Err(e) => Polled(Rejected(FetchFailure(e, op)), 1)
        case Ok(next) =>
          var rest := Poll(next, replies[1..]);
          Polled(rest.outcome, rest.fetched + 1)
  }

  /** The operation path the poller fetches. */
  function OperationName(svc: Service, region: Json, zone: Json, opName: Json): string {
    LocationAsParent(svc, region, zone) + "/operations/" + ToJsString(opName)
  }

  function Repeat(c: Call, n: nat): (r: seq<Call>)
    ensures |r| == n && forall i :: 0 <= i < n ==> r[i] == c
  {
    if n == 0 then [] else Repeat(c, n - 1) + [c]
  }

  /** waitForOperation: reading the operation's name throws on a missing
      operation; then every fetch asks for the same path, through the zonal
      API when a zone is given. */
  function Waited(svc: Service, region: Json, zone: Json, op: Json, replies: seq<Result<Json, Json>>): Run {
    match Property(op, "name")
    case Err(e) => Run(Rejected(e), [])
    case Ok(name) =>
      var polled := Poll(op, replies);
      Run(polled.outcome, Repeat(GetOperation(OperationName(svc, region, zone, name), zone), polled.fetched))
  }

  /** The polling loop, reassigning the current operation after each fetch. */
  method WaitForOperation(svc: Service, region: Json, zone: Json, operation: Json, replies: seq<Result<Json, Json>>)
    returns (outcome: Settlement, calls: seq<Call>)
    ensures Run(outcome, calls) == Waited(svc, region, zone, operation, replies)
  {
    var nameRead := Property(operation, "name");
    if nameRead.Err? {
      return Rejected(nameRead.error), [];
    }
    var request := GetOperation(OperationName(svc, region, zone, nameRead.value), zone);
    var current := operation;
    var i := 0;
    calls := [];
    var status := Property(current, "status");
    assert replies[0..] == replies;
    ghost var polled := Poll(operation, replies);
    assert Waited(svc, region, zone, operation, replies) == Run(polled.outcome, Repeat(request, polled.fetched));
    while status.Ok? && !IsFinal(status.value)
      invariant 0 <= i <= |replies|
      invariant status == Property(current, "status")
      invariant calls == Repeat(request, i)
      invariant PolledFrom(operation, replies, current, i)
      decreases |replies| - i
    {
      if i == |replies| {
        assert Poll(current, replies[i..]) == Polled(Unsettled, 0);
        return Unsettled, calls;
      }
      calls := calls + [request];
      match replies[i] {
        case Err(e) =>
          assert Poll(current, replies[i..]) == Polled(Rejected(FetchFailure(e, current)), 1) by {
            PollStep(current, replies[i..]);
          }
          return Rejected(FetchFailure(e, current)), calls;
        case Ok(next) =>
          PollResume(operation, replies, current, i);
          current := next;
      }
      i := i + 1;
      status := Property(current, "status");
    }
    if status.Err? {
      return Rejected(status.error), calls;
    }
    outcome := Finish(current);
  }

  /** One round of polling an operation that is not final. */
  lemma {:induction false} PollStep(op: Json, replies: seq<Result<Json, Json>>)
    requires Property(op, "status").Ok? && !IsFinal(Property(op, "status").value) && replies != []
    ensures replies[0].Err? ==> Poll(op, replies) == Polled(Rejected(FetchFailure(replies[0].error, op)), 1)
    ensures replies[0].Ok? ==>
              Poll(op, replies) ==
              Polled(Poll(replies[0].value, replies[1..]).outcome, Poll(replies[0].value, replies[1..]).fetched + 1)
  {
  }

  /** Polling `op` over all replies ends as polling `current` over those
      from the `i`-th on, after `i` fetches. */
  ghost predicate PolledFrom(op: Json, replies: seq<Result<Json, Json>>, current: Json, i: nat)
    requires i <= |replies|
  {
    var rest := Poll(current, replies[i..]);
    Poll(op, replies) == Polled(rest.outcome, rest.fetched + i)
  }

  lemma {:induction false} PollResume(op: Json, replies: seq<Result<Json, Json>>, current: Json, i: nat)
    requires i < |replies| && replies[i].Ok? && PolledFrom(op, replies, current, i)
    requires Property(current, "status").Ok? && !IsFinal(Property(current, "status").value)
    ensures PolledFrom(op, replies, replies[i].value, i + 1)
  {
    PollStep(current, replies[i..]);
    assert replies[i..][1..] == replies[i + 1..];
  }

  /** An operation already DONE or ABORTING is not fetched again. */
  lemma {:induction false} PollFinalNoFetch(op: Json, replies: seq<Result<Json, Json>>)
    requires op.Obj? && IsFinal(Get(op.fields, "status"))
    ensures Poll(op, replies) == Polled(Finish(op), 0)
  {
  }

  /** Polling resolves only with an operation that is DONE without error,
      and rejects with the operation itself, the fetch failure or the error
      of reading a status. */
  lemma {:induction false} PollResolvesDone(op: Json, replies: seq<Result<Json, Json>>)
    ensures var r := Poll(op, replies).outcome;
      r.Resolved? ==> r.value.Obj? && Get(r.value.fields, "status") == Done && !Truthy(Get(r.value.fields, "error"))
    decreases |replies|
  {
    match Property(op, "status")
    case Err(_) =>
    case Ok(status) =>
      if !IsFinal(status) && replies != [] && replies[0].Ok? {
        PollResolvesDone(replies[0].value, replies[1..]);
      }
  }

  /** A status is readable and not final. */
  predicate Pending(op: Json) {
    Property(op, "status").Ok? && !IsFinal(Property(op, "status").value)
  }

  /** The first fetch that returns a final operation ends the polling:
      after exactly that many fetches, with that operation's verdict. */
  lemma {:induction false} PollFirstFinal(op: Json, replies: seq<Result<Json, Json>>, k: nat)
    requires Pending(op)
    requires k < |replies| && forall j :: 0 <= j <= k ==> replies[j].Ok?
    requires forall j :: 0 <= j < k ==> Pending(replies[j].value)
    requires replies[k].value.Obj? && IsFinal(Get(replies[k].value.fields, "status"))
    ensures Poll(op, replies) == Polled(Finish(replies[k].value), k + 1)
    decreases k
  {
    if k > 0 {
      PollFirstFinal(replies[0].value, replies[1..], k - 1);
    }
  }

  /** A fetch error ends the polling at once, with the last operation seen. */
  lemma {:induction false} PollFetchError(op: Json, replies: seq<Result<Json, Json>>, k: nat)
    requires Pending(op)
    requires k < |replies| && replies[k].Err?
    requires forall j :: 0 <= j < k ==> replies[j].Ok? && Pending(replies[j].value)
    ensures Poll(op, replies) ==
              Polled(Rejected(FetchFailure(replies[k].error, if k == 0 then op else replies[k - 1].value)), k + 1)
    decreases k
  {
    if k > 0 {
      PollFetchError(replies[0].value, replies[1..], k - 1);
    }
  }

  function OperationWith(status: string): Json {
    Obj(map["name" := Str("op-1"), "status" := Str(status)])
  }

  /** PENDING, then PENDING, then DONE: two fetches, resolving with the
      final record; a fetch that reports ABORTING throws that record. */
  lemma {:induction false} PollExamples()
    ensures Poll(OperationWith("PENDING"), [Ok(OperationWith("PENDING")), Ok(OperationWith("DONE"))]) ==
              Polled(Resolved(OperationWith("DONE")), 2)
    ensures Poll(OperationWith("PENDING"), [Ok(OperationWith("ABORTING")), Ok(OperationWith("DONE"))]) ==
              Polled(Rejected(OperationWith("ABORTING")), 1)
  {
    var pending := OperationWith("PENDING");
    assert Pending(pending);
    PollFirstFinal(pending, [Ok(OperationWith("PENDING")), Ok(OperationWith("DONE"))], 1);
    PollFirstFinal(pending, [Ok(OperationWith("ABORTING")), Ok(OperationWith("DONE"))], 0);
  }

  // ---------------------------------------------------------------------
  // Entry points
  // ---------------------------------------------------------------------

  /** The common tail: one provider request, then its operation (`[0]` of
      what it resolved with) is returned as is or waited for. */
  function Submit(svc: Service, call: Call, reply: Result<Json, Json>, wait: Json, region: Json, zone: Json,
                  replies: seq<Result<Json, Json>>): (r: Run)
    ensures |r.calls| >= 1 && r.calls[0] == call
    ensures reply.Err? ==> r == Run(Rejected(reply.error), [call])
    ensures reply.Ok? && First(reply.value).Ok? && !Truthy(wait) ==> r == Run(Resolved(First(reply.value).value), [call])
  {
    match reply
    case Err(e) => Run(Rejected(e), [call])
    case Ok(v) =>
      match First(v)
      case Err(e) => Run(Rejected(e), [call])
      case Ok(op) =>
        if Truthy(wait) then
          var w := Waited(svc, region, zone, op, replies);
          Run(w.outcome, [call] + w.calls)
        else Run(Resolved(op), [call])
  }

  const ClusterJsonMessage: string := "Didn't provide cluster parameters JSON!"

  /** createClusterJson: a zonal cluster is created (and polled) through its
      zone, any other through its region. */
  function CreateClusterJson(svc: Service, args: map<string, Json>, reply: Result<Json, Json>,
                             replies: seq<Result<Json, Json>>): (r: Run)
    ensures !Truthy(Get(args, "clusterJson")) ==> r == Run(Rejected(ErrorValue(ClusterJsonMessage)), [])
    ensures Truthy(Get(args, "clusterJson")) ==>
              var zone := if IsZonal(Get(args, "locationType")) then Get(args, "zone") else Undef;
              r.calls != [] &&
              r.calls[0] == CreateCluster(LocationAsParent(svc, Get(args, "region"), zone), Get(args, "clusterJson"), zone)
  {
    var cluster := Get(args, "clusterJson");
    if !Truthy(cluster) then Run(Rejected(ErrorValue(ClusterJsonMessage)), [])
    else
      var region := Get(args, "region");
      var zone := if IsZonal(Get(args, "locationType")) then Get(args, "zone") else Undef;
      Submit(svc, CreateCluster(LocationAsParent(svc, region, zone), cluster, zone), reply,
             Get(args, "waitForOperation"), region, zone, replies)
  }

  /** The arguments createBasicCluster passes on to createClusterJson. */
  function ClusterArgs(params: map<string, Json>, cluster: Json): map<string, Json> {
    map["locationType" := Get(params, "locationType"), "region" := Get(params, "region"),
        "zone" := Get(params, "zone"), "clusterJson" := cluster,
        "waitForOperation" := Get(params, "waitForOperation")]
  }

  /** createBasicCluster: nothing is sent when the parameters are incomplete
      or the default pool does not parse; otherwise the trimmed cluster is
      handed to createClusterJson. */
  function CreateBasicCluster(svc: Service, params: map<string, Json>, reply: Result<Json, Json>,
                              replies: seq<Result<Json, Json>>): (r: Run)
    ensures MissingClusterParam(params) ==> r == Run(Rejected(ErrorValue(ClusterParamsMessage)), [])
    ensures BasicClusterJson(params).Err? ==> r == Run(Rejected(BasicClusterJson(params).error), [])
    ensures BasicClusterJson(params).Ok? ==>
              r == CreateClusterJson(svc, ClusterArgs(params, BasicClusterJson(params).value), reply, replies)
  {
    match BasicClusterJson(params)
    case Err(e) => Run(Rejected(e), [])
    case Ok(cluster) => CreateClusterJson(svc, ClusterArgs(params, cluster), reply, replies)
  }

  /** createClusterJson sends the cluster it is given to the zone of a zonal
      cluster, to the region otherwise. */
  lemma {:induction false} ClusterArgsRequest(svc: Service, params: map<string, Json>, cluster: Json,
                                              reply: Result<Json, Json>, replies: seq<Result<Json, Json>>)
    requires Truthy(cluster)
    ensures var zone := if IsZonal(Get(params, "locationType")) then Get(params, "zone") else Undef;
      var r := CreateClusterJson(svc, ClusterArgs(params, cluster), reply, replies);
      r.calls != [] && r.calls[0] == CreateCluster(LocationAsParent(svc, Get(params, "region"), zone), cluster, zone)
  {
    var args := ClusterArgs(params, cluster);
    assert Get(args, "clusterJson") == cluster && Get(args, "locationType") == Get(params, "locationType");
    assert Get(args, "zone") == Get(params, "zone") && Get(args, "region") == Get(params, "region");
  }

  /** With complete parameters, the one create request carries the trimmed
      cluster and targets the zone of a zonal cluster, the region otherwise. */
  lemma {:induction false} CreateBasicClusterRequest(svc: Service, params: map<string, Json>, reply: Result<Json, Json>,
                                                     replies: seq<Result<Json, Json>>)
    requires BasicClusterJson(params).Ok?
    ensures var zone := if IsZonal(Get(params, "locationType")) then Get(params, "zone") else Undef;
      var r := CreateBasicCluster(svc, params, reply, replies);
      r.calls != [] && r.calls[0] ==
        CreateCluster(LocationAsParent(svc, Get(params, "region"), zone), BasicClusterJson(params).value, zone)
  {
    ClusterArgsRequest(svc, params, BasicClusterJson(params).value, reply, replies);
  }

  const NodePoolClusterMessage: string := "Must provide a cluster to create the node pool for."
  const NodePoolJsonMessage: string := "Didn't provide Node Pool parameters JSON!"

  /** createNodePoolJson: the cluster and the pool specification are checked
      before the request. */
  function CreateNodePoolJson(svc: Service, args: map<string, Json>, reply: Result<Json, Json>,
                              replies: seq<Result<Json, Json>>): (r: Run)
    ensures !Truthy(Get(args, "cluster")) ==> r == Run(Rejected(ErrorValue(NodePoolClusterMessage)), [])
    ensures Truthy(Get(args, "cluster")) && !Truthy(Get(args, "nodePoolJson")) ==>
              r == Run(Rejected(ErrorValue(NodePoolJsonMessage)), [])
    ensures Truthy(Get(args, "cluster")) && Truthy(Get(args, "nodePoolJson")) ==>
              r.calls != [] && r.calls[0] ==
                CreateNodePool(Get(args, "cluster"), Get(args, "nodePoolJson"),
                  ClusterAsParent(svc, Get(args, "region"), Get(args, "zone"), Get(args, "cluster")), Get(args, "zone"))
  {
    var cluster := Get(args, "cluster");
    if !Truthy(cluster) then Run(Rejected(ErrorValue(NodePoolClusterMessage)), [])
    else if !Truthy(Get(args, "nodePoolJson")) then Run(Rejected(ErrorValue(NodePoolJsonMessage)), [])
    else
      var region := Get(args, "region");
      var zone := Get(args, "zone");
      Submit(svc, CreateNodePool(cluster, Get(args, "nodePoolJson"), ClusterAsParent(svc, region, zone, cluster), zone),
             reply, Get(args, "waitForOperation"), region, zone, replies)
  }

  /** createNodePool: the pool is parsed first, so a bad pool is reported
      even when the cluster is missing too. */
  function CreateNodePoolFrom(svc: Service, params: map<string, Json>, reply: Result<Json, Json>,
                              replies: seq<Result<Json, Json>>): (r: Run)
    ensures MissingPoolParam(params) ==> r == Run(Rejected(ErrorValue(NodePoolParamsMessage)), [])
    ensures !MissingPoolParam(params) && !Truthy(Get(params, "cluster")) ==>
              r == Run(Rejected(ErrorValue(NodePoolClusterMessage)), [])
    ensures !MissingPoolParam(params) && Truthy(Get(params, "cluster")) ==>
              ParseNodePool(params).Ok? && r.calls != [] &&
              r.calls[0] == CreateNodePool(Get(params, "cluster"), ParseNodePool(params).value,
                              ClusterAsParent(svc, Get(params, "region"), Get(params, "zone"), Get(params, "cluster")),
                              Get(params, "zone"))
  {
    match ParseNodePool(params)
    case Err(e) => Run(Rejected(e), [])
    case Ok(pool) => CreateNodePoolJson(svc, NodePoolArgs(params, pool), reply, replies)
  }

  /** The arguments createNodePool passes on: the caller's cluster, region,
      zone and wait flag, with the parsed pool. */
  function NodePoolArgs(params: map<string, Json>, pool: Json): (args: map<string, Json>)
    ensures Get(args, "cluster") == Get(params, "cluster") && Get(args, "region") == Get(params, "region")
    ensures Get(args, "zone") == Get(params, "zone") && Get(args, "nodePoolJson") == pool
  {
    map["cluster" := Get(params, "cluster"), "region" := Get(params, "region"), "zone" := Get(params, "zone"),
        "waitForOperation" := Get(params, "waitForOperation"), "nodePoolJson" := pool]
  }

  const DeleteClusterMessage: string := "Must provide a cluster to delete."

  /** deleteCluster: nothing is sent without a cluster. */
  function DeleteClusterRun(svc: Service, args: map<string, Json>, reply: Result<Json, Json>,
                            replies: seq<Result<Json, Json>>): (r: Run)
    ensures !Truthy(Get(args, "cluster")) ==> r == Run(Rejected(ErrorValue(DeleteClusterMessage)), [])
    ensures Truthy(Get(args, "cluster")) ==>
              r.calls != [] && r.calls[0] ==
                DeleteCluster(Get(args, "cluster"), svc.projectId,
                  LocationAsParent(svc, Get(args, "region"), Get(args, "zone")), Get(args, "zone"))
  {
    var cluster := Get(args, "cluster");
    if !Truthy(cluster) then Run(Rejected(ErrorValue(DeleteClusterMessage)), [])
    else
      var region := Get(args, "region");
      var zone := Get(args, "zone");
      Submit(svc, DeleteCluster(cluster, svc.projectId, LocationAsParent(svc, region, zone), zone),
             reply, Get(args, "waitForOperation"), region, zone, replies)
  }

  /** deleteNodePool: nothing is sent without both a cluster and a pool. */
  function DeleteNodePoolRun(svc: Service, args: map<string, Json>, reply: Result<Json, Json>,
                             replies: seq<Result<Json, Json>>): (r: Run)
    ensures !Truthy(Get(args, "cluster")) || !Truthy(Get(args, "nodePool")) ==>
              r == Run(Rejected(ErrorValue(NodePoolParamsMessage)), [])
    ensures Truthy(Get(args, "cluster")) && Truthy(Get(args, "nodePool")) ==>
              r.calls != [] && r.calls[0] ==
                DeleteNodePool(Get(args, "cluster"), Get(args, "nodePool"), svc.projectId,
                  ClusterAsParent(svc, Get(args, "region"), Get(args, "zone"), Get(args, "cluster")), Get(args, "zone"))
  {
    var cluster := Get(args, "cluster");
    if !Truthy(cluster) || !Truthy(Get(args, "nodePool")) then Run(Rejected(ErrorValue(NodePoolParamsMessage)), [])
    else
      var region := Get(args, "region");
      var zone := Get(args, "zone");
      Submit(svc, DeleteNodePool(cluster, Get(args, "nodePool"), svc.projectId, ClusterAsParent(svc, region, zone, cluster), zone),
             reply, Get(args, "waitForOperation"), region, zone, replies)
  }

  const DescribeClusterMessage: string := "Must provide a cluster to describe."

  /** describeCluster: one request, whose `[0]` is returned. */
  function DescribeCluster(svc: Service, args: map<string, Json>, reply: Result<Json, Json>): (r: Run)
    ensures !Truthy(Get(args, "cluster")) ==> r == Run(Rejected(ErrorValue(DescribeClusterMessage)), [])
    ensures Truthy(Get(args, "cluster")) ==>
              r.calls == [GetCluster(Get(args, "cluster"), svc.projectId,
                                     ClusterAsParent(svc, Get(args, "region"), Get(args, "zone"), Get(args, "cluster")),
                                     Get(args, "zone"))]
    ensures Truthy(Get(args, "cluster")) && reply.Err? ==> r.outcome == Rejected(reply.error)
    ensures Truthy(Get(args, "cluster")) && reply.Ok? && First(reply.value).Ok? ==>
              r.outcome == Resolved(First(reply.value).value)
  {
    var cluster := Get(args, "cluster");
    if !Truthy(cluster) then Run(Rejected(ErrorValue(DescribeClusterMessage)), [])
    else
      var call := GetCluster(cluster, svc.projectId, ClusterAsParent(svc, Get(args, "region"), Get(args, "zone"), cluster),
                             Get(args, "zone"));
      match reply
      case Err(e) => Run(Rejected(e), [call])
      case Ok(v) =>
        match First(v)
        case Err(e) => Run(Rejected(e), [call])
        case Ok(c) => Run(Resolved(c), [call])
  }

  /** With waiting on, the entry point ends as the poller does, after the
      one submit request and the poller's fetches. */
  lemma {:induction false} SubmitWaits(svc: Service, call: Call, reply: Result<Json, Json>, wait: Json,
                                       region: Json, zone: Json, replies: seq<Result<Json, Json>>)
    requires reply.Ok? && First(reply.value).Ok? && Truthy(wait)
    requires Property(First(reply.value).value, "name").Ok?
    ensures var op := First(reply.value).value;
      var r := Submit(svc, call, reply, wait, region, zone, replies);
      && r.outcome == Poll(op, replies).outcome
      && |r.calls| == 1 + Poll(op, replies).fetched
      && forall i :: 1 <= i < |r.calls| ==> r.calls[i].GetOperation? && r.calls[i].zone == zone
  {
  }
}
