/** The Compute Engine service: the VM specification launchVm builds, the
    external address it allocates (and releases again when the VM cannot be
    created), the actions on an existing VM, and the network, firewall and
    route requests.

    The compute clients are not modelled: each provider call is recorded in
    a trace of `Call`s, and what it answers is a parameter. Parameter
    records are maps from the key names the source destructures; a missing
    key reads as undefined. */
module Compute {
  import opened Wrappers
  import opened Strings
  import opened Values
  import opened Helpers

  /** The service as constructed: its project id and the JWT client
      getAuthClient builds from the credentials, which is an opaque value
      here. */
  datatype Service = Service(projectId: Json, auth: Json)

  /** A request sent to the provider. */
  datatype Call =
    | CreateAddress(region: Json, address: string)
    | GetAddressMetadata(address: string)
    | DeleteAddress(request: Json)
    | CreateVm(zone: Json, vmName: Json, config: Json)
    | StopVm(zone: Json, vm: Json)
    | DeleteVm(zone: Json, vm: Json)
    | ResetVm(zone: Json, vm: Json)
    | StartVm(zone: Json, vm: Json)
    | GetVmMetadata(zone: Json, vm: Json)
    | InsertNetwork(request: Json)
    | WaitGlobalOperation(request: Json)
    | CreateFirewall(firewall: Json, rule: Json)
    | InsertRoute(request: Json)

  /** How an entry point ends and the provider requests it made, in order. */
  datatype Run = Run(outcome: Settlement, calls: seq<Call>)

  // ---------------------------------------------------------------------
  // The VM specification
  // ---------------------------------------------------------------------

  /** The scopes a VM's service account gets for the access mode "default". */
  const DefaultVmScopes: seq<string> := [
    "https://www.googleapis.com/auth/devstorage.read_only",
    "https://www.googleapis.com/auth/logging.write",
    "https://www.googleapis.com/auth/monitoring.write",
    "https://www.googleapis.com/auth/servicecontrol",
    "https://www.googleapis.com/auth/service.management.readonly",
    "https://www.googleapis.com/auth/trace.append"
  ]

  /** The tag list launchVm works on: the caller's `tags` array, or a fresh
      one when the caller gave none. */
  class TagList {
    var items: seq<Option<Json>>

    constructor (items: seq<Option<Json>>)
      ensures this.items == items
    {
      this.items := items;
    }

    /** `Array.prototype.push`. */
    method Push(v: Json)
      modifies this
      ensures items == old(items) + [Some(v)]
    {
      items := items + [Some(v)];
    }
  }

  /** The tags launchVm appends: "http-server" with `allowHttp`, then
      "https-server" with `allowHttps`. */
  function HttpTags(p: map<string, Json>): (r: seq<Option<Json>>)
    ensures |r| <= 2
    ensures Some(Str("http-server")) in r <==> Truthy(Get(p, "allowHttp"))
    ensures Some(Str("https-server")) in r <==> Truthy(Get(p, "allowHttps"))
  {
    (if Truthy(Get(p, "allowHttp")) then [Some(Str("http-server"))] else [])
    + (if Truthy(Get(p, "allowHttps")) then [Some(Str("https-server"))] else [])
  }

  /** The scopes of the service account: the six defaults for "default",
      `cloud-platform` for "full", the caller's value as given otherwise. */
  function VmScopes(saAccessScopes: Json): Json {
    if saAccessScopes == Str("default") then Strs(DefaultVmScopes)
    else if saAccessScopes == Str("full") then Strs([CloudPlatformScope])
    else saAccessScopes
  }

  /** Scheduling: a preemptible VM is not restarted and is terminated on
      host maintenance; any other migrates and restarts. */
  function Scheduling(preemptible: Json): Json {
    Obj(map[
      "automaticRestart" := Bool(!Truthy(preemptible)),
      "onHostMaintenance" := Str(if Truthy(preemptible) then "TERMINATE" else "MIGRATE"),
      "preemptible" := OrElse(preemptible, Bool(false))
    ])
  }

  /** `a.concat(b)` on an array `a`: the elements of an array `b`, any
      other `b` as one element. */
  function Concat(a: seq<Option<Json>>, b: Json): seq<Option<Json>> {
    if b.Arr? then a + b.items else a + [Some(b)]
  }

  /** The interface on the given network and subnetwork (when both are
      given), then the caller's interfaces. */
  function Interfaces(p: map<string, Json>): Json {
    var own := if Truthy(Get(p, "network")) && Truthy(Get(p, "subnetwork")) then
      [Some(Obj(map["network" := Get(p, "network"), "subnetwork" := Get(p, "subnetwork"),
                    "networkIP" := Get(p, "networkIP")]))]
    else [];
    Arr(Concat(own, OrElse(Get(p, "networkInterfaces"), Arr([]))))
  }

  /** The one boot disk. */
  function BootDisk(p: map<string, Json>): Json {
    var zone := Get(p, "zone");
    Obj(map[
      "boot" := Bool(true),
      "initializeParams" := Obj(map[
        "sourceImage" := Get(p, "sourceImage"),
        "diskType" := if Truthy(Get(p, "diskType")) then
                        Str("zones/" + ToJsString(zone) + "/diskTypes/" + ToJsString(Get(p, "diskType")))
                      else Undef,
        "diskSizeGb" := Get(p, "diskSizeGb")
      ]),
      "autoDelete" := OrElse(Get(p, "diskAutoDelete"), Bool(false)),
      "mode" := Str("READ_WRITE"),
      "type" := Str("PERSISTENT")
    ])
  }

  /** The full path of a machine type in the VM's zone. */
  function MachineTypePath(svc: Service, zone: Json, machineType: Json): string {
    "projects/" + ToJsString(svc.projectId) + "/zones/" + ToJsString(zone) + "/machineTypes/" + ToJsString(machineType)
  }

  /** The VM object before trimming, given the final tag list. */
  function VmSpec(svc: Service, p: map<string, Json>, tags: seq<Option<Json>>): map<string, Json> {
    map[
      "machineType" := if Truthy(Get(p, "machineType")) then
                         Str(MachineTypePath(svc, Get(p, "zone"), Get(p, "machineType")))
                       else Undef,
      "canIpForward" := Get(p, "canIpForward"),
      "labels" := Get(p, "labels"),
      "description" := Get(p, "description"),
      "scheduling" := Scheduling(Get(p, "preemptible")),
      "networkInterfaces" := Interfaces(p),
      "tags" := if |tags| > 0 then Obj(map["items" := Arr(tags)]) else Undef,
      "disks" := Arr([Some(BootDisk(p))]),
      "serviceAccounts" := if Truthy(Get(p, "serviceAccount")) then
                             Arr([Some(Obj(map["email" := Get(p, "serviceAccount"),
                                               "scopes" := VmScopes(Get(p, "saAccessScopes"))]))])
                           else Undef
    ]
  }

  /** The VM configuration launchVm sends, before any external address is
      spliced in. */
  function VmConfig(svc: Service, p: map<string, Json>, tags: seq<Option<Json>>): map<string, Json> {
    Prune(Obj(VmSpec(svc, p, tags))).fields
  }

  /** A machine type given by name becomes its full path in the VM's zone;
      without one the configuration has no machine type. */
  lemma {:induction false} VmMachineType(svc: Service, p: map<string, Json>, tags: seq<Option<Json>>)
    ensures Truthy(Get(p, "machineType")) ==>
              "machineType" in VmConfig(svc, p, tags) &&
              VmConfig(svc, p, tags)["machineType"] ==
                Str("projects/" + ToJsString(svc.projectId) + "/zones/" + ToJsString(Get(p, "zone"))
                    + "/machineTypes/" + ToJsString(Get(p, "machineType")))
    ensures !Truthy(Get(p, "machineType")) ==> "machineType" !in VmConfig(svc, p, tags)
  {
    var m := VmSpec(svc, p, tags);
    var v := m["machineType"];
    assert "machineType" in m;
    if Truthy(Get(p, "machineType")) {
      PruneKeepsEntry(m, "machineType", v);
    } else {
      PruneDropsEntry(m, "machineType", v);
    }
  }

  /** Scheduling follows `preemptible`, which defaults to false. */
  lemma {:induction false} VmScheduling(svc: Service, p: map<string, Json>, tags: seq<Option<Json>>, preemptible: bool)
    requires Get(p, "preemptible") == Bool(preemptible) || (Get(p, "preemptible") == Undef && !preemptible)
    ensures "scheduling" in VmConfig(svc, p, tags)
    ensures VmConfig(svc, p, tags)["scheduling"] ==
              Obj(map["automaticRestart" := Bool(!preemptible),
                      "onHostMaintenance" := Str(if preemptible then "TERMINATE" else "MIGRATE"),
                      "preemptible" := Bool(preemptible)])
  {
    var m := VmSpec(svc, p, tags);
    var s := Scheduling(Get(p, "preemptible"));
    assert "scheduling" in m && m["scheduling"] == s;
    assert "preemptible" in s.fields && s.fields["preemptible"] == Bool(preemptible);
    assert EntryPruned(s);
    PruneEntryOfPruned(s);
    PruneKeepsEntry(m, "scheduling", s);
  }

  /** The tags entry is present exactly when the tag list is not empty, and
      then holds the list. */
  lemma {:induction false} VmTags(svc: Service, p: map<string, Json>, tags: seq<string>)
    ensures var items := seq(|tags|, i requires 0 <= i < |tags| => Some(Str(tags[i])));
      var c := VmConfig(svc, p, items);
      ("tags" in c <==> tags != []) &&
      (tags != [] ==> c["tags"] == Obj(map["items" := Strs(tags)]))
  {
    var items := seq(|tags|, i requires 0 <= i < |tags| => Some(Str(tags[i])));
    var m := VmSpec(svc, p, items);
    assert "tags" in m;
    if tags == [] {
      PruneDropsEntry(m, "tags", Undef);
    } else {
      assert Arr(items) == Strs(tags);
      var t := Obj(map["items" := Strs(tags)]);
      assert "items" in t.fields && t.fields["items"] == Strs(tags);
      PruneStrs(tags);
      assert EntryPruned(Strs(tags));
      assert EntryPruned(t);
      PruneEntryOfPruned(t);
      PruneKeepsEntry(m, "tags", t);
    }
  }

  /** Without a service account there is no service-account entry; with
      one, its scopes are the six defaults for "default", `cloud-platform`
      for "full", and the caller's string otherwise. */
  lemma {:induction false} VmServiceAccount(svc: Service, p: map<string, Json>, tags: seq<Option<Json>>, scopes: string)
    requires Get(p, "saAccessScopes") == Str(scopes)
    ensures !Truthy(Get(p, "serviceAccount")) ==> "serviceAccounts" !in VmConfig(svc, p, tags)
    ensures Get(p, "serviceAccount").Str? && Truthy(Get(p, "serviceAccount")) ==>
              "serviceAccounts" in VmConfig(svc, p, tags) &&
              VmConfig(svc, p, tags)["serviceAccounts"] ==
                Arr([Some(Obj(map["email" := Get(p, "serviceAccount"),
                                  "scopes" := if scopes == "default" then Strs(DefaultVmScopes)
                                              else if scopes == "full" then Strs([CloudPlatformScope])
                                              else Str(scopes)]))])
  {
    var m := VmSpec(svc, p, tags);
    assert "serviceAccounts" in m;
    if !Truthy(Get(p, "serviceAccount")) {
      PruneDropsEntry(m, "serviceAccounts", Undef);
    } else if Get(p, "serviceAccount").Str? {
      var sc := VmScopes(Str(scopes));
      var account := Obj(map["email" := Get(p, "serviceAccount"), "scopes" := sc]);
      PruneStrs(DefaultVmScopes);
      PruneStrs([CloudPlatformScope]);
      assert EntryPruned(sc);
      assert "email" in account.fields;
      assert EntryPruned(account);
      var accounts := Arr([Some(account)]);
      assert accounts.items[0].Some?;
      assert EntryPruned(accounts);
      PruneEntryOfPruned(accounts);
      PruneKeepsEntry(m, "serviceAccounts", accounts);
    }
  }

  /** Without `saAccessScopes` the account goes without scopes: the
      undefined entry is trimmed away. */
  lemma {:induction false} VmServiceAccountNoScopes(svc: Service, p: map<string, Json>, tags: seq<Option<Json>>)
    requires Get(p, "saAccessScopes") == Undef
    requires Get(p, "serviceAccount").Str? && Truthy(Get(p, "serviceAccount"))
    ensures "serviceAccounts" in VmConfig(svc, p, tags)
    ensures VmConfig(svc, p, tags)["serviceAccounts"] == Arr([Some(Obj(map["email" := Get(p, "serviceAccount")]))])
  {
    var m := VmSpec(svc, p, tags);
    var account := Obj(map["email" := Get(p, "serviceAccount"), "scopes" := Undef]);
    var kept := Obj(map["email" := Get(p, "serviceAccount")]);
    var accounts := Arr([Some(account)]);
    assert "serviceAccounts" in m && m["serviceAccounts"] == accounts;
    assert "email" in account.fields && "scopes" in account.fields;
    assert Prune(account) == kept;
    assert "email" in kept.fields;
    assert PruneEntry(account) == Some(kept);
    assert Prune(accounts) == Arr([Some(kept)]);
    assert Prune(accounts).items[0].Some?;
    assert PruneEntry(accounts) == Some(Arr([Some(kept)]));
    PruneTrimsEntry(m, "serviceAccounts", accounts, Arr([Some(kept)]));
  }

  /** With neither a network/subnetwork pair nor interfaces of the
      caller's, the configuration has no interfaces at all. */
  lemma {:induction false} VmNoInterfaces(svc: Service, p: map<string, Json>, tags: seq<Option<Json>>)
    requires !Truthy(Get(p, "network")) && !Truthy(Get(p, "networkInterfaces"))
    ensures "networkInterfaces" !in VmConfig(svc, p, tags)
  {
    var m := VmSpec(svc, p, tags);
    assert "networkInterfaces" in m && m["networkInterfaces"] == Arr([]);
    PruneDropsEntry(m, "networkInterfaces", Arr([]));
  }

  /** The boot disk is read-write, persistent, and kept after the VM is
      deleted unless asked otherwise. */
  lemma {:induction false} VmBootDisk(svc: Service, p: map<string, Json>, tags: seq<Option<Json>>, autoDelete: bool)
    requires Get(p, "diskAutoDelete") == Bool(autoDelete) || (Get(p, "diskAutoDelete") == Undef && !autoDelete)
    ensures "disks" in VmConfig(svc, p, tags)
    ensures var d := VmConfig(svc, p, tags)["disks"];
      d.Arr? && |d.items| == 1 && d.items[0].Some? && d.items[0].value.Obj? &&
      var disk := d.items[0].value.fields;
      "autoDelete" in disk && disk["autoDelete"] == Bool(autoDelete) &&
      "boot" in disk && disk["boot"] == Bool(true) &&
      "mode" in disk && disk["mode"] == Str("READ_WRITE") &&
      "type" in disk && disk["type"] == Str("PERSISTENT")
  {
    var m := VmSpec(svc, p, tags);
    var disk := BootDisk(p);
    assert "disks" in m && m["disks"] == Arr([Some(disk)]);
    var pd := TrimmedBootDisk(p, autoDelete);
    PruneSingleton(disk, pd);
    PruneTrimsEntry(m, "disks", Arr([Some(disk)]), Arr([Some(pd)]));
  }

  /** The boot disk after trimming keeps its fixed entries. */
  lemma {:induction false} TrimmedBootDisk(p: map<string, Json>, autoDelete: bool) returns (pd: Json)
    requires Get(p, "diskAutoDelete") == Bool(autoDelete) || (Get(p, "diskAutoDelete") == Undef && !autoDelete)
    ensures PruneEntry(BootDisk(p)) == Some(pd) && pd.Obj?
    ensures "autoDelete" in pd.fields && pd.fields["autoDelete"] == Bool(autoDelete)
    ensures "boot" in pd.fields && pd.fields["boot"] == Bool(true)
    ensures "mode" in pd.fields && pd.fields["mode"] == Str("READ_WRITE")
    ensures "type" in pd.fields && pd.fields["type"] == Str("PERSISTENT")
  {
    var f := BootDisk(p).fields;
    assert "autoDelete" in f && "boot" in f && "mode" in f && "type" in f;
    PruneKeepsKey(f, "autoDelete");
    PruneKeepsKey(f, "boot");
    PruneKeepsKey(f, "mode");
    PruneKeepsKey(f, "type");
    pd := Prune(BootDisk(p));
  }

  /** A one-element array survives trimming when its element does. */
  lemma {:induction false} PruneSingleton(v: Json, w: Json)
    requires PruneEntry(v) == Some(w)
    ensures PruneEntry(Arr([Some(v)])) == Some(Arr([Some(w)]))
  {
    assert PruneItem([Some(v)], 0) == Some(w);
    assert Prune(Arr([Some(v)])).items == [Some(w)];
    assert Arr([Some(w)]).items[0].Some?;
    assert !NoKeys(Arr([Some(w)]));
  }

  // ---------------------------------------------------------------------
  // Splicing the external address into the configuration
  // ---------------------------------------------------------------------

  /** `typeof` of a primitive, as a TypeError message names it. */
  function PrimitiveType(v: Json): string {
    match v
    case Bool(_) => "boolean"
    case Num(_) => "number"
    case Str(_) => "string"
    case _ => "object"
  }

  /** `target[key] = value` in strict-mode code: assigning to undefined or
      null throws, and so does creating a property on a primitive. A named
      property on an array does not survive as JSON, so the array is left
      as it is. */
  function SetProperty(target: Json, key: string, value: Json): (r: Result<Json, Json>)
    ensures r.Err? <==> !IsObject(target)
    ensures target.Obj? ==> r == Ok(Obj(target.fields[key := value]))
  {
    match target
    case Undef => Err(TypeErrorValue("Cannot set properties of undefined (setting '" + key + "')"))
    case Null => Err(TypeErrorValue("Cannot set properties of null (setting '" + key + "')"))
    case Obj(m) => Ok(Obj(m[key := value]))
    case Arr(_) => Ok(target)
    case _ => Err(TypeErrorValue("Cannot create property '" + key + "' on " + PrimitiveType(target) + " '"
                                 + ToJsString(target) + "'"))
  }

  /** `container` after its element `[0]` was changed in place to `v`. */
  function WithFirst(container: Json, v: Json): Json {
    match container
    case Arr(items) => if items != [] then Arr(items[0 := Some(v)]) else container
    case Obj(m) => Obj(m["0" := v])
    case _ => container
  }

  /** A one-element access-config list holding the address. */
  function NatConfigs(natIP: Json): Json {
    Arr([Some(Obj(map["natIP" := natIP]))])
  }

  /** The splice of the allocated address into the trimmed configuration:
      a configuration without interfaces gets one interface with one access
      config; an interface without access configs gets one; otherwise the
      first access config's address is overwritten. */
  function SpliceNatIp(config: map<string, Json>, natIP: Json): (r: Result<map<string, Json>, Json>)
    ensures r.Ok? ==> r.value.Keys == config.Keys + {"networkInterfaces"}
    ensures r.Ok? ==> forall k :: k in config && k != "networkInterfaces" ==> r.value[k] == config[k]
  {
    var nis := Get(config, "networkInterfaces");
    if !Truthy(nis) then
      Ok(config["networkInterfaces" := Arr([Some(Obj(map["accessConfigs" := NatConfigs(natIP)]))])])
    else
      var ni := First(nis).value;
      match Property(ni, "accessConfigs")
      case Err(e) => Err(e)
      case Ok(acs) =>
        if !Truthy(acs) then
          match SetProperty(ni, "accessConfigs", NatConfigs(natIP))
          case Err(e) => Err(e)
          case Ok(ni2) => Ok(config["networkInterfaces" := WithFirst(nis, ni2)])
        else
          match SetProperty(First(acs).value, "natIP", natIP)
          case Err(e) => Err(e)
          case Ok(ac2) =>
            match ni
            case Obj(m) => Ok(config["networkInterfaces" := WithFirst(nis, Obj(m["accessConfigs" := WithFirst(acs, ac2)]))])
            case _ => Ok(config)
  }

  /** Reading `networkInterfaces[0].accessConfigs[0].natIP`. */
  function NatIpPath(v: Json): Result<Json, Json> {
    match Property(v, "networkInterfaces")
    case Err(e) => Err(e)
    case Ok(nis) =>
      match First(nis)
      case Err(e) => Err(e)
      case Ok(ni) =>
        match Property(ni, "accessConfigs")
        case Err(e) => Err(e)
        case Ok(acs) =>
          match First(acs)
          case Err(e) => Err(e)
          case Ok(ac) => Property(ac, "natIP")
  }

  /** A configuration without interfaces gets one, carrying the address. */
  lemma {:induction false} SpliceIntoNoInterfaces(config: map<string, Json>, natIP: Json)
    requires !Truthy(Get(config, "networkInterfaces"))
    ensures SpliceNatIp(config, natIP).Ok?
    ensures NatIpPath(Obj(SpliceNatIp(config, natIP).value)) == Ok(natIP)
  {
    var c := SpliceNatIp(config, natIP).value;
    assert "networkInterfaces" in c;
    var ni := Obj(map["accessConfigs" := NatConfigs(natIP)]);
    assert c["networkInterfaces"] == Arr([Some(ni)]);
    assert First(Arr([Some(ni)])) == Ok(ni);
    assert "accessConfigs" in ni.fields;
    var ac := Obj(map["natIP" := natIP]);
    assert First(NatConfigs(natIP)) == Ok(ac);
    assert "natIP" in ac.fields;
  }

  /** The first interface without access configs gets one, carrying the
      address; its other entries and the other interfaces are kept. */
  lemma {:induction false} SpliceIntoBareInterface(config: map<string, Json>, natIP: Json, m: map<string, Json>,
                                                   rest: seq<Option<Json>>)
    requires Get(config, "networkInterfaces") == Arr([Some(Obj(m))] + rest)
    requires !Truthy(Get(m, "accessConfigs"))
    ensures SpliceNatIp(config, natIP) ==
              Ok(config["networkInterfaces" := Arr([Some(Obj(m["accessConfigs" := NatConfigs(natIP)]))] + rest)])
    ensures NatIpPath(Obj(SpliceNatIp(config, natIP).value)) == Ok(natIP)
  {
    var nis := Arr([Some(Obj(m))] + rest);
    assert First(nis) == Ok(Obj(m));
    var ni2 := Obj(m["accessConfigs" := NatConfigs(natIP)]);
    assert WithFirst(nis, ni2) == Arr([Some(ni2)] + rest);
    var c := config["networkInterfaces" := Arr([Some(ni2)] + rest)];
    assert First(Arr([Some(ni2)] + rest)) == Ok(ni2);
    var ac := Obj(map["natIP" := natIP]);
    assert First(NatConfigs(natIP)) == Ok(ac);
    assert "natIP" in ac.fields;
  }

  /** Otherwise the address overwrites that of the first access config of
      the first interface, and everything else is kept. */
  lemma {:induction false} SpliceIntoAccessConfig(config: map<string, Json>, natIP: Json, m: map<string, Json>,
                                                  rest: seq<Option<Json>>, a: map<string, Json>, more: seq<Option<Json>>)
    requires Get(config, "networkInterfaces") == Arr([Some(Obj(m))] + rest)
    requires Get(m, "accessConfigs") == Arr([Some(Obj(a))] + more)
    ensures SpliceNatIp(config, natIP) ==
              Ok(config["networkInterfaces" :=
                   Arr([Some(Obj(m["accessConfigs" := Arr([Some(Obj(a["natIP" := natIP]))] + more)]))] + rest)])
    ensures NatIpPath(Obj(SpliceNatIp(config, natIP).value)) == Ok(natIP)
  {
    var nis := Arr([Some(Obj(m))] + rest);
    var acs := Arr([Some(Obj(a))] + more);
    assert First(nis) == Ok(Obj(m));
    assert First(acs) == Ok(Obj(a));
    var ac2 := Obj(a["natIP" := natIP]);
    assert WithFirst(acs, ac2) == Arr([Some(ac2)] + more);
    var ni2 := Obj(m["accessConfigs" := Arr([Some(ac2)] + more)]);
    assert WithFirst(nis, ni2) == Arr([Some(ni2)] + rest);
    assert First(Arr([Some(ni2)] + rest)) == Ok(ni2);
    assert First(Arr([Some(ac2)] + more)) == Ok(ac2);
  }

  /** A hole or a null where the first interface should be makes the
      splice throw. */
  lemma {:induction false} SpliceIntoMissingInterface(config: map<string, Json>, natIP: Json, first: Option<Json>,
                                                      rest: seq<Option<Json>>)
    requires Get(config, "networkInterfaces") == Arr([first] + rest)
    requires first.None? || first == Some(Null) || first == Some(Undef)
    ensures SpliceNatIp(config, natIP).Err?
  {
    assert First(Arr([first] + rest)).value.Undef? || First(Arr([first] + rest)).value.Null?;
  }

  // ---------------------------------------------------------------------
  // The external address
  // ---------------------------------------------------------------------

  /** The name of the address allocated for a VM. */
  function AddressName(instanceName: Json): (r: string)
    ensures r == ToJsString(instanceName) + "-ext-addr"
    ensures |r| > |"-ext-addr"| - 1 && r[|r| - 9..] == "-ext-addr"
  {
    ToJsString(instanceName) + "-ext-addr"
  }

  const AddressFailurePrefix: string := "Couldn't create external address with the name: "

  /** What autoCreateExtIp throws for a failure `e`: the address name and
      the error's message (or its string form) wrapped in a new error. */
  function AddressFailure(addrName: string, e: Json): (r: Json)
    ensures !(e.Undef? || e.Null?) ==> r == ErrorValue(AddressFailurePrefix + addrName + "\n" + ErrorText(e))
  {
    Rethrown(AddressFailurePrefix + addrName + "\n", e)
  }

  /** What the address calls answer: `createAddress` resolves with the
      operation and `getMetadata` with the
      metadata array. */
  datatype AddressReplies = AddressReplies(created: Result<Operation, Json>, metadata: Result<Json, Json>)

  /** autoCreateExtIp: allocate the external address, wait for its
      operation, then read the address it got. */
  function AutoCreateExtIp(region: Json, instanceName: Json, replies: AddressReplies): (r: Run)
    ensures 1 <= |r.calls| <= 2 && r.calls[0] == CreateAddress(region, AddressName(instanceName))
    ensures |r.calls| == 2 ==> r.calls[1] == GetAddressMetadata(AddressName(instanceName))
    ensures replies.created.Ok? && HandleOperation(replies.created.value).Unsettled? ==> r.outcome.Unsettled?
    ensures replies.created.Ok? && HandleOperation(replies.created.value).Resolved? ==> |r.calls| == 2
    ensures replies.created.Ok? && HandleOperation(replies.created.value).Resolved? &&
            replies.metadata.Ok? && First(replies.metadata.value).Ok? &&
            Property(First(replies.metadata.value).value, "address").Ok? ==>
              r.outcome == Resolved(Property(First(replies.metadata.value).value, "address").value)
  {
    var addrName := AddressName(instanceName);
    var create := CreateAddress(region, addrName);
    match replies.created
    case Err(e) => Run(Rejected(AddressFailure(addrName, e)), [create])
    case Ok(op) =>
      match HandleOperation(op)
      case Unsettled => Run(Unsettled, [create])
      case Rejected(e) => Run(Rejected(AddressFailure(addrName, e)), [create])
      case Resolved(_) =>
        var calls := [create, GetAddressMetadata(addrName)];
        match replies.metadata
        case Err(e) => Run(Rejected(AddressFailure(addrName, e)), calls)
        case Ok(v) =>
          match First(v)
          case Err(e) => Run(Rejected(AddressFailure(addrName, e)), calls)
          case Ok(meta) =>
            match Property(meta, "address")
            case Err(e) => Run(Rejected(AddressFailure(addrName, e)), calls)
            case Ok(ip) => Run(Resolved(ip), calls)
  }

  /** Every failure of the allocation is reported under the address name. */
  lemma {:induction false} AutoCreateExtIpFailure(region: Json, instanceName: Json, replies: AddressReplies)
    requires AutoCreateExtIp(region, instanceName, replies).outcome.Rejected?
    ensures exists e :: AutoCreateExtIp(region, instanceName, replies).outcome.reason == AddressFailure(AddressName(instanceName), e)
  {
    var addrName := AddressName(instanceName);
    match replies.created
    case Err(e) =>
    case Ok(op) =>
      match HandleOperation(op)
      case Rejected(e) =>
      case Resolved(_) =>
        match replies.metadata
        case Err(e) =>
        case Ok(v) =>
          match First(v)
          case Err(e) =>
          case Ok(meta) =>
            match Property(meta, "address")
            case Err(e) =>
  }

  /** The request deleteAutoExtIp sends: the trimmed project, region and
      address name, with the auth client kept as it is. */
  function DeleteRequest(svc: Service, region: Json, instanceName: Json): Json {
    Trimmed(Obj(map["project" := svc.projectId, "region" := region,
                    "address" := Str(AddressName(instanceName)), "auth" := svc.auth]))
  }

  /** The delete names the address that was allocated for the same VM. */
  lemma {:induction false} DeleteRequestNamesAddress(svc: Service, region: Json, instanceName: Json)
    ensures DeleteRequest(svc, region, instanceName).Obj?
    ensures var f := DeleteRequest(svc, region, instanceName).fields;
      "address" in f && f["address"] == Str(AddressName(instanceName)) && "auth" in f && f["auth"] == svc.auth
  {
    var m := map["project" := svc.projectId, "region" := region,
                 "address" := Str(AddressName(instanceName)), "auth" := svc.auth];
    assert "address" in m && m["address"] == Str(AddressName(instanceName));
    assert "auth" in m;
    PruneKeepsEntry(m, "address", Str(AddressName(instanceName)));
  }

  // ---------------------------------------------------------------------
  // launchVm
  // ---------------------------------------------------------------------

  /** launchVm after the tags were appended: trim the configuration; with
      `autoCreateStaticIP`, allocate the address and splice it in; create the
      VM; and when creating it fails after an address was allocated,
      release the address and fail with the creation's error. */
  function Launched(svc: Service, p: map<string, Json>, tags: seq<Option<Json>>, wait: Json,
                    address: AddressReplies, vm: CallbackArgs): Run
  {
    var config := VmConfig(svc, p, tags);
    var zone := Get(p, "zone");
    var name := Get(p, "name");
    if !Truthy(Get(p, "autoCreateStaticIP")) then
      Run(DefaultGcpCallback(wait, vm), [CreateVm(zone, name, Obj(config))])
    else
      var ext := AutoCreateExtIp(Get(p, "region"), name, address);
      match ext.outcome
      case Unsettled => ext
      case Rejected(_) => ext
      case Resolved(natIP) =>
        match SpliceNatIp(config, natIP)
        case Err(e) => Run(Rejected(e), ext.calls)
        case Ok(spliced) =>
          var created := DefaultGcpCallback(wait, vm);
          var calls := ext.calls + [CreateVm(zone, name, Obj(spliced))];
          if created.Rejected? then Run(created, calls + [DeleteAddress(DeleteRequest(svc, Get(p, "region"), name))])
          else Run(created, calls)
  }

  /** Some tag survives trimming. */
  predicate SomeTagKept(tags: seq<Option<Json>>) {
    exists i :: 0 <= i < |tags| && PruneItem(tags, i).Some?
  }

  /** Trimming `{ items: tags }` trims the array and keeps the object iff
      some tag survives. */
  lemma {:induction false} TagsObjectTrim(tags: seq<Option<Json>>)
    requires |tags| > 0
    ensures SomeTagKept(tags) ==> PruneEntry(Obj(map["items" := Arr(tags)])) == Some(Obj(map["items" := Prune(Arr(tags))]))
    ensures !SomeTagKept(tags) ==> PruneEntry(Obj(map["items" := Arr(tags)])) == None
  {
    var t := Obj(map["items" := Arr(tags)]);
    var a := Prune(Arr(tags));
    assert forall i :: 0 <= i < |tags| ==> a.items[i] == PruneItem(tags, i);
    assert "items" in t.fields && t.fields["items"] == Arr(tags);
    if SomeTagKept(tags) {
      var i :| 0 <= i < |tags| && PruneItem(tags, i).Some?;
      assert a.items[i].Some?;
      assert PruneEntry(Arr(tags)) == Some(a);
      assert Prune(t) == Obj(map["items" := a]);
      assert "items" in Prune(t).fields;
      assert PruneEntry(t) == Some(Prune(t));
    } else {
      assert NoKeys(a);
      assert PruneEntry(Arr(tags)) == None;
      assert Prune(t) == Obj(map[]);
    }
  }

  /** The configuration's tag entry is the caller's array as launchVm leaves
      it: a non-empty array sits in the configuration as `tags.items`
      itself, so trimming the configuration trims it in place. The entry is
      present exactly when some tag survives trimming. */
  lemma {:induction false} VmTagsShareCallerArray(svc: Service, p: map<string, Json>, tags: seq<Option<Json>>)
    ensures var c := VmConfig(svc, p, tags);
      ("tags" in c <==> SomeTagKept(tags)) &&
      ("tags" in c ==> c["tags"] == Obj(map["items" := Prune(Arr(tags))]))
  {
    var m := VmSpec(svc, p, tags);
    assert "tags" in m;
    if |tags| == 0 {
      PruneDropsEntry(m, "tags", Undef);
    } else {
      var t := Obj(map["items" := Arr(tags)]);
      TagsObjectTrim(tags);
      if SomeTagKept(tags) {
        PruneTrimsEntry(m, "tags", t, Obj(map["items" := Prune(Arr(tags))]));
      } else {
        PruneDropsEntry(m, "tags", t);
      }
    }
  }

  /** launchVm. `tags` is the caller's tag array, `null` when the caller
      gave none; the HTTP tags are appended to it, and trimming the
      configuration then trims it in place. */
  method LaunchVm(svc: Service, p: map<string, Json>, tags: TagList?, wait: Json,
                  address: AddressReplies, vm: CallbackArgs) returns (outcome: Settlement, calls: seq<Call>)
    modifies tags
    ensures tags != null ==> tags.items == Prune(Arr(old(tags.items) + HttpTags(p))).items
    ensures Run(outcome, calls) ==
              Launched(svc, p, (if tags != null then old(tags.items) else []) + HttpTags(p), wait, address, vm)
  {
    var resolvedTags := ResolveTags(tags, p);
    ghost var items := resolvedTags.items;
    assert items == (if tags != null then old(tags.items) else []) + HttpTags(p);
    var trimmed := RemoveUndefinedAndEmpty(Obj(VmSpec(svc, p, resolvedTags.items)));
    var config := trimmed.fields;
    assert config == VmConfig(svc, p, items);
    if |resolvedTags.items| > 0 {
      var trimmedTags := PruneArray(resolvedTags.items);
      resolvedTags.items := trimmedTags.items;
    }
    var zone := Get(p, "zone");
    var name := Get(p, "name");
    var auto := Truthy(Get(p, "autoCreateStaticIP"));
    calls := [];
    if auto {
      var ext := AutoCreateExtIp(Get(p, "region"), name, address);
      calls := ext.calls;
      if !ext.outcome.Resolved? {
        return ext.outcome, calls;
      }
      var spliced := SpliceNatIp(config, ext.outcome.value);
      if spliced.Err? {
        return Rejected(spliced.error), calls;
      }
      config := spliced.value;
    }
    calls := calls + [CreateVm(zone, name, Obj(config))];
    outcome := DefaultGcpCallback(wait, vm);
    if auto && outcome.Rejected? {
      calls := calls + [DeleteAddress(DeleteRequest(svc, Get(p, "region"), name))];
    }
  }

  /** `tags || []`, then the HTTP tags pushed onto it. */
  method ResolveTags(tags: TagList?, p: map<string, Json>) returns (resolved: TagList)
    modifies tags
    ensures tags != null ==> resolved == tags && tags.items == old(tags.items) + HttpTags(p)
    ensures tags == null ==> fresh(resolved) && resolved.items == HttpTags(p)
  {
    if tags == null {
      resolved := new TagList([]);
    } else {
      resolved := tags;
    }
    if Truthy(Get(p, "allowHttp")) {
      resolved.Push(Str("http-server"));
    }
    if Truthy(Get(p, "allowHttps")) {
      resolved.Push(Str("https-server"));
    }
  }

  /** Without `autoCreateStaticIP` the VM is created directly and settles as
      the creation does; nothing else is called. */
  lemma {:induction false} LaunchWithoutAddress(svc: Service, p: map<string, Json>, tags: seq<Option<Json>>, wait: Json,
                                                address: AddressReplies, vm: CallbackArgs)
    requires !Truthy(Get(p, "autoCreateStaticIP"))
    ensures var r := Launched(svc, p, tags, wait, address, vm);
      r.outcome == DefaultGcpCallback(wait, vm) &&
      r.calls == [CreateVm(Get(p, "zone"), Get(p, "name"), Obj(VmConfig(svc, p, tags)))]
  {
  }

  /** Compensation: when the VM cannot be created after its address was
      allocated, exactly one delete follows, of the address with the same
      name, and the launch fails with the creation's own error. */
  lemma {:induction false} LaunchReleasesAddress(svc: Service, p: map<string, Json>, tags: seq<Option<Json>>,
                                                 wait: Json, address: AddressReplies, vm: CallbackArgs)
    requires Truthy(Get(p, "autoCreateStaticIP"))
    requires AutoCreateExtIp(Get(p, "region"), Get(p, "name"), address).outcome.Resolved?
    requires SpliceNatIp(VmConfig(svc, p, tags), AutoCreateExtIp(Get(p, "region"), Get(p, "name"), address).outcome.value).Ok?
    requires DefaultGcpCallback(wait, vm).Rejected?
    ensures var r := Launched(svc, p, tags, wait, address, vm);
      var addr := AddressName(Get(p, "name"));
      r.outcome == DefaultGcpCallback(wait, vm) &&
      |r.calls| == 4 &&
      r.calls[0] == CreateAddress(Get(p, "region"), addr) &&
      r.calls[1] == GetAddressMetadata(addr) &&
      r.calls[2].CreateVm? &&
      r.calls[3] == DeleteAddress(DeleteRequest(svc, Get(p, "region"), Get(p, "name"))) &&
      Get(DeleteRequest(svc, Get(p, "region"), Get(p, "name")).fields, "address") == Str(addr)
  {
    DeleteRequestNamesAddress(svc, Get(p, "region"), Get(p, "name"));
  }

  /** When the VM is created, the address is kept: no delete is sent. */
  lemma {:induction false} LaunchKeepsAddress(svc: Service, p: map<string, Json>, tags: seq<Option<Json>>,
                                              wait: Json, address: AddressReplies, vm: CallbackArgs)
    requires !DefaultGcpCallback(wait, vm).Rejected?
    ensures forall c :: c in Launched(svc, p, tags, wait, address, vm).calls ==> !c.DeleteAddress?
  {
  }

  /** When the address cannot be allocated, no VM is created and nothing is
      deleted. */
  lemma {:induction false} LaunchStopsWithoutAddress(svc: Service, p: map<string, Json>, tags: seq<Option<Json>>,
                                                     wait: Json, address: AddressReplies, vm: CallbackArgs)
    requires Truthy(Get(p, "autoCreateStaticIP"))
    requires !AutoCreateExtIp(Get(p, "region"), Get(p, "name"), address).outcome.Resolved?
    ensures Launched(svc, p, tags, wait, address, vm) == AutoCreateExtIp(Get(p, "region"), Get(p, "name"), address)
    ensures forall c :: c in Launched(svc, p, tags, wait, address, vm).calls ==> !c.CreateVm? && !c.DeleteAddress?
  {
  }

  // ---------------------------------------------------------------------
  // vmAction
  // ---------------------------------------------------------------------

  const NoExternalIpMessage: string := "No external IP found"
  const NoActionMessage: string := "Must provide an action to run on the VM instance!"

  /** The Get-IP check: the first interface's first access config must have
      an address; every link of the chain is tested for truthiness, and
      reading past a missing link throws. */
  function GetIp(metadata: Json): (r: Result<Json, Json>)
    ensures r.Ok? ==> Truthy(r.value)
    ensures Property(metadata, "networkInterfaces").Ok? && !Truthy(Property(metadata, "networkInterfaces").value) ==>
              r == Err(ErrorValue(NoExternalIpMessage))
    ensures var nis := Property(metadata, "networkInterfaces");
            nis.Ok? && Truthy(nis.value) && Property(First(nis.value).value, "accessConfigs").Ok? &&
            !Truthy(Property(First(nis.value).value, "accessConfigs").value) ==>
              r == Err(ErrorValue(NoExternalIpMessage))
    ensures NatIpPath(metadata).Ok? && !Truthy(NatIpPath(metadata).value) ==> r == Err(ErrorValue(NoExternalIpMessage))
    ensures r.Err? && r.error != ErrorValue(NoExternalIpMessage) ==> r == NatIpPath(metadata)
  {
    match Property(metadata, "networkInterfaces")
    case Err(e) => Err(e)
    case Ok(nis) =>
      if !Truthy(nis) then Err(ErrorValue(NoExternalIpMessage))
      else
        match Property(First(nis).value, "accessConfigs")
        case Err(e) => Err(e)
        case Ok(acs) =>
          if !Truthy(acs) then Err(ErrorValue(NoExternalIpMessage))
          else
            match Property(First(acs).value, "natIP")
            case Err(e) => Err(e)
            case Ok(ip) => if !Truthy(ip) then Err(ErrorValue(NoExternalIpMessage)) else Ok(ip)
  }

  /** Get-IP answers exactly the address at
      `networkInterfaces[0].accessConfigs[0].natIP` when that is truthy. */
  lemma {:induction false} GetIpReadsPath(metadata: Json)
    ensures GetIp(metadata).Ok? ==> NatIpPath(metadata) == GetIp(metadata)
    ensures NatIpPath(metadata).Ok? && Truthy(NatIpPath(metadata).value) ==> GetIp(metadata) == NatIpPath(metadata)
  {
  }

  /** Get-IP on a VM created from a spliced configuration reads back the
      address that was spliced in. */
  lemma {:induction false} GetIpOfSpliced(config: map<string, Json>, natIP: Json)
    requires Truthy(natIP) && !Truthy(Get(config, "networkInterfaces"))
    ensures GetIp(Obj(SpliceNatIp(config, natIP).value)) == Ok(natIP)
  {
    SpliceIntoNoInterfaces(config, natIP);
    GetIpReadsPath(Obj(SpliceNatIp(config, natIP).value));
  }

  /** What a VM call resolves with: `[operation, apiResponse]`. */
  datatype Resolution = Resolution(operation: Operation, apiResponse: Json)

  /** What vmAction returns: a value, the whole resolution when its API
      response is falsy (`res[1] || res`), or the VM handle itself. */
  datatype Returned = Value(value: Json) | Whole(res: Resolution) | VmHandle(zone: Json, vm: Json)

  /** How vmAction ends: it returns, it throws, or it is still waiting for
      the operation. */
  datatype ActionOutcome = Returns(returned: Returned) | Throws(error: Json) | Waiting

  /** What the VM calls answer, in the order they are made: the action
      call (the stop, for Delete), the delete, and `[0]` of the metadata. */
  datatype ActionReplies = ActionReplies(first: Result<Resolution, Json>, second: Result<Resolution, Json>,
                                         metadata: Result<Json, Json>)

  /** `res[1] || res`. */
  function Answer(res: Resolution): Returned {
    if Truthy(res.apiResponse) then Value(res.apiResponse) else Whole(res)
  }

  predicate IsOperationAction(action: Json) {
    action == Str("Stop") || action == Str("Delete") || action == Str("Restart") || action == Str("Start")
  }

  /** How an operation action ends once its last call answered. */
  function ActionEnd(wait: Json, reply: Result<Resolution, Json>): ActionOutcome {
    match reply
    case Err(e) => Throws(e)
    case Ok(res) =>
      if !Truthy(wait) then Returns(Answer(res))
      else
        match HandleOperation(res.operation)
        case Resolved(_) => Returns(Answer(res))
        case Rejected(e) => Throws(e)
        case Unsettled => Waiting
  }

  /** vmAction: Stop, Restart and Start make one call; Delete stops the VM
      and then deletes it; the operation of the last call is waited for on
      request. Get returns the VM handle and Get-IP its external address;
      any other action throws before a call is made. */
  method VmAction(zone: Json, vmName: Json, action: Json, wait: Json, replies: ActionReplies)
    returns (outcome: ActionOutcome, calls: seq<Call>)
    ensures action == Str("Stop") ==> calls == [StopVm(zone, vmName)] && outcome == ActionEnd(wait, replies.first)
    ensures action == Str("Restart") ==> calls == [ResetVm(zone, vmName)] && outcome == ActionEnd(wait, replies.first)
    ensures action == Str("Start") ==> calls == [StartVm(zone, vmName)] && outcome == ActionEnd(wait, replies.first)
    ensures action == Str("Delete") && replies.first.Err? ==>
              calls == [StopVm(zone, vmName)] && outcome == Throws(replies.first.error)
    ensures action == Str("Delete") && replies.first.Ok? ==>
              calls == [StopVm(zone, vmName), DeleteVm(zone, vmName)] && outcome == ActionEnd(wait, replies.second)
    ensures action == Str("Get") ==> calls == [] && outcome == Returns(VmHandle(zone, vmName))
    ensures action == Str("Get-IP") ==> calls == [GetVmMetadata(zone, vmName)]
    ensures action == Str("Get-IP") && replies.metadata.Err? ==> outcome == Throws(replies.metadata.error)
    ensures action == Str("Get-IP") && replies.metadata.Ok? ==>
              var ip := GetIp(replies.metadata.value);
              outcome == if ip.Ok? then Returns(Value(ip.value)) else Throws(ip.error)
    ensures !IsOperationAction(action) && action != Str("Get") && action != Str("Get-IP") ==>
              calls == [] && outcome == Throws(ErrorValue(NoActionMessage))
  {
    var res: Resolution;
    if action == Str("Stop") || action == Str("Delete") {
      calls := [StopVm(zone, vmName)];
      if replies.first.Err? {
        return Throws(replies.first.error), calls;
      }
      res := replies.first.value;
      if action == Str("Delete") {
        calls := calls + [DeleteVm(zone, vmName)];
        if replies.second.Err? {
          return Throws(replies.second.error), calls;
        }
        res := replies.second.value;
      }
    } else if action == Str("Restart") || action == Str("Start") {
      calls := [if action == Str("Restart") then ResetVm(zone, vmName) else StartVm(zone, vmName)];
      if replies.first.Err? {
        return Throws(replies.first.error), calls;
      }
      res := replies.first.value;
    } else if action == Str("Get") {
      return Returns(VmHandle(zone, vmName)), [];
    } else if action == Str("Get-IP") {
      calls := [GetVmMetadata(zone, vmName)];
      if replies.metadata.Err? {
        return Throws(replies.metadata.error), calls;
      }
      var ip := GetIp(replies.metadata.value);
      if ip.Err? {
        return Throws(ip.error), calls;
      }
      return Returns(Value(ip.value)), calls;
    } else {
      return Throws(ErrorValue(NoActionMessage)), [];
    }
    if Truthy(wait) {
      var settled := HandleOperation(res.operation);
      if settled.Unsettled? {
        return Waiting, calls;
      }
      if settled.Rejected? {
        return Throws(settled.reason), calls;
      }
    }
    outcome := Returns(Answer(res));
  }

  /** Without waiting, an action that got its answer returns at once: the
      API response when it is truthy, the whole resolution otherwise. */
  lemma {:induction false} ActionWithoutWait(wait: Json, res: Resolution)
    requires !Truthy(wait)
    ensures ActionEnd(wait, Ok(res)) == Returns(if Truthy(res.apiResponse) then Value(res.apiResponse) else Whole(res))
    ensures ActionEnd(wait, Ok(res)) != Waiting
  {
  }

  /** When waiting, the first terminal event of the operation decides: an
      error event makes the action throw it. */
  lemma {:induction false} ActionWaitsForOperation(wait: Json, res: Resolution, i: nat)
    requires Truthy(wait) && res.operation.Emitter?
    requires i < |res.operation.events| && IsTerminal(res.operation.events[i])
    requires forall j :: 0 <= j < i ==> !IsTerminal(res.operation.events[j])
    ensures res.operation.events[i].ErrorEvent? ==> ActionEnd(wait, Ok(res)) == Throws(res.operation.events[i].err)
    ensures res.operation.events[i].CompleteEvent? ==> ActionEnd(wait, Ok(res)) == Returns(Answer(res))
  {
    SettleFirstTerminal(res.operation.events, i);
  }

  // ---------------------------------------------------------------------
  // createVpc
  // ---------------------------------------------------------------------

  /** The insert request: the trimmed project and network resource, with
      the auth client kept as it is. */
  function VpcRequest(svc: Service, p: map<string, Json>): Json {
    Trimmed(Obj(map[
      "project" := svc.projectId,
      "resource" := Obj(map["name" := Get(p, "name"), "autoCreateSubnetworks" := Get(p, "autoCreateSubnetworks"),
                            "description" := Get(p, "description")]),
      "auth" := svc.auth
    ]))
  }

  /** The wait request for the operation an insert returned (not trimmed). */
  function VpcWaitRequest(svc: Service, result: Json): Json {
    Obj(map["project" := svc.projectId,
            "operation" := if result.Obj? then Get(result.fields, "name") else Undef,
            "auth" := svc.auth])
  }

  /** `result.error` is truthy: the record carries an error. */
  predicate CarriesError(result: Json) {
    Property(result, "error").Ok? && Truthy(Property(result, "error").value)
  }

  /** createVpc: the raw insert result without waiting; when waiting, the
      record is thrown whenever it carries an error, before and after the
      wait, and reading `error` of an undefined result throws. */
  method CreateVpc(svc: Service, p: map<string, Json>, wait: Json, inserted: Result<Json, Json>,
                   waited: Result<Json, Json>) returns (outcome: Settlement, calls: seq<Call>)
    ensures 1 <= |calls| <= 2 && calls[0] == InsertNetwork(VpcRequest(svc, p))
    ensures inserted.Err? ==> outcome == Rejected(inserted.error) && |calls| == 1
    ensures inserted.Ok? && !Truthy(wait) ==> outcome == Resolved(inserted.value) && |calls| == 1
    ensures inserted.Ok? && Truthy(wait) && CarriesError(inserted.value) ==>
              outcome == Rejected(inserted.value) && |calls| == 1
    ensures |calls| == 2 <==>
              inserted.Ok? && Truthy(wait) && Property(inserted.value, "error").Ok? && !CarriesError(inserted.value)
    ensures |calls| == 2 ==> calls[1] == WaitGlobalOperation(VpcWaitRequest(svc, inserted.value))
    ensures |calls| == 2 && waited.Err? ==> outcome == Rejected(waited.error)
    ensures |calls| == 2 && waited.Ok? && CarriesError(waited.value) ==> outcome == Rejected(waited.value)
    ensures |calls| == 2 && waited.Ok? && Property(waited.value, "error").Ok? && !CarriesError(waited.value) ==>
              outcome == Resolved(waited.value)
    ensures |calls| == 2 && waited.Ok? && Property(waited.value, "error").Err? ==>
              outcome == Rejected(Property(waited.value, "error").error)
    ensures inserted.Ok? && Truthy(wait) && Property(inserted.value, "error").Err? ==>
              outcome == Rejected(Property(inserted.value, "error").error) && |calls| == 1
    ensures Truthy(wait) && outcome.Resolved? ==>
              |calls| == 2 && waited == Ok(outcome.value) && !CarriesError(outcome.value)
  {
    calls := [InsertNetwork(VpcRequest(svc, p))];
    if inserted.Err? {
      return Rejected(inserted.error), calls;
    }
    var result := inserted.value;
    if !Truthy(wait) {
      return Resolved(result), calls;
    }
    var error := Property(result, "error");
    if error.Err? {
      return Rejected(error.error), calls;
    }
    if Truthy(error.value) {
      return Rejected(result), calls;
    }
    calls := calls + [WaitGlobalOperation(VpcWaitRequest(svc, result))];
    if waited.Err? {
      return Rejected(waited.error), calls;
    }
    result := waited.value;
    error := Property(result, "error");
    if error.Err? {
      return Rejected(error.error), calls;
    }
    if Truthy(error.value) {
      return Rejected(result), calls;
    }
    outcome := Resolved(result);
  }

  /** The insert request always keeps the auth client, keeps a project id
      given as a string and drops an undefined one, and drops a resource
      with nothing defined in it. */
  lemma {:induction false} VpcRequestEntries(svc: Service, p: map<string, Json>)
    ensures VpcRequest(svc, p).Obj?
    ensures var f := VpcRequest(svc, p).fields;
      "auth" in f && f["auth"] == svc.auth &&
      (svc.projectId.Str? ==> "project" in f && f["project"] == svc.projectId) &&
      (svc.projectId == Undef ==> "project" !in f) &&
      (Get(p, "name") == Undef && Get(p, "autoCreateSubnetworks") == Undef && Get(p, "description") == Undef
       ==> "resource" !in f)
  {
    var resource := Obj(map["name" := Get(p, "name"), "autoCreateSubnetworks" := Get(p, "autoCreateSubnetworks"),
                            "description" := Get(p, "description")]);
    var m := map["project" := svc.projectId, "resource" := resource, "auth" := svc.auth];
    assert "auth" in m && m["auth"] == svc.auth && "project" in m && "resource" in m;
    assert AuthKey == "auth";
    assert "auth" in Prune(Obj(m)).fields;
    PruneKeepsKey(m, "project");
    if Get(p, "name") == Undef && Get(p, "autoCreateSubnetworks") == Undef && Get(p, "description") == Undef {
      PruneOfUndefined(resource.fields);
      PruneDropsEntry(m, "resource", resource);
    }
  }

  /** An object whose every entry is undefined trims to nothing. */
  lemma {:induction false} PruneOfUndefined(m: map<string, Json>)
    requires AuthKey !in m
    requires forall k :: k in m ==> m[k] == Undef
    ensures PruneEntry(Obj(m)) == None
  {
    forall k | k in m ensures k !in Prune(Obj(m)).fields {
      assert PruneEntry(m[k]) == None;
    }
    assert Prune(Obj(m)).fields == map[];
  }

  // ---------------------------------------------------------------------
  // createFw
  // ---------------------------------------------------------------------

  /** The single rule: the protocol (all protocols by default) and ports. */
  function FirewallRule(p: map<string, Json>): Json {
    Arr([Some(Obj(map["IPProtocol" := OrElse(Get(p, "protocol"), Str("all")), "ports" := Get(p, "ports")]))])
  }

  /** The firewall before its rule and range are assigned, trimmed: the
      empty range lists are dropped by trimming. */
  function FirewallBase(svc: Service, p: map<string, Json>): Json {
    Trimmed(Obj(map[
      "network" := Str("projects/" + ToJsString(svc.projectId) + "/global/networks/"
                       + ToJsString(OrElse(Get(p, "networkId"), Str("default")))),
      "destinationRanges" := Arr([]),
      "sourceRanges" := Arr([]),
      "priority" := OrElse(Get(p, "priority"), Num(1000)),
      "direction" := OrElse(Get(p, "direction"), Str("INGRESS"))
    ]))
  }

  /** The key the rule goes to: allowed when no action or "allow" is given. */
  function RuleKey(action: Json): string {
    if !Truthy(action) || action == Str("allow") then "allowed" else "denied"
  }

  /** The key the IP range goes to: source ranges for ingress rules,
      destination ranges otherwise. */
  function RangeKey(direction: Json): string {
    if direction == Str("INGRESS") then "sourceRanges" else "destinationRanges"
  }

  /** createFw: trim the base, then assign the rule and, when given, the
      IP range. */
  method CreateFw(svc: Service, p: map<string, Json>, wait: Json, reply: CallbackArgs)
    returns (outcome: Settlement, calls: seq<Call>)
    ensures |calls| == 1 && calls[0].CreateFirewall? && calls[0].firewall == Get(p, "name")
    ensures calls[0].rule.Obj? && calls[0].rule == Obj(FirewallConfig(svc, p))
    ensures outcome == DefaultGcpCallback(wait, reply)
  {
    var base := FirewallBase(svc, p);
    var config := base.fields;
    config := config[RuleKey(Get(p, "action")) := FirewallRule(p)];
    if Truthy(Get(p, "ipRange")) {
      config := config[RangeKey(Get(config, "direction")) := Get(p, "ipRange")];
    }
    calls := [CreateFirewall(Get(p, "name"), Obj(config))];
    outcome := DefaultGcpCallback(wait, reply);
  }

  /** The firewall createFw sends. */
  function FirewallConfig(svc: Service, p: map<string, Json>): map<string, Json> {
    var withRule := FirewallBase(svc, p).fields[RuleKey(Get(p, "action")) := FirewallRule(p)];
    if Truthy(Get(p, "ipRange")) then withRule[RangeKey(Get(withRule, "direction")) := Get(p, "ipRange")]
    else withRule
  }

  /** The trimmed base: the network path, the priority (1000 by default) and
      the direction (ingress by default), with no range lists. */
  lemma {:induction false} FirewallBaseEntries(svc: Service, p: map<string, Json>)
    requires !IsObject(Get(p, "priority")) && !IsObject(Get(p, "direction"))
    ensures FirewallBase(svc, p).Obj?
    ensures var f := FirewallBase(svc, p).fields;
      "network" in f && f["network"] == Str("projects/" + ToJsString(svc.projectId) + "/global/networks/"
                                             + ToJsString(OrElse(Get(p, "networkId"), Str("default")))) &&
      "priority" in f && f["priority"] == OrElse(Get(p, "priority"), Num(1000)) &&
      "direction" in f && f["direction"] == OrElse(Get(p, "direction"), Str("INGRESS")) &&
      "sourceRanges" !in f && "destinationRanges" !in f && "allowed" !in f && "denied" !in f
  {
    var m := map[
      "network" := Str("projects/" + ToJsString(svc.projectId) + "/global/networks/"
                       + ToJsString(OrElse(Get(p, "networkId"), Str("default")))),
      "destinationRanges" := Arr([]),
      "sourceRanges" := Arr([]),
      "priority" := OrElse(Get(p, "priority"), Num(1000)),
      "direction" := OrElse(Get(p, "direction"), Str("INGRESS"))
    ];
    assert "network" in m && "priority" in m && "direction" in m && "sourceRanges" in m && "destinationRanges" in m;
    PruneKeepsEntry(m, "network", m["network"]);
    PruneKeepsEntry(m, "priority", m["priority"]);
    PruneKeepsEntry(m, "direction", m["direction"]);
    PruneDropsEntry(m, "sourceRanges", Arr([]));
    PruneDropsEntry(m, "destinationRanges", Arr([]));
  }

  /** The rule lands under exactly one of allowed and denied: allowed when
      no action or "allow" is given. */
  lemma {:induction false} FirewallRuleRouting(svc: Service, p: map<string, Json>)
    requires !IsObject(Get(p, "priority")) && !IsObject(Get(p, "direction"))
    ensures var c := FirewallConfig(svc, p);
      var allow := !Truthy(Get(p, "action")) || Get(p, "action") == Str("allow");
      ("allowed" in c <==> allow) && ("denied" in c <==> !allow) &&
      (allow ==> c["allowed"] == FirewallRule(p)) && (!allow ==> c["denied"] == FirewallRule(p))
  {
    FirewallBaseEntries(svc, p);
  }

  /** The IP range fills the source ranges of an ingress rule and the
      destination ranges of any other; without one there are no ranges. */
  lemma {:induction false} FirewallRanges(svc: Service, p: map<string, Json>)
    requires !IsObject(Get(p, "priority")) && !IsObject(Get(p, "direction"))
    ensures var c := FirewallConfig(svc, p);
      var ingress := OrElse(Get(p, "direction"), Str("INGRESS")) == Str("INGRESS");
      (!Truthy(Get(p, "ipRange")) ==> "sourceRanges" !in c && "destinationRanges" !in c) &&
      (Truthy(Get(p, "ipRange")) && ingress ==>
         "sourceRanges" in c && c["sourceRanges"] == Get(p, "ipRange") && "destinationRanges" !in c) &&
      (Truthy(Get(p, "ipRange")) && !ingress ==>
         "destinationRanges" in c && c["destinationRanges"] == Get(p, "ipRange") && "sourceRanges" !in c)
  {
    FirewallBaseEntries(svc, p);
  }

  // ---------------------------------------------------------------------
  // createRoute
  // ---------------------------------------------------------------------

  /** The route insert request: priority "0" by default, the network given
      by its full path. */
  function RouteRequest(svc: Service, p: map<string, Json>): Json {
    Trimmed(Obj(map[
      "project" := svc.projectId,
      "resource" := Obj(map[
        "name" := Get(p, "name"),
        "nextHopIp" := Get(p, "nextHopIp"),
        "destRange" := Get(p, "destRange"),
        "tags" := Get(p, "tags"),
        "network" := Str("projects/" + ToJsString(svc.projectId) + "/global/networks/" + ToJsString(Get(p, "networkId"))),
        "priority" := OrElse(Get(p, "priority"), Str("0"))
      ]),
      "auth" := svc.auth
    ]))
  }

  /** createRoute: one insert; it resolves with the data of the answer. */
  function CreateRoute(svc: Service, p: map<string, Json>, reply: Result<Json, Json>): (r: Run)
    ensures r.calls == [InsertRoute(RouteRequest(svc, p))]
    ensures reply.Ok? ==> r.outcome == Resolved(reply.value)
    ensures reply.Err? ==> r.outcome == Rejected(reply.error)
  {
    match reply
    case Err(e) => Run(Rejected(e), [InsertRoute(RouteRequest(svc, p))])
    case Ok(data) => Run(Resolved(data), [InsertRoute(RouteRequest(svc, p))])
  }

  /** The route always names its network by full path and has a priority,
      "0" unless one is given. */
  lemma {:induction false} RouteDefaults(svc: Service, p: map<string, Json>)
    requires !IsObject(Get(p, "priority"))
    ensures RouteRequest(svc, p).Obj? && "resource" in RouteRequest(svc, p).fields
    ensures var res := RouteRequest(svc, p).fields["resource"];
      res.Obj? &&
      "network" in res.fields &&
      res.fields["network"] == Str("projects/" + ToJsString(svc.projectId) + "/global/networks/" + ToJsString(Get(p, "networkId"))) &&
      "priority" in res.fields && res.fields["priority"] == OrElse(Get(p, "priority"), Str("0"))
  {
    var r := map[
      "name" := Get(p, "name"),
      "nextHopIp" := Get(p, "nextHopIp"),
      "destRange" := Get(p, "destRange"),
      "tags" := Get(p, "tags"),
      "network" := Str("projects/" + ToJsString(svc.projectId) + "/global/networks/" + ToJsString(Get(p, "networkId"))),
      "priority" := OrElse(Get(p, "priority"), Str("0"))
    ];
    assert "network" in r && "priority" in r;
    PruneKeepsKey(r, "network");
    PruneKeepsKey(r, "priority");
    var m := map["project" := svc.projectId, "resource" := Obj(r), "auth" := svc.auth];
    assert "resource" in m && m["resource"] == Obj(r);
    var pr := Prune(Obj(r));
    assert "network" in pr.fields;
    assert PruneEntry(Obj(r)) == Some(pr);
    PruneTrimsEntry(m, "resource", Obj(r), pr);
  }
}
