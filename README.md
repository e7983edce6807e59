# Kaholo GKE plugin core, modelled in Dafny

This project models the logic of the Kaholo plugin for Google Kubernetes
Engine and Google Compute Engine. The plugin turns loose action parameters
into provider requests. The model covers:

- **Request trimming.** `removeUndefinedAndEmpty` deletes `undefined` values,
  empty arrays and emptied objects in place. It skips `auth` keys. The older
  copy in `src/helpers.js` throws on `null`.
- **Small helpers.** `prependHttps`, `validateZoneParameter`, `parseFields`,
  and the event rule of `handleOperation` and `defaultGcpCallback`.
- **Loose-input parsers** of `parsers.js`.
- **The Kubernetes Engine service.** Resource paths, the node-pool and
  cluster specifications, the create/delete/describe entry points with their
  guards, and the `waitForOperation` polling loop.
- **The Compute Engine service.** The `launchVm` configuration, the tag list
  it extends in place, the external-address splice and its one-step
  rollback. Also `vmAction` dispatch, `createVpc`, the `createFw` defaults
  and routing, and the `createRoute` defaults.
- **Autocomplete.** Parameter mapping, item parsing, the word filter with its
  rank order and its limit of 10, the `listAuto` paging loop with its
  exact-match exit, and the built-in custom machine types.
- **CLI output scraping.** `extractTagValue` and `extractSecret`.

JavaScript values are the datatype `Values.Json`: `undefined`, `null`,
booleans, integers, strings, arrays with holes (`None`) and objects. A thrown
error is the `Err` of a `Result`. Provider and network calls are not
executed. Each entry point records the requests it would send in a trace
(`calls`). What each request answers is a parameter. Where the source loops
over provider replies, the replies are a finite sequence. Running out of
replies gives a "still waiting" outcome: `Settlement.Unsettled` for the
operation poller and the event callbacks, `Listing.Unfinished` for the
autocomplete paging.

Modules: `Wrappers` (Option, Result), `Strings` (the string built-ins the
source uses), `Values`, `Sorting`, `Helpers`, `LegacyHelpers`, `Parsers`,
`Gke`, `Compute`, `Autocomplete`, `GcloudCli`.

## Model

| member | source | states |
|---|---|---|
| Helpers.RemoveUndefinedAndEmpty | helpers.js:1-16 | The result is `{}` for a falsy argument. Otherwise it is the argument trimmed recursively: the reference definition `Trimmed`. |
| Helpers.PruneObject | helpers.js:5-15 | The loop over the object's entry snapshot ends with exactly the trimmed object. `auth` is skipped. Undefined values, empty arrays and entries left key-less after recursion are deleted. |
| Helpers.PruneArray | helpers.js:6-13 | Trimming an array deletes indices: they become holes, the length is unchanged, and the result is the trimmed array. |
| Helpers.PruneValue | helpers.js:10-13 | Recursion into a value gives its trimmed form; scalars are returned as they are. |
| Helpers.PruneIsPruned | helpers.js:7-13 | After trimming, outside `auth` and at every depth, no key holds undefined, an empty array or a key-less object or array. |
| Helpers.PruneDeletesOnly | helpers.js:6-14 | Trimming only deletes. No key is added and kept scalars (null, false, 0, "" included) are unchanged. Arrays keep their length. Every `auth` entry is kept verbatim. |
| Helpers.PruneKeepsKey | helpers.js:7-13 | A non-`auth` key survives iff its value is not undefined and, if it is an object or array, still has a key after trimming. A kept scalar is unchanged; a kept object is trimmed. |
| Helpers.PruneOfPruned | helpers.js:1-16 | A tree with nothing left to trim is returned unchanged. |
| Helpers.TrimmedIdempotent | helpers.js:1-16 | Trimming twice gives the same result as trimming once. |
| Helpers.TrimmedProperties | helpers.js:2-4 | A falsy argument gives `{}`. Any other argument gives a fully trimmed tree that only deletes from the argument. |
| Helpers.PruneUpdate | helpers.js:8 | Setting a non-`auth` key to a scalar before trimming is the same as setting it after trimming; setting it to undefined deletes it. |
| Helpers.PrependHttps | helpers.js:18-20 | The result always starts with `https://`. An input that already does is returned unchanged; any other input gets the prefix. |
| Helpers.PrependHttpsIdempotent | helpers.js:18-20 | Prefixing twice gives the same result as prefixing once. |
| Helpers.PrependHttpsOfAddress | helpers.js:18-20 | `10.0.0.1` becomes `https://10.0.0.1`. |
| Helpers.ValidateZoneParameter | helpers.js:76-80 | Throws exactly when the location type is `"Zonal"` and the zone is falsy, with the fixed message. |
| Helpers.StringLeTotalPreorder | helpers.js:69 | The default `sort()` order on strings, by character code, is a total preorder. |
| Helpers.Prefixed | helpers.js:69 | Each field `f` becomes `<prefix>/f`, in the same order. |
| Helpers.ParseFields | helpers.js:66-70 | No array gives undefined. Otherwise the caller's array is sorted in place, as a permutation of its old contents. The result is the sorted fields, each prefixed, joined by `", "`. An omitted prefix is `"items"`. The copy in src/helpers.js:55-59 is identical. |
| Helpers.FieldMaskOfOne | helpers.js:69 | One field gives `<prefix>/<field>` with no separator. |
| Helpers.HandleOperation | helpers.js:27-44 | A value that is not an event emitter rejects with the TypeError the `try` block catches: reading `on` of undefined or null, or `operation.on is not a function` for any other value. |
| Helpers.SettleFirstTerminal | helpers.js:30-39 | The promise settles with the first `error` (reject) or `complete` (resolve) event, whatever comes before or after. The copy in src/helpers.js:19-36 follows the same rule. |
| Helpers.SettleNoTerminal | helpers.js:34-36 | A run of `running` events alone leaves the promise pending. |
| Helpers.SettleOnce | helpers.js:28-43 | Once settled, later events change nothing. |
| Helpers.SettleIgnoresRunning | helpers.js:34-36 | Removing every `running` event does not change the outcome. |
| Helpers.DefaultGcpCallback | helpers.js:54-65 | A truthy `err` always rejects with it. Without wait, it resolves with `apiResponse`. With wait, it settles as `handleOperation` on the operation. The copy in src/helpers.js:45-54 follows the same three rules. |
| Helpers.DefaultGcpCallbackWaits | helpers.js:61-64 | With wait and no error, the callback settles as the operation's first terminal event. |
| LegacyHelpers.LegacyRemoveUndefinedAndEmpty | src/helpers.js:1-12 | The older helper's result is the reference `LegacyPrune`: it throws, or it returns the trimmed tree. |
| LegacyHelpers.LegacyPruneObject | src/helpers.js:2-11 | The loop over an object's entries ends with the legacy result: the first failing entry outside `auth` throws, otherwise the trimmed object. |
| LegacyHelpers.LegacyPruneOfSettled | src/helpers.js:2-11 | Once every entry is handled without error, the object built is the legacy result. |
| LegacyHelpers.LegacyPruneArray | src/helpers.js:2-10 | On an array the older helper deletes indices, leaving holes, or throws if an element fails. |
| LegacyHelpers.LegacyPruneValue | src/helpers.js:6-9 | Recursion descends into every `typeof "object"` value, null included. |
| LegacyHelpers.LegacyPruneMatches | src/helpers.js:2-10 | The older helper throws `Cannot convert undefined or null to object` exactly when the argument is null/undefined or holds a null outside `auth`. Otherwise its result equals the current helper's. |
| LegacyHelpers.LegacyDiffersOnFalsy | src/helpers.js:1-2 | On falsy input the helpers differ: the current one gives `{}`. The older one throws for null and undefined and returns false, 0 and "" unchanged. |
| LegacyHelpers.LegacyAgreesWithCurrent | src/helpers.js:1-12 | On a truthy tree without a reachable null, both helpers give the same trimmed tree. |
| Parsers.Boolean | parsers.js:17-22 | False exactly for falsy values and the string `"false"`; true for everything else. |
| Parsers.BooleanIsCaseSensitive | parsers.js:18 | `"False"` and `"0"` are true, because only the exact string `"false"` is false. |
| Parsers.Text | parsers.js:23-28 | Falsy gives undefined. A truthy string gives lines that contain no newline and join back to the string. Any other truthy value throws `value.split is not a function`. |
| Parsers.Number | parsers.js:29-38 | Falsy (0 and "" included) gives undefined. Otherwise it is base-10 `parseInt` of the value's text, and it throws `Value … is not a valid number` when nothing parses. |
| Parsers.NumberOfNumber | parsers.js:29-38 | A nonzero number and the decimal text of any integer both parse back to that integer; 0 gives undefined. |
| Parsers.NumberStopsAtNonDigit | parsers.js:33 | `"12abc"` gives 12, because parsing stops at the first non-digit. |
| Parsers.NumberWithoutDigits | parsers.js:34-36 | `"abc"` throws the not-a-number error. |
| Parsers.String | parsers.js:118-126 | Falsy gives undefined. A string is returned trimmed. Any other value throws `Value … is not a valid string`. |
| Parsers.StringOfBlank | parsers.js:122-123 | A blank string is truthy, so it is trimmed to `""` rather than giving undefined. |
| Parsers.Array | parsers.js:3-14 | Falsy gives `[]`. An array is returned unchanged. A string gives its trimmed non-empty lines. Anything else throws `Unsupported array format`. |
| Parsers.Lines | parsers.js:11 | Every kept line is non-empty and trimmed. |
| Parsers.LinesOfClean | parsers.js:11 | Lines that are already trimmed and non-empty are kept as they are, in order. |
| Parsers.ArrayOfJoinedLines | parsers.js:10-12 | Joining clean single-line strings with newlines and parsing the result gives back exactly those strings. |
| Parsers.Tags | parsers.js:60-80 | The line-by-line loop builds the reference `TagsOf`: undefined for falsy, the tags object for a string, and a throw for any other value. |
| Parsers.TagEntrySplitsAtFirstEquals | parsers.js:67-72 | A line `key=rest` gives `key` and everything after the first `=`; later `=` stay in the value. |
| Parsers.TagEntryKeyOnly | parsers.js:73-75 | A line without `=` maps its key to `""`. |
| Parsers.TagEntryEmptyKey | parsers.js:68-70 | A blank line, or one starting with `=`, throws `bad labels/tags format`. |
| Parsers.TagsFromFails | parsers.js:66-76 | Building the object throws iff some line has an empty key. |
| Parsers.TagsTrailingNewline | parsers.js:66-70 | A string ending in a newline always throws, because its last line is empty. |
| Parsers.TagsFromKeys | parsers.js:66-77 | Every line's key is in the result, and keys already present are kept. |
| Parsers.TagsFromLastWins | parsers.js:71-75 | A key maps to the value of the last line that names it. |
| Parsers.TagsFromUntouched | parsers.js:66-77 | A key that no line names keeps its earlier value. |
| Parsers.TagsAcceptKeyOnlyLine | parsers.js:68 | As written, `tags("zone", false)` gives `{ zone: "" }`, where the intended guard throws. |
| Parsers.IntendedTagsOf | parsers.js:68 | With the guard corrected, a truthy `letKeyOnly` changes nothing. Without it, a successful result has no key-only line, and any other success equals the written `tags`. |
| Parsers.IntendedTagsRejectsKeyOnly | parsers.js:68 | With the corrected guard and no `letKeyOnly`, any key-only line throws `bad labels/tags format`. |
| Parsers.JsonString | parsers.js:81-96 | Falsy gives undefined, and an object or array is returned as is. A string is parsed; a parse failure throws `Invalid JSON! <message>`. Any other value throws `Value … is not an object`. |
| Parsers.ObjectOrFromPath | parsers.js:97-117 | Falsy gives undefined. A string must name an existing file, else it throws `Couldn't find file`. The file must hold valid JSON, else it throws `doesn't contain a valid JSON`. An object is returned as is. Any other value throws. |
| Parsers.Autocomplete | parsers.js:39-47 | Falsy gives undefined. An object gives its `id`, or its `value` when `getVal`, falling back to the object itself. Scalars and arrays pass through. |
| Parsers.AutocompleteOrArray | parsers.js:48-59 | Falsy gives `[]`. An array is unchanged. An object gives `[id or object]`. A scalar gives `[value]`. |
| Gke.LocationAsParent | gke.service.js:229-231 | The path is `projects/<project>/zones/<zone>` when the zone is truthy, else `projects/<project>/locations/<region>`. |
| Gke.ClusterAsParent | gke.service.js:225-227 | The cluster path is the location path followed by `/clusters/<id>`. |
| Gke.LocationAsParentParts | gke.service.js:229-231 | When no part contains `/`, splitting the path at `/` recovers exactly the four segments, so distinct inputs give distinct paths. |
| Gke.ClusterAsParentParts | gke.service.js:225-227 | The cluster path splits into the location segments followed by `clusters` and the id. |
| Gke.ResolvedMachineType | gke.service.js:77-80 | Without a custom CPU count or memory, the machine type is used as given. |
| Gke.CustomMachineType | gke.service.js:77-80 | With a custom CPU count or memory, the type becomes `<machineType>-<cpu>-<mem>`. |
| Gke.CustomMachineTypeExample | gke.service.js:77-80 | `n2-custom` with 4 CPUs and 16384 MB gives `n2-custom-4-16384`. |
| Gke.CustomMachineTypeCpuOnly | gke.service.js:78-79 | A CPU count without memory gives `<type>-<cpu>-undefined`. |
| Gke.ParseNodePool | gke.service.js:70-130 | Throws `Didn't provide one of the required parameters.` iff pool name, node count, resolved machine type, disk type or disk size is falsy. Otherwise it returns a trimmed object. |
| Gke.ParseNodePoolFields | gke.service.js:84-129 | On success the node pool is the trimmed specification. |
| Gke.ConfigKept | gke.service.js:96-127 | The pool always has a `config` entry, which is the trimmed node configuration. |
| Gke.NodeConfigManagement | gke.service.js:118-121 | `autoUpgrade` and `autoRepair` are always true. |
| Gke.NodeConfigScopes | gke.service.js:109-117 | The OAuth scopes are `cloud-platform` for `"full"` and the fixed six for any other value. |
| Gke.SpreadIndexKeys | gke.service.js:98-101 | Spreading a string or an array as the metadata gives one key per character or present element, its decimal index; other primitives give no key. |
| Gke.NodeConfigMetadata | gke.service.js:98-101 | The metadata always has `"disable-legacy-endpoints": "true"`, which overrides the user's value. |
| Gke.NodeConfigMachineType | gke.service.js:123 | The machine type is stored under the key `resolvedMachineType`, and there is no `machineType` key. |
| Gke.NodePoolMaxPods | gke.service.js:92-94 | `maxPodsConstraint.maxPodsPerNode` is always present and is `String(maxPodsPerNode \|\| 110)`. |
| Gke.MaxPodsExamples | gke.service.js:93 | A missing value gives `"110"`; a nonzero number `n` gives its decimal text. |
| Gke.NodePoolAutoscaling | gke.service.js:87-91 | `autoscaling` is present iff it is enabled, and then `enabled` is true. |
| Gke.BasicClusterJson | gke.service.js:45-62 | A missing name, location type or version, or a missing zone (Zonal) or region (otherwise), throws the cluster message. Then a failing default node pool throws the pool message. A success is an object. |
| Gke.DefaultPoolName | gke.service.js:58-61 | The default pool is named `default-pool` unless the parameters name it; every parameter overrides the default. |
| Gke.BasicClusterFields | gke.service.js:49-62 | On success the cluster is the trimmed specification around the parsed default node pool. |
| Gke.BasicClusterLocation | gke.service.js:52-53 | A Zonal cluster gets `location = zone` and `locations = [zone]`; otherwise `location = region` and there is no `locations`. |
| Gke.BasicClusterReleaseChannel | gke.service.js:54-56 | `releaseChannel` is omitted for `"none"` and is `{ channel }` for any other truthy scalar. |
| Gke.BasicClusterPool | gke.service.js:58-61 | `nodePools` is the one-element list holding the node pool. |
| Gke.ClusterJson | gke.service.js:50-62 | The cluster request body is the trimmed specification. |
| Gke.CreateBasicCluster | gke.service.js:40-68 | Invalid parameters throw before any provider call. Valid ones hand the built cluster to `createClusterJson` together with the location and wait parameters. |
| Gke.CreateBasicClusterRequest | gke.service.js:49-67 | The first provider call creates the built cluster under the location path, with the zone only when Zonal. |
| Gke.ClusterArgsRequest | gke.service.js:136-141 | Given a cluster body, the first call creates it under the location path, with the zone only when Zonal. |
| Gke.CreateClusterJson | gke.service.js:132-147 | A missing cluster body throws before any call. Otherwise the first call is `createCluster` with the computed parent. |
| Gke.Submit | gke.service.js:170-176 | The provider call comes first. Its rejection propagates. Without wait, the first element of the reply is returned. |
| Gke.SubmitWaits | gke.service.js:142-146 | With wait, the outcome is the poller's. The trace is the request followed by one operation fetch per poll, each carrying the same zone. |
| Gke.CreateNodePoolJson | gke.service.js:162-177 | A missing cluster throws, then a missing node-pool body throws, both before any call. Otherwise `createNodePool` goes to the cluster path. |
| Gke.CreateNodePoolFrom | gke.service.js:149-160 | The node pool is parsed before the cluster guard, so missing pool parameters throw first, then a missing cluster. Both happen before any call. Otherwise the first call creates the parsed pool under the cluster's path, in the given zone. |
| Gke.DeleteClusterRun | gke.service.js:179-193 | A missing cluster throws before any call. Otherwise the first call deletes the cluster under the location path. |
| Gke.DeleteNodePoolRun | gke.service.js:195-210 | A missing cluster or node pool throws before any call. Otherwise the first call deletes the pool under the cluster path. |
| Gke.DescribeCluster | gke.service.js:212-223 | A missing cluster throws before any call. Otherwise exactly one `getCluster` call is made, naming the cluster by its full path. A rejected call rejects with its error, and otherwise the reply's first element is returned. |
| Gke.Finish | gke.service.js:294-295 | A final operation is returned iff its status is `DONE` with no error; otherwise the operation itself is thrown. |
| Gke.Poll | gke.service.js:277-293 | The loop never fetches more often than there are replies. |
| Gke.WaitForOperation | gke.service.js:268-296 | The `while` loop computes the reference `Waited`: the same outcome, and one fetch of `<location path>/operations/<name>` per iteration. |
| Gke.PollStep | gke.service.js:277-290 | A pending operation fetches once. A fetch error aborts with `Couldn't get operation: …` and the last operation. A successful fetch continues from the fetched operation. |
| Gke.PollResume | gke.service.js:277-290 | The loop invariant is kept by one successful fetch of a pending operation. |
| Gke.PollFinalNoFetch | gke.service.js:277 | An operation that is already `DONE` or `ABORTING` is settled without any fetch. |
| Gke.PollResolvesDone | gke.service.js:294 | Whatever the replies, a resolved result is `DONE` and carries no error. |
| Gke.PollFirstFinal | gke.service.js:277-295 | The poller makes k+1 fetches and settles on the first final operation, the (k+1)-th reply. |
| Gke.FetchFailure | gke.service.js:288-290 | A failed fetch throws `Couldn't get operation: ` with the rejection's `message` and the last operation. A null or undefined rejection throws the TypeError of reading its `message` instead. |
| Gke.PollFetchError | gke.service.js:288-290 | The first fetch error aborts, with the last operation seen, after k+1 fetches. |
| Gke.PollExamples | gke.service.js:277-295 | PENDING then DONE resolves after two fetches; PENDING then ABORTING rejects after one. |
| Compute.TagList.constructor | gcce.service.js:96 | A tag list holds the items given. |
| Compute.TagList.Push | gcce.service.js:97-98 | Pushing appends exactly one tag at the end. |
| Compute.HttpTags | gcce.service.js:97-98 | `http-server` is added iff `allowHttp`, and `https-server` iff `allowHttps`. |
| Compute.ResolveTags | gcce.service.js:96-98 | The caller's tag list is extended in place. Without one, a new list holds only the added tags. |
| Compute.VmMachineType | gcce.service.js:105 | A machine type becomes `projects/<p>/zones/<zone>/machineTypes/<type>`; without one the key is omitted. |
| Compute.VmScheduling | gcce.service.js:109-113 | Preemptible gives `automaticRestart` false and `TERMINATE`; otherwise true and `MIGRATE`. `preemptible` defaults to false. |
| Compute.VmTags | gcce.service.js:117 | `tags` is present iff the tag list is non-empty, and then holds exactly the list. |
| Compute.VmServiceAccount | gcce.service.js:99-103 | `serviceAccounts` is omitted without a service account. Otherwise, for a string `saAccessScopes`, the scopes are the fixed six for `"default"`, `cloud-platform` for `"full"`, and the string verbatim otherwise. |
| Compute.VmServiceAccountNoScopes | gcce.service.js:129-139 | Without `saAccessScopes` the account is sent with its email only: the undefined scopes are trimmed away. |
| Compute.VmNoInterfaces | gcce.service.js:114-116 | Without a network or interfaces, `networkInterfaces` is trimmed away. |
| Compute.VmBootDisk | gcce.service.js:118-128 | There is exactly one disk: boot, `READ_WRITE`, `PERSISTENT`, with `autoDelete` defaulting to false. |
| Compute.SetProperty | gcce.service.js:145-149 | Assigning a property to an object sets that key. On a primitive it throws. |
| Compute.SpliceNatIp | gcce.service.js:142-151 | Only `networkInterfaces` changes; every other configuration key keeps its value. |
| Compute.SpliceIntoNoInterfaces | gcce.service.js:144-145 | Without interfaces, one interface with one access config holding the IP is created. |
| Compute.SpliceIntoBareInterface | gcce.service.js:146-147 | An interface without access configs gets one holding the IP. |
| Compute.SpliceIntoAccessConfig | gcce.service.js:148-149 | An existing first access config gets its `natIP` replaced. |
| Compute.SpliceIntoMissingInterface | gcce.service.js:146 | A hole, null or undefined first interface makes the splice throw. |
| Compute.AddressName | gcce.service.js:61 | The address name is `<instance>-ext-addr`. |
| Compute.AddressFailure | gcce.service.js:68-70 | A failure becomes `Couldn't create external address with the name: <name>` followed by the cause. |
| Compute.AutoCreateExtIp | gcce.service.js:60-71 | The first call creates the address `<name>-ext-addr`; a second call, if any, reads that address. A settled creation always reads it, and an unsettled one leaves the call pending. Once the metadata and its `[0].address` can be read, the call resolves with that address. |
| Compute.AutoCreateExtIpFailure | gcce.service.js:68-70 | Every rejection is the wrapped address failure. |
| Compute.DeleteRequestNamesAddress | gcce.service.js:73-82 | The delete request names the same `<name>-ext-addr` and carries the auth client. |
| Compute.LaunchVm | gcce.service.js:90-160 | The caller's tag array gets the HTTP tags and is then trimmed in place with the configuration that holds it. The outcome and calls are the reference `Launched` on the extended array. |
| Compute.VmTagsShareCallerArray | gcce.service.js:104-117 | The configuration's `tags.items` is the caller's array as launchVm leaves it. The entry is present exactly when some tag survives trimming. |
| Compute.LaunchWithoutAddress | gcce.service.js:155-158 | Without `autoCreateStaticIP`, exactly one `createVM` with the trimmed configuration is made, and it settles as the default callback. |
| Compute.LaunchReleasesAddress | gcce.service.js:142-158 | With `autoCreateStaticIP`, a failed VM creation triggers exactly one delete of the allocated `<name>-ext-addr`, then rejects with the original error. |
| Compute.LaunchKeepsAddress | gcce.service.js:155-158 | If the VM creation does not fail, no address is deleted. |
| Compute.LaunchStopsWithoutAddress | gcce.service.js:142-143 | If the address cannot be allocated, the launch fails with that error, and no VM is created or address deleted. |
| Compute.GetIp | gcce.service.js:195-199 | A returned IP is always truthy. A falsy `networkInterfaces`, `accessConfigs` or `natIP` along the path throws `No external IP found`. Any other error is the one reading the path throws. |
| Compute.GetIpReadsPath | gcce.service.js:195-199 | The IP read is `networkInterfaces[0].accessConfigs[0].natIP` whenever that path holds a truthy value. |
| Compute.GetIpOfSpliced | gcce.service.js:142-151 | After the splice into a configuration without interfaces, the IP read back is the allocated one. |
| Compute.VmAction | gcce.service.js:173-206 | `Stop`, `Restart` and `Start` make one call. `Delete` is stop then delete. `Get` returns the VM without a call. `Get-IP` reads the metadata or throws `No external IP found`. Any other action throws before any call. |
| Compute.ActionWithoutWait | gcce.service.js:204-205 | Without wait, the action returns `res[1] \|\| res`. |
| Compute.ActionWaitsForOperation | gcce.service.js:204-205 | With wait, an error event on `res[0]` throws; otherwise `res[1] \|\| res` is returned. |
| Compute.CreateVpc | gcce.service.js:209-230 | The insert comes first. Without wait, its raw result is returned. With wait, a result carrying an error is thrown before or after waiting, and reading `error` of an undefined or null result throws that TypeError. A waited record without an error is what the call resolves with. |
| Compute.VpcRequestEntries | gcce.service.js:211-219 | The trimmed request keeps `auth`, keeps the project only when set, and drops a resource with no fields. |
| Compute.CreateFw | gcce.service.js:259-280 | Exactly one create call is made, carrying the computed configuration, and it settles as the default callback. |
| Compute.FirewallBaseEntries | gcce.service.js:268-274 | The network defaults to `default`, priority to 1000 and direction to `INGRESS`; the empty range lists are trimmed away. |
| Compute.FirewallRuleRouting | gcce.service.js:264-275 | The rule goes to `allowed` iff the action is absent or `"allow"`, and to `denied` otherwise. |
| Compute.FirewallRanges | gcce.service.js:276 | An `ipRange` fills `sourceRanges` for `INGRESS` and `destinationRanges` otherwise; without one, neither is present. |
| Compute.CreateRoute | gcce.service.js:282-298 | Exactly one insert of the trimmed request is made. The call resolves with the insert's data, or rejects with its error. |
| Compute.RouteDefaults | gcce.service.js:285-296 | The route's network is `projects/<p>/global/networks/<id>` and its priority defaults to `"0"`. |
| Autocomplete.ParamValue | autocomplete.js:11 | A falsy value maps to undefined; a non-empty string passes through. |
| Autocomplete.ReadAutoParam | autocomplete.js:10-11 | Reading `name` of an undefined or null entry throws; an object gives its `name` and `value`; other entries have neither. |
| Autocomplete.ReadEntries | autocomplete.js:10-12 | `forEach` skips holes and throws exactly when some entry is undefined or null. |
| Autocomplete.ReadAutoParams | autocomplete.js:10 | A list that is not an array throws the TypeError of calling `forEach`. |
| Autocomplete.ReadEntriesOfEntries | autocomplete.js:10-12 | Reading `{name, value}` objects gives the entries back, in order. |
| Autocomplete.MapAutoParams | autocomplete.js:8-14 | The `forEach` loop builds the reference name-to-value map. |
| Autocomplete.AutoParamsKeys | autocomplete.js:8-14 | The keys are exactly the parameters' names. |
| Autocomplete.AutoParamsLastWins | autocomplete.js:10-12 | A name maps to the value of its last occurrence. |
| Autocomplete.GetAutoResult | autocomplete.js:24-29 | `id` falls back to `value` and `value` falls back to `id`. Each is truthy iff either input is. |
| Autocomplete.ResolvedFields | autocomplete.js:51-53 | The fields default to `["id", "name"]`. |
| Autocomplete.ParseItem | autocomplete.js:31-34 | An element reads its id and value fields, or its id alone for one field. Null or undefined throws. |
| Autocomplete.ParseAll | autocomplete.js:20 | Mapping keeps length and holes and parses each element. It throws iff some element cannot be read. |
| Autocomplete.QueryWords | autocomplete.js:39 | The words are the query split at `.` and space, each lowercased. |
| Autocomplete.Matching | autocomplete.js:40-42 | It throws iff some item's value is not a string. Otherwise every kept item contains every word, every matching item is kept, and nothing is added. |
| Autocomplete.MatchingCounts | autocomplete.js:40-42 | Each matching entry is kept exactly as many times as it occurs. |
| Autocomplete.MatchingIsKept | autocomplete.js:40-42 | When it does not throw, the filter returns exactly the matching entries, in input order. |
| Autocomplete.KeptAppend | autocomplete.js:40-42 | Filtering distributes over concatenation, so kept entries keep their relative order. |
| Autocomplete.ByRankTotal | autocomplete.js:43-45 | Ordering by the position of the first word is a total preorder. |
| Autocomplete.Count | autocomplete.js:47 | At most 10 items are taken: `min(n, 10)`. |
| Autocomplete.FilteredItems | autocomplete.js:36-48 | At most 10 items are returned. Without a query they are the first `min(10, n)` in order. With a query it throws iff some item has a non-string value. |
| Autocomplete.FilteredFromInput | autocomplete.js:36-48 | The items returned are drawn from the input, each at most as often as it occurs there. |
| Autocomplete.FilteredMatch | autocomplete.js:38-42 | With a query, every returned item's lowercased value contains every query word. |
| Autocomplete.FilteredSorted | autocomplete.js:43-45 | With a query, results are in ascending order of the first word's position in the value. |
| Autocomplete.FilteredKeepsBest | autocomplete.js:43-47 | A matching item is left out only when 10 items ranked at least as well are returned. |
| Autocomplete.ItemList.constructor | autocomplete.js:20 | The list holds the items given. |
| Autocomplete.FilterItems | autocomplete.js:36-48 | The result is the filtered list. Without a query the returned items are spliced out of the caller's array; with a query the caller's array is left as it was. |
| Autocomplete.HandledResult | autocomplete.js:19-22 | A non-array page throws. An array page is parsed, then filtered. |
| Autocomplete.HandleResult | autocomplete.js:19-22 | Parsing into a new list and filtering it gives the handled result. |
| Autocomplete.LowerText | autocomplete.js:41 | Lowercasing succeeds iff the value is a string. |
| Autocomplete.ExactMatch | autocomplete.js:75-78 | A match found is a gathered item whose value or id equals the query, ignoring case. None found means every item is present and none matches. |
| Autocomplete.ExactMatchIsFirst | autocomplete.js:75-78 | The match found is the first such item: it sits at a position before which every item is present and does not match. |
| Autocomplete.PageList | autocomplete.js:70-71 | Reading a page's items throws iff the page is null or undefined. |
| Autocomplete.PageFound | autocomplete.js:70-71 | A page that gives items came from a successful call. |
| Autocomplete.PageFoundMatches | autocomplete.js:71 | With a query, every item a page contributes matches the query. |
| Autocomplete.PageStep | autocomplete.js:70-80 | The loop continues only with paging on, a non-empty query, a next-page token, fewer than 10 items and no exact match. |
| Autocomplete.PageOnce | autocomplete.js:69-80 | One iteration of the loop body computes the reference `PageStep`. |
| Autocomplete.PageStopsWithAll | autocomplete.js:72-74 | When any stop condition holds, all gathered items are returned. |
| Autocomplete.PageStopsAtExactMatch | autocomplete.js:75-79 | Otherwise an exact match is returned alone. |
| Autocomplete.PageStepMatches | autocomplete.js:70-80 | One iteration keeps the invariant that every gathered item matches the query. |
| Autocomplete.Pages | autocomplete.js:68-81 | Each page is requested once, never more often than there are replies. The first request has no token. Running out of replies is the only way to be unfinished. |
| Autocomplete.PagesWithoutPaging | autocomplete.js:72 | Without paging, exactly one page is requested. |
| Autocomplete.PagesMatch | autocomplete.js:68-81 | With a query, everything the loop returns matches it. |
| Autocomplete.PageAdvance | autocomplete.js:68-81 | The loop invariant: one more reply either ends the run or leaves the state the run continues from. |
| Autocomplete.ListPages | autocomplete.js:68-81 | The `while (true)` loop computes the reference `Pages`: the same outcome and the same page tokens. |
| Autocomplete.Requests | autocomplete.js:70 | Each page request carries the parameters, the fields and that page's token. |
| Autocomplete.QueryText | autocomplete.js:58 | The query is `(query \|\| "").trim()`: trimmed for a string, `""` for a falsy value. |
| Autocomplete.Wrapped | autocomplete.js:82-84 | A failure is rethrown as `Problem with '<listFunc>': <message>`. |
| Autocomplete.ListAuto | autocomplete.js:50-86 | The lister computes its reference run: trimmed query, client, page loop and wrapped errors. |
| Autocomplete.ListAutoRunOfQuery | autocomplete.js:57-81 | With a readable query and a client, listing is the page loop with `query` set in the parameters. |
| Autocomplete.ListWithClient | autocomplete.js:60-81 | With a client, the loop runs with `query` added to the mapped parameters. |
| Autocomplete.ListAutoOnePage | autocomplete.js:65-74 | A lister without paging makes exactly one request, without a token, whose parameters include the trimmed query. |
| Autocomplete.ListQueryOnePage | autocomplete.js:65-74 | The same one-request rule, once the query is known. |
| Autocomplete.ListAutoMatchesQuery | autocomplete.js:57-81 | With a non-empty query, every listed item matches it. |
| Autocomplete.ListAutoFailure | autocomplete.js:82-84 | Every failure of a lister is wrapped with its list-function name. |
| Autocomplete.ListMachineTypesWithCustom | autocomplete.js:88-118 | The function computes its reference run: the custom entries filtered first, then the page loop. |
| Autocomplete.ListMachineTypesFor | autocomplete.js:94-114 | With a readable query, the custom rule and then the loop over `listMachineTypes` pages. |
| Autocomplete.CustomEntriesFiltered | autocomplete.js:96-99 | Filtering the four built-in custom types never fails and returns only those entries that match. |
| Autocomplete.CustomQueryShortCircuits | autocomplete.js:100 | A query containing `custom` in any case returns only the matching custom entries, with no provider call. |
| Autocomplete.PageStepKeepsGathered | autocomplete.js:106-107 | Without a query, the items gathered so far stay at the front of the result. |
| Autocomplete.MachineTypesWithoutQuery | autocomplete.js:103-107 | Without a query, one `listMachineTypes` page is requested with the field `name`, and the four custom entries come first. |
| GcloudCli.ExtractTagValue | gcloud-cli.js:169-179 | The value is always trimmed and contains no newline. |
| GcloudCli.ExtractTagValueAt | gcloud-cli.js:170-171 | The value is the first line of the trimmed text after the first occurrence of the tag. |
| GcloudCli.FirstLine | gcloud-cli.js:173-176 | From trimmed text, the first line is trimmed and has no newline. |
| GcloudCli.ExtractTagValueLastLine | gcloud-cli.js:174-175 | When no newline follows the tag, the whole trimmed remainder is returned. |
| GcloudCli.ExtractTagValueOfLine | gcloud-cli.js:169-179 | A tag followed by spaces, a value and a line break gives exactly that value. |
| GcloudCli.ExtractTagValueSkipsEmptyValue | gcloud-cli.js:171-172 | An empty value after the tag yields the next line's content, because the remainder is trimmed first. |
| GcloudCli.FirstTokenLine | gcloud-cli.js:164 | The line found is the first that contains `Tokens:`. |
| GcloudCli.NonEmpty | gcloud-cli.js:166 | `filter(Boolean)` keeps only non-empty words, and each non-empty word as many times as it occurs. |
| GcloudCli.NonEmptyAppend | gcloud-cli.js:166 | Filtering distributes over concatenation, so kept words keep their order. |
| GcloudCli.NonEmptyFirstWord | gcloud-cli.js:166 | After empty words only, the first non-empty word leads the result: empty words never shift the index `[1]` reads. |
| GcloudCli.ExtractSecret | gcloud-cli.js:162-167 | It throws iff no line contains `Tokens:`. Otherwise it returns undefined or a non-empty word without spaces. |
| GcloudCli.ExtractSecretOfTokenLine | gcloud-cli.js:162-167 | With `Tokens: <tok>` as the first marker line, the secret is exactly `tok`. |
| Strings.TrimIdempotent | parsers.js:123 | `trim` is idempotent. |
| Strings.TrimOfPadded | parsers.js:123 | Trimming removes exactly the surrounding whitespace. |
| Strings.TrimOfTrimStart | parsers.js:123 | Trimming both ends is the same as trimming the start and then the end. |
| Strings.SplitJoin | parsers.js:11 | Splitting joined newline-free parts at the separator gives back the parts. |
| Strings.JoinSplit | parsers.js:25 | Joining the pieces of a split with the separator gives back the string. |
| Strings.ParseIntOfIntToString | parsers.js:33 | `parseInt` of an integer's decimal text gives the integer back. |
| Strings.LexLeTotal | helpers.js:69 | String comparison by character code is total. |

## Left out

- Provider and network calls are not executed. They are the container, compute, googleapis and cloud-resource-manager clients, `createAddress`, `getMetadata`, `createVM` and so on. Each becomes a recorded request whose reply is a parameter.
- The `GKEService` and `GoogleComputeService` constructors, `from` and `getAuthClient` are not modelled. Credential checks, JWT construction and client construction are foreign calls. A failed client is the `clientError` parameter of the autocomplete entry points. The auth client is an opaque `auth` value.
- List and describe passthroughs are not modelled: `listClusters`, `listNodePools`, `listProjects`, `listRegions`, `listZones`, `listMachineTypes` with its zone default, and `listServiceAccounts` in gke.service.js:233-266. They are modelled only as page replies to `listAuto`. The same goes for `createSubnet`, `reserveIp` and the list helpers of gcce.service.js.
- `sleep` and the 2-second pause between polls are left out: time is not modelled. The poller counts fetches instead, and a finite reply sequence that runs out stands for a poller still waiting.
- Console logging of `running` events and of operations is left out. The Promise and event-emitter machinery is kept only as the first-terminal-event rule.
- Gke.FetchFailure carries the last operation as a field, where the source appends `JSON.stringify` of it to the message: JSON serialisation is not modelled.
- Compute.AddressFailure uses `message`, or else the value's string form, where the source falls back to `JSON.stringify(err)`.
- Compute.LaunchVm: `tags` is taken to be an array or absent. The source's `tags || []` accepts any value: a falsy one such as `""` or `0` becomes `[]`, and a truthy non-array makes `tags.push` throw when HTTP or HTTPS is allowed and is otherwise sent as `{ items: <value> }`. None of these is modelled.
- Compute.LaunchVm: the caller's `networkInterfaces` objects are values here. The source puts the caller's own interface objects into the configuration, so trimming deletes their empty entries in place and the address splice writes `accessConfigs` into the first of them. The caller's copies are not modelled as changed.
- Autocomplete.MapAutoParams takes the entries already read, so the listing entry points start from read entries. Throwing on a list that is not an array, or on an undefined or null entry, is stated by Autocomplete.ReadAutoParams and Autocomplete.ReadEntries.
- Helpers.RemoveUndefinedAndEmpty is modelled on values. The caller's object being mutated in place and returned by identity, and sub-objects shared between trees, are not captured.
- LegacyHelpers.LegacyRemoveUndefinedAndEmpty is modelled on values in the same way.
- The deletions inside a single object happen in key order in the source. The model states only the final result, which does not depend on that order.
- `parseFields`, `handleOperation` and `defaultGcpCallback` in src/helpers.js are textually the same as in helpers.js. They are modelled once, in `Helpers`.
- `parsers.jsonString` and `parsers.objectOrFromPath` depend on `JSON.parse` and the filesystem. Both are parameters: `JSON.parse` is a function returning the parsed value or the parser's message, and the filesystem is an existence test plus a file reader.
- Numbers are integers. Floating point, `NaN` and the number-to-string rules for non-integers are not modelled. Values.ToJsString prints every integer in decimal digits, while JavaScript prints integers from 1e21 upward in exponent form (`1e+21`). `parseInt` reads an optional sign and decimal digits after leading whitespace.
- Lowercasing (`toLowerCase`) is modelled for ASCII letters only.
- String sorting compares characters one at a time. That is UTF-16 order for text without surrogate pairs.
- `Array.prototype.sort` is modelled as a stable insertion sort. JavaScript has required a stable sort since ES2019, so equally ranked items keep their input order in both.
- The `parseFunc` argument of `listAuto` is never passed by the exported listers, so items are always read with `getParseFromParam`.
- Autocomplete items spread from `handleResult` keep their holes. JavaScript's spread turns a hole into `undefined`, and both read as missing here.
- `callCommand`, `createServiceAccount`, `lookupToken` and `lookupCertAndEndpoint` in gcloud-cli.js are not modelled. They are docker and `exec` plumbing with random environment-variable names. Only the two output scrapers are modelled.
- `app.js` and `src/app.js` are not part of this model. They only map action parameters through the parsers into service calls.

## Findings

| source | as written | input that shows it | evidently intended | confidence | as-written member | corrected member |
|---|---|---|---|---|---|---|
| parsers.js:68 | `!letKeyOnly && !val` tests the rest array from the destructuring, which is never falsy, so the guard never fires and `letKeyOnly` has no effect | `tags("zone", false)` returns `{ zone: "" }` | `!val.length`: without `letKeyOnly`, a line with no `=` throws `bad labels/tags format` | not executed; the array is always truthy in JavaScript | Parsers.TagsAcceptKeyOnlyLine | Parsers.IntendedTagsOf |
