# metaflow core, modelled in Dafny

This project models the core of metaflow (DeepFlow): the controller's
resource **recorder** and the pieces around it. The recorder takes each cloud
snapshot through a single-slot refresh gate and validates it. It then runs
the typed updaters: add and update in a fixed order, then delete in reverse,
with the VM/pod-node connection deleted last. It repeats this for each
verified sub-domain, and folds domain and sub-domain states into one status
message. Around the recorder sit the controller's smaller helpers:
- per-type updaters and soft-delete operators;
- the pod-group port tag table;
- domain secret masking;
- the cloud snapshot helpers and the genesis and QingCloud record transforms;
- controller health checks and vtap-to-controller allocation;
- the TSDB registration maps.

The model also covers the server libraries and ingesters:
- the flow meters (reverse, merge, line-protocol text, column blocks);
- document tag expansion and per-table bucketing;
- the stream decoder's counters;
- ClickHouse disk-clean decisions;
- the ext-metrics configuration;
- the querier's WHERE and SELECT rewriting.

Finally, it covers the agent:
- the uniform sender's frame encoder;
- the HTTP/1 and HTTP/2 performance parser;
- the protocol-log conversions, merge and eBPF session id.

Each module models one source file of the core or a small group of closely
related ones (DbOperator covers the region, network and pod-ingress
operators). Code that updates state step by step is a class whose methods
are proved against specification functions; pure code is functions and
lemmas. Shared modules: `Wrappers` (Option, Result), `FixedWidth` (unsigned
and signed widths, wrap-around, little- and big-endian bytes) and `Text`
(the Go `strings` helpers the code uses, decimal rendering and parsing).

Database, ClickHouse, cloud APIs, sockets, clocks and the libraries behind
lookups (tag tables, HPACK, `fmt.Sprintf`, address parsers, UUID
generation) are parameters of the model: a map, a sequence, or a function
value handed in by the caller.

Some constants live in files that are not part of this model. These are
`common/consts.go` (resource state codes, SUB_DOMAIN_ERROR_DISPLAY_NUM,
VIF_TYPE_WAN, HOST_STATE_COMPLETE), the HTTP/2 constants of the agent, and
the agent's `common/flow.rs` (L7 protocol codes). They are written with the
upstream values, and no proof depends on them except where a lemma names
one. The HTTP/2 values follow RFC 7540 (section 3.5 connection preface,
section 4.1 nine-octet frame header, section 6.2 HEADERS flags PADDED = 0x8
and PRIORITY = 0x20, frame type HEADERS = 0x1). HTTP status classes follow
section 6 of RFC 7231.

Two facts about `server/controller/recorder/recorder.go` shape the recorder
model:
- the domain row is synced (syncDomain, line 145) before any updater runs;
- CheckCloudData (lines 110-130) rejects a snapshot that is not verified
  when its networks are empty, when its vinterfaces are empty, or when it
  has neither VMs nor pods.

## Model

| member | source | states |
|---|---|---|
| Recorder.DomainFront | server/controller/recorder/recorder.go:192-232 | The domain updaters before VInterface are 37, begin Region, AZ, SubDomain and hold no VMPodNodeConnection |
| Recorder.DomainUpdatersShape | server/controller/recorder/recorder.go:192-236 | The domain updater list has 41 entries: it begins Region, AZ, SubDomain, ends VInterface, FloatingIP, IP, VMPodNodeConnection, and VMPodNodeConnection appears nowhere before the end |
| Recorder.SubDomainUpdatersShape | server/controller/recorder/recorder.go:238-259 | The sub-domain list has 17 entries: the domain list's pod-cluster through pod entries in the same order, then its VInterface, IP and VMPodNodeConnection kinds |
| Recorder.SubDomainUpdatersEnds | server/controller/recorder/recorder.go:238-259 | The sub-domain list begins with PodCluster and ends with VMPodNodeConnection, which occurs only at the end |
| Recorder.CheckCloudData | server/controller/recorder/recorder.go:110-130 | A snapshot passes iff the domain row exists and it is verified, or has networks and vinterfaces and VMs or pods; a missing domain row is reported as such |
| Recorder.FoldState | server/controller/recorder/recorder.go:263-279 | The folded state ranks at least as high as the domain's and every sub-domain's state (unknown codes rank 0) and is one of those states |
| Recorder.NonEmptyMessages | server/controller/recorder/recorder.go:275-283 | The collected messages are exactly the non-empty sub-domain messages, no more than there are sub-domains |
| Recorder.FormatDomainStateInfo | server/controller/recorder/recorder.go:261-300 | The status is the highest-ranked state; the message starts with the domain's own message and equals it iff no sub-domain has a message |
| Recorder.FormatDomainMessageShape | server/controller/recorder/recorder.go:284-298 | With sub-domain messages, the message is the own message plus "\n\n" only when non-empty, the count line, at most SUB_DOMAIN_ERROR_DISPLAY_NUM messages joined by "\n", and "\n..." when more were cut |
| Recorder.DomainPassOrder | server/controller/recorder/recorder.go:145-160 | A pass calls every updater's add/update in list order, then the deletes of entries n-2 down to 0, then the last entry's delete |
| Recorder.LastDeletedOnlyAtEnd | server/controller/recorder/recorder.go:152-160 | When the last updater occurs once, its delete is the final call of the pass and no earlier call is that delete |
| Recorder.VMPodNodeConnectionDeletedLast | server/controller/recorder/recorder.go:149-160 | In the domain pass the VMPodNodeConnection delete is the last call and happens once |
| Recorder.SubDomainsNeverDeleteVMPodNodeConnection | server/controller/recorder/recorder.go:166-184 | Sub-domain passes over a list ending in its only VMPodNodeConnection never call that updater's delete |
| Recorder.SubDomainListNeverDeletesVMPodNodeConnection | server/controller/recorder/recorder.go:166-184 | The sub-domain VMPodNodeConnection updater's delete is never called |
| Recorder.OnlyVerifiedSubDomainsRun | server/controller/recorder/recorder.go:166-171 | Every updater call of the sub-domain passes belongs to a verified sub-domain; the passes make no other kind of call than row sync, add/update and delete |
| Recorder.SyncSubDomainRowsFrame | server/controller/recorder/recorder.go:316-329 | Syncing sub-domain rows keeps the set of rows and leaves the rows of unverified or unlisted sub-domains unchanged |
| Recorder.Recorder.constructor | server/controller/recorder/recorder.go:46-58 | A new recorder holds a free token and has made no calls |
| Recorder.Recorder.Refresh | server/controller/recorder/recorder.go:78-88 | With the token free, it takes it and starts a pass on the snapshot; otherwise nothing changes and nothing is queued |
| Recorder.Recorder.CompleteRefreshWhole | server/controller/recorder/recorder.go:132-190 | The pending pass makes exactly the calls of the whole pass and frees the token; rows are synced only when the snapshot is valid |
| Recorder.Recorder.RunWholePass | server/controller/recorder/recorder.go:141-185 | After a passed check: the sequence update, the domain sync, the domain pass and the verified sub-domains' passes are appended in that order; the domain row and the sub-domain rows are synced |
| Recorder.WholePassSplits | server/controller/recorder/recorder.go:141-185 | The sequence update and domain sync, then the domain pass, then the sub-domain passes, make up exactly the whole pass |
| Recorder.Recorder.RunDomainPass | server/controller/recorder/recorder.go:145-160 | Appends exactly the domain pass's calls |
| Recorder.Recorder.RunSubDomainPasses | server/controller/recorder/recorder.go:164-185 | Appends the passes of the verified sub-domains in order and syncs exactly their rows |
| Recorder.Recorder.RunSubDomainPass | server/controller/recorder/recorder.go:165-183 | An unverified sub-domain makes no call; a verified one syncs its row and runs its pass |
| Recorder.Recorder.RunAddAll | server/controller/recorder/recorder.go:145-148 | Appends one add/update per updater in list order |
| Recorder.Recorder.RunDeletesBelowLast | server/controller/recorder/recorder.go:154-157 | Appends the deletes of entries n-2 down to 0 |
| Recorder.Recorder.RunNewRefreshCache | server/controller/recorder/recorder.go:90-108 | Waits for a pending pass to finish, refreshes the cache once and leaves the token free |
| Updater.SplitMembership | server/controller/recorder/updater/ip.go:53-72 | An IP is in the WAN list iff it is an input IP whose cached vinterface has the WAN type; in the LAN list iff its cached vinterface has another type; IPs without a cached vinterface are in neither |
| Updater.SplitIsPartition | server/controller/recorder/updater/ip.go:56-69 | The WAN and LAN lists together are, as a multiset, exactly the kept IPs, and no more than the input |
| Updater.SplitPreservesOrder | server/controller/recorder/updater/ip.go:53-72 | The split distributes over concatenation, so each list keeps input order |
| Updater.IP.constructor | server/controller/recorder/updater/ip.go:33-38 | Both sub-updaters start absent |
| Updater.IP.SplitToWANAndLAN | server/controller/recorder/updater/ip.go:53-72 | The loop's two lists equal the WAN and LAN specifications |
| Updater.IP.HandleAddAndUpdate | server/controller/recorder/updater/ip.go:40-46 | Builds both sub-updaters from the split and runs WAN before LAN |
| Updater.IP.HandleDelete | server/controller/recorder/updater/ip.go:48-51 | Needs both sub-updaters; runs the WAN delete before the LAN delete |
| Updater.GetDiffBaseByCloudItem | server/controller/recorder/updater/sub_domain.go:44-47 | The diff base exists iff the item's lcuuid is a key, and is that key's entry |
| Updater.GenerateDBItemToAdd | server/controller/recorder/updater/sub_domain.go:49-59 | Always succeeds; copies lcuuid, name, cluster id and config, display name = name, domain = the cache's domain |
| Updater.GenerateUpdateInfo | server/controller/recorder/updater/sub_domain.go:62-64 | Never reports an update |
| Updater.RowsToAddAreNew | server/controller/recorder/updater/sub_domain.go:44-59 | Rows to add are exactly the generated rows of cloud items missing from the diff base, all under the domain |
| Updater.AddRowsFrame | server/controller/recorder/updater/sub_domain.go:66-69 | addCache adds exactly the rows' lcuuids and leaves other entries unchanged |
| Updater.ReconcileConverges | server/controller/recorder/updater/sub_domain.go:44-76 | After add and delete, the diff base holds exactly the cloud's lcuuids, and existing entries are never changed, because update is a no-op |
| Updater.SubDomainUpdater.constructor | server/controller/recorder/updater/sub_domain.go:30-42 | Starts from the given diff base and cloud data with no database calls |
| Updater.SubDomainUpdater.AddCache | server/controller/recorder/updater/sub_domain.go:66-69 | The diff base gains the rows |
| Updater.SubDomainUpdater.DeleteCache | server/controller/recorder/updater/sub_domain.go:74-76 | The diff base loses exactly the lcuuids |
| Updater.SubDomainUpdater.HandleAddAndUpdate | server/controller/recorder/updater/sub_domain.go:44-69 | Adds the missing items' rows to database and cache, with no call when there are none |
| Updater.CollectRowsToAdd | server/controller/recorder/updater/sub_domain.go:44-64 | Walking the snapshot with the diff-base lookup and row generation yields exactly the rows of the items the diff base lacks, in snapshot order |
| Updater.RowsToAddSnoc | server/controller/recorder/updater/sub_domain.go:44-59 | One more snapshot item adds its generated row exactly when its lcuuid is not in the diff base |
| Updater.SubDomainUpdater.HandleDelete | server/controller/recorder/updater/sub_domain.go:74-76 | Deletes exactly the diff-base lcuuids missing from the cloud, with one database call when there are any |
| DbOperator.NewRegion | server/controller/recorder/db/region.go:28-37 | The region operator soft-deletes, names RESOURCE_TYPE_REGION_EN and is its own setter |
| DbOperator.NewNetwork | server/controller/recorder/db/network.go:28-37 | The network operator soft-deletes, names RESOURCE_TYPE_NETWORK_EN and is its own setter |
| DbOperator.NewPodIngress | server/controller/recorder/db/pod_ingress.go:28-37 | The pod-ingress operator soft-deletes, names RESOURCE_TYPE_POD_INGRESS_EN and is its own setter |
| DbOperator.SetRegionID | server/controller/recorder/db/region.go:39-41 | Sets the id and changes no other field |
| DbOperator.SetNetworkID | server/controller/recorder/db/network.go:39-41 | Sets the id and changes no other field |
| DbOperator.SetPodIngressID | server/controller/recorder/db/pod_ingress.go:39-41 | Sets the id and changes no other field |
| DbOperator.SetIDLastWins | server/controller/recorder/db/region.go:39-41 | Setting an id twice keeps the last one; setting a row's own id changes nothing |
| DbOperator.DeleteRegions | server/controller/recorder/db/region.go:30-33 | A soft-deleting operator keeps every row and stamps the deleted ones; a hard delete removes them; other rows are unchanged |
| DbOperator.DeleteNetworks | server/controller/recorder/db/network.go:30-33 | Same as for regions, for networks |
| DbOperator.DeletePodIngresses | server/controller/recorder/db/pod_ingress.go:30-33 | Same as for regions, for pod ingresses |
| DbOperator.DeletedRowsRecoverable | server/controller/recorder/db/region.go:30-33 | With the three configured operators, deletion keeps every row, and a live row is recovered by clearing its deletion stamp |
| ChPodGroupPort.GenerateKey | server/controller/tagrecorder/ch_pod_group_port.go:78-80 | The key is the row's pod-group id, protocol and port |
| ChPodGroupPort.ServiceNamesLookup | server/controller/tagrecorder/ch_pod_group_port.go:52-55 | The id-to-name table has exactly the pod services' ids, and an id that occurs once maps to its service's name |
| ChPodGroupPort.KeyToItemKeys | server/controller/tagrecorder/ch_pod_group_port.go:57-74 | The output keys are exactly the keys of rows with non-zero port, non-zero pod group and a protocol mapping to non-zero |
| ChPodGroupPort.KeyToItemGenerateKey | server/controller/tagrecorder/ch_pod_group_port.go:62-80 | generateKey of each stored item is the key it is stored under |
| ChPodGroupPort.KeyToItemLastWins | server/controller/tagrecorder/ch_pod_group_port.go:62-73 | An emitted row whose key no later emitted row repeats is stored under that key as built, with its service name or "" |
| ChPodGroupPort.GenerateNewData | server/controller/tagrecorder/ch_pod_group_port.go:38-76 | Fails with no data when either table read fails; otherwise the loops build exactly the keyed table |
| ChPodGroupPort.GenerateUpdateInfo | server/controller/tagrecorder/ch_pod_group_port.go:82-94 | The update names exactly the changed fields among the service id and name, and reports a change iff one changed |
| ChPodGroupPort.UpdateInfoRoundTrip | server/controller/tagrecorder/ch_pod_group_port.go:82-94 | For rows under the same key, applying the update to the old row gives the new row |
| DomainService.MaskSecrets | server/controller/service/domain.go:136-144 | Keeps the keys, and every present secret key (admin_password, secret_key, password, boss_secret_key) reads DEFAULT_ENCRYPTION_PASSWORD |
| DomainService.RestoreMaskedSecrets | server/controller/service/domain.go:294-302 | Replaces the masked secrets of an update with the stored values |
| DomainService.MaskRestoreRoundTrip | server/controller/service/domain.go:136-144 | Restoring a masked configuration against the stored one gives back the stored configuration (also lines 294-302) |
| DomainService.RestoreKeepsNewValues | server/controller/service/domain.go:294-302 | Restoring keeps the update's keys, its non-masked values and its non-secret keys |
| DomainService.AZIndexStep | server/controller/service/domain.go:59-72 | One AZ extends the per-domain and per-domain-per-region AZ indexes |
| DomainService.GroupAZs | server/controller/service/domain.go:59-72 | The loop builds the AZ indexes of all AZs |
| DomainService.SubDomainIndexStep | server/controller/service/domain.go:79-84 | One sub-domain row appends its name to its domain's list and keeps the index exact |
| DomainService.GroupSubDomainNames | server/controller/service/domain.go:79-84 | The loop builds each domain's sub-domain names in order |
| DomainService.MapControllerNames | server/controller/service/domain.go:73-76 | The loop builds the controller IP-to-name table |
| DomainService.DomainRespFrom | server/controller/service/domain.go:86-145 | A domain's response, built from the indexes, is its specification: counts, controller name, sub-domains, masked configuration, and for a Kubernetes domain the agent found through the cluster row's "ip-mac" value |
| DomainService.GetDomains | server/controller/service/domain.go:34-149 | One response per domain, in order, each the domain's specification, Kubernetes agent lookup included |
| DomainService.FirstClusterSpec | server/controller/service/domain.go:122-123 | The cluster row lookup is none iff no row has the cluster id, else the first such row |
| DomainService.FirstVTapSpec | server/controller/service/domain.go:126-127 | The agent lookup is none iff no agent has both the control IP and the control MAC, else the first such agent |
| DomainService.ClusterVTapFound | server/controller/service/domain.go:121-134 | A found agent is a stored agent whose control IP and MAC, joined by "-", are the cluster row's value; a value "ip-mac" without another "-" finds exactly the agent with that IP and MAC |
| DomainService.AZsEmptyNoRegions | server/controller/service/domain.go:105-112 | A domain without AZs has no regions |
| DomainService.RegionCountAtMostAZCount | server/controller/service/domain.go:105-112 | The region count is at most the AZ count |
| DomainService.FirstControllerIP | server/controller/service/domain.go:197-206 | The first controller connection of the region, or none iff the region has none |
| DomainService.Placement | server/controller/service/domain.go:182-208 | Without region_uuid it succeeds iff exactly one region exists and a controller IP is given or connected to it, taking that region; a given region_uuid or controller_ip is kept; a missing controller IP is the first one connected to the region; every failure is INVALID_PARAMETERS |
| DomainService.Validated | server/controller/service/domain.go:166-221 | The checks after the name check: the region condition as for Placement; the row carries the name, lcuuid, display name, region_uuid and controller_ip; a Kubernetes domain its cluster id and the AZ and VPC rows, any other domain neither |
| DomainService.Commit | server/controller/service/domain.go:220-225 | A learned AZ joins the AZ table iff its insert succeeded; the domain row is inserted iff its lcuuid is new (INSERT IGNORE); no other table changes; the response is the listing of the row stored under the lcuuid afterwards |
| DomainService.CreateDomain | server/controller/service/domain.go:151-226 | A name used by a domain or sub-domain fails RESOURCE_ALREADY_EXIST; without region_uuid it succeeds iff exactly one region exists and a controller IP is given or found; a Kubernetes domain gets the given cluster id or "d-" plus a short uuid and, written before the domain row, two learned rows: an AZ row with lcuuid GetAZLcuuidFromUUIDGenerate(display name) and a VPC row with the VPC lcuuid of the display name, both named and owned by the domain in region_uuid or the default region; any other domain gets no learned row; the tables afterwards and the response are those of Commit |
| DomainService.CreateExistingReturnsStored | server/controller/service/domain.go:222-225 | When the lcuuid is already stored, the domain table is unchanged and the response is the stored domain's: its lcuuid, name, cluster id and masked config |
| DomainService.CreateNewListsRequest | server/controller/service/domain.go:220-225 | When the lcuuid is new, the table gains the built row and the response carries the request's name, the lcuuid, display name, controller IP and masked config; a Kubernetes domain whose AZ insert succeeded counts that AZ |
| DomainService.NewDomain | server/controller/service/domain.go:208-221 | The validated request becomes a domain row whose config carries the chosen region_uuid and controller_ip on top of the request's keys; a Kubernetes domain gets its cluster id and the AZ and VPC rows in that region (the default region when empty), any other domain an empty cluster id and no learned rows |
| DomainService.BuildUpdate | server/controller/service/domain.go:267-318 | The update map is the given NAME, ENABLED, ICON_ID and CONTROLLER_IP keys, and with a config its restored form, a differing controller_ip over CONTROLLER_IP, and a purge iff region_uuid changes |
| DomainService.UpdateDomain | server/controller/service/domain.go:255-325 | An unknown domain is RESOURCE_NOT_FOUND; otherwise the update map of BuildUpdate is written to the stored row and nothing else, and the response is that updated row as GetDomains lists it |
| DomainService.UpdatedRowFields | server/controller/service/domain.go:267-321 | An update keeps the lcuuid, display name, cluster id and type; a string NAME and a numeric ICON_ID replace the old ones; a config replaces the stored one with its masked secrets restored, and without one the stored config stays |
| DomainService.UpdatedControllerIP | server/controller/service/domain.go:282-306 | A config whose controller_ip differs from the stored IP sets it, over the CONTROLLER_IP key; otherwise CONTROLLER_IP sets it, and without either it stays |
| DomainService.UnchangedSaveKeepsRow | server/controller/service/domain.go:289-321 | Saving a listed domain back with only its masked config leaves the stored row unchanged, when the config's controller_ip is the row's |
| DomainService.UnchangedConfigSaveIsIdentity | server/controller/service/domain.go:136-144 | Saving the masked configuration read from GetDomains writes back the stored configuration and purges nothing (also lines 294-315) |
| CloudCommon.StringInterfaceMapKVs | server/controller/cloud/common/utils.go:62-73 | One "key" + sep + "value" item per map key, with the keys strictly ascending and exactly the map's keys |
| CloudCommon.SortedKeys | server/controller/cloud/common/utils.go:55-60 | The keys of the map, strictly ascending (sort.Strings on distinct keys) (also lines 64) |
| CloudCommon.UnionMap | server/controller/cloud/common/utils.go:89-101 | Writes every entry of the second map into the first map itself and returns that same map: its entries become the old entries overridden by the second map's (Dafny's map union, right side winning) |
| CloudCommon.UnionMapSet | server/controller/cloud/common/utils.go:103-112 | Writes into the first map itself and returns that same map: it gains the keys of the second, and each key holds the union of its sets in the two maps |
| CloudCommon.IsIPInCIDR | server/controller/cloud/common/utils.go:235-249 | Without "/" in the CIDR it is string equality; with one, it is what the prefix parser reports, false on a parse failure |
| CloudCommon.GenerateIPMask | server/controller/cloud/common/utils.go:150-160 | A parsed prefix gives its length; otherwise IPV6_MAX_MASK when the text contains ':' and IPV4_MAX_MASK when not |
| CloudCommon.GetBasicVPCAndNetworks | server/controller/cloud/common/utils.go:253-284 | One VPC and one network per region, in order; each network belongs to its region's VPC, has segmentation id 1, the LAN type and the VPC's name with the subnet suffix |
| CloudCommon.EliminateEmptyRegions | server/controller/cloud/common/utils.go:488-500 | The loop keeps exactly the regions the specification keeps |
| CloudCommon.EliminateEmptyAZs | server/controller/cloud/common/utils.go:502-514 | The loop keeps exactly the AZs the specification keeps |
| CloudCommon.NonEmptyRegionsMembers | server/controller/cloud/common/utils.go:488-500 | A region is kept iff its count is present and non-zero; the output is no longer than the input |
| CloudCommon.NonEmptyRegionsAppend | server/controller/cloud/common/utils.go:488-500 | Filtering distributes over concatenation, so the kept regions stay in input order |
| CloudCommon.NonEmptyAZsMembers | server/controller/cloud/common/utils.go:502-514 | An AZ is kept iff its count is present and non-zero; the output is no longer than the input |
| CloudCommon.NonEmptyAZsAppend | server/controller/cloud/common/utils.go:502-514 | Filtering distributes over concatenation, so the kept AZs stay in input order |
| CloudCommon.GetAZLcuuidFromUUIDGenerate | server/controller/cloud/common/utils.go:555-558 | The generated uuid with its last two characters replaced by "ff": same length, same prefix |
| CloudCommon.AZLcuuidFixedPoint | server/controller/cloud/common/utils.go:555-558 | The AZ lcuuid equals the generated uuid iff that uuid already ends in "ff" |
| Genesis.Genesis.constructor | server/controller/cloud/genesis/vinterface.go:32-33 | A new adapter has the default-VPC flag unset and empty API statistics |
| Genesis.Genesis.GetVInterfaces | server/controller/cloud/genesis/vinterface.go:27-59 | The vinterfaces are the specification's; the default-VPC flag is set iff some kept entry lacked a VPC; the API count recorded is the input length |
| Genesis.VInterfacesExact | server/controller/cloud/genesis/vinterface.go:35-56 | Exactly the entries with a device and a network are kept, each transformed in the region, with an empty VPC replaced by the default VPC; never more than the input |
| Genesis.VInterfacesAppend | server/controller/cloud/genesis/vinterface.go:35-56 | The transform distributes over concatenation, so the output keeps input order |
| Genesis.Genesis.GetIPs | server/controller/cloud/genesis/ip.go:27-55 | The IPs are the specification's; the API count recorded is the input length; the default-VPC flag is untouched |
| Genesis.IPsExact | server/controller/cloud/genesis/ip.go:35-52 | Exactly the entries with a vinterface and a subnet are kept, each in the region, with an empty lcuuid replaced by GetUUID(vinterface + IP); never more than the input |
| Genesis.IPsAppend | server/controller/cloud/genesis/ip.go:35-52 | The transform distributes over concatenation, so the output keeps input order |
| QingCloud.QingCloud.constructor | server/controller/cloud/qingcloud/sub_domain.go:57 | The adapter starts with no resource counts and the given default VPCs |
| QingCloud.QingCloud.GetNATGateways | server/controller/cloud/qingcloud/nat_gateway.go:26-136 | The results are the specification's over the regions; the region counts grow as the specification says, including for regions read before an error |
| QingCloud.QingCloud.NatsOfRegion | server/controller/cloud/qingcloud/nat_gateway.go:49-133 | One region's NATs give its records, and its count grows by the number of NATs with a VPC router |
| QingCloud.AllNatOutErrSticks | server/controller/cloud/qingcloud/nat_gateway.go:43-47 | Once a region's API call fails, the later regions change neither the result nor the counts |
| QingCloud.AllNatOutFailsIff | server/controller/cloud/qingcloud/nat_gateway.go:43-47 | The whole call fails iff some region's API call fails |
| QingCloud.NatRecords | server/controller/cloud/qingcloud/nat_gateway.go:51-131 | A NAT gives its specification's records, and exactly one gateway iff it has a VPC router |
| QingCloud.NonEmptyOf | server/controller/cloud/qingcloud/nat_gateway.go:67-74 | The loop keeps the non-empty addresses in order |
| QingCloud.NonEmptyStrsExact | server/controller/cloud/qingcloud/nat_gateway.go:67-74 | Exactly the non-empty addresses are kept |
| QingCloud.ScanClusters | server/controller/cloud/qingcloud/nat_gateway.go:76-95 | The cluster loop gives the clusters' non-empty EIPs and one connection per non-empty instance id |
| QingCloud.ClusterEIPsExact | server/controller/cloud/qingcloud/nat_gateway.go:77-83 | Exactly the clusters' non-empty EIPs are collected |
| QingCloud.ClusterConnsExact | server/controller/cloud/qingcloud/nat_gateway.go:84-95 | The connections are exactly one per non-empty instance id of any cluster, with lcuuid GenerateUUID(nat + instance) |
| QingCloud.ConnsOfInstances | server/controller/cloud/qingcloud/nat_gateway.go:84-95 | The instance loop builds the connections of the specification |
| QingCloud.InstanceConnsExact | server/controller/cloud/qingcloud/nat_gateway.go:84-95 | Exactly one connection per non-empty instance id |
| QingCloud.EIPsExact | server/controller/cloud/qingcloud/nat_gateway.go:67-83 | The EIPs are exactly the non-empty addresses of "eips" and of the clusters |
| QingCloud.WANIPs | server/controller/cloud/qingcloud/nat_gateway.go:121-129 | One IP per EIP on the WAN vinterface |
| QingCloud.NatOutShape | server/controller/cloud/qingcloud/nat_gateway.go:53-131 | A NAT without a VPC router gives nothing; otherwise one gateway named by nfv_name or else nfv_id, floating IPs the comma join of the EIPs, a WAN vinterface iff there is an EIP, and one IP per EIP |
| QingCloud.RegionGateways | server/controller/cloud/qingcloud/nat_gateway.go:96-106 | A region gives one gateway per NAT with a VPC router, all in that region |
| QingCloud.BumpStep | server/controller/cloud/qingcloud/nat_gateway.go:106 | Counting n gateways then one more is counting n + 1 |
| QingCloud.QingCloud.GetSubDomains | server/controller/cloud/qingcloud/sub_domain.go:27-86 | The loop gives the specification's sub-domains, each region's default VPC taken from the adapter's table, or the first API error |
| QingCloud.AllSubDomainsErrSticks | server/controller/cloud/qingcloud/sub_domain.go:38-42 | Once a region's call fails, later regions do not change the result |
| QingCloud.AllSubDomainsStep | server/controller/cloud/qingcloud/sub_domain.go:32-42 | One more region keeps an earlier error, ends in its own API error, or appends its kept clusters |
| QingCloud.KubeSphereClusters | server/controller/cloud/qingcloud/sub_domain.go:44-80 | The cluster loop yields, in order, one sub-domain for each cluster with an id and no foreign app, under the router VPC or the region default |
| QingCloud.AllSubDomainsFailsIff | server/controller/cloud/qingcloud/sub_domain.go:38-42 | The call fails iff some region's API call fails |
| QingCloud.RegionSubDomainsExact | server/controller/cloud/qingcloud/sub_domain.go:44-81 | Exactly the clusters with an id and an empty or KubeSphere app_info become sub-domains: lcuuid GenerateUUID(cluster id), display name and cluster id the id, vpc_uuid in the config equal to the VPC |
| QingCloud.SubDomainVpcRule | server/controller/cloud/qingcloud/sub_domain.go:57-61 | The VPC is GenerateUUID(vpc_router_id) when present, else the region's default VPC |
| ControllerMonitor.ControllerCheck.constructor | server/controller/monitor/controller.go:37-44 | A new checker has empty normal and exception dictionaries and no reallocation requests |
| ControllerMonitor.ControllerCheck.HealthCheck | server/controller/monitor/controller.go:65-144 | The dictionaries, state writes and reallocation requests are those of the health fold over the controllers |
| ControllerMonitor.HealthStepWrites | server/controller/monitor/controller.go:100-141 | A controller is set to exception (and reallocation requested) iff it is complete, inactive and has been in the exception dictionary for three intervals; it is set back to complete iff it is not complete, active and has been in the normal dictionary for three intervals; at most one write per controller |
| ControllerMonitor.FirstCheckOnlyRecords | server/controller/monitor/controller.go:118-120 | A controller seen for the first time writes nothing; it enters the exception dictionary iff complete and inactive, the normal one iff not complete and active (also lines 130-132) |
| ControllerMonitor.HealthStepLog | server/controller/monitor/controller.go:100-141 | One controller leaves the log unchanged, appends an exception write together with a reallocation request, or appends a complete write |
| ControllerMonitor.HealthFoldLastLog | server/controller/monitor/controller.go:72-142 | The last controller of the loop changes the log in one of those three ways |
| ControllerMonitor.HealthFoldRequestsMatchExceptions | server/controller/monitor/controller.go:112-116 | The reallocation requests of a health check are exactly the IPs written as exception, in order |
| ControllerMonitor.HealthFoldWritesStates | server/controller/monitor/controller.go:112 | Every state written is complete or exception (also lines 127) |
| ControllerMonitor.ControllerCheck.VTapControllerCheck | server/controller/monitor/controller.go:150-171 | The exception updates are those of the specification; one reallocation request with an empty IP iff some vtap has no controller; the dictionaries are untouched |
| ControllerMonitor.ScanVTaps | server/controller/monitor/controller.go:157-165 | The loop yields the exception writes of the specification (the failed bit toggled off for every vtap with a controller that carries it) and a positive count iff some vtap has no controller |
| ControllerMonitor.CheckUpdatesClearBit | server/controller/monitor/controller.go:157-165 | Every update clears the allocation-failed bit, of a vtap with a controller that had the bit set; no more updates than vtaps |
| ControllerMonitor.XorClearsSetBit | server/controller/monitor/controller.go:162 | When the bit is set, xor with it clears exactly that bit |
| ControllerMonitor.ClearFailed | server/controller/monitor/controller.go:262-264 | The exceptions with the allocation-failed bit cleared |
| ControllerMonitor.VTapControllerAlloc | server/controller/monitor/controller.go:173-269 | The AZs are visited once each, exactly those with a vtap to place, and the writes are those of the allocation specification over them |
| ControllerMonitor.SplitVTaps | server/controller/monitor/controller.go:186-196 | Per controller, the number of vtaps it keeps; per AZ, the vtaps without a controller (or on the excluded one), in order, and an AZ entry iff there is one |
| ControllerMonitor.Available | server/controller/monitor/controller.go:198-204 | The available map is the specification's: vtap_max minus the vtaps in use, per complete controller |
| ControllerMonitor.AvailableOfExact | server/controller/monitor/controller.go:182 | A controller IP is available iff it is a complete controller, with vtap_max minus its used count (also lines 198-204) |
| ControllerMonitor.GroupRegionAZs | server/controller/monitor/controller.go:207-213 | Per region, the AZs with vtaps to place, and a region entry iff there is one |
| ControllerMonitor.RegionAZsExact | server/controller/monitor/controller.go:207-213 | An AZ is in its region's list iff it is an AZ row of that region with vtaps to place |
| ControllerMonitor.GrantControllers | server/controller/monitor/controller.go:216-228 | Per AZ, the controller IPs its connections grant, in order |
| ControllerMonitor.GrantToAll | server/controller/monitor/controller.go:219-224 | An "ALL" connection appends its IP to every AZ of its region |
| ControllerMonitor.GrantOneStep | server/controller/monitor/controller.go:219-224 | Appending an "ALL" connection's IP to one more AZ of its region keeps every AZ's grants equal to its own connections plus one IP per listed occurrence |
| ControllerMonitor.GrantOneStepAt | server/controller/monitor/controller.go:219-224 | The same, for one AZ: only the AZ appended to gains the IP |
| ControllerMonitor.OccurrencesSnoc | server/controller/monitor/controller.go:221-223 | One more AZ in a region's list adds the IP for that AZ and for no other |
| ControllerMonitor.GrantsForExact | server/controller/monitor/controller.go:216-228 | An IP is granted to an AZ iff a connection of a region with pending AZs names the AZ, or is "ALL" and the AZ is one of that region's |
| ControllerMonitor.OccurrencesExact | server/controller/monitor/controller.go:221-223 | The IP occurs for an AZ iff the AZ is in the region's list |
| ControllerMonitor.AllGrantsEveryAZ | server/controller/monitor/controller.go:219-224 | An "ALL" connection grants its controller to every AZ of its region that has vtaps to place |
| ControllerMonitor.BuildCandidates | server/controller/monitor/controller.go:233-243 | The candidates are the granted IPs that are available, with their available counts |
| ControllerMonitor.AllocInAZ | server/controller/monitor/controller.go:245-266 | The vtap loop of one AZ ends in the allocation specification's state |
| ControllerMonitor.AllocOne | server/controller/monitor/controller.go:247-265 | One waiting vtap sorts the candidates in place and moves them, the capacities and the results exactly as one allocation step |
| ControllerMonitor.AllocAllSnoc | server/controller/monitor/controller.go:240-266 | One more AZ places its waiting vtaps with the capacities the AZs before it left, its results after theirs |
| ControllerMonitor.SortCandidates | server/controller/monitor/controller.go:253-255 | The candidates after the in-place sort.Slice by descending available count: the insertion sort's order |
| ControllerMonitor.InsertLast | server/controller/monitor/controller.go:253-255 | One pass of the insertion sort: the last candidate is swapped backwards past every smaller neighbour and stops behind the first one at least as large |
| ControllerMonitor.InsertStep | server/controller/monitor/controller.go:253-255 | Swapping the candidate past a smaller neighbour keeps the final order of the pass |
| ControllerMonitor.InsertDescPerm | server/controller/monitor/controller.go:253-255 | Inserting a candidate keeps every candidate and adds it once |
| ControllerMonitor.InsertDescSorted | server/controller/monitor/controller.go:253-255 | Inserting into a descending list keeps it descending |
| ControllerMonitor.SortDescSpec | server/controller/monitor/controller.go:253-255 | The sort is a permutation of the candidates, in descending order of available count |
| ControllerMonitor.SortDescHead | server/controller/monitor/controller.go:253-256 | The first candidate after the sort is one of the candidates and none has a larger count |
| ControllerMonitor.AllocStepSpec | server/controller/monitor/controller.go:245-266 | With no candidate a vtap fails with the bit set; otherwise it goes to a candidate of largest count, which is first in the sorted list with its count one lower, the rest of the list being the other candidates; the available map loses one for it and the bit is cleared |
| ControllerMonitor.SortTwo | server/controller/monitor/controller.go:253-255 | Two candidates are swapped only when the second has the strictly larger count |
| ControllerMonitor.AllocPair | server/controller/monitor/controller.go:253-265 | With two candidates, the vtap goes to the first of the sorted pair, which loses one unit and stays in front |
| ControllerMonitor.TiesFollowSortedOrder | server/controller/monitor/controller.go:245-265 | Controllers a and b of equal count 5 receive three waiting vtaps as a, b, b: the order the previous sort left breaks the ties |
| ControllerMonitor.AllocStepShape | server/controller/monitor/controller.go:245-266 | Each waiting vtap appends exactly one result under its own name, a failure when the AZ has no candidate and an assignment otherwise, and leaves the candidate count unchanged |
| ControllerMonitor.AllocVTapsAllOrNothing | server/controller/monitor/controller.go:245-266 | One result per vtap in order: all fail when the AZ has no candidate, all are assigned when it has one |
| TsdbNode.Int64OfUint64 | server/controller/trisolaris/node/tsdb_discovery.go:52 | The two's-complement reading of a 64-bit memory size: congruent modulo 2^64, in int64 range, and the value itself when it fits |
| TsdbNode.Registered | server/controller/trisolaris/node/tsdb_discovery.go:42-60 | The analyzer built from a sync request: its IP, host, CPUs, memory, system info, vtap_max, complete state, no NAT, and the pcap path or "" without a report |
| TsdbNode.TSDBCache.constructor | server/controller/trisolaris/node/tsdb_cache.go:43-57 | The cache holds the analyzer's fields, its key is the analyzer's IP, and the sync flag is unset |
| TsdbNode.TSDBCache.GetKey | server/controller/trisolaris/node/tsdb_cache.go:59-61 | The key is the IP |
| TsdbNode.TSDBCache.GetArch | server/controller/trisolaris/node/tsdb_cache.go:63-69 | The architecture, or "" when unset |
| TsdbNode.TSDBCache.GetOS | server/controller/trisolaris/node/tsdb_cache.go:71-77 | The OS, or "" when unset |
| TsdbNode.TSDBCache.GetKernelVersion | server/controller/trisolaris/node/tsdb_cache.go:79-85 | The kernel version, or "" when unset |
| TsdbNode.TSDBCache.GetPcapDataMountPath | server/controller/trisolaris/node/tsdb_cache.go:87-93 | The pcap mount path, or "" when unset |
| TsdbNode.TSDBCache.SetSyncFlag | server/controller/trisolaris/node/tsdb_cache.go:95-97 | The flag is set and nothing else changes |
| TsdbNode.TSDBCache.UnsetSyncFlag | server/controller/trisolaris/node/tsdb_cache.go:99-101 | The flag is unset and nothing else changes |
| TsdbNode.TSDBCache.UpdateNatIP | server/controller/trisolaris/node/tsdb_cache.go:103-105 | Only the NAT IP changes |
| TsdbNode.TSDBCache.UpdateSyncedAt | server/controller/trisolaris/node/tsdb_cache.go:111-114 | The sync time is set and so is the sync flag; nothing else changes |
| TsdbNode.TSDBCache.UpdateSystemInfo | server/controller/trisolaris/node/tsdb_cache.go:116-125 | The CPUs, memory and system strings are replaced; IP, NAT IP, sync time and flag are kept |
| TsdbNode.TSDBCacheMap.constructor | server/controller/trisolaris/node/tsdb_cache.go:132-136 | The map starts empty |
| TsdbNode.TSDBCacheMap.Get | server/controller/trisolaris/node/tsdb_cache.go:150-158 | The cache under the key, or none iff the key is absent |
| TsdbNode.TSDBCacheMap.Add | server/controller/trisolaris/node/tsdb_cache.go:138-142 | The cache is stored under its key, the key set grows by that key, and every other key keeps its cache |
| TsdbNode.TSDBCacheMap.Delete | server/controller/trisolaris/node/tsdb_cache.go:144-148 | The key is gone, the key set shrinks by it, and every other key keeps its cache |
| TsdbNode.TSDBCacheMap.List | server/controller/trisolaris/node/tsdb_cache.go:160-169 | Each key exactly once |
| TsdbNode.TSDBCacheMap.GetKeySet | server/controller/trisolaris/node/tsdb_cache.go:171-180 | Exactly the keys |
| TsdbNode.TSDBDiscovery.constructor | server/controller/trisolaris/node/tsdb_discovery.go:35-39 | The registration starts empty |
| TsdbNode.TSDBDiscovery.Register | server/controller/trisolaris/node/tsdb_discovery.go:41-64 | The registration maps the request's control IP to the analyzer it describes and keeps every other entry |
| TsdbNode.TSDBDiscovery.GetRegisterData | server/controller/trisolaris/node/tsdb_discovery.go:66-72 | The registration is returned and replaced by an empty one |
| TsdbNode.RegisterEach | server/controller/trisolaris/node/tsdb_discovery.go:41-64 | Registering requests one by one gives the specification's registration |
| TsdbNode.RegisterAllKeys | server/controller/trisolaris/node/tsdb_discovery.go:63 | After a batch, an IP is registered iff it was before or some request carries it |
| TsdbNode.LastRegistrationWins | server/controller/trisolaris/node/tsdb_discovery.go:63 | The entry of an IP is built from the last request carrying it |
| TsdbNode.RegisterAllKeepsOthers | server/controller/trisolaris/node/tsdb_discovery.go:63 | An IP no request carries keeps its entry |
| BasicMeter.Traffic.constructor | server/libs/zerodoc/basic_meter.go:26-40 | A new meter holds the zero traffic value |
| BasicMeter.Traffic.Reverse | server/libs/zerodoc/basic_meter.go:42-49 | The meter becomes the reversed value: tx and rx swapped for packets, bytes, L3 and L4 bytes |
| BasicMeter.ReverseTrafficInvolution | server/libs/zerodoc/basic_meter.go:42-49 | Reversing twice gives the value back, and reversing keeps the flow and L7 counters |
| BasicMeter.ReverseTrafficKeepsTotals | server/libs/zerodoc/basic_meter.go:42-49 | Reversing keeps the packet and byte totals (also lines 107, 115) |
| BasicMeter.Traffic.ConcurrentMerge | server/libs/zerodoc/basic_meter.go:83-97 | The meter becomes the field-wise 64-bit (L7 counters 32-bit) wrapping sum; the other meter is unchanged |
| BasicMeter.Traffic.SequentialMerge | server/libs/zerodoc/basic_meter.go:99-101 | The same as the concurrent merge |
| BasicMeter.MergeTrafficLaws | server/libs/zerodoc/basic_meter.go:83-97 | The merge is commutative and associative, with the zero value as identity |
| BasicMeter.ReverseDistributesOverMerge | server/libs/zerodoc/basic_meter.go:42-49 | Reversing a merge is merging the reversals (also lines 83-97) |
| BasicMeter.AddU64Comm | server/libs/zerodoc/basic_meter.go:83-97 | 64-bit wrapping addition commutes |
| BasicMeter.AddU64Assoc | server/libs/zerodoc/basic_meter.go:83-97 | 64-bit wrapping addition is associative |
| BasicMeter.AddU32Assoc | server/libs/zerodoc/basic_meter.go:95-96 | 32-bit wrapping addition is associative |
| BasicMeter.WrapAdd | server/libs/zerodoc/basic_meter.go:83-97 | Wrapping then adding is adding then wrapping |
| BasicMeter.Latency.ConcurrentMerge | server/libs/zerodoc/basic_meter.go:275-308 | Maxima take the larger value, sums add with 64-bit and counts with 32-bit wrap-around |
| BasicMeter.Latency.MergeMaxima | server/libs/zerodoc/basic_meter.go:276-293 | Each maximum becomes the larger of the two, and sums and counts are kept |
| BasicMeter.Latency.MergeSums | server/libs/zerodoc/basic_meter.go:295-300 | Each sum adds with 64-bit wrap-around, and maxima and counts are kept |
| BasicMeter.Latency.MergeCounts | server/libs/zerodoc/basic_meter.go:302-307 | Each count adds with 32-bit wrap-around, and maxima and sums are kept |
| BasicMeter.Latency.SequentialMerge | server/libs/zerodoc/basic_meter.go:310-312 | The same as the concurrent merge |
| BasicMeter.MergeLatencyMaxima | server/libs/zerodoc/basic_meter.go:276-293 | Each merged maximum is at least both maxima and is one of them |
| BasicMeter.MergeLatencyLaws | server/libs/zerodoc/basic_meter.go:275-308 | The latency merge is commutative and associative, with the zero value as identity |
| BasicMeter.Performance.ConcurrentMerge | server/libs/zerodoc/basic_meter.go:445-450 | Retransmissions and zero windows add with 64-bit wrap-around |
| BasicMeter.Performance.SequentialMerge | server/libs/zerodoc/basic_meter.go:452-454 | The same as the concurrent merge |
| BasicMeter.MergePerformanceLaws | server/libs/zerodoc/basic_meter.go:445-450 | The performance merge is commutative and associative, with zero as identity |
| BasicMeter.Anomaly.ConcurrentMerge | server/libs/zerodoc/basic_meter.go:569-587 | Every anomaly counter adds with wrap-around (64-bit, the L7 ones 32-bit) |
| BasicMeter.Anomaly.MergeTransfer | server/libs/zerodoc/basic_meter.go:570-575 | The RST, SYN-repeat and half-close counters add and the rest is kept |
| BasicMeter.Anomaly.MergeEstablish | server/libs/zerodoc/basic_meter.go:576-582 | The port-reuse, reset, queue-lack and timeout counters add and the rest is kept |
| BasicMeter.Anomaly.MergeL7 | server/libs/zerodoc/basic_meter.go:584-586 | The L7 error and timeout counters add with 32-bit wrap-around and the rest is kept |
| BasicMeter.Anomaly.SequentialMerge | server/libs/zerodoc/basic_meter.go:589-591 | The same as the concurrent merge |
| BasicMeter.MergeAnomalyLaws | server/libs/zerodoc/basic_meter.go:569-587 | The anomaly merge is commutative and associative, with zero as identity |
| BasicMeter.FlowLoad.ConcurrentMerge | server/libs/zerodoc/basic_meter.go:764-766 | The load adds with 64-bit wrap-around |
| BasicMeter.FlowLoad.SequentialMerge | server/libs/zerodoc/basic_meter.go:768-770 | The same as the concurrent merge |
| BasicMeter.Entries | server/libs/zerodoc/basic_meter.go:803-816 | No more entries than fields |
| BasicMeter.KeyValuesEmptyIff | server/libs/zerodoc/basic_meter.go:803-818 | The text is empty iff every value is zero, iff there is no entry |
| BasicMeter.KeyValuesIsJoin | server/libs/zerodoc/basic_meter.go:803-818 | The text is the comma join of "field" + decimal + "i" over the non-zero values |
| BasicMeter.KeyValuesEnds | server/libs/zerodoc/basic_meter.go:808-815 | A non-empty text ends with 'i' and does not start with ',' |
| BasicMeter.KeyValuesPrefix | server/libs/zerodoc/basic_meter.go:803-816 | The text of a prefix of the fields is a prefix of the text |
| BasicMeter.Put | server/libs/zerodoc/basic_meter.go:812-813 | The string is copied at the position and nothing else changes |
| BasicMeter.PutEntry | server/libs/zerodoc/basic_meter.go:805-815 | One entry is appended, after a comma when the offset is non-zero, and nothing else changes |
| BasicMeter.MarshalStep | server/libs/zerodoc/basic_meter.go:803-816 | One loop step extends the written text from the first i fields to the first i + 1 |
| BasicMeter.MarshalKeyValues | server/libs/zerodoc/basic_meter.go:798-819 | Unequal lengths fail (the panic) with the buffer untouched; otherwise the key-value text is written at the start and its length returned, and nothing else changes |
| BasicMeter.TrafficFieldValues | server/libs/zerodoc/basic_meter.go:114-117 | One value per traffic field |
| BasicMeter.MarshalAfterHead | server/libs/zerodoc/basic_meter.go:105-122 | Writes the head, a comma and the key-value text, dropping the comma when that text is empty |
| BasicMeter.Traffic.MarshalTo | server/libs/zerodoc/basic_meter.go:103-123 | Writes the traffic text and returns its length |
| BasicMeter.TrafficTextHead | server/libs/zerodoc/basic_meter.go:104-107 | The traffic text always starts with "packet=" |
| BasicMeter.TrafficTextIsJoin | server/libs/zerodoc/basic_meter.go:105-122 | The traffic text is the comma join of the packet head and the non-zero entries |
| BasicMeter.TrafficTextHeadOnly | server/libs/zerodoc/basic_meter.go:118-121 | The text is the packet head alone iff every other field is zero |
| BasicMeter.JoinCons | server/libs/zerodoc/basic_meter.go:108 | Joining a head with parts puts one separator between them, none without parts (also lines 118-121) |
| BasicMeter.Latency.MarshalTo | server/libs/zerodoc/basic_meter.go:314-324 | Writes the latency key-value text and returns its length |
| BasicMeter.LatencyFieldValues | server/libs/zerodoc/basic_meter.go:314-324 | One value per latency field |
| BasicMeter.Performance.MarshalTo | server/libs/zerodoc/basic_meter.go:456-464 | Writes the performance key-value text and returns its length |
| BasicMeter.PerformanceFieldValues | server/libs/zerodoc/basic_meter.go:456-464 | One value per performance field |
| BasicMeter.Anomaly.MarshalTo | server/libs/zerodoc/basic_meter.go:593-617 | Writes the anomaly key-value text and returns its length |
| BasicMeter.AnomalyFieldValues | server/libs/zerodoc/basic_meter.go:593-617 | One value per anomaly field |
| BasicMeter.FlowLoad.MarshalTo | server/libs/zerodoc/basic_meter.go:772-776 | Writes the load key-value text and returns its length |
| BasicMeter.ColumnsOf | server/libs/zerodoc/basic_meter.go:147-171 | One column of the type per name, in order |
| BasicMeter.UInt64Cells | server/libs/zerodoc/basic_meter.go:173-200 | One UInt64 cell per value, in order |
| BasicMeter.UInt32Cells | server/libs/zerodoc/basic_meter.go:377-418 | One UInt32 cell per value, in order |
| BasicMeter.Float64Cells | server/libs/zerodoc/basic_meter.go:377-418 | One Float64 cell per value, in order |
| BasicMeter.Traffic.WriteBlock | server/libs/zerodoc/basic_meter.go:173-200 | Appends the traffic values, packet and byte totals included, as UInt64 cells |
| BasicMeter.TrafficBlockMatchesColumns | server/libs/zerodoc/basic_meter.go:125-200 | The 14 traffic cells match the traffic columns in type; the packet and byte cells hold the wrapping tx + rx totals and l7_response its counter |
| BasicMeter.Latency.WriteBlock | server/libs/zerodoc/basic_meter.go:377-418 | Appends the latency cells: sums as Float64, counts as UInt64, maxima as UInt32 |
| BasicMeter.LatencyBlockMatchesColumns | server/libs/zerodoc/basic_meter.go:326-418 | The latency cells match the latency columns in type; rtt_sum, rtt_count and rtt_max land in their columns |
| BasicMeter.Performance.WriteBlock | server/libs/zerodoc/basic_meter.go:492-503 | Appends the performance values as UInt64 cells |
| BasicMeter.PerformanceBlockMatchesColumns | server/libs/zerodoc/basic_meter.go:466-503 | The performance cells match the columns; retrans and zero_win hold the tx + rx totals |
| BasicMeter.Anomaly.WriteBlock | server/libs/zerodoc/basic_meter.go:694-746 | Appends the anomaly cells, the derived failure sums included |
| BasicMeter.AnomalyBlockMatchesColumns | server/libs/zerodoc/basic_meter.go:619-746 | The anomaly cells match the anomaly columns in type |
| BasicMeter.AnomalyEstablishFail | server/libs/zerodoc/basic_meter.go:619-746 | client_establish_fail, server_establish_fail and tcp_establish_fail hold the wrapping sums of their causes |
| BasicMeter.AnomalyEstablishCells | server/libs/zerodoc/basic_meter.go:619-746 | The client_establish_fail, server_establish_fail and tcp_establish_fail cells hold the client failures, the server failures and their wrapping sum |
| BasicMeter.EstablishSum | server/libs/zerodoc/basic_meter.go:694-746 | Adding the wrapped client and server failure sums with wrap-around is the wrapped sum of all seven causes |
| BasicMeter.AnomalyTransferAndRstFail | server/libs/zerodoc/basic_meter.go:619-746 | tcp_transfer_fail and tcp_rst_fail hold the wrapping sums of their causes, and l7_error the sum of client and server errors |
| BasicMeter.ClientFailIsSum | server/libs/zerodoc/basic_meter.go:694-746 | The client establish failures are the wrapping sum of their three causes |
| BasicMeter.ServerFailIsSum | server/libs/zerodoc/basic_meter.go:694-746 | The server establish failures are the wrapping sum of their four causes |
| BasicMeter.TransferFailIsSum | server/libs/zerodoc/basic_meter.go:694-746 | The transfer failures are the wrapping sum of their six causes |
| BasicMeter.RstFailIsSum | server/libs/zerodoc/basic_meter.go:694-746 | The RST failures are the wrapping sum of their five causes |
| BasicMeter.WrapAdd3 | server/libs/zerodoc/basic_meter.go:694-746 | Three wrapping additions are one wrapped sum |
| BasicMeter.WrapAdd4 | server/libs/zerodoc/basic_meter.go:694-746 | Four uint64 counters added left to right with wrap-around equal their true sum modulo 2^64 |
| BasicMeter.WrapAdd5 | server/libs/zerodoc/basic_meter.go:694-746 | Five uint64 counters added left to right with wrap-around equal their true sum modulo 2^64 |
| BasicMeter.WrapAdd6 | server/libs/zerodoc/basic_meter.go:694-746 | Six uint64 counters added left to right with wrap-around equal their true sum modulo 2^64 |
| BasicMeter.ModAddMod | server/libs/zerodoc/basic_meter.go:694-746 | Adding two wrapped sums is wrapping their sum |
| BasicMeter.FlowLoad.WriteBlock | server/libs/zerodoc/basic_meter.go:786-796 | Appends the load as one UInt64 cell |
| HandleDocument.CompoundCodes | server/ingester/roze/unmarshaller/handle_document.go:32-37 | The edge code is IP path plus EPC path; the main and edge add-codes are the unions of their tag bits |
| HandleDocument.AddedCodesKeepEdge | server/ingester/roze/unmarshaller/handle_document.go:51-56 | Adding the port, edge or main add-code never changes whether a document is an edge document; the port add-code is then set (also lines 174) |
| HandleDocument.ExpandedCodeKeyService | server/ingester/roze/unmarshaller/handle_document.go:51-53 | A server-port document gets the key-service bit |
| HandleDocument.ExpandedCodeAdds | server/ingester/roze/unmarshaller/handle_document.go:51-56 | An edge code gains the edge add-code, any other the main add-code, after the port add-code when the server port is set (also lines 174) |
| HandleDocument.ExpandedCodeKeeps | server/ingester/roze/unmarshaller/handle_document.go:51-56 | Expansion only adds bits (also lines 174) |
| HandleDocument.ExpandedCodeKeepsEdge | server/ingester/roze/unmarshaller/handle_document.go:54 | Expansion keeps the edge/main distinction (also lines 173) |
| HandleDocument.Tag.AddCodes | server/ingester/roze/unmarshaller/handle_document.go:51-56 | Only the code changes, to the expanded code (also lines 174) |
| HandleDocument.ExpandClearsID | server/ingester/roze/unmarshaller/handle_document.go:41-47 | The tag id is always cleared; an ACL document of suffix 1 is otherwise left as it is |
| HandleDocument.ExpandCode | server/ingester/roze/unmarshaller/handle_document.go:44-56 | Any other document ends with the expanded code (also lines 174) |
| HandleDocument.InternetNotFilled | server/ingester/roze/unmarshaller/handle_document.go:57-59 | A document from the internet (both ends for an edge document) is not filled and not rejected (also lines 175-177) |
| HandleDocument.RejectedOnlyForOtherRegion | server/ingester/roze/unmarshaller/handle_document.go:163-168 | An error is returned only when the peer side (edge, server tap side) or the local side is of another region than this one (also lines 263-274) |
| HandleDocument.SingleEndOtherRegionRejected | server/ingester/roze/unmarshaller/handle_document.go:179-183 | A single-ended document whose platform info names another non-zero region than this (non-zero) one is rejected with the region message (also lines 191-204, 263-273) |
| HandleDocument.ServiceIDOnlyForPods | server/ingester/roze/unmarshaller/handle_document.go:117-128 | The service id changes only on a pod or pod-service side, and then to the looked-up id; nothing else changes (also lines 215-226) |
| HandleDocument.PeerFilled | server/ingester/roze/unmarshaller/handle_document.go:94-147 | Filling the peer side keeps the id, code, addresses and the local side |
| HandleDocument.LocalFilled | server/ingester/roze/unmarshaller/handle_document.go:191-246 | Filling the local side keeps the id, code, addresses and the peer side |
| HandleDocument.LocalFilledIds | server/ingester/roze/unmarshaller/handle_document.go:191-246 | The local side takes the info's region, AZ and subnet (16-bit) and pod; a service id only on a pod side; the key-service flag only for single-ended port documents |
| HandleDocument.PeerStep | server/ingester/roze/unmarshaller/handle_document.go:94-161 | The peer step keeps the id, code and addresses |
| HandleDocument.PeerStepKeepsSide0 | server/ingester/roze/unmarshaller/handle_document.go:94-147 | With local info present the peer step does not touch the local side |
| HandleDocument.MulticastSide0Borrows | server/ingester/roze/unmarshaller/handle_document.go:149-161 | Without local info and a multicast local IP, the local side borrows the peer's region, subnet and AZ |
| HandleDocument.MulticastSide1Borrows | server/ingester/roze/unmarshaller/handle_document.go:248-261 | On an edge document without peer info and a multicast peer IP, the peer side borrows the local region, subnet and AZ |
| HandleDocument.LocalOutcome | server/ingester/roze/unmarshaller/handle_document.go:191-274 | The local step keeps the id, code and addresses |
| HandleDocument.EdgeOutcome | server/ingester/roze/unmarshaller/handle_document.go:54-171 | The edge step keeps the id, code and addresses |
| HandleDocument.IpFromUint32FirstByte | server/ingester/roze/unmarshaller/handle_document.go:74-92 | The four-byte IPv4 address of a 32-bit value starts with its high byte |
| HandleDocument.Ipv4Multicast | server/ingester/roze/unmarshaller/handle_document.go:157 | An IPv4 address is multicast iff it lies in 224.0.0.0/4 (also lines 256) |
| HandleDocument.PlatformInfoTable.constructor | server/ingester/roze/unmarshaller/handle_document.go:39 | The platform table holds the lookups and no other-region count yet |
| HandleDocument.PlatformInfoTable.AddOtherRegion | server/ingester/roze/unmarshaller/handle_document.go:165 | The other-region count grows by one (also lines 266, 271) |
| HandleDocument.Tag.constructor | server/ingester/roze/unmarshaller/handle_document.go:39-49 | The tag holds the given value |
| HandleDocument.Tag.FillPeer | server/ingester/roze/unmarshaller/handle_document.go:94-147 | The tag becomes the peer-filled value |
| HandleDocument.Tag.FillLocal | server/ingester/roze/unmarshaller/handle_document.go:191-246 | The tag becomes the local-filled value |
| HandleDocument.Tag.BorrowForSide1 | server/ingester/roze/unmarshaller/handle_document.go:248-261 | The peer side borrows the local one exactly when peer info is missing on a multicast edge document |
| HandleDocument.Tag.BorrowForSide0 | server/ingester/roze/unmarshaller/handle_document.go:149-161 | The local side borrows the peer one exactly when local info is missing and the local IP is multicast |
| HandleDocument.Tag.CheckLocalRegion | server/ingester/roze/unmarshaller/handle_document.go:263-274 | A local-region mismatch returns the region error, leaves the tag and counts one other region; otherwise the local resources are filled |
| HandleDocument.Tag.CheckPeerRegion | server/ingester/roze/unmarshaller/handle_document.go:163-168 | A peer-region mismatch on the server tap side returns the regionID1 error and counts one other region |
| HandleDocument.Tag.ExpandLocal | server/ingester/roze/unmarshaller/handle_document.go:179-274 | The tag and error are the local outcome, and one other region is counted per error |
| HandleDocument.Tag.ExpandEdge | server/ingester/roze/unmarshaller/handle_document.go:54-171 | The tag and error are the edge outcome, and one other region is counted per error (also lines 191-274) |
| HandleDocument.Tag.DocumentExpand | server/ingester/roze/unmarshaller/handle_document.go:39-282 | The tag and error are those of the expansion specification, and one other region is counted per error |
| RozeDbWriter.CounterNames | server/ingester/roze/dbwriter/dbwriter.go:47-55 | The counter is metrics_1s, app_1s, app_1m or metrics_1m exactly for the tables of that range |
| RozeDbWriter.CKWriter.constructor | server/ingester/roze/dbwriter/dbwriter.go:56-57 | A writer has its counter name, table and engine, and nothing queued |
| RozeDbWriter.CKWriter.Put | server/ingester/roze/dbwriter/dbwriter.go:92 | The documents are queued after the earlier ones |
| RozeDbWriter.DbWriter.constructor | server/ingester/roze/dbwriter/dbwriter.go:40-69 | When every writer is created: one writer per table, each with its counter name and the merge-tree engine the replica setting selects |
| RozeDbWriter.NewDbWriter | server/ingester/roze/dbwriter/dbwriter.go:40-69 | Fails iff some table's writer cannot be created, with the error of the first such table and no DbWriter; otherwise the DbWriter of the constructor |
| RozeDbWriter.DbWriter.Put | server/ingester/roze/dbwriter/dbwriter.go:71-96 | Every table's writer receives its bucket of the items, in order, with one put iff the bucket is non-empty; no error |
| RozeDbWriter.SortIntoBuckets | server/ingester/roze/dbwriter/dbwriter.go:72-88 | One fresh cache per table id, each holding exactly the documents with that table id, in input order; other items and documents without a table id are skipped |
| RozeDbWriter.BucketMembers | server/ingester/roze/dbwriter/dbwriter.go:76-88 | A document is in a table's bucket iff it is among the items and its table id is that table |
| RozeDbWriter.BucketAppend | server/ingester/roze/dbwriter/dbwriter.go:76-88 | Bucketing distributes over concatenation, so each bucket keeps item order |
| RozeDbWriter.BucketSizesSnoc | server/ingester/roze/dbwriter/dbwriter.go:76-88 | One more item adds one to the bucket sizes iff it is an accepted document below the bound |
| RozeDbWriter.BucketSizesEmpty | server/ingester/roze/dbwriter/dbwriter.go:72-75 | No items, no bucketed documents |
| RozeDbWriter.BucketsPartition | server/ingester/roze/dbwriter/dbwriter.go:76-94 | The buckets together hold exactly the accepted documents: wrong types and unknown table ids are dropped |
| StreamDecoder.L7Disables | server/ingester/stream/decoder/decoder.go:109-120 | HTTP/1 and HTTP/2 follow the http switch, DNS, MySQL, Redis, Dubbo, Kafka and MQTT their own, and every other protocol is enabled |
| StreamDecoder.CategoriesShared | server/ingester/stream/decoder/decoder.go:257-278 | HTTP/1 and HTTP/2 share the HTTP counters, Kafka and MQTT the MQ ones; DNS, MySQL, Redis and Dubbo have one each, and no other protocol is counted |
| StreamDecoder.Decoder.constructor | server/ingester/stream/decoder/decoder.go:87-107 | A decoder has the disables of its flags, its codec and throttler, and a zero counter |
| StreamDecoder.Decoder.GetCounter | server/ingester/stream/decoder/decoder.go:122-126 | Returns the counter and starts a zero one |
| StreamDecoder.Decoder.Flush | server/ingester/stream/decoder/decoder.go:281-285 | Sends one flush mark to the throttler |
| StreamDecoder.Throttler.constructor | server/ingester/stream/decoder/decoder.go:87-107 | The throttler admits by the given rule and has sent nothing |
| StreamDecoder.Throttler.Send | server/ingester/stream/decoder/decoder.go:221 | The message is recorded, and the admission answer follows the rule (also lines 233, 250) |
| StreamDecoder.Decoder.SendFlow | server/ingester/stream/decoder/decoder.go:227-236 | Counter and sent messages are those of the flow step: one L4 count, one L4 drop when the throttler refuses |
| StreamDecoder.Decoder.SendProto | server/ingester/stream/decoder/decoder.go:238-279 | Counter and sent messages are those of the proto step |
| StreamDecoder.SendProtoCounts | server/ingester/stream/decoder/decoder.go:243-254 | Each log counts once; a disabled protocol is not sent and not counted as a throttler drop; an enabled one is sent and counted as a drop iff refused |
| StreamDecoder.SendProtoCategoryCount | server/ingester/stream/decoder/decoder.go:257-278 | The log's category, if any, counts one more, and no other category changes |
| StreamDecoder.SendProtoCategoryDrops | server/ingester/stream/decoder/decoder.go:244-278 | The category's drops grow by one iff the protocol is disabled or the throttler refused it |
| StreamDecoder.Decoder.CountCategory | server/ingester/stream/decoder/decoder.go:257-278 | A protocol with a category tallies one more log and the drop in it; any other leaves the counter |
| StreamDecoder.TallyCounts | server/ingester/stream/decoder/decoder.go:257-278 | Tallying touches only the named category's count and drops |
| StreamDecoder.TotalsKeepCategories | server/ingester/stream/decoder/decoder.go:243-253 | Changing the L7 totals changes no category counter |
| StreamDecoder.Decoder.SendTraces | server/ingester/stream/decoder/decoder.go:214-225 | Counter and sent messages are those of the traces step: one OTel count, one drop per refused logger |
| StreamDecoder.LoggersAccounting | server/ingester/stream/decoder/decoder.go:218-224 | Every logger is sent in order; the OTel drops grow by at most the number of loggers and nothing else changes |
| StreamDecoder.Decoder.HandleTaggedFlow | server/ingester/stream/decoder/decoder.go:162-178 | The loop gives the flow specification's counter and messages |
| StreamDecoder.TaggedFlowsAccounting | server/ingester/stream/decoder/decoder.go:162-178 | Each valid flow up to the first decode failure is counted and sent; each invalid flow is one error and the failure one more; drops stay within the sent flows |
| StreamDecoder.HasFailureTail | server/ingester/stream/decoder/decoder.go:163-170 | A decoded head does not change whether the rest fails |
| StreamDecoder.Decoder.HandleProtoLog | server/ingester/stream/decoder/decoder.go:180-193 | The loop gives the proto-log specification's counter and messages |
| StreamDecoder.ProtoLogsAccounting | server/ingester/stream/decoder/decoder.go:180-193 | The valid logs before the first failure are counted; the first failure or invalid log is one error and stops the loop; at most those logs are sent |
| StreamDecoder.LeadingValidLogs | server/ingester/stream/decoder/decoder.go:181-190 | Never more than the items |
| StreamDecoder.Decoder.HandleOpenTelemetry | server/ingester/stream/decoder/decoder.go:195-212 | The loop gives the traces specification's counter and messages |
| StreamDecoder.TracesAccounting | server/ingester/stream/decoder/decoder.go:195-212 | Each decoded traces batch counts once; a failure is one error and stops the loop; messages are only appended |
| StreamDecoder.Decoder.RunBatch | server/ingester/stream/decoder/decoder.go:136-158 | One batch of the receive loop gives the batch specification's counter and messages |
| StreamDecoder.BatchAccounting | server/ingester/stream/decoder/decoder.go:137-158 | Each nil entry sends one flush mark and every other entry counts once as raw |
| StreamDecoder.DispatchKeepsRawAndFlushes | server/ingester/stream/decoder/decoder.go:149-157 | Dispatching one buffer sends no flush mark and does not change the raw count |
| StreamDecoder.FlushCountSnoc | server/ingester/stream/decoder/decoder.go:281-285 | Sending a message adds a flush to the count iff it is a flush mark |
| CkMonitor.Monitor.constructor | server/ingester/ckmonitor/monitor.go:60-84 | The monitor has the configured interval and percentage, the free-space threshold in bytes, the addresses and the S3 volume, and a secondary connection iff a secondary address is set |
| CkMonitor.FreeSpaceThreshold | server/ingester/ckmonitor/monitor.go:64 | The configured gigabytes shifted left by 30 bits, within int64 |
| CkMonitor.Used | server/ingester/ckmonitor/monitor.go:146 | The used space, never more than the total |
| CkMonitor.UsageIsCeiling | server/ingester/ckmonitor/monitor.go:141-146 | The usage is the ceiling of used * 100 / total, at most 100 |
| CkMonitor.DivLe | server/ingester/ckmonitor/monitor.go:146 | Dividing by at least one never grows a number |
| CkMonitor.MulLe | server/ingester/ckmonitor/monitor.go:146 | Multiplication by a natural keeps order |
| CkMonitor.AsWrittenAgreesUnlessOverfull | server/ingester/ckmonitor/monitor.go:141-153 | For a disk reporting no more free than total space, the rule as written and the corrected rule decide alike |
| CkMonitor.UsageUnderflow | server/ingester/ckmonitor/monitor.go:146-147 | A disk whose free space exceeds its total gets a huge usage as written, and is cleaned, where the corrected usage is 0 and it is not cleaned |
| CkMonitor.Monitor.IsDisksNeedClean | server/ingester/ckmonitor/monitor.go:156-168 | True iff there is a disk and every disk needs cleaning |
| CkMonitor.DataDisks | server/ingester/ckmonitor/monitor.go:118-134 | The DeepFlow data disks are exactly the scanned disks named with the path_ prefix |
| CkMonitor.DiskScanStep | server/ingester/ckmonitor/monitor.go:118-134 | A row that fails to scan makes the whole scan fail; any other row adds itself to the data disks when its name has the data-disk prefix and sets the S3 flag when it has only the S3 prefix |
| CkMonitor.GetDFDiskInfos | server/ingester/ckmonitor/monitor.go:110-139 | The scan result, S3 flag and error are those of the disk-scan specification: a query error, a scan error (nil error, no disks), no data disk (error) or the data disks |
| CkMonitor.MinPartitions | server/ingester/ckmonitor/monitor.go:177-194 | The partitions kept are exactly the scanned rows with more than one partition |
| CkMonitor.MinPartitionsErrorSticks | server/ingester/ckmonitor/monitor.go:184-187 | A scan error in a row ends the scan with that error |
| CkMonitor.GetMinPartitions | server/ingester/ckmonitor/monitor.go:170-195 | A query error is returned; otherwise the row scan's result |
| CkMonitor.Statements | server/ingester/ckmonitor/monitor.go:203-227 | One statement per partition |
| CkMonitor.AttemptedPrefix | server/ingester/ckmonitor/monitor.go:203-210 | The statements executed are a prefix that stops right after the first failing one (also lines 220-227) |
| CkMonitor.Monitor.ExecAll | server/ingester/ckmonitor/monitor.go:203-211 | Runs statements up to the first failure, which is returned; connections and counter are kept |
| CkMonitor.Monitor.CleanMinPartitions | server/ingester/ckmonitor/monitor.go:197-229 | Executes the drop or move statements of the minimum partitions |
| CkMonitor.Monitor.UpdateConnections | server/ingester/ckmonitor/monitor.go:86-108 | Each connection is refreshed by the connection rule and nothing else changes |
| CkMonitor.Monitor.CheckServerStep | server/ingester/ckmonitor/monitor.go:251-266 | Executes the cleaning statements of one server |
| CkMonitor.CheckServerRule | server/ingester/ckmonitor/monitor.go:251-266 | Statements are issued only when the scan succeeds, every disk needs cleaning and the partitions are read; each targets that connection, moves to the volume iff there is an S3 disk and names one of the minimum partitions |
| CkMonitor.Monitor.CheckAll | server/ingester/ckmonitor/monitor.go:247-267 | Executes the cleaning statements of every connection that exists, in order |
| CkMonitor.CheckServersSnoc | server/ingester/ckmonitor/monitor.go:247-267 | One more connection adds its server's statements when present and nothing when absent |
| CkMonitor.Monitor.Tick | server/ingester/ckmonitor/monitor.go:239-267 | The counter grows by one; only when it is a multiple of the interval are the connections refreshed and both servers checked |
| CkMonitor.GoRem | server/ingester/ckmonitor/monitor.go:242 | Go's remainder is smaller than the divisor's magnitude |
| ExtMetricsConfig.Defaults | server/ingester/ext_metrics/config/config.go:69-78 | The defaults: writer 1/100000/51200/10, two decoder queues of 100000, TTL 7 and separate position 1 |
| ExtMetricsConfig.ValidateRepairs | server/ingester/ext_metrics/config/config.go:57-66 | Validation sets a zero queue count to 2 and a non-positive TTL to 7, changes nothing else, and is idempotent |
| ExtMetricsConfig.Config.constructor | server/ingester/ext_metrics/config/config.go:44-51 | The configuration holds the given values |
| ExtMetricsConfig.Config.Validate | server/ingester/ext_metrics/config/config.go:57-66 | The values become the validated values; no error |
| ExtMetricsConfig.Load | server/ingester/ext_metrics/config/config.go:68-99 | The configuration is the load specification's, none on a YAML error (the exit) |
| ExtMetricsConfig.LoadedIsValid | server/ingester/ext_metrics/config/config.go:68-99 | A loaded configuration is valid and keeps the base; it fails iff the YAML does not parse; each field present in the file overrides its default |
| QuerierFilter.LikeValue | server/querier/engine/clickhouse/filter.go:82-84 | For like and not like, every '*' of the value becomes '%' and nothing else changes; other operators keep the value |
| QuerierFilter.ListItems | server/querier/engine/clickhouse/filter.go:345-347 | Stripping the outer parentheses and splitting on ',' gives at least one item (also lines 394-396, 421-423) |
| QuerierFilter.RenderAllSpec | server/querier/engine/clickhouse/filter.go:98-106 | Rendering a list succeeds iff every item renders, then gives one rendering per item after the earlier ones, in order; on failure it returns the error of the first failing item (also lines 398-406) |
| QuerierFilter.RenderAllAlike | server/querier/engine/clickhouse/filter.go:98-106 | Two renderers that agree everywhere render alike (also lines 398-406) |
| QuerierFilter.RenderItems | server/querier/engine/clickhouse/filter.go:98-106 | The loop gives the list rendering, stopping at the first error (also lines 398-406) |
| QuerierFilter.LowerOfLower | server/querier/engine/clickhouse/filter.go:82 | Lower-casing text without capitals changes nothing (also lines 162, 204) |
| QuerierFilter.NegatableNegation | server/querier/engine/clickhouse/filter.go:521-535 | A negative operator (not regexp, not like, not in, !=) renders not(...) around the filter of its positive form |
| QuerierFilter.UntranslatedNegation | server/querier/engine/clickhouse/filter.go:329-336 | An untranslated not regexp is NOT before the regexp filter; any other operator gives "tag op value" (also lines 540-546) |
| QuerierFilter.Fallback | server/querier/engine/clickhouse/filter.go:216-338 | The fallback filter of a tag that is neither known nor aliased, as the specification gives it |
| QuerierFilter.MacFallback | server/querier/engine/clickhouse/filter.go:218-238 | A MAC tag's filter succeeds iff every item parses as a MAC, and then compares the tag with the quoted 64-bit values, parenthesised for in and not in |
| QuerierFilter.VersionsOf | server/querier/engine/clickhouse/filter.go:349-355 | One version per item: "1" exactly for "4", "0" otherwise |
| QuerierFilter.Versions | server/querier/engine/clickhouse/filter.go:349-355 | One version per item, each the IP-version code of the item |
| QuerierFilter.ScanInternet | server/querier/engine/clickhouse/filter.go:367-376 | hasTrue iff some item is "1"; hasFalse iff some item is not |
| QuerierFilter.IsInternetMapping | server/querier/engine/clickhouse/filter.go:363-392 | All "1" items keep the operator's sense (= for = and in, != otherwise), no "1" item inverts it, and a mixed list matches everything ("1=1") |
| QuerierFilter.ListItemsPair | server/querier/engine/clickhouse/filter.go:364-366 | "(a,b)" splits into the items a and b |
| QuerierFilter.IsInternetOverwrite | server/querier/engine/clickhouse/filter.go:377-392 | For "(0,1)" the code as written formats the translator with an empty operator, where the evident intent is "1=1" |
| QuerierFilter.IdSamplesParse | server/querier/engine/clickhouse/filter.go:399-400 | "(1,2)" does not parse as an integer; "1" and "2" do |
| QuerierFilter.IdAsWrittenParsesWhole | server/querier/engine/clickhouse/filter.go:393-406 | As written, the _id filter succeeds iff the whole value (not each item) parses as an integer |
| QuerierFilter.IdItemSample | server/querier/engine/clickhouse/filter.go:399-405 | The corrected item rendering of "1" and "2" formats the translator with the operator, the value and the integer |
| QuerierFilter.RenderPair | server/querier/engine/clickhouse/filter.go:398-406 | Two items that render give their two renderings |
| QuerierFilter.IdPairFilter | server/querier/engine/clickhouse/filter.go:393-417 | The corrected filter of "(1,2)" is the OR of the two item filters |
| QuerierFilter.IdListRejected | server/querier/engine/clickhouse/filter.go:393-417 | As written the value "(1,2)" is rejected, where the corrected filter ORs the filters of 1 and 2 |
| QuerierFilter.IdParenthesisedRejected | server/querier/engine/clickhouse/filter.go:393-404 | As written the one-id list "(1)" is rejected too; only an unparenthesised value such as "1" parses |
| QuerierFilter.IdItemsRendered | server/querier/engine/clickhouse/filter.go:393-417 | The corrected _id item loop renders every item iff every item parses as an int64, each as its parenthesised translator filter, in order |
| QuerierFilter.IdFilterShape | server/querier/engine/clickhouse/filter.go:393-417 | The corrected _id filter succeeds iff every item parses, and is the OR of one filter per item, under not(...) for not in and != |
| QuerierFilter.SplitIPs | server/querier/engine/clickhouse/filter.go:429-436 | The loop splits the items into the CIDR items and the single IPs of the specification |
| QuerierFilter.IpItemsPartition | server/querier/engine/clickhouse/filter.go:429-436 | Every item is exactly one of a CIDR (it contains '/') or a single IP; there are no single IPs iff every item is a CIDR |
| QuerierFilter.RangeFiltersOf | server/querier/engine/clickhouse/filter.go:460-465 | One range filter per IP, formatting the translator with the operator and the IP |
| QuerierFilter.IpFilterOf | server/querier/engine/clickhouse/filter.go:419-493 | The IP filter of the specification |
| QuerierFilter.IpFilterShape | server/querier/engine/clickhouse/filter.go:419-493 | The IP filter succeeds iff every CIDR parses, and is the OR of the CIDR part (when there are CIDRs) and the single-IP part (when there are IPs), under not(...) for not in and != |
| QuerierFilter.IpPartsCount | server/querier/engine/clickhouse/filter.go:478-485 | One part for the CIDRs when there are any, and one for the IPs when there are any |
| QuerierFilter.IpFilterNegation | server/querier/engine/clickhouse/filter.go:486-493 | not in and != give not(...) around the filter of in and = |
| QuerierFilter.IpNegatedFor | server/querier/engine/clickhouse/filter.go:486-493 | The negated operators and their positive forms give the same parts |
| QuerierFilter.Translated | server/querier/engine/clickhouse/filter.go:341-549 | The filter of a known tag with a where translator, as the specification gives it |
| QuerierFilter.SwitchNegation | server/querier/engine/clickhouse/filter.go:494-535 | For the switch-rendered tags a negative operator gives not(...) around its positive form's filter |
| QuerierFilter.WhereTag.constructor | server/querier/engine/clickhouse/filter.go:65 | The where tag holds the tag name and the value |
| QuerierFilter.WhereTag.Trans | server/querier/engine/clickhouse/filter.go:78-550 | The node, the rewritten tag and value are those of the translation specification |
| QuerierFilter.TransRewrites | server/querier/engine/clickhouse/filter.go:82-84 | Like operators replace '*' in the value; the tag is only rewritten, to itself without backquotes, when it is neither known nor aliased (also lines 274) |
| QuerierFilter.TransAlias | server/querier/engine/clickhouse/filter.go:85-89 | An alias whose target tag has a where translator filters as the target (also lines 341-549) |
| QuerierFilter.TransNegation | server/querier/engine/clickhouse/filter.go:341-549 | A known tag with a translator filters a negative operator as "(" + not(f) + ")" where its positive form gives "(" + f + ")" |
| QuerierFilter.TransLabelColumn | server/querier/engine/clickhouse/filter.go:274-301 | A missing label.X_0 column filters with k8s_label_0's translators on X |
| QuerierFilter.TransUntranslated | server/querier/engine/clickhouse/filter.go:274 | Any other unknown tag filters as match(...) for regexp, NOT match(...) for not regexp, "tag op value" otherwise, without backquotes (also lines 329-338) |
| QuerierFilter.Where.constructor | server/querier/engine/clickhouse/filter.go:42-47 | A where clause starts with no WITH clauses and no time bounds |
| QuerierFilter.Where.TransTime | server/querier/engine/clickhouse/filter.go:556-568 | A non-integer value is the parse error; otherwise >= adds a start, <= an end, and the node is the comparison itself |
| QuerierFilter.Where.TransFunction | server/querier/engine/clickhouse/filter.go:575-583 | An unknown operator is the "not support" error; otherwise the node compares the function with the value and the function's WITH clauses are appended |
| QuerierFilter.GetWhere | server/querier/engine/clickhouse/filter.go:60-67 | "time" gives a time statement, any other name a fresh where tag holding the name and value |
| QuerierTag.GetTagTranslator | server/querier/engine/clickhouse/tag.go:29-72 | No statement iff the name is unknown and is not a label., tag. or attribute. column; a statement has no flag and no WITH clauses; a known name with a tag translator selects that translator under the alias, or under the name without one |
| QuerierTag.SelectedTagName | server/querier/engine/clickhouse/tag.go:29-72 | The selected column is named by the alias when one is given, else by the name |
| QuerierTag.KnownUntranslatedTag | server/querier/engine/clickhouse/tag.go:62-70 | A known tag without a tag translator selects its own name under the alias |
| QuerierTag.LabelColumnTag | server/querier/engine/clickhouse/tag.go:37-49 | A missing label.X_0 column selects k8s_label_0's translator applied to X |
| QuerierTag.ExternalColumnTag | server/querier/engine/clickhouse/tag.go:50-58 | A missing tag.K column selects the tag translator applied to K |
| QuerierTag.GetMetricsTag | server/querier/engine/clickhouse/tag.go:74-83 | A statement iff the metric (without backquotes) is known, selecting its database field |
| QuerierTag.SelectedMetricName | server/querier/engine/clickhouse/tag.go:74-83 | The selected metric is named by the alias when given, else by the name |
| QuerierTag.GetDefaultTag | server/querier/engine/clickhouse/tag.go:85-94 | The name under the alias as given |
| QuerierTag.FormatCallbacks | server/querier/engine/clickhouse/tag.go:96-108 | MAC columns get one MAC callback first, under the result name; the tags and attributes aliases get the external-tags callback; nothing else |
| QuerierTag.SelectTag.Format | server/querier/engine/clickhouse/tag.go:96-108 | The model gains the column and then its callbacks |
| QuerierTag.Model.constructor | server/querier/engine/clickhouse/tag.go:96 | A model starts without columns and callbacks |
| QuerierTag.Model.AddTag | server/querier/engine/clickhouse/tag.go:97 | The column is appended and the callbacks are kept |
| QuerierTag.Model.AddCallback | server/querier/engine/clickhouse/tag.go:98-107 | The callback is appended and the columns are kept |
| QuerierCommon.LabelNaming | server/querier/engine/clickhouse/filter.go:150-161 | label.X_0, label.X_1 and label.X name the tags k8s_label_0, k8s_label_1 and k8s_label, with key X |
| QuerierCommon.ExternalNaming | server/querier/engine/clickhouse/filter.go:303-311 | tag.K and attribute.K name the tag and attribute tags, with key K |
| UniformSender.HeaderBytes | agent/src/sender/uniform_sender.rs:86-92 | The frame header is 19 bytes |
| UniformSender.HeaderTail | agent/src/sender/uniform_sender.rs:88-91 | Everything after the frame size is 15 bytes |
| UniformSender.HeaderRoundTrip | agent/src/sender/uniform_sender.rs:86-92 | Decoding the encoded header (big-endian size, type, little-endian version, sequence and vtap id) gives the header back, whatever follows |
| UniformSender.LeValueBound | agent/src/sender/uniform_sender.rs:89-91 | A little-endian value of n bytes is below 256^n |
| UniformSender.BeValueBound | agent/src/sender/uniform_sender.rs:87 | A big-endian value of n bytes is below 256^n |
| UniformSender.Slot | agent/src/sender/uniform_sender.rs:131-138 | Each item takes a 4-byte little-endian length (32-bit) followed by its encoding; a failed encoding leaves the length zero |
| UniformSender.Adopt | agent/src/sender/uniform_sender.rs:118-124 | The header takes the item's type and version only while its version is 0; size, sequence and vtap id are kept |
| UniformSender.AdoptSticks | agent/src/sender/uniform_sender.rs:118-124 | Once a first item with a non-zero version is adopted, later items change nothing |
| UniformSender.AdoptAllFixed | agent/src/sender/uniform_sender.rs:119-121 | A header with a non-zero version adopts nothing |
| UniformSender.Encoder.constructor | agent/src/sender/uniform_sender.rs:104-116 | A new encoder has the message type and vtap id, all other header fields 0 and an empty buffer |
| UniformSender.Encoder.SetMsgTypeAndVersion | agent/src/sender/uniform_sender.rs:118-124 | The header becomes the adopted header and the buffer is kept |
| UniformSender.Encoder.AddHeader | agent/src/sender/uniform_sender.rs:141-144 | The sequence grows by one (64-bit) and the header bytes are appended |
| UniformSender.Encoder.CacheToSender | agent/src/sender/uniform_sender.rs:126-139 | On an empty buffer the header adopts the item, its sequence grows and the buffer becomes header + slot; otherwise the slot is appended and the header kept |
| UniformSender.Encoder.AppendSlot | agent/src/sender/uniform_sender.rs:131-138 | The item's slot is appended |
| UniformSender.FramedAppend | agent/src/sender/uniform_sender.rs:131-138 | Appending a slot after the 4-byte frame length extends the header-and-slots part by that slot |
| UniformSender.SizePatched | agent/src/sender/uniform_sender.rs:131-138 | Writing the 4 size bytes over the zero placeholder leaves the bytes before it and the encoded item after it, so the slot is the size followed by the encoding |
| UniformSender.Encoder.SetHeaderFrameSize | agent/src/sender/uniform_sender.rs:146-149 | The first four bytes become the buffer length (32-bit) big-endian, and the rest is kept |
| UniformSender.Encoder.BufferLen | agent/src/sender/uniform_sender.rs:151-153 | The buffer length |
| UniformSender.Encoder.GetBuffer | agent/src/sender/uniform_sender.rs:155-157 | Returns the buffer and leaves it empty; the header is kept |
| UniformSender.FrameDecodes | agent/src/sender/uniform_sender.rs:86-92 | A frame whose size field holds its length decodes to the header with that size, and the slots follow the 19 header bytes (also lines 146-149) |
| UniformSender.SentFrameDecodes | agent/src/sender/uniform_sender.rs:308-314 | A frame as flushed decodes to its header with the frame length, followed by its slots |
| UniformSender.CachedFrame | agent/src/sender/uniform_sender.rs:126-139 | Caching one more item after a buffer holding the header and the slots of the items so far gives the header (adopted on a new frame) and the slots of the items plus the new one |
| UniformSender.SendBufferAccounting | agent/src/sender/uniform_sender.rs:316-377 | A send delivers the frame (connection usable and the write succeeds), counts one drop (connect or write failure), or loses it without a drop (setting the write timeout failed); reconnect stays set exactly when it was set and no connection was made |
| UniformSender.NoFrameToOldDestination | agent/src/sender/uniform_sender.rs:316-333 | With reconnect pending, a frame is delivered only over a new connection whose write succeeds, and a new connection clears reconnect |
| UniformSender.Sender.constructor | agent/src/sender/uniform_sender.rs:256-284 | A new sender has a fresh empty encoder, the configured destination, no connection, no reconnect, nothing sent, delivered or dropped |
| UniformSender.Sender.UpdateDstIpAndPort | agent/src/sender/uniform_sender.rs:286-306 | The destination becomes the configured one; reconnect is set when either part changed and kept otherwise; the connection, the encoder and the counts are kept |
| UniformSender.Sender.SendBufferTo | agent/src/sender/uniform_sender.rs:316-377 | The link (connection, reconnect flag, delivered frames, drop count) becomes the send_buffer outcome for the frame; the destination is kept |
| UniformSender.Sender.FlushEncoder | agent/src/sender/uniform_sender.rs:308-314 | A non-empty buffer is sent once with its frame size set, the link moves as send_buffer says (a connect clears reconnect) and the encoder is emptied; an empty one changes nothing |
| UniformSender.Sender.HandleTargetServer | agent/src/sender/uniform_sender.rs:480-488 | The item is cached; a frame of at most 8192 bytes stays in the encoder with link and destination unchanged; a longer one empties the encoder, refreshes the destination and is sent whole through send_buffer |
| UniformSender.Sender.OnTimeout | agent/src/sender/uniform_sender.rs:416-422 | On a queue timeout the destination is refreshed; a non-empty buffer is then sent through send_buffer and the encoder emptied, an empty one leaves the link as refreshed |
| ProtocolLogs.MessageTypeOf | agent/src/flow_generator/protocol_logs/mod.rs:96-103 | Client-to-server packets are requests and server-to-client packets responses, and nothing else |
| ProtocolLogs.PbHead | agent/src/flow_generator/protocol_logs/mod.rs:115-125 | The wire head carries the RRT in nanoseconds (microseconds times 1000) when that fits in 64 bits |
| ProtocolLogs.PbHeadInjective | agent/src/flow_generator/protocol_logs/mod.rs:115-125 | The wire RRT divided by 1000 is the RRT again, and two heads with the same wire form differ at most in version |
| ProtocolLogs.PbBase | agent/src/flow_generator/protocol_logs/mod.rs:171-219 | Mixed IPv4/IPv6 ends cannot be converted; IPv4 ends fill the 32-bit fields and leave the IPv6 ones unspecified; IPv6 ends fill the octets and zero the IPv4 fields; times are truncated to 64 bits and capture sequences to 32; tap type and tap side become their enum codes and the IP protocol its protocol number; the IPv6 and VIP-interface flags become 1 exactly when set and 0 otherwise; the head is the wire head; tap port, MACs, flow and vtap id, EPC ids, ports, TCP sequences, process and syscall fields carry over |
| ProtocolLogs.EbpfBaseInfo | agent/src/flow_generator/protocol_logs/mod.rs:222-332 | An eBPF packet's base info: addresses, MACs and ports in request order (swapped for responses), tap side, EPCs and process on the client-local side, request-only or response-only syscall and TCP fields |
| ProtocolLogs.FromEbpf | agent/src/flow_generator/protocol_logs/mod.rs:222-332 | The method builds the base info of the specification |
| ProtocolLogs.EbpfInfoConverts | agent/src/flow_generator/protocol_logs/mod.rs:171-219 | eBPF base info converts to the wire form iff both ends are of the same IP family (also lines 222-332) |
| ProtocolLogs.MergeIsSession | agent/src/flow_generator/protocol_logs/mod.rs:334-352 | A merged log is a session that keeps the request's start, request fields and flow; takes a process id and name only when the log's is non-zero; ends no earlier than it starts; merging the same log again changes nothing |
| ProtocolLogs.MergeBase | agent/src/flow_generator/protocol_logs/mod.rs:334-352 | The merge gives the merged base of the specification |
| ProtocolLogs.SessionId | agent/src/flow_generator/protocol_logs/mod.rs:369-377 | A session id exists exactly for DNS, Kafka, Dubbo and HTTP/2 with a non-zero id; the id is DNS's transaction id, Kafka's correlation id or HTTP/2's stream id, and Dubbo's serial id truncated to 32 bits |
| ProtocolLogs.MergedInfo | agent/src/flow_generator/protocol_logs/mod.rs:379-392 | Infos of the same protocol merge with that protocol's merge; different protocols have no merge (the unreachable arm) |
| ProtocolLogs.PackSessionId | agent/src/flow_generator/protocol_logs/mod.rs:454-471 | The aggregated id keeps the flow id's top byte and low 24 bits, then the protocol byte, then the low 24 bits of the session part |
| ProtocolLogs.ProtoBits | agent/src/flow_generator/protocol_logs/mod.rs:460 | The protocol fits in one byte (also lines 470) |
| ProtocolLogs.RequestMeetsResponse | agent/src/flow_generator/protocol_logs/mod.rs:454-471 | A request and its response on the same flow and protocol get the same aggregated id: through the session id when there is one, otherwise through consecutive capture sequences |
| ProtocolLogs.SameSessionLow | agent/src/flow_generator/protocol_logs/mod.rs:458-470 | The low 24 bits agree under the same conditions |
| ProtocolLogs.AppProtoLogsData.constructor | agent/src/flow_generator/protocol_logs/mod.rs:425-430 | The log holds the base and special info |
| ProtocolLogs.AppProtoLogsData.SessionMerge | agent/src/flow_generator/protocol_logs/mod.rs:474-477 | The base becomes the merged base and the special info the merged info |
| HttpPerf.Scan | agent/src/flow_generator/perf/http.rs:192-205 | No collected line and no pending text ever holds a carriage return |
| HttpPerf.ParseLines | agent/src/flow_generator/perf/http.rs:192-205 | The loop returns the lines of the line scan: every CRLF after the third byte ends a line, carriage returns are dropped, trailing text without CRLF is discarded |
| HttpPerf.ScanStep | agent/src/flow_generator/perf/http.rs:195-203 | One more byte either closes the pending line (LF after CR past index 2), extends it (any byte but CR) or is dropped (CR) |
| HttpPerf.TrailingTextDropped | agent/src/flow_generator/perf/http.rs:192-205 | Bytes without a line feed after the last CRLF add no line |
| HttpPerf.TextExtendsLine | agent/src/flow_generator/perf/http.rs:200-202 | Bytes other than CR and LF are appended to the pending line as characters |
| HttpPerf.LineEmitted | agent/src/flow_generator/perf/http.rs:192-205 | A run of text bytes followed by CRLF, starting at a line boundary, is emitted as exactly one line with that text |
| HttpPerf.CrlfEndsLine | agent/src/flow_generator/perf/http.rs:197-199 | CRLF past the third byte emits the pending line and starts an empty one |
| HttpPerf.ResponseAccounting | agent/src/flow_generator/perf/http.rs:225-269 | A response counts a client error for 4xx and a server error for 5xx; an HTTP/1 response always counts as a response, an HTTP/2 response only when its RRT is measured; a measured RRT (cached request time no later than the response) becomes the last RRT, raises the maximum, adds to the sum and the count; otherwise the last RRT is zero and the rest is kept (also lines 413-456) |
| HttpPerf.RrtConsistentPreserved | agent/src/flow_generator/perf/http.rs:246-269 | The last RRT is at most the maximum and the maximum at most the sum, from the zero counters and through requests and both kinds of response (also lines 279-283, 431-461) |
| HttpPerf.RrtCache.constructor | agent/src/flow_generator/perf/http.rs:175-190 | A new RRT cache holds no request time |
| HttpPerf.RrtCache.AddReqTime | agent/src/flow_generator/perf/http.rs:284-287 | The request time is stored under the flow id and stream id (none for HTTP/1) (also lines 462-466) |
| HttpPerf.RrtCache.GetAndRemoveReqTime | agent/src/flow_generator/perf/http.rs:249-257 | Returns the time stored under the key, if any, and removes the key (also lines 433-443) |
| HttpPerf.V1Head | agent/src/flow_generator/perf/http.rs:214-224 | An HTTP/1 head is accepted only for an HTTP/1 payload with at least one line; a request line has three space-separated parts with a known method and version; a response line yields the status code (also lines 227, 272-277) |
| HttpPerf.RequestLineNeedsThreeParts | agent/src/flow_generator/perf/http.rs:272-275 | A request line that does not split into three parts fails with HttpHeaderParseFailed |
| HttpPerf.HeadersSlice | agent/src/flow_generator/perf/http.rs:305-330 | The header block starts after the pad length (1) and priority (5) bytes, ends at frame length minus padding, lies inside the payload; anything else fails with HttpHeaderParseFailed |
| HttpPerf.FirstStatus | agent/src/flow_generator/perf/http.rs:342-356 | The header list yields a status iff it holds a :method or a :status header |
| HttpPerf.PrefaceSkipped | agent/src/flow_generator/perf/http.rs:373-376 | The connection preface in front of the frames is skipped |
| HttpPerf.WalkFindsHeaders | agent/src/flow_generator/perf/http.rs:370-402 | A successful frame walk stops at a HEADERS frame with a non-zero stream id found at some offset of the payload |
| HttpPerf.FoundInSuffix | agent/src/flow_generator/perf/http.rs:374 | A HEADERS frame found in a skipped-to suffix is found in the whole payload at the shifted offset (also lines 399) |
| HttpPerf.Snapshot | agent/src/flow_generator/perf/http.rs:117-143 | The flow statistics carry the protocol and the timeout count; without statistics everything else is zero; with them the counts carry over and the RRT sum and maximum are in whole microseconds |
| HttpPerf.HttpPerfData.constructor | agent/src/flow_generator/perf/http.rs:175-190 | A new parser shares the given RRT cache, has no statistics and the initial session |
| HttpPerf.HttpPerfData.Parse | agent/src/flow_generator/perf/http.rs:86-111 | The result and the new statistics, session and request-time cache are the parse step's: non-TCP packets fail with InvalidIpProtocol and an empty payload with ZeroPayloadLen, changing nothing; otherwise HTTP/1 is tried first, then HTTP/2 |
| HttpPerf.ParseOutcome | agent/src/flow_generator/perf/http.rs:86-111 | A TCP packet with payload parses iff HTTP/1 or HTTP/2 parsing does, failing with HttpHeaderParseFailed otherwise; the state is HTTP/1's with log data marked as HTTP/1, else HTTP/2's marked as HTTP/2, else HTTP/2's failed state with statistics and cache unchanged |
| HttpPerf.V1RequestThenResponse | agent/src/flow_generator/perf/http.rs:229-287 | An HTTP/1 request at t1 then a response at t2 >= t1 on the same flow: last RRT t2 - t1, the request time removed, request, response and RRT counts one higher, RRT sum grown by t2 - t1 |
| HttpPerf.V2RequestThenResponse | agent/src/flow_generator/perf/http.rs:415-466 | The same for HTTP/2 when both HEADERS frames carry the same stream id, keyed by that id |
| HttpPerf.V1ResponseWithoutRequest | agent/src/flow_generator/perf/http.rs:246-257 | An HTTP/1 response with no cached request time counts the response, sets the last RRT to zero and leaves RRT sum, count and cache alone |
| HttpPerf.HttpPerfData.ParseHttpV1 | agent/src/flow_generator/perf/http.rs:207-290 | The result and new state are the HTTP/1 step's: a rejected head changes nothing; a response sets message type, code and status, updates the statistics with the cached request time and removes it; a request counts and stores its time |
| HttpPerf.HttpPerfData.ParseHttpV2 | agent/src/flow_generator/perf/http.rs:405-469 | The result and new state are the HTTP/2 step's: a failed frame walk keeps the statistics and cache; a response or request does as for HTTP/1, keyed by the HEADERS frame's stream id |
| HttpPerf.HttpPerfData.ParseFrame | agent/src/flow_generator/perf/http.rs:370-402 | The loop computes the frame walk: its last frame header and its status; nothing else changes |
| HttpPerf.HttpPerfData.ParseHeadersFramePayload | agent/src/flow_generator/perf/http.rs:304-357 | Returns the status of the header block cut out by the headers slice |
| HttpPerf.HttpPerfData.CopyAndResetData | agent/src/flow_generator/perf/http.rs:113-143 | Returns the snapshot of the statistics and leaves none, so data is no longer updated |
| HttpPerf.HttpPerfData.AppProtoHeadOf | agent/src/flow_generator/perf/http.rs:145-171 | Only an HTTP/1 or HTTP/2 session with log data yields a head, which clears the log-data mark; the head carries the session's protocol, type, status, code and the last RRT in microseconds (zero without statistics) |

## Specification functions

These functions compute what a source function computes and carry no
contract of their own. The members in the last column state their
properties; those members have rows under "## Model".

| function | source | stated by |
|---|---|---|
| Recorder.DomainUpdatersInOrder | server/controller/recorder/recorder.go:192-236 | Recorder.DomainUpdatersShape, Recorder.DomainFront, Recorder.VMPodNodeConnectionDeletedLast |
| Recorder.WholePass | server/controller/recorder/recorder.go:141-185 | Recorder.Recorder.RunWholePass, Recorder.WholePassSplits, Recorder.Recorder.CompleteRefreshWhole |
| DomainService.KubernetesRelatedRows | server/controller/service/domain.go:228-253 | DomainService.CreateDomain |
| DomainService.FirstCluster | server/controller/service/domain.go:122-123 | DomainService.FirstClusterSpec |
| DomainService.FirstVTap | server/controller/service/domain.go:126-127 | DomainService.FirstVTapSpec |
| DomainService.ClusterVTap | server/controller/service/domain.go:121-134 | DomainService.ClusterVTapFound |
| DomainService.DomainRespOf | server/controller/service/domain.go:86-145 | DomainService.DomainRespFrom, DomainService.GetDomains, DomainService.CreateExistingReturnsStored, DomainService.CreateNewListsRequest |
| DomainService.NameTaken | server/controller/service/domain.go:152-161 | DomainService.CreateDomain |
| DomainService.AZRowOf | server/controller/service/domain.go:228-253 | DomainService.Commit, DomainService.CreateNewListsRequest |
| DomainService.BaseColumns | server/controller/service/domain.go:267-285 | DomainService.BuildUpdate, DomainService.UpdatedRowFields |
| DomainService.UpdateColumns | server/controller/service/domain.go:267-318 | DomainService.BuildUpdate, DomainService.UpdateDomain, DomainService.UnchangedConfigSaveIsIdentity |
| DomainService.ApplyColumns | server/controller/service/domain.go:320-321 | DomainService.UpdateDomain, DomainService.UpdatedRowFields, DomainService.UpdatedControllerIP, DomainService.UnchangedSaveKeepsRow |
| DomainService.ConfigMovesController | server/controller/service/domain.go:304-306 | DomainService.UpdatedControllerIP |
| ControllerMonitor.InsertDesc | server/controller/monitor/controller.go:253-255 | ControllerMonitor.InsertLast, ControllerMonitor.InsertDescPerm, ControllerMonitor.InsertDescSorted |
| ControllerMonitor.SortDesc | server/controller/monitor/controller.go:253-255 | ControllerMonitor.SortCandidates, ControllerMonitor.SortDescSpec, ControllerMonitor.SortDescHead |
| ControllerMonitor.AllocStep | server/controller/monitor/controller.go:245-265 | ControllerMonitor.AllocStepSpec, ControllerMonitor.AllocStepShape, ControllerMonitor.AllocOne |
| ControllerMonitor.AllocVTaps | server/controller/monitor/controller.go:245-266 | ControllerMonitor.AllocInAZ, ControllerMonitor.AllocVTapsAllOrNothing, ControllerMonitor.TiesFollowSortedOrder |
| BasicMeter.ReverseTraffic | server/libs/zerodoc/basic_meter.go:42-49 | BasicMeter.Traffic.Reverse, BasicMeter.ReverseTrafficInvolution, BasicMeter.ReverseTrafficKeepsTotals |
| BasicMeter.MergeTraffic | server/libs/zerodoc/basic_meter.go:83-97 | BasicMeter.Traffic.ConcurrentMerge, BasicMeter.MergeTrafficLaws, BasicMeter.ReverseDistributesOverMerge |
| HandleDocument.Expand | server/ingester/roze/unmarshaller/handle_document.go:39-282 | HandleDocument.Tag.DocumentExpand, HandleDocument.ExpandClearsID, HandleDocument.ExpandCode, HandleDocument.InternetNotFilled, HandleDocument.RejectedOnlyForOtherRegion |
| RozeDbWriter.Bucket | server/ingester/roze/dbwriter/dbwriter.go:76-88 | RozeDbWriter.SortIntoBuckets, RozeDbWriter.BucketMembers, RozeDbWriter.BucketAppend |
| StreamDecoder.Batch | server/ingester/stream/decoder/decoder.go:136-158 | StreamDecoder.Decoder.RunBatch, StreamDecoder.BatchAccounting |
| StreamDecoder.TaggedFlows | server/ingester/stream/decoder/decoder.go:162-178 | StreamDecoder.Decoder.HandleTaggedFlow, StreamDecoder.TaggedFlowsAccounting |
| StreamDecoder.SendProtoSpec | server/ingester/stream/decoder/decoder.go:238-279 | StreamDecoder.Decoder.SendProto, StreamDecoder.SendProtoCounts, StreamDecoder.SendProtoCategoryCount, StreamDecoder.SendProtoCategoryDrops |
| CkMonitor.UsageAsWritten | server/ingester/ckmonitor/monitor.go:146 | CkMonitor.UsageUnderflow, CkMonitor.AsWrittenAgreesUnlessOverfull |
| CkMonitor.Usage | server/ingester/ckmonitor/monitor.go:146 | CkMonitor.UsageIsCeiling, CkMonitor.AsWrittenAgreesUnlessOverfull |
| CkMonitor.DiskNeedsCleanAsWritten | server/ingester/ckmonitor/monitor.go:141-153 | CkMonitor.UsageUnderflow, CkMonitor.AsWrittenAgreesUnlessOverfull |
| CkMonitor.DiskNeedsClean | server/ingester/ckmonitor/monitor.go:141-153 | CkMonitor.UsageUnderflow, CkMonitor.AsWrittenAgreesUnlessOverfull, CkMonitor.Monitor.IsDisksNeedClean |
| CkMonitor.DisksNeedClean | server/ingester/ckmonitor/monitor.go:156-168 | CkMonitor.Monitor.IsDisksNeedClean, CkMonitor.CheckServerRule |
| CkMonitor.DFDiskInfos | server/ingester/ckmonitor/monitor.go:110-139 | CkMonitor.GetDFDiskInfos, CkMonitor.DiskScanStep |
| CkMonitor.Clean | server/ingester/ckmonitor/monitor.go:197-229 | CkMonitor.Monitor.CleanMinPartitions, CkMonitor.AttemptedPrefix |
| CkMonitor.CheckServer | server/ingester/ckmonitor/monitor.go:251-266 | CkMonitor.CheckServerRule, CkMonitor.Monitor.CheckServerStep, CkMonitor.CheckServersSnoc |
| QuerierFilter.TransSpec | server/querier/engine/clickhouse/filter.go:78-550 | QuerierFilter.WhereTag.Trans, QuerierFilter.TransRewrites, QuerierFilter.TransAlias, QuerierFilter.TransNegation, QuerierFilter.TransLabelColumn, QuerierFilter.TransUntranslated |
| QuerierFilter.TranslatedFilter | server/querier/engine/clickhouse/filter.go:341-549 | QuerierFilter.Translated, QuerierFilter.TransNegation |
| QuerierFilter.BranchFilter | server/querier/engine/clickhouse/filter.go:341-549 | QuerierFilter.Translated, QuerierFilter.IsInternetMapping, QuerierFilter.IdFilterShape, QuerierFilter.IpFilterShape |
| QuerierFilter.FallbackFilter | server/querier/engine/clickhouse/filter.go:216-338 | QuerierFilter.Fallback, QuerierFilter.MacFallback |
| QuerierFilter.IsInternetFilter | server/querier/engine/clickhouse/filter.go:363-392 | QuerierFilter.IsInternetMapping, QuerierFilter.IsInternetOverwrite |
| QuerierFilter.IsInternetFilterAsWritten | server/querier/engine/clickhouse/filter.go:363-392 | QuerierFilter.IsInternetOverwrite |
| QuerierFilter.IdFilter | server/querier/engine/clickhouse/filter.go:393-417 | QuerierFilter.IdFilterShape, QuerierFilter.IdPairFilter, QuerierFilter.IdListRejected |
| QuerierFilter.IdFilterAsWritten | server/querier/engine/clickhouse/filter.go:393-417 | QuerierFilter.IdAsWrittenParsesWhole, QuerierFilter.IdListRejected, QuerierFilter.IdParenthesisedRejected |
| QuerierFilter.IpFilter | server/querier/engine/clickhouse/filter.go:419-493 | QuerierFilter.IpFilterOf, QuerierFilter.IpFilterShape, QuerierFilter.IpFilterNegation |
| UniformSender.CachedHeader | agent/src/sender/uniform_sender.rs:126-139 | UniformSender.Encoder.CacheToSender, UniformSender.CachedFrame |
| UniformSender.CachedBuffer | agent/src/sender/uniform_sender.rs:126-139 | UniformSender.Encoder.CacheToSender, UniformSender.CachedFrame, UniformSender.Sender.HandleTargetServer |
| UniformSender.Framed | agent/src/sender/uniform_sender.rs:146-149 | UniformSender.Sender.FlushEncoder, UniformSender.SentFrameDecodes |
| UniformSender.SendBuffer | agent/src/sender/uniform_sender.rs:316-377 | UniformSender.SendBufferAccounting, UniformSender.NoFrameToOldDestination, UniformSender.Sender.SendBufferTo |
| ProtocolLogs.MergedBase | agent/src/flow_generator/protocol_logs/mod.rs:334-352 | ProtocolLogs.MergeBase, ProtocolLogs.MergeIsSession |
| ProtocolLogs.ProtocolNumber | agent/src/flow_generator/protocol_logs/mod.rs:198 | ProtocolLogs.PbBase |
| HttpPerf.FrameWalk | agent/src/flow_generator/perf/http.rs:370-402 | HttpPerf.HttpPerfData.ParseFrame, HttpPerf.WalkFindsHeaders, HttpPerf.PrefaceSkipped |
| HttpPerf.HeadersStatus | agent/src/flow_generator/perf/http.rs:304-357 | HttpPerf.HttpPerfData.ParseHeadersFramePayload, HttpPerf.HeadersSlice, HttpPerf.FirstStatus |
| HttpPerf.V1Response | agent/src/flow_generator/perf/http.rs:229-269 | HttpPerf.ResponseAccounting, HttpPerf.RrtConsistentPreserved, HttpPerf.V1RequestThenResponse |
| HttpPerf.V2Response | agent/src/flow_generator/perf/http.rs:415-456 | HttpPerf.ResponseAccounting, HttpPerf.RrtConsistentPreserved, HttpPerf.V2RequestThenResponse |
| HttpPerf.V1Step | agent/src/flow_generator/perf/http.rs:207-290 | HttpPerf.HttpPerfData.ParseHttpV1, HttpPerf.V1RequestThenResponse, HttpPerf.V1ResponseWithoutRequest |
| HttpPerf.V2Step | agent/src/flow_generator/perf/http.rs:405-469 | HttpPerf.HttpPerfData.ParseHttpV2, HttpPerf.V2RequestThenResponse |
| HttpPerf.ParseStep | agent/src/flow_generator/perf/http.rs:86-111 | HttpPerf.HttpPerfData.Parse, HttpPerf.ParseOutcome |

## Left out

- Recorder goroutines, `time.Sleep` and Go map iteration order: the background refresh is a pending pass completed by a separate step, the poll loop is one step per tick, and sub-domains come as an arbitrary sequence.
- The updater and operator base types and the diff-base cache are modelled only through the behaviour the updaters use (lookups, add/update/delete lists); the files that define them are not part of this model.
- MySQL and ClickHouse I/O: tables are maps or sequences. Query or connection failures are parameters only where a member takes them (`Env`, `execOk`, `ping`, `azCreated`); the members listed next assume their writes succeed.
- Updater.SubDomainUpdater.HandleAddAndUpdate: the insert is taken to succeed, so the rows always join the cache and the recorded store calls; the failure path of the batch insert is not modelled.
- Updater.SubDomainUpdater.HandleDelete: the delete is taken to succeed, so the lcuuids always leave the cache; the failure path of the batch delete is not modelled.
- DbOperator.DeleteRegions: the store delete is taken to succeed; a failed delete, which leaves the table as it was, is not modelled.
- DbOperator.DeleteNetworks: the store delete is taken to succeed; a failed delete, which leaves the table as it was, is not modelled.
- DbOperator.DeletePodIngresses: the store delete is taken to succeed; a failed delete, which leaves the table as it was, is not modelled.
- Cloud SDK and API calls, UUID generation and clocks are function parameters.
- The I/O and address-parsing helpers of `server/controller/cloud/common/utils.go` other than the modelled ones (HTTP requests, `netaddr` range arithmetic) are not modelled.
- BasicMeter: float64 columns are modelled as exact integers; `WriteToPB`/`ReadFromPB` (protobuf) are not modelled; the `Reverse` methods that do nothing are not modelled; ClickHouse block writes are treated as infallible.
- CkMonitor: opening connections in `NewCKMonitor` is left out (the constructor takes open connections); the S3 volume default comes from a configuration package that is not part of this model and is a constructor parameter.
- StreamDecoder: the `Run` loop runs forever and is modelled one batch at a time; protobuf decoding and JSON rendering are parameters; the guard for a missing throttler is left out because a throttler is always created; a buffer of the wrong type is the `Foreign` batch entry, which counts as raw and is otherwise dropped, and its log line is not modelled.
- QuerierFilter and QuerierTag: the SQL parser, the view package's internals (`view.Time`, `Where.Format`, `Having.Format`), `fmt.Sprintf`, the `net`/`netaddr` parsers and the tag and metric tables are parameters (`Lib`, `operators`, `exprText`); the text of `strconv.Atoi` errors is not modelled.
- UniformSender: TCP and file output (`handle_target_file`), the queue-driven `process` loop and the rx, tx and tx_bytes counters are not modelled (the dropped counter is `Link.dropped`); encoding failure is an `Err` value; the sequence number wraps at 64 bits where a debug build of the agent would panic.
- ProtocolLogs: the per-protocol merge functions are a parameter; protobuf fields of the protocol-specific infos are not converted; L7 protocol codes come from `common/flow.rs` and the tap type and tap side codes from the agent's enums, which are not part of this model, so the latter are the `EnumCodes` parameter of `PbBase`; IP protocols are given their IANA protocol numbers; conditions under which the code panics are preconditions or `None`; protobuf encoding is not modelled.
- ProtocolLogs.EbpfFlowSessionId: has no contract of its own; the bit layout of the id is stated by `ProtocolLogs.PackSessionId`.
- HttpPerf: the constants of `consts.rs` (the HTTP/2 preface, frame-header length, HEADERS frame type and flags) are written as module constants with the upstream values, since that file is not part of this model; the HPACK decoder (RFC 7541), the HTTP/2 frame-header reader and the HTTP/1 helpers of the protocol-log module are parameters (`HttpLib`); when the frame-header reader fails, the last frame header is kept unchanged; the RRT cache's LRU eviction and capacity are not modelled; `Duration` overflow panics are not modelled; the other `FlowPerfStats` fields stay at their defaults; `Display` and `PartialEq` are not modelled.
- CkMonitor.Monitor.IsDisksNeedClean: uses the corrected usage (`Used`, see Findings), so a disk reporting more free than total space counts as 0% used and is not cleaned; monitor.go:146 as written would wrap and clean it. `CkMonitor.AsWrittenAgreesUnlessOverfull` shows the two rules agree on every other disk.
- CkMonitor.CheckServerRule: states the clean decision with the corrected usage; it differs from monitor.go as written only for a disk whose free space exceeds its total.
- CkMonitor.CheckServer: decides by the corrected usage; same difference as above.
- CkMonitor.Monitor.CheckServerStep: cleans by the corrected usage; same difference as above.
- CkMonitor.Monitor.CheckAll: cleans by the corrected usage; same difference as above.
- CkMonitor.Monitor.Tick: cleans by the corrected usage; same difference as above.
- QuerierFilter.WhereTag.Trans: uses the corrected is_internet and _id rules (see Findings), so `is_internet IN (0,1)` gives "1=1" and `_id IN (1)` or `_id IN (1,2)` gives one filter per id, where filter.go:377-392 and 398-404 as written give a filter with no operator and an error.
- QuerierFilter.Translated: the same corrected is_internet and _id rules as `QuerierFilter.WhereTag.Trans`, with the same difference.
- QuerierFilter.TransNegation: stated over the corrected rules, like `QuerierFilter.Translated`.
- QuerierFilter.TransSpec: built on `QuerierFilter.BranchFilter`, so it carries the same corrected is_internet and _id rules.
- QuerierFilter.BranchFilter: calls the corrected `IsInternetFilter` and `IdFilter`; the as-written versions appear only in the Findings lemmas.
- CloudCommon.StringInterfaceMapKVs: takes a map of strings; a value that is not a string makes utils.go:69 panic on the `.(string)` assertion, a case the typed map cannot express, so the model says nothing about it.
- DomainService.UpdateDomain: the enabled column is written in the update map but is not a field of this model's rows; a scalar of the wrong kind for its column (a non-string NAME, a non-numeric ICON_ID) is taken as not applied, where MySQL would convert or reject it and the error is ignored; the purge of soft-deleted resources is the returned flag, since deleteSoftDeletedResource is not part of this model.
- Genesis.Genesis.constructor: the file declaring the Genesis adapter and NewGenesis is not part of this model; the constructor sets the fields that vinterface.go and ip.go read and write (region, default VPC name and flag, API statistics) and nothing else.
- QingCloud.QingCloud.constructor: the file declaring the QingCloud adapter and NewQingCloud is not part of this model; the constructor sets the two tables nat_gateway.go and sub_domain.go use (resource counts per region, default VPC per region), and the region table `RegionIdToLcuuid` is passed to each listing as a sequence.
- HandleDocument: the tag code bits (`L3_DEVICE` to `IS_KEY_SERVICE`), `EPC_FROM_INTERNET`, `ACL_ID`, `DEVICE_TYPE_POD_SERVICE` and the tap sides `CLIENT` and `SERVER` are module constants with the upstream values, since the zerodoc and datatype files that declare them are not part of this model; so are the combined codes (`EDGE_CODE`, `MAIN_ADD_CODE`, `EDGE_ADD_CODE`, `PORT_ADD_CODE`), which `HandleDocument.CompoundCodes` shows to be the unions of those bits.
- DomainService.DomainRespFrom: the response's enabled flag, state, error message and creation and sync timestamps are not carried (they are copied from the row unchanged), and neither are the GO_BIRTHDAY time formatting and the ID column, which repeats the cluster id; errors of the cluster and agent queries are, as in the source, an absent agent.
- DomainService.GetDomains: the same uncarried columns as `DomainService.DomainRespFrom`; the lcuuid and name filter and the `created_at DESC` order are applied by the caller, since the listed rows are a parameter already selected and ordered; a "first" cluster or agent row means first in the given sequence, which stands for the database's primary-key order.
- DomainService.CreateDomain: a config whose region_uuid or controller_ip is present but not a string makes domain.go:184 and :198 panic on the `.(string)` assertion; the typed request excludes that case by precondition, so the model says nothing about it. The outcome of the VPC insert is not modelled (it is not read back); the AZ insert's outcome is the `azCreated` parameter.
- ControllerMonitor.SortCandidates: with Go 1.19 or later, sort.Slice sorts up to 12 elements by insertion sort, which the model follows, so ties keep their order (earlier Go releases ran a gap-6 Shell pass before the insertion sort on 7 to 12 elements, and their tie order for those sizes is not reproduced); with more than 12 candidates Go switches to pattern-defeating quicksort, whose order of equal counts the model does not reproduce (the model's order is still a descending sort of the same candidates).
- HttpPerf.Snapshot: the microsecond RRT sum and maximum are stated only while they fit in 64 and 32 bits; beyond that the cast truncates and the contract says nothing.
- ProtocolLogs.PbHead: the nanosecond RRT is stated only while it fits in 64 bits.

## Findings

| source | as written | input that shows it | evidently intended | confidence | as-written member | corrected member |
|---|---|---|---|---|---|---|
| server/ingester/ckmonitor/monitor.go:146 | the used space is the uint64 difference total − free, which wraps when a disk reports more free space than its total | a disk with total 100 and free 101, usage limit 80%, free-space limit 50 GB | a disk with more free than total space is 0% used and is not cleaned | not executed | CkMonitor.UsageUnderflow | CkMonitor.UsageIsCeiling |
| server/querier/engine/clickhouse/filter.go:377-392 | for an `is_internet` list mixing 0 and 1 the "1=1" filter is set, then overwritten by the translator formatted with an empty operator | `is_internet IN (0,1)` | the mixed list matches every row ("1=1") | not executed | QuerierFilter.IsInternetOverwrite | QuerierFilter.IsInternetMapping |
| server/querier/engine/clickhouse/filter.go:398-404 | each item of an `_id` list is parsed from the whole value instead of the item, so every parenthesised value is rejected, even the one-id `_id IN (1)`; only an unparenthesised `_id = 1` parses | `_id IN (1,2)`, `_id IN (1)` | the filter of each id, joined with OR | not executed | QuerierFilter.IdListRejected | QuerierFilter.IdFilterShape |
