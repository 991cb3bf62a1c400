/**
 * The QingCloud adapter's NAT gateway and sub-domain listings. For every
 * region the cloud's answer (DescribeNFVs, DescribeClusters) is turned into
 * snapshot records; an API error aborts the listing.
 *
 * The API answers are a function of the region id; the regions are the
 * adapter's region map visited in some order, given as a sequence.
 * GenerateUUID is a function given by the caller. The JSON encoding of a
 * sub-domain's config is not modelled: the config is kept as a map.
 */
module QingCloud {
  import opened Wrappers
  import Text

  /** Constants of the controller's common package (upstream values). */
  const VIF_TYPE_WAN: int := 3
  const VIF_DEVICE_TYPE_NAT_GATEWAY: int := 16
  const VIF_DEFAULT_MAC: string := "00:00:00:00:00:00"
  const NETWORK_ISP_LCUUID: string := "ffffffff-ffff-ffff-ffff-ffffffffffff"
  const DEFAULT_PORT_NAME_REGEX: string := "^(cni|flannel|vxlan.calico|tunl|en[ospx])"

  // ---------------------------------------------------------------- NAT gateways

  /** A cluster of an NFV: its EIP (private clouds report it here) and its instances. */
  datatype NatCluster = NatCluster(eipAddr: string, instanceIds: seq<string>)

  /** One entry of DescribeNFVs' nfv_set. */
  datatype NAT = NAT(nfvId: string, nfvName: string, vpcRouterId: string, eipAddrs: seq<string>, clusters: seq<NatCluster>)

  datatype NATGateway = NATGateway(lcuuid: string, name: string, displayLabel: string, floatingIPs: string,
                                   vpcLcuuid: string, regionLcuuid: string)

  datatype VInterface = VInterface(lcuuid: string, vifType: int, mac: string, deviceType: int, deviceLcuuid: string,
                                   networkLcuuid: string, vpcLcuuid: string, regionLcuuid: string)

  datatype IP = IP(lcuuid: string, vinterfaceLcuuid: string, ip: string, subnetLcuuid: string, regionLcuuid: string)

  datatype NATVMConnection = NATVMConnection(lcuuid: string, natGatewayLcuuid: string, vmLcuuid: string)

  /** The four result lists of GetNATGateways. */
  datatype NatOut = NatOut(gateways: seq<NATGateway>, vinterfaces: seq<VInterface>, ips: seq<IP>,
                           conns: seq<NATVMConnection>)
  {
    function Then(other: NatOut): NatOut
    {
      NatOut(gateways + other.gateways, vinterfaces + other.vinterfaces, ips + other.ips, conns + other.conns)
    }
  }

  const NoNatOut := NatOut([], [], [], [])

  /** The non-empty strings, in order. */
  function NonEmptyStrs(xs: seq<string>): seq<string>
  {
    if xs == [] then []
    else NonEmptyStrs(xs[..|xs| - 1]) + (if xs[|xs| - 1] != "" then [xs[|xs| - 1]] else [])
  }

  /** The non-empty EIPs of the clusters, in order. */
  function ClusterEIPs(cs: seq<NatCluster>): seq<string>
  {
    if cs == [] then []
    else ClusterEIPs(cs[..|cs| - 1]) + (if cs[|cs| - 1].eipAddr != "" then [cs[|cs| - 1].eipAddr] else [])
  }

  /** The EIPs of an NFV: those of its "eips" list, then those of its clusters. */
  function EIPsOf(nfv: NAT): seq<string>
  {
    NonEmptyStrs(nfv.eipAddrs) + ClusterEIPs(nfv.clusters)
  }

  function ConnOf(natLcuuid: string, instanceId: string, generateUUID: string -> string): NATVMConnection
  {
    NATVMConnection(generateUUID(natLcuuid + instanceId), natLcuuid, generateUUID(instanceId))
  }

  function InstanceConns(natLcuuid: string, ids: seq<string>, generateUUID: string -> string): seq<NATVMConnection>
  {
    if ids == [] then []
    else
      var id := ids[|ids| - 1];
      InstanceConns(natLcuuid, ids[..|ids| - 1], generateUUID) + (if id != "" then [ConnOf(natLcuuid, id, generateUUID)] else [])
  }

  function ClusterConns(natLcuuid: string, cs: seq<NatCluster>, generateUUID: string -> string): seq<NATVMConnection>
  {
    if cs == [] then []
    else ClusterConns(natLcuuid, cs[..|cs| - 1], generateUUID) + InstanceConns(natLcuuid, cs[|cs| - 1].instanceIds, generateUUID)
  }

  /** One IP per EIP on the gateway's WAN vinterface. */
  function EIPIPs(vinterfaceLcuuid: string, eips: seq<string>, regionLcuuid: string, generateUUID: string -> string): seq<IP>
  {
    seq(|eips|, i requires 0 <= i < |eips| =>
      IP(generateUUID(vinterfaceLcuuid + eips[i]), vinterfaceLcuuid, eips[i], NETWORK_ISP_LCUUID, regionLcuuid))
  }

  /** The records of one NFV: nothing without a VPC router, else the gateway, its connections and its WAN side. */
  function NatOutOf(nfv: NAT, regionLcuuid: string, generateUUID: string -> string): NatOut
  {
    if nfv.vpcRouterId == "" then NoNatOut
    else
      var natLcuuid := generateUUID(nfv.nfvId);
      var vpcLcuuid := generateUUID(nfv.vpcRouterId);
      var eips := EIPsOf(nfv);
      var gateway := NATGateway(natLcuuid, if nfv.nfvName == "" then nfv.nfvId else nfv.nfvName, nfv.nfvId,
                                Text.Join(eips, ","), vpcLcuuid, regionLcuuid);
      var vifLcuuid := generateUUID(natLcuuid);
      var vif := VInterface(vifLcuuid, VIF_TYPE_WAN, VIF_DEFAULT_MAC, VIF_DEVICE_TYPE_NAT_GATEWAY, natLcuuid,
                            NETWORK_ISP_LCUUID, vpcLcuuid, regionLcuuid);
      NatOut([gateway], if |eips| > 0 then [vif] else [],
             if |eips| > 0 then EIPIPs(vifLcuuid, eips, regionLcuuid, generateUUID) else [],
             ClusterConns(natLcuuid, nfv.clusters, generateUUID))
  }

  function RegionNatOut(nats: seq<NAT>, regionLcuuid: string, generateUUID: string -> string): NatOut
  {
    if nats == [] then NoNatOut
    else RegionNatOut(nats[..|nats| - 1], regionLcuuid, generateUUID).Then(NatOutOf(nats[|nats| - 1], regionLcuuid, generateUUID))
  }

  /** The region (id, lcuuid) pairs are visited in order; the first API error is the result. */
  function AllNatOut(regions: seq<(string, string)>, responses: string -> Result<seq<NAT>>,
                     generateUUID: string -> string): Result<NatOut>
  {
    if regions == [] then Ok(NoNatOut)
    else
      var prev := AllNatOut(regions[..|regions| - 1], responses, generateUUID);
      var region := regions[|regions| - 1];
      if prev.Err? then prev
      else if responses(region.0).Err? then Err(responses(region.0).error)
      else Ok(prev.value.Then(RegionNatOut(responses(region.0).value, region.1, generateUUID)))
  }

  /** `n` Go map[string]int increments of one key: a missing key counts from zero. */
  function Bump(counts: map<string, int>, key: string, n: nat): map<string, int>
  {
    if n == 0 then counts else counts[key := (if key in counts then counts[key] else 0) + n]
  }

  lemma BumpStep(counts: map<string, int>, key: string, n: nat)
    ensures Bump(Bump(counts, key, n), key, 1) == Bump(counts, key, n + 1)
  {
  }

  /** The resource counts after the regions before the first API error. */
  function CountsAfter(counts: map<string, int>, regions: seq<(string, string)>, responses: string -> Result<seq<NAT>>,
                       generateUUID: string -> string): map<string, int>
  {
    if regions == [] then counts
    else
      var init := regions[..|regions| - 1];
      var prev := CountsAfter(counts, init, responses, generateUUID);
      var region := regions[|regions| - 1];
      if AllNatOut(init, responses, generateUUID).Err? || responses(region.0).Err? then prev
      else Bump(prev, region.1, RoutedCount(responses(region.0).value))
  }

  /** The number of NFVs that have a VPC router. */
  function RoutedCount(nats: seq<NAT>): nat
  {
    if nats == [] then 0
    else RoutedCount(nats[..|nats| - 1]) + (if nats[|nats| - 1].vpcRouterId != "" then 1 else 0)
  }

  // ---------------------------------------------------------------- sub-domains

  /** One entry of DescribeClusters' cluster_set. */
  datatype Cluster = Cluster(clusterId: string, name: string, appInfo: string, vpcRouterId: string)

  datatype SubDomain = SubDomain(lcuuid: string, name: string, displayName: string, clusterID: string,
                                 vpcUUID: string, config: map<string, string>)

  /** Only KubeSphere clusters with an id are sub-domains (an empty app_info counts as KubeSphere). */
  predicate ClusterKept(c: Cluster)
  {
    c.clusterId != "" && (c.appInfo == "" || Text.Contains(c.appInfo, "KubeSphere"))
  }

  function SubDomainOf(c: Cluster, defaultVpc: string, generateUUID: string -> string): SubDomain
  {
    var vpc := if c.vpcRouterId != "" then generateUUID(c.vpcRouterId) else defaultVpc;
    SubDomain(generateUUID(c.clusterId), c.name, c.clusterId, c.clusterId, vpc,
              map["vpc_uuid" := vpc, "cluster_id" := c.clusterId, "port_name_regex" := DEFAULT_PORT_NAME_REGEX,
                  "vtap_id" := "", "controller_ip" := ""])
  }

  function RegionSubDomains(cs: seq<Cluster>, defaultVpc: string, generateUUID: string -> string): seq<SubDomain>
  {
    if cs == [] then []
    else
      var c := cs[|cs| - 1];
      RegionSubDomains(cs[..|cs| - 1], defaultVpc, generateUUID) + (if ClusterKept(c) then [SubDomainOf(c, defaultVpc, generateUUID)] else [])
  }

  /** A Go map[string]string read: a missing key gives "". */
  function LookupOrEmpty(m: map<string, string>, k: string): string
  {
    if k in m then m[k] else ""
  }

  function AllSubDomains(regionIds: seq<string>, responses: string -> Result<seq<Cluster>>,
                         defaultVpcs: map<string, string>, generateUUID: string -> string): Result<seq<SubDomain>>
  {
    if regionIds == [] then Ok([])
    else
      var prev := AllSubDomains(regionIds[..|regionIds| - 1], responses, defaultVpcs, generateUUID);
      var id := regionIds[|regionIds| - 1];
      if prev.Err? then prev
      else if responses(id).Err? then Err(responses(id).error)
      else Ok(prev.value + RegionSubDomains(responses(id).value, LookupOrEmpty(defaultVpcs, id), generateUUID))
  }

  class QingCloud {
    var regionLcuuidToResourceNum: map<string, int>
    var regionIdToDefaultVPCLcuuid: map<string, string>

    constructor (defaultVpcs: map<string, string>)
      ensures regionLcuuidToResourceNum == map[] && regionIdToDefaultVPCLcuuid == defaultVpcs
    {
      regionLcuuidToResourceNum := map[];
      regionIdToDefaultVPCLcuuid := defaultVpcs;
    }

    /** GetNATGateways: the records of every region in turn; the first API error ends the listing. */
    method GetNATGateways(regions: seq<(string, string)>, responses: string -> Result<seq<NAT>>,
                          generateUUID: string -> string) returns (r: Result<NatOut>)
      modifies this
      ensures r == AllNatOut(regions, responses, generateUUID)
      ensures regionLcuuidToResourceNum == CountsAfter(old(regionLcuuidToResourceNum), regions, responses, generateUUID)
      ensures regionIdToDefaultVPCLcuuid == old(regionIdToDefaultVPCLcuuid)
    {
      var out := NoNatOut;
      var i := 0;
      while i < |regions|
        invariant 0 <= i <= |regions|
        invariant AllNatOut(regions[..i], responses, generateUUID) == Ok(out)
        invariant regionLcuuidToResourceNum == CountsAfter(old(regionLcuuidToResourceNum), regions[..i], responses, generateUUID)
        invariant regionIdToDefaultVPCLcuuid == old(regionIdToDefaultVPCLcuuid)
      {
        assert regions[..i + 1][..i] == regions[..i];
        var (regionId, regionLcuuid) := regions[i];
        var response := responses(regionId);
        if response.Err? {
          assert AllNatOut(regions[..i + 1], responses, generateUUID) == Err(response.error);
          AllNatOutErrSticks(old(regionLcuuidToResourceNum), regions, i + 1, responses, generateUUID);
          return Err(response.error);
        }
        var regionOut := NatsOfRegion(response.value, regionLcuuid, generateUUID);
        out := out.Then(regionOut);
        i := i + 1;
      }
      assert regions[..|regions|] == regions;
      r := Ok(out);
    }

    /** The records of one region's NFVs; the region's resource count rises by one per gateway. */
    method NatsOfRegion(nats: seq<NAT>, regionLcuuid: string, generateUUID: string -> string) returns (out: NatOut)
      modifies this
      ensures out == RegionNatOut(nats, regionLcuuid, generateUUID)
      ensures regionLcuuidToResourceNum == Bump(old(regionLcuuidToResourceNum), regionLcuuid, RoutedCount(nats))
      ensures regionIdToDefaultVPCLcuuid == old(regionIdToDefaultVPCLcuuid)
    {
      out := NoNatOut;
      var i := 0;
      while i < |nats|
        invariant 0 <= i <= |nats|
        invariant out == RegionNatOut(nats[..i], regionLcuuid, generateUUID)
        invariant regionLcuuidToResourceNum == Bump(old(regionLcuuidToResourceNum), regionLcuuid, RoutedCount(nats[..i]))
        invariant regionIdToDefaultVPCLcuuid == old(regionIdToDefaultVPCLcuuid)
      {
        assert nats[..i + 1][..i] == nats[..i];
        var natOut := NatRecords(nats[i], regionLcuuid, generateUUID);
        out := out.Then(natOut);
        if natOut.gateways != [] {
          BumpStep(old(regionLcuuidToResourceNum), regionLcuuid, RoutedCount(nats[..i]));
          regionLcuuidToResourceNum := Bump(regionLcuuidToResourceNum, regionLcuuid, 1);
        }
        i := i + 1;
      }
      assert nats[..|nats|] == nats;
    }

    /**
     * GetSubDomains: the KubeSphere clusters of every region in turn, each
     * region's default VPC read from the adapter; the first API error ends
     * the listing.
     */
    method GetSubDomains(regionIds: seq<string>, responses: string -> Result<seq<Cluster>>,
                         generateUUID: string -> string) returns (r: Result<seq<SubDomain>>)
      ensures r == AllSubDomains(regionIds, responses, regionIdToDefaultVPCLcuuid, generateUUID)
    {
      var defaultVpcs := regionIdToDefaultVPCLcuuid;
      var subDomains: seq<SubDomain> := [];
      var i := 0;
      while i < |regionIds|
        invariant 0 <= i <= |regionIds|
        invariant AllSubDomains(regionIds[..i], responses, defaultVpcs, generateUUID) == Ok(subDomains)
      {
        AllSubDomainsStep(regionIds, i, responses, defaultVpcs, generateUUID);
        var regionId := regionIds[i];
        var response := responses(regionId);
        if response.Err? {
          AllSubDomainsErrSticks(regionIds, i + 1, responses, defaultVpcs, generateUUID);
          return Err(response.error);
        }
        var defaultVpc := if regionId in defaultVpcs then defaultVpcs[regionId] else "";
        var more := KubeSphereClusters(response.value, defaultVpc, generateUUID);
        subDomains := subDomains + more;
        i := i + 1;
      }
      assert regionIds[..|regionIds|] == regionIds;
      r := Ok(subDomains);
    }
  }

  /** Once a prefix of the regions ends in an error, the whole listing does. */
  lemma {:induction false} AllNatOutErrSticks(counts: map<string, int>, regions: seq<(string, string)>, n: nat,
                                              responses: string -> Result<seq<NAT>>, generateUUID: string -> string)
    requires n <= |regions| && AllNatOut(regions[..n], responses, generateUUID).Err?
    ensures AllNatOut(regions, responses, generateUUID) == AllNatOut(regions[..n], responses, generateUUID)
    ensures CountsAfter(counts, regions, responses, generateUUID) == CountsAfter(counts, regions[..n], responses, generateUUID)
    decreases |regions| - n
  {
    if n < |regions| {
      assert regions[..|regions| - 1][..n] == regions[..n];
      AllNatOutErrSticks(counts, regions[..|regions| - 1], n, responses, generateUUID);
    } else {
      assert regions[..n] == regions;
    }
  }

  /** The records of one NFV (one iteration of the inner loop of GetNATGateways). */
  method NatRecords(nfv: NAT, regionLcuuid: string, generateUUID: string -> string) returns (out: NatOut)
    ensures out == NatOutOf(nfv, regionLcuuid, generateUUID)
    ensures |out.gateways| == (if nfv.vpcRouterId != "" then 1 else 0)
  {
    if nfv.vpcRouterId == "" {
      return NoNatOut;
    }
    var natName := nfv.nfvName;
    if natName == "" {
      natName := nfv.nfvId;
    }
    var natLcuuid := generateUUID(nfv.nfvId);
    var vpcLcuuid := generateUUID(nfv.vpcRouterId);
    var eips := NonEmptyOf(nfv.eipAddrs);
    var clusterEIPs, conns := ScanClusters(natLcuuid, nfv.clusters, generateUUID);
    eips := eips + clusterEIPs;
    var gateway := NATGateway(natLcuuid, natName, nfv.nfvId, Text.Join(eips, ","), vpcLcuuid, regionLcuuid);
    var vinterfaces: seq<VInterface> := [];
    var ips: seq<IP> := [];
    if |eips| > 0 {
      var vinterfaceLcuuid := generateUUID(natLcuuid);
      vinterfaces := [VInterface(vinterfaceLcuuid, VIF_TYPE_WAN, VIF_DEFAULT_MAC, VIF_DEVICE_TYPE_NAT_GATEWAY, natLcuuid,
                                 NETWORK_ISP_LCUUID, vpcLcuuid, regionLcuuid)];
      ips := WANIPs(vinterfaceLcuuid, eips, regionLcuuid, generateUUID);
    }
    out := NatOut([gateway], vinterfaces, ips, conns);
  }

  /** The non-empty EIPs of the "eips" list, in order. */
  method NonEmptyOf(xs: seq<string>) returns (r: seq<string>)
    ensures r == NonEmptyStrs(xs)
  {
    r := [];
    var j := 0;
    while j < |xs|
      invariant 0 <= j <= |xs|
      invariant r == NonEmptyStrs(xs[..j])
    {
      assert xs[..j + 1][..j] == xs[..j];
      if xs[j] != "" {
        r := r + [xs[j]];
      }
      j := j + 1;
    }
    assert xs[..|xs|] == xs;
  }

  /** The cluster loop of GetNATGateways: the clusters' EIPs and the connections of their instances. */
  method ScanClusters(natLcuuid: string, cs: seq<NatCluster>, generateUUID: string -> string)
    returns (eips: seq<string>, conns: seq<NATVMConnection>)
    ensures eips == ClusterEIPs(cs) && conns == ClusterConns(natLcuuid, cs, generateUUID)
  {
    eips, conns := [], [];
    var j := 0;
    while j < |cs|
      invariant 0 <= j <= |cs|
      invariant eips == ClusterEIPs(cs[..j])
      invariant conns == ClusterConns(natLcuuid, cs[..j], generateUUID)
    {
      assert cs[..j + 1][..j] == cs[..j];
      var cluster := cs[j];
      if cluster.eipAddr != "" {
        eips := eips + [cluster.eipAddr];
      }
      var more := ConnsOfInstances(natLcuuid, cluster.instanceIds, generateUUID);
      conns := conns + more;
      j := j + 1;
    }
    assert cs[..|cs|] == cs;
  }

  /** One IP per EIP on the gateway's WAN vinterface. */
  method WANIPs(vinterfaceLcuuid: string, eips: seq<string>, regionLcuuid: string, generateUUID: string -> string)
    returns (ips: seq<IP>)
    ensures ips == EIPIPs(vinterfaceLcuuid, eips, regionLcuuid, generateUUID)
  {
    ips := [];
    var k := 0;
    while k < |eips|
      invariant 0 <= k <= |eips|
      invariant ips == EIPIPs(vinterfaceLcuuid, eips[..k], regionLcuuid, generateUUID)
    {
      ips := ips + [IP(generateUUID(vinterfaceLcuuid + eips[k]), vinterfaceLcuuid, eips[k], NETWORK_ISP_LCUUID, regionLcuuid)];
      k := k + 1;
    }
    assert eips[..|eips|] == eips;
  }

  /** The connections of one cluster's instances (the innermost loop of GetNATGateways). */
  method ConnsOfInstances(natLcuuid: string, ids: seq<string>, generateUUID: string -> string) returns (conns: seq<NATVMConnection>)
    ensures conns == InstanceConns(natLcuuid, ids, generateUUID)
  {
    conns := [];
    var k := 0;
    while k < |ids|
      invariant 0 <= k <= |ids|
      invariant conns == InstanceConns(natLcuuid, ids[..k], generateUUID)
    {
      assert ids[..k + 1][..k] == ids[..k];
      if ids[k] != "" {
        conns := conns + [ConnOf(natLcuuid, ids[k], generateUUID)];
      }
      k := k + 1;
    }
    assert ids[..|ids|] == ids;
  }

  /** The region step of AllSubDomains, on a prefix of the regions. */
  lemma AllSubDomainsStep(regionIds: seq<string>, i: nat, responses: string -> Result<seq<Cluster>>,
                          defaultVpcs: map<string, string>, generateUUID: string -> string)
    requires i < |regionIds|
    ensures var prev := AllSubDomains(regionIds[..i], responses, defaultVpcs, generateUUID);
      var id := regionIds[i];
      AllSubDomains(regionIds[..i + 1], responses, defaultVpcs, generateUUID) ==
        if prev.Err? then prev
        else if responses(id).Err? then Err(responses(id).error)
        else Ok(prev.value + RegionSubDomains(responses(id).value, LookupOrEmpty(defaultVpcs, id), generateUUID))
  {
    assert regionIds[..i + 1][..i] == regionIds[..i];
  }

  /** The cluster loop of GetSubDomains: the kept clusters of one region, in order. */
  method KubeSphereClusters(clusters: seq<Cluster>, defaultVpc: string, generateUUID: string -> string)
    returns (subDomains: seq<SubDomain>)
    ensures subDomains == RegionSubDomains(clusters, defaultVpc, generateUUID)
  {
    subDomains := [];
    var j := 0;
    while j < |clusters|
      invariant 0 <= j <= |clusters|
      invariant subDomains == RegionSubDomains(clusters[..j], defaultVpc, generateUUID)
    {
      assert clusters[..j + 1][..j] == clusters[..j];
      var cluster := clusters[j];
      if cluster.clusterId != "" && (cluster.appInfo == "" || Text.Contains(cluster.appInfo, "KubeSphere")) {
        var vpcLcuuid := defaultVpc;
        if cluster.vpcRouterId != "" {
          vpcLcuuid := generateUUID(cluster.vpcRouterId);
        }
        var config := map["vpc_uuid" := vpcLcuuid, "cluster_id" := cluster.clusterId,
                           "port_name_regex" := DEFAULT_PORT_NAME_REGEX, "vtap_id" := "", "controller_ip" := ""];
        subDomains := subDomains + [SubDomain(generateUUID(cluster.clusterId), cluster.name, cluster.clusterId,
                                              cluster.clusterId, vpcLcuuid, config)];
      }
      j := j + 1;
    }
    assert clusters[..|clusters|] == clusters;
  }

  /** Once a prefix of the regions ends in an error, the whole listing does. */
  lemma {:induction false} AllSubDomainsErrSticks(regionIds: seq<string>, n: nat, responses: string -> Result<seq<Cluster>>,
                                                  defaultVpcs: map<string, string>, generateUUID: string -> string)
    requires n <= |regionIds| && AllSubDomains(regionIds[..n], responses, defaultVpcs, generateUUID).Err?
    ensures AllSubDomains(regionIds, responses, defaultVpcs, generateUUID) == AllSubDomains(regionIds[..n], responses, defaultVpcs, generateUUID)
    decreases |regionIds| - n
  {
    if n < |regionIds| {
      assert regionIds[..|regionIds| - 1][..n] == regionIds[..n];
      AllSubDomainsErrSticks(regionIds[..|regionIds| - 1], n, responses, defaultVpcs, generateUUID);
    } else {
      assert regionIds[..n] == regionIds;
    }
  }

  // ---------------------------------------------------------------- properties

  /** The listing fails iff some region's API call fails. */
  lemma {:induction false} AllNatOutFailsIff(regions: seq<(string, string)>, responses: string -> Result<seq<NAT>>,
                                             generateUUID: string -> string)
    ensures AllNatOut(regions, responses, generateUUID).Err? <==>
      exists i :: 0 <= i < |regions| && responses(regions[i].0).Err?
  {
    if regions != [] {
      var init := regions[..|regions| - 1];
      AllNatOutFailsIff(init, responses, generateUUID);
      if exists i :: 0 <= i < |init| && responses(init[i].0).Err? {
        var i :| 0 <= i < |init| && responses(init[i].0).Err?;
        assert regions[i] == init[i];
      }
      if exists i :: 0 <= i < |regions| && responses(regions[i].0).Err? {
        var i :| 0 <= i < |regions| && responses(regions[i].0).Err?;
        if i < |init| {
          assert init[i] == regions[i];
        }
      }
    }
  }

  /** The listing fails iff some region's API call fails. */
  lemma {:induction false} AllSubDomainsFailsIff(regionIds: seq<string>, responses: string -> Result<seq<Cluster>>,
                                                 defaultVpcs: map<string, string>, generateUUID: string -> string)
    ensures AllSubDomains(regionIds, responses, defaultVpcs, generateUUID).Err? <==>
      exists i :: 0 <= i < |regionIds| && responses(regionIds[i]).Err?
  {
    if regionIds != [] {
      var init := regionIds[..|regionIds| - 1];
      AllSubDomainsFailsIff(init, responses, defaultVpcs, generateUUID);
      if exists i :: 0 <= i < |init| && responses(init[i]).Err? {
        var i :| 0 <= i < |init| && responses(init[i]).Err?;
        assert regionIds[i] == init[i];
      }
      if exists i :: 0 <= i < |regionIds| && responses(regionIds[i]).Err? {
        var i :| 0 <= i < |regionIds| && responses(regionIds[i]).Err?;
        if i < |init| {
          assert init[i] == regionIds[i];
        }
      }
    }
  }

  /** The EIPs are exactly the non-empty addresses of the "eips" list and of the clusters. */
  lemma {:induction false} EIPsExact(nfv: NAT)
    ensures forall e :: e in EIPsOf(nfv) <==>
      e != "" && (e in nfv.eipAddrs || exists c :: c in nfv.clusters && c.eipAddr == e)
  {
    NonEmptyStrsExact(nfv.eipAddrs);
    ClusterEIPsExact(nfv.clusters);
  }

  lemma {:induction false} NonEmptyStrsExact(xs: seq<string>)
    ensures forall e :: e in NonEmptyStrs(xs) <==> e != "" && e in xs
  {
    if xs != [] {
      NonEmptyStrsExact(xs[..|xs| - 1]);
      assert xs == xs[..|xs| - 1] + [xs[|xs| - 1]];
    }
  }

  lemma {:induction false} ClusterEIPsExact(cs: seq<NatCluster>)
    ensures forall e :: e in ClusterEIPs(cs) <==> e != "" && exists c :: c in cs && c.eipAddr == e
  {
    if cs != [] {
      var init := cs[..|cs| - 1];
      ClusterEIPsExact(init);
      assert cs == init + [cs[|cs| - 1]];
    }
  }

  /**
   * An NFV without a VPC router yields nothing. Otherwise it yields one
   * gateway (named by its id when it has no name, its floating IPs the
   * comma-joined EIPs), a WAN vinterface iff it has an EIP, and one IP per
   * EIP on that vinterface.
   */
  lemma NatOutShape(nfv: NAT, regionLcuuid: string, generateUUID: string -> string)
    ensures var out := NatOutOf(nfv, regionLcuuid, generateUUID);
      var eips := EIPsOf(nfv);
      var natLcuuid := generateUUID(nfv.nfvId);
      (nfv.vpcRouterId == "" ==> out == NoNatOut) &&
      (nfv.vpcRouterId != "" ==>
        |out.gateways| == 1 &&
        out.gateways[0].lcuuid == natLcuuid &&
        out.gateways[0].name == (if nfv.nfvName == "" then nfv.nfvId else nfv.nfvName) &&
        out.gateways[0].floatingIPs == Text.Join(eips, ",") &&
        out.gateways[0].regionLcuuid == regionLcuuid &&
        |out.vinterfaces| == (if |eips| > 0 then 1 else 0) &&
        (forall v :: v in out.vinterfaces ==> v.vifType == VIF_TYPE_WAN && v.deviceLcuuid == natLcuuid) &&
        |out.ips| == |eips| &&
        (forall i :: 0 <= i < |eips| ==> out.ips[i].ip == eips[i] && out.ips[i].vinterfaceLcuuid == generateUUID(natLcuuid)))
  {
  }

  /** A connection is produced for each non-empty instance id of the NFV's clusters, and only for those. */
  lemma {:induction false} ClusterConnsExact(natLcuuid: string, cs: seq<NatCluster>, generateUUID: string -> string)
    ensures forall x :: x in ClusterConns(natLcuuid, cs, generateUUID) <==>
      exists c, id :: c in cs && id in c.instanceIds && id != "" && x == ConnOf(natLcuuid, id, generateUUID)
  {
    if cs != [] {
      var init := cs[..|cs| - 1];
      var last := cs[|cs| - 1];
      ClusterConnsExact(natLcuuid, init, generateUUID);
      InstanceConnsExact(natLcuuid, last.instanceIds, generateUUID);
      assert cs == init + [last];
      forall x | x in ClusterConns(natLcuuid, cs, generateUUID)
        ensures exists c, id :: c in cs && id in c.instanceIds && id != "" && x == ConnOf(natLcuuid, id, generateUUID)
      {
        if x !in ClusterConns(natLcuuid, init, generateUUID) {
          var id :| id in last.instanceIds && id != "" && x == ConnOf(natLcuuid, id, generateUUID);
          assert last in cs;
        }
      }
    }
  }

  lemma {:induction false} InstanceConnsExact(natLcuuid: string, ids: seq<string>, generateUUID: string -> string)
    ensures forall x :: x in InstanceConns(natLcuuid, ids, generateUUID) <==>
      exists id :: id in ids && id != "" && x == ConnOf(natLcuuid, id, generateUUID)
  {
    if ids != [] {
      var init := ids[..|ids| - 1];
      InstanceConnsExact(natLcuuid, init, generateUUID);
      assert ids == init + [ids[|ids| - 1]];
    }
  }

  /** A region yields one gateway per NFV with a VPC router, each placed in that region. */
  lemma {:induction false} RegionGateways(nats: seq<NAT>, regionLcuuid: string, generateUUID: string -> string)
    ensures var gws := RegionNatOut(nats, regionLcuuid, generateUUID).gateways;
      |gws| == RoutedCount(nats) <= |nats| &&
      forall g :: g in gws ==> g.regionLcuuid == regionLcuuid
  {
    if nats != [] {
      RegionGateways(nats[..|nats| - 1], regionLcuuid, generateUUID);
    }
  }

  /**
   * A sub-domain is listed iff a KubeSphere cluster with an id produces it;
   * each one is named after its cluster, and its config names its VPC.
   */
  lemma {:induction false} RegionSubDomainsExact(cs: seq<Cluster>, defaultVpc: string, generateUUID: string -> string)
    ensures var r := RegionSubDomains(cs, defaultVpc, generateUUID);
      |r| <= |cs| &&
      (forall s :: s in r <==> exists c :: c in cs && ClusterKept(c) && s == SubDomainOf(c, defaultVpc, generateUUID)) &&
      (forall s :: s in r ==>
        (s.clusterID != "" && s.displayName == s.clusterID && s.lcuuid == generateUUID(s.clusterID) &&
         "vpc_uuid" in s.config && s.config["vpc_uuid"] == s.vpcUUID))
  {
    if cs != [] {
      var init := cs[..|cs| - 1];
      RegionSubDomainsExact(init, defaultVpc, generateUUID);
      assert cs == init + [cs[|cs| - 1]];
    }
  }

  /** A cluster's VPC is the one of its VPC router when it has one, else the region's default VPC. */
  lemma SubDomainVpcRule(c: Cluster, defaultVpc: string, generateUUID: string -> string)
    ensures c.vpcRouterId != "" ==> SubDomainOf(c, defaultVpc, generateUUID).vpcUUID == generateUUID(c.vpcRouterId)
    ensures c.vpcRouterId == "" ==> SubDomainOf(c, defaultVpc, generateUUID).vpcUUID == defaultVpc
  {
  }
}
