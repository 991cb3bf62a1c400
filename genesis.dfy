/**
 * The genesis cloud adapter's vinterface and IP listings: the records the
 * genesis service reports are filtered (records without their owning
 * device/network or vinterface/subnet are dropped), completed (a default VPC,
 * a generated lcuuid) and placed in the adapter's region. The adapter keeps
 * the per-API statistics and remembers whether the default VPC was needed.
 *
 * The genesis service's reports are parameters; GetUUID is a function given
 * by the caller (its namespace argument is always the nil uuid here).
 */
module Genesis {

  /** A port reported by the genesis service. */
  datatype PortData = PortData(lcuuid: string, vifType: int, mac: string, vpcLcuuid: string,
                               deviceType: int, deviceLcuuid: string, networkLcuuid: string)

  /** An IP reported by the genesis service. */
  datatype IPData = IPData(lcuuid: string, vinterfaceLcuuid: string, ip: string, subnetLcuuid: string)

  datatype VInterface = VInterface(lcuuid: string, vifType: int, mac: string, vpcLcuuid: string, regionLcuuid: string,
                                   deviceType: int, deviceLcuuid: string, networkLcuuid: string)

  datatype IP = IP(lcuuid: string, vinterfaceLcuuid: string, ip: string, subnetLcuuid: string, regionLcuuid: string)

  /** A port is usable when it names its device and its network. */
  predicate PortKept(p: PortData)
  {
    p.deviceLcuuid != "" && p.networkLcuuid != ""
  }

  /** An IP is usable when it names its vinterface and its subnet. */
  predicate IPKept(i: IPData)
  {
    i.vinterfaceLcuuid != "" && i.subnetLcuuid != ""
  }

  /** The vinterface built from a usable port. */
  function VInterfaceOf(p: PortData, regionUuid: string, defaultVpcLcuuid: string): VInterface
  {
    VInterface(p.lcuuid, p.vifType, p.mac, if p.vpcLcuuid == "" then defaultVpcLcuuid else p.vpcLcuuid,
               regionUuid, p.deviceType, p.deviceLcuuid, p.networkLcuuid)
  }

  /** The IP built from a usable record; a missing lcuuid is generated from the vinterface and the address. */
  function IPOf(i: IPData, regionUuid: string, getUUID: string -> string): IP
  {
    IP(if i.lcuuid == "" then getUUID(i.vinterfaceLcuuid + i.ip) else i.lcuuid,
       i.vinterfaceLcuuid, i.ip, i.subnetLcuuid, regionUuid)
  }

  function VInterfacesOf(ports: seq<PortData>, regionUuid: string, defaultVpcLcuuid: string): seq<VInterface>
  {
    if ports == [] then []
    else
      var last := ports[|ports| - 1];
      VInterfacesOf(ports[..|ports| - 1], regionUuid, defaultVpcLcuuid) +
        (if PortKept(last) then [VInterfaceOf(last, regionUuid, defaultVpcLcuuid)] else [])
  }

  function IPsOf(data: seq<IPData>, regionUuid: string, getUUID: string -> string): seq<IP>
  {
    if data == [] then []
    else
      var last := data[|data| - 1];
      IPsOf(data[..|data| - 1], regionUuid, getUUID) + (if IPKept(last) then [IPOf(last, regionUuid, getUUID)] else [])
  }

  /** Some usable port lacks a VPC, so the default VPC is needed. */
  predicate NeedsDefaultVpc(ports: seq<PortData>)
  {
    exists i :: 0 <= i < |ports| && PortKept(ports[i]) && ports[i].vpcLcuuid == ""
  }

  class Genesis {
    var regionUuid: string
    var defaultVpcName: string
    var defaultVpc: bool
    /** cloudStatsd.APICost and cloudStatsd.APICount */
    var apiCost: map<string, seq<int>>
    var apiCount: map<string, seq<int>>

    constructor (regionUuid: string, defaultVpcName: string)
      ensures this.regionUuid == regionUuid && this.defaultVpcName == defaultVpcName
      ensures !defaultVpc && apiCost == map[] && apiCount == map[]
    {
      this.regionUuid := regionUuid;
      this.defaultVpcName := defaultVpcName;
      defaultVpc := false;
      apiCost := map[];
      apiCount := map[];
    }

    /**
     * getVinterfaces: the vinterfaces of the usable ports, in order; records
     * the API count and raises the default-VPC flag when a port needed it.
     */
    method GetVInterfaces(ports: seq<PortData>, getUUID: string -> string) returns (vinterfaces: seq<VInterface>)
      modifies this
      ensures vinterfaces == VInterfacesOf(ports, regionUuid, getUUID(defaultVpcName))
      ensures defaultVpc == (old(defaultVpc) || NeedsDefaultVpc(ports))
      ensures apiCost == old(apiCost)["vinterfaces" := [0]]
      ensures apiCount == old(apiCount)["vinterfaces" := [|ports|]]
      ensures regionUuid == old(regionUuid) && defaultVpcName == old(defaultVpcName)
    {
      vinterfaces := [];
      apiCost := apiCost["vinterfaces" := [0]];
      apiCount := apiCount["vinterfaces" := [|ports|]];
      ghost var defaultVpcLcuuid := getUUID(defaultVpcName);
      var i := 0;
      while i < |ports|
        invariant 0 <= i <= |ports|
        invariant regionUuid == old(regionUuid) && defaultVpcName == old(defaultVpcName)
        invariant apiCost == old(apiCost)["vinterfaces" := [0]]
        invariant apiCount == old(apiCount)["vinterfaces" := [|ports|]]
        invariant vinterfaces == VInterfacesOf(ports[..i], regionUuid, defaultVpcLcuuid)
        invariant defaultVpc == (old(defaultVpc) || NeedsDefaultVpc(ports[..i]))
      {
        assert ports[..i + 1][..i] == ports[..i];
        var v := ports[i];
        if v.deviceLcuuid == "" || v.networkLcuuid == "" {
          i := i + 1;
          continue;
        }
        var vpcLcuuid := v.vpcLcuuid;
        if vpcLcuuid == "" {
          vpcLcuuid := getUUID(defaultVpcName);
          defaultVpc := true;
          assert ports[..i + 1][i] == v;
        }
        vinterfaces := vinterfaces + [VInterface(v.lcuuid, v.vifType, v.mac, vpcLcuuid, regionUuid,
                                                 v.deviceType, v.deviceLcuuid, v.networkLcuuid)];
        i := i + 1;
      }
      assert ports[..|ports|] == ports;
    }

    /** getIPs: the IPs of the usable records, in order; records the API count. */
    method GetIPs(data: seq<IPData>, getUUID: string -> string) returns (ips: seq<IP>)
      modifies this
      ensures ips == IPsOf(data, regionUuid, getUUID)
      ensures apiCost == old(apiCost)["ips" := [0]]
      ensures apiCount == old(apiCount)["ips" := [|data|]]
      ensures regionUuid == old(regionUuid) && defaultVpcName == old(defaultVpcName) && defaultVpc == old(defaultVpc)
    {
      ips := [];
      apiCost := apiCost["ips" := [0]];
      apiCount := apiCount["ips" := [|data|]];
      var k := 0;
      while k < |data|
        invariant 0 <= k <= |data|
        invariant regionUuid == old(regionUuid) && defaultVpcName == old(defaultVpcName) && defaultVpc == old(defaultVpc)
        invariant apiCost == old(apiCost)["ips" := [0]]
        invariant apiCount == old(apiCount)["ips" := [|data|]]
        invariant ips == IPsOf(data[..k], regionUuid, getUUID)
      {
        assert data[..k + 1][..k] == data[..k];
        var i := data[k];
        if i.vinterfaceLcuuid == "" || i.subnetLcuuid == "" {
          k := k + 1;
          continue;
        }
        var lcuuid := i.lcuuid;
        if lcuuid == "" {
          lcuuid := getUUID(i.vinterfaceLcuuid + i.ip);
        }
        ips := ips + [IP(lcuuid, i.vinterfaceLcuuid, i.ip, i.subnetLcuuid, regionUuid)];
        k := k + 1;
      }
      assert data[..|data|] == data;
    }
  }

  /**
   * A vinterface is listed iff a usable port produces it; the listing is no
   * longer than the report, and every entry lies in the adapter's region,
   * names its device and network, and has a VPC.
   */
  lemma {:induction false} VInterfacesExact(ports: seq<PortData>, regionUuid: string, defaultVpcLcuuid: string)
    requires defaultVpcLcuuid != ""
    ensures var r := VInterfacesOf(ports, regionUuid, defaultVpcLcuuid);
      |r| <= |ports| &&
      (forall v :: v in r <==> exists p :: p in ports && PortKept(p) && v == VInterfaceOf(p, regionUuid, defaultVpcLcuuid)) &&
      (forall v :: v in r ==> v.regionLcuuid == regionUuid && v.vpcLcuuid != "" && v.deviceLcuuid != "" && v.networkLcuuid != "")
  {
    if ports != [] {
      var init := ports[..|ports| - 1];
      VInterfacesExact(init, regionUuid, defaultVpcLcuuid);
      assert ports == init + [ports[|ports| - 1]];
    }
  }

  /** Listing keeps the report's order: it distributes over concatenation. */
  lemma {:induction false} VInterfacesAppend(ports: seq<PortData>, more: seq<PortData>, regionUuid: string, defaultVpcLcuuid: string)
    ensures VInterfacesOf(ports + more, regionUuid, defaultVpcLcuuid) ==
      VInterfacesOf(ports, regionUuid, defaultVpcLcuuid) + VInterfacesOf(more, regionUuid, defaultVpcLcuuid)
    decreases |more|
  {
    if more == [] {
      assert ports + more == ports;
    } else {
      var init := more[..|more| - 1];
      VInterfacesAppend(ports, init, regionUuid, defaultVpcLcuuid);
      assert (ports + more)[..|ports + more| - 1] == ports + init;
      assert (ports + more)[|ports + more| - 1] == more[|more| - 1];
    }
  }

  /**
   * An IP is listed iff a usable record produces it; the listing is no
   * longer than the report and every entry lies in the adapter's region.
   */
  lemma {:induction false} IPsExact(data: seq<IPData>, regionUuid: string, getUUID: string -> string)
    ensures var r := IPsOf(data, regionUuid, getUUID);
      |r| <= |data| &&
      (forall x :: x in r <==> exists i :: i in data && IPKept(i) && x == IPOf(i, regionUuid, getUUID)) &&
      (forall x :: x in r ==> x.regionLcuuid == regionUuid && x.vinterfaceLcuuid != "" && x.subnetLcuuid != "")
  {
    if data != [] {
      var init := data[..|data| - 1];
      IPsExact(init, regionUuid, getUUID);
      assert data == init + [data[|data| - 1]];
    }
  }

  /** Listing keeps the report's order: it distributes over concatenation. */
  lemma {:induction false} IPsAppend(data: seq<IPData>, more: seq<IPData>, regionUuid: string, getUUID: string -> string)
    ensures IPsOf(data + more, regionUuid, getUUID) == IPsOf(data, regionUuid, getUUID) + IPsOf(more, regionUuid, getUUID)
    decreases |more|
  {
    if more == [] {
      assert data + more == data;
    } else {
      var init := more[..|more| - 1];
      IPsAppend(data, init, regionUuid, getUUID);
      assert (data + more)[..|data + more| - 1] == data + init;
      assert (data + more)[|data + more| - 1] == more[|more| - 1];
    }
  }
}
