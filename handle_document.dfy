/**
 * Tag expansion of roze documents: before a metering document is written,
 * its tag is completed with the platform resources of each end. The code
 * bits say which columns the tag carries; single-end documents gain the
 * resource columns, edge (two-end) documents the path columns. Traffic from
 * the internet is left alone, multicast ends borrow the region, subnet and
 * AZ of the opposite end, and documents that belong to another region are
 * rejected and counted.
 *
 * The platform table's lookups, RegetInfoFromIP and the GetResourceGl*
 * functions are given by the caller as functions: their code is not part of
 * this model. The tag's per-end resource columns are grouped in a `Side`
 * record.
 */
module HandleDocument {
  import opened Wrappers
  import opened FixedWidth
  import opened Text

  type Code = bv64
  type i16 = x: int | -0x8000 <= x < 0x8000

  /* Code bits of a zerodoc tag (upstream values). A path bit sits 16 bits
     above the single-end bit of the same column. */
  const L3_DEVICE: Code := 0x4
  const SUBNET_ID: Code := 0x8
  const REGION_ID: Code := 0x10
  const POD_NODE_ID: Code := 0x20
  const HOST_ID: Code := 0x40
  const AZ_ID: Code := 0x80
  const POD_GROUP_ID: Code := 0x100
  const POD_NS_ID: Code := 0x200
  const POD_ID: Code := 0x400
  const POD_CLUSTER_ID: Code := 0x1000
  const SERVICE_ID: Code := 0x2000
  const RESOURCE: Code := 0x4000
  const IP_PATH: Code := 0x1_0000
  const L3_EPC_ID_PATH: Code := 0x2_0000
  const SERVER_PORT: Code := 0x8_0000_0000
  const IS_KEY_SERVICE: Code := 0x100_0000_0000

  function Path(c: Code): Code { c << 16 }

  const EDGE_CODE: Code := 0x3_0000
  /** The resource columns of a single-end document. */
  const MAIN_ADD_CODE: Code := 0x77fc
  /** The path variants of the same columns. */
  const EDGE_ADD_CODE: Code := 0x77fc_0000
  const PORT_ADD_CODE: Code := IS_KEY_SERVICE

  /** L3 EPC id of traffic from the internet. */
  const EPC_FROM_INTERNET: i16 := -2
  /** Meter id of the ACL meter; its minute-level documents carry database suffix 1. */
  const ACL_ID: nat := 2
  /** TAP sides. */
  const CLIENT: u8 := 1
  const SERVER: u8 := 2
  const DEVICE_TYPE_POD_SERVICE: u8 := 11

  /** An edge document carries both path bits. */
  predicate IsEdge(c: Code) { c & EDGE_CODE == EDGE_CODE }

  /** A platform record of one IP or MAC: every id is 32 bits wide. */
  datatype Info = Info(regionID: u32, hostID: u32, deviceID: u32, deviceType: u32, subnetID: u32, podNodeID: u32,
                       podNSID: u32, azID: u32, podGroupID: u32, podID: u32, podClusterID: u32)

  /** A (resource id, resource type) pair of the GetResourceGl* functions. */
  datatype Resource = Resource(id: u32, kind: u8)

  /** The resource columns of one end of a tag, at the tag's own widths. */
  datatype Side = Side(regionID: u16, hostID: u16, l3DeviceID: u32, l3DeviceType: u8, subnetID: u16,
                       podNodeID: u32, podNSID: u16, azID: u16, podGroupID: u32, podID: u32, podClusterID: u16,
                       serviceID: u32, gl0: Resource, gl1: Resource, gl2: Resource)

  /** The fields of a tag that DocumentExpand only reads. */
  datatype Addressing = Addressing(l3EpcID: i16, l3EpcID1: i16, mac: u64, mac1: u64,
                                   isIPv6: u8, ip: u32, ip1: u32, ip6: seq<u8>, ip61: seq<u8>,
                                   protocol: u8, serverPort: u16, tapSide: u8)

  /** Everything of a tag that DocumentExpand reads or writes. */
  datatype TagValue = TagValue(id: string, code: Code, a: Addressing, isKeyService: u8, side0: Side, side1: Side)

  /** The platform table and the helper functions DocumentExpand consults. */
  datatype Lookups = Lookups(
    regionID: u32,
    macInfo: u64 -> Option<Info>,
    macInfosPair: (u64, u64) -> (Option<Info>, Option<Info>),
    ipv4Infos: (i16, u32) -> Option<Info>,
    ipv6Infos: (i16, seq<u8>) -> Option<Info>,
    ipv4InfosPair: (i16, u32, i16, u32) -> (Option<Info>, Option<Info>),
    ipv6InfosPair: (i16, seq<u8>, i16, seq<u8>) -> (Option<Info>, Option<Info>),
    isKeyServiceAndID: (i16, u32, u8, u16) -> (bool, u32),
    ipv6IsKeyServiceAndID: (i16, seq<u8>, u8, u16) -> (bool, u32),
    regetInfoFromIP: (bool, seq<u8>, u32, i16) -> Option<Info>,
    resourceGl0: (u32, u32, u32, u8, i16) -> Resource,
    resourceGl1: (u32, u32, u32, u8, i16) -> Resource,
    resourceGl2: (u32, u32, u32, u32, u8, i16) -> Resource)

  /* ---------------- helpers of the expansion ---------------- */

  /** The MAC lookup key: the MAC with the (sign-extended) EPC id in its top 16 bits. */
  function MacKey(mac: u64, epc: i16): u64
  {
    (((mac as bv64) | (((epc % U64_MODULUS) as bv64) << 48)) as int)
  }

  /** net.IP.To4: a 4-byte address, or the last 4 bytes of an IPv4-mapped 16-byte one. */
  function To4(ip: seq<u8>): Option<seq<u8>>
  {
    if |ip| == 4 then Some(ip)
    else if |ip| == 16 && ip[..10] == [0, 0, 0, 0, 0, 0, 0, 0, 0, 0] && ip[10] == 0xff && ip[11] == 0xff then Some(ip[12..])
    else None
  }

  /** net.IP.IsMulticast: 224.0.0.0/4 for IPv4, ff00::/8 for IPv6. */
  predicate IsMulticast(ip: seq<u8>)
  {
    match To4(ip)
    case Some(v4) => |v4| == 4 && 0xe0 <= v4[0] < 0xf0
    case None => |ip| == 16 && ip[0] == 0xff
  }

  /** utils.IpFromUint32: the address in network byte order. */
  function IpFromUint32(ip: u32): seq<u8>
  {
    BeBytes(ip, 4)
  }

  function OrElse(a: Option<Info>, b: Option<Info>): Option<Info>
  {
    if a.Some? then a else b
  }

  /** The platform records of both ends of an edge document: by MAC where known, else by IP. */
  function EdgeInfos(v: TagValue, l: Lookups): (Option<Info>, Option<Info>)
  {
    var reget0 := l.regetInfoFromIP(v.a.isIPv6 == 1, v.a.ip6, v.a.ip, v.a.l3EpcID);
    var reget1 := l.regetInfoFromIP(v.a.isIPv6 == 1, v.a.ip61, v.a.ip1, v.a.l3EpcID1);
    var byIP0 := if v.a.isIPv6 != 0 then l.ipv6Infos(v.a.l3EpcID, v.a.ip6) else l.ipv4Infos(v.a.l3EpcID, v.a.ip);
    var byIP1 := if v.a.isIPv6 != 0 then l.ipv6Infos(v.a.l3EpcID1, v.a.ip61) else l.ipv4Infos(v.a.l3EpcID1, v.a.ip1);
    if v.a.mac != 0 && v.a.mac1 != 0 then
      var pair := l.macInfosPair(MacKey(v.a.mac, v.a.l3EpcID), MacKey(v.a.mac1, v.a.l3EpcID1));
      (OrElse(pair.0, reget0), OrElse(pair.1, reget1))
    else if v.a.mac != 0 then
      (OrElse(l.macInfo(MacKey(v.a.mac, v.a.l3EpcID)), reget0), byIP1)
    else if v.a.mac1 != 0 then
      (byIP0, OrElse(l.macInfo(MacKey(v.a.mac1, v.a.l3EpcID1)), reget1))
    else if v.a.isIPv6 != 0 then
      l.ipv6InfosPair(v.a.l3EpcID, v.a.ip6, v.a.l3EpcID1, v.a.ip61)
    else
      l.ipv4InfosPair(v.a.l3EpcID, v.a.ip, v.a.l3EpcID1, v.a.ip1)
  }

  /** The platform record of a single-end document. */
  function MainInfo(v: TagValue, l: Lookups): Option<Info>
  {
    if v.a.mac != 0 then OrElse(l.macInfo(MacKey(v.a.mac, v.a.l3EpcID)), l.regetInfoFromIP(v.a.isIPv6 == 1, v.a.ip6, v.a.ip, v.a.l3EpcID))
    else if v.a.isIPv6 != 0 then l.ipv6Infos(v.a.l3EpcID, v.a.ip6)
    else l.ipv4Infos(v.a.l3EpcID, v.a.ip)
  }

  /** The record's ids at the tag's widths (Go's uint16 and DeviceType conversions truncate). */
  function Located(s: Side, info: Info): Side
  {
    s.(regionID := info.regionID % U16_MODULUS, hostID := info.hostID % U16_MODULUS, l3DeviceID := info.deviceID,
       l3DeviceType := info.deviceType % U8_MODULUS, subnetID := info.subnetID % U16_MODULUS,
       podNodeID := info.podNodeID, podNSID := info.podNSID % U16_MODULUS, azID := info.azID % U16_MODULUS,
       podGroupID := info.podGroupID, podID := info.podID, podClusterID := info.podClusterID % U16_MODULUS)
  }

  /** A cluster IP or a pod IP: its service id is looked up even without a port. */
  predicate QueriesService(s: Side)
  {
    s.l3DeviceType == DEVICE_TYPE_POD_SERVICE || s.podID != 0
  }

  /** A pod service, a pod or a pod node: the only ends whose service id is written. */
  predicate ServiceEligible(s: Side)
  {
    QueriesService(s) || s.podNodeID != 0
  }

  /**
   * The (is key service, service id) answer for one end: with a port the
   * port is part of the query, without one only cluster and pod IPs are
   * queried (with port 0), and no query gives (false, 0).
   */
  function ServiceQuery(l: Lookups, v: TagValue, peer: bool, withPort: bool, s: Side): (bool, u32)
  {
    var epc := if peer then v.a.l3EpcID1 else v.a.l3EpcID;
    var ip := if peer then v.a.ip1 else v.a.ip;
    var ip6 := if peer then v.a.ip61 else v.a.ip6;
    if withPort then
      if v.a.isIPv6 != 0 then l.ipv6IsKeyServiceAndID(epc, ip6, v.a.protocol, v.a.serverPort)
      else l.isKeyServiceAndID(epc, ip, v.a.protocol, v.a.serverPort)
    else if QueriesService(s) then
      (false, (if v.a.isIPv6 != 0 then l.ipv6IsKeyServiceAndID(epc, ip6, v.a.protocol, 0)
               else l.isKeyServiceAndID(epc, ip, v.a.protocol, 0)).1)
    else (false, 0)
  }

  function Serviced(s: Side, q: (bool, u32)): Side
  {
    if ServiceEligible(s) then s.(serviceID := q.1) else s
  }

  /** Side 1 filled from its record; a port query may mark the document as a key service. */
  function PeerFilled(v: TagValue, info1: Info, l: Lookups): (r: TagValue)
    ensures r.id == v.id && r.code == v.code && r.a == v.a && r.side0 == v.side0
  {
    var s := Located(v.side1, info1);
    var q := ServiceQuery(l, v, true, v.code & PORT_ADD_CODE != 0, s);
    v.(side1 := Serviced(s, q), isKeyService := if q.0 then 1 else v.isKeyService)
  }

  /** Side 0 filled from its record; only single-end documents with a port query the port. */
  function LocalFilled(v: TagValue, info: Info, l: Lookups): (r: TagValue)
    ensures r.id == v.id && r.code == v.code && r.a == v.a && r.side1 == v.side1
  {
    var s := Located(v.side0, info);
    var q := ServiceQuery(l, v, false, v.code & PORT_ADD_CODE != 0 && v.code & EDGE_CODE == 0, s);
    v.(side0 := Serviced(s, q), isKeyService := if q.0 then 1 else v.isKeyService)
  }

  function Ip0(v: TagValue): seq<u8> { if v.a.isIPv6 != 0 then v.a.ip6 else IpFromUint32(v.a.ip) }
  function Ip1(v: TagValue): seq<u8> { if v.a.isIPv6 != 0 then v.a.ip61 else IpFromUint32(v.a.ip1) }

  /** Side 0 takes the region, subnet and AZ of side 1. */
  function BorrowedBy0(v: TagValue): TagValue
  {
    v.(side0 := v.side0.(regionID := v.side1.regionID, subnetID := v.side1.subnetID, azID := v.side1.azID))
  }

  /** Side 1 takes the region, subnet and AZ of side 0. */
  function BorrowedBy1(v: TagValue): TagValue
  {
    v.(side1 := v.side1.(regionID := v.side0.regionID, subnetID := v.side0.subnetID, azID := v.side0.azID))
  }

  function WithResources(s: Side, epc: i16, l: Lookups): Side
  {
    s.(gl0 := l.resourceGl0(s.podID, s.podNodeID, s.l3DeviceID, s.l3DeviceType, epc),
       gl1 := l.resourceGl1(s.podGroupID, s.podNodeID, s.l3DeviceID, s.l3DeviceType, epc),
       gl2 := l.resourceGl2(s.serviceID, s.podGroupID, s.podNodeID, s.l3DeviceID, s.l3DeviceType, epc))
  }

  /** An edge document observed on the server side whose side 1 is in another region. */
  predicate PeerRegionMismatch(v: TagValue, myRegionID: u16)
  {
    myRegionID != 0 && v.side1.regionID != 0 && v.a.tapSide == SERVER && v.side1.regionID != myRegionID
  }

  /** Side 0 in another region: on the client side for edge documents, always for single-end ones. */
  predicate LocalRegionMismatch(v: TagValue, myRegionID: u16)
  {
    myRegionID != 0 && v.side0.regionID != 0 && v.side0.regionID != myRegionID &&
    (IsEdge(v.code) ==> v.a.tapSide == CLIENT)
  }

  function RegionError(myRegionID: u16, which: string, regionID: u16): string
  {
    "My regionID is " + NatToString(myRegionID) + ", but document " + which + " is " + NatToString(regionID)
  }

  /* ---------------- the expansion as a function ---------------- */

  /** The expanded tag and the error, if any; an error means the other-region counter was raised. */
  datatype Outcome = Outcome(tag: TagValue, err: Option<string>)

  function MyRegionID(l: Lookups): u16 { l.regionID % U16_MODULUS }

  /** The code after the port and path/main bits are added. */
  function ExpandedCode(c: Code): Code
  {
    var c1 := if c & SERVER_PORT == SERVER_PORT then c | PORT_ADD_CODE else c;
    if IsEdge(c1) then c1 | EDGE_ADD_CODE else c1 | MAIN_ADD_CODE
  }

  /** Side 0 of a document once the other steps are done (lines 191-279 of the source). */
  function LocalOutcome(v: TagValue, info: Option<Info>, info1Missing: bool, l: Lookups): (r: Outcome)
    ensures r.tag.id == v.id && r.tag.code == v.code && r.tag.a == v.a
  {
    if info.None? then Outcome(v, None)
    else
      var v1 := LocalFilled(v, info.value, l);
      var v2 := if info1Missing && IsEdge(v1.code) && IsMulticast(Ip1(v1)) then BorrowedBy1(v1) else v1;
      if LocalRegionMismatch(v2, MyRegionID(l)) then Outcome(v2, Some(RegionError(MyRegionID(l), "regionID", v2.side0.regionID)))
      else Outcome(v2.(side0 := WithResources(v2.side0, v2.a.l3EpcID, l)), None)
  }

  /** Side 1 of an edge document (lines 94-168); its resources are derived afterwards. */
  function PeerStep(v: TagValue, info: Option<Info>, info1: Info, l: Lookups): (r: TagValue)
    ensures r.id == v.id && r.code == v.code && r.a == v.a
  {
    var v1 := PeerFilled(v, info1, l);
    if info.None? && IsMulticast(Ip0(v1)) then BorrowedBy0(v1) else v1
  }

  function EdgeOutcome(v: TagValue, l: Lookups): (r: Outcome)
    ensures r.tag.id == v.id && r.tag.code == v.code && r.tag.a == v.a
  {
    if v.a.l3EpcID == EPC_FROM_INTERNET && v.a.l3EpcID1 == EPC_FROM_INTERNET then Outcome(v, None)
    else
      var infos := EdgeInfos(v, l);
      var v1 := if infos.1.Some? then PeerStep(v, infos.0, infos.1.value, l) else v;
      if infos.1.Some? && PeerRegionMismatch(v1, MyRegionID(l)) then
        Outcome(v1, Some(RegionError(MyRegionID(l), "regionID1", v1.side1.regionID)))
      else
        LocalOutcome(v1.(side1 := WithResources(v1.side1, v1.a.l3EpcID1, l)), infos.0, infos.1.None?, l)
  }

  function SingleOutcome(v: TagValue, l: Lookups): Outcome
  {
    if v.a.l3EpcID == EPC_FROM_INTERNET then Outcome(v, None)
    else LocalOutcome(v, MainInfo(v, l), true, l)
  }

  /** DocumentExpand on a tag value. */
  function Expand(v: TagValue, meterID: nat, suffixID: nat, l: Lookups): Outcome
  {
    var v0 := v.(id := "");
    if meterID == ACL_ID && suffixID == 1 then Outcome(v0, None)
    else
      var v1 := v0.(code := ExpandedCode(v.code));
      if IsEdge(v.code) then EdgeOutcome(v1, l) else SingleOutcome(v1, l)
  }

  /* ---------------- properties ---------------- */

  /** The compound codes are made of the column bits named in the source. */
  lemma CompoundCodes()
    ensures EDGE_CODE == IP_PATH | L3_EPC_ID_PATH
    ensures MAIN_ADD_CODE == REGION_ID | HOST_ID | L3_DEVICE | SUBNET_ID | POD_NODE_ID | AZ_ID |
      POD_GROUP_ID | POD_NS_ID | POD_ID | POD_CLUSTER_ID | SERVICE_ID | RESOURCE
    ensures EDGE_ADD_CODE == Path(REGION_ID) | Path(HOST_ID) | Path(L3_DEVICE) | Path(SUBNET_ID) |
      Path(POD_NODE_ID) | Path(AZ_ID) | Path(POD_GROUP_ID) | Path(POD_NS_ID) | Path(POD_ID) |
      Path(POD_CLUSTER_ID) | Path(SERVICE_ID) | Path(RESOURCE)
  {
  }

  /** Adding the port, path or main bits never changes whether a document is an edge document. */
  lemma AddedCodesKeepEdge(c: Code)
    ensures IsEdge(c | PORT_ADD_CODE) == IsEdge(c)
    ensures IsEdge(c | EDGE_ADD_CODE) == IsEdge(c) && IsEdge(c | MAIN_ADD_CODE) == IsEdge(c)
    ensures (c | PORT_ADD_CODE) & PORT_ADD_CODE != 0
  {
  }

  /** A present server port always adds the key-service bit. */
  lemma ExpandedCodeKeyService(c: Code)
    ensures c & SERVER_PORT == SERVER_PORT ==> ExpandedCode(c) & IS_KEY_SERVICE == IS_KEY_SERVICE
  {
  }

  /**
   * The expanded code is the old code plus the key-service bit when the
   * server port is present, plus the path bits for edge documents and the
   * main bits otherwise.
   */
  lemma ExpandedCodeAdds(c: Code)
    ensures IsEdge(c) ==> ExpandedCode(c) == (if c & SERVER_PORT == SERVER_PORT then c | PORT_ADD_CODE else c) | EDGE_ADD_CODE
    ensures !IsEdge(c) ==> ExpandedCode(c) == (if c & SERVER_PORT == SERVER_PORT then c | PORT_ADD_CODE else c) | MAIN_ADD_CODE
  {
  }

  /** Expansion only adds bits, and an edge document stays an edge document. */
  lemma ExpandedCodeKeeps(c: Code)
    ensures ExpandedCode(c) & c == c
  {
  }

  lemma ExpandedCodeKeepsEdge(c: Code)
    ensures IsEdge(ExpandedCode(c)) == IsEdge(c)
  {
  }

  /** The tag id is always cleared; a minute-level ACL document is otherwise left exactly as it was. */
  lemma ExpandClearsID(v: TagValue, meterID: nat, suffixID: nat, l: Lookups)
    ensures Expand(v, meterID, suffixID, l).tag.id == ""
    ensures meterID == ACL_ID && suffixID == 1 ==> Expand(v, meterID, suffixID, l) == Outcome(v.(id := ""), None)
  {
  }

  /** Every expanded document that is not an ACL minute document carries the expanded code. */
  lemma ExpandCode(v: TagValue, meterID: nat, suffixID: nat, l: Lookups)
    requires !(meterID == ACL_ID && suffixID == 1)
    ensures Expand(v, meterID, suffixID, l).tag.code == ExpandedCode(v.code)
  {
  }

  /**
   * Internet traffic is not looked up: an edge document whose two EPCs are
   * the internet, and a single-end document whose EPC is, keep both sides and
   * the key-service flag, and are never rejected.
   */
  lemma InternetNotFilled(v: TagValue, meterID: nat, suffixID: nat, l: Lookups)
    requires (IsEdge(v.code) && v.a.l3EpcID == EPC_FROM_INTERNET && v.a.l3EpcID1 == EPC_FROM_INTERNET) ||
             (!IsEdge(v.code) && v.a.l3EpcID == EPC_FROM_INTERNET)
    ensures var o := Expand(v, meterID, suffixID, l);
      o.err.None? && o.tag.side0 == v.side0 && o.tag.side1 == v.side1 && o.tag.isKeyService == v.isKeyService
  {
  }

  /** A document rejected for its region always names a side whose non-zero region differs from ours. */
  lemma {:induction false} RejectedOnlyForOtherRegion(v: TagValue, meterID: nat, suffixID: nat, l: Lookups)
    ensures var o := Expand(v, meterID, suffixID, l); var my := MyRegionID(l);
      o.err.Some? ==>
        (IsEdge(v.code) && PeerRegionMismatch(o.tag, my)) || LocalRegionMismatch(o.tag, my)
  {
    if !(meterID == ACL_ID && suffixID == 1) {
      var v1 := v.(id := "").(code := ExpandedCode(v.code));
      AddedCodesKeepEdge(v.code);
      ExpandCode(v, meterID, suffixID, l);
    }
  }

  /**
   * A single-end document found on the platform in a region other than ours
   * (both non-zero) is rejected with the region in the message.
   */
  lemma SingleEndOtherRegionRejected(v: TagValue, meterID: nat, suffixID: nat, l: Lookups)
    requires !(meterID == ACL_ID && suffixID == 1) && !IsEdge(v.code) && v.a.l3EpcID != EPC_FROM_INTERNET
    requires var v1 := v.(id := "").(code := ExpandedCode(v.code)); var info := MainInfo(v1, l);
      info.Some? && info.value.regionID % U16_MODULUS != 0 && MyRegionID(l) != 0 &&
      info.value.regionID % U16_MODULUS != MyRegionID(l)
    ensures Expand(v, meterID, suffixID, l).err ==
      Some(RegionError(MyRegionID(l), "regionID", MainInfo(v.(id := "").(code := ExpandedCode(v.code)), l).value.regionID % U16_MODULUS))
  {
    AddedCodesKeepEdge(v.code);
    ExpandedCodeKeepsEdge(v.code);
  }

  /** An end's service id changes only for a pod service, a pod or a pod node. */
  lemma ServiceIDOnlyForPods(s: Side, q: (bool, u32))
    ensures Serviced(s, q).serviceID != s.serviceID ==> ServiceEligible(s) && Serviced(s, q).serviceID == q.1
    ensures Serviced(s, q).(serviceID := s.serviceID) == s
  {
  }

  /** Filling side 0 leaves side 1 alone and writes the truncated platform ids. */
  lemma LocalFilledIds(v: TagValue, info: Info, l: Lookups)
    ensures var r := LocalFilled(v, info, l);
      r.side1 == v.side1 && r.code == v.code &&
      r.side0.regionID == info.regionID % U16_MODULUS && r.side0.azID == info.azID % U16_MODULUS &&
      r.side0.subnetID == info.subnetID % U16_MODULUS && r.side0.podID == info.podID &&
      (r.side0.serviceID != v.side0.serviceID ==> ServiceEligible(r.side0)) &&
      (r.isKeyService != v.isKeyService ==> r.isKeyService == 1 && v.code & PORT_ADD_CODE != 0 && !IsEdge(v.code))
  {
  }

  /**
   * A multicast end with no platform record of its own takes the region,
   * subnet and AZ of the opposite end (side 0 from side 1 here).
   */
  lemma MulticastSide0Borrows(v: TagValue, info1: Info, l: Lookups)
    requires IsMulticast(Ip0(v))
    ensures var r := PeerStep(v, None, info1, l);
      r.side0.regionID == r.side1.regionID && r.side0.subnetID == r.side1.subnetID && r.side0.azID == r.side1.azID &&
      r.side1.regionID == info1.regionID % U16_MODULUS
  {
  }

  /** Side 1 of an edge document, missing and multicast, takes side 0's region, subnet and AZ. */
  lemma MulticastSide1Borrows(v: TagValue, info: Info, l: Lookups)
    requires IsEdge(v.code) && IsMulticast(Ip1(v))
    ensures var o := LocalOutcome(v, Some(info), true, l);
      o.tag.side1.regionID == o.tag.side0.regionID == info.regionID % U16_MODULUS &&
      o.tag.side1.subnetID == o.tag.side0.subnetID == info.subnetID % U16_MODULUS &&
      o.tag.side1.azID == o.tag.side0.azID == info.azID % U16_MODULUS
  {
  }

  /** A document with its own record for side 0 keeps side 0 while side 1 is filled. */
  lemma PeerStepKeepsSide0(v: TagValue, info: Info, info1: Info, l: Lookups)
    ensures PeerStep(v, Some(info), info1, l).side0 == v.side0
  {
  }

  /** The first byte of an IPv4 address in network order is its top 8 bits. */
  lemma {:induction false} IpFromUint32FirstByte(ip: u32)
    ensures |IpFromUint32(ip)| == 4 && IpFromUint32(ip)[0] == ip / 0x100_0000
  {
    var b := BeBytes(ip, 4);
    assert b == BeBytes(ip / 256, 3) + [ip % 256];
    assert BeBytes(ip / 256, 3) == BeBytes(ip / 256 / 256, 2) + [ip / 256 % 256];
    assert BeBytes(ip / 256 / 256, 2) == BeBytes(ip / 256 / 256 / 256, 1) + [ip / 256 / 256 % 256];
    assert BeBytes(ip / 256 / 256 / 256, 1) == [ip / 256 / 256 / 256 % 256];
    assert ip / 256 / 256 / 256 == ip / 0x100_0000;
  }

  /** An IPv4 address is multicast iff it lies in 224.0.0.0/4. */
  lemma Ipv4Multicast(ip: u32)
    ensures IsMulticast(IpFromUint32(ip)) <==> 0xe000_0000 <= ip < 0xf000_0000
  {
    IpFromUint32FirstByte(ip);
  }

  /* ---------------- the tag and the platform table as objects ---------------- */

  /** The platform table: its lookups, and the counter AddOtherRegion raises. */
  class PlatformInfoTable {
    const lookups: Lookups
    var otherRegionCount: nat

    constructor (lookups: Lookups)
      ensures this.lookups == lookups && otherRegionCount == 0
    {
      this.lookups := lookups;
      otherRegionCount := 0;
    }

    method AddOtherRegion()
      modifies this
      ensures otherRegionCount == old(otherRegionCount) + 1
    {
      otherRegionCount := otherRegionCount + 1;
    }
  }

  /** A zerodoc tag; the addressing fields are fixed once the tag is decoded. */
  class Tag {
    var id: string
    var code: Code
    const l3EpcID: i16
    const l3EpcID1: i16
    const mac: u64
    const mac1: u64
    const isIPv6: u8
    const ip: u32
    const ip1: u32
    const ip6: seq<u8>
    const ip61: seq<u8>
    const protocol: u8
    const serverPort: u16
    const tapSide: u8
    var isKeyService: u8
    var side0: Side
    var side1: Side

    function Value(): TagValue
      reads this
    {
      TagValue(id, code, Addressing(l3EpcID, l3EpcID1, mac, mac1, isIPv6, ip, ip1, ip6, ip61, protocol, serverPort, tapSide),
               isKeyService, side0, side1)
    }

    constructor (v: TagValue)
      ensures Value() == v
    {
      id, code, isKeyService := v.id, v.code, v.isKeyService;
      l3EpcID, l3EpcID1, mac, mac1 := v.a.l3EpcID, v.a.l3EpcID1, v.a.mac, v.a.mac1;
      isIPv6, ip, ip1, ip6, ip61 := v.a.isIPv6, v.a.ip, v.a.ip1, v.a.ip6, v.a.ip61;
      protocol, serverPort, tapSide := v.a.protocol, v.a.serverPort, v.a.tapSide;
      side0, side1 := v.side0, v.side1;
    }

    /** Fills side 1 from its record and asks for its service. */
    method FillPeer(info1: Info, l: Lookups)
      modifies this
      ensures Value() == PeerFilled(old(Value()), info1, l)
    {
      side1 := Located(side1, info1);
      var serviceID: u32 := 0;
      if isIPv6 != 0 {
        if code & PORT_ADD_CODE != 0 {
          var q := l.ipv6IsKeyServiceAndID(l3EpcID1, ip61, protocol, serverPort);
          serviceID := q.1;
          if q.0 {
            isKeyService := 1;
          }
        } else if side1.l3DeviceType == DEVICE_TYPE_POD_SERVICE || side1.podID != 0 {
          serviceID := l.ipv6IsKeyServiceAndID(l3EpcID1, ip61, protocol, 0).1;
        }
      } else {
        if code & PORT_ADD_CODE != 0 {
          var q := l.isKeyServiceAndID(l3EpcID1, ip1, protocol, serverPort);
          serviceID := q.1;
          if q.0 {
            isKeyService := 1;
          }
        } else if side1.l3DeviceType == DEVICE_TYPE_POD_SERVICE || side1.podID != 0 {
          serviceID := l.isKeyServiceAndID(l3EpcID1, ip1, protocol, 0).1;
        }
      }
      if side1.l3DeviceType == DEVICE_TYPE_POD_SERVICE || side1.podID != 0 || side1.podNodeID != 0 {
        side1 := side1.(serviceID := serviceID);
      }
    }

    /** Fills side 0 from its record and asks for its service. */
    method FillLocal(info: Info, l: Lookups)
      modifies this
      ensures Value() == LocalFilled(old(Value()), info, l)
    {
      side0 := Located(side0, info);
      var serviceID: u32 := 0;
      if isIPv6 != 0 {
        if code & PORT_ADD_CODE != 0 && code & EDGE_CODE == 0 {
          var q := l.ipv6IsKeyServiceAndID(l3EpcID, ip6, protocol, serverPort);
          serviceID := q.1;
          if q.0 {
            isKeyService := 1;
          }
        } else if side0.l3DeviceType == DEVICE_TYPE_POD_SERVICE || side0.podID != 0 {
          serviceID := l.ipv6IsKeyServiceAndID(l3EpcID, ip6, protocol, 0).1;
        }
      } else {
        if code & PORT_ADD_CODE != 0 && code & EDGE_CODE == 0 {
          var q := l.isKeyServiceAndID(l3EpcID, ip, protocol, serverPort);
          serviceID := q.1;
          if q.0 {
            isKeyService := 1;
          }
        } else if side0.l3DeviceType == DEVICE_TYPE_POD_SERVICE || side0.podID != 0 {
          serviceID := l.isKeyServiceAndID(l3EpcID, ip, protocol, 0).1;
        }
      }
      if side0.l3DeviceType == DEVICE_TYPE_POD_SERVICE || side0.podID != 0 || side0.podNodeID != 0 {
        side0 := side0.(serviceID := serviceID);
      }
    }

    /** A multicast side 1 with no record of its own takes side 0's region, subnet and AZ (lines 248-261 of the source). */
    method BorrowForSide1(info1Missing: bool)
      modifies this
      ensures Value() == if info1Missing && IsEdge(old(code)) && IsMulticast(Ip1(old(Value()))) then BorrowedBy1(old(Value())) else old(Value())
    {
      if info1Missing && code & EDGE_CODE == EDGE_CODE {
        var ip1Bytes := if isIPv6 != 0 then ip61 else IpFromUint32(ip1);
        if IsMulticast(ip1Bytes) {
          side1 := side1.(regionID := side0.regionID, subnetID := side0.subnetID, azID := side0.azID);
        }
      }
    }

    /** A multicast side 0 with no record of its own takes side 1's region, subnet and AZ (lines 149-162). */
    method BorrowForSide0(infoMissing: bool)
      modifies this
      ensures Value() == if infoMissing && IsMulticast(Ip0(old(Value()))) then BorrowedBy0(old(Value())) else old(Value())
    {
      if infoMissing {
        var ip0Bytes := if isIPv6 != 0 then ip6 else IpFromUint32(ip);
        if IsMulticast(ip0Bytes) {
          side0 := side0.(regionID := side1.regionID, subnetID := side1.subnetID, azID := side1.azID);
        }
      }
    }

    /** Rejects a side 0 of another region; otherwise derives side 0's resources. */
    method CheckLocalRegion(p: PlatformInfoTable) returns (err: Option<string>)
      modifies this, p
      ensures var v := old(Value()); var my := MyRegionID(p.lookups);
        if LocalRegionMismatch(v, my) then err == Some(RegionError(my, "regionID", v.side0.regionID)) && Value() == v
        else err.None? && Value() == v.(side0 := WithResources(v.side0, v.a.l3EpcID, p.lookups))
      ensures p.otherRegionCount == old(p.otherRegionCount) + (if err.Some? then 1 else 0)
    {
      var myRegionID := MyRegionID(p.lookups);
      if myRegionID != 0 && side0.regionID != 0 {
        if code & EDGE_CODE == EDGE_CODE {
          if tapSide == CLIENT && side0.regionID != myRegionID {
            p.AddOtherRegion();
            return Some(RegionError(myRegionID, "regionID", side0.regionID));
          }
        } else {
          if side0.regionID != myRegionID {
            p.AddOtherRegion();
            return Some(RegionError(myRegionID, "regionID", side0.regionID));
          }
        }
      }
      side0 := WithResources(side0, l3EpcID, p.lookups);
      return None;
    }

    /** The side-0 half of DocumentExpand: fill, borrow for a multicast side 1, check the region, derive resources. */
    method ExpandLocal(info: Option<Info>, info1Missing: bool, p: PlatformInfoTable) returns (err: Option<string>)
      modifies this, p
      ensures var o := LocalOutcome(old(Value()), info, info1Missing, p.lookups);
        Value() == o.tag && err == o.err
      ensures p.otherRegionCount == old(p.otherRegionCount) + (if err.Some? then 1 else 0)
    {
      if info.None? {
        return None;
      }
      FillLocal(info.value, p.lookups);
      BorrowForSide1(info1Missing);
      err := CheckLocalRegion(p);
    }

    /** Rejects an edge document observed on the server side whose side 1 is of another region. */
    method CheckPeerRegion(p: PlatformInfoTable) returns (err: Option<string>)
      modifies p
      ensures var v := Value(); var my := MyRegionID(p.lookups);
        err == if PeerRegionMismatch(v, my) then Some(RegionError(my, "regionID1", v.side1.regionID)) else None
      ensures p.otherRegionCount == old(p.otherRegionCount) + (if err.Some? then 1 else 0)
    {
      var myRegionID := MyRegionID(p.lookups);
      if myRegionID != 0 && side1.regionID != 0 {
        if tapSide == SERVER && side1.regionID != myRegionID {
          p.AddOtherRegion();
          return Some(RegionError(myRegionID, "regionID1", side1.regionID));
        }
      }
      return None;
    }

    /** The edge-document half of DocumentExpand, after the path bits are added. */
    method ExpandEdge(p: PlatformInfoTable) returns (err: Option<string>)
      modifies this, p
      ensures var o := EdgeOutcome(old(Value()), p.lookups);
        Value() == o.tag && err == o.err
      ensures p.otherRegionCount == old(p.otherRegionCount) + (if err.Some? then 1 else 0)
    {
      if l3EpcID == EPC_FROM_INTERNET && l3EpcID1 == EPC_FROM_INTERNET {
        return None;
      }
      var infos := EdgeInfos(Value(), p.lookups);
      var info, info1 := infos.0, infos.1;
      if info1.Some? {
        FillPeer(info1.value, p.lookups);
        BorrowForSide0(info.None?);
        err := CheckPeerRegion(p);
        if err.Some? {
          return;
        }
      }
      side1 := WithResources(side1, l3EpcID1, p.lookups);
      err := ExpandLocal(info, info1.None?, p);
    }

    /**
     * DocumentExpand: clears the id, adds the code bits, fills both ends
     * from the platform table and rejects documents of another region,
     * raising the table's other-region counter once per rejection.
     */
    method DocumentExpand(meterID: nat, suffixID: nat, p: PlatformInfoTable) returns (err: Option<string>)
      modifies this, p
      ensures var o := Expand(old(Value()), meterID, suffixID, p.lookups);
        Value() == o.tag && err == o.err
      ensures p.otherRegionCount == old(p.otherRegionCount) + (if err.Some? then 1 else 0)
    {
      ghost var v := Value();
      id := "";
      if meterID == ACL_ID && suffixID == 1 {
        return None;
      }
      AddCodes();
      ExpandedCodeKeepsEdge(v.code);
      if code & EDGE_CODE == EDGE_CODE {
        err := ExpandEdge(p);
      } else {
        if l3EpcID == EPC_FROM_INTERNET {
          return None;
        }
        err := ExpandLocal(MainInfo(Value(), p.lookups), true, p);
      }
    }

    /** The code bits DocumentExpand adds: the key-service bit for a server port, then the path or main bits. */
    method AddCodes()
      modifies this
      ensures Value() == old(Value()).(code := ExpandedCode(old(code)))
    {
      var c := code;
      if c & SERVER_PORT == SERVER_PORT {
        c := c | PORT_ADD_CODE;
      }
      if c & EDGE_CODE == EDGE_CODE {
        c := c | EDGE_ADD_CODE;
      } else {
        c := c | MAIN_ADD_CODE;
      }
      assert c == ExpandedCode(old(code));
      code := c;
    }
  }
}
