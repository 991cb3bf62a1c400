/**
 * The application-protocol logs of the agent's flow generator: the header
 * every parsed L7 message carries, the base information of a log built from
 * an eBPF socket event, its conversion to the flow_log protobuf, the merge of
 * a request log with its response into a session, and the id that groups an
 * eBPF request with its response.
 *
 * Durations are whole nanoseconds. The integers the tap type and tap side
 * enums convert to are declared outside this module and are a parameter
 * (`EnumCodes`); IP protocols convert to their IANA protocol numbers.
 */
module ProtocolLogs {
  import opened Wrappers
  import opened FixedWidth

  type i32 = x: int | -0x8000_0000 <= x < 0x8000_0000

  /** The 16 octets of an IPv6 address. */
  type Ipv6Octets = s: seq<u8> | |s| == 16 witness [0, 0, 0, 0, 0, 0, 0, 0, 0, 0, 0, 0, 0, 0, 0, 0]

  const IPV6_UNSPECIFIED: Ipv6Octets := [0, 0, 0, 0, 0, 0, 0, 0, 0, 0, 0, 0, 0, 0, 0, 0]

  /** An IPv4 address as its big-endian number, or an IPv6 address as its octets. */
  datatype IpAddr = V4(addr: u32) | V6(octets: Ipv6Octets)

  datatype PacketDirection = ClientToServer | ServerToClient

  datatype IpProtocol = Tcp | Udp | OtherIpProtocol(number: u8)

  /** The protocol number an IP protocol converts to (`protocol as u32`). */
  function ProtocolNumber(p: IpProtocol): u8
  {
    match p
    case Tcp => 6
    case Udp => 17
    case OtherIpProtocol(n) => n
  }

  datatype L7ResponseStatus = Ok | Error | NotExist | ServerError | ClientError
  {
    function Code(): nat
    {
      match this
      case Ok => 0
      case Error => 1
      case NotExist => 2
      case ServerError => 3
      case ClientError => 4
    }
  }

  datatype LogMessageType = Request | Response | Session | Other | Max
  {
    function Code(): nat
    {
      match this
      case Request => 0
      case Response => 1
      case Session => 2
      case Other => 3
      case Max => 4
    }
  }

  /** The L7 protocols, with the values common/flow.rs gives them. */
  datatype L7Protocol = Unknown | OtherL7 | Http1 | Http2 | Http1TLS | Dubbo | Mysql | Redis | Kafka | Mqtt | Dns
  {
    function Code(): bv8
    {
      match this
      case Unknown => 0
      case OtherL7 => 1
      case Http1 => 20
      case Http2 => 21
      case Http1TLS => 22
      case Dubbo => 40
      case Mysql => 60
      case Redis => 80
      case Kafka => 100
      case Mqtt => 101
      case Dns => 120
    }
  }

  /** The message type of a packet's direction: a request from the client, a response from the server. */
  function MessageTypeOf(d: PacketDirection): (r: LogMessageType)
    ensures r == Request <==> d == ClientToServer
    ensures r == Response <==> d == ServerToClient
  {
    match d
    case ClientToServer => Request
    case ServerToClient => Response
  }

  /** The head of a parsed L7 message; `rrt` is in microseconds. */
  datatype AppProtoHead = AppProtoHead(
    proto: L7Protocol, msgType: LogMessageType, status: L7ResponseStatus, code: u16, rrt: u64, version: u8)

  /** flow_log::AppProtoHead; its rrt is in nanoseconds. */
  datatype PbAppProtoHead = PbAppProtoHead(proto: u32, msgType: u32, status: u32, code: u32, rrt: u64)

  const NANOS_PER_MICRO: nat := 1000

  /** The protobuf head: enum codes and the rrt in nanoseconds, the u64 product wrapping as a release build does. */
  function PbHead(h: AppProtoHead): (r: PbAppProtoHead)
    ensures h.rrt * NANOS_PER_MICRO < U64_MODULUS ==> r.rrt == h.rrt * NANOS_PER_MICRO
  {
    PbAppProtoHead(h.proto.Code() as int, h.msgType.Code(), h.status.Code(), h.code, WrapU64(h.rrt * NANOS_PER_MICRO))
  }

  /**
   * The protobuf head loses only the version: two heads whose rrt fits the
   * nanosecond conversion and whose protobuf heads agree are the same head
   * up to the version, and the microseconds are read back by dividing by 1000.
   */
  lemma PbHeadInjective(a: AppProtoHead, b: AppProtoHead)
    requires a.rrt * NANOS_PER_MICRO < U64_MODULUS && b.rrt * NANOS_PER_MICRO < U64_MODULUS
    ensures PbHead(a).rrt / NANOS_PER_MICRO == a.rrt
    ensures PbHead(a) == PbHead(b) ==> a.(version := b.version) == b
  {
  }

  datatype TapType = Tor | OtherTapType

  datatype TapSide = ClientProcess | ServerProcess | OtherTapSide

  /**
   * The integers of the agent's enums: `u16::from` of a tap type and the
   * `#[repr(u8)]` value of a tap side.
   */
  datatype EnumCodes = EnumCodes(tapType: TapType -> u16, tapSide: TapSide -> u8)

  /** AppProtoLogsBaseInfo. Times are nanoseconds. */
  datatype BaseInfo = BaseInfo(
    startTime: nat, endTime: nat, flowId: u64, tapPort: u64, vtapId: u16, tapType: TapType,
    isIpv6: bool, tapSide: TapSide, head: AppProtoHead,
    macSrc: u64, macDst: u64, ipSrc: IpAddr, ipDst: IpAddr, l3EpcIdSrc: i32, l3EpcIdDst: i32,
    portSrc: u16, portDst: u16, reqTcpSeq: u32, respTcpSeq: u32,
    processId0: u32, processId1: u32, processKname0: string, processKname1: string,
    syscallTraceIdRequest: u64, syscallTraceIdResponse: u64,
    syscallTraceIdThread0: u32, syscallTraceIdThread1: u32,
    syscallCapSeq0: u64, syscallCapSeq1: u64,
    protocol: IpProtocol, isVipInterfaceSrc: bool, isVipInterfaceDst: bool)

  /**
   * flow_log::AppProtoLogsBaseInfo, for the fields whose conversion this
   * module defines.
   */
  datatype PbBaseInfo = PbBaseInfo(
    startTime: u64, endTime: u64, flowId: u64, tapPort: u64, vtapId: u32, tapType: u32,
    isIpv6: u32, tapSide: u32, head: PbAppProtoHead, macSrc: u64, macDst: u64,
    ipSrc: u32, ipDst: u32, ip6Src: seq<u8>, ip6Dst: seq<u8>, l3EpcIdSrc: i32, l3EpcIdDst: i32,
    portSrc: u32, portDst: u32, protocol: u32, isVipInterfaceSrc: u32, isVipInterfaceDst: u32,
    reqTcpSeq: u32, respTcpSeq: u32,
    processId0: u32, processId1: u32, processKname0: string, processKname1: string,
    syscallTraceIdRequest: u64, syscallTraceIdResponse: u64,
    syscallTraceIdThread0: u32, syscallTraceIdThread1: u32,
    syscallCapSeq0: u32, syscallCapSeq1: u32)

  /**
   * The protobuf base information: None where the conversion panics, which
   * is when the source and destination addresses are of different families.
   * IPv4 addresses fill the v4 fields and leave the v6 fields unspecified;
   * IPv6 addresses the other way round. Times and capture sequences are
   * truncated to their protobuf widths; enums become their codes and flags
   * 0 or 1; every other field is copied.
   */
  function PbBase(f: BaseInfo, codes: EnumCodes): (r: Option<PbBaseInfo>)
    ensures r.None? <==> f.ipSrc.V4? != f.ipDst.V4?
    ensures r.Some? && f.ipSrc.V4? ==>
      r.value.ipSrc == f.ipSrc.addr && r.value.ipDst == f.ipDst.addr &&
      r.value.ip6Src == IPV6_UNSPECIFIED && r.value.ip6Dst == IPV6_UNSPECIFIED
    ensures r.Some? && f.ipSrc.V6? ==>
      r.value.ipSrc == 0 && r.value.ipDst == 0 && r.value.ip6Src == f.ipSrc.octets && r.value.ip6Dst == f.ipDst.octets
    ensures r.Some? ==> r.value.head == PbHead(f.head) && r.value.flowId == f.flowId
    ensures r.Some? ==> r.value.startTime == f.startTime % U64_MODULUS && r.value.endTime == f.endTime % U64_MODULUS
    ensures r.Some? ==>
      r.value.tapPort == f.tapPort && r.value.vtapId == f.vtapId && r.value.macSrc == f.macSrc && r.value.macDst == f.macDst
    ensures r.Some? ==>
      r.value.tapType == codes.tapType(f.tapType) && r.value.tapSide == codes.tapSide(f.tapSide) &&
      r.value.protocol == ProtocolNumber(f.protocol)
    ensures r.Some? ==> (r.value.isIpv6 == 1 <==> f.isIpv6) && r.value.isIpv6 <= 1
    ensures r.Some? ==>
      (r.value.isVipInterfaceSrc == 1 <==> f.isVipInterfaceSrc) && r.value.isVipInterfaceSrc <= 1 &&
      (r.value.isVipInterfaceDst == 1 <==> f.isVipInterfaceDst) && r.value.isVipInterfaceDst <= 1
    ensures r.Some? ==>
      r.value.syscallCapSeq0 == f.syscallCapSeq0 % U32_MODULUS && r.value.syscallCapSeq1 == f.syscallCapSeq1 % U32_MODULUS
    ensures r.Some? ==>
      r.value.l3EpcIdSrc == f.l3EpcIdSrc && r.value.l3EpcIdDst == f.l3EpcIdDst &&
      r.value.portSrc == f.portSrc && r.value.portDst == f.portDst &&
      r.value.reqTcpSeq == f.reqTcpSeq && r.value.respTcpSeq == f.respTcpSeq &&
      r.value.processId0 == f.processId0 && r.value.processId1 == f.processId1 &&
      r.value.processKname0 == f.processKname0 && r.value.processKname1 == f.processKname1 &&
      r.value.syscallTraceIdRequest == f.syscallTraceIdRequest && r.value.syscallTraceIdResponse == f.syscallTraceIdResponse &&
      r.value.syscallTraceIdThread0 == f.syscallTraceIdThread0 && r.value.syscallTraceIdThread1 == f.syscallTraceIdThread1
  {
    var ips: Option<(u32, u32, Ipv6Octets, Ipv6Octets)> :=
      match (f.ipSrc, f.ipDst)
      case (V4(s), V4(d)) => Some((s, d, IPV6_UNSPECIFIED, IPV6_UNSPECIFIED))
      case (V6(s), V6(d)) => Some((0, 0, s, d))
      case _ => None;
    if ips.None? then None
    else
      var (ip4Src, ip4Dst, ip6Src, ip6Dst) := ips.value;
      Some(PbBaseInfo(
        WrapU64(f.startTime), WrapU64(f.endTime), f.flowId, f.tapPort, f.vtapId, codes.tapType(f.tapType),
        if f.isIpv6 then 1 else 0, codes.tapSide(f.tapSide), PbHead(f.head), f.macSrc, f.macDst,
        ip4Src, ip4Dst, ip6Src, ip6Dst, f.l3EpcIdSrc, f.l3EpcIdDst,
        f.portSrc, f.portDst, ProtocolNumber(f.protocol),
        if f.isVipInterfaceSrc then 1 else 0, if f.isVipInterfaceDst then 1 else 0,
        f.reqTcpSeq, f.respTcpSeq,
        f.processId0, f.processId1, f.processKname0, f.processKname1,
        f.syscallTraceIdRequest, f.syscallTraceIdResponse,
        f.syscallTraceIdThread0, f.syscallTraceIdThread1,
        f.syscallCapSeq0 % U32_MODULUS, f.syscallCapSeq1 % U32_MODULUS))
  }

  /** What from_ebpf reads of an eBPF socket event. */
  datatype EbpfPacket = EbpfPacket(
    timestamp: nat, socketId: u64, tapPort: u64, l2End0: bool, l2End1: bool,
    srcMac: u64, dstMac: u64, srcIp: IpAddr, dstIp: IpAddr, srcPort: u16, dstPort: u16, proto: IpProtocol,
    processId: u32, processName: string, syscallTraceId: u64, tcpSeq: u32, threadId: u32, capSeq: u64)

  /** The direction of an eBPF event: client to server when l2_end_1 agrees with is_local_service. */
  function EbpfDirection(p: EbpfPacket, isLocalService: bool): PacketDirection
  {
    if p.l2End1 == isLocalService then ClientToServer else ServerToClient
  }

  /**
   * The base information of an eBPF event: source fields always describe the
   * client, the capturing side is a client process exactly when the event's
   * local end is the client, and the request-only fields (trace id, TCP
   * sequence, thread, capture sequence) are set only on a request and the
   * response-only ones only on a response.
   */
  function EbpfBaseInfo(p: EbpfPacket, head: AppProtoHead, vtapId: u16, localEpc: i32, remoteEpc: i32,
                        isLocalService: bool): (r: BaseInfo)
    ensures var request := EbpfDirection(p, isLocalService) == ClientToServer;
      var clientLocal := p.l2End0 == request;
      r.startTime == p.timestamp && r.endTime == p.timestamp && r.flowId == p.socketId && r.head == head &&
      r.vtapId == vtapId && r.isIpv6 == p.dstIp.V6? && r.protocol == p.proto && r.tapType == Tor &&
      (request ==> r.macSrc == p.srcMac && r.macDst == p.dstMac && r.ipSrc == p.srcIp && r.ipDst == p.dstIp &&
                   r.portSrc == p.srcPort && r.portDst == p.dstPort) &&
      (!request ==> r.macSrc == p.dstMac && r.macDst == p.srcMac && r.ipSrc == p.dstIp && r.ipDst == p.srcIp &&
                    r.portSrc == p.dstPort && r.portDst == p.srcPort) &&
      r.tapSide == (if clientLocal then ClientProcess else ServerProcess) &&
      r.l3EpcIdSrc == (if clientLocal then localEpc else remoteEpc) &&
      r.l3EpcIdDst == (if clientLocal then remoteEpc else localEpc) &&
      r.processId0 == (if clientLocal then p.processId else 0) &&
      r.processId1 == (if clientLocal then 0 else p.processId) &&
      r.processKname0 == (if clientLocal then p.processName else "") &&
      r.processKname1 == (if clientLocal then "" else p.processName) &&
      r.syscallTraceIdRequest == (if request then p.syscallTraceId else 0) &&
      r.syscallTraceIdResponse == (if request then 0 else p.syscallTraceId) &&
      r.reqTcpSeq == (if request then p.tcpSeq else 0) && r.respTcpSeq == (if request then 0 else p.tcpSeq) &&
      r.syscallTraceIdThread0 == (if request then p.threadId else 0) &&
      r.syscallTraceIdThread1 == (if request then 0 else p.threadId) &&
      r.syscallCapSeq0 == (if request then p.capSeq else 0) && r.syscallCapSeq1 == (if request then 0 else p.capSeq)
  {
    var request := EbpfDirection(p, isLocalService) == ClientToServer;
    var clientLocal := p.l2End0 == request;
    BaseInfo(
      p.timestamp, p.timestamp, p.socketId, p.tapPort, vtapId, Tor, p.dstIp.V6?,
      if clientLocal then ClientProcess else ServerProcess, head,
      if request then p.srcMac else p.dstMac, if request then p.dstMac else p.srcMac,
      if request then p.srcIp else p.dstIp, if request then p.dstIp else p.srcIp,
      if clientLocal then localEpc else remoteEpc, if clientLocal then remoteEpc else localEpc,
      if request then p.srcPort else p.dstPort, if request then p.dstPort else p.srcPort,
      if request then p.tcpSeq else 0, if request then 0 else p.tcpSeq,
      if clientLocal then p.processId else 0, if clientLocal then 0 else p.processId,
      if clientLocal then p.processName else "", if clientLocal then "" else p.processName,
      if request then p.syscallTraceId else 0, if request then 0 else p.syscallTraceId,
      if request then p.threadId else 0, if request then 0 else p.threadId,
      if request then p.capSeq else 0, if request then 0 else p.capSeq,
      p.proto, false, false)
  }

  /**
   * from_ebpf: fills the fields from the event as the capturing end sees
   * them, then, for a response, swaps the two ends and flips the tap side.
   */
  method FromEbpf(p: EbpfPacket, head: AppProtoHead, vtapId: u16, localEpc: i32, remoteEpc: i32,
                  isLocalService: bool) returns (info: BaseInfo)
    ensures info == EbpfBaseInfo(p, head, vtapId, localEpc, remoteEpc, isLocalService)
  {
    var isSrc := p.l2End0;
    var direction := EbpfDirection(p, isLocalService);
    var request := direction == ClientToServer;
    info := BaseInfo(
      p.timestamp, p.timestamp, p.socketId, p.tapPort, vtapId, Tor, p.dstIp.V6?,
      if isSrc then ClientProcess else ServerProcess, head,
      p.srcMac, p.dstMac, p.srcIp, p.dstIp,
      if isSrc then localEpc else remoteEpc, if isSrc then remoteEpc else localEpc,
      p.srcPort, p.dstPort,
      if request then p.tcpSeq else 0, if request then 0 else p.tcpSeq,
      if isSrc then p.processId else 0, if isSrc then 0 else p.processId,
      if isSrc then p.processName else "", if isSrc then "" else p.processName,
      if request then p.syscallTraceId else 0, if request then 0 else p.syscallTraceId,
      if request then p.threadId else 0, if request then 0 else p.threadId,
      if request then p.capSeq else 0, if request then 0 else p.capSeq,
      p.proto, false, false);
    if direction == ServerToClient {
      info := info.(macSrc := info.macDst, macDst := info.macSrc);
      info := info.(ipSrc := info.ipDst, ipDst := info.ipSrc);
      info := info.(l3EpcIdSrc := info.l3EpcIdDst, l3EpcIdDst := info.l3EpcIdSrc);
      info := info.(portSrc := info.portDst, portDst := info.portSrc);
      info := info.(processId0 := info.processId1, processId1 := info.processId0);
      info := info.(processKname0 := info.processKname1, processKname1 := info.processKname0);
      info := info.(tapSide := if info.tapSide == ClientProcess then ServerProcess else ClientProcess);
    }
  }

  /** An eBPF event whose two addresses are of one family yields a log that converts to protobuf. */
  lemma EbpfInfoConverts(p: EbpfPacket, head: AppProtoHead, vtapId: u16, localEpc: i32, remoteEpc: i32,
                         isLocalService: bool, codes: EnumCodes)
    ensures PbBase(EbpfBaseInfo(p, head, vtapId, localEpc, remoteEpc, isLocalService), codes).Some? <==>
      p.srcIp.V4? == p.dstIp.V4?
  {
  }

  /**
   * The base information of a request merged with its response's: per side
   * the process is taken from the response only where it names one, the
   * response-side thread, capture sequence, TCP sequence and trace id are
   * the response's, the end time is the response's but never before the
   * start, and the head becomes a session carrying the response's code,
   * status and rrt.
   */
  function MergedBase(b: BaseInfo, log: BaseInfo): BaseInfo
  {
    var b0 := if log.processId0 > 0 then b.(processId0 := log.processId0, processKname0 := log.processKname0) else b;
    var b1 := if log.processId1 > 0 then b0.(processId1 := log.processId1, processKname1 := log.processKname1) else b0;
    b1.(syscallTraceIdThread1 := log.syscallTraceIdThread1, syscallCapSeq1 := log.syscallCapSeq1,
        endTime := if log.endTime >= b.startTime then log.endTime else b.startTime,
        respTcpSeq := log.respTcpSeq, syscallTraceIdResponse := log.syscallTraceIdResponse,
        head := b.head.(msgType := Session, code := log.head.code, status := log.head.status, rrt := log.head.rrt))
  }

  /**
   * After a merge the log is a session that ends no earlier than it starts
   * and keeps every request-side field, and merging the same response again
   * changes nothing.
   */
  lemma MergeIsSession(b: BaseInfo, log: BaseInfo)
    ensures var m := MergedBase(b, log);
      m.head.msgType == Session && m.endTime >= m.startTime && m.startTime == b.startTime &&
      m.reqTcpSeq == b.reqTcpSeq && m.syscallTraceIdRequest == b.syscallTraceIdRequest &&
      m.syscallTraceIdThread0 == b.syscallTraceIdThread0 && m.syscallCapSeq0 == b.syscallCapSeq0 &&
      m.flowId == b.flowId && m.head.proto == b.head.proto &&
      (log.processId0 == 0 ==> m.processId0 == b.processId0 && m.processKname0 == b.processKname0) &&
      (log.processId0 > 0 ==> m.processId0 == log.processId0 && m.processKname0 == log.processKname0) &&
      (log.processId1 == 0 ==> m.processId1 == b.processId1 && m.processKname1 == b.processKname1) &&
      (log.processId1 > 0 ==> m.processId1 == log.processId1 && m.processKname1 == log.processKname1) &&
      MergedBase(m, log) == m
  {
  }

  /** The protocol-specific part of a log, with the fields that identify a session. */
  datatype AppProtoLogsInfo =
    | DnsInfo(transId: u16)
    | MysqlInfo
    | RedisInfo
    | KafkaInfo(correlationId: u32)
    | MqttInfo
    | DubboInfo(serialId: i64)
    | HttpV1Info(streamId: u32)
    | HttpV2Info(streamId: u32)
    | HttpV1TLSInfo(streamId: u32)

  /** The session id a protocol carries: DNS, Kafka, Dubbo and HTTP/2 when it is positive. */
  function SessionId(i: AppProtoLogsInfo): (r: Option<u32>)
    ensures r.Some? <==>
      (i.DnsInfo? && i.transId > 0) || (i.KafkaInfo? && i.correlationId > 0) ||
      (i.DubboInfo? && i.serialId > 0) || (i.HttpV2Info? && i.streamId > 0)
    ensures r.Some? && i.DubboInfo? ==> r.value == i.serialId % U32_MODULUS
    ensures r.Some? && i.DnsInfo? ==> r.value == i.transId
    ensures r.Some? && i.KafkaInfo? ==> r.value == i.correlationId
    ensures r.Some? && i.HttpV2Info? ==> r.value == i.streamId
    ensures r.Some? && !i.DubboInfo? ==> r.value > 0
  {
    match i
    case DnsInfo(t) => if t > 0 then Some(t) else None
    case KafkaInfo(c) => if c > 0 then Some(c) else None
    case DubboInfo(s) => if s > 0 then Some(s % U32_MODULUS) else None
    case HttpV2Info(s) => if s > 0 then Some(s) else None
    case _ => None
  }

  /** Whether two logs are of the same protocol. */
  predicate SameProtocol(a: AppProtoLogsInfo, b: AppProtoLogsInfo)
  {
    (a.DnsInfo? && b.DnsInfo?) || (a.MysqlInfo? && b.MysqlInfo?) || (a.RedisInfo? && b.RedisInfo?) ||
    (a.KafkaInfo? && b.KafkaInfo?) || (a.MqttInfo? && b.MqttInfo?) || (a.DubboInfo? && b.DubboInfo?) ||
    (a.HttpV1Info? && b.HttpV1Info?) || (a.HttpV2Info? && b.HttpV2Info?) || (a.HttpV1TLSInfo? && b.HttpV1TLSInfo?)
  }

  /**
   * AppProtoLogsInfo::merge, the per-protocol merge given as `inner`: None
   * where the source reaches unreachable!(), which is exactly when the two
   * logs are of different protocols.
   */
  function MergedInfo(a: AppProtoLogsInfo, b: AppProtoLogsInfo,
                      inner: (AppProtoLogsInfo, AppProtoLogsInfo) -> AppProtoLogsInfo): (r: Option<AppProtoLogsInfo>)
    ensures r.None? <==> !SameProtocol(a, b)
    ensures r.Some? ==> r.value == inner(a, b)
  {
    match (a, b)
    case (DnsInfo(_), DnsInfo(_)) => Some(inner(a, b))
    case (MysqlInfo, MysqlInfo) => Some(inner(a, b))
    case (RedisInfo, RedisInfo) => Some(inner(a, b))
    case (KafkaInfo(_), KafkaInfo(_)) => Some(inner(a, b))
    case (MqttInfo, MqttInfo) => Some(inner(a, b))
    case (DubboInfo(_), DubboInfo(_)) => Some(inner(a, b))
    case (HttpV1Info(_), HttpV1Info(_)) => Some(inner(a, b))
    case (HttpV2Info(_), HttpV2Info(_)) => Some(inner(a, b))
    case (HttpV1TLSInfo(_), HttpV1TLSInfo(_)) => Some(inner(a, b))
    case _ => None
  }

  /**
   * The flow-session id bits: the flow id's top 8 bits (the CPU) stay in
   * bits 56-63, its low 24 bits move to bits 32-55, the protocol fills bits
   * 24-31 and the low 24 bits of `low` fill bits 0-23; each field reads back.
   */
  function PackSessionId(flowId: bv64, proto: bv64, low: bv64): (r: bv64)
    requires proto < 0x100
    ensures r >> 56 == flowId >> 56
    ensures (r >> 32) & 0xff_ffff == flowId & 0xff_ffff
    ensures (r >> 24) & 0xff == proto
    ensures r & 0xff_ffff == low & 0xff_ffff
  {
    ((flowId >> 56) << 56) | ((flowId << 40) >> 8) | (proto << 24) | (low & 0xff_ffff)
  }

  /**
   * The sequence number a log without a session id is grouped by: the larger
   * capture sequence, plus one for a request so that it meets its response.
   */
  function CapSeq(b: BaseInfo): u64
  {
    var m := if b.syscallCapSeq0 >= b.syscallCapSeq1 then b.syscallCapSeq0 else b.syscallCapSeq1;
    if b.head.msgType == Request then AddU64(m, 1) else m
  }

  /** The L7 protocol's code, in bits 0-7. */
  function ProtoBits(base: BaseInfo): (r: bv64)
    ensures r < 0x100
  {
    base.head.proto.Code() as bv64
  }

  /** The number whose low 24 bits end the flow-session id: the session id if any, else the capture sequence. */
  function SessionLow(base: BaseInfo, special: AppProtoLogsInfo): bv64
  {
    Bits64(if SessionId(special).Some? then SessionId(special).value else CapSeq(base))
  }

  /** A u64 as its bits. */
  function Bits64(n: u64): bv64
  {
    n as bv64
  }

  /**
   * ebpf_flow_session_id: the flow's CPU and socket increment, the L7
   * protocol, and the session id when the protocol carries one, the capture
   * sequence otherwise, laid out as PackSessionId states.
   */
  function EbpfFlowSessionId(base: BaseInfo, special: AppProtoLogsInfo): bv64
  {
    PackSessionId(Bits64(base.flowId), ProtoBits(base), SessionLow(base, special))
  }

  /**
   * A request and its response with one session id, flow and protocol get
   * the same flow-session id; so do a request and a response without one
   * whose capture sequences are one apart.
   */
  lemma RequestMeetsResponse(req: BaseInfo, resp: BaseInfo, ri: AppProtoLogsInfo, si: AppProtoLogsInfo)
    requires req.flowId == resp.flowId && req.head.proto == resp.head.proto
    requires SessionId(ri) == SessionId(si)
    requires SessionId(ri).None? ==>
      req.head.msgType == Request && resp.head.msgType == Response &&
      req.syscallCapSeq1 == 0 && resp.syscallCapSeq0 == 0 &&
      req.syscallCapSeq0 + 1 == resp.syscallCapSeq1
    ensures EbpfFlowSessionId(req, ri) == EbpfFlowSessionId(resp, si)
  {
    SameSessionLow(req, resp, ri, si);
  }

  lemma SameSessionLow(req: BaseInfo, resp: BaseInfo, ri: AppProtoLogsInfo, si: AppProtoLogsInfo)
    requires SessionId(ri) == SessionId(si)
    requires SessionId(ri).None? ==>
      req.head.msgType == Request && resp.head.msgType == Response &&
      req.syscallCapSeq1 == 0 && resp.syscallCapSeq0 == 0 &&
      req.syscallCapSeq0 + 1 == resp.syscallCapSeq1
    ensures SessionLow(req, ri) == SessionLow(resp, si)
  {
    if SessionId(ri).None? {
      assert CapSeq(req) == CapSeq(resp);
    }
  }

  /** AppProtoLogsData: a log's base information and its protocol part. */
  class AppProtoLogsData {
    var baseInfo: BaseInfo
    var specialInfo: AppProtoLogsInfo

    constructor (baseInfo: BaseInfo, specialInfo: AppProtoLogsInfo)
      ensures this.baseInfo == baseInfo && this.specialInfo == specialInfo
    {
      this.baseInfo := baseInfo;
      this.specialInfo := specialInfo;
    }

    /**
     * session_merge: merges a response log into this request log. Logs of
     * different protocols are never merged (the source panics).
     */
    method SessionMerge(logBase: BaseInfo, logInfo: AppProtoLogsInfo,
                        inner: (AppProtoLogsInfo, AppProtoLogsInfo) -> AppProtoLogsInfo)
      requires SameProtocol(specialInfo, logInfo)
      modifies this
      ensures baseInfo == MergedBase(old(baseInfo), logBase)
      ensures Some(specialInfo) == MergedInfo(old(specialInfo), logInfo, inner)
    {
      baseInfo := MergeBase(baseInfo, logBase);
      specialInfo := inner(specialInfo, logInfo);
    }
  }

  /** AppProtoLogsBaseInfo::merge, on the request log `self` and its response `log`. */
  method MergeBase(self: BaseInfo, log: BaseInfo) returns (merged: BaseInfo)
    ensures merged == MergedBase(self, log)
  {
    var b := self;
    if log.processId0 > 0 {
      b := b.(processId0 := log.processId0, processKname0 := log.processKname0);
    }
    if log.processId1 > 0 {
      b := b.(processId1 := log.processId1, processKname1 := log.processKname1);
    }
    b := b.(syscallTraceIdThread1 := log.syscallTraceIdThread1, syscallCapSeq1 := log.syscallCapSeq1,
            endTime := if log.endTime >= b.startTime then log.endTime else b.startTime,
            respTcpSeq := log.respTcpSeq, syscallTraceIdResponse := log.syscallTraceIdResponse);
    var head := b.head.(msgType := Session);
    head := head.(code := log.head.code, status := log.head.status, rrt := log.head.rrt);
    merged := b.(head := head);
  }
}
