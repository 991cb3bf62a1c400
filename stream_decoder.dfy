/**
 * The stream decoder of the ingester: it drains batches from its input
 * queue, decodes tagged flows, L7 protocol logs or OpenTelemetry traces
 * according to its message type, offers each record to the throttler and
 * keeps per-category counters that the statistics collector swaps out.
 *
 * The protobuf decoding of a receive buffer is an input: a `Codec` maps the
 * buffer's bytes to the records it decodes to, in order, where a decoding
 * failure ends the stream. The throttler's sampling is an oracle `admit`
 * that says whether the n-th message offered to it is accepted.
 */
module StreamDecoder {
  import opened Wrappers
  import opened FixedWidth

  /* L7 protocol codes (upstream values of the datatype package) */
  const L7_PROTOCOL_HTTP_1: nat := 20
  const L7_PROTOCOL_HTTP_2: nat := 21
  const L7_PROTOCOL_DUBBO: nat := 40
  const L7_PROTOCOL_MYSQL: nat := 60
  const L7_PROTOCOL_REDIS: nat := 80
  const L7_PROTOCOL_KAFKA: nat := 100
  const L7_PROTOCOL_MQTT: nat := 101
  const L7_PROTOCOL_DNS: nat := 120
  const L7_PROTO_MAX: nat := L7_PROTOCOL_DNS + 1

  /** The protocols that have a flow-log switch of their own. */
  const SWITCHED_PROTOCOLS: set<nat> := {L7_PROTOCOL_HTTP_1, L7_PROTOCOL_HTTP_2, L7_PROTOCOL_DNS,
    L7_PROTOCOL_MYSQL, L7_PROTOCOL_REDIS, L7_PROTOCOL_DUBBO, L7_PROTOCOL_KAFKA, L7_PROTOCOL_MQTT}

  /** The flow-log switches of the ingester configuration. */
  datatype FlowLogDisabled = FlowLogDisabled(
    l4: bool, l7: bool, http: bool, dns: bool, mysql: bool, redis: bool, dubbo: bool, kafka: bool, mqtt: bool)

  /** The per-protocol table of disabled L7 protocols, one entry per code below L7_PROTO_MAX. */
  type Disables = s: seq<bool> | |s| == L7_PROTO_MAX witness seq(L7_PROTO_MAX, _ => false)

  function DisableFlag(flags: FlowLogDisabled, proto: int): bool
  {
    if proto == L7_PROTOCOL_HTTP_1 || proto == L7_PROTOCOL_HTTP_2 then flags.http
    else if proto == L7_PROTOCOL_DNS then flags.dns
    else if proto == L7_PROTOCOL_MYSQL then flags.mysql
    else if proto == L7_PROTOCOL_REDIS then flags.redis
    else if proto == L7_PROTOCOL_DUBBO then flags.dubbo
    else if proto == L7_PROTOCOL_KAFKA then flags.kafka
    else if proto == L7_PROTOCOL_MQTT then flags.mqtt
    else false
  }

  /**
   * getL7Disables: the single Http switch disables both HTTP/1 and HTTP/2,
   * every other switch its own protocol, and protocols without a switch
   * stay enabled.
   */
  function L7Disables(flags: FlowLogDisabled): (r: Disables)
    ensures r[L7_PROTOCOL_HTTP_1] == flags.http && r[L7_PROTOCOL_HTTP_2] == flags.http
    ensures r[L7_PROTOCOL_DNS] == flags.dns && r[L7_PROTOCOL_MYSQL] == flags.mysql
    ensures r[L7_PROTOCOL_REDIS] == flags.redis && r[L7_PROTOCOL_DUBBO] == flags.dubbo
    ensures r[L7_PROTOCOL_KAFKA] == flags.kafka && r[L7_PROTOCOL_MQTT] == flags.mqtt
    ensures forall p :: 0 <= p < L7_PROTO_MAX && p !in SWITCHED_PROTOCOLS ==> !r[p]
  {
    seq(L7_PROTO_MAX, p => DisableFlag(flags, p))
  }

  /** The statistics category a protocol's records are counted under. */
  datatype Category = Http | Dns | Sql | NoSql | Rpc | Mq

  function CategoryOf(proto: nat): Option<Category>
  {
    if proto == L7_PROTOCOL_HTTP_1 || proto == L7_PROTOCOL_HTTP_2 then Some(Http)
    else if proto == L7_PROTOCOL_DNS then Some(Dns)
    else if proto == L7_PROTOCOL_MYSQL then Some(Sql)
    else if proto == L7_PROTOCOL_REDIS then Some(NoSql)
    else if proto == L7_PROTOCOL_DUBBO then Some(Rpc)
    else if proto == L7_PROTOCOL_KAFKA || proto == L7_PROTOCOL_MQTT then Some(Mq)
    else None
  }

  /** HTTP/1 and HTTP/2 share the HTTP counters, Kafka and MQTT the MQ counters; other protocols have none. */
  lemma CategoriesShared(proto: nat)
    ensures CategoryOf(proto) == Some(Http) <==> proto == L7_PROTOCOL_HTTP_1 || proto == L7_PROTOCOL_HTTP_2
    ensures CategoryOf(proto) == Some(Mq) <==> proto == L7_PROTOCOL_KAFKA || proto == L7_PROTOCOL_MQTT
    ensures CategoryOf(proto) == Some(Dns) <==> proto == L7_PROTOCOL_DNS
    ensures CategoryOf(proto) == Some(Sql) <==> proto == L7_PROTOCOL_MYSQL
    ensures CategoryOf(proto) == Some(NoSql) <==> proto == L7_PROTOCOL_REDIS
    ensures CategoryOf(proto) == Some(Rpc) <==> proto == L7_PROTOCOL_DUBBO
    ensures CategoryOf(proto).None? <==> proto !in SWITCHED_PROTOCOLS
  {
  }

  /** The decoder's statistics counters. */
  datatype Counter = Counter(
    rawCount: nat, l4Count: nat, l4DropCount: nat, l7Count: nat, l7DropCount: nat,
    l7HTTPCount: nat, l7HTTPDropCount: nat, l7DNSCount: nat, l7DNSDropCount: nat,
    l7SQLCount: nat, l7SQLDropCount: nat, l7NoSQLCount: nat, l7NoSQLDropCount: nat,
    l7RPCCount: nat, l7RPCDropCount: nat, l7MQCount: nat, l7MQDropCount: nat,
    oTelCount: nat, oTelDropCount: nat, errorCount: nat)

  const ZERO_COUNTER := Counter(0, 0, 0, 0, 0, 0, 0, 0, 0, 0, 0, 0, 0, 0, 0, 0, 0, 0, 0, 0)

  function CategoryCount(c: Counter, cat: Category): nat
  {
    match cat
    case Http => c.l7HTTPCount
    case Dns => c.l7DNSCount
    case Sql => c.l7SQLCount
    case NoSql => c.l7NoSQLCount
    case Rpc => c.l7RPCCount
    case Mq => c.l7MQCount
  }

  function CategoryDrops(c: Counter, cat: Category): nat
  {
    match cat
    case Http => c.l7HTTPDropCount
    case Dns => c.l7DNSDropCount
    case Sql => c.l7SQLDropCount
    case NoSql => c.l7NoSQLDropCount
    case Rpc => c.l7RPCDropCount
    case Mq => c.l7MQDropCount
  }

  /** Counts one record of category `cat`, dropped when `drop` is 1. */
  function Tally(c: Counter, cat: Category, drop: nat): Counter
  {
    match cat
    case Http => c.(l7HTTPCount := c.l7HTTPCount + 1, l7HTTPDropCount := c.l7HTTPDropCount + drop)
    case Dns => c.(l7DNSCount := c.l7DNSCount + 1, l7DNSDropCount := c.l7DNSDropCount + drop)
    case Sql => c.(l7SQLCount := c.l7SQLCount + 1, l7SQLDropCount := c.l7SQLDropCount + drop)
    case NoSql => c.(l7NoSQLCount := c.l7NoSQLCount + 1, l7NoSQLDropCount := c.l7NoSQLDropCount + drop)
    case Rpc => c.(l7RPCCount := c.l7RPCCount + 1, l7RPCDropCount := c.l7RPCDropCount + drop)
    case Mq => c.(l7MQCount := c.l7MQCount + 1, l7MQDropCount := c.l7MQDropCount + drop)
  }

  /** A decoded tagged flow; its validity check belongs to the protobuf type. */
  datatype TaggedFlow = TaggedFlow(valid: bool, flowID: u64)

  /** A decoded L7 protocol log: its validity and the protocol code of its head. */
  datatype ProtoLog = ProtoLog(valid: bool, proto: u32, sessionID: u32)

  /** Decoded OpenTelemetry traces: the L7 loggers they convert to. */
  datatype Traces = Traces(loggers: seq<nat>)

  /** One step of the stream decoder: a record, or a failure that ends the buffer. */
  datatype Decoded<T> = DecodeFailed | Decoded(value: T)

  /** What the throttler is offered: a flush request, or a converted log. */
  datatype Message = FlushMark | FlowLog(flow: TaggedFlow) | L7Log(log: ProtoLog) | OTelLog(vtapID: u16, logger: nat)

  datatype MessageType = MsgProtocolLog | MsgTaggedFlow | MsgOpenTelemetry | MsgOther

  /** An entry of the input queue: nil, a value of a foreign type, or a receive buffer. */
  datatype Entry = NilEntry | Foreign | Recv(vtapID: u16, bytes: seq<u8>)

  /** The protobuf decoding of a receive buffer, one view per message type. */
  datatype Codec = Codec(
    flows: seq<u8> -> seq<Decoded<TaggedFlow>>,
    protoLogs: seq<u8> -> seq<Decoded<ProtoLog>>,
    traces: seq<u8> -> seq<Decoded<Traces>>)

  /** A decoder's fixed settings, as NewDecoder derives them. */
  datatype Config = Config(msgType: MessageType, l7Disableds: Disables, l7Disabled: bool, l4Disabled: bool)

  function NewConfig(msgType: MessageType, flags: FlowLogDisabled): Config
  {
    Config(msgType, L7Disables(flags), flags.l7, flags.l4)
  }

  /** The observable state: the counters and every message offered to the throttler. */
  datatype State = State(counter: Counter, sent: seq<Message>)

  function CountError(s: State): State
  {
    s.(counter := s.counter.(errorCount := s.counter.errorCount + 1))
  }

  /** sendFlow: counts the flow, offers it to the throttler and counts a refusal as a drop. */
  function SendFlowSpec(admit: nat -> bool, s: State, f: TaggedFlow): State
  {
    var c := s.counter;
    State(c.(l4Count := c.l4Count + 1, l4DropCount := c.l4DropCount + (if admit(|s.sent|) then 0 else 1)),
          s.sent + [FlowLog(f)])
  }

  predicate ProtoDisabled(cfg: Config, p: ProtoLog)
  {
    p.proto < L7_PROTO_MAX && cfg.l7Disableds[p.proto]
  }

  /** sendProto: a disabled protocol is dropped without reaching the throttler. */
  function SendProtoSpec(cfg: Config, admit: nat -> bool, s: State, p: ProtoLog): State
  {
    var disabled := ProtoDisabled(cfg, p);
    var refused := !disabled && !admit(|s.sent|);
    var drop := if disabled || refused then 1 else 0;
    var c := s.counter.(l7Count := s.counter.l7Count + 1,
                        l7DropCount := s.counter.l7DropCount + (if refused then 1 else 0));
    var cat := CategoryOf(p.proto);
    State(if cat.Some? then Tally(c, cat.value, drop) else c,
          if disabled then s.sent else s.sent + [L7Log(p)])
  }

  /** The loggers of one traces message offered in order, each refusal counted as a drop. */
  function SendLoggersSpec(admit: nat -> bool, s: State, vtapID: u16, loggers: seq<nat>): State
    decreases |loggers|
  {
    if loggers == [] then s
    else
      var c := s.counter;
      var next := State(c.(oTelDropCount := c.oTelDropCount + (if admit(|s.sent|) then 0 else 1)),
                        s.sent + [OTelLog(vtapID, loggers[0])]);
      SendLoggersSpec(admit, next, vtapID, loggers[1..])
  }

  function SendTracesSpec(admit: nat -> bool, s: State, vtapID: u16, t: Traces): State
  {
    SendLoggersSpec(admit, s.(counter := s.counter.(oTelCount := s.counter.oTelCount + 1)), vtapID, t.loggers)
  }

  /** handleTaggedFlow: a decode failure is counted and ends the buffer; an invalid flow is counted and skipped. */
  function TaggedFlows(admit: nat -> bool, s: State, items: seq<Decoded<TaggedFlow>>): State
    decreases |items|
  {
    if items == [] then s
    else match items[0]
      case DecodeFailed => CountError(s)
      case Decoded(f) =>
        TaggedFlows(admit, if f.valid then SendFlowSpec(admit, s, f) else CountError(s), items[1..])
  }

  /** handleProtoLog: a decode failure or an invalid log is counted and ends the buffer. */
  function ProtoLogs(cfg: Config, admit: nat -> bool, s: State, items: seq<Decoded<ProtoLog>>): State
    decreases |items|
  {
    if items == [] then s
    else match items[0]
      case DecodeFailed => CountError(s)
      case Decoded(p) =>
        if !p.valid then CountError(s) else ProtoLogs(cfg, admit, SendProtoSpec(cfg, admit, s, p), items[1..])
  }

  /** handleOpenTelemetry: a decode failure is counted and ends the buffer. */
  function TracesMessages(admit: nat -> bool, s: State, vtapID: u16, items: seq<Decoded<Traces>>): State
    decreases |items|
  {
    if items == [] then s
    else match items[0]
      case DecodeFailed => CountError(s)
      case Decoded(t) => TracesMessages(admit, SendTracesSpec(admit, s, vtapID, t), vtapID, items[1..])
  }

  /** The handler a receive buffer goes to, chosen by message type and the L4/L7 switches. */
  function Dispatch(cfg: Config, codec: Codec, admit: nat -> bool, s: State, vtapID: u16, bytes: seq<u8>): State
  {
    if cfg.msgType == MsgProtocolLog && !cfg.l7Disabled then ProtoLogs(cfg, admit, s, codec.protoLogs(bytes))
    else if cfg.msgType == MsgTaggedFlow && !cfg.l4Disabled then TaggedFlows(admit, s, codec.flows(bytes))
    else if cfg.msgType == MsgOpenTelemetry then TracesMessages(admit, s, vtapID, codec.traces(bytes))
    else s
  }

  /** One batch taken from the input queue: a nil entry flushes the throttler and is not counted. */
  function Batch(cfg: Config, codec: Codec, admit: nat -> bool, s: State, batch: seq<Entry>): State
    decreases |batch|
  {
    if batch == [] then s
    else
      var counted := s.(counter := s.counter.(rawCount := s.counter.rawCount + 1));
      var next := match batch[0]
        case NilEntry => s.(sent := s.sent + [FlushMark])
        case Foreign => counted
        case Recv(vtapID, bytes) => Dispatch(cfg, codec, admit, counted, vtapID, bytes);
      Batch(cfg, codec, admit, next, batch[1..])
  }

  /* ---------------- accounting ---------------- */

  /** The records a buffer decodes to before its first failure. */
  function Decodable<T>(items: seq<Decoded<T>>): seq<T>
  {
    if items == [] || items[0].DecodeFailed? then [] else [items[0].value] + Decodable(items[1..])
  }

  predicate HasFailure<T>(items: seq<Decoded<T>>)
  {
    exists i :: 0 <= i < |items| && items[i].DecodeFailed?
  }

  function ValidFlows(flows: seq<TaggedFlow>): nat
  {
    if flows == [] then 0 else (if flows[0].valid then 1 else 0) + ValidFlows(flows[1..])
  }

  function FlushCount(sent: seq<Message>): nat
  {
    if sent == [] then 0 else FlushCount(sent[..|sent| - 1]) + (if sent[|sent| - 1].FlushMark? then 1 else 0)
  }

  function NilCount(batch: seq<Entry>): nat
  {
    if batch == [] then 0 else (if batch[0].NilEntry? then 1 else 0) + NilCount(batch[1..])
  }

  lemma FlushCountSnoc(sent: seq<Message>, m: Message)
    ensures FlushCount(sent + [m]) == FlushCount(sent) + (if m.FlushMark? then 1 else 0)
  {
    assert (sent + [m])[..|sent|] == sent;
  }

  lemma {:induction false} HasFailureTail<T>(items: seq<Decoded<T>>)
    requires items != [] && items[0].Decoded?
    ensures HasFailure(items) <==> HasFailure(items[1..])
  {
    if HasFailure(items) {
      var i :| 0 <= i < |items| && items[i].DecodeFailed?;
      assert items[1..][i - 1] == items[i];
    }
    if HasFailure(items[1..]) {
      var i :| 0 <= i < |items[1..]| && items[1..][i].DecodeFailed?;
      assert items[i + 1] == items[1..][i];
    }
  }

  /**
   * Tagged-flow accounting: every valid flow before the first failure is
   * counted in L4Count and offered to the throttler, at most that many are
   * dropped, every invalid flow and the failure (if any) add one error, and
   * nothing else changes.
   */
  lemma {:induction false} TaggedFlowsAccounting(admit: nat -> bool, s: State, items: seq<Decoded<TaggedFlow>>)
    ensures var r := TaggedFlows(admit, s, items);
      var flows := Decodable(items);
      r.counter.l4Count == s.counter.l4Count + ValidFlows(flows) &&
      s.counter.l4DropCount <= r.counter.l4DropCount <= s.counter.l4DropCount + ValidFlows(flows) &&
      r.counter.errorCount == s.counter.errorCount + (|flows| - ValidFlows(flows)) + (if HasFailure(items) then 1 else 0) &&
      r.counter.(l4Count := s.counter.l4Count, l4DropCount := s.counter.l4DropCount, errorCount := s.counter.errorCount) == s.counter &&
      |r.sent| == |s.sent| + ValidFlows(flows) && r.sent[..|s.sent|] == s.sent &&
      FlushCount(r.sent) == FlushCount(s.sent)
    decreases |items|
  {
    if items == [] {
      assert s.sent[..|s.sent|] == s.sent;
    } else if items[0].DecodeFailed? {
      assert HasFailure(items) by { assert items[0].DecodeFailed?; }
      assert s.sent[..|s.sent|] == s.sent;
    } else {
      var f := items[0].value;
      HasFailureTail(items);
      var next := if f.valid then SendFlowSpec(admit, s, f) else CountError(s);
      TaggedFlowsAccounting(admit, next, items[1..]);
      assert Decodable(items) == [f] + Decodable(items[1..]);
      assert ValidFlows([f] + Decodable(items[1..])) == (if f.valid then 1 else 0) + ValidFlows(Decodable(items[1..])) by {
        assert ([f] + Decodable(items[1..]))[1..] == Decodable(items[1..]);
      }
      if f.valid {
        FlushCountSnoc(s.sent, FlowLog(f));
        var r := TaggedFlows(admit, next, items[1..]);
        assert r.sent[..|s.sent|] == r.sent[..|next.sent|][..|s.sent|];
      }
    }
  }

  /**
   * Protocol-log accounting: the valid logs before the first failure or
   * invalid log are each counted in L7Count, the buffer adds at most one
   * error (exactly when it holds a failure or an invalid log), and the
   * throttler is offered at most one message per counted log.
   */
  lemma {:induction false} ProtoLogsAccounting(cfg: Config, admit: nat -> bool, s: State, items: seq<Decoded<ProtoLog>>)
    ensures var r := ProtoLogs(cfg, admit, s, items);
      var n := LeadingValidLogs(items);
      r.counter.l7Count == s.counter.l7Count + n &&
      r.counter.errorCount == s.counter.errorCount + (if n < |items| then 1 else 0) &&
      r.counter.rawCount == s.counter.rawCount && r.counter.l4Count == s.counter.l4Count &&
      |s.sent| <= |r.sent| <= |s.sent| + n && r.sent[..|s.sent|] == s.sent &&
      FlushCount(r.sent) == FlushCount(s.sent)
    decreases |items|
  {
    if items == [] || items[0].DecodeFailed? || !items[0].value.valid {
      assert s.sent[..|s.sent|] == s.sent;
    } else {
      var p := items[0].value;
      var next := SendProtoSpec(cfg, admit, s, p);
      ProtoLogsAccounting(cfg, admit, next, items[1..]);
      SendProtoCounts(cfg, admit, s, p);
      if !ProtoDisabled(cfg, p) {
        FlushCountSnoc(s.sent, L7Log(p));
        var r := ProtoLogs(cfg, admit, next, items[1..]);
        assert r.sent[..|s.sent|] == r.sent[..|next.sent|][..|s.sent|];
      }
    }
  }

  /** The number of valid logs a buffer yields before the first failure or invalid log. */
  function LeadingValidLogs(items: seq<Decoded<ProtoLog>>): (n: nat)
    ensures n <= |items|
  {
    if items == [] || items[0].DecodeFailed? || !items[0].value.valid then 0 else 1 + LeadingValidLogs(items[1..])
  }

  /** Tallying a category raises that category's count by one and its drops by `drop`, and nothing else. */
  lemma TallyCounts(c: Counter, cat: Category, drop: nat)
    ensures forall k :: CategoryCount(Tally(c, cat, drop), k) == CategoryCount(c, k) + (if k == cat then 1 else 0)
    ensures forall k :: CategoryDrops(Tally(c, cat, drop), k) == CategoryDrops(c, k) + (if k == cat then drop else 0)
    ensures var t := Tally(c, cat, drop);
      t.rawCount == c.rawCount && t.l4Count == c.l4Count && t.l7Count == c.l7Count &&
      t.l7DropCount == c.l7DropCount && t.errorCount == c.errorCount
  {
    forall k
      ensures CategoryCount(Tally(c, cat, drop), k) == CategoryCount(c, k) + (if k == cat then 1 else 0)
      ensures CategoryDrops(Tally(c, cat, drop), k) == CategoryDrops(c, k) + (if k == cat then drop else 0)
    {
    }
  }

  /**
   * sendProto accounting: L7Count rises by one; a disabled protocol is
   * dropped and the throttler is not asked, otherwise the log is offered
   * and a refusal is counted in L7DropCount.
   */
  lemma SendProtoCounts(cfg: Config, admit: nat -> bool, s: State, p: ProtoLog)
    ensures var r := SendProtoSpec(cfg, admit, s, p);
      r.counter.l7Count == s.counter.l7Count + 1 &&
      (ProtoDisabled(cfg, p) ==> r.sent == s.sent && r.counter.l7DropCount == s.counter.l7DropCount) &&
      (!ProtoDisabled(cfg, p) ==> (r.sent == s.sent + [L7Log(p)] &&
        (r.counter.l7DropCount == s.counter.l7DropCount + 1 <==> !admit(|s.sent|)))) &&
      r.counter.rawCount == s.counter.rawCount && r.counter.l4Count == s.counter.l4Count &&
      r.counter.errorCount == s.counter.errorCount
  {
    var cat := CategoryOf(p.proto);
    if cat.Some? {
      var c := s.counter.(l7Count := s.counter.l7Count + 1,
                          l7DropCount := s.counter.l7DropCount + (if !ProtoDisabled(cfg, p) && !admit(|s.sent|) then 1 else 0));
      TallyCounts(c, cat.value, if ProtoDisabled(cfg, p) || !admit(|s.sent|) then 1 else 0);
    }
  }

  /** Counting the L7 totals leaves every category's counters as they were. */
  lemma TotalsKeepCategories(c: Counter, d: Counter, cat: Category)
    requires d == c.(l7Count := d.l7Count, l7DropCount := d.l7DropCount)
    ensures CategoryCount(d, cat) == CategoryCount(c, cat) && CategoryDrops(d, cat) == CategoryDrops(c, cat)
  {
    match cat {
      case Http =>
      case Dns =>
      case Sql =>
      case NoSql =>
      case Rpc =>
      case Mq =>
    }
  }

  /** sendProto per-category count: the protocol's category count rises by one; the others keep theirs. */
  lemma SendProtoCategoryCount(cfg: Config, admit: nat -> bool, s: State, p: ProtoLog, cat: Category)
    ensures CategoryCount(SendProtoSpec(cfg, admit, s, p).counter, cat) ==
      CategoryCount(s.counter, cat) + (if CategoryOf(p.proto) == Some(cat) then 1 else 0)
  {
    var c := s.counter.(l7Count := s.counter.l7Count + 1,
                        l7DropCount := s.counter.l7DropCount + (if !ProtoDisabled(cfg, p) && !admit(|s.sent|) then 1 else 0));
    TotalsKeepCategories(s.counter, c, cat);
    var v := CategoryOf(p.proto);
    if v.Some? {
      TallyCounts(c, v.value, if ProtoDisabled(cfg, p) || !admit(|s.sent|) then 1 else 0);
    }
  }

  /**
   * sendProto per-category drops: the protocol's category drop count rises
   * by one exactly when the log was dropped (disabled or refused); the
   * others keep theirs.
   */
  lemma SendProtoCategoryDrops(cfg: Config, admit: nat -> bool, s: State, p: ProtoLog, cat: Category)
    ensures CategoryDrops(SendProtoSpec(cfg, admit, s, p).counter, cat) ==
      CategoryDrops(s.counter, cat) +
      (if CategoryOf(p.proto) == Some(cat) && (ProtoDisabled(cfg, p) || !admit(|s.sent|)) then 1 else 0)
  {
    var c := s.counter.(l7Count := s.counter.l7Count + 1,
                        l7DropCount := s.counter.l7DropCount + (if !ProtoDisabled(cfg, p) && !admit(|s.sent|) then 1 else 0));
    TotalsKeepCategories(s.counter, c, cat);
    var v := CategoryOf(p.proto);
    if v.Some? {
      TallyCounts(c, v.value, if ProtoDisabled(cfg, p) || !admit(|s.sent|) then 1 else 0);
    }
  }

  /**
   * OpenTelemetry accounting: every traces message before the first
   * failure is counted in OTelCount, a failure adds one error, and the
   * L4/L7 counters are untouched.
   */
  lemma {:induction false} TracesAccounting(admit: nat -> bool, s: State, vtapID: u16, items: seq<Decoded<Traces>>)
    ensures var r := TracesMessages(admit, s, vtapID, items);
      r.counter.oTelCount == s.counter.oTelCount + |Decodable(items)| &&
      r.counter.errorCount == s.counter.errorCount + (if HasFailure(items) then 1 else 0) &&
      r.counter.(oTelCount := s.counter.oTelCount, oTelDropCount := s.counter.oTelDropCount,
                 errorCount := s.counter.errorCount) == s.counter &&
      |s.sent| <= |r.sent| && r.sent[..|s.sent|] == s.sent && FlushCount(r.sent) == FlushCount(s.sent)
    decreases |items|
  {
    if items == [] {
      assert s.sent[..|s.sent|] == s.sent;
    } else if items[0].DecodeFailed? {
      assert HasFailure(items) by { assert items[0].DecodeFailed?; }
      assert s.sent[..|s.sent|] == s.sent;
    } else {
      var t := items[0].value;
      HasFailureTail(items);
      var c := s.counter;
      var s1 := s.(counter := c.(oTelCount := c.oTelCount + 1));
      var next := SendTracesSpec(admit, s, vtapID, t);
      assert next == SendLoggersSpec(admit, s1, vtapID, t.loggers);
      LoggersAccounting(admit, s1, vtapID, t.loggers);
      TracesAccounting(admit, next, vtapID, items[1..]);
      var r := TracesMessages(admit, next, vtapID, items[1..]);
      assert TracesMessages(admit, s, vtapID, items) == r;
      assert Decodable(items) == [t] + Decodable(items[1..]);
      assert next.counter.oTelCount == c.oTelCount + 1 && next.counter.errorCount == c.errorCount;
      assert r.sent[..|s.sent|] == r.sent[..|next.sent|][..|s.sent|];
    }
  }

  /** Offering loggers only appends their messages and drop counts; at most one drop per logger. */
  lemma {:induction false} LoggersAccounting(admit: nat -> bool, s: State, vtapID: u16, loggers: seq<nat>)
    ensures var r := SendLoggersSpec(admit, s, vtapID, loggers);
      r.counter.(oTelDropCount := s.counter.oTelDropCount) == s.counter &&
      s.counter.oTelDropCount <= r.counter.oTelDropCount <= s.counter.oTelDropCount + |loggers| &&
      |r.sent| == |s.sent| + |loggers| && r.sent[..|s.sent|] == s.sent && FlushCount(r.sent) == FlushCount(s.sent)
    decreases |loggers|
  {
    if loggers == [] {
      assert s.sent[..|s.sent|] == s.sent;
    } else {
      var c := s.counter;
      var m := OTelLog(vtapID, loggers[0]);
      var next := State(c.(oTelDropCount := c.oTelDropCount + (if admit(|s.sent|) then 0 else 1)), s.sent + [m]);
      LoggersAccounting(admit, next, vtapID, loggers[1..]);
      FlushCountSnoc(s.sent, m);
      var r := SendLoggersSpec(admit, next, vtapID, loggers[1..]);
      assert r.sent[..|s.sent|] == r.sent[..|next.sent|][..|s.sent|];
    }
  }

  lemma DispatchKeepsRawAndFlushes(cfg: Config, codec: Codec, admit: nat -> bool, s: State, vtapID: u16, bytes: seq<u8>)
    ensures var r := Dispatch(cfg, codec, admit, s, vtapID, bytes);
      r.counter.rawCount == s.counter.rawCount && FlushCount(r.sent) == FlushCount(s.sent)
  {
    if cfg.msgType == MsgProtocolLog && !cfg.l7Disabled {
      ProtoLogsAccounting(cfg, admit, s, codec.protoLogs(bytes));
    } else if cfg.msgType == MsgTaggedFlow && !cfg.l4Disabled {
      TaggedFlowsAccounting(admit, s, codec.flows(bytes));
    } else if cfg.msgType == MsgOpenTelemetry {
      TracesAccounting(admit, s, vtapID, codec.traces(bytes));
    }
  }

  /**
   * Batch accounting: RawCount counts exactly the non-nil entries of a
   * batch, and the throttler receives exactly one flush per nil entry.
   */
  lemma {:induction false} BatchAccounting(cfg: Config, codec: Codec, admit: nat -> bool, s: State, batch: seq<Entry>)
    ensures var r := Batch(cfg, codec, admit, s, batch);
      r.counter.rawCount == s.counter.rawCount + |batch| - NilCount(batch) &&
      FlushCount(r.sent) == FlushCount(s.sent) + NilCount(batch)
    decreases |batch|
  {
    if batch != [] {
      var counted := s.(counter := s.counter.(rawCount := s.counter.rawCount + 1));
      var next := match batch[0]
        case NilEntry => s.(sent := s.sent + [FlushMark])
        case Foreign => counted
        case Recv(vtapID, bytes) => Dispatch(cfg, codec, admit, counted, vtapID, bytes);
      match batch[0] {
        case NilEntry => FlushCountSnoc(s.sent, FlushMark);
        case Foreign =>
        case Recv(vtapID, bytes) => DispatchKeepsRawAndFlushes(cfg, codec, admit, counted, vtapID, bytes);
      }
      BatchAccounting(cfg, codec, admit, next, batch[1..]);
    }
  }

  /** The throttling queue: an oracle decides whether the n-th message offered is accepted. */
  class Throttler {
    const admit: nat -> bool
    var sent: seq<Message>

    constructor (admit: nat -> bool)
      ensures this.admit == admit && sent == []
    {
      this.admit := admit;
      sent := [];
    }

    method Send(m: Message) returns (ok: bool)
      modifies this
      ensures sent == old(sent) + [m] && ok == admit(|old(sent)|)
    {
      ok := admit(|sent|);
      sent := sent + [m];
    }
  }

  class Decoder {
    const cfg: Config
    const codec: Codec
    const throttler: Throttler
    var counter: Counter

    function Value(): State
      reads this, throttler
    {
      State(counter, throttler.sent)
    }

    /** NewDecoder: the L7 table from the flow-log switches, and zeroed counters. */
    constructor (msgType: MessageType, codec: Codec, throttler: Throttler, flags: FlowLogDisabled)
      ensures cfg == NewConfig(msgType, flags) && this.codec == codec && this.throttler == throttler
      ensures counter == ZERO_COUNTER
    {
      cfg := NewConfig(msgType, flags);
      this.codec := codec;
      this.throttler := throttler;
      counter := ZERO_COUNTER;
    }

    /** GetCounter: hands out the counters gathered so far and starts again from zero. */
    method GetCounter() returns (c: Counter)
      modifies this
      ensures c == old(counter) && counter == ZERO_COUNTER
    {
      c, counter := counter, ZERO_COUNTER;
    }

    method Flush()
      modifies throttler
      ensures throttler.sent == old(throttler.sent) + [FlushMark]
    {
      var _ := throttler.Send(FlushMark);
    }

    method SendFlow(f: TaggedFlow)
      modifies this, throttler
      ensures Value() == SendFlowSpec(throttler.admit, old(Value()), f)
    {
      counter := counter.(l4Count := counter.l4Count + 1);
      var ok := throttler.Send(FlowLog(f));
      if !ok {
        counter := counter.(l4DropCount := counter.l4DropCount + 1);
      }
    }

    method SendProto(p: ProtoLog)
      modifies this, throttler
      ensures Value() == SendProtoSpec(cfg, throttler.admit, old(Value()), p)
    {
      counter := counter.(l7Count := counter.l7Count + 1);
      var drop := 0;
      if p.proto < L7_PROTO_MAX && cfg.l7Disableds[p.proto] {
        drop := 1;
      } else {
        var ok := throttler.Send(L7Log(p));
        if !ok {
          counter := counter.(l7DropCount := counter.l7DropCount + 1);
          drop := 1;
        }
      }
      CountCategory(p.proto, drop);
    }

    /** The switch on the protocol code: one more record, and `drop` more drops, in its category. */
    method CountCategory(proto: nat, drop: nat)
      modifies this
      ensures counter == (if CategoryOf(proto).Some? then Tally(old(counter), CategoryOf(proto).value, drop) else old(counter))
    {
      var c := counter;
      if proto == L7_PROTOCOL_HTTP_1 || proto == L7_PROTOCOL_HTTP_2 {
        c := c.(l7HTTPCount := c.l7HTTPCount + 1, l7HTTPDropCount := c.l7HTTPDropCount + drop);
      } else if proto == L7_PROTOCOL_DNS {
        c := c.(l7DNSCount := c.l7DNSCount + 1, l7DNSDropCount := c.l7DNSDropCount + drop);
      } else if proto == L7_PROTOCOL_MYSQL {
        c := c.(l7SQLCount := c.l7SQLCount + 1, l7SQLDropCount := c.l7SQLDropCount + drop);
      } else if proto == L7_PROTOCOL_REDIS {
        c := c.(l7NoSQLCount := c.l7NoSQLCount + 1, l7NoSQLDropCount := c.l7NoSQLDropCount + drop);
      } else if proto == L7_PROTOCOL_DUBBO {
        c := c.(l7RPCCount := c.l7RPCCount + 1, l7RPCDropCount := c.l7RPCDropCount + drop);
      } else if proto == L7_PROTOCOL_KAFKA || proto == L7_PROTOCOL_MQTT {
        c := c.(l7MQCount := c.l7MQCount + 1, l7MQDropCount := c.l7MQDropCount + drop);
      }
      counter := c;
    }

    /** sendOpenMetetry: counts the message and offers each of its loggers. */
    method SendTraces(vtapID: u16, t: Traces)
      modifies this, throttler
      ensures Value() == SendTracesSpec(throttler.admit, old(Value()), vtapID, t)
    {
      counter := counter.(oTelCount := counter.oTelCount + 1);
      var k := 0;
      while k < |t.loggers|
        invariant 0 <= k <= |t.loggers|
        invariant SendLoggersSpec(throttler.admit, Value(), vtapID, t.loggers[k..]) ==
          SendTracesSpec(throttler.admit, old(Value()), vtapID, t)
      {
        assert t.loggers[k..][1..] == t.loggers[k + 1..];
        var ok := throttler.Send(OTelLog(vtapID, t.loggers[k]));
        if !ok {
          counter := counter.(oTelDropCount := counter.oTelDropCount + 1);
        }
        k := k + 1;
      }
    }

    method HandleTaggedFlow(items: seq<Decoded<TaggedFlow>>)
      modifies this, throttler
      ensures Value() == TaggedFlows(throttler.admit, old(Value()), items)
    {
      var k := 0;
      while k < |items|
        invariant 0 <= k <= |items|
        invariant TaggedFlows(throttler.admit, Value(), items[k..]) == TaggedFlows(throttler.admit, old(Value()), items)
      {
        assert items[k..][1..] == items[k + 1..];
        match items[k] {
          case DecodeFailed =>
            counter := counter.(errorCount := counter.errorCount + 1);
            return;
          case Decoded(f) =>
            if !f.valid {
              counter := counter.(errorCount := counter.errorCount + 1);
            } else {
              SendFlow(f);
            }
        }
        k := k + 1;
      }
    }

    method HandleProtoLog(items: seq<Decoded<ProtoLog>>)
      modifies this, throttler
      ensures Value() == ProtoLogs(cfg, throttler.admit, old(Value()), items)
    {
      var k := 0;
      while k < |items|
        invariant 0 <= k <= |items|
        invariant ProtoLogs(cfg, throttler.admit, Value(), items[k..]) == ProtoLogs(cfg, throttler.admit, old(Value()), items)
      {
        assert items[k..][1..] == items[k + 1..];
        if items[k].DecodeFailed? || !items[k].value.valid {
          counter := counter.(errorCount := counter.errorCount + 1);
          return;
        }
        SendProto(items[k].value);
        k := k + 1;
      }
    }

    method HandleOpenTelemetry(vtapID: u16, items: seq<Decoded<Traces>>)
      modifies this, throttler
      ensures Value() == TracesMessages(throttler.admit, old(Value()), vtapID, items)
    {
      var k := 0;
      while k < |items|
        invariant 0 <= k <= |items|
        invariant TracesMessages(throttler.admit, Value(), vtapID, items[k..]) ==
          TracesMessages(throttler.admit, old(Value()), vtapID, items)
      {
        assert items[k..][1..] == items[k + 1..];
        if items[k].DecodeFailed? {
          counter := counter.(errorCount := counter.errorCount + 1);
          return;
        }
        SendTraces(vtapID, items[k].value);
        k := k + 1;
      }
    }

    /** One pass of Run's inner loop over a batch taken from the input queue. */
    method RunBatch(batch: seq<Entry>)
      modifies this, throttler
      ensures Value() == Batch(cfg, codec, throttler.admit, old(Value()), batch)
    {
      var k := 0;
      while k < |batch|
        invariant 0 <= k <= |batch|
        invariant Batch(cfg, codec, throttler.admit, Value(), batch[k..]) ==
          Batch(cfg, codec, throttler.admit, old(Value()), batch)
      {
        assert batch[k..][1..] == batch[k + 1..];
        match batch[k] {
          case NilEntry =>
            Flush();
          case Foreign =>
            counter := counter.(rawCount := counter.rawCount + 1);
          case Recv(vtapID, bytes) =>
            counter := counter.(rawCount := counter.rawCount + 1);
            if cfg.msgType == MsgProtocolLog && !cfg.l7Disabled {
              HandleProtoLog(codec.protoLogs(bytes));
            } else if cfg.msgType == MsgTaggedFlow && !cfg.l4Disabled {
              HandleTaggedFlow(codec.flows(bytes));
            } else if cfg.msgType == MsgOpenTelemetry {
              HandleOpenTelemetry(vtapID, codec.traces(bytes));
            }
        }
        k := k + 1;
      }
    }
  }
}
