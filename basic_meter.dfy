/**
 * The basic flow meters of zerodoc: traffic, latency, performance, anomaly
 * and flow-load counters, as they are reversed, merged, marshalled into the
 * influx-style `key=<n>i,...` line format and written into a ClickHouse
 * block in the column order their Columns functions declare.
 *
 * Counters are Go uint64/uint32: every `+=` wraps. The marshalling buffer is
 * a character array (field names and digits are ASCII, one byte each). A
 * block is the sequence of typed cells written into it.
 */
module BasicMeter {
  import opened Wrappers
  import opened FixedWidth
  import opened Text

  /* ---------------- fixed-width sums ---------------- */

  /** Adding to an already wrapped sum wraps the true sum. */
  lemma WrapAdd(x: nat, y: u64)
    ensures AddU64(x % U64_MODULUS, y) == (x + y) % U64_MODULUS
  {
  }

  /** One more wrapping addition onto a running sum that is already the wrapped partial sum. */
  lemma WrapStep(acc: u64, partial: nat, y: u64)
    requires acc == partial % U64_MODULUS
    ensures AddU64(acc, y) == (partial + y) % U64_MODULUS
  {
    WrapAdd(partial, y);
  }

  /* ---------------- Traffic ---------------- */

  datatype TrafficValue = TrafficValue(
    packetTx: u64, packetRx: u64, byteTx: u64, byteRx: u64,
    l3ByteTx: u64, l3ByteRx: u64, l4ByteTx: u64, l4ByteRx: u64,
    newFlow: u64, closedFlow: u64, l7Request: u32, l7Response: u32)

  const ZeroTraffic := TrafficValue(0, 0, 0, 0, 0, 0, 0, 0, 0, 0, 0, 0)

  /** The same traffic seen from the other end: every Tx/Rx pair swapped. */
  function ReverseTraffic(t: TrafficValue): TrafficValue
  {
    t.(packetTx := t.packetRx, packetRx := t.packetTx, byteTx := t.byteRx, byteRx := t.byteTx,
       l3ByteTx := t.l3ByteRx, l3ByteRx := t.l3ByteTx, l4ByteTx := t.l4ByteRx, l4ByteRx := t.l4ByteTx)
  }

  /** Field-wise wrapping addition. */
  function MergeTraffic(t: TrafficValue, o: TrafficValue): TrafficValue
  {
    TrafficValue(AddU64(t.packetTx, o.packetTx), AddU64(t.packetRx, o.packetRx),
                 AddU64(t.byteTx, o.byteTx), AddU64(t.byteRx, o.byteRx),
                 AddU64(t.l3ByteTx, o.l3ByteTx), AddU64(t.l3ByteRx, o.l3ByteRx),
                 AddU64(t.l4ByteTx, o.l4ByteTx), AddU64(t.l4ByteRx, o.l4ByteRx),
                 AddU64(t.newFlow, o.newFlow), AddU64(t.closedFlow, o.closedFlow),
                 AddU32(t.l7Request, o.l7Request), AddU32(t.l7Response, o.l7Response))
  }

  /** Reversing twice gives back the original; the flow and L7 counts never move. */
  lemma ReverseTrafficInvolution(t: TrafficValue)
    ensures ReverseTraffic(ReverseTraffic(t)) == t
    ensures var r := ReverseTraffic(t);
      r.newFlow == t.newFlow && r.closedFlow == t.closedFlow &&
      r.l7Request == t.l7Request && r.l7Response == t.l7Response
  {
  }

  /** Reversing keeps the packet and byte totals (the `packet` and `byte` columns). */
  lemma ReverseTrafficKeepsTotals(t: TrafficValue)
    ensures AddU64(ReverseTraffic(t).packetTx, ReverseTraffic(t).packetRx) == AddU64(t.packetTx, t.packetRx)
    ensures AddU64(ReverseTraffic(t).byteTx, ReverseTraffic(t).byteRx) == AddU64(t.byteTx, t.byteRx)
  {
  }

  lemma AddU64Comm(a: u64, b: u64)
    ensures AddU64(a, b) == AddU64(b, a)
  {
  }

  lemma AddU64Assoc(a: u64, b: u64, c: u64)
    ensures AddU64(AddU64(a, b), c) == AddU64(a, AddU64(b, c))
  {
  }

  lemma AddU32Assoc(a: u32, b: u32, c: u32)
    ensures AddU32(AddU32(a, b), c) == AddU32(a, AddU32(b, c))
  {
  }

  /** Merging is commutative and associative and has the zero meter as identity, so merge order does not matter. */
  lemma MergeTrafficLaws(a: TrafficValue, b: TrafficValue, c: TrafficValue)
    ensures MergeTraffic(a, b) == MergeTraffic(b, a)
    ensures MergeTraffic(MergeTraffic(a, b), c) == MergeTraffic(a, MergeTraffic(b, c))
    ensures MergeTraffic(a, ZeroTraffic) == a
  {
  }

  /** Reversing a merge is merging the reversed meters. */
  lemma ReverseDistributesOverMerge(a: TrafficValue, b: TrafficValue)
    ensures ReverseTraffic(MergeTraffic(a, b)) == MergeTraffic(ReverseTraffic(a), ReverseTraffic(b))
  {
  }

  /* ---------------- Latency ---------------- */

  datatype LatencyValue = LatencyValue(
    rttMax: u32, rttClientMax: u32, rttServerMax: u32, srtMax: u32, artMax: u32, rrtMax: u32,
    rttSum: u64, rttClientSum: u64, rttServerSum: u64, srtSum: u64, artSum: u64, rrtSum: u64,
    rttCount: u32, rttClientCount: u32, rttServerCount: u32, srtCount: u32, artCount: u32, rrtCount: u32)

  const ZeroLatency := LatencyValue(0, 0, 0, 0, 0, 0, 0, 0, 0, 0, 0, 0, 0, 0, 0, 0, 0, 0)

  /** Maxima take the larger value; sums and counts add with wrap-around. */
  function MergeLatency(l: LatencyValue, o: LatencyValue): LatencyValue
  {
    LatencyValue(MaxU32(l.rttMax, o.rttMax), MaxU32(l.rttClientMax, o.rttClientMax),
                 MaxU32(l.rttServerMax, o.rttServerMax), MaxU32(l.srtMax, o.srtMax),
                 MaxU32(l.artMax, o.artMax), MaxU32(l.rrtMax, o.rrtMax),
                 AddU64(l.rttSum, o.rttSum), AddU64(l.rttClientSum, o.rttClientSum),
                 AddU64(l.rttServerSum, o.rttServerSum), AddU64(l.srtSum, o.srtSum),
                 AddU64(l.artSum, o.artSum), AddU64(l.rrtSum, o.rrtSum),
                 AddU32(l.rttCount, o.rttCount), AddU32(l.rttClientCount, o.rttClientCount),
                 AddU32(l.rttServerCount, o.rttServerCount), AddU32(l.srtCount, o.srtCount),
                 AddU32(l.artCount, o.artCount), AddU32(l.rrtCount, o.rrtCount))
  }

  /** Every merged maximum is the larger of the two inputs' maxima. */
  lemma MergeLatencyMaxima(l: LatencyValue, o: LatencyValue)
    ensures var m := MergeLatency(l, o);
      m.rttMax >= l.rttMax && m.rttMax >= o.rttMax && (m.rttMax == l.rttMax || m.rttMax == o.rttMax) &&
      m.rttClientMax >= l.rttClientMax && m.rttClientMax >= o.rttClientMax &&
      (m.rttClientMax == l.rttClientMax || m.rttClientMax == o.rttClientMax) &&
      m.rttServerMax >= l.rttServerMax && m.rttServerMax >= o.rttServerMax &&
      (m.rttServerMax == l.rttServerMax || m.rttServerMax == o.rttServerMax) &&
      m.srtMax >= l.srtMax && m.srtMax >= o.srtMax && (m.srtMax == l.srtMax || m.srtMax == o.srtMax) &&
      m.artMax >= l.artMax && m.artMax >= o.artMax && (m.artMax == l.artMax || m.artMax == o.artMax) &&
      m.rrtMax >= l.rrtMax && m.rrtMax >= o.rrtMax && (m.rrtMax == l.rrtMax || m.rrtMax == o.rrtMax)
  {
  }

  /** Latency merging is commutative and associative with the zero meter as identity. */
  lemma MergeLatencyLaws(a: LatencyValue, b: LatencyValue, c: LatencyValue)
    ensures MergeLatency(a, b) == MergeLatency(b, a)
    ensures MergeLatency(MergeLatency(a, b), c) == MergeLatency(a, MergeLatency(b, c))
    ensures MergeLatency(a, ZeroLatency) == a
  {
  }

  /* ---------------- Performance ---------------- */

  datatype PerformanceValue = PerformanceValue(retransTx: u64, retransRx: u64, zeroWinTx: u64, zeroWinRx: u64)

  function MergePerformance(a: PerformanceValue, o: PerformanceValue): PerformanceValue
  {
    PerformanceValue(AddU64(a.retransTx, o.retransTx), AddU64(a.retransRx, o.retransRx),
                     AddU64(a.zeroWinTx, o.zeroWinTx), AddU64(a.zeroWinRx, o.zeroWinRx))
  }

  lemma MergePerformanceLaws(a: PerformanceValue, b: PerformanceValue, c: PerformanceValue)
    ensures MergePerformance(a, b) == MergePerformance(b, a)
    ensures MergePerformance(MergePerformance(a, b), c) == MergePerformance(a, MergePerformance(b, c))
    ensures MergePerformance(a, PerformanceValue(0, 0, 0, 0)) == a
  {
  }

  /* ---------------- Anomaly ---------------- */

  datatype AnomalyValue = AnomalyValue(
    clientRstFlow: u64, serverRstFlow: u64, clientSynRepeat: u64, serverSynAckRepeat: u64,
    clientHalfCloseFlow: u64, serverHalfCloseFlow: u64,
    clientSourcePortReuse: u64, clientEstablishReset: u64, serverReset: u64, serverQueueLack: u64,
    serverEstablishReset: u64, tcpTimeout: u64,
    l7ClientError: u32, l7ServerError: u32, l7Timeout: u32)

  const ZeroAnomaly := AnomalyValue(0, 0, 0, 0, 0, 0, 0, 0, 0, 0, 0, 0, 0, 0, 0)

  function MergeAnomaly(a: AnomalyValue, o: AnomalyValue): AnomalyValue
  {
    AnomalyValue(AddU64(a.clientRstFlow, o.clientRstFlow), AddU64(a.serverRstFlow, o.serverRstFlow),
                 AddU64(a.clientSynRepeat, o.clientSynRepeat), AddU64(a.serverSynAckRepeat, o.serverSynAckRepeat),
                 AddU64(a.clientHalfCloseFlow, o.clientHalfCloseFlow),
                 AddU64(a.serverHalfCloseFlow, o.serverHalfCloseFlow),
                 AddU64(a.clientSourcePortReuse, o.clientSourcePortReuse),
                 AddU64(a.clientEstablishReset, o.clientEstablishReset),
                 AddU64(a.serverReset, o.serverReset), AddU64(a.serverQueueLack, o.serverQueueLack),
                 AddU64(a.serverEstablishReset, o.serverEstablishReset), AddU64(a.tcpTimeout, o.tcpTimeout),
                 AddU32(a.l7ClientError, o.l7ClientError), AddU32(a.l7ServerError, o.l7ServerError),
                 AddU32(a.l7Timeout, o.l7Timeout))
  }

  lemma MergeAnomalyLaws(a: AnomalyValue, b: AnomalyValue, c: AnomalyValue)
    ensures MergeAnomaly(a, b) == MergeAnomaly(b, a)
    ensures MergeAnomaly(MergeAnomaly(a, b), c) == MergeAnomaly(a, MergeAnomaly(b, c))
    ensures MergeAnomaly(a, ZeroAnomaly) == a
  {
  }

  /** Failed TCP establishments on the client side: SYN retries, source-port reuse, other resets. */
  function ClientFail(a: AnomalyValue): u64
  {
    AddU64(AddU64(a.clientSynRepeat, a.clientSourcePortReuse), a.clientEstablishReset)
  }

  /** Failed TCP establishments on the server side: SYN-ACK retries, direct resets, queue overflow, other resets. */
  function ServerFail(a: AnomalyValue): u64
  {
    AddU64(AddU64(AddU64(a.serverSynAckRepeat, a.serverReset), a.serverQueueLack), a.serverEstablishReset)
  }

  /* ---------------- marshalKeyValues ---------------- */

  /** The rendering of one non-zero value: field name, decimal digits, `i`. */
  function Entry(field: string, v: u64): string
  {
    field + NatToString(v) + "i"
  }

  /**
   * What marshalKeyValues writes: the entries of the non-zero values in
   * order, a comma before every entry but the first.
   */
  function KeyValues(fields: seq<string>, values: seq<u64>): string
    requires |fields| == |values|
  {
    if fields == [] then ""
    else
      var n := |fields| - 1;
      var prev := KeyValues(fields[..n], values[..n]);
      if values[n] == 0 then prev
      else (if prev == "" then "" else prev + ",") + Entry(fields[n], values[n])
  }

  /** The entries of the non-zero values, in order. */
  function Entries(fields: seq<string>, values: seq<u64>): (r: seq<string>)
    requires |fields| == |values|
    ensures |r| <= |fields|
  {
    if fields == [] then []
    else
      var n := |fields| - 1;
      Entries(fields[..n], values[..n]) + (if values[n] == 0 then [] else [Entry(fields[n], values[n])])
  }

  /** Nothing is written (0 bytes) exactly when every value is zero. */
  lemma {:induction false} KeyValuesEmptyIff(fields: seq<string>, values: seq<u64>)
    requires |fields| == |values|
    ensures KeyValues(fields, values) == "" <==> forall i :: 0 <= i < |values| ==> values[i] == 0
    ensures Entries(fields, values) == [] <==> KeyValues(fields, values) == ""
  {
    if fields != [] {
      var n := |fields| - 1;
      KeyValuesEmptyIff(fields[..n], values[..n]);
      assert forall i :: 0 <= i < n ==> values[..n][i] == values[i];
    }
  }

  /** The written text is the entries joined by single commas (no leading or trailing comma). */
  lemma {:induction false} KeyValuesIsJoin(fields: seq<string>, values: seq<u64>)
    requires |fields| == |values|
    ensures KeyValues(fields, values) == Join(Entries(fields, values), ",")
  {
    if fields != [] {
      var n := |fields| - 1;
      KeyValuesIsJoin(fields[..n], values[..n]);
      KeyValuesEmptyIff(fields[..n], values[..n]);
      var prev := Entries(fields[..n], values[..n]);
      if values[n] != 0 {
        var e := Entry(fields[n], values[n]);
        JoinSnoc(prev, e, ",");
        assert Entries(fields, values) == prev + [e];
        if prev == [] {
          assert KeyValues(fields, values) == e;
        } else {
          assert KeyValues(fields, values) == Join(prev, ",") + "," + e;
        }
      } else {
        assert KeyValues(fields, values) == KeyValues(fields[..n], values[..n]);
        assert Entries(fields, values) == prev + [] == prev;
      }
    }
  }

  /** A non-empty rendering ends with the `i` of its last entry and, when no field name starts with a comma, does not start with one. */
  lemma {:induction false} KeyValuesEnds(fields: seq<string>, values: seq<u64>)
    requires |fields| == |values|
    requires forall i :: 0 <= i < |fields| ==> fields[i] == [] || fields[i][0] != ','
    ensures var r := KeyValues(fields, values); r != "" ==> r[|r| - 1] == 'i' && r[0] != ','
  {
    if fields != [] {
      var n := |fields| - 1;
      var prev := KeyValues(fields[..n], values[..n]);
      KeyValuesEnds(fields[..n], values[..n]);
      if values[n] != 0 && prev == "" {
        var e := Entry(fields[n], values[n]);
        assert e[0] == (if fields[n] == [] then NatToString(values[n])[0] else fields[n][0]);
      }
    }
  }

  /** The rendering of a prefix of the fields is a prefix of the whole rendering. */
  lemma {:induction false} KeyValuesPrefix(fields: seq<string>, values: seq<u64>, i: nat)
    requires |fields| == |values| && i <= |fields|
    ensures var p := KeyValues(fields[..i], values[..i]); var r := KeyValues(fields, values);
      |p| <= |r| && r[..|p|] == p
  {
    if i < |fields| {
      var n := |fields| - 1;
      assert fields[..n][..i] == fields[..i] && values[..n][..i] == values[..i];
      KeyValuesPrefix(fields[..n], values[..n], i);
    } else {
      assert fields[..i] == fields && values[..i] == values;
    }
  }

  /** Writes `s` into `b` at `pos` (Go's `copy` into a large enough slice). */
  method Put(b: array<char>, pos: nat, s: string)
    requires pos + |s| <= b.Length
    modifies b
    ensures b[pos..pos + |s|] == s
    ensures forall k :: 0 <= k < b.Length && !(pos <= k < pos + |s|) ==> b[k] == old(b[k])
  {
    forall k | pos <= k < pos + |s| {
      b[k] := s[k - pos];
    }
  }

  /** One step of marshalKeyValues for a non-zero value: a comma unless it is the first entry, then the entry. */
  method PutEntry(b: array<char>, start: nat, offset: nat, field: string, v: u64) returns (next: nat)
    requires start + offset + (if offset > 0 then 1 else 0) + |Entry(field, v)| <= b.Length
    modifies b
    ensures next == offset + (if offset > 0 then 1 else 0) + |Entry(field, v)|
    ensures b[start..start + next] == old(b[start..start + offset]) + (if offset > 0 then "," else "") + Entry(field, v)
    ensures forall k :: 0 <= k < b.Length && !(start + offset <= k < start + next) ==> b[k] == old(b[k])
  {
    next := offset;
    if next > 0 {
      b[start + next] := ',';
      next := next + 1;
    }
    ghost var head := b[start..start + next];
    assert head == old(b[start..start + offset]) + (if offset > 0 then "," else "");
    var entry := Entry(field, v);
    Put(b, start + next, entry);
    assert b[start..start + next] == head;
    assert b[start..start + next + |entry|] == b[start..start + next] + b[start + next..start + next + |entry|];
    next := next + |entry|;
  }

  /** One iteration of marshalKeyValues: extends the rendering of the first `i` pairs to the first `i + 1`. */
  method MarshalStep(b: array<char>, start: nat, fields: seq<string>, values: seq<u64>, i: nat, offset: nat)
    returns (next: nat)
    requires |fields| == |values| && i < |fields|
    requires start + |KeyValues(fields, values)| <= b.Length
    requires offset == |KeyValues(fields[..i], values[..i])| && start + offset <= b.Length
    requires b[start..start + offset] == KeyValues(fields[..i], values[..i])
    modifies b
    ensures next == |KeyValues(fields[..i + 1], values[..i + 1])| && start + next <= b.Length
    ensures b[start..start + next] == KeyValues(fields[..i + 1], values[..i + 1])
    ensures forall k :: 0 <= k < b.Length && !(start <= k < start + |KeyValues(fields, values)|) ==> b[k] == old(b[k])
  {
    assert fields[..i + 1][..i] == fields[..i] && values[..i + 1][..i] == values[..i];
    KeyValuesPrefix(fields, values, i + 1);
    next := offset;
    var v := values[i];
    if v != 0 {
      next := PutEntry(b, start, offset, fields[i], v);
    }
  }

  /**
   * marshalKeyValues: with fields and values of equal length, writes the
   * key-value rendering at `start` and returns its length; with lengths that
   * differ it fails (Go panics) and writes nothing.
   */
  method MarshalKeyValues(b: array<char>, start: nat, fields: seq<string>, values: seq<u64>) returns (r: Result<nat>)
    requires |fields| == |values| ==> start + |KeyValues(fields, values)| <= b.Length
    modifies b
    ensures |fields| != |values| ==> r.Err? && b[..] == old(b[..])
    ensures |fields| == |values| ==>
      r.Ok? && r.value == |KeyValues(fields, values)| && b[start..start + r.value] == KeyValues(fields, values)
    ensures |fields| == |values| ==>
      forall k :: 0 <= k < b.Length && !(start <= k < start + |KeyValues(fields, values)|) ==> b[k] == old(b[k])
  {
    if |fields| != |values| {
      return Err("fields and values differ in length");
    }
    ghost var full := KeyValues(fields, values);
    var offset := 0;
    var i := 0;
    while i < |fields|
      invariant 0 <= i <= |fields|
      invariant offset == |KeyValues(fields[..i], values[..i])|
      invariant start + offset <= b.Length
      invariant b[start..start + offset] == KeyValues(fields[..i], values[..i])
      invariant forall k :: 0 <= k < b.Length && !(start <= k < start + |full|) ==> b[k] == old(b[k])
    {
      offset := MarshalStep(b, start, fields, values, i, offset);
      i := i + 1;
    }
    assert fields[..i] == fields && values[..i] == values;
    return Ok(offset);
  }

  /* ---------------- MarshalTo ---------------- */

  const TrafficFields: seq<string> := [
    "packet_tx=", "packet_rx=", "byte_tx=", "byte_rx=", "byte=", "l3_byte_tx=", "l3_byte_rx=",
    "l4_byte_tx=", "l4_byte_rx=", "new_flow=", "closed_flow=", "l7_request=", "l7_response="]

  function TrafficFieldValues(t: TrafficValue): (r: seq<u64>)
    ensures |r| == |TrafficFields|
  {
    [t.packetTx, t.packetRx, t.byteTx, t.byteRx, AddU64(t.byteTx, t.byteRx), t.l3ByteTx, t.l3ByteRx,
     t.l4ByteTx, t.l4ByteRx, t.newFlow, t.closedFlow, t.l7Request, t.l7Response]
  }

  /** The always-present head of a traffic line: the packet total. */
  function PacketHead(t: TrafficValue): string
  {
    "packet=" + NatToString(AddU64(t.packetTx, t.packetRx)) + "i"
  }

  /** A head followed by the rendering of the non-zero values, with a comma between them only when that rendering is not empty. */
  function WithHead(head: string, rest: string): string
  {
    head + (if rest == "" then "" else "," + rest)
  }

  /** What Traffic.MarshalTo writes: the packet total, then the non-zero fields after a comma. */
  function TrafficText(t: TrafficValue): string
  {
    WithHead(PacketHead(t), KeyValues(TrafficFields, TrafficFieldValues(t)))
  }

  /**
   * Writes `head` and a comma, then the key-value rendering; when that
   * rendering is empty the comma is dropped from the returned length.
   */
  method MarshalAfterHead(b: array<char>, start: nat, head: string, fields: seq<string>, values: seq<u64>) returns (n: nat)
    requires |fields| == |values|
    requires start + |head| + 1 + |KeyValues(fields, values)| <= b.Length
    modifies b
    ensures n == |WithHead(head, KeyValues(fields, values))|
    ensures b[start..start + n] == WithHead(head, KeyValues(fields, values))
  {
    Put(b, start, head + ",");
    var offset := |head| + 1;
    ghost var written := b[start..start + offset];
    var r := MarshalKeyValues(b, start + offset, fields, values);
    var m := r.value;
    assert b[start..start + offset] == written == head + ",";
    if m == 0 {
      offset := offset - 1;
      n := offset;
      assert b[start..start + n] == b[start..start + n + 1][..n];
    } else {
      n := offset + m;
      assert b[start..start + n] == b[start..start + offset] + b[start + offset..start + n];
    }
  }

  /** A traffic line always starts with the packet total. */
  lemma TrafficTextHead(t: TrafficValue)
    ensures HasPrefix(TrafficText(t), "packet=")
  {
    assert TrafficText(t)[..7] == PacketHead(t)[..7] == "packet=";
  }

  /**
   * A traffic line is the packet head joined by single commas with the
   * entries of the non-zero fields, so no comma is left over when every
   * other field is zero.
   */
  lemma TrafficTextIsJoin(t: TrafficValue)
    ensures TrafficText(t) == Join([PacketHead(t)] + Entries(TrafficFields, TrafficFieldValues(t)), ",")
  {
    var es := Entries(TrafficFields, TrafficFieldValues(t));
    KeyValuesIsJoin(TrafficFields, TrafficFieldValues(t));
    KeyValuesEmptyIff(TrafficFields, TrafficFieldValues(t));
    JoinCons(PacketHead(t), es, ",");
  }

  /** The line is the packet head alone exactly when the other thirteen values are all zero. */
  lemma TrafficTextHeadOnly(t: TrafficValue)
    ensures TrafficText(t) == PacketHead(t) <==> forall i :: 0 <= i < 13 ==> TrafficFieldValues(t)[i] == 0
  {
    KeyValuesEmptyIff(TrafficFields, TrafficFieldValues(t));
    var rest := KeyValues(TrafficFields, TrafficFieldValues(t));
    if rest != "" {
      assert |TrafficText(t)| > |PacketHead(t)|;
    }
  }

  /** Joining with a new first part puts it and a separator in front, unless nothing follows. */
  lemma JoinCons(p: string, parts: seq<string>, sep: string)
    ensures Join([p] + parts, sep) == if parts == [] then p else p + sep + Join(parts, sep)
  {
    if parts != [] {
      assert ([p] + parts)[1..] == parts;
    }
  }

  const LatencyFields: seq<string> := [
    "rtt_sum=", "rtt_client_sum=", "rtt_server_sum=", "srt_sum=", "art_sum=", "rrt_sum=",
    "rtt_count=", "rtt_client_count=", "rtt_server_count=", "srt_count=", "art_count=", "rrt_count=",
    "rtt_max=", "rtt_client_max=", "rtt_server_max=", "srt_max=", "art_max=", "rrt_max="]

  function LatencyFieldValues(l: LatencyValue): (r: seq<u64>)
    ensures |r| == |LatencyFields|
  {
    [l.rttSum, l.rttClientSum, l.rttServerSum, l.srtSum, l.artSum, l.rrtSum,
     l.rttCount, l.rttClientCount, l.rttServerCount, l.srtCount, l.artCount, l.rrtCount,
     l.rttMax, l.rttClientMax, l.rttServerMax, l.srtMax, l.artMax, l.rrtMax]
  }

  const PerformanceFields: seq<string> := [
    "retrans_tx=", "retrans_rx=", "retrans=", "zero_win_tx=", "zero_win_rx=", "zero_win="]

  function PerformanceFieldValues(a: PerformanceValue): (r: seq<u64>)
    ensures |r| == |PerformanceFields|
  {
    [a.retransTx, a.retransRx, AddU64(a.retransTx, a.retransRx),
     a.zeroWinTx, a.zeroWinRx, AddU64(a.zeroWinTx, a.zeroWinRx)]
  }

  const AnomalyFields: seq<string> := [
    "client_rst_flow=", "server_rst_flow=",
    "client_syn_repeat=", "server_syn_ack_repeat=",
    "client_half_close_flow=", "server_half_close_flow=",
    "client_source_port_reuse=", "server_reset=", "server_queue_lack=",
    "client_establish_other_rst=", "server_establish_other_rst=",
    "tcp_timeout=",
    "client_establish_fail=", "server_establish_fail=", "tcp_establish_fail=",
    "l7_client_error=", "l7_server_error=", "l7_timeout=", "l7_error="]

  /** The l7 error total is summed in uint32 (and may wrap there) before it is widened. */
  function AnomalyFieldValues(a: AnomalyValue): (r: seq<u64>)
    ensures |r| == |AnomalyFields|
  {
    [a.clientRstFlow, a.serverRstFlow,
     a.clientSynRepeat, a.serverSynAckRepeat,
     a.clientHalfCloseFlow, a.serverHalfCloseFlow,
     a.clientSourcePortReuse, a.serverReset, a.serverQueueLack,
     a.clientEstablishReset, a.serverEstablishReset,
     a.tcpTimeout,
     ClientFail(a), ServerFail(a), AddU64(ClientFail(a), ServerFail(a)),
     a.l7ClientError, a.l7ServerError, a.l7Timeout, AddU32(a.l7ClientError, a.l7ServerError)]
  }

  const FlowLoadFields: seq<string> := ["flow_load="]

  /* ---------------- ClickHouse blocks ---------------- */

  datatype ColumnType = UInt64Type | UInt32Type | Float64Type

  datatype Column = Column(name: string, columnType: ColumnType)

  /**
   * A value written into a block. Float64 cells hold the exact integer the
   * source converts with float64(...).
   */
  datatype Cell = UInt64Cell(u: u64) | UInt32Cell(w: u32) | Float64Cell(f: nat)

  predicate CellFits(c: Cell, t: ColumnType)
  {
    match c
    case UInt64Cell(_) => t == UInt64Type
    case UInt32Cell(_) => t == UInt32Type
    case Float64Cell(_) => t == Float64Type
  }

  /** Every cell has its column's type, in column order. */
  predicate MatchesColumns(cells: seq<Cell>, columns: seq<Column>)
  {
    |cells| == |columns| && forall i :: 0 <= i < |cells| ==> CellFits(cells[i], columns[i].columnType)
  }

  function ColumnsOf(names: seq<string>, t: ColumnType): (r: seq<Column>)
    ensures |r| == |names|
    ensures forall i :: 0 <= i < |r| ==> r[i] == Column(names[i], t)
  {
    seq(|names|, i requires 0 <= i < |names| => Column(names[i], t))
  }

  function UInt64Cells(vs: seq<u64>): (r: seq<Cell>)
    ensures |r| == |vs|
    ensures forall i :: 0 <= i < |r| ==> r[i] == UInt64Cell(vs[i])
  {
    seq(|vs|, i requires 0 <= i < |vs| => UInt64Cell(vs[i]))
  }

  function UInt32Cells(vs: seq<u32>): (r: seq<Cell>)
    ensures |r| == |vs|
    ensures forall i :: 0 <= i < |r| ==> r[i] == UInt32Cell(vs[i])
  {
    seq(|vs|, i requires 0 <= i < |vs| => UInt32Cell(vs[i]))
  }

  function Float64Cells(vs: seq<u64>): (r: seq<Cell>)
    ensures |r| == |vs|
    ensures forall i :: 0 <= i < |r| ==> r[i] == Float64Cell(vs[i])
  {
    seq(|vs|, i requires 0 <= i < |vs| => Float64Cell(vs[i]))
  }

  /** The rows being built for one ClickHouse insert. */
  class Block {
    var cells: seq<Cell>

    constructor ()
      ensures cells == []
    {
      cells := [];
    }

    method WriteUInt64s(vs: seq<u64>)
      modifies this
      ensures cells == old(cells) + UInt64Cells(vs)
    {
      var i := 0;
      while i < |vs|
        invariant 0 <= i <= |vs|
        invariant cells == old(cells) + UInt64Cells(vs[..i])
      {
        cells := cells + [UInt64Cell(vs[i])];
        i := i + 1;
      }
      assert vs[..i] == vs;
    }

    method WriteUInt32s(vs: seq<u32>)
      modifies this
      ensures cells == old(cells) + UInt32Cells(vs)
    {
      var i := 0;
      while i < |vs|
        invariant 0 <= i <= |vs|
        invariant cells == old(cells) + UInt32Cells(vs[..i])
      {
        cells := cells + [UInt32Cell(vs[i])];
        i := i + 1;
      }
      assert vs[..i] == vs;
    }

    method WriteFloat64s(vs: seq<u64>)
      modifies this
      ensures cells == old(cells) + Float64Cells(vs)
    {
      var i := 0;
      while i < |vs|
        invariant 0 <= i <= |vs|
        invariant cells == old(cells) + Float64Cells(vs[..i])
      {
        cells := cells + [Float64Cell(vs[i])];
        i := i + 1;
      }
      assert vs[..i] == vs;
    }
  }

  const TRAFFIC_PACKET_TX := 0
  const TRAFFIC_PACKET_RX := 1
  const TRAFFIC_PACKET := 2
  const TRAFFIC_BYTE_TX := 3
  const TRAFFIC_BYTE_RX := 4
  const TRAFFIC_BYTE := 5
  const TRAFFIC_L7_RESPONSE := 13

  const TrafficColumnNames: seq<string> := [
    "packet_tx", "packet_rx", "packet", "byte_tx", "byte_rx", "byte",
    "l3_byte_tx", "l3_byte_rx", "l4_byte_tx", "l4_byte_rx",
    "new_flow", "closed_flow", "l7_request", "l7_response"]

  function TrafficColumns(): seq<Column>
  {
    ColumnsOf(TrafficColumnNames, UInt64Type)
  }

  function TrafficBlockValues(t: TrafficValue): seq<u64>
  {
    [t.packetTx, t.packetRx, AddU64(t.packetTx, t.packetRx),
     t.byteTx, t.byteRx, AddU64(t.byteTx, t.byteRx),
     t.l3ByteTx, t.l3ByteRx, t.l4ByteTx, t.l4ByteRx,
     t.newFlow, t.closedFlow, t.l7Request, t.l7Response]
  }

  /**
   * Traffic.WriteBlock writes one uint64 cell per TrafficColumns column, in
   * column order; `packet` and `byte` are the wrapped Tx+Rx totals.
   */
  lemma TrafficBlockMatchesColumns(t: TrafficValue)
    ensures var cells := UInt64Cells(TrafficBlockValues(t)); var cols := TrafficColumns();
      MatchesColumns(cells, cols) && |cells| == 14 &&
      cols[TRAFFIC_PACKET].name == "packet" &&
      cells[TRAFFIC_PACKET] == UInt64Cell((t.packetTx + t.packetRx) % U64_MODULUS) &&
      cols[TRAFFIC_BYTE].name == "byte" &&
      cells[TRAFFIC_BYTE] == UInt64Cell((t.byteTx + t.byteRx) % U64_MODULUS) &&
      cols[TRAFFIC_L7_RESPONSE].name == "l7_response" && cells[TRAFFIC_L7_RESPONSE] == UInt64Cell(t.l7Response)
  {
  }

  const LatencyColumnNames: seq<string> := [
    "rtt_sum", "rtt_client_sum", "rtt_server_sum", "srt_sum", "art_sum", "rrt_sum",
    "rtt_count", "rtt_client_count", "rtt_server_count", "srt_count", "art_count", "rrt_count",
    "rtt_max", "rtt_client_max", "rtt_server_max", "srt_max", "art_max", "rrt_max"]

  /** Six float64 sums, six uint64 counts, six uint32 maxima. */
  function LatencyColumns(): seq<Column>
  {
    ColumnsOf(LatencyColumnNames[..6], Float64Type) + ColumnsOf(LatencyColumnNames[6..12], UInt64Type) +
      ColumnsOf(LatencyColumnNames[12..], UInt32Type)
  }

  /** The six counts, widened to uint64 for their columns. */
  function LatencyCounts(l: LatencyValue): seq<u64>
  {
    [l.rttCount, l.rttClientCount, l.rttServerCount, l.srtCount, l.artCount, l.rrtCount]
  }

  function LatencyBlockCells(l: LatencyValue): seq<Cell>
  {
    Float64Cells([l.rttSum, l.rttClientSum, l.rttServerSum, l.srtSum, l.artSum, l.rrtSum]) +
      UInt64Cells(LatencyCounts(l)) +
      UInt32Cells([l.rttMax, l.rttClientMax, l.rttServerMax, l.srtMax, l.artMax, l.rrtMax])
  }

  /** Latency.WriteBlock matches LatencyColumns cell for cell and type for type. */
  lemma LatencyBlockMatchesColumns(l: LatencyValue)
    ensures MatchesColumns(LatencyBlockCells(l), LatencyColumns())
    ensures LatencyColumns()[0].name == "rtt_sum" && LatencyBlockCells(l)[0] == Float64Cell(l.rttSum)
    ensures LatencyColumns()[6].name == "rtt_count" && LatencyBlockCells(l)[6] == UInt64Cell(l.rttCount)
    ensures LatencyColumns()[12].name == "rtt_max" && LatencyBlockCells(l)[12] == UInt32Cell(l.rttMax)
  {
    var cells := LatencyBlockCells(l);
    var cols := LatencyColumns();
    assert |cells| == 18 && |cols| == 18;
    forall i | 0 <= i < 18
      ensures CellFits(cells[i], cols[i].columnType)
    {
      if i < 6 {
        assert cols[i].columnType == Float64Type;
      } else if i < 12 {
        assert cols[i].columnType == UInt64Type;
      } else {
        assert cols[i].columnType == UInt32Type;
      }
    }
  }

  const PerformanceColumnNames: seq<string> := ["retrans_tx", "retrans_rx", "retrans", "zero_win_tx", "zero_win_rx", "zero_win"]

  function PerformanceColumns(): seq<Column>
  {
    ColumnsOf(PerformanceColumnNames, UInt64Type)
  }

  function PerformanceBlockValues(a: PerformanceValue): seq<u64>
  {
    [a.retransTx, a.retransRx, AddU64(a.retransTx, a.retransRx),
     a.zeroWinTx, a.zeroWinRx, AddU64(a.zeroWinTx, a.zeroWinRx)]
  }

  /** Performance.WriteBlock matches PerformanceColumns; `retrans` and `zero_win` are the wrapped totals. */
  lemma PerformanceBlockMatchesColumns(a: PerformanceValue)
    ensures var cells := UInt64Cells(PerformanceBlockValues(a)); var cols := PerformanceColumns();
      MatchesColumns(cells, cols) &&
      cols[2].name == "retrans" && cells[2] == UInt64Cell((a.retransTx + a.retransRx) % U64_MODULUS) &&
      cols[5].name == "zero_win" && cells[5] == UInt64Cell((a.zeroWinTx + a.zeroWinRx) % U64_MODULUS)
  {
  }

  const ANOMALY_CLIENT_ESTABLISH_FAIL := 12
  const ANOMALY_SERVER_ESTABLISH_FAIL := 13
  const ANOMALY_TCP_ESTABLISH_FAIL := 14
  const ANOMALY_TRANSFER_FAIL := 15
  const ANOMALY_RST_FAIL := 16
  const ANOMALY_L7_ERROR := 3

  const AnomalyColumnNames: seq<string> := [
    "client_rst_flow", "server_rst_flow", "client_syn_repeat", "server_syn_ack_repeat",
    "client_half_close_flow", "server_half_close_flow",
    "client_source_port_reuse", "server_reset", "server_queue_lack",
    "client_establish_other_rst", "server_establish_other_rst", "tcp_timeout",
    "client_establish_fail", "server_establish_fail", "tcp_establish_fail",
    "tcp_transfer_fail", "tcp_rst_fail"]

  const AnomalyL7ColumnNames: seq<string> := ["l7_client_error", "l7_server_error", "l7_timeout", "l7_error"]

  function AnomalyColumns(): seq<Column>
  {
    ColumnsOf(AnomalyColumnNames, UInt64Type) + ColumnsOf(AnomalyL7ColumnNames, UInt32Type)
  }

  function AnomalyBlockValues(a: AnomalyValue): seq<u64>
  {
    var clientFail := ClientFail(a);
    var serverFail := ServerFail(a);
    var transferFail := TransferFail(a);
    var rstFail := RstFail(a);
    [a.clientRstFlow, a.serverRstFlow, a.clientSynRepeat, a.serverSynAckRepeat,
     a.clientHalfCloseFlow, a.serverHalfCloseFlow,
     a.clientSourcePortReuse, a.serverReset, a.serverQueueLack,
     a.clientEstablishReset, a.serverEstablishReset, a.tcpTimeout,
     clientFail, serverFail, AddU64(clientFail, serverFail), transferFail, rstFail]
  }

  /** Transfer failures: resets, queue overflow, half-closes and timeouts during transfer. */
  function TransferFail(a: AnomalyValue): u64
  {
    AddU64(AddU64(AddU64(AddU64(AddU64(a.clientRstFlow, a.serverRstFlow), a.serverQueueLack),
                         a.clientHalfCloseFlow), a.serverHalfCloseFlow), a.tcpTimeout)
  }

  /** All resets, during establishment and during transfer. */
  function RstFail(a: AnomalyValue): u64
  {
    AddU64(AddU64(AddU64(AddU64(a.clientEstablishReset, a.serverEstablishReset), a.serverReset),
                  a.clientRstFlow), a.serverRstFlow)
  }

  function AnomalyL7BlockValues(a: AnomalyValue): seq<u32>
  {
    [a.l7ClientError, a.l7ServerError, a.l7Timeout, AddU32(a.l7ClientError, a.l7ServerError)]
  }

  function AnomalyBlockCells(a: AnomalyValue): seq<Cell>
  {
    UInt64Cells(AnomalyBlockValues(a)) + UInt32Cells(AnomalyL7BlockValues(a))
  }

  /** Anomaly.WriteBlock matches AnomalyColumns: seventeen uint64 cells, then four uint32 cells. */
  lemma AnomalyBlockMatchesColumns(a: AnomalyValue)
    ensures MatchesColumns(AnomalyBlockCells(a), AnomalyColumns())
  {
    var cells := AnomalyBlockCells(a);
    var cols := AnomalyColumns();
    forall i | 0 <= i < |cells|
      ensures CellFits(cells[i], cols[i].columnType)
    {
      if i < 17 {
        assert cols[i].columnType == UInt64Type;
      } else {
        assert cols[i].columnType == UInt32Type;
      }
    }
  }

  /**
   * The establishment-failure columns are the documented sums modulo 2^64:
   * client failures, server failures, and their total.
   */
  lemma AnomalyEstablishFail(a: AnomalyValue)
    ensures var v := AnomalyBlockValues(a); var cols := AnomalyColumns();
      cols[ANOMALY_CLIENT_ESTABLISH_FAIL].name == "client_establish_fail" &&
      v[ANOMALY_CLIENT_ESTABLISH_FAIL] ==
        (a.clientSynRepeat + a.clientSourcePortReuse + a.clientEstablishReset) % U64_MODULUS &&
      cols[ANOMALY_SERVER_ESTABLISH_FAIL].name == "server_establish_fail" &&
      v[ANOMALY_SERVER_ESTABLISH_FAIL] ==
        (a.serverSynAckRepeat + a.serverReset + a.serverQueueLack + a.serverEstablishReset) % U64_MODULUS &&
      cols[ANOMALY_TCP_ESTABLISH_FAIL].name == "tcp_establish_fail" &&
      v[ANOMALY_TCP_ESTABLISH_FAIL] == (a.clientSynRepeat + a.clientSourcePortReuse + a.clientEstablishReset +
        a.serverSynAckRepeat + a.serverReset + a.serverQueueLack + a.serverEstablishReset) % U64_MODULUS
  {
    AnomalyEstablishCells(a);
    ClientFailIsSum(a);
    ServerFailIsSum(a);
    EstablishSum(ClientFail(a), ServerFail(a), a.clientSynRepeat, a.clientSourcePortReuse, a.clientEstablishReset,
      a.serverSynAckRepeat, a.serverReset, a.serverQueueLack, a.serverEstablishReset);
  }

  /** The wrapped client and server sums add up (wrapping) to the wrapped sum of all seven causes. */
  lemma EstablishSum(cf: u64, sf: u64, c1: u64, c2: u64, c3: u64, s1: u64, s2: u64, s3: u64, s4: u64)
    requires cf == (c1 + c2 + c3) % U64_MODULUS && sf == (s1 + s2 + s3 + s4) % U64_MODULUS
    ensures AddU64(cf, sf) == (c1 + c2 + c3 + s1 + s2 + s3 + s4) % U64_MODULUS
  {
    ModAddMod(c1 + c2 + c3, s1 + s2 + s3 + s4);
  }

  lemma AnomalyEstablishCells(a: AnomalyValue)
    ensures var v := AnomalyBlockValues(a); var cols := AnomalyColumns();
      cols[ANOMALY_CLIENT_ESTABLISH_FAIL].name == "client_establish_fail" &&
      cols[ANOMALY_SERVER_ESTABLISH_FAIL].name == "server_establish_fail" &&
      cols[ANOMALY_TCP_ESTABLISH_FAIL].name == "tcp_establish_fail" &&
      v[ANOMALY_CLIENT_ESTABLISH_FAIL] == ClientFail(a) && v[ANOMALY_SERVER_ESTABLISH_FAIL] == ServerFail(a) &&
      v[ANOMALY_TCP_ESTABLISH_FAIL] == AddU64(ClientFail(a), ServerFail(a))
  {
  }

  lemma ClientFailIsSum(a: AnomalyValue)
    ensures ClientFail(a) == (a.clientSynRepeat + a.clientSourcePortReuse + a.clientEstablishReset) % U64_MODULUS
  {
    WrapAdd3(a.clientSynRepeat, a.clientSourcePortReuse, a.clientEstablishReset);
  }

  /** Three uint64 terms added left to right wrap their true sum. */
  lemma WrapAdd3(x: u64, y: u64, z: u64)
    ensures AddU64(AddU64(x, y), z) == (x + y + z) % U64_MODULUS
  {
    WrapAdd(x, y);
    WrapAdd(x + y, z);
  }

  lemma ServerFailIsSum(a: AnomalyValue)
    ensures ServerFail(a) ==
      (a.serverSynAckRepeat + a.serverReset + a.serverQueueLack + a.serverEstablishReset) % U64_MODULUS
  {
    WrapAdd4(a.serverSynAckRepeat, a.serverReset, a.serverQueueLack, a.serverEstablishReset);
  }

  /** Four uint64 terms added left to right wrap their true sum. */
  lemma WrapAdd4(w: u64, x: u64, y: u64, z: u64)
    ensures AddU64(AddU64(AddU64(w, x), y), z) == (w + x + y + z) % U64_MODULUS
  {
    WrapAdd3(w, x, y);
    WrapStep(AddU64(AddU64(w, x), y), w + x + y, z);
  }

  /** Five uint64 terms added left to right wrap their true sum. */
  lemma WrapAdd5(v: u64, w: u64, x: u64, y: u64, z: u64)
    ensures AddU64(AddU64(AddU64(AddU64(v, w), x), y), z) == (v + w + x + y + z) % U64_MODULUS
  {
    WrapAdd4(v, w, x, y);
    WrapStep(AddU64(AddU64(AddU64(v, w), x), y), v + w + x + y, z);
  }

  /** Six uint64 terms added left to right wrap their true sum. */
  lemma WrapAdd6(u: u64, v: u64, w: u64, x: u64, y: u64, z: u64)
    ensures AddU64(AddU64(AddU64(AddU64(AddU64(u, v), w), x), y), z) == (u + v + w + x + y + z) % U64_MODULUS
  {
    WrapAdd5(u, v, w, x, y);
    WrapStep(AddU64(AddU64(AddU64(AddU64(u, v), w), x), y), u + v + w + x + y, z);
  }

  lemma TransferFailIsSum(a: AnomalyValue)
    ensures TransferFail(a) == (a.clientRstFlow + a.serverRstFlow + a.serverQueueLack +
      a.clientHalfCloseFlow + a.serverHalfCloseFlow + a.tcpTimeout) % U64_MODULUS
  {
    WrapAdd6(a.clientRstFlow, a.serverRstFlow, a.serverQueueLack,
             a.clientHalfCloseFlow, a.serverHalfCloseFlow, a.tcpTimeout);
  }

  lemma RstFailIsSum(a: AnomalyValue)
    ensures RstFail(a) == (a.clientEstablishReset + a.serverEstablishReset + a.serverReset +
      a.clientRstFlow + a.serverRstFlow) % U64_MODULUS
  {
    WrapAdd5(a.clientEstablishReset, a.serverEstablishReset, a.serverReset, a.clientRstFlow, a.serverRstFlow);
  }

  /**
   * tcp_transfer_fail counts resets, queue overflow, half-closes and
   * timeouts during transfer; tcp_rst_fail counts every reset; both modulo
   * 2^64. l7_error is the client plus server error count modulo 2^32.
   */
  lemma AnomalyTransferAndRstFail(a: AnomalyValue)
    ensures var v := AnomalyBlockValues(a); var cols := AnomalyColumns();
      cols[ANOMALY_TRANSFER_FAIL].name == "tcp_transfer_fail" &&
      v[ANOMALY_TRANSFER_FAIL] == (a.clientRstFlow + a.serverRstFlow + a.serverQueueLack +
        a.clientHalfCloseFlow + a.serverHalfCloseFlow + a.tcpTimeout) % U64_MODULUS &&
      cols[ANOMALY_RST_FAIL].name == "tcp_rst_fail" &&
      v[ANOMALY_RST_FAIL] == (a.clientEstablishReset + a.serverEstablishReset + a.serverReset +
        a.clientRstFlow + a.serverRstFlow) % U64_MODULUS
    ensures AnomalyColumns()[17 + ANOMALY_L7_ERROR].name == "l7_error" &&
      AnomalyBlockCells(a)[17 + ANOMALY_L7_ERROR] == UInt32Cell((a.l7ClientError + a.l7ServerError) % U32_MODULUS)
  {
    TransferFailIsSum(a);
    RstFailIsSum(a);
  }

  /** Reducing the parts first does not change a sum modulo 2^64. */
  lemma ModAddMod(x: nat, y: nat)
    ensures AddU64(x % U64_MODULUS, y % U64_MODULUS) == (x + y) % U64_MODULUS
  {
  }

  const FlowLoadColumns: seq<Column> := [Column("flow_load", UInt64Type)]

  /* ---------------- the meters ---------------- */

  class Traffic {
    var packetTx: u64
    var packetRx: u64
    var byteTx: u64
    var byteRx: u64
    var l3ByteTx: u64
    var l3ByteRx: u64
    var l4ByteTx: u64
    var l4ByteRx: u64
    var newFlow: u64
    var closedFlow: u64
    var l7Request: u32
    var l7Response: u32

    constructor ()
      ensures Value() == ZeroTraffic
    {
      packetTx, packetRx, byteTx, byteRx := 0, 0, 0, 0;
      l3ByteTx, l3ByteRx, l4ByteTx, l4ByteRx := 0, 0, 0, 0;
      newFlow, closedFlow, l7Request, l7Response := 0, 0, 0, 0;
    }

    function Value(): TrafficValue
      reads this
    {
      TrafficValue(packetTx, packetRx, byteTx, byteRx, l3ByteTx, l3ByteRx, l4ByteTx, l4ByteRx,
                   newFlow, closedFlow, l7Request, l7Response)
    }

    /** Swaps every Tx/Rx pair; HTTP and DNS counts are client/server based and stay. */
    method Reverse()
      modifies this
      ensures Value() == ReverseTraffic(old(Value()))
    {
      packetTx, packetRx := packetRx, packetTx;
      byteTx, byteRx := byteRx, byteTx;
      l3ByteTx, l3ByteRx := l3ByteRx, l3ByteTx;
      l4ByteTx, l4ByteRx := l4ByteRx, l4ByteTx;
    }

    /** Adds every counter of `other` into this one. */
    method ConcurrentMerge(other: Traffic)
      modifies this
      ensures Value() == MergeTraffic(old(Value()), old(other.Value()))
      ensures other != this ==> other.Value() == old(other.Value())
    {
      // Both operands are read before any field is written, as in the source,
      // where each field reads the other's field before writing its own.
      var m := MergeTraffic(Value(), other.Value());
      packetTx, packetRx, byteTx, byteRx := m.packetTx, m.packetRx, m.byteTx, m.byteRx;
      l3ByteTx, l3ByteRx, l4ByteTx, l4ByteRx := m.l3ByteTx, m.l3ByteRx, m.l4ByteTx, m.l4ByteRx;
      newFlow, closedFlow, l7Request, l7Response := m.newFlow, m.closedFlow, m.l7Request, m.l7Response;
    }

    method SequentialMerge(other: Traffic)
      modifies this
      ensures Value() == MergeTraffic(old(Value()), old(other.Value()))
    {
      ConcurrentMerge(other);
    }

    /**
     * Writes the traffic line at `start` and returns its length. The comma
     * after the packet head is written first and dropped again when no other
     * field follows.
     */
    method MarshalTo(b: array<char>, start: nat) returns (n: nat)
      requires start + |PacketHead(Value())| + 1 + |KeyValues(TrafficFields, TrafficFieldValues(Value()))| <= b.Length
      modifies b
      ensures n == |TrafficText(Value())|
      ensures b[start..start + n] == TrafficText(Value())
    {
      n := MarshalAfterHead(b, start, PacketHead(Value()), TrafficFields, TrafficFieldValues(Value()));
    }

    method WriteBlock(block: Block)
      modifies block
      ensures block.cells == old(block.cells) + UInt64Cells(TrafficBlockValues(Value()))
    {
      block.WriteUInt64s(TrafficBlockValues(Value()));
    }
  }

  class Latency {
    var rttMax: u32
    var rttClientMax: u32
    var rttServerMax: u32
    var srtMax: u32
    var artMax: u32
    var rrtMax: u32
    var rttSum: u64
    var rttClientSum: u64
    var rttServerSum: u64
    var srtSum: u64
    var artSum: u64
    var rrtSum: u64
    var rttCount: u32
    var rttClientCount: u32
    var rttServerCount: u32
    var srtCount: u32
    var artCount: u32
    var rrtCount: u32

    function Value(): LatencyValue
      reads this
    {
      LatencyValue(rttMax, rttClientMax, rttServerMax, srtMax, artMax, rrtMax,
                   rttSum, rttClientSum, rttServerSum, srtSum, artSum, rrtSum,
                   rttCount, rttClientCount, rttServerCount, srtCount, artCount, rrtCount)
    }

    /** Keeps the larger maximum of each pair and adds sums and counts. */
    method ConcurrentMerge(other: Latency)
      modifies this
      ensures Value() == MergeLatency(old(Value()), old(other.Value()))
    {
      MergeMaxima(other);
      MergeSums(other);
      MergeCounts(other);
    }

    method MergeMaxima(other: Latency)
      modifies this
      ensures rttMax == MaxU32(old(rttMax), old(other.rttMax)) && rttClientMax == MaxU32(old(rttClientMax), old(other.rttClientMax))
      ensures rttServerMax == MaxU32(old(rttServerMax), old(other.rttServerMax)) && srtMax == MaxU32(old(srtMax), old(other.srtMax))
      ensures artMax == MaxU32(old(artMax), old(other.artMax)) && rrtMax == MaxU32(old(rrtMax), old(other.rrtMax))
      ensures rttSum == old(rttSum) && rttClientSum == old(rttClientSum) && rttServerSum == old(rttServerSum)
      ensures srtSum == old(srtSum) && artSum == old(artSum) && rrtSum == old(rrtSum)
      ensures rttCount == old(rttCount) && rttClientCount == old(rttClientCount) && rttServerCount == old(rttServerCount)
      ensures srtCount == old(srtCount) && artCount == old(artCount) && rrtCount == old(rrtCount)
    {
      // Each `if l.X < other.X { l.X = other.X }` of the source leaves the larger value.
      rttMax := MaxU32(rttMax, other.rttMax);
      rttClientMax := MaxU32(rttClientMax, other.rttClientMax);
      rttServerMax := MaxU32(rttServerMax, other.rttServerMax);
      srtMax := MaxU32(srtMax, other.srtMax);
      artMax := MaxU32(artMax, other.artMax);
      rrtMax := MaxU32(rrtMax, other.rrtMax);
    }

    method MergeSums(other: Latency)
      modifies this
      ensures rttSum == AddU64(old(rttSum), old(other.rttSum)) && rttClientSum == AddU64(old(rttClientSum), old(other.rttClientSum))
      ensures rttServerSum == AddU64(old(rttServerSum), old(other.rttServerSum)) && srtSum == AddU64(old(srtSum), old(other.srtSum))
      ensures artSum == AddU64(old(artSum), old(other.artSum)) && rrtSum == AddU64(old(rrtSum), old(other.rrtSum))
      ensures rttMax == old(rttMax) && rttClientMax == old(rttClientMax) && rttServerMax == old(rttServerMax)
      ensures srtMax == old(srtMax) && artMax == old(artMax) && rrtMax == old(rrtMax)
      ensures rttCount == old(rttCount) && rttClientCount == old(rttClientCount) && rttServerCount == old(rttServerCount)
      ensures srtCount == old(srtCount) && artCount == old(artCount) && rrtCount == old(rrtCount)
    {
      rttSum := AddU64(rttSum, other.rttSum);
      rttClientSum := AddU64(rttClientSum, other.rttClientSum);
      rttServerSum := AddU64(rttServerSum, other.rttServerSum);
      srtSum := AddU64(srtSum, other.srtSum);
      artSum := AddU64(artSum, other.artSum);
      rrtSum := AddU64(rrtSum, other.rrtSum);
    }

    method MergeCounts(other: Latency)
      modifies this
      ensures rttCount == AddU32(old(rttCount), old(other.rttCount)) && rttClientCount == AddU32(old(rttClientCount), old(other.rttClientCount))
      ensures rttServerCount == AddU32(old(rttServerCount), old(other.rttServerCount)) && srtCount == AddU32(old(srtCount), old(other.srtCount))
      ensures artCount == AddU32(old(artCount), old(other.artCount)) && rrtCount == AddU32(old(rrtCount), old(other.rrtCount))
      ensures rttMax == old(rttMax) && rttClientMax == old(rttClientMax) && rttServerMax == old(rttServerMax)
      ensures srtMax == old(srtMax) && artMax == old(artMax) && rrtMax == old(rrtMax)
      ensures rttSum == old(rttSum) && rttClientSum == old(rttClientSum) && rttServerSum == old(rttServerSum)
      ensures srtSum == old(srtSum) && artSum == old(artSum) && rrtSum == old(rrtSum)
    {
      rttCount := AddU32(rttCount, other.rttCount);
      rttClientCount := AddU32(rttClientCount, other.rttClientCount);
      rttServerCount := AddU32(rttServerCount, other.rttServerCount);
      srtCount := AddU32(srtCount, other.srtCount);
      artCount := AddU32(artCount, other.artCount);
      rrtCount := AddU32(rrtCount, other.rrtCount);
    }

    method SequentialMerge(other: Latency)
      modifies this
      ensures Value() == MergeLatency(old(Value()), old(other.Value()))
    {
      ConcurrentMerge(other);
    }

    method MarshalTo(b: array<char>, start: nat) returns (n: nat)
      requires start + |KeyValues(LatencyFields, LatencyFieldValues(Value()))| <= b.Length
      modifies b
      ensures n == |KeyValues(LatencyFields, LatencyFieldValues(Value()))|
      ensures b[start..start + n] == KeyValues(LatencyFields, LatencyFieldValues(Value()))
    {
      var r := MarshalKeyValues(b, start, LatencyFields, LatencyFieldValues(Value()));
      n := r.value;
    }

    method WriteBlock(block: Block)
      modifies block
      ensures block.cells == old(block.cells) + LatencyBlockCells(Value())
    {
      var sums := [rttSum, rttClientSum, rttServerSum, srtSum, artSum, rrtSum];
      var counts := LatencyCounts(Value());
      var maxima := [rttMax, rttClientMax, rttServerMax, srtMax, artMax, rrtMax];
      block.WriteFloat64s(sums);
      block.WriteUInt64s(counts);
      block.WriteUInt32s(maxima);
    }
  }

  class Performance {
    var retransTx: u64
    var retransRx: u64
    var zeroWinTx: u64
    var zeroWinRx: u64

    function Value(): PerformanceValue
      reads this
    {
      PerformanceValue(retransTx, retransRx, zeroWinTx, zeroWinRx)
    }

    method ConcurrentMerge(other: Performance)
      modifies this
      ensures Value() == MergePerformance(old(Value()), old(other.Value()))
    {
      retransTx := AddU64(retransTx, other.retransTx);
      retransRx := AddU64(retransRx, other.retransRx);
      zeroWinTx := AddU64(zeroWinTx, other.zeroWinTx);
      zeroWinRx := AddU64(zeroWinRx, other.zeroWinRx);
    }

    method SequentialMerge(other: Performance)
      modifies this
      ensures Value() == MergePerformance(old(Value()), old(other.Value()))
    {
      ConcurrentMerge(other);
    }

    method MarshalTo(b: array<char>, start: nat) returns (n: nat)
      requires start + |KeyValues(PerformanceFields, PerformanceFieldValues(Value()))| <= b.Length
      modifies b
      ensures n == |KeyValues(PerformanceFields, PerformanceFieldValues(Value()))|
      ensures b[start..start + n] == KeyValues(PerformanceFields, PerformanceFieldValues(Value()))
    {
      var r := MarshalKeyValues(b, start, PerformanceFields, PerformanceFieldValues(Value()));
      n := r.value;
    }

    method WriteBlock(block: Block)
      modifies block
      ensures block.cells == old(block.cells) + UInt64Cells(PerformanceBlockValues(Value()))
    {
      block.WriteUInt64s(PerformanceBlockValues(Value()));
    }
  }

  class Anomaly {
    var clientRstFlow: u64
    var serverRstFlow: u64
    var clientSynRepeat: u64
    var serverSynAckRepeat: u64
    var clientHalfCloseFlow: u64
    var serverHalfCloseFlow: u64
    var clientSourcePortReuse: u64
    var clientEstablishReset: u64
    var serverReset: u64
    var serverQueueLack: u64
    var serverEstablishReset: u64
    var tcpTimeout: u64
    var l7ClientError: u32
    var l7ServerError: u32
    var l7Timeout: u32

    function Value(): AnomalyValue
      reads this
    {
      AnomalyValue(clientRstFlow, serverRstFlow, clientSynRepeat, serverSynAckRepeat,
                   clientHalfCloseFlow, serverHalfCloseFlow, clientSourcePortReuse, clientEstablishReset,
                   serverReset, serverQueueLack, serverEstablishReset, tcpTimeout,
                   l7ClientError, l7ServerError, l7Timeout)
    }

    /** Adds every counter of `other` into this one, in three groups of fields. */
    method ConcurrentMerge(other: Anomaly)
      modifies this
      ensures Value() == MergeAnomaly(old(Value()), old(other.Value()))
    {
      MergeTransfer(other);
      MergeEstablish(other);
      MergeL7(other);
    }

    method MergeTransfer(other: Anomaly)
      modifies this
      ensures Value() == old(Value()).(
        clientRstFlow := AddU64(old(clientRstFlow), old(other.clientRstFlow)),
        serverRstFlow := AddU64(old(serverRstFlow), old(other.serverRstFlow)),
        clientSynRepeat := AddU64(old(clientSynRepeat), old(other.clientSynRepeat)),
        serverSynAckRepeat := AddU64(old(serverSynAckRepeat), old(other.serverSynAckRepeat)),
        clientHalfCloseFlow := AddU64(old(clientHalfCloseFlow), old(other.clientHalfCloseFlow)),
        serverHalfCloseFlow := AddU64(old(serverHalfCloseFlow), old(other.serverHalfCloseFlow)))
    {
      clientRstFlow := AddU64(clientRstFlow, other.clientRstFlow);
      serverRstFlow := AddU64(serverRstFlow, other.serverRstFlow);
      clientSynRepeat := AddU64(clientSynRepeat, other.clientSynRepeat);
      serverSynAckRepeat := AddU64(serverSynAckRepeat, other.serverSynAckRepeat);
      clientHalfCloseFlow := AddU64(clientHalfCloseFlow, other.clientHalfCloseFlow);
      serverHalfCloseFlow := AddU64(serverHalfCloseFlow, other.serverHalfCloseFlow);
    }

    method MergeEstablish(other: Anomaly)
      modifies this
      ensures Value() == old(Value()).(
        clientSourcePortReuse := AddU64(old(clientSourcePortReuse), old(other.clientSourcePortReuse)),
        clientEstablishReset := AddU64(old(clientEstablishReset), old(other.clientEstablishReset)),
        serverReset := AddU64(old(serverReset), old(other.serverReset)),
        serverQueueLack := AddU64(old(serverQueueLack), old(other.serverQueueLack)),
        serverEstablishReset := AddU64(old(serverEstablishReset), old(other.serverEstablishReset)),
        tcpTimeout := AddU64(old(tcpTimeout), old(other.tcpTimeout)))
    {
      clientSourcePortReuse := AddU64(clientSourcePortReuse, other.clientSourcePortReuse);
      clientEstablishReset := AddU64(clientEstablishReset, other.clientEstablishReset);
      serverReset := AddU64(serverReset, other.serverReset);
      serverQueueLack := AddU64(serverQueueLack, other.serverQueueLack);
      serverEstablishReset := AddU64(serverEstablishReset, other.serverEstablishReset);
      tcpTimeout := AddU64(tcpTimeout, other.tcpTimeout);
    }

    method MergeL7(other: Anomaly)
      modifies this
      ensures Value() == old(Value()).(
        l7ClientError := AddU32(old(l7ClientError), old(other.l7ClientError)),
        l7ServerError := AddU32(old(l7ServerError), old(other.l7ServerError)),
        l7Timeout := AddU32(old(l7Timeout), old(other.l7Timeout)))
    {
      l7ClientError := AddU32(l7ClientError, other.l7ClientError);
      l7ServerError := AddU32(l7ServerError, other.l7ServerError);
      l7Timeout := AddU32(l7Timeout, other.l7Timeout);
    }

    method SequentialMerge(other: Anomaly)
      modifies this
      ensures Value() == MergeAnomaly(old(Value()), old(other.Value()))
    {
      ConcurrentMerge(other);
    }

    method MarshalTo(b: array<char>, start: nat) returns (n: nat)
      requires start + |KeyValues(AnomalyFields, AnomalyFieldValues(Value()))| <= b.Length
      modifies b
      ensures n == |KeyValues(AnomalyFields, AnomalyFieldValues(Value()))|
      ensures b[start..start + n] == KeyValues(AnomalyFields, AnomalyFieldValues(Value()))
    {
      var r := MarshalKeyValues(b, start, AnomalyFields, AnomalyFieldValues(Value()));
      n := r.value;
    }

    method WriteBlock(block: Block)
      modifies block
      ensures block.cells == old(block.cells) + AnomalyBlockCells(Value())
    {
      block.WriteUInt64s(AnomalyBlockValues(Value()));
      block.WriteUInt32s(AnomalyL7BlockValues(Value()));
    }
  }

  class FlowLoad {
    var load: u64

    method ConcurrentMerge(other: FlowLoad)
      modifies this
      ensures load == AddU64(old(load), old(other.load))
    {
      load := AddU64(load, other.load);
    }

    method SequentialMerge(other: FlowLoad)
      modifies this
      ensures load == AddU64(old(load), old(other.load))
    {
      ConcurrentMerge(other);
    }

    method MarshalTo(b: array<char>, start: nat) returns (n: nat)
      requires start + |KeyValues(FlowLoadFields, [load])| <= b.Length
      modifies b
      ensures n == |KeyValues(FlowLoadFields, [load])|
      ensures b[start..start + n] == KeyValues(FlowLoadFields, [load])
    {
      var r := MarshalKeyValues(b, start, FlowLoadFields, [load]);
      n := r.value;
    }

    method WriteBlock(block: Block)
      modifies block
      ensures block.cells == old(block.cells) + UInt64Cells([load])
    {
      block.WriteUInt64s([load]);
    }
  }
}
