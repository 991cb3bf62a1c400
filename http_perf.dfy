/**
 * The HTTP performance statistics of one flow in the agent: each TCP payload
 * is read as an HTTP/1 request or response line, or else walked as HTTP/2
 * frames to the first HEADERS frame; requests and responses update the
 * flow's counters, and a response that follows a cached request records its
 * response time (RRT).
 *
 * HTTP/2 framing follows RFC 7540: the 9-octet frame header of section 4.1,
 * the HEADERS padding and priority fields of section 6.2, and the 24-octet
 * connection preface of section 3.5. Status classes follow section 6 of
 * RFC 7231. The frame-header reader, HPACK and the HTTP/1 line checks live
 * in other files and are given as `HttpLib`. Durations are nanoseconds.
 */
module HttpPerf {
  import opened Wrappers
  import opened FixedWidth
  import opened Text
  import opened ProtocolLogs

  const H2C_HEADER_SIZE: nat := 9
  const HTTPV2_MAGIC_LENGTH: nat := 24
  /** "PRI * HTTP", the start of the connection preface. */
  const HTTPV2_MAGIC_PREFIX: seq<u8> := [0x50, 0x52, 0x49, 0x20, 0x2a, 0x20, 0x48, 0x54, 0x54, 0x50]
  const FRAME_HEADERS: u8 := 0x1
  const FLAG_HEADERS_PADDED: nat := 0x8
  const FLAG_HEADERS_PRIORITY: nat := 0x20

  const HEADER_PARSE_FAILED := "HttpHeaderParseFailed"
  const INVALID_IP_PROTOCOL := "InvalidIpProtocol"
  const ZERO_PAYLOAD_LEN := "ZeroPayloadLen"

  /** `flags & bit != 0` for a single-bit mask. */
  predicate HasFlag(flags: u8, bit: nat)
    requires bit > 0
  {
    (flags / bit) % 2 == 1
  }

  predicate IsClientError(code: u16)
  {
    400 <= code <= 499
  }

  predicate IsServerError(code: u16)
  {
    500 <= code <= 599
  }

  /** The frame header of the last HTTP/2 frame read. */
  datatype Httpv2Headers = Httpv2Headers(frameLength: u32, frameType: u8, flags: u8, streamId: u32)

  /** A header of an HPACK-decoded header list: name and value. */
  type HeaderField = (seq<u8>, seq<u8>)

  /**
   * The functions of other files this one calls: is_http_v1_payload,
   * get_http_resp_info (its status code), check_http_method,
   * get_http_request_version, Httpv2Headers::parse_headers_frame and the
   * HPACK parser.
   */
  datatype HttpLib = HttpLib(
    isHttpV1Payload: seq<u8> -> bool,
    respStatus: string -> Result<u16>,
    checkMethod: string -> Result<()>,
    requestVersion: string -> Result<()>,
    parseHeadersFrame: seq<u8> -> Result<Httpv2Headers>,
    hpack: seq<u8> -> Result<seq<HeaderField>>)

  /** The packet parse reads: protocol, L4 payload (None when empty), timestamp and direction. */
  datatype Packet = Packet(proto: IpProtocol, payload: Option<seq<u8>>, timestamp: nat, direction: PacketDirection)

  /* ---------------- HTTP/1 lines ---------------- */

  /** `b as char`: a byte read as the code point of the same value. */
  function ByteChar(b: u8): (r: char)
    ensures r as int == b
  {
    b as char
  }

  /** The bytes as text, one character per byte. */
  function Chars(s: seq<u8>): (r: string)
    ensures |r| == |s| && forall k :: 0 <= k < |s| ==> r[k] == ByteChar(s[k])
  {
    seq(|s|, k requires 0 <= k < |s| => ByteChar(s[k]))
  }

  /**
   * parse_lines' state after the bytes `p`: the lines emitted so far and the
   * line being read. A '\n' after a '\r' at index 3 or later ends a line;
   * every other byte but '\r' joins the current line. Neither part ever
   * holds a '\r'.
   */
  function Scan(p: seq<u8>): (r: (seq<string>, string))
    ensures '\r' !in r.1 && forall k :: 0 <= k < |r.0| ==> '\r' !in r.0[k]
    decreases |p|
  {
    if |p| == 0 then ([], "")
    else
      var prev := Scan(p[..|p| - 1]);
      var i := |p| - 1;
      var ch := ByteChar(p[i]);
      if i > 2 && ch == '\n' && ByteChar(p[i - 1]) == '\r' then (prev.0 + [prev.1], "")
      else if ch != '\r' then (prev.0, prev.1 + [ch])
      else prev
  }

  /** parse_lines: the lines of the payload, without their CRLF. */
  method ParseLines(payload: seq<u8>) returns (lines: seq<string>)
    ensures lines == Scan(payload).0
  {
    lines := [];
    var line := "";
    var i := 0;
    while i < |payload|
      invariant 0 <= i <= |payload|
      invariant (lines, line) == Scan(payload[..i])
    {
      assert payload[..i + 1][..i] == payload[..i];
      var ch := ByteChar(payload[i]);
      if i > 2 && ch == '\n' && ByteChar(payload[i - 1]) == '\r' {
        lines := lines + [line];
        line := "";
      } else if ch != '\r' {
        line := line + [ch];
      }
      i := i + 1;
    }
    assert payload[..|payload|] == payload;
  }

  /** One more byte: what Scan does with the byte at index |p|. */
  lemma ScanStep(p: seq<u8>, b: u8)
    ensures Scan(p + [b]) ==
      if |p| > 2 && b == 10 && p[|p| - 1] == 13 then (Scan(p).0 + [Scan(p).1], "")
      else if b != 13 then (Scan(p).0, Scan(p).1 + [ByteChar(b)])
      else Scan(p)
  {
    assert (p + [b])[..|p|] == p;
    if |p| > 0 {
      assert (p + [b])[|p| - 1] == p[|p| - 1];
    }
  }

  /** Bytes without a '\n' only extend the current line: text after the last CRLF is never emitted. */
  lemma {:induction false} TrailingTextDropped(p: seq<u8>, t: seq<u8>)
    requires forall k :: 0 <= k < |t| ==> t[k] != 10
    ensures Scan(p + t).0 == Scan(p).0
    decreases |t|
  {
    if |t| > 0 {
      var t' := t[..|t| - 1];
      assert p + t == (p + t') + [t[|t| - 1]];
      TrailingTextDropped(p, t');
      ScanStep(p + t', t[|t| - 1]);
    } else {
      assert p + t == p;
    }
  }

  /** Bytes without '\r' or '\n' are appended to the current line as they are. */
  lemma {:induction false} TextExtendsLine(p: seq<u8>, l: seq<u8>)
    requires forall k :: 0 <= k < |l| ==> l[k] != 10 && l[k] != 13
    ensures Scan(p + l) == (Scan(p).0, Scan(p).1 + Chars(l))
    decreases |l|
  {
    if |l| > 0 {
      var l' := l[..|l| - 1];
      assert p + l == (p + l') + [l[|l| - 1]];
      var c := ByteChar(l[|l| - 1]);
      TextExtendsLine(p, l');
      ScanStep(p + l', l[|l| - 1]);
      assert Scan(p + l).1 == (Scan(p).1 + Chars(l')) + [c];
      assert Chars(l) == Chars(l') + [c];
      assert (Scan(p).1 + Chars(l')) + [c] == Scan(p).1 + Chars(l);
    } else {
      assert p + l == p;
      assert Scan(p).1 + Chars(l) == Scan(p).1;
    }
  }

  /**
   * A line of at least two bytes in all, free of '\r' and '\n' and ended by
   * CRLF, is emitted whole after the lines before it.
   */
  lemma LineEmitted(p: seq<u8>, l: seq<u8>)
    requires Scan(p).1 == ""
    requires forall k :: 0 <= k < |l| ==> l[k] != 10 && l[k] != 13
    requires |p| + |l| >= 2
    ensures Scan(p + l + [13, 10]) == (Scan(p).0 + [Chars(l)], "")
  {
    TextExtendsLine(p, l);
    assert Scan(p).1 + Chars(l) == Chars(l);
    CrlfEndsLine(p + l);
  }

  /** CRLF at index 3 or later ends the current line. */
  lemma CrlfEndsLine(q: seq<u8>)
    requires |q| >= 2
    ensures Scan(q + [13, 10]) == (Scan(q).0 + [Scan(q).1], "")
  {
    ScanStep(q, 13);
    var cr: seq<u8> := [13];
    var lf: seq<u8> := [10];
    var crlf: seq<u8> := [13, 10];
    var q' := q + cr;
    assert |q'| > 2 && q'[|q'| - 1] == 13;
    ScanStep(q', 10);
    assert crlf == cr + lf;
    assert q' + lf == q + crlf;
  }

  /* ---------------- Statistics ---------------- */

  /** The flow's counters; the RRT fields are durations. */
  datatype PerfStats = PerfStats(
    reqCount: u32, respCount: u32, reqErrCount: u32, respErrCount: u32, rrtCount: u32,
    rrtMax: nat, rrtLast: nat, rrtSum: nat)

  const ZERO_STATS := PerfStats(0, 0, 0, 0, 0, 0, 0, 0)

  /** The status a response code reports. */
  function ResponseStatus(code: u16): L7ResponseStatus
  {
    if IsClientError(code) then ClientError else if IsServerError(code) then ServerError else L7ResponseStatus.Ok
  }

  /** A client error counts as a request error, a server error as a response error. */
  function Classified(s: PerfStats, code: u16): PerfStats
  {
    if IsClientError(code) then s.(reqErrCount := AddU32(s.reqErrCount, 1))
    else if IsServerError(code) then s.(respErrCount := AddU32(s.respErrCount, 1))
    else s
  }

  /** Whether a response at `ts` measures an RRT: its request's time is cached and not later. */
  predicate Measured(req: Option<nat>, ts: nat)
  {
    req.Some? && req.value <= ts
  }

  function Recorded(s: PerfStats, rrt: nat): PerfStats
  {
    s.(rrtMax := if rrt > s.rrtMax then rrt else s.rrtMax, rrtLast := rrt, rrtSum := s.rrtSum + rrt,
       rrtCount := AddU32(s.rrtCount, 1))
  }

  /** The counters after an HTTP/1 response: every response is counted. */
  function V1Response(s: PerfStats, code: u16, req: Option<nat>, ts: nat): PerfStats
  {
    var c := Classified(s, code).(respCount := AddU32(s.respCount, 1), rrtLast := 0);
    if Measured(req, ts) then Recorded(c, ts - req.value) else c
  }

  /** The counters after an HTTP/2 response: only a response that measures an RRT is counted. */
  function V2Response(s: PerfStats, code: u16, req: Option<nat>, ts: nat): PerfStats
  {
    var c := Classified(s, code).(rrtLast := 0);
    if Measured(req, ts) then Recorded(c, ts - req.value).(respCount := AddU32(s.respCount, 1)) else c
  }

  /** The counters after a request. */
  function RequestStats(s: PerfStats): PerfStats
  {
    s.(reqCount := AddU32(s.reqCount, 1), rrtLast := 0)
  }

  /**
   * A response increments the request-error count exactly on a client error
   * and the response-error count exactly on a server error. It records an
   * RRT exactly when it is measured: the RRT is the time since the request,
   * the maximum becomes the larger one, the sum grows by it and the count
   * by one; otherwise the last RRT is zero and the rest unchanged. An HTTP/1
   * response is always counted, an HTTP/2 one only when measured, and the
   * two agree on every other counter.
   */
  lemma ResponseAccounting(s: PerfStats, code: u16, req: Option<nat>, ts: nat)
    ensures var v1 := V1Response(s, code, req, ts);
      (v1.reqErrCount == if IsClientError(code) then AddU32(s.reqErrCount, 1) else s.reqErrCount) &&
      (v1.respErrCount == if IsServerError(code) then AddU32(s.respErrCount, 1) else s.respErrCount) &&
      v1.reqCount == s.reqCount && v1.respCount == AddU32(s.respCount, 1) &&
      (Measured(req, ts) ==>
        var rrt := ts - req.value;
        v1.rrtLast == rrt && v1.rrtMax >= rrt && v1.rrtMax >= s.rrtMax && (v1.rrtMax == rrt || v1.rrtMax == s.rrtMax) &&
        v1.rrtSum == s.rrtSum + rrt && v1.rrtCount == AddU32(s.rrtCount, 1)) &&
      (!Measured(req, ts) ==>
        v1.rrtLast == 0 && v1.rrtMax == s.rrtMax && v1.rrtSum == s.rrtSum && v1.rrtCount == s.rrtCount)
    ensures var v2 := V2Response(s, code, req, ts);
      v2.respCount == (if Measured(req, ts) then AddU32(s.respCount, 1) else s.respCount) &&
      v2.(respCount := V1Response(s, code, req, ts).respCount) == V1Response(s, code, req, ts)
  {
  }

  /** The RRTs keep last ≤ max ≤ sum. */
  predicate RrtConsistent(s: PerfStats)
  {
    s.rrtLast <= s.rrtMax <= s.rrtSum
  }

  /** Every update keeps the RRTs consistent, starting from the zero counters. */
  lemma RrtConsistentPreserved(s: PerfStats, code: u16, req: Option<nat>, ts: nat)
    requires RrtConsistent(s)
    ensures RrtConsistent(ZERO_STATS)
    ensures RrtConsistent(V1Response(s, code, req, ts)) && RrtConsistent(V2Response(s, code, req, ts))
    ensures RrtConsistent(RequestStats(s))
  {
  }

  /** The key of a request time in the RRT cache: the flow, and the stream for HTTP/2. */
  type CacheKey = (u64, Option<u32>)

  function CachedTime(times: map<CacheKey, nat>, k: CacheKey): Option<nat>
  {
    if k in times then Some(times[k]) else None
  }

  /** The RRT cache shared by a flow's parsers: request times by flow and stream. */
  class RrtCache {
    var times: map<CacheKey, nat>

    constructor ()
      ensures times == map[]
    {
      times := map[];
    }

    /** add_req_time: caches the request's time, replacing an older one. */
    method AddReqTime(flowId: u64, streamId: Option<u32>, t: nat)
      modifies this
      ensures times == old(times)[(flowId, streamId) := t]
    {
      times := times[(flowId, streamId) := t];
    }

    /** get_and_remove_l7_req_time: takes the request's time out of the cache. */
    method GetAndRemoveReqTime(flowId: u64, streamId: Option<u32>) returns (r: Option<nat>)
      modifies this
      ensures r == CachedTime(old(times), (flowId, streamId))
      ensures times == old(times) - {(flowId, streamId)}
    {
      r := CachedTime(times, (flowId, streamId));
      times := times - {(flowId, streamId)};
    }
  }

  /* ---------------- HTTP/1 ---------------- */

  /** An HTTP/1 message line: a request, or a response with its status code. */
  datatype V1Line = V1Req | V1Resp(code: u16)

  /**
   * The first line of an HTTP/1 payload read in the packet's direction: a
   * response line gives its status code; a request line must split on
   * spaces into exactly three parts, a method and a version. Every failure
   * is an error.
   */
  function V1Head(lib: HttpLib, payload: seq<u8>, dir: PacketDirection): (r: Result<V1Line>)
    ensures r.Ok? ==> lib.isHttpV1Payload(payload) && |Scan(payload).0| > 0
    ensures r.Ok? ==> (r.value.V1Req? <==> dir == ClientToServer)
    ensures r.Ok? && dir == ClientToServer ==>
      var parts := Split(Scan(payload).0[0], ' ');
      |parts| == 3 && lib.checkMethod(parts[0]).Ok? && lib.requestVersion(parts[2]).Ok?
    ensures r.Ok? && dir == ServerToClient ==> lib.respStatus(Scan(payload).0[0]) == Result.Ok(r.value.code)
  {
    var lines := Scan(payload).0;
    if !lib.isHttpV1Payload(payload) || |lines| == 0 then Err(HEADER_PARSE_FAILED)
    else if dir == ServerToClient then
      match lib.respStatus(lines[0])
      case Err(e) => Err(e)
      case Ok(code) => Result.Ok(V1Resp(code))
    else
      var parts := Split(lines[0], ' ');
      if |parts| != 3 then Err(HEADER_PARSE_FAILED)
      else if lib.checkMethod(parts[0]).Err? then Err(lib.checkMethod(parts[0]).error)
      else if lib.requestVersion(parts[2]).Err? then Err(lib.requestVersion(parts[2]).error)
      else assert dir == ClientToServer; Result.Ok(V1Req)
  }

  /** Reading the first line of `GET / HTTP/1.1`-shaped requests: a line of two or four words is refused. */
  lemma RequestLineNeedsThreeParts(lib: HttpLib, payload: seq<u8>)
    requires lib.isHttpV1Payload(payload) && |Scan(payload).0| > 0
    requires |Split(Scan(payload).0[0], ' ')| != 3
    ensures V1Head(lib, payload, ClientToServer) == Err(HEADER_PARSE_FAILED)
  {
  }

  /* ---------------- HTTP/2 ---------------- */

  /**
   * has_magic: at least 24 bytes that start with "PRI * HTTP". (Bytes equal
   * to the ASCII prefix are valid UTF-8, and bytes that differ from it never
   * start with it, so the UTF-8 check changes nothing.)
   */
  function HasMagic(p: seq<u8>): bool
  {
    |p| >= HTTPV2_MAGIC_LENGTH && p[..|HTTPV2_MAGIC_PREFIX|] == HTTPV2_MAGIC_PREFIX
  }

  /** The connection preface of section 3.5 of RFC 7540: "PRI * HTTP/2.0\r\n\r\nSM\r\n\r\n". */
  const CONNECTION_PREFACE: seq<u8> := HTTPV2_MAGIC_PREFIX +
    [0x2f, 0x32, 0x2e, 0x30, 0x0d, 0x0a, 0x0d, 0x0a, 0x53, 0x4d, 0x0d, 0x0a, 0x0d, 0x0a]

  /**
   * The header block fragment of a HEADERS frame payload as offsets: a
   * padded frame starts one byte later and ends its pad length before the
   * frame length, which the pad length may not exceed; a frame with priority
   * starts five bytes later; the fragment must be non-empty in the payload
   * and lie inside it.
   */
  function HeadersSlice(h: Httpv2Headers, payload: seq<u8>): (r: Result<(nat, nat)>)
    requires HasFlag(h.flags, FLAG_HEADERS_PADDED) ==> |payload| > 0
    ensures r.Ok? ==>
      var (offset, end) := r.value;
      var padded := HasFlag(h.flags, FLAG_HEADERS_PADDED);
      offset == (if padded then 1 else 0) + (if HasFlag(h.flags, FLAG_HEADERS_PRIORITY) then 5 else 0) &&
      offset < |payload| && offset <= end <= |payload| &&
      (padded ==> payload[0] <= h.frameLength && end + payload[0] == h.frameLength) &&
      (!padded ==> end == h.frameLength)
    ensures r.Err? ==> r.error == HEADER_PARSE_FAILED
  {
    var padded := HasFlag(h.flags, FLAG_HEADERS_PADDED);
    if padded && payload[0] > h.frameLength then Err(HEADER_PARSE_FAILED)
    else
      var offset := (if padded then 1 else 0) + (if HasFlag(h.flags, FLAG_HEADERS_PRIORITY) then 5 else 0);
      if |payload| <= offset then Err(HEADER_PARSE_FAILED)
      else
        var end := h.frameLength - (if padded then payload[0] else 0);
        if end > |payload| || end < offset then Err(HEADER_PARSE_FAILED)
        else Result.Ok((offset, end))
  }

  const METHOD_NAME: seq<u8> := [0x3a, 0x6d, 0x65, 0x74, 0x68, 0x6f, 0x64]
  const STATUS_NAME: seq<u8> := [0x3a, 0x73, 0x74, 0x61, 0x74, 0x75, 0x73]

  /**
   * `from_utf8(v).unwrap_or_default().parse::<u16>().unwrap_or_default()`:
   * an optional '+' and at least one digit whose value fits 16 bits, else 0.
   */
  function StatusValue(v: seq<u8>): u16
  {
    var d := Chars(if |v| > 0 && v[0] == 0x2b then v[1..] else v);
    if |d| > 0 && AllDigits(d) && DigitsValue(d) < U16_MODULUS then DigitsValue(d) else 0
  }

  /** The status a header list gives: 0 at a ":method" header, the value of a ":status" header, whichever is first. */
  function FirstStatus(headers: seq<HeaderField>): (r: Result<u16>)
    ensures r.Err? <==> forall k :: 0 <= k < |headers| ==> headers[k].0 != METHOD_NAME && headers[k].0 != STATUS_NAME
  {
    if |headers| == 0 then Err(HEADER_PARSE_FAILED)
    else if headers[0].0 == METHOD_NAME then Result.Ok(0)
    else if headers[0].0 == STATUS_NAME then Result.Ok(StatusValue(headers[0].1))
    else FirstStatus(headers[1..])
  }

  /** parse_headers_frame_payload: the status of the HEADERS frame's header block. */
  function HeadersStatus(h: Httpv2Headers, payload: seq<u8>, lib: HttpLib): Result<u16>
    requires HasFlag(h.flags, FLAG_HEADERS_PADDED) ==> |payload| > 0
  {
    var slice := HeadersSlice(h, payload);
    if slice.Err? then Err(slice.error)
    else
      var decoded := lib.hpack(payload[slice.value.0..slice.value.1]);
      if decoded.Err? then Err(HEADER_PARSE_FAILED) else FirstStatus(decoded.value)
  }

  /**
   * parse_frame: the frame header left behind and the status found. The
   * walk skips connection prefaces, reads the frame header, and at the first
   * HEADERS frame reads its payload (a HEADERS frame on stream 0 is an
   * error); any other frame is skipped whole, and a walk that would leave
   * no bytes, or that runs out of frame headers, fails.
   */
  function FrameWalk(h: Httpv2Headers, fp: seq<u8>, lib: HttpLib): (Httpv2Headers, Result<u16>)
    decreases |fp|
  {
    if |fp| <= H2C_HEADER_SIZE then (h, Err(HEADER_PARSE_FAILED))
    else if HasMagic(fp) then FrameWalk(h, fp[HTTPV2_MAGIC_LENGTH..], lib)
    else
      var parsed := lib.parseHeadersFrame(fp);
      if parsed.Err? then (h, Err(parsed.error))
      else
        var next := parsed.value;
        if next.frameType == FRAME_HEADERS then
          if next.streamId == 0 then (next, Err(HEADER_PARSE_FAILED))
          else (next, HeadersStatus(next, fp[H2C_HEADER_SIZE..], lib))
        else
          var offset := next.frameLength + H2C_HEADER_SIZE;
          if |fp| <= offset then (next, Err(HEADER_PARSE_FAILED))
          else FrameWalk(next, fp[offset..], lib)
  }

  /** A connection preface in front of the frames is skipped. */
  lemma PrefaceSkipped(h: Httpv2Headers, rest: seq<u8>, lib: HttpLib)
    ensures FrameWalk(h, CONNECTION_PREFACE + rest, lib) == FrameWalk(h, rest, lib)
  {
    var fp := CONNECTION_PREFACE + rest;
    assert fp[..|HTTPV2_MAGIC_PREFIX|] == HTTPV2_MAGIC_PREFIX;
    assert fp[HTTPV2_MAGIC_LENGTH..] == rest;
  }

  /** At `j` starts a frame whose header is `last` and whose payload gives `r`. */
  predicate HeadersFrameAt(fp: seq<u8>, j: nat, last: Httpv2Headers, r: Result<u16>, lib: HttpLib)
    requires j + H2C_HEADER_SIZE < |fp|
  {
    lib.parseHeadersFrame(fp[j..]) == Result.Ok(last) &&
    (HasFlag(last.flags, FLAG_HEADERS_PADDED) ==> |fp[j + H2C_HEADER_SIZE..]| > 0) &&
    r == HeadersStatus(last, fp[j + H2C_HEADER_SIZE..], lib)
  }

  /**
   * A walk that finds a status stops at a HEADERS frame on a non-zero
   * stream, and the status is that frame's, read from some suffix of the
   * payload.
   */
  lemma {:induction false} WalkFindsHeaders(h: Httpv2Headers, fp: seq<u8>, lib: HttpLib)
    ensures var (last, r) := FrameWalk(h, fp, lib);
      r.Ok? ==>
        last.frameType == FRAME_HEADERS && last.streamId != 0 &&
        exists j :: 0 <= j < |fp| - H2C_HEADER_SIZE && HeadersFrameAt(fp, j, last, r, lib)
    decreases |fp|
  {
    var (last, r) := FrameWalk(h, fp, lib);
    if r.Ok? {
      if HasMagic(fp) {
        var rest := fp[HTTPV2_MAGIC_LENGTH..];
        assert FrameWalk(h, fp, lib) == FrameWalk(h, rest, lib);
        WalkFindsHeaders(h, rest, lib);
        var j :| 0 <= j < |rest| - H2C_HEADER_SIZE && HeadersFrameAt(rest, j, last, r, lib);
        FoundInSuffix(fp, HTTPV2_MAGIC_LENGTH, j, last, r, lib);
      } else {
        var next := lib.parseHeadersFrame(fp).value;
        if next.frameType == FRAME_HEADERS {
          assert fp[0..] == fp;
          assert HeadersFrameAt(fp, 0, last, r, lib);
        } else {
          var offset := next.frameLength + H2C_HEADER_SIZE;
          var rest := fp[offset..];
          assert FrameWalk(h, fp, lib) == FrameWalk(next, rest, lib);
          WalkFindsHeaders(next, rest, lib);
          var j :| 0 <= j < |rest| - H2C_HEADER_SIZE && HeadersFrameAt(rest, j, last, r, lib);
          FoundInSuffix(fp, offset, j, last, r, lib);
        }
      }
    }
  }

  lemma FoundInSuffix(fp: seq<u8>, k: nat, j: nat, last: Httpv2Headers, r: Result<u16>, lib: HttpLib)
    requires k + j + H2C_HEADER_SIZE < |fp|
    requires HeadersFrameAt(fp[k..], j, last, r, lib)
    ensures HeadersFrameAt(fp, k + j, last, r, lib)
  {
    assert fp[k..][j..] == fp[k + j..];
    assert fp[k..][j + H2C_HEADER_SIZE..] == fp[k + j + H2C_HEADER_SIZE..];
  }

  /* ---------------- The flow's parser ---------------- */

  /** HttpSessionData, without the shared RRT cache. */
  datatype SessionData = SessionData(
    h2: Httpv2Headers, status: L7ResponseStatus, statusCode: u16, hasLogData: bool,
    l7Proto: L7Protocol, msgType: LogMessageType)

  const INITIAL_SESSION := SessionData(Httpv2Headers(0, 0, 0, 0), L7ResponseStatus.Ok, 0, false, Unknown, Other)

  /** L7PerfStats; RRTs in microseconds. */
  datatype L7PerfStats = L7PerfStats(
    requestCount: u32, responseCount: u32, rrtCount: u32, rrtSum: u64, rrtMax: u32,
    errClientCount: u32, errServerCount: u32, errTimeout: u32)

  /** FlowPerfStats, for its L7 fields. */
  datatype FlowPerfStats = FlowPerfStats(l7Protocol: L7Protocol, l7: L7PerfStats)

  /**
   * The statistics handed over: the counters, with the RRT sum and maximum
   * truncated to whole microseconds and cut to their widths; without
   * counters only the timeout count.
   */
  function Snapshot(stats: Option<PerfStats>, proto: L7Protocol, timeoutCount: u32): (r: FlowPerfStats)
    ensures r.l7Protocol == proto && r.l7.errTimeout == timeoutCount
    ensures stats.None? ==> r.l7 == L7PerfStats(0, 0, 0, 0, 0, 0, 0, timeoutCount)
    ensures stats.Some? ==>
      var s := stats.value;
      r.l7.requestCount == s.reqCount && r.l7.responseCount == s.respCount && r.l7.rrtCount == s.rrtCount &&
      r.l7.errClientCount == s.reqErrCount && r.l7.errServerCount == s.respErrCount &&
      (s.rrtMax < 1000 * U32_MODULUS ==> r.l7.rrtMax * 1000 <= s.rrtMax < (r.l7.rrtMax + 1) * 1000) &&
      (s.rrtSum < 1000 * U64_MODULUS ==> r.l7.rrtSum * 1000 <= s.rrtSum < (r.l7.rrtSum + 1) * 1000)
  {
    if stats.None? then FlowPerfStats(proto, L7PerfStats(0, 0, 0, 0, 0, 0, 0, timeoutCount))
    else
      var s := stats.value;
      FlowPerfStats(proto, L7PerfStats(s.reqCount, s.respCount, s.rrtCount, WrapU64(s.rrtSum / 1000),
                                       (s.rrtMax / 1000) % U32_MODULUS, s.reqErrCount, s.respErrCount, timeoutCount))
  }

  /** What a parse reads and leaves: the counters, the session data and the shared RRT cache's times. */
  datatype PerfState = PerfState(stats: Option<PerfStats>, session: SessionData, times: map<CacheKey, nat>)

  /**
   * parse_http_v1 on a state: a refused head changes nothing; a response sets
   * the message type, code and status and takes the flow's request time out
   * of the cache; a request counts and caches its time.
   */
  function V1Step(lib: HttpLib, payload: seq<u8>, dir: PacketDirection, ts: nat, flowId: u64, s: PerfState)
    : (Result<()>, PerfState)
  {
    var head := V1Head(lib, payload, dir);
    var stats := s.stats.GetOr(ZERO_STATS);
    var key := (flowId, None);
    if head.Err? then (Err(head.error), s)
    else if head.value.V1Resp? then
      var code := head.value.code;
      (Result.Ok(()), PerfState(Some(V1Response(stats, code, CachedTime(s.times, key), ts)),
                                s.session.(msgType := Response, statusCode := code, status := ResponseStatus(code)),
                                s.times - {key}))
    else (Result.Ok(()), PerfState(Some(RequestStats(stats)), s.session.(msgType := Request), s.times[key := ts]))
  }

  /**
   * parse_http_v2 on a state: the frame walk's last frame header is kept even
   * when it fails; then as for HTTP/1, keyed by the HEADERS frame's stream.
   */
  function V2Step(lib: HttpLib, payload: seq<u8>, dir: PacketDirection, ts: nat, flowId: u64, s: PerfState)
    : (Result<()>, PerfState)
  {
    var walk := FrameWalk(s.session.h2, payload, lib);
    var h2 := walk.0;
    var stats := s.stats.GetOr(ZERO_STATS);
    var key := (flowId, Some(h2.streamId));
    if walk.1.Err? then (Err(walk.1.error), s.(session := s.session.(h2 := h2)))
    else if dir == ServerToClient then
      var code := walk.1.value;
      (Result.Ok(()), PerfState(Some(V2Response(stats, code, CachedTime(s.times, key), ts)),
                                s.session.(h2 := h2, msgType := Response, statusCode := code, status := ResponseStatus(code)),
                                s.times - {key}))
    else (Result.Ok(()), PerfState(Some(RequestStats(stats)), s.session.(h2 := h2, msgType := Request), s.times[key := ts]))
  }

  /** parse on a state: TCP only, a payload needed, HTTP/1 tried first and HTTP/2 on the state it leaves. */
  function ParseStep(lib: HttpLib, packet: Packet, flowId: u64, s: PerfState): (Result<()>, PerfState)
  {
    if packet.proto != Tcp then (Err(INVALID_IP_PROTOCOL), s)
    else if packet.payload.None? then (Err(ZERO_PAYLOAD_LEN), s)
    else
      var v1 := V1Step(lib, packet.payload.value, packet.direction, packet.timestamp, flowId, s);
      if v1.0.Ok? then (Result.Ok(()), v1.1.(session := v1.1.session.(hasLogData := true, l7Proto := Http1)))
      else
        var v2 := V2Step(lib, packet.payload.value, packet.direction, packet.timestamp, flowId, v1.1);
        if v2.0.Ok? then (Result.Ok(()), v2.1.(session := v2.1.session.(hasLogData := true, l7Proto := Http2)))
        else (Err(HEADER_PARSE_FAILED), v2.1)
  }

  /**
   * A TCP payload parses iff it reads as HTTP/1 or as HTTP/2 from the state
   * before the parse (a refused HTTP/1 head changes nothing); the counters
   * and the cache are HTTP/1's when it reads as HTTP/1 and HTTP/2's
   * otherwise, and log data is marked with the version that succeeded.
   */
  lemma ParseOutcome(lib: HttpLib, packet: Packet, flowId: u64, s: PerfState)
    requires packet.proto == Tcp && packet.payload.Some?
    ensures var p := packet.payload.value;
      var r := ParseStep(lib, packet, flowId, s);
      var v1 := V1Step(lib, p, packet.direction, packet.timestamp, flowId, s);
      var v2 := V2Step(lib, p, packet.direction, packet.timestamp, flowId, s);
      (r.0.Ok? <==> v1.0.Ok? || v2.0.Ok?) && (r.0.Err? ==> r.0 == Err(HEADER_PARSE_FAILED)) &&
      (v1.0.Ok? ==> r.1 == v1.1.(session := v1.1.session.(hasLogData := true, l7Proto := Http1))) &&
      (v1.0.Err? && v2.0.Ok? ==> r.1 == v2.1.(session := v2.1.session.(hasLogData := true, l7Proto := Http2))) &&
      (v1.0.Err? && v2.0.Err? ==> r.1 == v2.1 && r.1.stats == s.stats && r.1.times == s.times)
  {
    var v1 := V1Step(lib, packet.payload.value, packet.direction, packet.timestamp, flowId, s);
    if v1.0.Err? {
      assert v1.1 == s;
    }
  }

  /**
   * An HTTP/1 request and then its response on the same flow: the response
   * measures the time between them, takes the request's time out of the
   * cache, and both are counted.
   */
  lemma V1RequestThenResponse(lib: HttpLib, req: seq<u8>, resp: seq<u8>, t1: nat, t2: nat, flowId: u64, s: PerfState)
    requires V1Head(lib, req, ClientToServer).Ok? && V1Head(lib, resp, ServerToClient).Ok? && t1 <= t2
    ensures var s1 := V1Step(lib, req, ClientToServer, t1, flowId, s).1;
      var s2 := V1Step(lib, resp, ServerToClient, t2, flowId, s1).1;
      var before := s.stats.GetOr(ZERO_STATS);
      s2.stats.Some? && s2.stats.value.rrtLast == t2 - t1 && (flowId, None) !in s2.times &&
      s2.stats.value.reqCount == AddU32(before.reqCount, 1) &&
      s2.stats.value.respCount == AddU32(before.respCount, 1) &&
      s2.stats.value.rrtCount == AddU32(before.rrtCount, 1) && s2.stats.value.rrtSum == before.rrtSum + (t2 - t1)
  {
    var s1 := V1Step(lib, req, ClientToServer, t1, flowId, s).1;
    assert s1.times[(flowId, None)] == t1;
    ResponseAccounting(s1.stats.value, V1Head(lib, resp, ServerToClient).value.code, Some(t1), t2);
  }

  /**
   * An HTTP/2 request and then a response on the same stream of the same
   * flow: the response measures the time between them and is counted.
   */
  lemma V2RequestThenResponse(lib: HttpLib, req: seq<u8>, resp: seq<u8>, t1: nat, t2: nat, flowId: u64, s: PerfState)
    requires FrameWalk(s.session.h2, req, lib).1.Ok? && t1 <= t2
    requires var s1 := V2Step(lib, req, ClientToServer, t1, flowId, s).1;
      FrameWalk(s1.session.h2, resp, lib).1.Ok? &&
      FrameWalk(s1.session.h2, resp, lib).0.streamId == FrameWalk(s.session.h2, req, lib).0.streamId
    ensures var s1 := V2Step(lib, req, ClientToServer, t1, flowId, s).1;
      var s2 := V2Step(lib, resp, ServerToClient, t2, flowId, s1).1;
      var before := s.stats.GetOr(ZERO_STATS);
      var key := (flowId, Some(FrameWalk(s.session.h2, req, lib).0.streamId));
      s2.stats.Some? && s2.stats.value.rrtLast == t2 - t1 && key !in s2.times &&
      s2.stats.value.reqCount == AddU32(before.reqCount, 1) &&
      s2.stats.value.respCount == AddU32(before.respCount, 1) && s2.stats.value.rrtSum == before.rrtSum + (t2 - t1)
  {
    var s1 := V2Step(lib, req, ClientToServer, t1, flowId, s).1;
    var key := (flowId, Some(FrameWalk(s.session.h2, req, lib).0.streamId));
    assert s1.times[key] == t1;
    ResponseAccounting(s1.stats.value, FrameWalk(s1.session.h2, resp, lib).1.value, Some(t1), t2);
  }

  /** A response with no cached request time records no RRT and leaves the cache as it was. */
  lemma V1ResponseWithoutRequest(lib: HttpLib, resp: seq<u8>, t: nat, flowId: u64, s: PerfState)
    requires V1Head(lib, resp, ServerToClient).Ok? && (flowId, None) !in s.times
    ensures var s1 := V1Step(lib, resp, ServerToClient, t, flowId, s).1;
      var before := s.stats.GetOr(ZERO_STATS);
      s1.times == s.times && s1.stats.Some? && s1.stats.value.rrtLast == 0 &&
      s1.stats.value.rrtCount == before.rrtCount && s1.stats.value.rrtSum == before.rrtSum &&
      s1.stats.value.respCount == AddU32(before.respCount, 1)
  {
    ResponseAccounting(s.stats.GetOr(ZERO_STATS), V1Head(lib, resp, ServerToClient).value.code, None, t);
    assert s.times - {(flowId, None)} == s.times;
  }

  /** HttpPerfData: the counters, the session data and the shared RRT cache. */
  class HttpPerfData {
    var perfStats: Option<PerfStats>
    var session: SessionData
    const rrtCache: RrtCache

    constructor (rrtCache: RrtCache)
      ensures this.rrtCache == rrtCache && perfStats.None? && session == INITIAL_SESSION
    {
      this.rrtCache := rrtCache;
      perfStats := None;
      session := INITIAL_SESSION;
    }

    /** The counters, the session data and the cache's request times. */
    function State(): PerfState
      reads this, rrtCache
    {
      PerfState(perfStats, session, rrtCache.times)
    }

    /** data_updated: whether there are counters to hand over. */
    function DataUpdated(): bool
      reads this
    {
      perfStats.Some?
    }

    /**
     * parse: only TCP payloads are read; an HTTP/1 reading is tried first,
     * then HTTP/2, and the one that succeeds marks log data of its version.
     */
    method Parse(packet: Packet, flowId: u64, lib: HttpLib) returns (r: Result<()>)
      modifies this, rrtCache
      ensures (r, State()) == ParseStep(lib, packet, flowId, old(State()))
    {
      if packet.proto != Tcp {
        return Err(INVALID_IP_PROTOCOL);
      }
      if packet.payload.None? {
        return Err(ZERO_PAYLOAD_LEN);
      }
      var payload := packet.payload.value;
      var v1 := ParseHttpV1(payload, packet.timestamp, packet.direction, flowId, lib);
      if v1.Ok? {
        session := session.(hasLogData := true, l7Proto := Http1);
        return Result.Ok(());
      }
      var v2 := ParseHttpV2(payload, packet.timestamp, packet.direction, flowId, lib);
      if v2.Ok? {
        session := session.(hasLogData := true, l7Proto := Http2);
        return Result.Ok(());
      }
      return Err(HEADER_PARSE_FAILED);
    }

    /**
     * parse_http_v1: a response sets the message type and status and
     * updates the counters with the RRT of the cached request, which it
     * takes out of the cache; a request counts and caches its time. A
     * payload it refuses changes nothing.
     */
    method ParseHttpV1(payload: seq<u8>, timestamp: nat, direction: PacketDirection, flowId: u64, lib: HttpLib)
      returns (r: Result<()>)
      modifies this, rrtCache
      ensures (r, State()) == V1Step(lib, payload, direction, timestamp, flowId, old(State()))
      ensures var head := V1Head(lib, payload, direction);
        var stats := old(perfStats).GetOr(ZERO_STATS);
        var key := (flowId, None);
        (head.Err? ==> r == Err(head.error) && unchanged(this) && unchanged(rrtCache)) &&
        (head.Ok? && head.value.V1Resp? ==>
          var code := head.value.code;
          r.Ok? &&
          session == old(session).(msgType := Response, statusCode := code, status := ResponseStatus(code)) &&
          perfStats == Some(V1Response(stats, code, CachedTime(old(rrtCache.times), key), timestamp)) &&
          rrtCache.times == old(rrtCache.times) - {key}) &&
        (head.Ok? && head.value.V1Req? ==>
          r.Ok? && session == old(session).(msgType := Request) && perfStats == Some(RequestStats(stats)) &&
          rrtCache.times == old(rrtCache.times)[key := timestamp])
    {
      if !lib.isHttpV1Payload(payload) {
        return Err(HEADER_PARSE_FAILED);
      }
      var lines := ParseLines(payload);
      if |lines| == 0 {
        return Err(HEADER_PARSE_FAILED);
      }
      var lineInfo := lines[0];
      if direction == ServerToClient {
        var info := lib.respStatus(lineInfo);
        if info.Err? {
          return Err(info.error);
        }
        var code := info.value;
        session := session.(msgType := Response);
        var stats := perfStats.GetOr(ZERO_STATS);
        session := session.(statusCode := code);
        if IsClientError(code) {
          stats := stats.(reqErrCount := AddU32(stats.reqErrCount, 1));
          session := session.(status := ClientError);
        } else if IsServerError(code) {
          stats := stats.(respErrCount := AddU32(stats.respErrCount, 1));
          session := session.(status := ServerError);
        } else {
          session := session.(status := L7ResponseStatus.Ok);
        }
        stats := stats.(respCount := AddU32(stats.respCount, 1), rrtLast := 0);
        perfStats := Some(stats);
        var reqTimestamp := rrtCache.GetAndRemoveReqTime(flowId, None);
        if reqTimestamp.None? || timestamp < reqTimestamp.value {
          return Result.Ok(());
        }
        perfStats := Some(Recorded(stats, timestamp - reqTimestamp.value));
      } else {
        var context := Split(lineInfo, ' ');
        if |context| != 3 {
          return Err(HEADER_PARSE_FAILED);
        }
        var method_ := lib.checkMethod(context[0]);
        if method_.Err? {
          return Err(method_.error);
        }
        var version := lib.requestVersion(context[2]);
        if version.Err? {
          return Err(version.error);
        }
        session := session.(msgType := Request);
        perfStats := Some(RequestStats(perfStats.GetOr(ZERO_STATS)));
        rrtCache.AddReqTime(flowId, None, timestamp);
      }
      return Result.Ok(());
    }

    /**
     * parse_http_v2: walks the frames (which leaves the last frame header
     * read even when it fails); a response then sets the message type and
     * status and updates the counters with the RRT of the stream's cached
     * request, a request counts and caches its time under its stream.
     */
    method ParseHttpV2(payload: seq<u8>, timestamp: nat, direction: PacketDirection, flowId: u64, lib: HttpLib)
      returns (r: Result<()>)
      modifies this, rrtCache
      ensures (r, State()) == V2Step(lib, payload, direction, timestamp, flowId, old(State()))
      ensures var (h2, status) := FrameWalk(old(session.h2), payload, lib);
        var stats := old(perfStats).GetOr(ZERO_STATS);
        var key := (flowId, Some(h2.streamId));
        (status.Err? ==>
          r == Err(status.error) && session == old(session).(h2 := h2) &&
          perfStats == old(perfStats) && unchanged(rrtCache)) &&
        (status.Ok? && direction == ServerToClient ==>
          var code := status.value;
          r.Ok? &&
          session == old(session).(h2 := h2, msgType := Response, statusCode := code, status := ResponseStatus(code)) &&
          perfStats == Some(V2Response(stats, code, CachedTime(old(rrtCache.times), key), timestamp)) &&
          rrtCache.times == old(rrtCache.times) - {key}) &&
        (status.Ok? && direction == ClientToServer ==>
          r.Ok? && session == old(session).(h2 := h2, msgType := Request) && perfStats == Some(RequestStats(stats)) &&
          rrtCache.times == old(rrtCache.times)[key := timestamp])
    {
      var status := ParseFrame(payload, lib);
      if status.Err? {
        return Err(status.error);
      }
      var code := status.value;
      if direction == ServerToClient {
        session := session.(msgType := Response);
        var stats := perfStats.GetOr(ZERO_STATS);
        session := session.(statusCode := code);
        if IsClientError(code) {
          stats := stats.(reqErrCount := AddU32(stats.reqErrCount, 1));
          session := session.(status := ClientError);
        } else if IsServerError(code) {
          stats := stats.(respErrCount := AddU32(stats.respErrCount, 1));
          session := session.(status := ServerError);
        } else {
          session := session.(status := L7ResponseStatus.Ok);
        }
        stats := stats.(rrtLast := 0);
        perfStats := Some(stats);
        var reqTimestamp := rrtCache.GetAndRemoveReqTime(flowId, Some(session.h2.streamId));
        if reqTimestamp.None? || timestamp < reqTimestamp.value {
          return Result.Ok(());
        }
        stats := Recorded(stats, timestamp - reqTimestamp.value);
        perfStats := Some(stats.(respCount := AddU32(stats.respCount, 1)));
      } else {
        session := session.(msgType := Request);
        perfStats := Some(RequestStats(perfStats.GetOr(ZERO_STATS)));
        rrtCache.AddReqTime(flowId, Some(session.h2.streamId), timestamp);
      }
      return Result.Ok(());
    }

    /** parse_frame, which keeps each frame header it reads in the session data. */
    method ParseFrame(payload: seq<u8>, lib: HttpLib) returns (r: Result<u16>)
      modifies this
      ensures (session.h2, r) == FrameWalk(old(session.h2), payload, lib)
      ensures session == old(session).(h2 := session.h2) && perfStats == old(perfStats)
    {
      var framePayload := payload;
      while |framePayload| > H2C_HEADER_SIZE
        invariant FrameWalk(session.h2, framePayload, lib) == FrameWalk(old(session.h2), payload, lib)
        invariant session == old(session).(h2 := session.h2) && perfStats == old(perfStats)
        decreases |framePayload|
      {
        if HasMagic(framePayload) {
          framePayload := framePayload[HTTPV2_MAGIC_LENGTH..];
          continue;
        }
        var parsed := lib.parseHeadersFrame(framePayload);
        if parsed.Err? {
          return Err(parsed.error);
        }
        session := session.(h2 := parsed.value);
        if session.h2.frameType == FRAME_HEADERS {
          if session.h2.streamId == 0 {
            return Err(HEADER_PARSE_FAILED);
          }
          framePayload := framePayload[H2C_HEADER_SIZE..];
          r := ParseHeadersFramePayload(framePayload, lib);
          return;
        }
        var offset := session.h2.frameLength + H2C_HEADER_SIZE;
        if |framePayload| <= offset {
          return Err(HEADER_PARSE_FAILED);
        }
        framePayload := framePayload[offset..];
      }
      return Err(HEADER_PARSE_FAILED);
    }

    /** parse_headers_frame_payload, for the frame header last read. */
    method ParseHeadersFramePayload(payload: seq<u8>, lib: HttpLib) returns (r: Result<u16>)
      requires HasFlag(session.h2.flags, FLAG_HEADERS_PADDED) ==> |payload| > 0
      ensures r == HeadersStatus(session.h2, payload, lib)
    {
      var slice := HeadersSlice(session.h2, payload);
      if slice.Err? {
        return Err(slice.error);
      }
      var decoded := lib.hpack(payload[slice.value.0..slice.value.1]);
      if decoded.Err? {
        return Err(HEADER_PARSE_FAILED);
      }
      var headers := decoded.value;
      var i := 0;
      while i < |headers|
        invariant 0 <= i <= |headers|
        invariant FirstStatus(headers[i..]) == FirstStatus(headers)
      {
        if headers[i].0 == METHOD_NAME {
          return Result.Ok(0);
        }
        if headers[i].0 == STATUS_NAME {
          return Result.Ok(StatusValue(headers[i].1));
        }
        assert headers[i..][1..] == headers[i + 1..];
        i := i + 1;
      }
      return Err(HEADER_PARSE_FAILED);
    }

    /** copy_and_reset_data: hands over the counters and clears them. */
    method CopyAndResetData(timeoutCount: u32) returns (r: FlowPerfStats)
      modifies this
      ensures r == Snapshot(old(perfStats), session.l7Proto, timeoutCount)
      ensures perfStats.None? && !DataUpdated() && session == old(session)
    {
      var stats := perfStats;
      perfStats := None;
      r := Snapshot(stats, session.l7Proto, timeoutCount);
    }

    /**
     * app_proto_head: for HTTP/1 or HTTP/2 log data, the head of the last
     * message, with the last RRT in microseconds; it then clears the log-data
     * mark, so the head is given once. Otherwise nothing.
     */
    method AppProtoHeadOf() returns (r: Option<(AppProtoHead, u16)>)
      modifies this
      ensures var wanted := (old(session.l7Proto) == Http1 || old(session.l7Proto) == Http2) && old(session.hasLogData);
        (!wanted ==> r.None? && session == old(session)) &&
        (wanted ==>
          var rrt := if perfStats.Some? then WrapU64(perfStats.value.rrtLast / 1000) else 0;
          session == old(session).(hasLogData := false) &&
          r == Some((AppProtoHead(session.l7Proto, session.msgType, session.status, session.statusCode, rrt, 0), 0)))
      ensures perfStats == old(perfStats)
    {
      if (session.l7Proto != Http1 && session.l7Proto != Http2) || !session.hasLogData {
        return None;
      }
      session := session.(hasLogData := false);
      var rrt := if perfStats.Some? then WrapU64(perfStats.value.rrtLast / 1000) else 0;
      return Some((AppProtoHead(session.l7Proto, session.msgType, session.status, session.statusCode, rrt, 0), 0));
    }
  }
}
