/**
 * The agent's uniform sender, without its transport: the Encoder that packs
 * send items into a frame (a 19-byte header, then each item's encoding
 * behind a 4-byte length slot), and the sender's decisions to flush the
 * frame and to reconnect.
 */
module UniformSender {
  import opened Wrappers
  import opened FixedWidth

  /** The Encoder's buffer capacity; a frame longer than this is flushed. */
  const BUFFER_LEN: nat := 8192

  /** The frame header. */
  datatype Header = Header(frameSize: u32, msgType: u8, version: u32, sequence: u64, vtapId: u16)

  /** An item to send: its message type, its encoder version, and its encoding (Err when encoding fails). */
  datatype SendItem = SendItem(messageType: u8, version: u32, encoded: Result<seq<u8>>)

  /** Header::encode: frame size big-endian, message type, then version, sequence and vtap id little-endian. */
  function HeaderBytes(h: Header): (r: seq<u8>)
    ensures |r| == 19
  {
    BeBytes(h.frameSize, 4) + HeaderTail(h)
  }

  /** The 15 header bytes after the frame size. */
  function HeaderTail(h: Header): (r: seq<u8>)
    ensures |r| == 15
  {
    [h.msgType] + LeBytes(h.version, 4) + LeBytes(h.sequence, 8) + LeBytes(h.vtapId, 2)
  }

  lemma {:induction false} LeValueBound(s: seq<u8>)
    ensures LeValue(s) < Pow256(|s|)
  {
    if s != [] {
      LeValueBound(s[1..]);
    }
  }

  lemma {:induction false} BeValueBound(s: seq<u8>)
    ensures BeValue(s) < Pow256(|s|)
  {
    if s != [] {
      BeValueBound(s[..|s| - 1]);
    }
  }

  /** The receiving side's reading of the first 19 bytes of a frame. */
  function DecodeHeader(b: seq<u8>): Header
    requires |b| >= 19
  {
    LeValueBound(b[5..9]);
    LeValueBound(b[9..17]);
    LeValueBound(b[17..19]);
    BeValueBound(b[..4]);
    assert Pow256(2) == 0x1_0000 && Pow256(4) == 0x1_0000_0000 && Pow256(8) == 0x1_0000_0000_0000_0000;
    Header(BeValue(b[..4]), b[4], LeValue(b[5..9]), LeValue(b[9..17]), LeValue(b[17..19]))
  }

  /** Every header field is read back from the 19 bytes Header::encode writes, even behind more bytes. */
  lemma HeaderRoundTrip(h: Header, rest: seq<u8>)
    ensures DecodeHeader(HeaderBytes(h) + rest) == h
  {
    var b := HeaderBytes(h) + rest;
    assert Pow256(2) == 0x1_0000 && Pow256(4) == 0x1_0000_0000 && Pow256(8) == 0x1_0000_0000_0000_0000;
    assert b[..4] == BeBytes(h.frameSize, 4);
    assert b[5..9] == LeBytes(h.version, 4);
    assert b[9..17] == LeBytes(h.sequence, 8);
    assert b[17..19] == LeBytes(h.vtapId, 2);
    BeRoundTrip(h.frameSize, 4);
    LeRoundTrip(h.version, 4);
    LeRoundTrip(h.sequence, 8);
    LeRoundTrip(h.vtapId, 2);
  }

  /**
   * The slot of one item: its encoded size (truncated to 32 bits) in little
   * endian, then its encoding; a zero size and nothing else when encoding
   * fails.
   */
  function Slot(s: SendItem): (r: seq<u8>)
    ensures |r| >= 4
    ensures s.encoded.Ok? ==> LeValue(r[..4]) == |s.encoded.value| % U32_MODULUS && r[4..] == s.encoded.value
    ensures s.encoded.Err? ==> r == [0, 0, 0, 0] && LeValue(r) == 0
  {
    if s.encoded.Ok? then
      var size := |s.encoded.value| % U32_MODULUS;
      assert Pow256(4) == U32_MODULUS;
      LeRoundTrip(size, 4);
      assert (LeBytes(size, 4) + s.encoded.value)[..4] == LeBytes(size, 4);
      LeBytes(size, 4) + s.encoded.value
    else [0, 0, 0, 0]
  }

  /** The slots of the items cached since the frame began, in order. */
  function Slots(items: seq<SendItem>): seq<u8>
  {
    if items == [] then [] else Slots(items[..|items| - 1]) + Slot(items[|items| - 1])
  }

  /** Appending to a frame keeps its first four bytes apart from the rest. */
  lemma FramedAppend(framed: seq<u8>, tail: seq<u8>, slots: seq<u8>, slot: seq<u8>)
    requires |framed| >= 4 && framed[4..] == tail + slots
    ensures (framed + slot)[4..] == tail + (slots + slot)
  {
    assert (framed + slot)[4..] == framed[4..] + slot;
  }

  /** Writing the size over the four placeholder bytes of a slot leaves the frame before it and the encoding after it. */
  lemma SizePatched(before: seq<u8>, size: seq<u8>, encoded: seq<u8>)
    requires |size| == 4
    ensures var b := before + [0, 0, 0, 0] + encoded;
      b[..|before|] + size + b[|before| + 4..] == before + (size + encoded)
  {
    var b := before + [0, 0, 0, 0] + encoded;
    assert b[..|before|] == before;
    assert b[|before| + 4..] == encoded;
  }

  /** set_msg_type_and_version: the item's type and version are adopted only while the version is still 0. */
  function Adopt(h: Header, s: SendItem): (r: Header)
    ensures h.version != 0 ==> r == h
    ensures h.version == 0 ==> r.msgType == s.messageType && r.version == s.version
    ensures r.frameSize == h.frameSize && r.sequence == h.sequence && r.vtapId == h.vtapId
  {
    if h.version != 0 then h else h.(msgType := s.messageType, version := s.version)
  }

  /** Once a non-zero version is adopted, later items change neither the type nor the version. */
  lemma AdoptSticks(h: Header, first: seq<SendItem>, s: SendItem)
    requires first != [] && first[0].version != 0
    ensures AdoptAll(AdoptAll(h, first), [s]) == AdoptAll(h, first)
    ensures h.version == 0 ==> AdoptAll(h, first).msgType == first[0].messageType &&
                               AdoptAll(h, first).version == first[0].version
  {
    AdoptAllFixed(Adopt(h, first[0]), first[1..]);
  }

  /** Adopting from a sequence of items in turn. */
  function AdoptAll(h: Header, items: seq<SendItem>): Header
    decreases |items|
  {
    if items == [] then h else AdoptAll(Adopt(h, items[0]), items[1..])
  }

  lemma {:induction false} AdoptAllFixed(h: Header, items: seq<SendItem>)
    requires h.version != 0
    ensures AdoptAll(h, items) == h
    decreases |items|
  {
    if items != [] {
      AdoptAllFixed(Adopt(h, items[0]), items[1..]);
    }
  }

  /** The frame encoder: its header and the frame being filled. */
  class Encoder {
    const id: nat
    var header: Header
    var buffer: seq<u8>
    /** The items cached in the current frame. */
    ghost var items: seq<SendItem>

    /**
     * The frame is empty, or it is the header then the items' slots; the
     * first four bytes (the frame size) are written only when it is sent.
     * The header's own frame size field stays 0.
     */
    ghost predicate Valid()
      reads this
    {
      header.frameSize == 0 &&
      (buffer == [] <==> items == []) &&
      (buffer != [] ==> |buffer| == 19 + |Slots(items)| && buffer[4..] == HeaderTail(header) + Slots(items))
    }

    constructor (id: nat, msgType: u8, vtapId: u16)
      ensures Valid() && this.id == id && header == Header(0, msgType, 0, 0, vtapId) && buffer == []
    {
      this.id := id;
      header := Header(0, msgType, 0, 0, vtapId);
      buffer := [];
      items := [];
    }

    method SetMsgTypeAndVersion(s: SendItem)
      modifies this
      ensures header == Adopt(old(header), s) && buffer == old(buffer) && items == old(items)
    {
      if header.version != 0 {
        return;
      }
      header := header.(msgType := s.messageType, version := s.version);
    }

    /** add_header: the sequence advances by one (wrapping at 2^64) and the header is appended. */
    method AddHeader()
      modifies this
      ensures header == old(header).(sequence := AddU64(old(header).sequence, 1))
      ensures buffer == old(buffer) + HeaderBytes(header) && items == old(items)
    {
      header := header.(sequence := AddU64(header.sequence, 1));
      buffer := buffer + HeaderBytes(header);
    }

    /**
     * cache_to_sender: an empty frame first adopts the item's type and
     * version and gets a new header; then the item's slot is appended, its
     * size written in place once the encoding succeeds.
     */
    method CacheToSender(s: SendItem)
      requires Valid()
      modifies this
      ensures Valid() && items == old(items) + [s]
      ensures header == CachedHeader(old(header), old(buffer), s) && buffer == CachedBuffer(old(header), old(buffer), s)
    {
      if buffer == [] {
        SetMsgTypeAndVersion(s);
        AddHeader();
      }
      ghost var framed, before := buffer, items;
      assert |framed| >= 4 && framed[4..] == HeaderTail(header) + Slots(before) by {
        if old(buffer) == [] {
          assert framed == BeBytes(0, 4) + HeaderTail(header);
        }
      }
      AppendSlot(s);
      items := items + [s];
      assert items[..|items| - 1] == before;
      FramedAppend(framed, HeaderTail(header), Slots(before), Slot(s));
    }

    /** The slot of one item: four zero bytes, then the encoding, its size written into them once it succeeds. */
    method AppendSlot(s: SendItem)
      modifies this
      ensures buffer == old(buffer) + Slot(s) && header == old(header) && items == old(items)
    {
      var offset := |buffer|;
      ghost var before := buffer;
      buffer := buffer + [0, 0, 0, 0];
      if s.encoded.Ok? {
        var size := |s.encoded.value|;
        buffer := buffer + s.encoded.value;
        buffer := buffer[..offset] + LeBytes(size % U32_MODULUS, 4) + buffer[offset + 4..];
        SizePatched(before, LeBytes(size % U32_MODULUS, 4), s.encoded.value);
      }
    }

    /** set_header_frame_size: the frame's first four bytes become its length (truncated to 32 bits), big-endian. */
    method SetHeaderFrameSize()
      requires |buffer| >= 4
      modifies this
      ensures buffer == BeBytes(|old(buffer)| % U32_MODULUS, 4) + old(buffer)[4..]
      ensures header == old(header) && items == old(items)
    {
      var frameSize := |buffer| % U32_MODULUS;
      buffer := BeBytes(frameSize, 4) + buffer[4..];
    }

    function BufferLen(): (n: nat)
      reads this
      ensures n == |buffer|
    {
      |buffer|
    }

    /** get_buffer: hands over the whole frame and leaves the buffer empty. */
    method GetBuffer() returns (b: seq<u8>)
      requires Valid()
      modifies this
      ensures b == old(buffer) && buffer == [] && items == [] && header == old(header) && Valid()
    {
      b := buffer;
      buffer := [];
      items := [];
    }
  }

  /**
   * A frame as sent: the header with its frame size set to the frame's
   * length, then the slots of its items. The receiver reads the frame size,
   * type, version, sequence and vtap id back from its first 19 bytes.
   */
  lemma FrameDecodes(h: Header, items: seq<SendItem>, b: seq<u8>)
    requires b == BeBytes(|b| % U32_MODULUS, 4) + HeaderTail(h) + Slots(items)
    ensures DecodeHeader(b) == h.(frameSize := |b| % U32_MODULUS)
    ensures b[19..] == Slots(items)
  {
    var sized := h.(frameSize := |b| % U32_MODULUS);
    assert b == HeaderBytes(sized) + Slots(items);
    HeaderRoundTrip(sized, Slots(items));
  }

  /** The header after cache_to_sender: a new frame adopts the item and advances the sequence. */
  function CachedHeader(h: Header, buffer: seq<u8>, s: SendItem): Header
  {
    if buffer == [] then Adopt(h, s).(sequence := AddU64(h.sequence, 1)) else h
  }

  /** The frame after cache_to_sender: a new frame starts with the header, and the item's slot follows. */
  function CachedBuffer(h: Header, buffer: seq<u8>, s: SendItem): seq<u8>
  {
    if buffer == [] then HeaderBytes(CachedHeader(h, buffer, s)) + Slot(s) else buffer + Slot(s)
  }

  /** Caching an item keeps a frame the header's tail followed by the slots of all its items, the new one last. */
  lemma CachedFrame(h: Header, buffer: seq<u8>, items: seq<SendItem>, s: SendItem)
    requires buffer == [] <==> items == []
    requires buffer != [] ==> |buffer| >= 4 && buffer[4..] == HeaderTail(h) + Slots(items)
    ensures |CachedBuffer(h, buffer, s)| >= 4
    ensures CachedBuffer(h, buffer, s)[4..] == HeaderTail(CachedHeader(h, buffer, s)) + Slots(items + [s])
  {
    var items' := items + [s];
    assert items'[..|items'| - 1] == items;
    if buffer == [] {
      var framed := HeaderBytes(CachedHeader(h, buffer, s));
      assert framed[4..] == HeaderTail(CachedHeader(h, buffer, s)) + Slots(items);
      FramedAppend(framed, HeaderTail(CachedHeader(h, buffer, s)), Slots(items), Slot(s));
    } else {
      FramedAppend(buffer, HeaderTail(h), Slots(items), Slot(s));
    }
  }

  /** A frame as set_header_frame_size leaves it: its length, 32-bit big-endian, over the first four bytes. */
  function Framed(buffer: seq<u8>): (r: seq<u8>)
    requires |buffer| >= 4
  {
    BeBytes(|buffer| % U32_MODULUS, 4) + buffer[4..]
  }

  /** The outcome of send_buffer's attempt to open a TCP stream. */
  datatype ConnectOutcome = Connected | ConnectFailed | WriteTimeoutFailed

  /**
   * The connection side of the sender: whether a TCP stream is held,
   * whether a reconnect is pending, the frames written whole (the tx
   * counter) and the number of frames dropped.
   */
  datatype Link = Link(connected: bool, reconnect: bool, delivered: seq<seq<u8>>, dropped: nat)

  /**
   * send_buffer: with a reconnect pending or no stream, a new stream is
   * opened (the outcome is `connect`). A failed connect drops the frame; a
   * failed write-timeout setting loses the stream without counting a drop;
   * a successful one clears the reconnect request. The frame is then
   * written whole, or dropped with the stream when the write fails.
   */
  function SendBuffer(l: Link, frame: seq<u8>, connect: ConnectOutcome, writeOk: bool): Link
  {
    var opening := l.reconnect || !l.connected;
    if opening && connect == ConnectFailed then l.(connected := false, dropped := l.dropped + 1)
    else if opening && connect == WriteTimeoutFailed then l.(connected := false)
    else
      var open := if opening then l.(connected := true, reconnect := false) else l;
      if writeOk then open.(delivered := open.delivered + [frame])
      else open.(connected := false, dropped := open.dropped + 1)
  }

  /**
   * Each frame handed to send_buffer is either delivered once or dropped
   * once, except when the new stream's write timeout cannot be set, which
   * loses it uncounted; the pending reconnect is cleared exactly when a
   * stream is opened.
   */
  lemma SendBufferAccounting(l: Link, frame: seq<u8>, connect: ConnectOutcome, writeOk: bool)
    ensures var r := SendBuffer(l, frame, connect, writeOk);
      var opening := l.reconnect || !l.connected;
      (r.delivered == l.delivered + [frame] && r.dropped == l.dropped &&
         writeOk && (!opening || connect == Connected)) ||
      (r.delivered == l.delivered && r.dropped == l.dropped + 1 &&
         ((opening && connect == ConnectFailed) || (!writeOk && (!opening || connect == Connected)))) ||
      (r.delivered == l.delivered && r.dropped == l.dropped && opening && connect == WriteTimeoutFailed)
    ensures var r := SendBuffer(l, frame, connect, writeOk);
      r.reconnect == (l.reconnect && !(connect == Connected))
  {
  }

  /**
   * After a destination change no frame reaches the old stream: while a
   * reconnect is pending a frame is delivered only through a newly opened
   * stream, which clears the request.
   */
  lemma NoFrameToOldDestination(l: Link, frame: seq<u8>, connect: ConnectOutcome, writeOk: bool)
    requires l.reconnect
    ensures var r := SendBuffer(l, frame, connect, writeOk);
      (|r.delivered| > |l.delivered| <==> connect == Connected && writeOk) &&
      (connect == Connected ==> !r.reconnect)
  {
  }

  /** The sender's flush and reconnect decisions; the socket itself is an outcome handed in. */
  class Sender {
    const encoder: Encoder
    var dstIp: seq<u8>
    var dstPort: u16
    var reconnect: bool
    /** Whether a TCP stream is held. */
    var connected: bool
    /** The frames handed to send_buffer, in order. */
    var sent: seq<seq<u8>>
    /** The frames written whole, and the number of frames dropped. */
    var delivered: seq<seq<u8>>
    var dropped: nat

    ghost predicate Valid()
      reads this, encoder
    {
      encoder.Valid()
    }

    function LinkState(): Link
      reads this
    {
      Link(connected, reconnect, delivered, dropped)
    }

    constructor (msgType: u8, vtapId: u16, dstIp: seq<u8>, dstPort: u16)
      ensures Valid() && fresh(encoder) && encoder.buffer == []
      ensures this.dstIp == dstIp && this.dstPort == dstPort && sent == []
      ensures LinkState() == Link(false, false, [], 0)
    {
      encoder := new Encoder(0, msgType, vtapId);
      this.dstIp := dstIp;
      this.dstPort := dstPort;
      reconnect := false;
      connected := false;
      sent := [];
      delivered := [];
      dropped := 0;
    }

    /** update_dst_ip_and_port: a changed destination is adopted and asks for a reconnect. */
    method UpdateDstIpAndPort(configIp: seq<u8>, configPort: u16)
      modifies this
      ensures dstIp == configIp && dstPort == configPort
      ensures reconnect == (old(reconnect) || old(dstIp) != configIp || old(dstPort) != configPort)
      ensures sent == old(sent) && connected == old(connected) && delivered == old(delivered) && dropped == old(dropped)
    {
      if dstIp != configIp {
        reconnect := true;
        dstIp := configIp;
      }
      if dstPort != configPort {
        reconnect := true;
        dstPort := configPort;
      }
    }

    /** send_buffer, with the outcomes of the connect and of the write handed in. */
    method SendBufferTo(frame: seq<u8>, connect: ConnectOutcome, writeOk: bool)
      modifies this
      ensures LinkState() == SendBuffer(old(LinkState()), frame, connect, writeOk)
      ensures sent == old(sent) + [frame] && dstIp == old(dstIp) && dstPort == old(dstPort)
    {
      sent := sent + [frame];
      if reconnect || !connected {
        connected := false;
        if connect == ConnectFailed {
          dropped := dropped + 1;
          return;
        }
        if connect == WriteTimeoutFailed {
          return;
        }
        connected := true;
        reconnect := false;
      }
      if writeOk {
        delivered := delivered + [frame];
      } else {
        dropped := dropped + 1;
        connected := false;
      }
    }

    /** flush_encoder: a non-empty frame gets its size and is sent; an empty one sends nothing. */
    method FlushEncoder(connect: ConnectOutcome, writeOk: bool)
      requires Valid()
      modifies this, encoder
      ensures Valid() && encoder.buffer == [] && encoder.header == old(encoder.header)
      ensures old(encoder.buffer) == [] ==> sent == old(sent) && LinkState() == old(LinkState())
      ensures old(encoder.buffer) != [] ==>
        sent == old(sent) + [Framed(old(encoder.buffer))] &&
        LinkState() == SendBuffer(old(LinkState()), Framed(old(encoder.buffer)), connect, writeOk)
      ensures dstIp == old(dstIp) && dstPort == old(dstPort)
    {
      if encoder.BufferLen() > 0 {
        encoder.SetHeaderFrameSize();
        var b := encoder.GetBuffer();
        SendBufferTo(b, connect, writeOk);
      }
    }

    /**
     * handle_target_server: the item is cached; a frame grown past
     * BUFFER_LEN bytes is sent after the destination is refreshed.
     */
    method HandleTargetServer(s: SendItem, configIp: seq<u8>, configPort: u16, connect: ConnectOutcome, writeOk: bool)
      requires Valid()
      modifies this, encoder
      ensures Valid() && encoder.items == (if |CachedBuffer(old(encoder.header), old(encoder.buffer), s)| <= BUFFER_LEN
                                           then old(encoder.items) + [s] else [])
      ensures encoder.header == CachedHeader(old(encoder.header), old(encoder.buffer), s)
      ensures var frame := CachedBuffer(old(encoder.header), old(encoder.buffer), s);
        |frame| <= BUFFER_LEN ==>
          encoder.buffer == frame && sent == old(sent) && LinkState() == old(LinkState()) &&
          dstIp == old(dstIp) && dstPort == old(dstPort)
      ensures var frame := CachedBuffer(old(encoder.header), old(encoder.buffer), s);
        |frame| > BUFFER_LEN ==>
          var refreshed := old(LinkState()).(reconnect := old(reconnect) || old(dstIp) != configIp || old(dstPort) != configPort);
          encoder.buffer == [] && dstIp == configIp && dstPort == configPort &&
          sent == old(sent) + [Framed(frame)] && LinkState() == SendBuffer(refreshed, Framed(frame), connect, writeOk)
    {
      encoder.CacheToSender(s);
      if encoder.BufferLen() > BUFFER_LEN {
        UpdateDstIpAndPort(configIp, configPort);
        FlushEncoder(connect, writeOk);
      }
    }

    /** A queue read timeout refreshes the destination and flushes the frame. */
    method OnTimeout(configIp: seq<u8>, configPort: u16, connect: ConnectOutcome, writeOk: bool)
      requires Valid()
      modifies this, encoder
      ensures Valid() && encoder.buffer == [] && encoder.header == old(encoder.header)
      ensures dstIp == configIp && dstPort == configPort
      ensures var refreshed := old(LinkState()).(reconnect := old(reconnect) || old(dstIp) != configIp || old(dstPort) != configPort);
        (old(encoder.buffer) == [] ==> sent == old(sent) && LinkState() == refreshed) &&
        (old(encoder.buffer) != [] ==>
          sent == old(sent) + [Framed(old(encoder.buffer))] &&
          LinkState() == SendBuffer(refreshed, Framed(old(encoder.buffer)), connect, writeOk))
    {
      UpdateDstIpAndPort(configIp, configPort);
      FlushEncoder(connect, writeOk);
    }
  }

  /** Every frame the sender sends starts with a header the receiver reads with the frame's own length. */
  lemma SentFrameDecodes(h: Header, items: seq<SendItem>, frame: seq<u8>)
    requires |frame| >= 4 && frame[4..] == HeaderTail(h) + Slots(items)
    ensures var b := BeBytes(|frame| % U32_MODULUS, 4) + frame[4..];
      DecodeHeader(b) == h.(frameSize := |frame| % U32_MODULUS) && b[19..] == Slots(items)
  {
    var b := BeBytes(|frame| % U32_MODULUS, 4) + frame[4..];
    assert |b| == |frame|;
    FrameDecodes(h, items, b);
  }
}
