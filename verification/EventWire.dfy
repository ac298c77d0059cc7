/** The wire format of simulator events (event/event.go) and the loop that cuts a received
    buffer back into events (the connection reader of dispatcher/dispatcher.go). */
module EventWire {
  import opened SimTypes

  type Word64 = x: int | 0 <= x < 0x1_0000_0000_0000_0000
  type Int8 = x: int | -0x80 <= x < 0x80
  type Int32 = x: int | -0x8000_0000 <= x < 0x8000_0000

  const HEADER_LEN := 19
  const COMM_LEN := 11
  const STATE_LEN := 14
  const NODE_INFO_LEN := 4
  const PARAM_LEN := 5
  const TO_HOST_LEN := 36

  // Event type ids with a composite payload.
  const COMM_START: Byte := 6
  const TX_DONE: Byte := 7
  const CHANNEL_SAMPLE: Byte := 8
  const RADIO_STATE: Byte := 9
  const RX_DONE: Byte := 10
  const NODE_INFO: Byte := 12
  const PARAM_GET: Byte := 16
  const PARAM_SET: Byte := 17
  const PARAM_RSP: Byte := 18
  const UDP_TO_HOST: Byte := 20
  const IP6_TO_HOST: Byte := 21
  const UDP_FROM_HOST: Byte := 22
  const IP6_FROM_HOST: Byte := 23

  // ---------- little-endian integers ----------

  function PutLe(x: nat, n: nat): (b: seq<Byte>)
    ensures |b| == n
  {
    if n == 0 then [] else [x % 0x100] + PutLe(x / 0x100, n - 1)
  }

  function GetLe(b: seq<Byte>): nat {
    if b == [] then 0 else b[0] + GetLe(b[1..]) * 0x100
  }

  function Capacity(n: nat): nat {
    if n == 0 then 1 else 0x100 * Capacity(n - 1)
  }

  lemma {:induction false} LeRoundTrip(x: nat, n: nat)
    requires x < Capacity(n)
    ensures GetLe(PutLe(x, n)) == x
  {
    if n > 0 {
      LeRoundTrip(x / 0x100, n - 1);
      assert PutLe(x, n)[1..] == PutLe(x / 0x100, n - 1);
    }
  }

  lemma Capacities()
    ensures Capacity(2) == 0x1_0000
    ensures Capacity(4) == 0x1_0000_0000
    ensures Capacity(8) == 0x1_0000_0000_0000_0000
  {
    assert Capacity(3) == 0x100_0000 && Capacity(5) == 0x100_0000_0000;
    assert Capacity(6) == 0x1_0000_0000_0000 && Capacity(7) == 0x100_0000_0000_0000;
  }

  // ---------- composite payloads ----------

  datatype CommData = CommData(channel: Byte, power: Int8, error: Byte, duration: Word64)

  datatype StateData = StateData(channel: Byte, power: Int8, rxSens: Int8, energyState: Byte,
                                 subState: Byte, state: Byte, radioTime: Word64)

  datatype HostData = HostData(srcPort: Word16, dstPort: Word16, src: seq<Byte>, dst: seq<Byte>)

  /** The type-specific struct that an event carries beside its data bytes. */
  datatype Extra =
    | Plain
    | Comm(comm: CommData)
    | State(stateData: StateData)
    | NodeInfo(nodeId: nat)
    | Param(param: Byte, value: Int32)
    | Host(host: HostData)

  datatype Event = Event(delay: Word64, kind: Byte, msgId: Word64, extra: Extra, data: seq<Byte>)

  function ToByte(x: Int8): Byte { if x < 0 then x + 0x100 else x }

  function ToInt8(b: Byte): Int8 { if b < 0x80 then b else b - 0x100 }

  const NO_COMM := CommData(0, 0, 0, 0)
  const NO_ADDR: seq<Byte> := [0, 0, 0, 0, 0, 0, 0, 0, 0, 0, 0, 0, 0, 0, 0, 0]
  const NO_HOST := HostData(0, 0, NO_ADDR, NO_ADDR)

  ghost predicate ValidExtra(x: Extra) {
    x.Host? ==> |x.host.src| == |x.host.dst| == 16
  }

  function CommBytes(c: CommData): (b: seq<Byte>)
    ensures |b| == COMM_LEN
  {
    [c.channel, ToByte(c.power), c.error] + PutLe(c.duration, 8)
  }

  function ParamBytes(param: Byte, value: Int32): (b: seq<Byte>)
    ensures |b| == PARAM_LEN
  {
    [param] + PutLe(if value < 0 then value + 0x1_0000_0000 else value, 4)
  }

  function HostBytes(h: HostData): (b: seq<Byte>)
    ensures |b| == 4 + |h.src| + |h.dst|
  {
    PutLe(h.srcPort, 2) + PutLe(h.dstPort, 2) + h.src + h.dst
  }

  /** The struct bytes that Serialize puts before the data, by event type. */
  function ExtraBytes(e: Event): seq<Byte> {
    if e.kind in {COMM_START, TX_DONE, CHANNEL_SAMPLE, RX_DONE} then
      CommBytes(if e.extra.Comm? then e.extra.comm else NO_COMM)
    else if e.kind in {PARAM_GET, PARAM_SET} then
      if e.extra.Param? then ParamBytes(e.extra.param, e.extra.value) else ParamBytes(0, 0)
    else if e.kind in {UDP_FROM_HOST, IP6_FROM_HOST} then
      HostBytes(if e.extra.Host? then e.extra.host else NO_HOST)
    else []
  }

  function Payload(e: Event): seq<Byte> { ExtraBytes(e) + e.data }

  function Header(delay: Word64, kind: Byte, msgId: Word64, datalen: nat): (b: seq<Byte>)
    ensures |b| == HEADER_LEN
  {
    PutLe(delay, 8) + [kind] + PutLe(msgId, 8) + PutLe(datalen % 0x1_0000, 2)
  }

  function Serialize(e: Event): (b: seq<Byte>)
    ensures |b| == HEADER_LEN + |Payload(e)|
  {
    Header(e.delay, e.kind, e.msgId, |Payload(e)|) + Payload(e)
  }

  // ---------- parsing ----------

  datatype Option<+T> = None | Some(value: T)

  datatype Outcome =
    | Decoded(evt: Event, used: nat)
    | Incomplete  // Deserialize returns 0
    | Panic       // a failed assertion or an index out of range

  lemma {:induction false} GetBound(b: seq<Byte>)
    ensures GetLe(b) < Capacity(|b|)
  {
    if b != [] {
      GetBound(b[1..]);
    }
  }

  function GetWord64(b: seq<Byte>): Word64
    requires |b| == 8
  {
    GetBound(b); Capacities(); GetLe(b)
  }

  function GetWord16(b: seq<Byte>): Word16
    requires |b| == 2
  {
    GetBound(b); Capacities(); GetLe(b)
  }

  function GetInt32(b: seq<Byte>): Int32
    requires |b| == 4
  {
    GetBound(b); Capacities();
    if GetLe(b) < 0x8000_0000 then GetLe(b) else GetLe(b) - 0x1_0000_0000
  }

  function ParseComm(b: seq<Byte>): CommData
    requires |b| >= COMM_LEN
  {
    CommData(b[0], ToInt8(b[1]), b[2], GetWord64(b[3..11]))
  }

  function ParseState(b: seq<Byte>): StateData
    requires |b| >= STATE_LEN
  {
    StateData(b[0], ToInt8(b[1]), ToInt8(b[2]), b[3], b[4], b[5], GetWord64(b[6..14]))
  }

  function ParseHost(b: seq<Byte>): HostData
    requires |b| >= TO_HOST_LEN
  {
    HostData(GetWord16(b[0..2]), GetWord16(b[2..4]), b[4..20], b[20..36])
  }

  /** The struct at the start of the payload and its length, or None for a panic. */
  function ParseExtra(kind: Byte, p: seq<Byte>): (r: Option<(Extra, nat)>)
    ensures r.Some? ==> r.value.1 <= |p|
  {
    if kind == CHANNEL_SAMPLE then
      if |p| >= COMM_LEN then Some((Comm(ParseComm(p)), COMM_LEN)) else None
    else if kind == RX_DONE || kind == COMM_START then
      if |p| > COMM_LEN && p[COMM_LEN] == p[0] then Some((Comm(ParseComm(p)), COMM_LEN)) else None
    else if kind == RADIO_STATE then
      if |p| >= STATE_LEN then Some((State(ParseState(p)), STATE_LEN)) else None
    else if kind == NODE_INFO then
      if |p| >= NODE_INFO_LEN then Some((NodeInfo(GetLe(p[0..4])), NODE_INFO_LEN)) else None
    else if kind == PARAM_RSP then
      if |p| >= PARAM_LEN then Some((Param(p[0], GetInt32(p[1..5])), PARAM_LEN)) else None
    else if kind == UDP_TO_HOST || kind == IP6_TO_HOST then
      if |p| >= TO_HOST_LEN then Some((Host(ParseHost(p)), TO_HOST_LEN)) else None
    else Some((Plain, 0))
  }

  function Assemble(delay: Word64, kind: Byte, msgId: Word64, payload: seq<Byte>): Outcome {
    match ParseExtra(kind, payload)
    case None => Panic
    case Some((extra, offset)) =>
      Decoded(Event(delay, kind, msgId, extra, payload[offset..]), HEADER_LEN + |payload|)
  }

  /** Deserialize, with the source's 16-bit arithmetic: the number of bytes left is truncated
      to 16 bits before it is compared, and so is the end of the payload. */
  function Deserialize(data: seq<Byte>): (r: Outcome)
    ensures r.Decoded? ==> HEADER_LEN <= r.used <= |data|
  {
    if |data| < HEADER_LEN then Incomplete
    else
      var datalen := GetWord16(data[17..19]);
      var end := (HEADER_LEN + datalen) % 0x1_0000;
      if datalen > (|data| - HEADER_LEN) % 0x1_0000 then Incomplete
      else if end < HEADER_LEN then Panic
      else Assemble(GetWord64(data[0..8]), data[8], GetWord64(data[9..17]), data[HEADER_LEN..end])
  }

  // ---------- one event ----------

  // The longest payload whose end still fits 16 bits.
  const MAX_PAYLOAD := 0xffff - HEADER_LEN

  // The longest buffer whose remaining length still fits 16 bits.
  const MAX_BUFFER := 0xffff + HEADER_LEN

  lemma HeaderFields(delay: Word64, kind: Byte, msgId: Word64, datalen: Word16, rest: seq<Byte>)
    ensures var b := Header(delay, kind, msgId, datalen) + rest;
            GetWord64(b[0..8]) == delay && b[8] == kind && GetWord64(b[9..17]) == msgId &&
            GetWord16(b[17..19]) == datalen && b[19..] == rest
  {
    hide GetLe, PutLe, Capacity;
    Capacities();
    LeRoundTrip(delay, 8);
    LeRoundTrip(msgId, 8);
    LeRoundTrip(datalen, 2);
    var b := Header(delay, kind, msgId, datalen) + rest;
    assert b[0..8] == PutLe(delay, 8);
    assert b[9..17] == PutLe(msgId, 8);
    assert b[17..19] == PutLe(datalen, 2);
  }

  /** A serialized event at the start of a buffer is found complete exactly when its payload
      is no longer than the bytes after the header counted modulo 2^16; it is then parsed
      from exactly its own payload, whatever follows. */
  lemma DeserializeFirst(e: Event, rest: seq<Byte>)
    requires |Payload(e)| <= MAX_PAYLOAD
    ensures var p := Payload(e);
            Deserialize(Serialize(e) + rest) ==
            if |p| > (|p| + |rest|) % 0x1_0000 then Incomplete
            else Assemble(e.delay, e.kind, e.msgId, p)
  {
    hide Header, Payload, Assemble, GetWord16, GetWord64;
    var p := Payload(e);
    var b := Serialize(e) + rest;
    assert b == Header(e.delay, e.kind, e.msgId, |p|) + (p + rest);
    HeaderFields(e.delay, e.kind, e.msgId, |p|, p + rest);
    assert |p| <= |p| + |rest| == |b| - HEADER_LEN;
    assert b[19..19 + |p|] == b[19..][..|p|] == p;
  }

  lemma CommRoundTrip(c: CommData, rest: seq<Byte>)
    ensures ParseComm(CommBytes(c) + rest) == c
  {
    hide GetLe, PutLe, Capacity;
    Capacities();
    LeRoundTrip(c.duration, 8);
    assert (CommBytes(c) + rest)[3..11] == PutLe(c.duration, 8);
  }

  /** The events that read back as they were written: plain ones and the three radio types
      that both sides treat alike, with the channel repeated where the parser checks it. */
  predicate Survives(e: Event) {
    if e.kind == CHANNEL_SAMPLE then e.extra.Comm?
    else if e.kind == RX_DONE || e.kind == COMM_START then
      e.extra.Comm? && |e.data| > 0 && e.data[0] == e.extra.comm.channel
    else
      e.kind !in {TX_DONE, PARAM_GET, PARAM_SET, UDP_FROM_HOST, IP6_FROM_HOST,
                  RADIO_STATE, NODE_INFO, PARAM_RSP, UDP_TO_HOST, IP6_TO_HOST} && e.extra.Plain?
  }

  /** Parsing what was serialized gives the event back exactly when it Survives; the other
      types keep a struct on one side only. */
  lemma AssembleRoundTrip(e: Event)
    requires ValidExtra(e.extra)
    ensures Assemble(e.delay, e.kind, e.msgId, Payload(e)) == Decoded(e, |Serialize(e)|) <==> Survives(e)
  {
    hide CommBytes, ParseComm, ParamBytes, HostBytes, ParseState, ParseHost, GetLe, GetInt32;
    var p := Payload(e);
    if e.kind in {COMM_START, CHANNEL_SAMPLE, RX_DONE} {
      var c := if e.extra.Comm? then e.extra.comm else NO_COMM;
      CommRoundTrip(c, e.data);
      assert p[11..] == e.data;
      assert p[0] == ParseComm(p).channel by { ParseCommChannel(p); }
    } else if ExtraBytes(e) == [] {
      assert p == e.data && p[0..] == p;
    } else {
      assert |p| > |e.data|;
      assert p[0..] == p;
    }
  }

  lemma ParseCommChannel(p: seq<Byte>)
    requires |p| >= COMM_LEN
    ensures ParseComm(p).channel == p[0]
  {
  }

  /** Within a buffer of at most 65554 bytes, an event is read back as it was written exactly
      when it Survives. */
  lemma RoundTrip(e: Event, rest: seq<Byte>)
    requires ValidExtra(e.extra) && |Payload(e)| <= MAX_PAYLOAD
    requires |Serialize(e)| + |rest| <= MAX_BUFFER
    ensures Deserialize(Serialize(e) + rest) == Decoded(e, |Serialize(e)|) <==> Survives(e)
  {
    hide Serialize, Payload, Assemble, Deserialize;
    SerializedLength(e);
    DeserializeFirst(e, rest);
    AssembleRoundTrip(e);
  }

  lemma SerializedLength(e: Event)
    ensures |Serialize(e)| == HEADER_LEN + |Payload(e)|
  {
  }

  /** A buffer that exceeds the limit by one byte hides a complete event: the count of bytes
      after the header wraps to zero, and a nonempty payload seems to be missing. */
  lemma LongBufferHidesEvent(e: Event, rest: seq<Byte>)
    requires 0 < |Payload(e)| <= MAX_PAYLOAD
    requires |Serialize(e)| + |rest| == MAX_BUFFER + 1
    ensures Deserialize(Serialize(e) + rest) == Incomplete
  {
    hide Payload, Deserialize;
    SerializedLength(e);
    DeserializeFirst(e, rest);
  }

  // ---------- the reader loop ----------

  ghost function Concat(es: seq<Event>): seq<Byte> {
    if es == [] then [] else Serialize(es[0]) + Concat(es[1..])
  }

  /** What the reader makes of one buffer: the events handed on, the node id it goes by
      afterwards (0 until a node introduced itself), and how it left the buffer. */
  datatype Reading = Reading(events: seq<Event>, nodeId: nat, end: End) {
    function After(evt: Event): Reading { this.(events := [evt] + events) }
    function AfterAll(evts: seq<Event>): Reading { this.(events := evts + events) }
  }
  datatype End = Kept | Closed | Panicked

  /** The first NodeInfo event names the node of a connection. */
  function Introduced(nodeId: nat, evt: Event): nat {
    if nodeId == 0 && evt.kind == NODE_INFO && evt.extra.NodeInfo? then evt.extra.nodeId else nodeId
  }

  function ReadAll(buf: seq<Byte>, nodeId: nat): Reading
    decreases |buf|
  {
    if buf == [] then Reading([], nodeId, Kept)
    else match Deserialize(buf)
         case Incomplete => Reading([], nodeId, Closed)
         case Panic => Reading([], nodeId, Panicked)
         case Decoded(evt, used) =>
           var id := Introduced(nodeId, evt);
           if id == 0 then Reading([], id, Closed)
           else ReadAll(buf[used..], id).After(evt)
  }

  lemma AppendEvent(rest: Reading, events: seq<Event>, evt: Event)
    ensures rest.After(evt).AfterAll(events) == rest.AfterAll(events + [evt])
  {
    assert events + ([evt] + rest.events) == events + [evt] + rest.events;
  }

  lemma NoEvents(rest: Reading)
    ensures rest.AfterAll([]) == rest
  {
    assert [] + rest.events == rest.events;
  }

  lemma NothingLeft(nodeId: nat, events: seq<Event>, end: End)
    ensures Reading([], nodeId, end).AfterAll(events) == Reading(events, nodeId, end)
  {
    assert events + [] == events;
  }

  method ReadBuffer(buf: seq<Byte>, myNodeId: nat) returns (r: Reading)
    ensures r == ReadAll(buf, myNodeId)
  {
    hide Deserialize, Introduced, Reading.After, Reading.AfterAll;
    var events, nodeId, bufIdx := [], myNodeId, 0;
    assert buf[0..] == buf;
    NoEvents(ReadAll(buf, myNodeId));
    while bufIdx < |buf|
      invariant 0 <= bufIdx <= |buf|
      invariant ReadAll(buf, myNodeId) == ReadAll(buf[bufIdx..], nodeId).AfterAll(events)
    {
      match Deserialize(buf[bufIdx..]) {
        case Incomplete =>
          NothingLeft(nodeId, events, Closed);
          return Reading(events, nodeId, Closed);
        case Panic =>
          NothingLeft(nodeId, events, Panicked);
          return Reading(events, nodeId, Panicked);
        case Decoded(evt, used) =>
          nodeId := Introduced(nodeId, evt);
          if nodeId == 0 {
            NothingLeft(nodeId, events, Closed);
            return Reading(events, nodeId, Closed);
          }
          assert buf[bufIdx..][used..] == buf[bufIdx + used..];
          AppendEvent(ReadAll(buf[bufIdx + used..], nodeId), events, evt);
          events := events + [evt];
          bufIdx := bufIdx + used;
      }
    }
    NothingLeft(nodeId, events, Kept);
    r := Reading(events, nodeId, Kept);
  }

  ghost predicate AllFramed(es: seq<Event>) {
    forall e :: e in es ==> ValidExtra(e.extra) && Survives(e) && |Payload(e)| <= MAX_PAYLOAD
  }

  /** Any sequence of surviving events that fits the buffer is recovered exactly from an
      introduced connection, and what follows it is read as if it stood alone. */
  lemma {:induction false} StreamRoundTrip(es: seq<Event>, rest: seq<Byte>, nodeId: nat)
    requires AllFramed(es) && |Concat(es) + rest| <= MAX_BUFFER && nodeId > 0
    ensures ReadAll(Concat(es) + rest, nodeId) == ReadAll(rest, nodeId).AfterAll(es)
    decreases |es|
  {
    hide Serialize, Payload, Deserialize, Survives;
    if es == [] {
      assert Concat(es) + rest == rest;
    } else {
      var e, tail := es[0], Concat(es[1..]) + rest;
      assert Concat(es) + rest == Serialize(e) + tail;
      SerializedLength(e);
      RoundTrip(e, tail);
      assert (Serialize(e) + tail)[|Serialize(e)|..] == tail;
      StreamRoundTrip(es[1..], rest, nodeId);
      assert [e] + (es[1..] + ReadAll(rest, nodeId).events) == es + ReadAll(rest, nodeId).events;
    }
  }

  /** A last event that was cut off yields nothing and closes the connection, after all
      complete events before it were handed on. */
  lemma TruncatedStream(es: seq<Event>, last: Event, n: nat, nodeId: nat)
    requires AllFramed(es) && |Payload(last)| <= MAX_PAYLOAD && nodeId > 0
    requires 0 < n < |Serialize(last)|
    requires |Concat(es)| + n <= MAX_BUFFER
    ensures ReadAll(Concat(es) + Serialize(last)[..n], nodeId) == Reading(es, nodeId, Closed)
  {
    hide Serialize, Payload, Survives, AllFramed;
    TruncatedEvent(last, n);
    StreamRoundTrip(es, Serialize(last)[..n], nodeId);
    assert es + [] == es;
  }

  /** The introduction as the node writes it: the id is all of its payload. */
  function NodeInfoEvent(nodeId: Word32, msgId: Word64): Event {
    Event(0, NODE_INFO, msgId, Plain, PutLe(nodeId, 4))
  }

  /** A new connection that starts with a node's introduction goes by that node's id and
      loses nothing of what follows. */
  lemma IntroducedStream(nodeId: Word32, msgId: Word64, es: seq<Event>)
    requires AllFramed(es) && nodeId > 0
    requires HEADER_LEN + NODE_INFO_LEN + |Concat(es)| <= MAX_BUFFER
    ensures ReadAll(Serialize(NodeInfoEvent(nodeId, msgId)) + Concat(es), 0) ==
            Reading([Event(0, NODE_INFO, msgId, NodeInfo(nodeId), [])] + es, nodeId, Kept)
  {
    hide Header, Deserialize, PutLe, GetLe, Survives, Capacity;
    var info := NodeInfoEvent(nodeId, msgId);
    var p := PutLe(nodeId, 4);
    assert Payload(info) == p;
    DeserializeFirst(info, Concat(es));
    Capacities();
    LeRoundTrip(nodeId, 4);
    assert p[0..4] == p && p[4..] == [];
    var b := Serialize(info) + Concat(es);
    assert b[|Serialize(info)|..] == Concat(es);
    StreamRoundTrip(es, [], nodeId);
    assert Concat(es) + [] == Concat(es) && es + [] == es;
  }

  /** Any other first event closes a new connection. */
  lemma NoIntroduction(e: Event, rest: seq<Byte>)
    requires ValidExtra(e.extra) && Survives(e) && |Payload(e)| <= MAX_PAYLOAD
    requires |Serialize(e)| + |rest| <= MAX_BUFFER
    ensures ReadAll(Serialize(e) + rest, 0) == Reading([], 0, Closed)
  {
    hide Serialize, Payload, Deserialize;
    SerializedLength(e);
    RoundTrip(e, rest);
  }

  lemma TruncatedEvent(e: Event, n: nat)
    requires |Payload(e)| <= MAX_PAYLOAD
    requires n < |Serialize(e)|
    ensures Deserialize(Serialize(e)[..n]) == Incomplete
  {
    hide Payload, Assemble;
    if n >= HEADER_LEN {
      var p := Payload(e);
      var b := Serialize(e)[..n];
      var h := Header(e.delay, e.kind, e.msgId, |p|);
      assert b == h + p[..n - HEADER_LEN] by { hide Header; }
      HeaderFields(e.delay, e.kind, e.msgId, |p|, p[..n - HEADER_LEN]);
    }
  }
}
