/** Both ends of the wire: the packed structs that node processes write and read (event-sim.h,
    event-sim.c) against the dispatcher's parser and serializer (event/event.go). */
module NodeWire {
  import opened SimTypes
  import opened EventWire

  // ---------- packed structs ----------

  /** A member of a packed little-endian struct: its size in bytes and its value. */
  datatype Field = Field(size: nat, value: nat)

  function Packed(fields: seq<Field>): seq<Byte>
    decreases |fields|
  {
    if fields == [] then [] else PutLe(fields[0].value, fields[0].size) + Packed(fields[1..])
  }

  /** The members of a struct with these sizes at the start of a buffer. */
  function Unpacked(sizes: seq<nat>, b: seq<Byte>): seq<nat>
    decreases |sizes|
  {
    if sizes == [] || |b| < sizes[0] then []
    else [GetLe(b[..sizes[0]])] + Unpacked(sizes[1..], b[sizes[0]..])
  }

  ghost predicate Fit(fields: seq<Field>) {
    forall f :: f in fields ==> f.value < Capacity(f.size)
  }

  function Sizes(fields: seq<Field>): seq<nat> {
    seq(|fields|, i requires 0 <= i < |fields| => fields[i].size)
  }

  function Values(fields: seq<Field>): seq<nat> {
    seq(|fields|, i requires 0 <= i < |fields| => fields[i].value)
  }

  /** A struct reads back member by member. */
  lemma {:induction false} StructReadsBack(fields: seq<Field>, rest: seq<Byte>)
    requires Fit(fields)
    ensures Unpacked(Sizes(fields), Packed(fields) + rest) == Values(fields)
    decreases |fields|
  {
    hide PutLe, GetLe, Capacity;
    if fields != [] {
      var f, others := fields[0], fields[1..];
      LeRoundTrip(f.value, f.size);
      StructReadsBack(others, rest);
      var head, tail := PutLe(f.value, f.size), Packed(others) + rest;
      PutLeSize(f.value, f.size);
      assert Packed(fields) + rest == head + tail;
      assert (head + tail)[..f.size] == head && (head + tail)[f.size..] == tail;
      assert Sizes(fields)[0] == f.size && Sizes(fields)[1..] == Sizes(others);
      assert Values(fields) == [f.value] + Values(others);
    }
  }

  lemma PutLeSize(x: nat, n: nat)
    ensures |PutLe(x, n)| == n
  {
  }

  lemma PackedFirst(f: Field, others: seq<Field>)
    ensures Packed([f] + others) == PutLe(f.value, f.size) + Packed(others) && Packed([]) == []
  {
    assert ([f] + others)[1..] == others;
  }

  // ---------- the structs of event-sim.h ----------

  function EventHeader(e: Event, length: nat): seq<Field> {
    [Field(8, e.delay), Field(1, e.kind), Field(8, e.msgId), Field(2, length)]
  }

  function CommStruct(c: CommData): seq<Field> {
    [Field(1, c.channel), Field(1, ToByte(c.power)), Field(1, c.error), Field(8, c.duration)]
  }

  function StateStruct(s: StateData): seq<Field> {
    [Field(1, s.channel), Field(1, ToByte(s.power)), Field(1, ToByte(s.rxSens)), Field(1, s.energyState),
     Field(1, s.subState), Field(1, s.state), Field(8, s.radioTime)]
  }

  function ParamStruct(param: Byte, value: Int32): seq<Field> {
    [Field(1, param), Field(4, if value < 0 then value + 0x1_0000_0000 else value)]
  }

  function PortStruct(h: HostData): seq<Field> {
    [Field(2, h.srcPort), Field(2, h.dstPort)]
  }

  /** The struct that a node process puts before the data of an event, or finds there. */
  function StructBytes(x: Extra): seq<Byte> {
    match x
    case Plain => []
    case Comm(c) => Packed(CommStruct(c))
    case State(s) => Packed(StateStruct(s))
    case NodeInfo(id) => Packed([Field(4, id)])
    case Param(param, value) => Packed(ParamStruct(param, value))
    case Host(h) => Packed(PortStruct(h)) + h.src + h.dst
  }

  /** An event in the memory of a node process. */
  function NodeBytes(e: Event): seq<Byte> {
    Packed(EventHeader(e, |StructBytes(e.extra)| + |e.data|)) + (StructBytes(e.extra) + e.data)
  }

  // ---------- layouts ----------

  lemma PackedTwo(f: Field, g: Field)
    ensures Packed([f, g]) == PutLe(f.value, f.size) + PutLe(g.value, g.size)
  {
    hide PutLe;
    PackedFirst(g, []);
    PackedFirst(f, [g]);
    assert [g] + [] == [g] && [f] + [g] == [f, g];
  }

  lemma PackedMore(f: Field, g: Field, others: seq<Field>)
    ensures Packed([f, g] + others) == PutLe(f.value, f.size) + (PutLe(g.value, g.size) + Packed(others))
  {
    hide PutLe;
    PackedFirst(g, others);
    PackedFirst(f, [g] + others);
    assert [f] + ([g] + others) == [f, g] + others;
  }

  lemma OneByte(x: Byte)
    ensures PutLe(x, 1) == [x]
  {
    assert PutLe(x, 1) == [x % 0x100] + PutLe(x / 0x100, 0);
  }

  lemma HeaderLayout(e: Event, length: nat)
    requires length < 0x1_0000
    ensures Packed(EventHeader(e, length)) == Header(e.delay, e.kind, e.msgId, length)
  {
    hide PutLe, Packed;
    var fs := EventHeader(e, length);
    PackedTwo(fs[2], fs[3]);
    PackedMore(fs[0], fs[1], [fs[2], fs[3]]);
    assert fs == [fs[0], fs[1]] + [fs[2], fs[3]];
    OneByte(e.kind);
  }

  lemma CommLayout(c: CommData)
    ensures Packed(CommStruct(c)) == CommBytes(c)
  {
    hide PutLe, Packed;
    var fs := CommStruct(c);
    PackedTwo(fs[2], fs[3]);
    PackedMore(fs[0], fs[1], [fs[2], fs[3]]);
    assert fs == [fs[0], fs[1]] + [fs[2], fs[3]];
    OneByte(c.channel);
    OneByte(ToByte(c.power));
    OneByte(c.error);
  }

  lemma StateLayout(s: StateData)
    ensures Packed(StateStruct(s)) ==
            [s.channel, ToByte(s.power), ToByte(s.rxSens), s.energyState, s.subState, s.state] + PutLe(s.radioTime, 8)
  {
    hide PutLe, Packed;
    var fs := StateStruct(s);
    PackedFirst(fs[6], []);
    PackedMore(fs[4], fs[5], [fs[6]]);
    PackedMore(fs[2], fs[3], [fs[4], fs[5], fs[6]]);
    PackedMore(fs[0], fs[1], [fs[2], fs[3], fs[4], fs[5], fs[6]]);
    assert [fs[6]] + [] == [fs[6]];
    assert [fs[4], fs[5]] + [fs[6]] == [fs[4], fs[5], fs[6]];
    assert [fs[2], fs[3]] + [fs[4], fs[5], fs[6]] == [fs[2], fs[3], fs[4], fs[5], fs[6]];
    assert [fs[0], fs[1]] + [fs[2], fs[3], fs[4], fs[5], fs[6]] == fs;
    OneByte(s.channel);
    OneByte(ToByte(s.power));
    OneByte(ToByte(s.rxSens));
    OneByte(s.energyState);
    OneByte(s.subState);
    OneByte(s.state);
  }

  lemma ParamLayout(param: Byte, value: Int32)
    ensures Packed(ParamStruct(param, value)) == ParamBytes(param, value)
  {
    hide PutLe, Packed;
    PackedTwo(ParamStruct(param, value)[0], ParamStruct(param, value)[1]);
    OneByte(param);
  }

  lemma HostLayout(h: HostData)
    ensures Packed(PortStruct(h)) + h.src + h.dst == HostBytes(h)
  {
    hide PutLe, Packed;
    PackedTwo(PortStruct(h)[0], PortStruct(h)[1]);
  }

  // ---------- from the dispatcher to a node ----------

  /** The events that the dispatcher sends, each with the struct its type asks for. */
  predicate SentToNode(e: Event) {
    if e.kind in {COMM_START, TX_DONE, CHANNEL_SAMPLE, RX_DONE} then e.extra.Comm?
    else if e.kind in {PARAM_GET, PARAM_SET} then e.extra.Param?
    else if e.kind in {UDP_FROM_HOST, IP6_FROM_HOST} then e.extra.Host?
    else e.extra.Plain?
  }

  /** What the dispatcher serializes is, byte for byte, the event as a node process has it in
      memory. */
  lemma NodeReadsDispatcher(e: Event)
    requires SentToNode(e) && |Payload(e)| < 0x1_0000
    ensures Serialize(e) == NodeBytes(e)
  {
    hide Packed, CommBytes, ParamBytes, HostBytes, Header;
    match e.extra {
      case Comm(c) => CommLayout(c);
      case Param(param, value) => ParamLayout(param, value);
      case Host(h) => HostLayout(h);
      case _ =>
    }
    assert StructBytes(e.extra) == ExtraBytes(e);
    HeaderLayout(e, |Payload(e)|);
  }

  // ---------- from a node to the dispatcher ----------

  /** The events that nodes send, each with the struct its type asks for. A frame that starts
      begins with its channel. */
  ghost predicate SentByNode(e: Event) {
    ValidExtra(e.extra) &&
    if e.kind == CHANNEL_SAMPLE then e.extra.Comm?
    else if e.kind == COMM_START then e.extra.Comm? && e.data != [] && e.data[0] == e.extra.comm.channel
    else if e.kind == RADIO_STATE then e.extra.State?
    else if e.kind == NODE_INFO then e.extra.NodeInfo? && e.extra.nodeId < 0x1_0000_0000
    else if e.kind == PARAM_RSP then e.extra.Param?
    else if e.kind in {UDP_TO_HOST, IP6_TO_HOST} then e.extra.Host?
    else e.kind != RX_DONE && e.extra.Plain?
  }

  lemma StateIsParsed(s: StateData, rest: seq<Byte>)
    ensures var b := Packed(StateStruct(s)) + rest;
            |b| >= STATE_LEN && ParseState(b) == s && b[STATE_LEN..] == rest
  {
    hide PutLe, GetLe, Packed, Capacity;
    StateLayout(s);
    Capacities();
    LeRoundTrip(s.radioTime, 8);
    PutLeSize(s.radioTime, 8);
    var b := Packed(StateStruct(s)) + rest;
    assert b[6..14] == PutLe(s.radioTime, 8);
  }

  lemma CommIsParsed(c: CommData, rest: seq<Byte>)
    ensures var b := Packed(CommStruct(c)) + rest;
            |b| == COMM_LEN + |rest| && ParseComm(b) == c && b[COMM_LEN..] == rest && b[0] == c.channel
  {
    hide Packed, ParseComm, PutLe;
    CommLayout(c);
    CommRoundTrip(c, rest);
    ParseCommChannel(CommBytes(c) + rest);
  }

  lemma NodeInfoIsParsed(id: Word32, rest: seq<Byte>)
    ensures var b := Packed([Field(4, id)]) + rest; |b| >= 4 && GetLe(b[0..4]) == id && b[4..] == rest
  {
    hide PutLe, GetLe, Packed, Capacity;
    PackedFirst(Field(4, id), []);
    assert [Field(4, id)] + [] == [Field(4, id)];
    Capacities();
    LeRoundTrip(id, 4);
    PutLeSize(id, 4);
    assert (Packed([Field(4, id)]) + rest)[0..4] == PutLe(id, 4);
  }

  lemma ParamIsParsed(param: Byte, value: Int32, rest: seq<Byte>)
    ensures var b := Packed(ParamStruct(param, value)) + rest;
            |b| >= PARAM_LEN && b[0] == param && GetInt32(b[1..5]) == value && b[PARAM_LEN..] == rest
  {
    hide PutLe, GetLe, Packed, Capacity;
    ParamLayout(param, value);
    Capacities();
    var u := if value < 0 then value + 0x1_0000_0000 else value;
    LeRoundTrip(u, 4);
    PutLeSize(u, 4);
    var b := Packed(ParamStruct(param, value)) + rest;
    assert b[1..5] == PutLe(u, 4);
  }

  lemma HostIsParsed(h: HostData, rest: seq<Byte>)
    requires |h.src| == |h.dst| == 16
    ensures var b := Packed(PortStruct(h)) + h.src + h.dst + rest;
            |b| >= TO_HOST_LEN && ParseHost(b) == h && b[TO_HOST_LEN..] == rest
  {
    hide PutLe, GetLe, Packed, Capacity;
    HostLayout(h);
    Capacities();
    LeRoundTrip(h.srcPort, 2);
    LeRoundTrip(h.dstPort, 2);
    PutLeSize(h.srcPort, 2);
    PutLeSize(h.dstPort, 2);
    var b := Packed(PortStruct(h)) + h.src + h.dst + rest;
    assert b[0..2] == PutLe(h.srcPort, 2) && b[2..4] == PutLe(h.dstPort, 2);
    assert b[4..20] == h.src && b[20..36] == h.dst;
  }

  /** The payload of a node's event is parsed into its struct and its data. */
  lemma PayloadIsParsed(e: Event)
    requires SentByNode(e)
    ensures var p := StructBytes(e.extra) + e.data;
            Assemble(e.delay, e.kind, e.msgId, p) == Decoded(e, HEADER_LEN + |p|)
  {
    hide Packed, ParseState, ParseComm, ParseHost, GetLe, GetInt32;
    match e.extra {
      case Comm(c) => CommIsParsed(c, e.data);
      case State(s) => StateIsParsed(s, e.data);
      case NodeInfo(id) => NodeInfoIsParsed(id, e.data);
      case Param(param, value) => ParamIsParsed(param, value, e.data);
      case Host(h) => HostIsParsed(h, e.data);
      case Plain => assert [] + e.data == e.data && e.data[0..] == e.data;
    }
  }

  /** Every event that a node sends is read by the dispatcher as it was meant, whatever follows
      it in the buffer. */
  lemma DispatcherReadsNode(e: Event, rest: seq<Byte>)
    requires SentByNode(e) && |StructBytes(e.extra)| + |e.data| <= MAX_PAYLOAD
    requires |NodeBytes(e)| + |rest| <= MAX_BUFFER
    ensures Deserialize(NodeBytes(e) + rest) == Decoded(e, |NodeBytes(e)|)
  {
    hide Packed, StructBytes, Header, Assemble, GetWord16, GetWord64, SentByNode;
    var p := StructBytes(e.extra) + e.data;
    HeaderLayout(e, |p|);
    var b := NodeBytes(e) + rest;
    assert b == Header(e.delay, e.kind, e.msgId, |p|) + (p + rest);
    HeaderFields(e.delay, e.kind, e.msgId, |p|, p + rest);
    assert b[19..19 + |p|] == b[19..][..|p|] == p;
    PayloadIsParsed(e);
  }

  ghost function AllNodeBytes(es: seq<Event>): seq<Byte> {
    if es == [] then [] else NodeBytes(es[0]) + AllNodeBytes(es[1..])
  }

  ghost predicate AllSentByNode(es: seq<Event>) {
    forall e :: e in es ==> SentByNode(e) && |StructBytes(e.extra)| + |e.data| <= MAX_PAYLOAD
  }

  /** The reader recovers every sequence of events that a node sends, of all types, and what
      follows it is read as if it stood alone. */
  lemma {:induction false} NodeStream(es: seq<Event>, rest: seq<Byte>, nodeId: nat)
    requires AllSentByNode(es) && |AllNodeBytes(es) + rest| <= MAX_BUFFER && nodeId > 0
    ensures ReadAll(AllNodeBytes(es) + rest, nodeId) == ReadAll(rest, nodeId).AfterAll(es)
    decreases |es|
  {
    hide NodeBytes, StructBytes, Deserialize, SentByNode;
    if es == [] {
      assert AllNodeBytes(es) + rest == rest;
    } else {
      var e, tail := es[0], AllNodeBytes(es[1..]) + rest;
      assert AllNodeBytes(es) + rest == NodeBytes(e) + tail;
      DispatcherReadsNode(e, tail);
      NodeBytesLength(e);
      assert (NodeBytes(e) + tail)[|NodeBytes(e)|..] == tail;
      NodeStream(es[1..], rest, nodeId);
      assert [e] + (es[1..] + ReadAll(rest, nodeId).events) == es + ReadAll(rest, nodeId).events;
    }
  }

  lemma NodeBytesLength(e: Event)
    requires |StructBytes(e.extra)| + |e.data| <= MAX_PAYLOAD
    ensures |NodeBytes(e)| > 0
  {
    hide Packed, StructBytes;
    HeaderLayout(e, |StructBytes(e.extra)| + |e.data|);
  }

  /** A connection that starts with a node's introduction goes by that node's id and loses
      nothing of what the node sends after it. */
  lemma NodeConnection(id: Word32, msgId: Word64, es: seq<Event>)
    requires AllSentByNode(es) && id > 0
    requires |NodeBytes(Event(0, NODE_INFO, msgId, NodeInfo(id), []))| + |AllNodeBytes(es)| <= MAX_BUFFER
    ensures var info := Event(0, NODE_INFO, msgId, NodeInfo(id), []);
            ReadAll(NodeBytes(info) + AllNodeBytes(es), 0) == Reading([info] + es, id, Kept)
  {
    hide NodeBytes, Deserialize;
    var info := Event(0, NODE_INFO, msgId, NodeInfo(id), []);
    NodeInfoIsParsed(id, []);
    InfoLength(id);
    DispatcherReadsNode(info, AllNodeBytes(es));
    NodeBytesLength(info);
    assert (NodeBytes(info) + AllNodeBytes(es))[|NodeBytes(info)|..] == AllNodeBytes(es);
    NodeStream(es, [], id);
    assert AllNodeBytes(es) + [] == AllNodeBytes(es) && es + [] == es;
  }

  lemma InfoLength(id: Word32)
    ensures |StructBytes(NodeInfo(id))| == 4
  {
    PackedFirst(Field(4, id), []);
    PutLeSize(id, 4);
    assert [Field(4, id)] + [] == [Field(4, id)];
  }
}
