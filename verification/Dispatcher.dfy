/** The virtual-time dispatcher as functions of its state (dispatcher.go, Node.go): node
    records, alarms, the queue of events and the set of nodes that are still at work. */
module Dispatcher {
  import opened SimTypes
  import opened Heap
  import opened NodeOrder
  import FailureCtrl

  /** Whether the node process has connected yet, and whether it has left again. */
  datatype Status = Starting | Connected | Gone

  /** `serial` tells apart nodes that had the same id at different times. */
  datatype Node = Node(serial: nat, createTime: nat, curTime: nat, msgId: nat, status: Status,
                       failure: FailureCtrl.Schedule)

  datatype Kind = AlarmFired | RadioLog | CommStart | TxDone | RxDone | ChannelSample | RadioState | FromHost

  /** What an event carries besides its timestamp and node. `must` marks events to be dispatched
      to nodes; the others are for the dispatcher and the radio model. */
  datatype Body = Body(kind: Kind, must: bool, delay: nat, duration: nat, ok: bool, serial: nat)

  type Event = Entry<Body>

  /** A message to a node process: its id and the time the node has to move ahead. */
  datatype Msg = Msg(id: nat, delay: nat)

  datatype State = State(curTime: nat, nodes: map<int, Node>, order: seq<int>, alarms: map<int, nat>,
                         queue: multiset<Event>, alive: set<int>, inbox: map<int, seq<Msg>>, serials: nat)

  /** What the radio model, the random generators and the sockets decide while an event is
      processed. */
  datatype Choice = Choice(reached: set<int>, logged: set<int>, aborted: bool, delivered: bool, offset: nat,
                           broken: set<int>)

  /** What the operations below rely on: every node has a socket, its record is not ahead of
      the present, and its failure controller's assertions hold. */
  ghost predicate Sound(d: State) {
    d.inbox.Keys == d.nodes.Keys &&
    forall n :: n in d.nodes ==> d.nodes[n].curTime <= d.curTime && d.nodes[n].failure.Consistent()
  }

  const Empty := State(0, map[], [], map[], multiset{}, {}, map[], 0)

  // ---------- nodes ----------

  /** A node is alive from its creation: its process has been started. */
  ghost function AddNode(d: State, n: int): State {
    d.(nodes := d.nodes[n := Node(d.serials, d.curTime, d.curTime, 0, Starting, FailureCtrl.NoSchedule)],
       order := SortedIds(d.nodes.Keys + {n}), alarms := d.alarms[n := EVER], alive := d.alive + {n},
       inbox := d.inbox[n := []], serials := d.serials + 1)
  }

  /** Events of a deleted node stay in the queue, but belong to no node. */
  function Orphaned(e: Event, n: int): Event {
    if e.nodeId == n then e.(nodeId := INVALID_NODE_ID) else e
  }

  ghost predicate IsOrphaned(queue: multiset<Event>, queue': multiset<Event>, n: int) {
    exists q: seq<Event>, q': seq<Event> :: queue == multiset(q) && queue' == multiset(q') && OrphanedAll(q, q', n)
  }

  ghost predicate OrphanedAll(q: seq<Event>, q': seq<Event>, n: int) {
    |q'| == |q| && forall i :: 0 <= i < |q| ==> q'[i] == Orphaned(q[i], n)
  }

  ghost function DeleteNode(d: State, n: int, queue: multiset<Event>): State {
    d.(nodes := d.nodes - {n}, order := SortedIds(d.nodes.Keys - {n}), alarms := d.alarms - {n}, alive := d.alive - {n},
       inbox := d.inbox - {n}, queue := queue)
  }

  // ---------- messages to nodes ----------

  /** An offset the failure controller may draw. */
  function Offset(s: FailureCtrl.Schedule, offset: nat): (rel: nat)
    ensures s.Consistent() ==> s.Offset(rel)
  {
    if s.CanFail() && s.duration < s.interval then offset % (s.interval - s.duration) else 0
  }

  function Wake(d: State, n: int, t: nat): Event
    requires n in d.nodes
  {
    Entry(t, n, Body(AlarmFired, false, 0, 0, true, d.nodes[n].serial))
  }

  /** The failure controller of a node whose time moves to the present, and the wake-up it asks
      for. */
  function FailuresAdvanced(d: State, n: int, offset: nat): (FailureCtrl.Schedule, multiset<Event>)
    requires Sound(d) && n in d.nodes
  {
    var node := d.nodes[n];
    if d.curTime > node.curTime then
      var (failure, ts, isUpdated) := FailureCtrl.Advanced(node.failure, d.curTime, Offset(node.failure, offset));
      (failure, if isUpdated then multiset{Wake(d, n, ts)} else multiset{})
    else (node.failure, multiset{})
  }

  /** Sends a message to a node: moves its record to the present and marks it alive. A socket
      that turns out to be broken disconnects the node instead. */
  function Send(d: State, n: int, ch: Choice): State
    requires Sound(d) && n in d.nodes
  {
    var node := d.nodes[n];
    var (failure, wakes) := FailuresAdvanced(d, n, ch.offset);
    var sent := n !in ch.broken && node.status == Connected;
    d.(nodes := d.nodes[n := node.(msgId := node.msgId + 1, curTime := d.curTime, failure := failure,
                                   status := if sent then Connected else Gone)],
       alarms := d.alarms[n := EVER],
       queue := d.queue + wakes,
       alive := if sent then d.alive + {n} else d.alive,
       inbox := if sent then d.inbox[n := d.inbox[n] + [Msg(node.msgId + 1, d.curTime - node.curTime)]] else d.inbox)
  }

  /** Moves a node's time forward with an otherwise empty message. */
  function AdvanceNode(d: State, n: int, timestamp: nat, force: bool, ch: Choice): State
    requires Sound(d) && n in d.nodes
  {
    if timestamp <= d.nodes[n].curTime && !force then d
    else if d.nodes[n].status != Connected then d.(alarms := d.alarms[n := EVER])
    else Send(d, n, ch)
  }

  // ---------- messages from nodes ----------

  function Wait(delay: nat): nat {
    if delay >= MAX_INT32 then EVER else delay
  }

  /** The first message of a node tells that it has connected. */
  function Heard(d: State, n: int): State
    requires n in d.nodes
  {
    if d.nodes[n].status == Starting then d.(nodes := d.nodes[n := d.nodes[n].(status := Connected)]) else d
  }

  /** A node goes to sleep; it counts as sleeping only if it has seen the latest message. */
  function HandleSleep(d: State, n: int, msgId: nat, delay: nat): State
    requires n in d.nodes
  {
    Heard(d, n).(alive := if msgId == d.nodes[n].msgId then d.alive - {n} else d.alive,
                 alarms := d.alarms[n := d.curTime + Wait(delay)])
  }

  function HandleQueued(d: State, n: int, body: Body): State
    requires n in d.nodes
  {
    var b := body.(must := body.kind == FromHost, serial := d.nodes[n].serial);
    Heard(d, n).(queue := d.queue + multiset{Entry(d.curTime, n, b)})
  }

  function HandleDisconnect(d: State, n: int): State
    requires n in d.nodes
  {
    d.(nodes := d.nodes[n := d.nodes[n].(status := Gone)], alive := d.alive - {n}, alarms := d.alarms[n := EVER])
  }

  // ---------- events of the queue ----------

  /** The radio model's reaction to the start of a frame. */
  function OnCommStart(e: Event, aborted: bool): multiset<Event> {
    if aborted then multiset{e.(timestamp := e.timestamp + 1, body := e.body.(kind := TxDone, must := true, ok := false))}
    else
      (if e.body.ok then multiset{e.(body := e.body.(must := true))} else multiset{}) +
      multiset{e.(timestamp := e.timestamp + e.body.duration, body := e.body.(kind := TxDone))}
  }

  /** Its reaction to the end of a frame. */
  function OnTxDone(e: Event): multiset<Event> {
    multiset{e.(body := e.body.(must := true))} +
    (if e.body.ok then multiset{e.(body := e.body.(kind := RxDone, must := true))} else multiset{})
  }

  function OnChannelSample(e: Event): multiset<Event> {
    multiset{e.(timestamp := e.timestamp + e.body.duration, body := e.body.(must := true))}
  }

  function Enqueue(d: State, events: multiset<Event>): State {
    d.(queue := d.queue + events)
  }

  /** A node that a frame of src is sent to. A node that has left may still be in receive state:
      its record moves, and the write fails. */
  predicate Hears(d: State, src: int, dst: int, ch: Choice) {
    dst in ch.reached && dst != src && dst in d.nodes && d.nodes[dst].status != Starting && !d.nodes[dst].failure.failed
  }

  /** Sends a frame to those of the nodes that hear it; the radio model may log each one. */
  function SendFrame(d: State, src: int, ids: seq<int>, logs: bool, ch: Choice): State
    requires Sound(d)
    decreases |ids|
  {
    if ids == [] then d
    else
      var n := ids[0];
      if !Hears(d, src, n, ch) then SendFrame(d, src, ids[1..], logs, ch)
      else
        var log := Entry(d.curTime, n, Body(RadioLog, false, 0, 0, true, d.nodes[n].serial));
        var d' := Enqueue(d, if logs && n in ch.logged then multiset{log} else multiset{});
        SendStaysSound(d', n, ch);
        SendFrame(Send(d', n, ch), src, ids[1..], logs, ch)
  }

  lemma SendStaysSound(d: State, n: int, ch: Choice)
    requires Sound(d) && n in d.nodes
    ensures Sound(Send(d, n, ch))
  {
    var node := d.nodes[n];
    FailureCtrl.AdvancedStaysConsistent(node.failure, d.curTime, Offset(node.failure, ch.offset));
    hide FailureCtrl.Advanced;
  }

  function ProcessEvent(d: State, e: Event, ch: Choice): State
    requires Sound(d)
  {
    if e.nodeId !in d.nodes then d
    else if !e.body.must then
      match e.body.kind
      case AlarmFired => AdvanceNode(d, e.nodeId, d.curTime, false, ch)
      case CommStart => Enqueue(d, OnCommStart(e, ch.aborted))
      case RadioState =>
        if e.body.delay > 0 then Enqueue(d, multiset{Wake(d, e.nodeId, d.curTime + e.body.delay)}) else d
      case TxDone => Enqueue(d, OnTxDone(e))
      case ChannelSample => Enqueue(d, OnChannelSample(e))
      case _ => d
    else
      match e.body.kind
      case CommStart => if d.nodes[e.nodeId].failure.failed then d else SendFrame(d, e.nodeId, d.order, false, ch)
      case RxDone => if d.nodes[e.nodeId].failure.failed then d else SendFrame(d, e.nodeId, d.order, true, ch)
      case FromHost => Send(d, e.nodeId, ch)
      case _ => if ch.delivered then Send(d, e.nodeId, ch) else d
  }
}
