/** The dispatcher and the node processes in lock-step (dispatcher.go, Node.go, system.c,
    event-sim.c): messages travel over FIFO sockets in both directions, and every order of
    the steps of dispatcher and nodes is a run. */
module LockStep {
  import opened SimTypes
  import opened Heap
  import opened NodeOrder
  import opened Dispatcher
  import opened Causality
  import DriftClock
  import FailureCtrl

  // ---------- node processes ----------

  /** A node process: its drifting clock, the time it was told has passed, the id of the last
      message it read, whether it is at work, and the delay it last asked for. */
  datatype Proc = Proc(clock: DriftClock.ClockState, received: nat, lastMsgId: nat, awake: bool, asked: nat)

  datatype Content = Sleeps(delay: nat) | Queues(body: Body) | Informs

  /** What a node says is tagged with the id of the last message it read. */
  datatype Said = Said(msgId: nat, content: Content)

  function NewProc(ppm: DriftClock.Ppm): Proc {
    Proc(DriftClock.ClockState(0, ppm, 0), 0, 0, true, 0)
  }

  function Read(p: Proc, msg: Msg): Proc {
    Proc(DriftClock.After(p.clock, msg.delay), p.received + msg.delay, msg.id, true, p.asked)
  }

  // ---------- one node and its record ----------

  ghost function Delays(msgs: seq<Msg>): nat {
    if msgs == [] then 0 else Delays(msgs[..|msgs| - 1]) + msgs[|msgs| - 1].delay
  }

  /** Message ids are consecutive, and unread messages end with the latest one. */
  ghost predicate Numbered(node: Node, p: Proc, unread: seq<Msg>) {
    p.lastMsgId + |unread| == node.msgId &&
    forall i :: 0 <= i < |unread| ==> unread[i].id == p.lastMsgId + 1 + i
  }

  /** The node's clock and the messages on their way add up to the dispatcher's record. */
  ghost predicate InTime(node: Node, p: Proc, unread: seq<Msg>) {
    p.clock == DriftClock.After(DriftClock.ClockState(0, p.clock.ppm, 0), p.received) &&
    node.createTime + p.received + Delays(unread) == node.curTime
  }

  /** A node says nothing after going to sleep until it has read another message. */
  ghost predicate Answers(p: Proc, said: seq<Said>) {
    (forall i :: 0 <= i < |said| ==> said[i].msgId <= p.lastMsgId) &&
    (forall i :: 0 <= i < |said| && said[i].content.Sleeps? ==> said[i].content.delay > 0) &&
    (forall i, j :: 0 <= i < j < |said| && said[i].content.Sleeps? ==> said[i].msgId < said[j].msgId) &&
    (p.awake ==> forall i :: 0 <= i < |said| && said[i].content.Sleeps? ==> said[i].msgId < p.lastMsgId) &&
    (!p.awake && said != [] ==> said[|said| - 1] == Said(p.lastMsgId, Sleeps(p.asked)))
  }

  /** A node the dispatcher counts as sleeping sleeps, has read everything, and its alarm is
      set for what it asked for. */
  ghost predicate AtRest(node: Node, p: Proc, unread: seq<Msg>, said: seq<Said>, alarm: nat) {
    unread == [] && said == [] && !p.awake && p.asked > 0 && node.status == Connected &&
    alarm == node.curTime + Wait(p.asked)
  }

  ghost predicate Linked(node: Node, p: Proc, unread: seq<Msg>, said: seq<Said>, alive: bool, alarm: nat) {
    Numbered(node, p, unread) && InTime(node, p, unread) && Answers(p, said) &&
    (!alive ==> AtRest(node, p, unread, said, alarm))
  }

  // ---------- the world ----------

  datatype Mode = Paused | Going | Processing

  datatype World = World(d: State, procs: map<int, Proc>, said: map<int, seq<Said>>, mode: Mode, pauseTime: nat)

  datatype Step =
    // the dispatcher
    | Goes(duration: nat)
    | Cancels
    | Hears(n: int)
    | Adds(n: int, ppm: DriftClock.Ppm)
    | Deletes(n: int, queue: multiset<Event>)
    | Commands(n: int, force: bool, ch: Choice)
    | SchedulesFailure(n: int, failure: FailureCtrl.Schedule)
    | Loses(n: int)
    | Idles(t: nat)
    | BeginsInstant(t: nat)
    | FiresAlarm(n: int, ch: Choice)
    | TakesEvent(e: Event, ch: Choice)
    | EndsInstant
    | Finishes
    // the nodes
    | Reads(n: int)
    | Says(n: int, content: Content)

  function Handle(d: State, n: int, s: Said): State
    requires n in d.nodes
  {
    match s.content
    case Sleeps(delay) => HandleSleep(d, n, s.msgId, delay)
    case Queues(body) => HandleQueued(d, n, body)
    case Informs => Dispatcher.Heard(d, n)
  }

  function PauseAt(now: nat, duration: nat): nat {
    if now + duration > EVER then EVER else now + duration
  }

  /** The dispatcher handles the first message that waits from n. */
  function AfterHearing(w: World, n: int): World
    requires n in w.d.nodes && n in w.said && w.said[n] != []
  {
    w.(d := Handle(w.d, n, w.said[n][0]), said := w.said[n := w.said[n][1..]])
  }

  ghost function AfterAdding(w: World, n: int, ppm: DriftClock.Ppm): World {
    w.(d := AddNode(w.d, n), procs := w.procs[n := NewProc(ppm)], said := w.said[n := []])
  }

  ghost function AfterDeleting(w: World, n: int, queue: multiset<Event>): World {
    w.(d := DeleteNode(w.d, n, queue), procs := w.procs - {n}, said := w.said - {n})
  }

  function AfterScheduling(w: World, n: int, failure: FailureCtrl.Schedule): World
    requires n in w.d.nodes
  {
    w.(d := w.d.(nodes := w.d.nodes[n := w.d.nodes[n].(failure := failure)]))
  }

  /** The node process reads the first message that waits for it. */
  function AfterReading(w: World, n: int): World
    requires n in w.procs && n in w.d.inbox && w.d.inbox[n] != []
  {
    w.(d := w.d.(inbox := w.d.inbox[n := w.d.inbox[n][1..]]),
       procs := w.procs[n := Read(w.procs[n], w.d.inbox[n][0])])
  }

  function AfterSaying(w: World, n: int, content: Content): World
    requires n in w.procs && n in w.said
  {
    var p := w.procs[n];
    w.(said := w.said[n := w.said[n] + [Said(p.lastMsgId, content)]],
       procs := w.procs[n := if content.Sleeps? then p.(awake := false, asked := content.delay) else p])
  }

  ghost function Next(w: World, step: Step): World
    requires Causality.Inv(w.d) && Allowed(w, step)
  {
    var d := w.d;
    match step
    case Goes(duration) => w.(mode := Going, pauseTime := PauseAt(d.curTime, duration))
    case Cancels => w.(mode := Paused, pauseTime := d.curTime)
    case Hears(n) => AfterHearing(w, n)
    case Adds(n, ppm) => AfterAdding(w, n, ppm)
    case Deletes(n, queue) => AfterDeleting(w, n, queue)
    case Commands(n, force, ch) => w.(d := AdvanceNode(d, n, d.curTime, force, ch))
    case SchedulesFailure(n, failure) => AfterScheduling(w, n, failure)
    case Loses(n) => w.(d := HandleDisconnect(d, n))
    case Idles(t) => w.(d := d.(curTime := t))
    case BeginsInstant(t) => w.(d := d.(curTime := t), mode := Processing)
    case FiresAlarm(n, ch) => w.(d := AdvanceNode(d, n, d.alarms[n], false, ch))
    case TakesEvent(e, ch) => PopKeeps(d, e); w.(d := ProcessEvent(d.(queue := d.queue - multiset{e}), e, ch))
    case EndsInstant => w.(mode := Going)
    case Finishes => w.(d := d.(curTime := w.pauseTime), mode := Paused)
    case Reads(n) => AfterReading(w, n)
    case Says(n, content) => AfterSaying(w, n, content)
  }

  /** When the program takes the step. Time moves only while no node is alive; the wall clock
      moves it no further than the next alarm or event, and never back. */
  ghost predicate Allowed(w: World, step: Step)
    requires Causality.Inv(w.d)
  {
    var d := w.d;
    match step
    case Goes(duration) => w.mode == Paused
    case Cancels => w.mode == Going
    case Hears(n) => w.mode != Processing && n in d.nodes && n in w.said && w.said[n] != []
    case Adds(n, _) => w.mode != Processing && n !in d.nodes && n > INVALID_NODE_ID
    case Deletes(n, queue) => w.mode != Processing && n in d.nodes && IsOrphaned(d.queue, queue, n)
    case Commands(n, _, _) => w.mode != Processing && n in d.nodes
    case SchedulesFailure(n, failure) => w.mode != Processing && n in d.nodes && failure.Consistent()
    case Loses(n) => w.mode != Processing && n in d.nodes
    case Idles(t) => w.mode == Going && d.alive == {} && d.curTime <= t <= w.pauseTime && NothingBefore(d, t)
    case BeginsInstant(t) =>
      w.mode == Going && d.alive == {} && t <= w.pauseTime && NothingBefore(d, t) && !QuietUntil(d, t)
    case FiresAlarm(n, _) =>
      w.mode == Processing && n in d.nodes && d.alarms[n] <= d.curTime && NothingBefore(d, d.alarms[n])
    case TakesEvent(e, _) =>
      w.mode == Processing && e in d.queue && e.timestamp <= d.curTime && NothingBefore(d, e.timestamp)
    case EndsInstant => w.mode == Processing && QuietUntil(d, d.curTime)
    case Finishes => w.mode == Going && d.alive == {} && QuietUntil(d, w.pauseTime)
    case Reads(n) => n in d.nodes && n in w.procs && n in d.inbox && d.inbox[n] != []
    case Says(n, content) => CanSay(w, n, content)
  }

  ghost predicate Links(d: State, procs: map<int, Proc>, said: map<int, seq<Said>>)
    requires Causality.Inv(d)
  {
    procs.Keys == said.Keys == d.nodes.Keys && forall n :: n in d.nodes ==> LinkAt(d, procs, said, n)
  }

  ghost predicate Inv(w: World) {
    Causality.Inv(w.d) && Links(w.d, w.procs, w.said) &&
    w.d.curTime <= w.pauseTime <= EVER && (w.mode == Paused ==> w.d.curTime == w.pauseTime)
  }

  const Start := World(Empty, map[], map[], Paused, 0)

  // ---------- what the steps do to one node ----------

  lemma DelaysPlus(msgs: seq<Msg>, msg: Msg)
    ensures Delays(msgs + [msg]) == Delays(msgs) + msg.delay
  {
    assert (msgs + [msg])[..|msgs|] == msgs;
  }

  lemma {:induction false} DelaysFirst(msgs: seq<Msg>)
    requires msgs != []
    ensures Delays(msgs) == msgs[0].delay + Delays(msgs[1..])
    decreases |msgs|
  {
    var k := |msgs| - 1;
    if k > 0 {
      DelaysFirst(msgs[..k]);
      assert msgs[..k][1..] == msgs[1..][..k - 1];
      assert msgs[1..][k - 1] == msgs[k];
    }
  }

  lemma SentLinked(node: Node, p: Proc, unread: seq<Msg>, said: seq<Said>, alive: bool, alarm: nat, now: nat,
                   failure: FailureCtrl.Schedule)
    requires Linked(node, p, unread, said, alive, alarm) && node.curTime <= now
    ensures Linked(node.(msgId := node.msgId + 1, curTime := now, failure := failure), p,
                   unread + [Msg(node.msgId + 1, now - node.curTime)], said, true, EVER)
  {
    DelaysPlus(unread, Msg(node.msgId + 1, now - node.curTime));
  }

  lemma ReadLinked(node: Node, p: Proc, unread: seq<Msg>, said: seq<Said>, alarm: nat)
    requires Linked(node, p, unread, said, true, alarm) && unread != []
    ensures Linked(node, Read(p, unread[0]), unread[1..], said, true, alarm)
  {
    DelaysFirst(unread);
    ClockReads(p, unread[0].delay);
    hide DriftClock.After;
    assert Numbered(node, Read(p, unread[0]), unread[1..]);
    assert InTime(node, Read(p, unread[0]), unread[1..]);
    assert Answers(Read(p, unread[0]), said);
  }

  lemma ClockReads(p: Proc, delay: nat)
    requires p.clock == DriftClock.After(DriftClock.ClockState(0, p.clock.ppm, 0), p.received)
    ensures DriftClock.After(p.clock, delay) ==
            DriftClock.After(DriftClock.ClockState(0, p.clock.ppm, 0), p.received + delay)
    ensures DriftClock.After(p.clock, delay).ppm == p.clock.ppm
  {
    DriftClock.TwoAdvances(DriftClock.ClockState(0, p.clock.ppm, 0), p.received, delay);
  }

  lemma SaidLinked(node: Node, p: Proc, unread: seq<Msg>, said: seq<Said>, alarm: nat, content: Content)
    requires Linked(node, p, unread, said, true, alarm) && p.awake
    requires content.Sleeps? ==> content.delay > 0
    ensures Linked(node, if content.Sleeps? then p.(awake := false, asked := content.delay) else p, unread,
                   said + [Said(p.lastMsgId, content)], true, alarm)
  {
  }

  /** Hearing that a node sleeps: if it has read the latest message, then it is at rest, as
      this was the last thing it said. */
  lemma SleepLinked(node: Node, p: Proc, unread: seq<Msg>, said: seq<Said>, alarm: nat, now: nat)
    requires Linked(node, p, unread, said, true, alarm) && said != [] && said[0].content.Sleeps?
    requires node.curTime == now
    ensures Linked(node.(status := Connected), p, unread, said[1..], said[0].msgId != node.msgId,
                   now + Wait(said[0].content.delay))
  {
    var node' := node.(status := Connected);
    assert Answers(p, said[1..]) by {
      forall i, j | 0 <= i < j < |said[1..]| && said[1..][i].content.Sleeps?
        ensures said[1..][i].msgId < said[1..][j].msgId
      {
        assert said[1..][i] == said[i + 1] && said[1..][j] == said[j + 1];
      }
    }
    if said[0].msgId == node.msgId {
      assert unread == [];
      assert !p.awake;
      assert AtRest(node', p, unread, said[1..], now + Wait(said[0].content.delay));
    }
  }

  lemma OtherLinked(node: Node, p: Proc, unread: seq<Msg>, said: seq<Said>, alarm: nat)
    requires Linked(node, p, unread, said, true, alarm) && said != []
    ensures Linked(node.(status := Connected), p, unread, said[1..], true, alarm)
  {
    assert Answers(p, said[1..]) by {
      forall i, j | 0 <= i < j < |said[1..]| && said[1..][i].content.Sleeps?
        ensures said[1..][i].msgId < said[1..][j].msgId
      {
        assert said[1..][i] == said[i + 1] && said[1..][j] == said[j + 1];
      }
    }
  }

  // ---------- what the steps do to all nodes ----------

  /** A node's link, or what remains of it when the node has left. */
  ghost predicate LinkAt(d: State, procs: map<int, Proc>, said: map<int, seq<Said>>, n: int)
    requires n in d.nodes && n in d.inbox && n in d.alarms && n in procs && n in said
  {
    (d.nodes[n].status != Gone ==>
      Linked(d.nodes[n], procs[n], d.inbox[n], said[n], n in d.alive, d.alarms[n])) &&
    (forall i :: 0 <= i < |said[n]| && said[n][i].content.Sleeps? ==> said[n][i].content.delay > 0)
  }

  /** Every other node is left alone. */
  ghost predicate SameBut(d: State, d': State, procs: map<int, Proc>, procs': map<int, Proc>,
                          said: map<int, seq<Said>>, said': map<int, seq<Said>>, n: int)
  {
    forall m :: m in d'.nodes && m != n ==>
      m in d.nodes && d'.nodes[m] == d.nodes[m] &&
      m in d.inbox && m in d'.inbox && d'.inbox[m] == d.inbox[m] &&
      m in d.alarms && m in d'.alarms && d'.alarms[m] == d.alarms[m] && (m in d'.alive <==> m in d.alive) &&
      m in procs && m in procs' && procs'[m] == procs[m] && m in said && m in said' && said'[m] == said[m]
  }

  ghost predicate Keyed(d: State, procs: map<int, Proc>, said: map<int, seq<Said>>) {
    d.inbox.Keys == d.alarms.Keys == procs.Keys == said.Keys == d.nodes.Keys
  }

  lemma KeysOf(d: State, procs: map<int, Proc>, said: map<int, seq<Said>>)
    requires Causality.Inv(d) && Links(d, procs, said)
    ensures Keyed(d, procs, said) && Sound(d)
  {
  }

  lemma PartsOf(w: World, n: int)
    requires Inv(w) && n in w.d.nodes
    ensures Keyed(w.d, w.procs, w.said) && Sound(w.d)
    ensures AlarmAhead(w.d, n) && NodeTimes(w.d, n) && LinkAt(w.d, w.procs, w.said, n)
  {
  }

  lemma OneLinkChanges(d: State, d': State, procs: map<int, Proc>, procs': map<int, Proc>,
                       said: map<int, seq<Said>>, said': map<int, seq<Said>>, n: int)
    requires Causality.Inv(d) && Causality.Inv(d') && Links(d, procs, said)
    requires procs'.Keys == said'.Keys == d'.nodes.Keys && SameBut(d, d', procs, procs', said, said', n)
    requires n in d'.nodes ==> LinkAt(d', procs', said', n)
    ensures Links(d', procs', said')
  {
    forall m | m in d'.nodes ensures LinkAt(d', procs', said', m) {
      if m != n {
        assert LinkAt(d, procs, said, m);
      }
    }
  }

  lemma SentLink(d: State, n: int, ch: Choice, procs: map<int, Proc>, said: map<int, seq<Said>>)
    requires Causality.Inv(d) && n in d.nodes && Links(d, procs, said)
    ensures LinkAt(Send(d, n, ch), procs, said, n)
  {
    assert LinkAt(d, procs, said, n);
    var failure := FailuresAdvanced(d, n, ch.offset).0;
    hide FailuresAdvanced, Linked;
    if d.nodes[n].status != Gone {
      SentLinked(d.nodes[n], procs[n], d.inbox[n], said[n], n in d.alive, d.alarms[n], d.curTime, failure);
    }
  }

  lemma SendKeepsLinks(d: State, n: int, ch: Choice, procs: map<int, Proc>, said: map<int, seq<Said>>)
    requires Causality.Inv(d) && n in d.nodes && d.nodes[n].status != Starting && Links(d, procs, said)
    ensures Causality.Inv(Send(d, n, ch)) && Links(Send(d, n, ch), procs, said)
  {
    hide FailuresAdvanced, LinkAt, Causality.Inv, Links;
    KeysOf(d, procs, said);
    var d' := Send(d, n, ch);
    SendKeeps(d, n, ch);
    assert d'.nodes.Keys == d.nodes.Keys;
    SentLink(d, n, ch, procs, said);
    assert SameBut(d, d', procs, procs, said, said, n);
    OneLinkChanges(d, d', procs, procs, said, said, n);
  }

  lemma AdvanceNodeKeepsLinks(d: State, n: int, timestamp: nat, force: bool, ch: Choice, procs: map<int, Proc>,
                              said: map<int, seq<Said>>)
    requires Causality.Inv(d) && n in d.nodes && Links(d, procs, said)
    ensures Causality.Inv(AdvanceNode(d, n, timestamp, force, ch))
    ensures Links(AdvanceNode(d, n, timestamp, force, ch), procs, said)
  {
    AdvanceNodeKeeps(d, n, timestamp, force, ch);
    assert LinkAt(d, procs, said, n);
    if timestamp <= d.nodes[n].curTime && !force {
    } else if d.nodes[n].status != Connected {
      var d' := AdvanceNode(d, n, timestamp, force, ch);
      assert NodeTimes(d, n);
      assert LinkAt(d', procs, said, n);
      assert SameBut(d, d', procs, procs, said, said, n);
      OneLinkChanges(d, d', procs, procs, said, said, n);
    } else {
      SendKeepsLinks(d, n, ch, procs, said);
    }
  }

  /** The queue and the time are no part of a link. */
  lemma QueueKeepsLinks(d: State, d': State, procs: map<int, Proc>, said: map<int, seq<Said>>)
    requires Causality.Inv(d) && Causality.Inv(d') && Links(d, procs, said)
    requires d' == d.(queue := d'.queue, curTime := d'.curTime)
    ensures Links(d', procs, said)
  {
    forall m | m in d'.nodes ensures LinkAt(d', procs, said, m) {
      assert LinkAt(d, procs, said, m);
    }
  }

  lemma {:induction false} SendFrameKeepsLinks(d: State, src: int, ids: seq<int>, logs: bool, ch: Choice,
                                               procs: map<int, Proc>, said: map<int, seq<Said>>)
    requires Causality.Inv(d) && Links(d, procs, said)
    ensures Causality.Inv(SendFrame(d, src, ids, logs, ch)) && Links(SendFrame(d, src, ids, logs, ch), procs, said)
    decreases |ids|
  {
    if ids != [] {
      var n := ids[0];
      if Dispatcher.Hears(d, src, n, ch) {
        var log := Entry(d.curTime, n, Body(RadioLog, false, 0, 0, true, d.nodes[n].serial));
        var more := if logs && n in ch.logged then multiset{log} else multiset{};
        var d1 := Enqueue(d, more);
        EnqueueKeeps(d, more);
        QueueKeepsLinks(d, d1, procs, said);
        SendKeepsLinks(d1, n, ch, procs, said);
        var d2 := Send(d1, n, ch);
        assert SendFrame(d, src, ids, logs, ch) == SendFrame(d2, src, ids[1..], logs, ch);
        hide Send, Causality.Inv, Enqueue, Links, SendFrame;
        SendFrameKeepsLinks(d2, src, ids[1..], logs, ch, procs, said);
      } else {
        SendFrameKeepsLinks(d, src, ids[1..], logs, ch, procs, said);
      }
    }
  }

  lemma ProcessEventKeepsLinks(d: State, e: Event, ch: Choice, procs: map<int, Proc>, said: map<int, seq<Said>>)
    requires Causality.Inv(d) && e.timestamp == d.curTime && Owned(d, e) && Links(d, procs, said)
    ensures Causality.Inv(ProcessEvent(d, e, ch)) && Links(ProcessEvent(d, e, ch), procs, said)
  {
    ProcessEventKeeps(d, e, ch);
    if e.nodeId in d.nodes {
      hide AdvanceNode, Send, SendFrame, Causality.Inv, Links;
      if e.body.must {
        match e.body.kind {
          case CommStart => SendFrameKeepsLinks(d, e.nodeId, d.order, false, ch, procs, said);
          case RxDone => SendFrameKeepsLinks(d, e.nodeId, d.order, true, ch, procs, said);
          case _ => SendsOwn(d, e, ch, procs, said);
        }
      } else if e.body.kind == AlarmFired {
        AdvanceNodeKeepsLinks(d, e.nodeId, d.curTime, false, ch, procs, said);
      } else {
        QueueKeepsLinks(d, ProcessEvent(d, e, ch), procs, said);
      }
    }
  }

  lemma SendsOwn(d: State, e: Event, ch: Choice, procs: map<int, Proc>, said: map<int, seq<Said>>)
    requires Causality.Inv(d) && Owned(d, e) && e.nodeId in d.nodes && Links(d, procs, said)
    ensures Causality.Inv(Send(d, e.nodeId, ch)) && Links(Send(d, e.nodeId, ch), procs, said)
  {
    SendKeepsLinks(d, e.nodeId, ch, procs, said);
  }

  // ---------- every run ----------

  /** A connected node with something left to be heard is alive and at the present. */
  lemma SpeakersAreAlive(w: World, n: int)
    requires Inv(w) && n in w.d.nodes && w.said[n] != [] && w.d.nodes[n].status != Gone
    ensures n in w.d.alive && w.d.nodes[n].curTime == w.d.curTime
    ensures Linked(w.d.nodes[n], w.procs[n], w.d.inbox[n], w.said[n], true, w.d.alarms[n])
  {
    assert LinkAt(w.d, w.procs, w.said, n) && NodeTimes(w.d, n);
  }

  lemma HearingSleepLinks(w: World, n: int)
    requires Inv(w) && n in w.d.nodes && n in w.said && w.said[n] != [] && w.said[n][0].content.Sleeps?
    ensures Causality.Inv(AfterHearing(w, n).d)
    ensures LinkAt(AfterHearing(w, n).d, w.procs, w.said[n := w.said[n][1..]], n)
  {
    hide Linked;
    assert LinkAt(w.d, w.procs, w.said, n) && NodeTimes(w.d, n);
    var s := w.said[n][0];
    if w.d.nodes[n].status != Gone {
      SpeakersAreAlive(w, n);
      SleepLinked(w.d.nodes[n], w.procs[n], w.d.inbox[n], w.said[n], w.d.alarms[n], w.d.curTime);
    }
    HandleSleepKeeps(w.d, n, s.msgId, s.content.delay);
  }

  lemma HearingOtherLinks(w: World, n: int)
    requires Inv(w) && n in w.d.nodes && n in w.said && w.said[n] != [] && !w.said[n][0].content.Sleeps?
    ensures Causality.Inv(AfterHearing(w, n).d)
    ensures LinkAt(AfterHearing(w, n).d, w.procs, w.said[n := w.said[n][1..]], n)
  {
    hide Linked;
    assert LinkAt(w.d, w.procs, w.said, n) && NodeTimes(w.d, n);
    var s := w.said[n][0];
    if w.d.nodes[n].status != Gone {
      SpeakersAreAlive(w, n);
      OtherLinked(w.d.nodes[n], w.procs[n], w.d.inbox[n], w.said[n], w.d.alarms[n]);
    }
    if s.content.Queues? {
      HandleQueuedKeeps(w.d, n, s.content.body);
    } else {
      HeardKeeps(w.d, n);
    }
  }

  lemma HearingKeeps(w: World, n: int)
    requires Inv(w) && n in w.d.nodes && n in w.said && w.said[n] != []
    ensures Inv(AfterHearing(w, n))
  {
    hide Linked, Causality.Inv, LinkAt;
    var d' := Handle(w.d, n, w.said[n][0]);
    var said' := w.said[n := w.said[n][1..]];
    if w.said[n][0].content.Sleeps? {
      HearingSleepLinks(w, n);
    } else {
      HearingOtherLinks(w, n);
    }
    HearingIsLocal(w, n);
    OneLinkChanges(w.d, d', w.procs, w.procs, w.said, said', n);
  }

  lemma HearingIsLocal(w: World, n: int)
    requires Inv(w) && n in w.d.nodes && n in w.said && w.said[n] != []
    ensures SameBut(w.d, AfterHearing(w, n).d, w.procs, w.procs, w.said, w.said[n := w.said[n][1..]], n)
    ensures AfterHearing(w, n).d.nodes.Keys == w.d.nodes.Keys && w.said[n := w.said[n][1..]].Keys == w.said.Keys
    ensures AfterHearing(w, n).d.curTime == w.d.curTime
  {
    hide Causality.Inv, Links, Linked, LinkAt, NodeTimes, AlarmAhead, Sound, Handle;
    PartsOf(w, n);
    HandleIsLocal(w.d, n, w.said[n][0]);
  }

  lemma HandleIsLocal(d: State, n: int, s: Said)
    requires n in d.nodes
    ensures var d' := Handle(d, n, s);
            d'.nodes.Keys == d.nodes.Keys && d'.curTime == d.curTime && d'.inbox == d.inbox &&
            (forall m :: m in d.nodes && m != n ==> d'.nodes[m] == d.nodes[m]) &&
            (forall m :: m in d.alarms && m != n ==> m in d'.alarms && d'.alarms[m] == d.alarms[m]) &&
            (forall m :: m != n ==> (m in d'.alive <==> m in d.alive))
  {
    assert Heard(d, n).nodes.Keys == d.nodes.Keys;
  }

  lemma NewLink(w: World, n: int, ppm: DriftClock.Ppm)
    requires Causality.Inv(w.d) && n !in w.d.nodes && n > INVALID_NODE_ID
    ensures var w' := AfterAdding(w, n, ppm); LinkAt(w'.d, w'.procs, w'.said, n)
  {
    hide Causality.Inv, SortedIds;
  }

  lemma AddNodeIsLocal(d: State, n: int)
    requires d.inbox.Keys == d.alarms.Keys == d.nodes.Keys
    ensures var d' := AddNode(d, n);
            d'.nodes.Keys == d.nodes.Keys + {n} && d'.curTime == d.curTime && d'.alarms.Keys == d'.inbox.Keys == d'.nodes.Keys &&
            forall m :: m in d.nodes && m != n ==>
              d'.nodes[m] == d.nodes[m] && d'.inbox[m] == d.inbox[m] && d'.alarms[m] == d.alarms[m] &&
              (m in d'.alive <==> m in d.alive)
  {
    hide SortedIds;
    var d' := AddNode(d, n);
    assert d'.nodes.Keys == d.nodes.Keys + {n};
    assert d'.inbox.Keys == d.inbox.Keys + {n};
    assert d'.alarms.Keys == d.alarms.Keys + {n};
  }

  lemma AddingKeeps(w: World, n: int, ppm: DriftClock.Ppm)
    requires Inv(w) && n !in w.d.nodes && n > INVALID_NODE_ID
    ensures Inv(AfterAdding(w, n, ppm))
  {
    hide LinkAt, AddNode, Causality.Inv, Links, Sound;
    KeysOf(w.d, w.procs, w.said);
    var w' := AfterAdding(w, n, ppm);
    AddNodeKeeps(w.d, n);
    AddNodeIsLocal(w.d, n);
    NewLink(w, n, ppm);
    assert w'.procs.Keys == w.procs.Keys + {n};
    assert w'.said.Keys == w.said.Keys + {n};
    assert SameBut(w.d, w'.d, w.procs, w'.procs, w.said, w'.said, n);
    OneLinkChanges(w.d, w'.d, w.procs, w'.procs, w.said, w'.said, n);
  }

  lemma DeleteNodeIsLocal(d: State, n: int, queue: multiset<Event>)
    requires d.inbox.Keys == d.alarms.Keys == d.nodes.Keys
    ensures var d' := DeleteNode(d, n, queue);
            d'.nodes.Keys == d.nodes.Keys - {n} && d'.curTime == d.curTime && d'.alarms.Keys == d'.inbox.Keys == d'.nodes.Keys &&
            forall m :: m in d'.nodes ==>
              d'.nodes[m] == d.nodes[m] && d'.inbox[m] == d.inbox[m] && d'.alarms[m] == d.alarms[m] &&
              (m in d'.alive <==> m in d.alive)
  {
    hide SortedIds;
    var d' := DeleteNode(d, n, queue);
    assert d'.nodes.Keys == d.nodes.Keys - {n};
    assert d'.inbox.Keys == d.inbox.Keys - {n};
    assert d'.alarms.Keys == d.alarms.Keys - {n};
  }

  lemma DeletingKeeps(w: World, n: int, queue: multiset<Event>)
    requires Inv(w) && n in w.d.nodes && IsOrphaned(w.d.queue, queue, n)
    ensures Inv(AfterDeleting(w, n, queue))
  {
    hide IsOrphaned, LinkAt, DeleteNode, Causality.Inv, Links, Sound;
    KeysOf(w.d, w.procs, w.said);
    var w' := AfterDeleting(w, n, queue);
    DeleteNodeKeeps(w.d, n, queue);
    DeleteNodeIsLocal(w.d, n, queue);
    assert w'.procs.Keys == w.procs.Keys - {n};
    assert w'.said.Keys == w.said.Keys - {n};
    assert SameBut(w.d, w'.d, w.procs, w'.procs, w.said, w'.said, n);
    OneLinkChanges(w.d, w'.d, w.procs, w'.procs, w.said, w'.said, n);
  }

  lemma SchedulingIsCausal(w: World, n: int, failure: FailureCtrl.Schedule)
    requires Inv(w) && n in w.d.nodes && failure.Consistent()
    ensures Causality.Inv(AfterScheduling(w, n, failure).d)
    ensures LinkAt(AfterScheduling(w, n, failure).d, w.procs, w.said, n)
  {
    hide Causality.Inv, Links, Linked;
    PartsOf(w, n);
    var d' := AfterScheduling(w, n, failure).d;
    assert d'.alarms == w.d.alarms[n := d'.alarms[n]];
    NodeChangeKeeps(w.d, d', n);
    FailureIsNoLink(w.d.nodes[n], w.procs[n], w.d.inbox[n], w.said[n], n in w.d.alive, w.d.alarms[n], failure);
  }

  lemma FailureSettingKeeps(w: World, n: int, failure: FailureCtrl.Schedule)
    requires Inv(w) && n in w.d.nodes && failure.Consistent()
    ensures Inv(AfterScheduling(w, n, failure))
  {
    hide Causality.Inv, Links, LinkAt, Sound, AlarmAhead, NodeTimes;
    var w' := AfterScheduling(w, n, failure);
    PartsOf(w, n);
    SchedulingIsCausal(w, n, failure);
    assert SameBut(w.d, w'.d, w.procs, w.procs, w.said, w.said, n);
    OneLinkChanges(w.d, w'.d, w.procs, w.procs, w.said, w.said, n);
  }

  lemma FailureIsNoLink(node: Node, p: Proc, unread: seq<Msg>, said: seq<Said>, alive: bool, alarm: nat,
                        failure: FailureCtrl.Schedule)
    ensures Linked(node.(failure := failure), p, unread, said, alive, alarm) <==>
            Linked(node, p, unread, said, alive, alarm)
  {
  }

  lemma LosingKeeps(w: World, n: int)
    requires Inv(w) && n in w.d.nodes
    ensures Inv(w.(d := HandleDisconnect(w.d, n)))
  {
    hide Linked, Causality.Inv, Links;
    var d' := HandleDisconnect(w.d, n);
    PartsOf(w, n);
    HandleDisconnectKeeps(w.d, n);
    assert d'.nodes.Keys == w.d.nodes.Keys;
    assert SameBut(w.d, d', w.procs, w.procs, w.said, w.said, n);
    OneLinkChanges(w.d, d', w.procs, w.procs, w.said, w.said, n);
  }

  lemma ReadingIsCausal(w: World, n: int)
    requires Inv(w) && n in w.d.nodes && n in w.procs && n in w.d.inbox && w.d.inbox[n] != []
    ensures Causality.Inv(AfterReading(w, n).d)
  {
    hide Causality.Inv, Links, LinkAt, Read;
    PartsOf(w, n);
    var d' := AfterReading(w, n).d;
    assert d'.nodes == w.d.nodes[n := w.d.nodes[n]] && d'.alarms == w.d.alarms[n := w.d.alarms[n]];
    assert Sound(d');
    NodeChangeKeeps(w.d, d', n);
  }

  lemma ReadingKeeps(w: World, n: int)
    requires Inv(w) && n in w.d.nodes && n in w.procs && n in w.d.inbox && w.d.inbox[n] != []
    ensures Inv(AfterReading(w, n))
  {
    hide LinkAt, Causality.Inv, Links, Read, Sound, AlarmAhead, NodeTimes;
    var w' := AfterReading(w, n);
    PartsOf(w, n);
    ReadingLinks(w, n);
    ReadingIsCausal(w, n);
    assert SameBut(w.d, w'.d, w.procs, w'.procs, w.said, w'.said, n);
    OneLinkChanges(w.d, w'.d, w.procs, w'.procs, w.said, w'.said, n);
  }

  lemma ReadingLinks(w: World, n: int)
    requires Inv(w) && n in w.d.nodes && n in w.procs && n in w.d.inbox && w.d.inbox[n] != []
    ensures var w' := AfterReading(w, n); n in w'.d.inbox && LinkAt(w'.d, w'.procs, w'.said, n)
  {
    hide Causality.Inv, Links, Read, Numbered, InTime, Answers, AtRest;
    PartsOf(w, n);
    var d := w.d;
    if d.nodes[n].status != Gone {
      ReadersAreAlive(d.nodes[n], w.procs[n], d.inbox[n], w.said[n], n in d.alive, d.alarms[n]);
      ReadLinked(d.nodes[n], w.procs[n], d.inbox[n], w.said[n], d.alarms[n]);
    }
  }

  lemma ReadersAreAlive(node: Node, p: Proc, unread: seq<Msg>, said: seq<Said>, alive: bool, alarm: nat)
    requires Linked(node, p, unread, said, alive, alarm) && (unread != [] || p.awake)
    ensures alive
  {
  }

  ghost predicate CanSay(w: World, n: int, content: Content) {
    n in w.d.nodes && n in w.procs && n in w.said && w.procs[n].awake && (content.Sleeps? ==> content.delay > 0)
  }

  lemma SayingKeeps(w: World, n: int, content: Content)
    requires Inv(w) && CanSay(w, n, content)
    ensures Inv(AfterSaying(w, n, content))
  {
    hide Linked, Causality.Inv, Links;
    var w' := AfterSaying(w, n, content);
    PartsOf(w, n);
    SayingLinks(w, n, content);
    assert SameBut(w.d, w'.d, w.procs, w'.procs, w.said, w'.said, n);
    OneLinkChanges(w.d, w'.d, w.procs, w'.procs, w.said, w'.said, n);
  }

  lemma SayingLinks(w: World, n: int, content: Content)
    requires Inv(w) && CanSay(w, n, content)
    ensures var w' := AfterSaying(w, n, content);
            n in w'.d.inbox && n in w'.d.alarms && LinkAt(w'.d, w'.procs, w'.said, n)
  {
    hide Causality.Inv, Links, Numbered, InTime, Answers, AtRest;
    PartsOf(w, n);
    if w.d.nodes[n].status != Gone {
      ReadersAreAlive(w.d.nodes[n], w.procs[n], w.d.inbox[n], w.said[n], n in w.d.alive, w.d.alarms[n]);
      SaidLinked(w.d.nodes[n], w.procs[n], w.d.inbox[n], w.said[n], w.d.alarms[n], content);
    }
  }

  lemma TimeKeeps(w: World, t: nat)
    requires Inv(w) && w.d.alive == {} && w.d.curTime <= t <= w.pauseTime && NothingBefore(w.d, t)
    ensures Causality.Inv(w.d.(curTime := t)) && Links(w.d.(curTime := t), w.procs, w.said)
  {
    AdvanceTimeKeeps(w.d, t);
    QueueKeepsLinks(w.d, w.d.(curTime := t), w.procs, w.said);
  }

  lemma TakingKeeps(w: World, e: Event, ch: Choice)
    requires Inv(w) && Allowed(w, TakesEvent(e, ch))
    ensures Inv(Next(w, TakesEvent(e, ch)))
  {
    var d' := w.d.(queue := w.d.queue - multiset{e});
    PopKeeps(w.d, e);
    QueueKeepsLinks(w.d, d', w.procs, w.said);
    assert Owned(w.d, e) && Owned(d', e);
    hide Causality.Inv, Links;
    ProcessEventKeepsLinks(d', e, ch, w.procs, w.said);
    ProcessEventKeepsTime(d', e, ch);
  }

  lemma ProcessEventKeepsTime(d: State, e: Event, ch: Choice)
    requires Sound(d)
    ensures ProcessEvent(d, e, ch).curTime == d.curTime
  {
    hide FailuresAdvanced;
    SendFrameKeepsTime(d, e.nodeId, d.order, false, ch);
    SendFrameKeepsTime(d, e.nodeId, d.order, true, ch);
  }

  lemma {:induction false} SendFrameKeepsTime(d: State, src: int, ids: seq<int>, logs: bool, ch: Choice)
    requires Sound(d)
    ensures SendFrame(d, src, ids, logs, ch).curTime == d.curTime
    decreases |ids|
  {
    if ids != [] {
      var n := ids[0];
      if Dispatcher.Hears(d, src, n, ch) {
        var log := Entry(d.curTime, n, Body(RadioLog, false, 0, 0, true, d.nodes[n].serial));
        var d1 := Enqueue(d, if logs && n in ch.logged then multiset{log} else multiset{});
        SendStaysSound(d1, n, ch);
        SendFrameKeepsTime(Send(d1, n, ch), src, ids[1..], logs, ch);
      } else {
        SendFrameKeepsTime(d, src, ids[1..], logs, ch);
      }
    }
  }

  lemma CommandKeeps(w: World, n: int, force: bool, ch: Choice)
    requires Inv(w) && Allowed(w, Commands(n, force, ch))
    ensures Inv(Next(w, Commands(n, force, ch)))
  {
    hide Causality.Inv, Links, AdvanceNode;
    AdvanceNodeKeepsLinks(w.d, n, w.d.curTime, force, ch, w.procs, w.said);
    AdvanceNodeKeepsTime(w.d, n, w.d.curTime, force, ch);
  }

  lemma FiringKeeps(w: World, n: int, ch: Choice)
    requires Inv(w) && Allowed(w, FiresAlarm(n, ch))
    ensures Inv(Next(w, FiresAlarm(n, ch)))
  {
    hide Causality.Inv, Links, AdvanceNode, NothingBefore;
    PartsOf(w, n);
    AdvanceNodeKeepsLinks(w.d, n, w.d.alarms[n], false, ch, w.procs, w.said);
    AdvanceNodeKeepsTime(w.d, n, w.d.alarms[n], false, ch);
  }

  lemma AdvanceNodeKeepsTime(d: State, n: int, timestamp: nat, force: bool, ch: Choice)
    requires Causality.Inv(d) && n in d.nodes
    ensures AdvanceNode(d, n, timestamp, force, ch).curTime == d.curTime
  {
    hide FailuresAdvanced;
  }

  lemma TimeStepKeeps(w: World, step: Step)
    requires Inv(w) && Allowed(w, step) && (step.Idles? || step.BeginsInstant? || step.Finishes?)
    ensures Inv(Next(w, step))
  {
    hide Causality.Inv, Links;
    if step.BeginsInstant? {
      InstantBegins(w, step.t);
    }
    TimeKeeps(w, if step.Finishes? then w.pauseTime else step.t);
  }

  lemma ModeStepKeeps(w: World, step: Step)
    requires Inv(w) && Allowed(w, step) && (step.Goes? || step.Cancels? || step.EndsInstant?)
    ensures Inv(Next(w, step))
  {
    hide Links;
  }

  /** Every step of dispatcher and nodes keeps the invariant. */
  lemma StepKeeps(w: World, step: Step)
    requires Inv(w) && Allowed(w, step)
    ensures Inv(Next(w, step))
  {
    hide Inv, Links, AfterHearing, AfterAdding, AfterDeleting, AfterScheduling, AfterReading, AfterSaying, NothingBefore;
    match step {
      case Hears(n) => HearingKeeps(w, n);
      case Adds(n, ppm) => AddingKeeps(w, n, ppm);
      case Deletes(n, queue) => DeletingKeeps(w, n, queue);
      case Commands(n, force, ch) => CommandKeeps(w, n, force, ch);
      case SchedulesFailure(n, failure) => FailureSettingKeeps(w, n, failure);
      case Loses(n) => LosingKeeps(w, n);
      case FiresAlarm(n, ch) => FiringKeeps(w, n, ch);
      case TakesEvent(e, ch) => TakingKeeps(w, e, ch);
      case Reads(n) => ReadingKeeps(w, n);
      case Says(n, content) => SayingKeeps(w, n, content);
      case Goes(_) => ModeStepKeeps(w, step);
      case Cancels => ModeStepKeeps(w, step);
      case EndsInstant => ModeStepKeeps(w, step);
      case _ => TimeStepKeeps(w, step);
    }
  }

  /** The next alarm or event is never in the past. */
  lemma InstantBegins(w: World, t: nat)
    requires Inv(w) && Allowed(w, BeginsInstant(t))
    ensures w.d.curTime <= t
  {
    if n :| n in w.d.alarms && w.d.alarms[n] < t + 1 {
      assert AlarmAhead(w.d, n);
    }
  }

  /** A step is defined on states that meet the dispatcher's invariant; RunKeeps shows that
      all states of a run do. */
  ghost predicate Takes(w: World, step: Step, w': World) {
    Causality.Inv(w.d) ==> Allowed(w, step) && w' == Next(w, step)
  }

  ghost predicate IsRun(ws: seq<World>, steps: seq<Step>) {
    |ws| == |steps| + 1 && ws[0] == Start && forall k :: 0 <= k < |steps| ==> Takes(ws[k], steps[k], ws[k + 1])
  }

  lemma {:induction false} RunKeeps(ws: seq<World>, steps: seq<Step>, k: nat)
    requires IsRun(ws, steps) && k < |ws|
    ensures Inv(ws[k])
    ensures k < |steps| ==> Allowed(ws[k], steps[k]) && ws[k + 1] == Next(ws[k], steps[k])
  {
    hide Next, Allowed, Links, Causality.Inv;
    if k > 0 {
      RunKeeps(ws, steps, k - 1);
      StepKeeps(ws[k - 1], steps[k - 1]);
    } else {
      StartInv();
    }
    assert k < |steps| ==> Takes(ws[k], steps[k], ws[k + 1]);
  }

  lemma StartInv()
    ensures Inv(Start)
  {
    EmptyInv();
  }

  /** A node process that has answered everything it was sent. */
  ghost predicate InStep(w: World, n: int)
    requires n in w.d.nodes && n in w.procs && n in w.said && n in w.d.inbox
  {
    var node, p := w.d.nodes[n], w.procs[n];
    !p.awake && p.lastMsgId == node.msgId && w.said[n] == [] && w.d.inbox[n] == [] &&
    p.received == node.curTime - node.createTime &&
    p.clock == DriftClock.After(DriftClock.ClockState(0, p.clock.ppm, 0), node.curTime - node.createTime) &&
    node.curTime <= w.d.curTime
  }

  /** Lock-step safety: whenever simulated time moves, every connected node has read and
      answered its latest message and sleeps, and its clock shows the time the dispatcher
      has on record for it, subject to its own drift. */
  lemma TimeMovesInLockStep(ws: seq<World>, steps: seq<Step>, k: nat, n: int)
    requires IsRun(ws, steps) && k < |steps| && ws[k + 1].d.curTime != ws[k].d.curTime
    requires n in ws[k].d.nodes && ws[k].d.nodes[n].status != Gone
    ensures ws[k].d.curTime < ws[k + 1].d.curTime && ws[k].d.alive == {}
    ensures n in ws[k].procs && n in ws[k].said && n in ws[k].d.inbox && InStep(ws[k], n)
  {
    RunKeeps(ws, steps, k);
    var w := ws[k];
    OnlyAwaitedTimeMoves(w, steps[k]);
    assert LinkAt(w.d, w.procs, w.said, n);
    hide DriftClock.After;
  }

  lemma OnlyAwaitedTimeMoves(w: World, step: Step)
    requires Inv(w) && Allowed(w, step) && Next(w, step).d.curTime != w.d.curTime
    ensures w.d.alive == {} && w.d.curTime < Next(w, step).d.curTime
  {
    hide Links, FailuresAdvanced;
    if step.BeginsInstant? {
      InstantBegins(w, step.t);
    } else if step.TakesEvent? {
      PopKeeps(w.d, step.e);
      ProcessEventKeepsTime(w.d.(queue := w.d.queue - multiset{step.e}), step.e, step.ch);
    }
  }

  /** Without drift the node's own clock, counted from its creation, is the record. */
  lemma ZeroDriftClock(w: World, n: int)
    requires n in w.d.nodes && n in w.procs && n in w.said && n in w.d.inbox && InStep(w, n)
    requires w.procs[n].clock.ppm == 0 && w.d.nodes[n].createTime <= w.d.nodes[n].curTime
    ensures w.d.nodes[n].createTime + w.procs[n].clock.now == w.d.nodes[n].curTime
  {
  }

  /** No lost or inexact wake-up: the alarm of a sleeping node is set for exactly the time it
      asked for if and only if it asked for less than the largest 32-bit integer. */
  lemma AlarmIsWhatWasAsked(ws: seq<World>, steps: seq<Step>, k: nat, n: int)
    requires IsRun(ws, steps) && k < |ws|
    requires n in ws[k].d.nodes && ws[k].d.nodes[n].status != Gone && n !in ws[k].d.alive
    ensures n in ws[k].procs && n in ws[k].d.alarms
    ensures ws[k].procs[n].asked < EVER ==>
              (ws[k].d.alarms[n] == ws[k].d.nodes[n].curTime + ws[k].procs[n].asked <==> ws[k].procs[n].asked < MAX_INT32)
  {
    RunKeeps(ws, steps, k);
    assert LinkAt(ws[k].d, ws[k].procs, ws[k].said, n);
  }

  /** An alarm that fires for a sleeping node moves it ahead by exactly what it asked for. */
  lemma WakesWhenAsked(ws: seq<World>, steps: seq<Step>, k: nat, n: int)
    requires IsRun(ws, steps) && k < |steps| && ws[k].d.curTime < EVER
    requires steps[k].FiresAlarm? && steps[k].n == n && n in ws[k].d.nodes && n !in steps[k].ch.broken
    requires ws[k].d.nodes[n].status != Gone && n !in ws[k].d.alive
    ensures n in ws[k].procs && n in ws[k + 1].d.inbox && n in ws[k + 1].d.alive
    ensures ws[k + 1].d.inbox[n] == [Msg(ws[k].d.nodes[n].msgId + 1, ws[k].procs[n].asked)]
  {
    RunKeeps(ws, steps, k);
    var w := ws[k];
    assert LinkAt(w.d, w.procs, w.said, n) && AlarmAhead(w.d, n) && NodeTimes(w.d, n);
    hide FailuresAdvanced;
  }

  /** Causality: nothing pending is ever in the past, and every event and alarm is processed
      at its own time. */
  lemma NothingIsLate(ws: seq<World>, steps: seq<Step>, k: nat)
    requires IsRun(ws, steps) && k < |ws|
    ensures NothingBefore(ws[k].d, ws[k].d.curTime)
    ensures k < |steps| && steps[k].TakesEvent? ==> steps[k].e.timestamp == ws[k].d.curTime
    ensures k < |steps| && steps[k].FiresAlarm? ==>
              steps[k].n in ws[k].d.alarms && ws[k].d.alarms[steps[k].n] == ws[k].d.curTime
  {
    RunKeeps(ws, steps, k);
    forall n | n in ws[k].d.alarms ensures ws[k].d.curTime <= ws[k].d.alarms[n] {
      assert AlarmAhead(ws[k].d, n);
    }
  }

  /** An event of a deleted node reaches no later node with the same id. */
  lemma EventsReachTheirNode(ws: seq<World>, steps: seq<Step>, k: nat)
    requires IsRun(ws, steps) && k < |steps| && steps[k].TakesEvent? && steps[k].e.nodeId in ws[k].d.nodes
    ensures ws[k].d.nodes[steps[k].e.nodeId].serial == steps[k].e.body.serial
  {
    RunKeeps(ws, steps, k);
    assert Owned(ws[k].d, steps[k].e);
  }

  /** The steps from i to j are one uncancelled go. */
  ghost predicate IsGo(steps: seq<Step>, i: nat, j: nat) {
    i < j < |steps| && steps[i].Goes? && steps[j].Finishes? &&
    forall k :: i < k < j ==> !steps[k].Goes? && !steps[k].Cancels? && !steps[k].Finishes?
  }

  lemma {:induction false} PauseTimeStays(ws: seq<World>, steps: seq<Step>, i: nat, j: nat)
    requires IsRun(ws, steps) && i <= j < |ws|
    requires forall k :: i <= k < j ==> !steps[k].Goes? && !steps[k].Cancels?
    ensures ws[j].pauseTime == ws[i].pauseTime
    decreases j - i
  {
    if i < j {
      PauseTimeStays(ws, steps, i, j - 1);
      RunKeeps(ws, steps, j - 1);
    }
  }

  /** An uncancelled go of duration D ends at start + D, capped at Ever, with nothing due at or
      before that time and every connected node at rest. */
  lemma GoIsExact(ws: seq<World>, steps: seq<Step>, i: nat, j: nat)
    requires IsRun(ws, steps) && IsGo(steps, i, j)
    ensures ws[j + 1].d.curTime == PauseAt(ws[i].d.curTime, steps[i].duration)
    ensures QuietUntil(ws[j + 1].d, ws[j + 1].d.curTime) && ws[j + 1].d.alive == {}
  {
    PauseTimeStays(ws, steps, i + 1, j);
    RunKeeps(ws, steps, i);
    RunKeeps(ws, steps, j);
  }

  /** Between the end or the cancellation of a go and the next one time stands still. */
  lemma {:induction false} PausedTimeStands(ws: seq<World>, steps: seq<Step>, i: nat, j: nat)
    requires IsRun(ws, steps) && i < j < |ws| && (steps[i].Cancels? || steps[i].Finishes?)
    requires forall k :: i < k < j ==> !steps[k].Goes?
    ensures ws[j].mode == Paused && ws[j].d.curTime == ws[i + 1].d.curTime == ws[i + 1].pauseTime
    ensures steps[i].Cancels? ==> ws[i + 1].d.curTime == ws[i].d.curTime
    decreases j - i
  {
    hide Inv, ProcessEvent, AdvanceNode, Causality.Inv, NothingBefore, QuietUntil;
    RunKeeps(ws, steps, i);
    if i + 1 < j {
      PausedTimeStands(ws, steps, i, j - 1);
      RunKeeps(ws, steps, j - 1);
      PausedStepStands(ws[j - 1], steps[j - 1]);
    }
  }

  lemma PausedStepStands(w: World, step: Step)
    requires Inv(w) && Allowed(w, step) && w.mode == Paused && !step.Goes?
    ensures Next(w, step).mode == Paused
    ensures Next(w, step).d.curTime == w.d.curTime
  {
    hide ProcessEvent, Links, FailuresAdvanced, Causality.Inv;
    match step {
      case Hears(n) => HandleIsLocal(w.d, n, w.said[n][0]);
      case Commands(n, force, ch) => AdvanceNodeKeepsTime(w.d, n, w.d.curTime, force, ch);
      case _ =>
    }
  }
}
