/** The dispatcher object (dispatcher.go): its loops and handlers over the alarm manager and
    the send queue, proved against the functions of module Dispatcher. */
module Simulator {
  import opened SimTypes
  import opened Heap
  import opened NodeOrder
  import opened Dispatcher
  import opened Causality
  import AlarmMgr
  import SendQueue
  import FailureCtrl
  import Instant
  import LockStep

  class Simulator {
    const alarmMgr: AlarmMgr.Manager
    const eventQueue: SendQueue.Queue<Body>
    var curTime: nat
    var pauseTime: nat
    var nodes: map<int, Node>
    var order: seq<int>
    var alive: set<int>
    var inbox: map<int, seq<Msg>>
    var serials: nat

    ghost predicate Valid() reads this, alarmMgr, alarmMgr.objects, eventQueue {
      alarmMgr.Valid() && eventQueue.Valid()
    }

    ghost function View(): State
      requires Valid()
      reads this, alarmMgr, alarmMgr.objects, eventQueue
    {
      State(curTime, nodes, order, alarmMgr.Alarms(), multiset(eventQueue.q), alive, inbox, serials)
    }

    constructor ()
      ensures Valid() && View() == Empty && Causality.Inv(View()) && pauseTime == 0
      ensures fresh(alarmMgr) && fresh(alarmMgr.objects) && fresh(eventQueue)
    {
      alarmMgr := new AlarmMgr.Manager();
      eventQueue := new SendQueue.Queue<Body>();
      curTime, pauseTime, nodes, order, alive, inbox, serials := 0, 0, map[], [], {}, map[], 0;
      new;
      EmptyInv();
    }

    lemma AlarmsOfNodes()
      requires Valid() && Registered(View())
      ensures alarmMgr.events.Keys == nodes.Keys
    {
      assert alarmMgr.Alarms().Keys == alarmMgr.events.Keys;
    }

    lemma Fields()
      requires Valid()
      ensures View().curTime == curTime && View().nodes == nodes && View().order == order && View().alive == alive
      ensures View().inbox == inbox && View().serials == serials
    {
    }

    // ---------- one part of the state at a time ----------

    method SetAlarm(n: int, t: nat)
      requires Valid() && Registered(View()) && n in nodes
      modifies alarmMgr, alarmMgr.objects
      ensures Valid() && View() == old(View()).(alarms := old(View()).alarms[n := t])
      ensures alarmMgr.objects == old(alarmMgr.objects)
    {
      hide AlarmMgr.Manager.Valid, SendQueue.Queue.Valid, Registered;
      AlarmsOfNodes();
      alarmMgr.SetTimestamp(n, t);
    }

    method Post(e: Event)
      requires Valid()
      modifies eventQueue
      ensures Valid() && View() == Enqueue(old(View()), multiset{e})
    {
      hide AlarmMgr.Manager.Valid, SendQueue.Queue.Valid, Push;
      eventQueue.Add(e);
    }

    method SetNodes(nodes: map<int, Node>, inbox: map<int, seq<Msg>>, alive: set<int>)
      requires Valid()
      modifies this`nodes, this`inbox, this`alive
      ensures Valid() && View() == old(View()).(nodes := nodes, inbox := inbox, alive := alive)
    {
      this.nodes, this.inbox, this.alive := nodes, inbox, alive;
    }

    method SetTime(t: nat)
      requires Valid()
      modifies this`curTime
      ensures Valid() && View() == old(View()).(curTime := t)
    {
      curTime := t;
    }

    // ---------- messages to nodes ----------

    /** Re-evaluates the failure controller of a node whose time moves to the present. */
    method AdvanceFailures(n: int, ch: Choice) returns (failure: FailureCtrl.Schedule)
      requires Valid() && Sound(View()) && n in nodes
      modifies eventQueue
      ensures Valid() && failure == FailuresAdvanced(old(View()), n, ch.offset).0
      ensures View() == Enqueue(old(View()), FailuresAdvanced(old(View()), n, ch.offset).1)
    {
      hide Valid, View, FailureCtrl.Advanced;
      Fields();
      failure := nodes[n].failure;
      if curTime > nodes[n].curTime {
        var (next, ts, isUpdated) := FailureCtrl.Advanced(failure, curTime, Offset(failure, ch.offset));
        failure := next;
        if isUpdated {
          Post(Entry(ts, n, Body(AlarmFired, false, 0, 0, true, nodes[n].serial)));
        }
      }
    }

    method SendEvent(n: int, ch: Choice)
      requires Valid() && Sound(View()) && Registered(View()) && n in nodes
      modifies this, alarmMgr, alarmMgr.objects, eventQueue
      ensures Valid() && View() == Send(old(View()), n, ch)
      ensures alarmMgr.objects == old(alarmMgr.objects) && pauseTime == old(pauseTime)
    {
      hide Valid, View, FailuresAdvanced;
      Fields();
      var node := nodes[n];
      var msg := Msg(node.msgId + 1, curTime - node.curTime);
      var failure := AdvanceFailures(n, ch);
      SetAlarm(n, EVER);
      var sent := n !in ch.broken && node.status == Connected;
      var moved := node.(msgId := node.msgId + 1, curTime := curTime, failure := failure,
                         status := if sent then Connected else Gone);
      SetNodes(nodes[n := moved], if sent then inbox[n := inbox[n] + [msg]] else inbox,
               if sent then alive + {n} else alive);
    }

    method AdvanceNodeTime(n: int, timestamp: nat, force: bool, ch: Choice)
      requires Valid() && Sound(View()) && Registered(View()) && n in nodes
      modifies this, alarmMgr, alarmMgr.objects, eventQueue
      ensures Valid() && View() == AdvanceNode(old(View()), n, timestamp, force, ch)
      ensures alarmMgr.objects == old(alarmMgr.objects) && pauseTime == old(pauseTime)
    {
      hide Valid, View, Send, Sound, Registered;
      Fields();
      if timestamp <= nodes[n].curTime && !force {
        return;
      }
      if nodes[n].status != Connected {
        SetAlarm(n, EVER);
        return;
      }
      SendEvent(n, ch);
    }

    // ---------- nodes ----------

    method SetRegistry(nodes: map<int, Node>, order: seq<int>, inbox: map<int, seq<Msg>>, alive: set<int>, serials: nat)
      requires Valid()
      modifies this`nodes, this`order, this`inbox, this`alive, this`serials
      ensures Valid()
      ensures View() == old(View()).(nodes := nodes, order := order, inbox := inbox, alive := alive, serials := serials)
    {
      hide AlarmMgr.Manager.Valid, SendQueue.Queue.Valid, AlarmMgr.Manager.Alarms;
      this.nodes, this.order, this.inbox, this.alive, this.serials := nodes, order, inbox, alive, serials;
    }

    method AddAlarm(n: int)
      requires Valid() && Registered(View()) && n !in nodes
      modifies alarmMgr, alarmMgr.objects`index
      ensures Valid() && View() == old(View()).(alarms := old(View()).alarms[n := EVER])
      ensures fresh(alarmMgr.objects - old(alarmMgr.objects))
    {
      hide AlarmMgr.Manager.Valid, SendQueue.Queue.Valid, Registered;
      AlarmsOfNodes();
      alarmMgr.AddNode(n);
    }

    method DropAlarm(n: int)
      requires Valid() && Registered(View()) && n in nodes
      modifies alarmMgr, alarmMgr.objects`index
      ensures Valid() && View() == old(View()).(alarms := old(View()).alarms - {n})
      ensures alarmMgr.objects <= old(alarmMgr.objects)
    {
      hide AlarmMgr.Manager.Valid, SendQueue.Queue.Valid, Registered;
      AlarmsOfNodes();
      alarmMgr.DeleteNode(n);
    }

    method DisableEvents(n: int)
      requires Valid()
      modifies eventQueue
      ensures Valid() && View() == old(View()).(queue := View().queue)
      ensures IsOrphaned(old(View()).queue, View().queue, n)
    {
      hide AlarmMgr.Manager.Valid, SendQueue.Queue.Valid;
      eventQueue.DisableEventsForNode(n);
      assert OrphanedAll(old(eventQueue.q), eventQueue.q, n);
    }

    method AddNode(n: int)
      requires Valid() && Registered(View()) && n !in nodes
      modifies this, alarmMgr, alarmMgr.objects`index
      ensures Valid() && View() == Dispatcher.AddNode(old(View()), n)
      ensures fresh(alarmMgr.objects - old(alarmMgr.objects)) && pauseTime == old(pauseTime)
    {
      hide Valid, View, Registered, SortedIds;
      Fields();
      AddAlarm(n);
      var node := Node(serials, curTime, curTime, 0, Starting, FailureCtrl.NoSchedule);
      var order' := Reconstruct(nodes[n := node].Keys);
      assert nodes[n := node].Keys == nodes.Keys + {n};
      SetRegistry(nodes[n := node], order', inbox[n := []], alive + {n}, serials + 1);
    }

    method DeleteNode(n: int)
      requires Valid() && Registered(View()) && n in nodes
      modifies this, alarmMgr, alarmMgr.objects`index, eventQueue
      ensures Valid() && IsOrphaned(old(View()).queue, View().queue, n)
      ensures View() == Dispatcher.DeleteNode(old(View()), n, View().queue)
      ensures alarmMgr.objects <= old(alarmMgr.objects) && pauseTime == old(pauseTime)
    {
      hide Valid, View, Registered, SortedIds, IsOrphaned;
      Fields();
      DropAlarm(n);
      var order' := Reconstruct((nodes - {n}).Keys);
      assert (nodes - {n}).Keys == nodes.Keys - {n};
      SetRegistry(nodes - {n}, order', inbox - {n}, alive - {n}, serials);
      DisableEvents(n);
    }

    // ---------- messages from nodes ----------

    /** The first message of a node stores its connection. */
    method Connect(n: int)
      requires Valid() && n in nodes
      modifies this`nodes, this`inbox, this`alive
      ensures Valid() && View() == Heard(old(View()), n)
    {
      hide Valid, View;
      Fields();
      if nodes[n].status == Starting {
        SetNodes(nodes[n := nodes[n].(status := Connected)], inbox, alive);
      }
    }

    method OnSleep(n: int, msgId: nat, delay: nat)
      requires Valid() && Registered(View()) && n in nodes
      modifies this, alarmMgr, alarmMgr.objects
      ensures Valid() && View() == HandleSleep(old(View()), n, msgId, delay)
      ensures alarmMgr.objects == old(alarmMgr.objects) && pauseTime == old(pauseTime) && curTime == old(curTime)
    {
      hide Valid, View, Registered, HandleSleep, Heard, Wait;
      Fields();
      SleepInParts(View(), n, msgId, delay);
      var asleep := if msgId == nodes[n].msgId then alive - {n} else alive;
      SetAlarm(n, curTime + Wait(delay));
      Connect(n);
      SetAlive(asleep);
    }

    method SetAlive(alive: set<int>)
      requires Valid()
      modifies this`alive
      ensures Valid() && View() == old(View()).(alive := alive)
    {
      this.alive := alive;
    }

    method OnQueued(n: int, body: Body)
      requires Valid() && n in nodes
      modifies this, eventQueue
      ensures Valid() && View() == HandleQueued(old(View()), n, body)
      ensures pauseTime == old(pauseTime) && curTime == old(curTime)
    {
      hide Valid, View;
      Fields();
      Post(Entry(curTime, n, body.(must := body.kind == FromHost, serial := nodes[n].serial)));
      Connect(n);
    }

    method OnDisconnect(n: int)
      requires Valid() && Registered(View()) && n in nodes
      modifies this, alarmMgr, alarmMgr.objects
      ensures Valid() && View() == HandleDisconnect(old(View()), n)
      ensures alarmMgr.objects == old(alarmMgr.objects) && pauseTime == old(pauseTime) && curTime == old(curTime)
    {
      hide Valid, View, Registered;
      Fields();
      SetAlarm(n, EVER);
      SetNodes(nodes[n := nodes[n].(status := Gone)], inbox, alive - {n});
    }

    /** Messages from unknown nodes are discarded. */
    method HandleEvent(n: int, s: LockStep.Said)
      requires Valid() && Registered(View())
      modifies this, alarmMgr, alarmMgr.objects, eventQueue
      ensures Valid() && View() == if n in old(nodes) then LockStep.Handle(old(View()), n, s) else old(View())
      ensures alarmMgr.objects == old(alarmMgr.objects) && pauseTime == old(pauseTime) && curTime == old(curTime)
    {
      hide Valid, View, Registered, HandleSleep, HandleQueued, Heard;
      Fields();
      if n !in nodes {
        return;
      }
      match s.content
      case Sleeps(delay) => OnSleep(n, s.msgId, delay);
      case Queues(body) => OnQueued(n, body);
      case Informs => Connect(n);
    }

    // ---------- events of the queue ----------

    /** Dispatches a frame to all nodes that hear it, in the order of their ids. */
    method SendRadioFrame(src: int, logs: bool, ch: Choice)
      requires Valid() && Causality.Inv(View())
      modifies this, alarmMgr, alarmMgr.objects, eventQueue
      ensures Valid() && View() == SendFrame(old(View()), src, old(order), logs, ch) && Causality.Inv(View())
      ensures alarmMgr.objects == old(alarmMgr.objects) && pauseTime == old(pauseTime)
    {
      var ids := order;
      var i := 0;
      assert ids[0..] == ids;
      while i < |ids|
        invariant 0 <= i <= |ids| && Valid() && Causality.Inv(View())
        invariant SendFrame(View(), src, ids[i..], logs, ch) == SendFrame(old(View()), src, ids, logs, ch)
        invariant alarmMgr.objects == old(alarmMgr.objects) && pauseTime == old(pauseTime)
      {
        assert ids[i..][0] == ids[i] && ids[i..][1..] == ids[i + 1..];
        SendFrameStep(View(), src, ids[i..], logs, ch);
        var heard := SendOneFrame(src, ids[i], logs, ch);
        i := i + 1;
      }
    }

    method SendOneFrame(src: int, n: int, logs: bool, ch: Choice) returns (heard: bool)
      requires Valid() && Causality.Inv(View())
      modifies this, alarmMgr, alarmMgr.objects, eventQueue
      ensures Valid() && View() == OneFrame(old(View()), src, n, logs, ch) && Causality.Inv(View())
      ensures heard <==> Hears(old(View()), src, n, ch)
      ensures alarmMgr.objects == old(alarmMgr.objects) && pauseTime == old(pauseTime)
    {
      hide Valid, View, Send, Sound, Registered;
      Fields();
      heard := n in ch.reached && n != src && n in nodes && nodes[n].status != Starting && !nodes[n].failure.failed;
      if heard {
        OneFrameKeeps(View(), src, n, logs, ch);
        if logs && n in ch.logged {
          Post(Entry(curTime, n, Body(RadioLog, false, 0, 0, true, nodes[n].serial)));
        }
        assert View() == Logged(old(View()), n, logs, ch);
        Fields();
        SendEvent(n, ch);
      }
    }

    method PopEvent() returns (e: Event)
      requires Valid() && eventQueue.q != []
      modifies eventQueue
      ensures Valid() && View() == Instant.Popped(old(View()), e)
      ensures e in old(View()).queue && forall x :: x in old(View()).queue ==> e.timestamp <= x.timestamp
    {
      hide AlarmMgr.Manager.Valid, SendQueue.Queue.Valid, Pop;
      e := eventQueue.PopNext();
      assert multiset(eventQueue.q) == old(multiset(eventQueue.q)) - multiset{e};
    }

    /** Two events posted one after the other. */
    method PostBoth(e: Event, f: Event)
      requires Valid()
      modifies eventQueue
      ensures Valid() && View() == Enqueue(old(View()), multiset{e} + multiset{f})
    {
      hide Valid, View;
      Post(e);
      Post(f);
      assert old(View()).queue + multiset{e} + multiset{f} == old(View()).queue + (multiset{e} + multiset{f});
    }

    /** The radio model's handling of a frame's start, its end, and a channel sample. */
    method RadioModelEvent(e: Event, aborted: bool)
      requires Valid() && !e.body.must
      modifies eventQueue
      ensures Valid() && View() == ModelReacts(old(View()), e, aborted)
    {
      hide Valid, View;
      match e.body.kind
      case CommStart =>
        var end := e.(timestamp := e.timestamp + e.body.duration, body := e.body.(kind := TxDone));
        if aborted {
          Post(e.(timestamp := e.timestamp + 1, body := e.body.(kind := TxDone, must := true, ok := false)));
        } else if e.body.ok {
          PostBoth(e.(body := e.body.(must := true)), end);
        } else {
          assert multiset{} + multiset{end} == multiset{end};
          Post(end);
        }
      case TxDone =>
        var toSource := e.(body := e.body.(must := true));
        if e.body.ok {
          PostBoth(toSource, e.(body := e.body.(kind := RxDone, must := true)));
        } else {
          assert multiset{toSource} + multiset{} == multiset{toSource};
          Post(toSource);
        }
      case ChannelSample =>
        Post(e.(timestamp := e.timestamp + e.body.duration, body := e.body.(must := true)));
      case _ =>
    }

    method ProcessInternal(e: Event, ch: Choice)
      requires Valid() && Causality.Inv(View()) && e.nodeId in nodes && !e.body.must
      modifies this, alarmMgr, alarmMgr.objects, eventQueue
      ensures Valid() && View() == ProcessEvent(old(View()), e, ch)
      ensures alarmMgr.objects == old(alarmMgr.objects) && pauseTime == old(pauseTime)
    {
      hide Valid, View, Causality.Inv, Sound, Registered, AdvanceNode, ProcessEvent, ModelReacts;
      Fields();
      InvParts(View());
      InternalEvents(View(), e, ch);
      if e.body.kind == AlarmFired {
        AdvanceNodeTime(e.nodeId, curTime, false, ch);
      } else if e.body.kind == RadioState {
        if e.body.delay > 0 {
          Post(Entry(curTime + e.body.delay, e.nodeId, Body(AlarmFired, false, 0, 0, true, nodes[e.nodeId].serial)));
        }
      } else {
        RadioModelEvent(e, ch.aborted);
      }
    }

    method ProcessDispatch(e: Event, ch: Choice)
      requires Valid() && Causality.Inv(View()) && e.nodeId in nodes && e.body.must
      modifies this, alarmMgr, alarmMgr.objects, eventQueue
      ensures Valid() && View() == ProcessEvent(old(View()), e, ch)
      ensures alarmMgr.objects == old(alarmMgr.objects) && pauseTime == old(pauseTime)
    {
      hide Valid, View, Causality.Inv, Sound, Registered, AdvanceNode, SendFrame, Send;
      Fields();
      InvParts(View());
      match e.body.kind
      case CommStart =>
        if !nodes[e.nodeId].failure.failed {
          SendRadioFrame(e.nodeId, false, ch);
        }
      case RxDone =>
        if !nodes[e.nodeId].failure.failed {
          SendRadioFrame(e.nodeId, true, ch);
        }
      case FromHost => SendEvent(e.nodeId, ch);
      case _ =>
        if ch.delivered {
          SendEvent(e.nodeId, ch);
        }
    }

    method ProcessOne(e: Event, ch: Choice)
      requires Valid() && Causality.Inv(View()) && e.timestamp == curTime && Owned(View(), e)
      modifies this, alarmMgr, alarmMgr.objects, eventQueue
      ensures Valid() && View() == ProcessEvent(old(View()), e, ch) && Causality.Inv(View())
      ensures alarmMgr.objects == old(alarmMgr.objects) && pauseTime == old(pauseTime)
    {
      hide Valid, View, ProcessEvent, Causality.Inv;
      Fields();
      InvParts(View());
      ProcessEventKeeps(View(), e, ch);
      if e.nodeId !in nodes {
        UnknownNode(View(), e, ch);
      } else if e.body.must {
        ProcessDispatch(e, ch);
      } else {
        ProcessInternal(e, ch);
      }
    }

    // ---------- simulated time ----------

    method NextTimes() returns (nextAlarmTime: nat, nextSendTime: nat)
      requires Valid()
      ensures NextAre(View(), nextAlarmTime, nextSendTime)
    {
      hide AlarmMgr.Manager.Valid, SendQueue.Queue.Valid;
      EmptyQueue();
      nextAlarmTime := alarmMgr.NextTimestamp();
      nextSendTime := eventQueue.NextTimestamp();
    }

    lemma SomeEvent(e: Event)
      requires Valid() && e in View().queue
      ensures eventQueue.q != []
    {
    }

    method FirstAlarm() returns (n: int, t: nat)
      requires Valid() && exists n :: n in View().alarms
      ensures n in View().alarms && View().alarms[n] == t
      ensures forall m :: m in View().alarms ==> t <= View().alarms[m]
    {
      hide AlarmMgr.Manager.Valid, SendQueue.Queue.Valid;
      var e := alarmMgr.NextAlarm();
      n, t := e.nodeId, e.timestamp;
    }

    /** Processes one alarm or event of the current instant. */
    method ProcessNext(nextAlarmTime: nat, nextSendTime: nat, ch: Choice)
      requires Valid() && Causality.Inv(View())
      requires NextAre(View(), nextAlarmTime, nextSendTime)
      requires nextAlarmTime <= curTime || nextSendTime <= curTime
      requires curTime == EVER ==> nextSendTime < nextAlarmTime && eventQueue.q != []
      modifies this, alarmMgr, alarmMgr.objects, eventQueue
      ensures Valid() && Causality.Inv(View()) && InstantStep(old(View()), View(), ch)
      ensures Remaining(View()) < Remaining(old(View()))
      ensures alarmMgr.objects == old(alarmMgr.objects) && pauseTime == old(pauseTime) && curTime == old(curTime)
    {
      hide Valid, View, ProcessEvent, AdvanceNode, Causality.Inv, Registered, Sound, Owned, Remaining;
      Fields();
      InvParts(View());
      InvTimes(View());
      TimeIsBounded(View());
      if nextAlarmTime <= nextSendTime {
        var n, t := FirstAlarm();
        AlarmIsANode(View(), n);
        AdvanceNodeKeeps(View(), n, t, false, ch);
        AdvanceNodeTime(n, t, false, ch);
        assert AlarmStep(old(View()), View(), n, ch);
      } else {
        if curTime < EVER {
          ghost var first :| first in View().queue && first.timestamp == nextSendTime;
          SomeEvent(first);
        }
        var e := PopEvent();
        PopOwned(old(View()), e);
        Fields();
        ProcessOne(e, ch);
        assert EventStep(old(View()), View(), e, ch);
      }
      StepKeepsTime(old(View()), View(), ch);
      StepShrinks(old(View()), View(), ch);
      Fields();
    }

    /** Processes all alarms and events of the current instant; `trace` lists the states passed
        through. Before Ever the loop always ends. At Ever it does not get past an alarm, nor
        past an empty queue, whose next event also counts as one at Ever. */
    method ProcessInstant(choices: nat -> Choice) returns (p: Progress, ghost trace: seq<State>)
      requires Valid() && Causality.Inv(View()) && curTime <= pauseTime <= EVER
      modifies this, alarmMgr, alarmMgr.objects, eventQueue
      ensures Valid() && Causality.Inv(View()) && alarmMgr.objects == old(alarmMgr.objects)
      ensures curTime == old(curTime) && pauseTime == old(pauseTime)
      ensures p.Hangs? ==> HangsAt(View())
      ensures !p.Hangs? ==> QuietUntil(View(), curTime) && (p.Pauses? <==> QuietUntil(View(), pauseTime))
      ensures IsTrace(trace, choices) && |trace| > 0 && trace[0] == old(View()) && trace[|trace| - 1] == View()
    {
      hide Valid, View, InstantStep, IsTrace, NextAre, Causality.Inv, Registered, Sound, Remaining, HangsAt, QuietUntil;
      trace := [View()];
      TraceStarts(View(), choices);
      var i: nat := 0;
      var nextAlarmTime: nat, nextSendTime: nat := NextTimes();
      while nextAlarmTime <= curTime || nextSendTime <= curTime
        invariant Valid() && Causality.Inv(View()) && alarmMgr.objects == old(alarmMgr.objects)
        invariant curTime == old(curTime) && pauseTime == old(pauseTime)
        invariant IsTrace(trace, choices) && |trace| == i + 1 && trace[0] == old(View()) && trace[i] == View()
        invariant NextAre(View(), nextAlarmTime, nextSendTime)
        decreases Remaining(View())
      {
        Fields();
        if curTime == EVER && (nextAlarmTime <= nextSendTime || eventQueue.q == []) {
          EmptyQueue();
          NothingComes(View(), nextAlarmTime, nextSendTime);
          return Hangs, trace;
        }
        ghost var before := View();
        InvParts(before);
        ProcessNext(nextAlarmTime, nextSendTime, choices(i));
        TraceGoesOn(trace, before, View(), choices);
        trace := trace + [View()];
        i := i + 1;
        nextAlarmTime, nextSendTime := NextTimes();
      }
      p := if nextAlarmTime <= pauseTime || nextSendTime <= pauseTime then GoesOn else Pauses;
      NothingUntil(View(), nextAlarmTime, nextSendTime, curTime);
      NothingUntil(View(), nextAlarmTime, nextSendTime, pauseTime);
    }

    lemma EmptyQueue()
      requires Valid()
      ensures eventQueue.q == [] <==> View().queue == multiset{}
    {
      if eventQueue.q != [] {
        assert eventQueue.q[0] in View().queue;
      }
    }

    /** Moves time to the next instant and processes it, unless the wall clock has not got there
        yet or nothing is left before the pause. `target` is the simulated time that the wall
        clock has reached, and `next` that of the next alarm or event. */
    method ProcessNextEvents(target: nat, choices: nat -> Choice)
      returns (p: Progress, ghost trace: seq<State>, ghost next: nat)
      requires Valid() && Causality.Inv(View()) && alive == {} && curTime <= pauseTime <= EVER && curTime <= target
      modifies this, alarmMgr, alarmMgr.objects, eventQueue
      ensures Valid() && Causality.Inv(View()) && alarmMgr.objects == old(alarmMgr.objects)
      ensures old(curTime) <= curTime <= pauseTime == old(pauseTime)
      ensures Advances(old(View()), View(), target, pauseTime, p, next, trace)
      ensures IsTrace(trace, choices)
    {
      hide Valid, View, InstantStep, IsTrace, NextAre, Causality.Inv, Registered, Sound, HangsAt, QuietUntil;
      Fields();
      var nextAlarmTime, nextSendTime := NextTimes();
      var nextEventTime := if nextAlarmTime <= nextSendTime then nextAlarmTime else nextSendTime;
      next := nextEventTime;
      NextIsAhead(View(), nextAlarmTime, nextSendTime);
      if (target < nextEventTime && nextEventTime <= pauseTime) || (target < pauseTime && nextEventTime > pauseTime) {
        NothingUntil(View(), nextAlarmTime, nextSendTime, target);
        PauseIsClear(View(), target);
        AdvanceTimeKeeps(View(), target);
        SetTime(target);
        Fields();
        TraceStarts(View(), choices);
        return GoesOn, [View()], next;
      }
      if nextEventTime > pauseTime {
        NothingUntil(View(), nextAlarmTime, nextSendTime, pauseTime);
        TraceStarts(View(), choices);
        return Pauses, [View()], next;
      }
      AdvanceTimeKeeps(View(), nextEventTime);
      SetTime(nextEventTime);
      Fields();
      p, trace := ProcessInstant(choices);
      StillDue(old(View()), next);
      Fields();
    }

    /** Hears what the nodes have to say in one round. */
    method RecvEvents(heard: seq<(int, LockStep.Said)>)
      requires Valid() && Causality.Inv(View()) && SleepsAreProper(heard)
      modifies this, alarmMgr, alarmMgr.objects, eventQueue
      ensures Valid() && Causality.Inv(View()) && View() == HandleAll(old(View()), heard)
      ensures alarmMgr.objects == old(alarmMgr.objects) && pauseTime == old(pauseTime) && curTime == old(curTime)
    {
      hide Valid, View, Causality.Inv, Registered, LockStep.Handle;
      var i := 0;
      while i < |heard|
        invariant 0 <= i <= |heard| && Valid() && Causality.Inv(View())
        invariant View() == HandleAll(old(View()), heard[..i])
        invariant alarmMgr.objects == old(alarmMgr.objects) && pauseTime == old(pauseTime) && curTime == old(curTime)
      {
        assert heard[..i + 1][..i] == heard[..i] && heard[..i + 1][i] == heard[i];
        Fields();
        InvParts(View());
        HandleKeeps(View(), heard[i].0, heard[i].1);
        HandleEvent(heard[i].0, heard[i].1);
        i := i + 1;
      }
      assert heard[..i] == heard;
    }

    /** Runs for a duration, for as many rounds as the nodes' messages and the wall clock are
        given for; a shorter list of rounds is a cancelled run. `states` are those between the
        rounds. */
    method Go(duration: nat, rounds: seq<Round>) returns (r: GoResult, ghost states: seq<State>)
      requires Valid() && Causality.Inv(View()) && curTime == pauseTime
      requires forall r :: r in rounds ==> SleepsAreProper(r.heard)
      modifies this, alarmMgr, alarmMgr.objects, eventQueue
      ensures Valid() && Causality.Inv(View()) && alarmMgr.objects == old(alarmMgr.objects)
      ensures old(curTime) <= curTime <= LockStep.PauseAt(old(curTime), duration)
      ensures r.Finished? ==> curTime == LockStep.PauseAt(old(curTime), duration)
      ensures r.Finished? ==> QuietUntil(View(), curTime) && alive == {}
      ensures r.Hung? ==> HangsAt(View())
      ensures !r.Hung? ==> curTime == pauseTime
      ensures IsGo(states, rounds, LockStep.PauseAt(old(curTime), duration), r)
      ensures |states| > 0 && states[0] == old(View()) && states[|states| - 1] == View()
    {
      hide Valid, View, Causality.Inv, Registered, Sound, IsTrace, HandleAll, HangsAt, IsGo, IsRound, QuietUntil;
      Fields();
      TimeIsBounded(View());
      SetPause(if curTime + duration > EVER then EVER else curTime + duration);
      r := Cancelled;
      states := [View()];
      var i := 0;
      GoStarts(View(), rounds, pauseTime);
      while curTime <= pauseTime && i < |rounds| && r.Cancelled?
        invariant 0 <= i <= |rounds| && Valid() && Causality.Inv(View()) && alarmMgr.objects == old(alarmMgr.objects)
        invariant old(curTime) <= curTime <= pauseTime == LockStep.PauseAt(old(curTime), duration) <= EVER
        invariant r.Finished? ==> curTime == pauseTime && QuietUntil(View(), curTime) && alive == {}
        invariant r.Hung? ==> HangsAt(View())
        invariant |states| == i + 1 && states[0] == old(View()) && states[i] == View()
        invariant IsGo(states, rounds[..i], pauseTime, r)
        decreases |rounds| - i
      {
        assert rounds[i] in rounds;
        r := OneRound(rounds[i]);
        GoGoesOn(states, rounds, i, pauseTime, View(), r);
        states := states + [View()];
        i := i + 1;
      }
      GoIsOver(states, rounds, i, pauseTime, r);
      if pauseTime > curTime && !r.Hung? {
        SetPause(curTime);
      }
    }

    /** One pass of the main loop: hear the nodes and, if none is alive, go on. */
    method OneRound(round: Round) returns (r: GoResult)
      requires Valid() && Causality.Inv(View()) && SleepsAreProper(round.heard) && curTime <= pauseTime <= EVER
      modifies this, alarmMgr, alarmMgr.objects, eventQueue
      ensures Valid() && Causality.Inv(View()) && alarmMgr.objects == old(alarmMgr.objects)
      ensures old(curTime) <= curTime <= pauseTime == old(pauseTime)
      ensures IsRound(old(View()), View(), round, pauseTime, r)
      ensures r.Finished? ==> curTime == pauseTime && QuietUntil(View(), curTime) && alive == {}
      ensures r.Hung? ==> HangsAt(View())
    {
      hide Valid, View, Causality.Inv, Registered, Sound, IsTrace, HandleAll, HangsAt, QuietUntil, IsNext;
      Fields();
      r := Cancelled;
      RecvEvents(round.heard);
      Fields();
      if alive == {} {
        ghost var heard := View();
        var target := if round.target < curTime then curTime else round.target;
        ghost var trace, next;
        var p;
        p, trace, next := ProcessNextEvents(target, round.choices);
        ghost var d := View();
        Fields();
        if p.Hangs? {
          r := Hung;
        } else if p.Pauses? && alive == {} {
          PauseIsClear(View(), pauseTime);
          AdvanceTimeKeeps(View(), pauseTime);
          SetTime(pauseTime);
          Fields();
          r := Finished;
        }
        assert RoundEnds(heard, d, View(), round, pauseTime, p, next, trace, r);
      }
    }

    method SetPause(t: nat)
      requires Valid()
      modifies this`pauseTime
      ensures Valid() && View() == old(View()) && pauseTime == t
    {
      pauseTime := t;
    }
  }

  /** What processing an instant leads to: more before the pause, nothing more, or no return. */
  datatype Progress = GoesOn | Pauses | Hangs

  datatype GoResult = Finished | Cancelled | Hung

  /** The loop over an instant at Ever finds a cleared alarm, which stays due forever
      (InstantRuns.InstantAtEverNeverEnds), or looks for an alarm or an event where there is
      none. */
  ghost predicate HangsAt(d: State) {
    d.curTime == EVER &&
    (d.alarms == map[] || d.queue == multiset{} || exists n :: n in d.alarms && d.alarms[n] == EVER)
  }

  lemma NothingComes(d: State, nextAlarmTime: nat, nextSendTime: nat)
    requires Causality.Inv(d) && NextAre(d, nextAlarmTime, nextSendTime) && d.curTime == EVER
    requires nextAlarmTime <= EVER || nextSendTime <= EVER
    requires nextAlarmTime <= nextSendTime || d.queue == multiset{}
    ensures HangsAt(d)
  {
    InvTimes(d);
  }

  lemma TimeIsBounded(d: State)
    requires Causality.Inv(d)
    ensures d.curTime <= EVER
  {
  }

  /** What the nodes say, and how far the wall clock gets, in one pass of the main loop. */
  datatype Round = Round(heard: seq<(int, LockStep.Said)>, target: nat, choices: nat -> Choice)

  /** Nodes ask for a positive delay when they go to sleep. */
  predicate SleepsAreProper(heard: seq<(int, LockStep.Said)>) {
    forall i :: 0 <= i < |heard| && heard[i].1.content.Sleeps? ==> heard[i].1.content.delay > 0
  }

  function HandleAll(d: State, heard: seq<(int, LockStep.Said)>): State {
    if heard == [] then d
    else
      var d' := HandleAll(d, heard[..|heard| - 1]);
      var (n, s) := heard[|heard| - 1];
      if n in d'.nodes then LockStep.Handle(d', n, s) else d'
  }

  lemma HandleKeeps(d: State, n: int, s: LockStep.Said)
    requires Causality.Inv(d) && (s.content.Sleeps? ==> s.content.delay > 0)
    ensures n in d.nodes ==> Causality.Inv(LockStep.Handle(d, n, s))
  {
    if n in d.nodes {
      match s.content {
        case Sleeps(delay) => HandleSleepKeeps(d, n, s.msgId, delay);
        case Queues(body) => HandleQueuedKeeps(d, n, body);
        case Informs => HeardKeeps(d, n);
      }
    }
  }

  /** A round that found no node alive. */
  ghost predicate RoundEnds(heard: State, d: State, d': State, round: Round, pauseTime: nat, p: Progress, next: nat,
                            trace: seq<State>, r: GoResult)
  {
    var target := if round.target < heard.curTime then heard.curTime else round.target;
    Advances(heard, d, target, pauseTime, p, next, trace) && IsTrace(trace, round.choices) &&
    r == (if p.Hangs? then Hung else if p.Pauses? && d.alive == {} then Finished else Cancelled) &&
    d' == if r.Finished? then d.(curTime := pauseTime) else d
  }

  /** One round of the main loop: the messages are handled and, if no node is alive, time and
      events advance. */
  ghost predicate IsRound(d: State, d': State, round: Round, pauseTime: nat, r: GoResult) {
    var heard := HandleAll(d, round.heard);
    d.curTime <= d'.curTime <= pauseTime &&
    if heard.alive != {} then d' == heard && r == Cancelled
    else exists d1: State, p: Progress, next: nat, trace: seq<State> ::
      RoundEnds(heard, d1, d', round, pauseTime, p, next, trace, r)
  }

  /** The states between the rounds of a go; only the last round can end it. */
  ghost predicate IsGo(states: seq<State>, rounds: seq<Round>, pauseTime: nat, r: GoResult) {
    0 < |states| <= |rounds| + 1 && (r.Cancelled? ==> |states| == |rounds| + 1) && (|states| == 1 ==> r.Cancelled?) &&
    forall i :: 0 <= i < |states| - 1 ==>
      IsRound(states[i], states[i + 1], rounds[i], pauseTime, if i == |states| - 2 then r else Cancelled)
  }

  lemma GoStarts(d: State, rounds: seq<Round>, pauseTime: nat)
    ensures IsGo([d], rounds[..0], pauseTime, Cancelled)
  {
  }

  lemma GoGoesOn(states: seq<State>, rounds: seq<Round>, i: nat, pauseTime: nat, d: State, r: GoResult)
    requires i < |rounds| && |states| == i + 1 && IsGo(states, rounds[..i], pauseTime, Cancelled)
    requires IsRound(states[i], d, rounds[i], pauseTime, r)
    ensures IsGo(states + [d], rounds[..i + 1], pauseTime, r)
  {
    hide IsRound;
    var longer := states + [d];
    forall j | 0 <= j < |longer| - 1
      ensures IsRound(longer[j], longer[j + 1], rounds[..i + 1][j], pauseTime, if j == |longer| - 2 then r else Cancelled)
    {
      if j < i {
        assert IsRound(states[j], states[j + 1], rounds[..i][j], pauseTime, Cancelled);
      }
    }
  }

  lemma GoIsOver(states: seq<State>, rounds: seq<Round>, i: nat, pauseTime: nat, r: GoResult)
    requires i <= |rounds| && |states| == i + 1 && IsGo(states, rounds[..i], pauseTime, r)
    requires r.Cancelled? ==> i == |rounds|
    ensures IsGo(states, rounds, pauseTime, r)
  {
    hide IsRound;
    forall j | 0 <= j < |states| - 1
      ensures IsRound(states[j], states[j + 1], rounds[j], pauseTime, if j == |states| - 2 then r else Cancelled)
    {
      assert rounds[..i][j] == rounds[j];
    }
  }

  /** The rounds among the first k in which no node says anything. */
  function QuietRounds(rounds: seq<Round>, k: nat): nat
    requires k <= |rounds|
  {
    if k == 0 then 0 else QuietRounds(rounds, k - 1) + if rounds[k - 1].heard == [] then 1 else 0
  }

  /** The wall clock is past the pause in every round. */
  ghost predicate FarAhead(rounds: seq<Round>, pauseTime: nat) {
    forall r :: r in rounds ==> r.target >= pauseTime
  }

  /** No round of the first k found a node alive. */
  ghost predicate NobodyAlive(states: seq<State>, rounds: seq<Round>, k: nat)
    requires k <= |rounds| && k <= |states|
  {
    forall i :: 0 <= i < k ==> HandleAll(states[i], rounds[i].heard).alive == {}
  }

  /** With the wall clock far ahead a round that finds no node alive and does not end the go
      leaves nothing due, and moves time if nothing was due before it. */
  lemma RoundMovesOn(d: State, d': State, round: Round, pauseTime: nat)
    requires IsRound(d, d', round, pauseTime, Cancelled) && round.target >= pauseTime
    requires HandleAll(d, round.heard).alive == {}
    ensures QuietUntil(d', d'.curTime)
    ensures round.heard == [] && QuietUntil(d, d.curTime) ==> d.curTime < d'.curTime
  {
    hide IsTrace;
    var d1: State, p: Progress, next: nat, trace: seq<State> :|
      RoundEnds(HandleAll(d, round.heard), d1, d', round, pauseTime, p, next, trace, Cancelled);
  }

  lemma {:induction false} GoMovesOn(states: seq<State>, rounds: seq<Round>, pauseTime: nat, k: nat)
    requires IsGo(states, rounds, pauseTime, Cancelled) && k < |states| && FarAhead(rounds, pauseTime)
    requires NobodyAlive(states, rounds, k)
    ensures states[0].curTime + QuietRounds(rounds, k) <= states[k].curTime + 1
    ensures k > 0 ==> QuietUntil(states[k], states[k].curTime) && states[k].curTime <= pauseTime
  {
    hide QuietUntil, HandleAll;
    if k > 0 {
      GoMovesOn(states, rounds, pauseTime, k - 1);
      assert IsRound(states[k - 1], states[k], rounds[k - 1], pauseTime, Cancelled);
      assert rounds[k - 1] in rounds;
      RoundMovesOn(states[k - 1], states[k], rounds[k - 1], pauseTime);
    }
  }

  /** A go ends: with the wall clock past the pause, and more quiet rounds than microseconds to
      the pause, it finishes or hangs at Ever, unless some round finds a node alive. */
  lemma GoEnds(states: seq<State>, rounds: seq<Round>, pauseTime: nat, r: GoResult)
    requires IsGo(states, rounds, pauseTime, r) && FarAhead(rounds, pauseTime) && states[0].curTime <= pauseTime
    requires NobodyAlive(states, rounds, |states| - 1)
    requires QuietRounds(rounds, |rounds|) > pauseTime - states[0].curTime + 1
    ensures !r.Cancelled?
  {
    hide IsRound;
    if r.Cancelled? {
      GoMovesOn(states, rounds, pauseTime, |rounds|);
    }
  }

  lemma PauseIsClear(d: State, t: nat)
    requires QuietUntil(d, t)
    ensures NothingBefore(d, t) && QuietUntil(d.(curTime := t), t)
  {
  }

  lemma SleepInParts(d: State, n: int, msgId: nat, delay: nat)
    requires n in d.nodes
    ensures HandleSleep(d, n, msgId, delay) ==
            Heard(d.(alarms := d.alarms[n := d.curTime + Wait(delay)]), n)
            .(alive := if msgId == d.nodes[n].msgId then d.alive - {n} else d.alive)
  {
  }

  /** The times of the next alarm and of the next event, or Ever if there is none. */
  ghost predicate NextAre(d: State, nextAlarmTime: nat, nextSendTime: nat) {
    (forall n :: n in d.alarms ==> nextAlarmTime <= d.alarms[n]) &&
    (if d.alarms == map[] then nextAlarmTime == EVER
     else exists n :: n in d.alarms && d.alarms[n] == nextAlarmTime) &&
    (forall e :: e in d.queue ==> nextSendTime <= e.timestamp) &&
    (if d.queue == multiset{} then nextSendTime == EVER
     else exists e :: e in d.queue && e.timestamp == nextSendTime)
  }

  lemma NothingUntil(d: State, nextAlarmTime: nat, nextSendTime: nat, t: nat)
    requires NextAre(d, nextAlarmTime, nextSendTime)
    ensures t < nextAlarmTime && t < nextSendTime <==> QuietUntil(d, t)
  {
  }

  /** The time of the next alarm or event; Ever counts where there is no alarm or no event. */
  ghost predicate IsNext(d: State, t: nat) {
    NothingBefore(d, t) && (d.alarms == map[] || d.queue == multiset{} ==> t <= EVER) && !QuietUntil(d, t)
  }

  /** One pass of the main loop that found no node alive. If the wall clock has neither reached
      the next alarm or event nor the pause, then time moves to where it is. Otherwise, if the
      next alarm or event comes no later than the pause, then its instant is processed, which
      fires at least one alarm or event and leaves none due, unless it is at Ever. Otherwise
      nothing is left before the pause. */
  ghost predicate Advances(d: State, d': State, target: nat, pauseTime: nat, p: Progress, next: nat, trace: seq<State>) {
    IsNext(d, next) && |trace| > 0 && trace[|trace| - 1] == d' &&
    if target < next && target < pauseTime then p == GoesOn && trace == [d.(curTime := target)] && QuietUntil(d', target)
    else if next <= pauseTime then
      trace[0] == d.(curTime := next) && d'.curTime == next &&
      (if p.Hangs? then HangsAt(d')
       else |trace| > 1 && QuietUntil(d', next) && (p.Pauses? <==> QuietUntil(d', pauseTime)))
    else p == Pauses && trace == [d] && QuietUntil(d', pauseTime)
  }

  lemma StillDue(d: State, next: nat)
    requires IsNext(d, next)
    ensures !QuietUntil(d.(curTime := next), next)
  {
  }

  lemma NextIsAhead(d: State, nextAlarmTime: nat, nextSendTime: nat)
    requires Causality.Inv(d) && NextAre(d, nextAlarmTime, nextSendTime)
    ensures d.curTime <= nextAlarmTime && d.curTime <= nextSendTime
    ensures NothingBefore(d, if nextAlarmTime <= nextSendTime then nextAlarmTime else nextSendTime)
    ensures IsNext(d, if nextAlarmTime <= nextSendTime then nextAlarmTime else nextSendTime)
  {
    InvTimes(d);
  }

  /** The next alarm, taken before any event of its time. */
  ghost predicate AlarmStep(d: State, d': State, n: int, ch: Choice)
    requires Sound(d)
  {
    n in d.nodes && n in d.alarms && d.alarms[n] == d.curTime && d' == AdvanceNode(d, n, d.alarms[n], false, ch)
  }

  /** The next event, once no alarm of its time is left. */
  ghost predicate EventStep(d: State, d': State, e: Event, ch: Choice)
    requires Sound(d)
  {
    e in d.queue && e.timestamp == d.curTime && (forall n :: n in d.alarms ==> d.curTime < d.alarms[n]) &&
    d' == ProcessEvent(Instant.Popped(d, e), e, ch)
  }

  ghost predicate InstantStep(d: State, d': State, ch: Choice)
    requires Sound(d)
  {
    (exists n :: AlarmStep(d, d', n, ch)) || (exists e :: EventStep(d, d', e, ch))
  }

  /** States that follow each other by processing what is due. */
  ghost predicate IsTrace(trace: seq<State>, choices: nat -> Choice) {
    |trace| > 0 && forall i :: 0 <= i < |trace| - 1 ==> Sound(trace[i]) && InstantStep(trace[i], trace[i + 1], choices(i))
  }

  lemma TraceStarts(d: State, choices: nat -> Choice)
    ensures IsTrace([d], choices)
  {
  }

  lemma TraceGoesOn(trace: seq<State>, d: State, d': State, choices: nat -> Choice)
    requires IsTrace(trace, choices) && trace[|trace| - 1] == d && Sound(d) && InstantStep(d, d', choices(|trace| - 1))
    ensures IsTrace(trace + [d'], choices)
  {
    hide InstantStep, Sound;
    var longer := trace + [d'];
    forall i | 0 <= i < |longer| - 1 ensures Sound(longer[i]) && InstantStep(longer[i], longer[i + 1], choices(i)) {
      if i < |trace| - 1 {
        assert Sound(trace[i]) && InstantStep(trace[i], trace[i + 1], choices(i));
      }
    }
  }

  lemma StepKeepsTime(d: State, d': State, ch: Choice)
    requires Sound(d) && InstantStep(d, d', ch)
    ensures d'.curTime == d.curTime
  {
    hide FailuresAdvanced, ProcessEvent;
    if n :| AlarmStep(d, d', n, ch) {
    } else {
      var e :| EventStep(d, d', e, ch);
      LockStep.ProcessEventKeepsTime(Instant.Popped(d, e), e, ch);
    }
  }

  /** Every alarm or event processed leaves less work. */
  lemma StepShrinksWork(d: State, d': State, ch: Choice)
    requires Causality.Inv(d) && d.curTime < EVER && InstantStep(d, d', ch)
    ensures Instant.Work(d') < Instant.Work(d)
  {
    hide Instant.Work, ProcessEvent, AdvanceNode;
    if n :| AlarmStep(d, d', n, ch) {
      Instant.AlarmWork(d, n, ch);
    } else {
      var e :| EventStep(d, d', e, ch);
      Instant.EventWork(d, e, ch);
    }
  }

  /** What is left to do in this instant: at Ever only events count. */
  ghost function Remaining(d: State): nat {
    if d.curTime < EVER then Instant.Work(d) else Instant.Load(d)
  }

  lemma StepShrinks(d: State, d': State, ch: Choice)
    requires Causality.Inv(d) && InstantStep(d, d', ch)
    requires d.curTime == EVER ==> exists e :: EventStep(d, d', e, ch)
    ensures Remaining(d') < Remaining(d)
  {
    hide Instant.Work, Instant.Load, InstantStep, EventStep;
    StepKeepsTime(d, d', ch);
    if d.curTime < EVER {
      StepShrinksWork(d, d', ch);
    } else {
      StepShrinksLoad(d, d', ch);
    }
  }

  /** And at every time, every event processed leaves less load. */
  lemma StepShrinksLoad(d: State, d': State, ch: Choice)
    requires Causality.Inv(d) && exists e :: EventStep(d, d', e, ch)
    ensures Instant.Load(d') < Instant.Load(d)
  {
    hide Instant.Load, ProcessEvent;
    var e :| EventStep(d, d', e, ch);
    Instant.EventLoad(d, e, ch);
  }

  lemma InvTimes(d: State)
    requires Causality.Inv(d)
    ensures NothingBefore(d, d.curTime)
  {
    forall n | n in d.alarms ensures d.curTime <= d.alarms[n] {
      assert AlarmAhead(d, n);
    }
  }

  lemma AlarmIsANode(d: State, n: int)
    requires Causality.Inv(d) && n in d.alarms
    ensures n in d.nodes
  {
  }

  lemma PopOwned(d: State, e: Event)
    requires Causality.Inv(d) && e in d.queue
    ensures Causality.Inv(Instant.Popped(d, e)) && Owned(Instant.Popped(d, e), e)
  {
    PopKeeps(d, e);
    assert Owned(d, e);
  }

  lemma InvParts(d: State)
    requires Causality.Inv(d)
    ensures Sound(d) && Registered(d)
  {
  }

  lemma UnknownNode(d: State, e: Event, ch: Choice)
    requires Sound(d) && e.nodeId !in d.nodes
    ensures ProcessEvent(d, e, ch) == d
  {
  }

  function ModelReacts(d: State, e: Event, aborted: bool): State {
    match e.body.kind
    case CommStart => Enqueue(d, OnCommStart(e, aborted))
    case TxDone => Enqueue(d, OnTxDone(e))
    case ChannelSample => Enqueue(d, OnChannelSample(e))
    case _ => d
  }

  lemma InternalEvents(d: State, e: Event, ch: Choice)
    requires Sound(d) && e.nodeId in d.nodes && !e.body.must
    ensures e.body.kind == AlarmFired ==> ProcessEvent(d, e, ch) == AdvanceNode(d, e.nodeId, d.curTime, false, ch)
    ensures e.body.kind == RadioState ==>
              ProcessEvent(d, e, ch) ==
              if e.body.delay > 0 then Enqueue(d, multiset{Wake(d, e.nodeId, d.curTime + e.body.delay)}) else d
    ensures e.body.kind != AlarmFired && e.body.kind != RadioState ==>
              ProcessEvent(d, e, ch) == ModelReacts(d, e, ch.aborted)
  {
  }

  function Logged(d: State, n: int, logs: bool, ch: Choice): State
    requires n in d.nodes
  {
    var log := Entry(d.curTime, n, Body(RadioLog, false, 0, 0, true, d.nodes[n].serial));
    Enqueue(d, if logs && n in ch.logged then multiset{log} else multiset{})
  }

  /** The frame's effect on one node. */
  function OneFrame(d: State, src: int, n: int, logs: bool, ch: Choice): State
    requires Sound(d)
  {
    if Hears(d, src, n, ch) then Send(Logged(d, n, logs, ch), n, ch) else d
  }

  lemma OneFrameKeeps(d: State, src: int, n: int, logs: bool, ch: Choice)
    requires Causality.Inv(d) && Hears(d, src, n, ch)
    ensures Causality.Inv(Logged(d, n, logs, ch)) && Causality.Inv(OneFrame(d, src, n, logs, ch))
    ensures Enqueue(d, multiset{}) == d
  {
    var log := Entry(d.curTime, n, Body(RadioLog, false, 0, 0, true, d.nodes[n].serial));
    EnqueueKeeps(d, if logs && n in ch.logged then multiset{log} else multiset{});
    SendKeeps(Logged(d, n, logs, ch), n, ch);
    assert d.queue + multiset{} == d.queue;
  }

  lemma SendFrameStep(d: State, src: int, ids: seq<int>, logs: bool, ch: Choice)
    requires Sound(d) && ids != []
    ensures Sound(OneFrame(d, src, ids[0], logs, ch))
    ensures SendFrame(d, src, ids, logs, ch) == SendFrame(OneFrame(d, src, ids[0], logs, ch), src, ids[1..], logs, ch)
  {
    if Hears(d, src, ids[0], ch) {
      SendStaysSound(Logged(d, ids[0], logs, ch), ids[0], ch);
    }
  }
}
