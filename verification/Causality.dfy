/** What every operation of the dispatcher keeps: nothing pending lies in the past, every
    alarm lies after its node's clock, and every queued event belongs to the node it names. */
module Causality {
  import opened SimTypes
  import opened Heap
  import opened NodeOrder
  import opened Dispatcher
  import FailureCtrl

  ghost predicate Registered(d: State) {
    d.alarms.Keys == d.nodes.Keys && d.alive <= d.nodes.Keys && d.order == SortedIds(d.nodes.Keys) &&
    INVALID_NODE_ID !in d.nodes && forall n :: n in d.nodes ==> d.nodes[n].serial < d.serials
  }

  /** The event belongs to no node, or to the very node it was made for. */
  ghost predicate Owned(d: State, e: Event) {
    e.nodeId == INVALID_NODE_ID ||
    (e.nodeId in d.nodes && d.nodes[e.nodeId].serial == e.body.serial && d.nodes[e.nodeId].status != Starting)
  }

  ghost predicate QueueAhead(d: State) {
    forall e :: e in d.queue ==> e.timestamp >= d.curTime && Owned(d, e)
  }

  /** Before the end of time an alarm also lies strictly after its node's clock. */
  ghost predicate AlarmAhead(d: State, n: int)
    requires n in d.nodes && n in d.alarms
  {
    d.alarms[n] >= d.curTime && (d.curTime < EVER ==> d.alarms[n] > d.nodes[n].curTime)
  }

  ghost predicate NodeTimes(d: State, n: int)
    requires n in d.nodes
  {
    var node := d.nodes[n];
    node.createTime <= node.curTime &&
    (n in d.alive ==> node.curTime == d.curTime) &&
    (node.status == Starting ==> node.msgId == 0 && n in d.alive)
  }

  ghost predicate Inv(d: State) {
    Sound(d) && Registered(d) && QueueAhead(d) && d.curTime <= EVER &&
    forall n :: n in d.nodes ==> AlarmAhead(d, n) && NodeTimes(d, n)
  }

  lemma EmptyInv()
    ensures Inv(Empty)
  {
  }

  lemma AddNodeKeeps(d: State, n: int)
    requires Inv(d) && n !in d.nodes && n != INVALID_NODE_ID
    ensures Inv(AddNode(d, n))
  {
    var d' := AddNode(d, n);
    assert d'.nodes.Keys == d.nodes.Keys + {n};
    assert FailureCtrl.NoSchedule.Consistent();
    forall e | e in d'.queue ensures e.timestamp >= d'.curTime && Owned(d', e) {
      assert Owned(d, e);
    }
    forall m | m in d'.nodes ensures AlarmAhead(d', m) && NodeTimes(d', m) {
      if m != n {
        assert AlarmAhead(d, m) && NodeTimes(d, m);
      }
    }
  }

  lemma OrphanOf(queue: multiset<Event>, queue': multiset<Event>, n: int, e: Event)
    requires IsOrphaned(queue, queue', n) && e in queue'
    ensures exists e0 :: e0 in queue && e == Orphaned(e0, n)
  {
    var q: seq<Event>, q': seq<Event> :|
      queue == multiset(q) && queue' == multiset(q') && OrphanedAll(q, q', n);
    assert e in q';
    var i :| 0 <= i < |q'| && q'[i] == e;
    assert q[i] in queue;
  }

  /** An event of the deleted node is no longer one of any node, and will not be one of a
      later node with the same id. */
  lemma OrphansStayOwned(d: State, n: int, queue: multiset<Event>, e: Event)
    requires QueueAhead(d) && n in d.nodes && n != INVALID_NODE_ID && IsOrphaned(d.queue, queue, n) && e in queue
    ensures e.timestamp >= d.curTime && Owned(DeleteNode(d, n, queue), e) && e.nodeId != n
  {
    OrphanOf(d.queue, queue, n, e);
    hide IsOrphaned;
    var e0 :| e0 in d.queue && e == Orphaned(e0, n);
    assert Owned(d, e0);
  }

  lemma DeleteNodeKeeps(d: State, n: int, queue: multiset<Event>)
    requires Inv(d) && n in d.nodes && IsOrphaned(d.queue, queue, n)
    ensures Inv(DeleteNode(d, n, queue))
    ensures forall e :: e in queue ==> e.nodeId != n
  {
    hide IsOrphaned, SortedIds;
    var d' := DeleteNode(d, n, queue);
    assert d'.nodes.Keys == d.nodes.Keys - {n};
    assert d'.alarms.Keys == d.alarms.Keys - {n};
    assert d'.inbox.Keys == d.inbox.Keys - {n};
    forall e | e in queue ensures e.timestamp >= d'.curTime && Owned(d', e) && e.nodeId != n {
      OrphansStayOwned(d, n, queue, e);
    }
    forall m | m in d'.nodes ensures AlarmAhead(d', m) && NodeTimes(d', m) {
      assert AlarmAhead(d, m) && NodeTimes(d, m);
    }
  }

  /** Changes of one node's record, alarm and liveness. */
  lemma NodeChangeKeeps(d: State, d': State, n: int)
    requires Inv(d) && n in d.nodes && n in d'.nodes && n in d'.alarms && Sound(d')
    requires d' == d.(nodes := d'.nodes, alarms := d'.alarms, alive := d'.alive, inbox := d'.inbox, queue := d'.queue)
    requires d'.nodes == d.nodes[n := d'.nodes[n]] && d'.alarms == d.alarms[n := d'.alarms[n]]
    requires d'.alive - {n} == d.alive - {n} && d'.nodes[n].serial == d.nodes[n].serial
    requires d'.nodes[n].status == Starting ==> d.nodes[n].status == Starting
    requires AlarmAhead(d', n) && NodeTimes(d', n)
    requires forall e :: e in d'.queue ==> e in d.queue || (e.timestamp >= d.curTime && Owned(d', e))
    ensures Inv(d')
  {
    assert d'.nodes.Keys == d.nodes.Keys;
    assert d'.alarms.Keys == d.alarms.Keys;
    assert d'.alive <= d'.nodes.Keys by {
      forall m | m in d'.alive ensures m in d'.nodes {
        assert m == n || m in d'.alive - {n};
      }
    }
    forall e | e in d'.queue ensures e.timestamp >= d'.curTime && Owned(d', e) {
      if e in d.queue {
        assert Owned(d, e);
      }
    }
    forall m | m in d'.nodes ensures AlarmAhead(d', m) && NodeTimes(d', m) {
      if m != n {
        assert AlarmAhead(d, m) && NodeTimes(d, m);
        assert m in d'.alive <==> m in d'.alive - {n};
        assert m in d.alive <==> m in d.alive - {n};
      }
    }
  }

  lemma SendKeeps(d: State, n: int, ch: Choice)
    requires Inv(d) && n in d.nodes && d.nodes[n].status != Starting
    ensures Inv(Send(d, n, ch))
  {
    var d' := Send(d, n, ch);
    SendStaysSound(d, n, ch);
    assert AlarmAhead(d, n) && NodeTimes(d, n);
    forall e | e in d'.queue ensures e in d.queue || (e.timestamp >= d.curTime && Owned(d', e)) {
      if e !in d.queue {
        FailureWakesAhead(d, n, ch.offset, e);
      }
    }
    hide FailuresAdvanced;
    NodeChangeKeeps(d, d', n);
  }

  lemma FailureWakesAhead(d: State, n: int, offset: nat, e: Event)
    requires Sound(d) && n in d.nodes && e in FailuresAdvanced(d, n, offset).1
    ensures e.timestamp > d.curTime && e == Wake(d, n, e.timestamp)
  {
    var node := d.nodes[n];
    FailureCtrl.AdvancedStaysConsistent(node.failure, d.curTime, Offset(node.failure, offset));
  }

  lemma AdvanceNodeKeeps(d: State, n: int, timestamp: nat, force: bool, ch: Choice)
    requires Inv(d) && n in d.nodes
    ensures Inv(AdvanceNode(d, n, timestamp, force, ch))
  {
    assert AlarmAhead(d, n) && NodeTimes(d, n);
    if timestamp <= d.nodes[n].curTime && !force {
    } else if d.nodes[n].status != Connected {
      var d' := AdvanceNode(d, n, timestamp, force, ch);
      assert d'.nodes == d.nodes[n := d'.nodes[n]];
      NodeChangeKeeps(d, d', n);
    } else {
      SendKeeps(d, n, ch);
    }
  }

  lemma HandleSleepKeeps(d: State, n: int, msgId: nat, delay: nat)
    requires Inv(d) && n in d.nodes && delay > 0
    ensures Inv(HandleSleep(d, n, msgId, delay))
  {
    var d' := HandleSleep(d, n, msgId, delay);
    assert AlarmAhead(d, n) && NodeTimes(d, n);
    NodeChangeKeeps(d, d', n);
  }

  lemma HandleQueuedKeeps(d: State, n: int, body: Body)
    requires Inv(d) && n in d.nodes
    ensures Inv(HandleQueued(d, n, body))
  {
    var d' := HandleQueued(d, n, body);
    assert AlarmAhead(d, n) && NodeTimes(d, n);
    assert d'.alarms == d.alarms[n := d'.alarms[n]];
    NodeChangeKeeps(d, d', n);
  }

  lemma HeardKeeps(d: State, n: int)
    requires Inv(d) && n in d.nodes
    ensures Inv(Heard(d, n))
  {
    var d' := Heard(d, n);
    assert AlarmAhead(d, n) && NodeTimes(d, n);
    assert d'.alarms == d.alarms[n := d'.alarms[n]];
    NodeChangeKeeps(d, d', n);
  }

  lemma HandleDisconnectKeeps(d: State, n: int)
    requires Inv(d) && n in d.nodes
    ensures Inv(HandleDisconnect(d, n))
  {
    var d' := HandleDisconnect(d, n);
    assert AlarmAhead(d, n) && NodeTimes(d, n);
    NodeChangeKeeps(d, d', n);
  }

  lemma EnqueueKeeps(d: State, events: multiset<Event>)
    requires Inv(d)
    requires forall e :: e in events ==> e.timestamp >= d.curTime && Owned(d, e)
    ensures Inv(Enqueue(d, events))
  {
    var d' := Enqueue(d, events);
    forall e | e in d'.queue ensures e.timestamp >= d'.curTime && Owned(d', e) {
      assert Owned(d, e);
    }
    forall m | m in d'.nodes ensures AlarmAhead(d', m) && NodeTimes(d', m) {
      assert AlarmAhead(d, m) && NodeTimes(d, m);
    }
  }

  lemma PopKeeps(d: State, e: Event)
    requires Inv(d)
    ensures Inv(d.(queue := d.queue - multiset{e}))
  {
    var d' := d.(queue := d.queue - multiset{e});
    forall x | x in d'.queue ensures x.timestamp >= d'.curTime && Owned(d', x) {
      assert x in d.queue && Owned(d, x);
    }
    forall m | m in d'.nodes ensures AlarmAhead(d', m) && NodeTimes(d', m) {
      assert AlarmAhead(d, m) && NodeTimes(d, m);
    }
  }

  lemma {:induction false} SendFrameKeeps(d: State, src: int, ids: seq<int>, logs: bool, ch: Choice)
    requires Inv(d)
    ensures Inv(SendFrame(d, src, ids, logs, ch))
    decreases |ids|
  {
    if ids != [] {
      var n := ids[0];
      if Hears(d, src, n, ch) {
        var log := Entry(d.curTime, n, Body(RadioLog, false, 0, 0, true, d.nodes[n].serial));
        var more := if logs && n in ch.logged then multiset{log} else multiset{};
        var d' := Enqueue(d, more);
        EnqueueKeeps(d, more);
        SendStaysSound(d', n, ch);
        SendKeeps(d', n, ch);
        hide Send, Inv, Enqueue;
        SendFrameKeeps(Send(d', n, ch), src, ids[1..], logs, ch);
      } else {
        SendFrameKeeps(d, src, ids[1..], logs, ch);
      }
    }
  }

  lemma InternalEventKeeps(d: State, e: Event, ch: Choice)
    requires Inv(d) && e.timestamp == d.curTime && Owned(d, e) && e.nodeId in d.nodes && !e.body.must
    ensures Inv(ProcessEvent(d, e, ch))
  {
    hide AdvanceNode, SendFrame, Send, Sound, Registered, QueueAhead, AlarmAhead, NodeTimes;
    match e.body.kind {
      case AlarmFired => AdvanceNodeKeeps(d, e.nodeId, d.curTime, false, ch);
      case CommStart => EnqueueKeeps(d, OnCommStart(e, ch.aborted));
      case RadioState =>
        if e.body.delay > 0 {
          EnqueueKeeps(d, multiset{Wake(d, e.nodeId, d.curTime + e.body.delay)});
        }
      case TxDone => EnqueueKeeps(d, OnTxDone(e));
      case ChannelSample => EnqueueKeeps(d, OnChannelSample(e));
      case _ =>
    }
  }

  lemma DispatchKeeps(d: State, e: Event, ch: Choice)
    requires Inv(d) && Owned(d, e) && e.nodeId in d.nodes && e.body.must
    ensures Inv(ProcessEvent(d, e, ch))
  {
    assert e.nodeId != INVALID_NODE_ID;
    hide AdvanceNode, SendFrame, Send, Sound, Registered, QueueAhead, AlarmAhead, NodeTimes;
    match e.body.kind {
      case CommStart => SendFrameKeeps(d, e.nodeId, d.order, false, ch);
      case RxDone => SendFrameKeeps(d, e.nodeId, d.order, true, ch);
      case _ => SendKeeps(d, e.nodeId, ch);
    }
  }

  lemma ProcessEventKeeps(d: State, e: Event, ch: Choice)
    requires Inv(d) && e.timestamp == d.curTime && Owned(d, e)
    ensures Inv(ProcessEvent(d, e, ch))
  {
    if e.nodeId in d.nodes {
      hide ProcessEvent, Owned;
      if e.body.must {
        DispatchKeeps(d, e, ch);
      } else {
        InternalEventKeeps(d, e, ch);
      }
    }
  }

  /** No alarm and no event is before t. */
  ghost predicate NothingBefore(d: State, t: nat) {
    (forall n :: n in d.alarms ==> t <= d.alarms[n]) && (forall e :: e in d.queue ==> t <= e.timestamp)
  }

  /** The next alarm and the next event are after t; where there is none, the time of the next
      one is Ever. */
  ghost predicate QuietUntil(d: State, t: nat) {
    NothingBefore(d, t + 1) && (d.alarms == map[] || d.queue == multiset{} ==> t < EVER)
  }

  lemma AdvanceTimeKeeps(d: State, t: nat)
    requires Inv(d) && d.alive == {} && d.curTime <= t <= EVER && NothingBefore(d, t)
    ensures Inv(d.(curTime := t))
  {
    var d' := d.(curTime := t);
    forall e | e in d'.queue ensures e.timestamp >= d'.curTime && Owned(d', e) {
      assert Owned(d, e);
    }
    forall m | m in d'.nodes ensures AlarmAhead(d', m) && NodeTimes(d', m) {
      assert AlarmAhead(d, m) && NodeTimes(d, m);
    }
  }

  // ---------- deadlines reported by radios ----------

  /** A reported radio deadline becomes an event for exactly that time. */
  lemma DeadlineIsQueued(d: State, e: Event, ch: Choice)
    requires Sound(d) && e.nodeId in d.nodes && !e.body.must && e.body.kind == RadioState
    ensures e.body.delay > 0 ==> Wake(d, e.nodeId, d.curTime + e.body.delay) in ProcessEvent(d, e, ch).queue
    ensures e.body.delay == 0 ==> ProcessEvent(d, e, ch) == d
  {
  }

  /** When it is due the node is run at that time: it gets a message that moves its clock
      there, unless its clock is there already. */
  lemma WakeRunsNode(d: State, n: int, e: Event, ch: Choice)
    requires Inv(d) && n in d.nodes && d.nodes[n].status == Connected && n !in ch.broken
    requires e == Wake(d, n, d.curTime)
    ensures var d' := ProcessEvent(d, e, ch);
            n in d'.nodes && n in d'.inbox && d'.nodes[n].curTime == d.curTime &&
            d'.inbox[n] == if d.nodes[n].curTime == d.curTime then d.inbox[n]
                           else d.inbox[n] + [Msg(d.nodes[n].msgId + 1, d.curTime - d.nodes[n].curTime)]
  {
    hide FailuresAdvanced;
  }
}
