/** One simulated instant always finishes: handlers add events for the present, but the work
    that is due strictly decreases with every alarm and event processed (dispatcher.go). */
module Instant {
  import opened SimTypes
  import opened Heap
  import opened NodeOrder
  import opened Dispatcher
  import opened Causality
  import FailureCtrl

  /** What processing a due event can add, plus one: a frame's start causes its dispatch and
      perhaps its end, an end causes two dispatches, and the dispatch of a received frame up to
      one log per node. */
  function Weight(e: Event, now: nat, nodes: nat): nat {
    if e.timestamp > now then 0
    else if e.body.must then if e.body.kind == RxDone then nodes + 1 else 1
    else match e.body.kind
      case CommStart => nodes + 5
      case TxDone => nodes + 3
      case ChannelSample => 2
      case _ => 1
  }

  ghost function Pick(events: multiset<Event>): (e: Event)
    requires |events| > 0
    ensures e in events
  {
    var e :| e in events;
    e
  }

  ghost function Sum(events: multiset<Event>, now: nat, nodes: nat): nat
    decreases |events|
  {
    if |events| == 0 then 0
    else Weight(Pick(events), now, nodes) + Sum(events - multiset{Pick(events)}, now, nodes)
  }

  lemma {:induction false} SumOfOne(events: multiset<Event>, e: Event, now: nat, nodes: nat)
    requires e in events
    ensures Sum(events, now, nodes) == Weight(e, now, nodes) + Sum(events - multiset{e}, now, nodes)
    decreases |events|
  {
    var x := Pick(events);
    assert Sum(events, now, nodes) == Weight(x, now, nodes) + Sum(events - multiset{x}, now, nodes);
    hide *;
    if x != e {
      SumOfOne(events - multiset{x}, e, now, nodes);
      SumOfOne(events - multiset{e}, x, now, nodes);
      TakeBoth(events, x, e);
    }
  }

  lemma TakeBoth(events: multiset<Event>, x: Event, e: Event)
    ensures events - multiset{x} - multiset{e} == events - multiset{e} - multiset{x}
  {
  }

  lemma SumWith(events: multiset<Event>, e: Event, now: nat, nodes: nat)
    ensures Sum(events + multiset{e}, now, nodes) == Sum(events, now, nodes) + Weight(e, now, nodes)
  {
    SumOfOne(events + multiset{e}, e, now, nodes);
    assert events + multiset{e} - multiset{e} == events;
  }

  ghost function DueAlarms(d: State): set<int> {
    set n | n in d.alarms && d.alarms[n] <= d.curTime
  }

  /** The weight of the due events. */
  ghost function Load(d: State): nat {
    Sum(d.queue, d.curTime, |d.order|)
  }

  /** The work due now. */
  ghost function Work(d: State): nat {
    Load(d) + |DueAlarms(d)|
  }

  // ---------- processing only clears alarms ----------

  /** Alarms are left alone or cleared, and neither time nor the nodes change. */
  ghost predicate OnlyClears(d: State, d': State) {
    d'.curTime == d.curTime && d'.order == d.order && d'.alarms.Keys == d.alarms.Keys &&
    forall n :: n in d.alarms ==> d'.alarms[n] == d.alarms[n] || d'.alarms[n] == EVER
  }

  lemma SendOnlyClears(d: State, n: int, ch: Choice)
    requires Sound(d) && n in d.nodes && n in d.alarms
    ensures OnlyClears(d, Send(d, n, ch))
  {
    hide FailuresAdvanced;
  }

  lemma AdvanceNodeOnlyClears(d: State, n: int, timestamp: nat, force: bool, ch: Choice)
    requires Sound(d) && n in d.nodes && n in d.alarms
    ensures OnlyClears(d, AdvanceNode(d, n, timestamp, force, ch))
  {
    hide Send;
    SendOnlyClears(d, n, ch);
  }

  lemma {:induction false} SendFrameOnlyClears(d: State, src: int, ids: seq<int>, logs: bool, ch: Choice)
    requires Sound(d) && d.nodes.Keys <= d.alarms.Keys
    ensures OnlyClears(d, SendFrame(d, src, ids, logs, ch))
    decreases |ids|
  {
    hide FailuresAdvanced;
    if ids != [] {
      var n := ids[0];
      if Hears(d, src, n, ch) {
        var log := Entry(d.curTime, n, Body(RadioLog, false, 0, 0, true, d.nodes[n].serial));
        var d1 := Enqueue(d, if logs && n in ch.logged then multiset{log} else multiset{});
        SendStaysSound(d1, n, ch);
        SendOnlyClears(d1, n, ch);
        assert Send(d1, n, ch).nodes.Keys == d.nodes.Keys;
        SendFrameOnlyClears(Send(d1, n, ch), src, ids[1..], logs, ch);
      } else {
        SendFrameOnlyClears(d, src, ids[1..], logs, ch);
      }
    }
  }

  lemma ProcessEventOnlyClears(d: State, e: Event, ch: Choice)
    requires Sound(d) && d.nodes.Keys <= d.alarms.Keys
    ensures OnlyClears(d, ProcessEvent(d, e, ch))
  {
    hide AdvanceNode, Send, SendFrame;
    if e.nodeId in d.nodes {
      AdvanceNodeOnlyClears(d, e.nodeId, d.curTime, false, ch);
      SendOnlyClears(d, e.nodeId, ch);
      SendFrameOnlyClears(d, e.nodeId, d.order, false, ch);
      SendFrameOnlyClears(d, e.nodeId, d.order, true, ch);
    }
  }

  lemma SmallerSet(a: set<int>, b: set<int>)
    requires a <= b
    ensures |a| <= |b|
    ensures a != b ==> |a| < |b|
  {
    assert b == a + (b - a);
    assert |b| == |a| + |b - a|;
    if a != b {
      assert b - a != {};
    }
  }

  /** Before the end of time a cleared alarm is no longer due. */
  lemma ClearedAlarms(d: State, d': State)
    requires OnlyClears(d, d') && d.curTime < EVER
    ensures |DueAlarms(d')| <= |DueAlarms(d)|
    ensures forall n :: n in d.alarms && d.alarms[n] <= d.curTime && d'.alarms[n] == EVER ==>
              |DueAlarms(d')| < |DueAlarms(d)|
  {
    forall n | n in DueAlarms(d') ensures n in DueAlarms(d) {
      assert n in d.alarms && d'.alarms[n] != EVER;
    }
    SmallerSet(DueAlarms(d'), DueAlarms(d));
    forall n | n in d.alarms && d.alarms[n] <= d.curTime && d'.alarms[n] == EVER
      ensures |DueAlarms(d')| < |DueAlarms(d)|
    {
      assert n in DueAlarms(d) && n !in DueAlarms(d');
    }
  }

  // ---------- the load of messages ----------

  lemma EnqueueLoad(d: State, e: Event)
    ensures Load(Enqueue(d, multiset{e})) == Load(d) + Weight(e, d.curTime, |d.order|)
    ensures Enqueue(d, multiset{}) == d
  {
    SumWith(d.queue, e, d.curTime, |d.order|);
    assert d.queue + multiset{} == d.queue;
  }

  /** A message adds no due event: the wake-up it may queue lies ahead. */
  lemma SendLoad(d: State, n: int, ch: Choice)
    requires Sound(d) && n in d.nodes
    ensures Load(Send(d, n, ch)) == Load(d)
  {
    var d' := Send(d, n, ch);
    var wakes := FailuresAdvanced(d, n, ch.offset).1;
    if wakes == multiset{} {
      assert d'.queue == d.queue;
    } else {
      var ts := FailureCtrl.Advanced(d.nodes[n].failure, d.curTime, Offset(d.nodes[n].failure, ch.offset)).1;
      var e := Wake(d, n, ts);
      assert wakes == multiset{e};
      assert e in wakes;
      FailureWakesAhead(d, n, ch.offset, e);
      SumWith(d.queue, e, d.curTime, |d.order|);
      assert d'.queue == d.queue + multiset{e};
    }
  }

  lemma AdvanceNodeLoad(d: State, n: int, timestamp: nat, force: bool, ch: Choice)
    requires Sound(d) && n in d.nodes
    ensures Load(AdvanceNode(d, n, timestamp, force, ch)) == Load(d)
  {
    hide Send;
    SendLoad(d, n, ch);
  }

  // ---------- alarms ----------

  /** Processing a due alarm changes something if and only if the alarm lies after the node's
      clock; otherwise the same alarm is found again forever. */
  lemma StuckAlarm(d: State, n: int, ch: Choice)
    requires Sound(d) && n in d.nodes && n in d.alarms && d.alarms[n] <= d.curTime < EVER
    ensures AdvanceNode(d, n, d.alarms[n], false, ch) == d <==> d.alarms[n] <= d.nodes[n].curTime
  {
    var d' := AdvanceNode(d, n, d.alarms[n], false, ch);
    assert d.alarms[n] > d.nodes[n].curTime ==> d'.alarms[n] == EVER;
  }

  lemma AlarmWork(d: State, n: int, ch: Choice)
    requires Inv(d) && d.curTime < EVER && n in d.nodes && d.alarms[n] <= d.curTime
    ensures Work(AdvanceNode(d, n, d.alarms[n], false, ch)) < Work(d)
  {
    hide FailuresAdvanced;
    var d' := AdvanceNode(d, n, d.alarms[n], false, ch);
    assert AlarmAhead(d, n);
    assert d'.alarms[n] == EVER;
    AdvanceNodeLoad(d, n, d.alarms[n], false, ch);
    AdvanceNodeOnlyClears(d, n, d.alarms[n], false, ch);
    ClearedAlarms(d, d');
  }

  // ---------- events ----------

  /** Dispatching a frame adds no load but the logs. */
  lemma {:induction false} SendFrameLoad(d: State, src: int, ids: seq<int>, logs: bool, ch: Choice)
    requires Sound(d)
    ensures Load(SendFrame(d, src, ids, logs, ch)) <= Load(d) + if logs then |ids| else 0
    decreases |ids|
  {
    if ids != [] {
      var n := ids[0];
      if Hears(d, src, n, ch) {
        var log := Entry(d.curTime, n, Body(RadioLog, false, 0, 0, true, d.nodes[n].serial));
        var d1 := Enqueue(d, if logs && n in ch.logged then multiset{log} else multiset{});
        EnqueueLoad(d, log);
        SendStaysSound(d1, n, ch);
        SendLoad(d1, n, ch);
        var d2 := Send(d1, n, ch);
        assert SendFrame(d, src, ids, logs, ch) == SendFrame(d2, src, ids[1..], logs, ch);
        hide Send, Sound, Enqueue, Load, SendFrame;
        SendFrameLoad(d2, src, ids[1..], logs, ch);
      } else {
        SendFrameLoad(d, src, ids[1..], logs, ch);
      }
    }
  }

  lemma InternalEventLoad(d: State, e: Event, ch: Choice)
    requires Sound(d) && e.timestamp == d.curTime && e.nodeId in d.nodes && !e.body.must
    ensures Load(ProcessEvent(d, e, ch)) < Load(d) + Weight(e, d.curTime, |d.order|)
  {
    hide Load, AdvanceNode, SendFrame, Send, Sound;
    match e.body.kind {
      case AlarmFired => AdvanceNodeLoad(d, e.nodeId, d.curTime, false, ch);
      case CommStart => CommStartLoad(d, e, ch.aborted);
      case RadioState =>
        if e.body.delay > 0 {
          EnqueueLoad(d, Wake(d, e.nodeId, d.curTime + e.body.delay));
        }
      case TxDone => TxDoneLoad(d, e);
      case ChannelSample =>
        EnqueueLoad(d, e.(timestamp := e.timestamp + e.body.duration, body := e.body.(must := true)));
      case _ =>
    }
  }

  lemma EnqueueTwo(d: State, e: Event, f: Event)
    ensures Load(Enqueue(d, multiset{e} + multiset{f})) ==
            Load(d) + Weight(e, d.curTime, |d.order|) + Weight(f, d.curTime, |d.order|)
  {
    EnqueueLoad(d, e);
    EnqueueLoad(Enqueue(d, multiset{e}), f);
    assert d.queue + (multiset{e} + multiset{f}) == d.queue + multiset{e} + multiset{f};
  }

  lemma CommStartLoad(d: State, e: Event, aborted: bool)
    requires e.timestamp == d.curTime && e.body.kind == CommStart && !e.body.must
    ensures Load(Enqueue(d, OnCommStart(e, aborted))) < Load(d) + Weight(e, d.curTime, |d.order|)
  {
    hide Load, Enqueue;
    var abort := e.(timestamp := e.timestamp + 1, body := e.body.(kind := TxDone, must := true, ok := false));
    var start := e.(body := e.body.(must := true));
    var end := e.(timestamp := e.timestamp + e.body.duration, body := e.body.(kind := TxDone));
    EnqueueLoad(d, abort);
    EnqueueLoad(d, end);
    EnqueueTwo(d, start, end);
    assert multiset{} + multiset{end} == multiset{end};
  }

  lemma TxDoneLoad(d: State, e: Event)
    requires e.timestamp == d.curTime && e.body.kind == TxDone && !e.body.must
    ensures Load(Enqueue(d, OnTxDone(e))) < Load(d) + Weight(e, d.curTime, |d.order|)
  {
    hide Load, Enqueue;
    var toSource := e.(body := e.body.(must := true));
    var toOthers := e.(body := e.body.(kind := RxDone, must := true));
    EnqueueLoad(d, toSource);
    EnqueueTwo(d, toSource, toOthers);
    assert multiset{toSource} + multiset{} == multiset{toSource};
  }

  lemma DispatchLoad(d: State, e: Event, ch: Choice)
    requires Sound(d) && e.timestamp == d.curTime && e.nodeId in d.nodes && e.body.must
    ensures Load(ProcessEvent(d, e, ch)) < Load(d) + Weight(e, d.curTime, |d.order|)
  {
    hide Load, AdvanceNode, SendFrame, Send, Sound;
    match e.body.kind {
      case CommStart => SendFrameLoad(d, e.nodeId, d.order, false, ch);
      case RxDone => SendFrameLoad(d, e.nodeId, d.order, true, ch);
      case _ => SendLoad(d, e.nodeId, ch);
    }
  }

  function Popped(d: State, e: Event): State {
    d.(queue := d.queue - multiset{e})
  }

  lemma PoppedLoad(d: State, e: Event)
    requires e in d.queue
    ensures Load(Popped(d, e)) + Weight(e, d.curTime, |d.order|) == Load(d)
  {
    SumOfOne(d.queue, e, d.curTime, |d.order|);
  }

  lemma PoppedKeeps(d: State, e: Event)
    requires Inv(d) && e in d.queue && e.timestamp <= d.curTime
    ensures Inv(Popped(d, e)) && Owned(Popped(d, e), e) && e.timestamp == d.curTime
    ensures Sound(Popped(d, e)) && d.nodes.Keys == d.alarms.Keys
  {
    PopKeeps(d, e);
    assert Owned(d, e);
  }

  /** Processing a due event leaves less load than before, at every time. */
  lemma EventLoad(d: State, e: Event, ch: Choice)
    requires Inv(d) && e in d.queue && e.timestamp <= d.curTime
    ensures Sound(Popped(d, e)) && Load(ProcessEvent(Popped(d, e), e, ch)) < Load(d)
  {
    hide Load, Inv, Owned, Sound, AdvanceNode, SendFrame, Send, Enqueue;
    var d' := Popped(d, e);
    PoppedLoad(d, e);
    PoppedKeeps(d, e);
    if e.nodeId in d.nodes {
      if e.body.must {
        DispatchLoad(d', e, ch);
      } else {
        InternalEventLoad(d', e, ch);
      }
    }
  }

  /** And less work before the end of time. */
  lemma EventWork(d: State, e: Event, ch: Choice)
    requires Inv(d) && d.curTime < EVER && e in d.queue && e.timestamp <= d.curTime
    ensures Sound(Popped(d, e)) && Work(ProcessEvent(Popped(d, e), e, ch)) < Work(d)
  {
    hide Load, Inv, Owned, Sound, ProcessEvent, OnlyClears;
    PoppedKeeps(d, e);
    EventLoad(d, e, ch);
    ProcessEventOnlyClears(Popped(d, e), e, ch);
    ClearedAlarms(Popped(d, e), ProcessEvent(Popped(d, e), e, ch));
    assert DueAlarms(Popped(d, e)) == DueAlarms(d);
  }
}
