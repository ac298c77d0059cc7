/** Queued wake-ups are never passed over: what the radio driver and the failure controller
    rely on when they ask the dispatcher to run a node at a later time. */
module WakeUps {
  import opened SimTypes
  import opened Heap
  import opened Dispatcher
  import opened Causality
  import opened LockStep
  import FailureCtrl

  predicate IsWakeUp(e: Event, n: int) {
    e.nodeId == n && e.body.kind == AlarmFired && !e.body.must
  }

  /** Nothing leaves the queue. */
  ghost predicate KeepsQueue(d: State, d': State) {
    forall e :: e in d.queue ==> e in d'.queue
  }

  // ---------- processing an event takes nothing else from the queue ----------

  lemma SendKeepsQueue(d: State, n: int, ch: Choice)
    requires Sound(d) && n in d.nodes
    ensures KeepsQueue(d, Send(d, n, ch))
  {
    hide FailureCtrl.Advanced;
  }

  lemma {:induction false} SendFrameKeepsQueue(d: State, src: int, ids: seq<int>, logs: bool, ch: Choice)
    requires Sound(d)
    ensures KeepsQueue(d, SendFrame(d, src, ids, logs, ch))
    decreases |ids|
  {
    hide Send;
    if ids != [] {
      var n := ids[0];
      if Dispatcher.Hears(d, src, n, ch) {
        var log := Entry(d.curTime, n, Body(RadioLog, false, 0, 0, true, d.nodes[n].serial));
        var d1 := Enqueue(d, if logs && n in ch.logged then multiset{log} else multiset{});
        SendStaysSound(d1, n, ch);
        SendKeepsQueue(d1, n, ch);
        SendFrameKeepsQueue(Send(d1, n, ch), src, ids[1..], logs, ch);
      } else {
        SendFrameKeepsQueue(d, src, ids[1..], logs, ch);
      }
    }
  }

  lemma AdvanceNodeKeepsQueue(d: State, n: int, timestamp: nat, force: bool, ch: Choice)
    requires Sound(d) && n in d.nodes
    ensures KeepsQueue(d, AdvanceNode(d, n, timestamp, force, ch))
  {
    hide Send;
    SendKeepsQueue(d, n, ch);
  }

  lemma ProcessEventKeepsQueue(d: State, e: Event, ch: Choice)
    requires Sound(d)
    ensures KeepsQueue(d, ProcessEvent(d, e, ch))
  {
    hide Send, AdvanceNode, SendFrame;
    SendFrameKeepsQueue(d, e.nodeId, d.order, false, ch);
    SendFrameKeepsQueue(d, e.nodeId, d.order, true, ch);
    if e.nodeId in d.nodes {
      AdvanceNodeKeepsQueue(d, e.nodeId, d.curTime, false, ch);
      SendKeepsQueue(d, e.nodeId, ch);
    }
  }

  lemma DeletingKeepsOthers(queue: multiset<Event>, queue': multiset<Event>, m: int, e: Event)
    requires IsOrphaned(queue, queue', m) && e in queue && e.nodeId != m
    ensures e in queue'
  {
    var q: seq<Event>, q': seq<Event> :|
      queue == multiset(q) && queue' == multiset(q') && OrphanedAll(q, q', m);
    assert e in q;
    var i :| 0 <= i < |q| && q[i] == e;
    assert q'[i] == e && q'[i] in q';
  }

  lemma HandlingKeepsQueue(d: State, n: int, s: Said)
    requires n in d.nodes
    ensures KeepsQueue(d, Handle(d, n, s))
  {
  }

  /** What a step does to a queued wake-up. */
  lemma WakeUpStays(w: World, step: Step, e: Event)
    requires LockStep.Inv(w) && Allowed(w, step) && e in w.d.queue
    requires !(step.Deletes? && step.n == e.nodeId) && !(step.TakesEvent? && step.e == e)
    ensures e in Next(w, step).d.queue
  {
    hide Links, AdvanceNode, ProcessEvent, IsOrphaned, NothingBefore, AddNode, Handle, Sound, Registered, QueueAhead;
    hide AlarmAhead, NodeTimes, Read;
    match step {
      case Hears(n) => HandlingKeepsQueue(w.d, n, w.said[n][0]);
      case Deletes(m, queue) => DeletingKeepsOthers(w.d.queue, queue, m, e);
      case Commands(n, force, ch) => AdvanceNodeKeepsQueue(w.d, n, w.d.curTime, force, ch);
      case FiresAlarm(n, ch) =>
        PartsOf(w, n);
        AdvanceNodeKeepsQueue(w.d, n, w.d.alarms[n], false, ch);
      case TakesEvent(x, ch) =>
        PopKeeps(w.d, x);
        ProcessEventKeepsQueue(w.d.(queue := w.d.queue - multiset{x}), x, ch);
      case Adds(n, _) => AddingKeepsQueue(w.d, n);
      case _ =>
    }
  }

  lemma AddingKeepsQueue(d: State, n: int)
    ensures AddNode(d, n).queue == d.queue
  {
  }

  /** Processing a wake-up moves a connected node to its time. */
  lemma WakeUpRuns(d: State, n: int, e: Event, ch: Choice)
    requires Causality.Inv(d) && n in d.nodes && d.nodes[n].status == Connected && n !in ch.broken
    requires IsWakeUp(e, n) && e.timestamp == d.curTime
    ensures n in ProcessEvent(d, e, ch).nodes && ProcessEvent(d, e, ch).nodes[n].curTime == e.timestamp
  {
    hide FailuresAdvanced;
  }

  // ---------- every run ----------

  /** While a wake-up of n for time t is queued, n's record is not past t, so every message moves
      n to t at most; the wake-up leaves the queue only when n is deleted or when it is
      processed, and a connected node is then at t. */
  lemma NotPassedOver(ws: seq<World>, steps: seq<Step>, k: nat, n: int, e: Event)
    requires IsRun(ws, steps) && k < |steps| && n in ws[k].d.nodes
    requires e in ws[k].d.queue && IsWakeUp(e, n)
    ensures ws[k].d.nodes[n].curTime <= ws[k].d.curTime <= e.timestamp
    ensures e in ws[k + 1].d.queue || (steps[k].Deletes? && steps[k].n == n) || (steps[k].TakesEvent? && steps[k].e == e)
    ensures steps[k].TakesEvent? && steps[k].e == e &&
            ws[k].d.nodes[n].status == Connected && n !in steps[k].ch.broken ==>
              n in ws[k + 1].d.nodes && ws[k + 1].d.nodes[n].curTime == e.timestamp
  {
    hide Links, ProcessEvent, Takes, AfterHearing, AfterAdding, AfterDeleting, AfterScheduling, AfterReading, AfterSaying;
    var w, step := ws[k], steps[k];
    RunKeeps(ws, steps, k);
    if step.TakesEvent? && step.e == e {
      PopKeeps(w.d, e);
      if w.d.nodes[n].status == Connected && n !in step.ch.broken {
        WakeUpRuns(w.d.(queue := w.d.queue - multiset{e}), n, e, step.ch);
      }
    } else if !(step.Deletes? && step.n == n) {
      WakeUpStays(w, step, e);
    }
  }
}
