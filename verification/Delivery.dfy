/** Who gets what: what the messages of nodes become, and which nodes the dispatcher's events
    reach (dispatcher.go). */
module Delivery {
  import opened SimTypes
  import opened Heap
  import opened NodeOrder
  import opened Dispatcher
  import opened Causality
  import opened LockStep
  import FailureCtrl
  import WakeUps

  // ---------- the recipients of a frame ----------

  /** Everything the dispatcher holds about one node. */
  ghost function At(d: State, n: int): (Node, seq<Msg>, nat, bool)
    requires n in d.nodes && n in d.inbox && n in d.alarms
  {
    (d.nodes[n], d.inbox[n], d.alarms[n], n in d.alive)
  }

  lemma SendIsLocal(d: State, m: int, ch: Choice, n: int)
    requires Causality.Inv(d) && m in d.nodes && n in d.nodes && d.nodes[m].status != Starting
    ensures var d' := Send(d, m, ch);
            Causality.Inv(d') && d'.nodes.Keys == d.nodes.Keys && d'.order == d.order && d'.curTime == d.curTime &&
            (m != n ==> At(d', n) == At(d, n))
  {
    hide FailuresAdvanced, Causality.Inv, SortedIds;
    SendKeeps(d, m, ch);
    InvKeys(d);
    InvKeys(Send(d, m, ch));
    assert Send(d, m, ch).nodes.Keys == d.nodes.Keys;
  }

  lemma InvKeys(d: State)
    requires Causality.Inv(d)
    ensures Sound(d) && d.nodes.Keys == d.inbox.Keys == d.alarms.Keys
    ensures d.order == SortedIds(d.nodes.Keys) && INVALID_NODE_ID !in d.nodes
  {
  }

  /** Messages do not depend on the queue. */
  lemma SendIgnoresQueue(d: State, events: multiset<Event>, n: int, ch: Choice)
    requires Causality.Inv(d) && Causality.Inv(Enqueue(d, events)) && n in d.nodes
    ensures At(Enqueue(d, events), n) == At(d, n)
    ensures n in Send(d, n, ch).nodes && At(Send(Enqueue(d, events), n, ch), n) == At(Send(d, n, ch), n)
  {
  }

  /** The radio model's log entries of one node. */
  function Logs(d: State, n: int, logs: bool, ch: Choice): multiset<Event>
    requires n in d.nodes
  {
    if logs && n in ch.logged then multiset{Entry(d.curTime, n, Body(RadioLog, false, 0, 0, true, d.nodes[n].serial))}
    else multiset{}
  }

  lemma LogsKeep(d: State, n: int, logs: bool, ch: Choice)
    requires Causality.Inv(d) && n in d.nodes && d.nodes[n].status != Starting
    ensures Causality.Inv(Enqueue(d, Logs(d, n, logs, ch)))
  {
    EnqueueKeeps(d, Logs(d, n, logs, ch));
  }

  /** A frame changes the nodes that hear it as one message does, and no others. */
  lemma {:induction false} FrameChanges(d: State, src: int, ids: seq<int>, logs: bool, ch: Choice, n: int)
    requires Causality.Inv(d) && n in d.nodes && forall i, j :: 0 <= i < j < |ids| ==> ids[i] != ids[j]
    ensures var d' := SendFrame(d, src, ids, logs, ch);
            Causality.Inv(d') && n in d'.nodes && n in Send(d, n, ch).nodes &&
            At(d', n) == if n in ids && Dispatcher.Hears(d, src, n, ch) then At(Send(d, n, ch), n) else At(d, n)
    decreases |ids|
  {
    hide Send, Causality.Inv, At, Enqueue;
    SendFrameKeeps(d, src, ids, logs, ch);
    SentNode(d, n, ch);
    if ids != [] {
      var m := ids[0];
      assert m !in ids[1..];
      assert n in ids <==> n == m || n in ids[1..];
      if !Dispatcher.Hears(d, src, m, ch) {
        FrameChanges(d, src, ids[1..], logs, ch, n);
      } else {
        OneMoreHears(d, src, ids, logs, ch, n);
      }
    }
  }

  lemma SentNode(d: State, n: int, ch: Choice)
    requires Causality.Inv(d) && n in d.nodes
    ensures var d' := Send(d, n, ch); n in d'.nodes && n in d'.inbox && n in d'.alarms
  {
  }

  lemma OneMoreHears(d: State, src: int, ids: seq<int>, logs: bool, ch: Choice, n: int)
    requires Causality.Inv(d) && n in d.nodes && forall i, j :: 0 <= i < j < |ids| ==> ids[i] != ids[j]
    requires ids != [] && ids[0] !in ids[1..] && Dispatcher.Hears(d, src, ids[0], ch)
    ensures var d' := SendFrame(d, src, ids, logs, ch);
            Causality.Inv(d') && n in d'.nodes && n in Send(d, n, ch).nodes &&
            At(d', n) == if n in ids && Dispatcher.Hears(d, src, n, ch) then At(Send(d, n, ch), n) else At(d, n)
    decreases |ids|, 0
  {
    hide Send, Causality.Inv, At, Enqueue;
    var m := ids[0];
    LogsKeep(d, m, logs, ch);
    var d1 := Enqueue(d, Logs(d, m, logs, ch));
    SendIgnoresQueue(d, Logs(d, m, logs, ch), n, ch);
    assert d1.nodes == d.nodes && d1.curTime == d.curTime by {
      EnqueueOnlyQueues(d, Logs(d, m, logs, ch));
    }
    SendIsLocal(d1, m, ch, n);
    var d2 := Send(d1, m, ch);
    InvKeys(d);
    InvKeys(d1);
    InvKeys(d2);
    FrameChanges(d2, src, ids[1..], logs, ch, n);
    assert SendFrame(d, src, ids, logs, ch) == SendFrame(d2, src, ids[1..], logs, ch);
    if n != m {
      SameNodeSends(d1, d2, n, ch);
      SendIgnoresQueue(d, Logs(d, m, logs, ch), n, ch);
    }
  }

  lemma EnqueueOnlyQueues(d: State, events: multiset<Event>)
    ensures Enqueue(d, events) == d.(queue := d.queue + events)
  {
  }

  lemma SameNodeSends(d: State, d': State, n: int, ch: Choice)
    requires Causality.Inv(d) && Causality.Inv(d') && n in d.nodes && n in d'.nodes
    requires At(d, n) == At(d', n) && d.curTime == d'.curTime
    ensures n in Send(d, n, ch).nodes && n in Send(d', n, ch).nodes && At(Send(d, n, ch), n) == At(Send(d', n, ch), n)
    ensures d.nodes[n] == d'.nodes[n]
  {
  }

  lemma SortedIdsDiffer(ids: set<int>)
    ensures forall i, j :: 0 <= i < j < |SortedIds(ids)| ==> SortedIds(ids)[i] != SortedIds(ids)[j]
    ensures forall n :: n in SortedIds(ids) <==> n in ids
  {
    SortedIdsAre(ids);
  }

  ghost predicate Unchanged(d: State, d': State, n: int) {
    n in d.nodes && n in d'.nodes && d'.nodes[n] == d.nodes[n] &&
    n in d.inbox && n in d'.inbox && d'.inbox[n] == d.inbox[n] &&
    n in d.alarms && n in d'.alarms && d'.alarms[n] == d.alarms[n] && (n in d'.alive <==> n in d.alive)
  }

  /** The node has one more message, which brings it to the present, and is alive. */
  ghost predicate GetsMessage(d: State, d': State, n: int) {
    n in d.nodes && n in d'.nodes && n in d.inbox && n in d'.inbox && n in d'.alarms && d.nodes[n].curTime <= d.curTime &&
    d'.inbox[n] == d.inbox[n] + [Msg(d.nodes[n].msgId + 1, d.curTime - d.nodes[n].curTime)] &&
    d'.nodes[n].msgId == d.nodes[n].msgId + 1 && d'.nodes[n].curTime == d.curTime && d'.nodes[n].status == Connected &&
    d'.alarms[n] == EVER && n in d'.alive
  }

  lemma SendDelivers(d: State, n: int, ch: Choice)
    requires Causality.Inv(d) && n in d.nodes && d.nodes[n].status == Connected && n !in ch.broken
    ensures GetsMessage(d, Send(d, n, ch), n)
  {
    hide FailuresAdvanced;
  }

  /** The sender works, the frame reaches n, and n is another node that works and is connected. */
  ghost predicate Reached(d: State, src: int, n: int, ch: Choice)
    requires src in d.nodes && n in d.nodes
  {
    !d.nodes[src].failure.failed && n in ch.reached && n != src &&
    d.nodes[n].status == Connected && !d.nodes[n].failure.failed && n !in ch.broken
  }

  /** A dispatched start or end of a frame: every other node that the frame reaches, that is
      connected and works, gets exactly one message; the sender itself and all nodes that are
      out of reach, failed or not yet connected are left alone. A failed sender reaches
      nobody. */
  lemma FrameReaches(d: State, e: Event, ch: Choice, n: int)
    requires Causality.Inv(d) && e.nodeId in d.nodes && n in d.nodes
    requires e.body.must && (e.body.kind == CommStart || e.body.kind == RxDone)
    ensures var d', src, node := ProcessEvent(d, e, ch), e.nodeId, d.nodes[n];
            (d.nodes[src].failure.failed ==> d' == d) &&
            (Reached(d, src, n, ch) ==> GetsMessage(d, d', n)) &&
            (n == src || n !in ch.reached || node.status == Starting || node.failure.failed ==> Unchanged(d, d', n))
  {
    hide SendFrame, Send, Causality.Inv, SortedIds;
    InvKeys(d);
    SortedIdsDiffer(d.nodes.Keys);
    if !d.nodes[e.nodeId].failure.failed {
      FrameChanges(d, e.nodeId, d.order, e.body.kind == RxDone, ch, n);
      InvKeys(ProcessEvent(d, e, ch));
      SentNode(d, n, ch);
      if d.nodes[n].status == Connected && n !in ch.broken {
        SendDelivers(d, n, ch);
      }
    }
  }

  lemma OwnEventIs(d: State, e: Event, ch: Choice)
    requires Sound(d) && e.nodeId in d.nodes && e.body.must && e.body.kind != CommStart && e.body.kind != RxDone
    ensures ProcessEvent(d, e, ch) == if e.body.kind == FromHost || ch.delivered then Send(d, e.nodeId, ch) else d
  {
    hide Send, SendFrame;
  }

  lemma OwnerIsKnown(d: State, e: Event)
    requires Causality.Inv(d) && Owned(d, e) && e.nodeId != INVALID_NODE_ID
    ensures e.nodeId in d.nodes && d.nodes[e.nodeId].serial == e.body.serial && d.nodes[e.nodeId].status != Starting
  {
  }

  lemma AtIsAll(d: State, d': State, n: int)
    requires n in d.nodes && n in d.inbox && n in d.alarms && n in d'.nodes && n in d'.inbox && n in d'.alarms
    ensures At(d', n) == At(d, n) <==> Unchanged(d, d', n)
  {
  }

  /** Any other dispatched event reaches the node it names, and no other. */
  lemma OwnEventReaches(d: State, e: Event, ch: Choice, n: int)
    requires Causality.Inv(d) && Owned(d, e) && e.nodeId in d.nodes && n in d.nodes
    requires e.body.must && e.body.kind != CommStart && e.body.kind != RxDone
    ensures var d' := ProcessEvent(d, e, ch);
            (n != e.nodeId || (e.body.kind != FromHost && !ch.delivered) ==> Unchanged(d, d', n)) &&
            (n == e.nodeId && (e.body.kind == FromHost || ch.delivered) && d.nodes[n].status == Connected && n !in ch.broken ==>
               GetsMessage(d, d', n))
  {
    hide SendFrame, Send, Causality.Inv, Sound, ProcessEvent, GetsMessage, At, Owned;
    InvKeys(d);
    OwnEventIs(d, e, ch);
    OwnerIsKnown(d, e);
    SendIsLocal(d, e.nodeId, ch, n);
    InvKeys(Send(d, e.nodeId, ch));
    AtIsAll(d, Send(d, e.nodeId, ch), n);
    if n == e.nodeId && d.nodes[n].status == Connected && n !in ch.broken {
      SendDelivers(d, n, ch);
    }
  }

  // ---------- what the messages of nodes become ----------

  lemma {:induction false} TimeNeverFalls(ws: seq<World>, steps: seq<Step>, i: nat, j: nat)
    requires LockStep.IsRun(ws, steps) && i <= j < |ws|
    ensures ws[i].d.curTime <= ws[j].d.curTime
    decreases j
  {
    hide LockStep.Inv, Next, Allowed;
    if i < j {
      TimeNeverFalls(ws, steps, i, j - 1);
      RunKeeps(ws, steps, j - 1);
      if ws[j].d.curTime != ws[j - 1].d.curTime {
        OnlyAwaitedTimeMoves(ws[j - 1], steps[j - 1]);
      }
    }
  }

  /** The steps from i to j do not delete node n. */
  ghost predicate Stays(steps: seq<Step>, n: int, i: nat, j: nat) {
    forall k :: i <= k < j && k < |steps| && steps[k].Deletes? ==> steps[k].n != n
  }

  ghost predicate TakenBetween(steps: seq<Step>, e: Event, i: nat, j: nat) {
    exists k :: i <= k < j && k < |steps| && steps[k].TakesEvent? && steps[k].e == e
  }

  /** A queued event waits until it is taken, and it is taken at its own time. */
  lemma {:induction false} EventWaits(ws: seq<World>, steps: seq<Step>, i: nat, j: nat, e: Event)
    requires LockStep.IsRun(ws, steps) && i <= j < |ws| && e in ws[i].d.queue && Stays(steps, e.nodeId, i, j)
    ensures (e in ws[j].d.queue && ws[j].d.curTime <= e.timestamp) || TakenBetween(steps, e, i, j)
    decreases j
  {
    hide LockStep.Inv, Next, Allowed, Takes;
    NothingIsLate(ws, steps, j);
    if i < j {
      EventWaits(ws, steps, i, j - 1, e);
      if !TakenBetween(steps, e, i, j) {
        assert !TakenBetween(steps, e, i, j - 1);
        RunKeeps(ws, steps, j - 1);
        WakeUps.WakeUpStays(ws[j - 1], steps[j - 1], e);
      }
    }
  }

  /** Step i hears from n what it says about an event. */
  ghost predicate HearsOf(ws: seq<World>, steps: seq<Step>, i: nat, n: int, body: Body) {
    i < |steps| && i < |ws| && steps[i] == LockStep.Hears(n) &&
    n in ws[i].d.nodes && n in ws[i].said && ws[i].said[n] != [] && ws[i].said[n][0].content == Queues(body)
  }

  /** What the dispatcher queues for an event that node n tells it about in state d. */
  function Notice(d: State, n: int, body: Body, must: bool): Event
    requires n in d.nodes
  {
    Entry(d.curTime, n, Body(body.kind, must, body.delay, body.duration, body.ok, d.nodes[n].serial))
  }

  /** Hearing queues exactly one event, for the present; it is for the node only if it comes
      from the host, and otherwise for the dispatcher and the radio model. No node gets a
      message. */
  lemma HearingQueues(ws: seq<World>, steps: seq<Step>, i: nat, n: int, body: Body)
    requires LockStep.IsRun(ws, steps) && HearsOf(ws, steps, i, n, body)
    ensures body.kind == FromHost ==>
              ws[i + 1].d.queue == ws[i].d.queue + multiset{Notice(ws[i].d, n, body, true)}
    ensures body.kind != FromHost ==>
              ws[i + 1].d.queue == ws[i].d.queue + multiset{Notice(ws[i].d, n, body, false)}
    ensures ws[i + 1].d.inbox == ws[i].d.inbox && ws[i + 1].d.alarms == ws[i].d.alarms && ws[i + 1].d.alive == ws[i].d.alive
  {
    hide LockStep.Inv, Causality.Inv, Links;
    RunKeeps(ws, steps, i);
  }

  /** From the moment a node reports that its radio is due after a delay, either the report is
      still to be taken, at the same time, or a wake-up for exactly the due time is queued, or
      that wake-up has been processed. */
  lemma {:induction false} DeadlineIsKept(ws: seq<World>, steps: seq<Step>, i: nat, j: nat, n: int, body: Body)
    requires LockStep.IsRun(ws, steps) && HearsOf(ws, steps, i, n, body) && i < j < |ws| && Stays(steps, n, i, j)
    requires body.kind == RadioState && body.delay > 0
    ensures var report, due := Notice(ws[i].d, n, body, false), ws[i].d.curTime + body.delay;
            (report in ws[j].d.queue && ws[j].d.curTime == ws[i].d.curTime) ||
            Wake(ws[i].d, n, due) in ws[j].d.queue || TakenBetween(steps, Wake(ws[i].d, n, due), i, j)
    decreases j
  {
    hide LockStep.Inv, Next, Allowed, Takes, Causality.Inv;
    var report, wake := Notice(ws[i].d, n, body, false), Wake(ws[i].d, n, ws[i].d.curTime + body.delay);
    if j == i + 1 {
      HearingQueues(ws, steps, i, n, body);
      TimeNeverFalls(ws, steps, i, j);
      NothingIsLate(ws, steps, j);
    } else {
      DeadlineIsKept(ws, steps, i, j - 1, n, body);
      RunKeeps(ws, steps, j - 1);
      if TakenBetween(steps, wake, i, j - 1) || (steps[j - 1].TakesEvent? && steps[j - 1].e == wake) {
        assert TakenBetween(steps, wake, i, j);
      } else if wake in ws[j - 1].d.queue {
        WakeUps.WakeUpStays(ws[j - 1], steps[j - 1], wake);
      } else if steps[j - 1].TakesEvent? && steps[j - 1].e == report {
        RunKeeps(ws, steps, i);
        IsAnId(ws[i], n);
        ReportIsTaken(ws[j - 1], report, steps[j - 1].ch);
      } else {
        WakeUps.WakeUpStays(ws[j - 1], steps[j - 1], report);
        TimeNeverFalls(ws, steps, i, j);
        NothingIsLate(ws, steps, j);
      }
    }
  }

  /** Taking an event is popping and processing it. */
  lemma TakingProcesses(w: World, e: Event, ch: Choice)
    requires LockStep.Inv(w) && Allowed(w, TakesEvent(e, ch))
    ensures var popped := w.d.(queue := w.d.queue - multiset{e});
            Causality.Inv(popped) && Sound(popped) && Owned(popped, e) && e.timestamp == w.d.curTime &&
            Next(w, TakesEvent(e, ch)).d == ProcessEvent(popped, e, ch)
  {
    hide Links, ProcessEvent, Registered;
    PopKeeps(w.d, e);
    assert Owned(w.d, e);
  }

  lemma ReportIsTaken(w: World, e: Event, ch: Choice)
    requires LockStep.Inv(w) && Allowed(w, TakesEvent(e, ch)) && e.nodeId != INVALID_NODE_ID
    requires !e.body.must && e.body.kind == RadioState && e.body.delay > 0
    ensures Entry(e.timestamp + e.body.delay, e.nodeId, Body(AlarmFired, false, 0, 0, true, e.body.serial)) in
            Next(w, TakesEvent(e, ch)).d.queue
  {
    hide LockStep.Inv, Allowed, Next, Causality.Inv, Owned, Sound;
    TakingProcesses(w, e, ch);
    var popped := w.d.(queue := w.d.queue - multiset{e});
    OwnerIsKnown(popped, e);
    DeadlineIsQueued(popped, e, ch);
    hide ProcessEvent;
  }

  lemma IsAnId(w: World, n: int)
    requires LockStep.Inv(w) && n in w.d.nodes
    ensures n != INVALID_NODE_ID
  {
  }

  /** What the radio model posts for a frame that starts in state d: an aborted start is ended
      with an error one microsecond later, and only the sender hears of it. Otherwise the start
      goes out to other nodes at once, if it is a proper frame, and the end follows after the
      duration of the frame. */
  ghost predicate Posts(d: State, n: int, body: Body, aborted: bool, events: multiset<Event>)
    requires n in d.nodes
  {
    var start := Notice(d, n, body, true);
    var end := start.(timestamp := d.curTime + body.duration, body := start.body.(kind := TxDone, must := false));
    if aborted then
      events == multiset{Entry(d.curTime + 1, n, start.body.(kind := TxDone, ok := false))}
    else if body.ok then events == multiset{start, end}
    else events == multiset{end}
  }

  /** A start of a frame that was heard is handled by the radio model: it is taken at the time it
      was heard, what the model posts is added to the queue, and no node gets a message. */
  lemma StartIsModelled(ws: seq<World>, steps: seq<Step>, i: nat, k: nat, n: int, body: Body, ch: Choice)
    requires LockStep.IsRun(ws, steps) && HearsOf(ws, steps, i, n, body) && body.kind == CommStart
    requires i < k < |steps| && steps[k] == TakesEvent(Notice(ws[i].d, n, body, false), ch)
    ensures ws[k].d.curTime == ws[i].d.curTime
    ensures exists events :: Posts(ws[i].d, n, body, ch.aborted, events) &&
              ws[k + 1].d.queue == ws[k].d.queue - multiset{Notice(ws[i].d, n, body, false)} + events
    ensures ws[k + 1].d == ws[k].d.(queue := ws[k + 1].d.queue)
  {
    hide LockStep.Inv, Next, Allowed, Takes, Causality.Inv;
    RunKeeps(ws, steps, i);
    RunKeeps(ws, steps, k);
    IsAnId(ws[i], n);
    NothingIsLate(ws, steps, k);
    var e := Notice(ws[i].d, n, body, false);
    InternalIsTaken(ws[k], e, ch);
    var events := OnCommStart(e, ch.aborted);
    assert Posts(ws[i].d, n, body, ch.aborted, events);
  }

  lemma InternalIsTaken(w: World, e: Event, ch: Choice)
    requires LockStep.Inv(w) && Allowed(w, TakesEvent(e, ch)) && e.nodeId != INVALID_NODE_ID
    requires !e.body.must && e.body.kind == CommStart
    ensures Next(w, TakesEvent(e, ch)).d == Enqueue(w.d.(queue := w.d.queue - multiset{e}), OnCommStart(e, ch.aborted))
  {
    hide LockStep.Inv, Allowed, Next, Causality.Inv, Owned, OnCommStart, Sound;
    TakingProcesses(w, e, ch);
    OwnerIsKnown(w.d.(queue := w.d.queue - multiset{e}), e);
  }

  /** A message from the host that was heard goes to the node, at the same time, and to no other
      node. */
  lemma HostMessageArrives(ws: seq<World>, steps: seq<Step>, i: nat, k: nat, n: int, body: Body, ch: Choice, m: int)
    requires LockStep.IsRun(ws, steps) && HearsOf(ws, steps, i, n, body) && body.kind == FromHost
    requires i < k < |steps| && steps[k] == TakesEvent(Notice(ws[i].d, n, body, true), ch) && m in ws[k].d.nodes
    ensures ws[k].d.curTime == ws[i].d.curTime && n in ws[k].d.nodes
    ensures ws[k].d.nodes[n].status == Connected && n !in ch.broken ==> GetsMessage(ws[k].d, ws[k + 1].d, n)
    ensures m != n ==> Unchanged(ws[k].d, ws[k + 1].d, m)
  {
    hide LockStep.Inv, Next, Allowed, Takes, Causality.Inv, Unchanged, GetsMessage;
    RunKeeps(ws, steps, i);
    RunKeeps(ws, steps, k);
    IsAnId(ws[i], n);
    NothingIsLate(ws, steps, k);
    HostIsTaken(ws[k], Notice(ws[i].d, n, body, true), ch, m);
    HostIsTaken(ws[k], Notice(ws[i].d, n, body, true), ch, n);
  }

  lemma HostIsTaken(w: World, e: Event, ch: Choice, m: int)
    requires LockStep.Inv(w) && Allowed(w, TakesEvent(e, ch)) && e.nodeId != INVALID_NODE_ID
    requires e.body.must && e.body.kind == FromHost
    ensures e.nodeId in w.d.nodes
    ensures m in w.d.nodes ==>
              var d' := Next(w, TakesEvent(e, ch)).d;
              (m == e.nodeId && w.d.nodes[m].status == Connected && m !in ch.broken ==> GetsMessage(w.d, d', m)) &&
              (m != e.nodeId ==> Unchanged(w.d, d', m))
  {
    hide LockStep.Inv, Allowed, Next, Causality.Inv, Owned, Sound, ProcessEvent;
    TakingProcesses(w, e, ch);
    var popped := w.d.(queue := w.d.queue - multiset{e});
    OwnerIsKnown(popped, e);
    if m in w.d.nodes {
      OwnEventReaches(popped, e, ch, m);
    }
  }

  // ---------- nodes come, are commanded, and go ----------

  /** A new node is created at the present with nothing due and nothing to read, and the
      simulation waits for its first answer. */
  lemma NodeBegins(ws: seq<World>, steps: seq<Step>, k: nat, n: int)
    requires LockStep.IsRun(ws, steps) && k < |steps| && steps[k].Adds? && steps[k].n == n
    ensures var d := ws[k + 1].d;
            n in d.nodes && d.nodes[n].createTime == d.nodes[n].curTime == d.curTime && d.nodes[n].status == Starting &&
            n in d.alarms && d.alarms[n] == EVER && n in d.inbox && d.inbox[n] == [] && n in d.alive && n in d.order
  {
    hide LockStep.Inv, Causality.Inv, SortedIds;
    RunKeeps(ws, steps, k);
    RunKeeps(ws, steps, k + 1);
    SortedIdsDiffer(ws[k].d.nodes.Keys + {n});
  }

  /** A lost node is not waited for and has nothing due; the others are left alone. */
  lemma NodeIsLost(ws: seq<World>, steps: seq<Step>, k: nat, n: int, m: int)
    requires LockStep.IsRun(ws, steps) && k < |steps| && steps[k] == Loses(n) && m in ws[k].d.nodes
    ensures var d := ws[k + 1].d;
            n in d.nodes && d.nodes[n].status == Gone && n in d.alarms && d.alarms[n] == EVER && n !in d.alive
    ensures m != n ==> Unchanged(ws[k].d, ws[k + 1].d, m)
  {
    hide LockStep.Inv, Causality.Inv;
    RunKeeps(ws, steps, k);
    KeysInRun(ws[k]);
  }

  lemma KeysInRun(w: World)
    requires LockStep.Inv(w)
    ensures w.d.nodes.Keys == w.d.inbox.Keys == w.d.alarms.Keys && Sound(w.d) && Causality.Inv(w.d)
  {
  }

  /** A command reaches a connected node as a message, always if it is forced, and otherwise if
      the node's time is not the present yet. */
  lemma CommandArrives(ws: seq<World>, steps: seq<Step>, k: nat, n: int, force: bool, ch: Choice, m: int)
    requires LockStep.IsRun(ws, steps) && k < |steps| && steps[k] == Commands(n, force, ch) && m in ws[k].d.nodes
    ensures n in ws[k].d.nodes && ws[k].d.nodes[n].status == Connected && n !in ch.broken ==>
              if force || ws[k].d.nodes[n].curTime < ws[k].d.curTime then GetsMessage(ws[k].d, ws[k + 1].d, n)
              else ws[k + 1].d == ws[k].d
    ensures m != n ==> Unchanged(ws[k].d, ws[k + 1].d, m)
  {
    hide LockStep.Inv, Causality.Inv, Send, At, GetsMessage, Sound;
    RunKeeps(ws, steps, k);
    var d := ws[k].d;
    KeysInRun(ws[k]);
    RecordsArePast(d, n);
    if d.nodes[n].status == Connected {
      SendIsLocal(d, n, ch, m);
      InvKeys(Send(d, n, ch));
      AtIsAll(d, Send(d, n, ch), m);
      if n !in ch.broken {
        SendDelivers(d, n, ch);
      }
    }
  }

  lemma RecordsArePast(d: State, n: int)
    requires Sound(d)
    ensures n in d.nodes ==> d.nodes[n].curTime <= d.curTime
  {
  }

  /** Every message to a node that moves its time lets its failure controller see the new time;
      the wake-up that the controller then asks for is queued. */
  lemma MessageRunsFailures(d: State, n: int, ch: Choice)
    requires Causality.Inv(d) && n in d.nodes && d.nodes[n].curTime < d.curTime
    ensures var s := d.nodes[n].failure;
            exists rel :: s.Offset(rel) &&
              var (s', ts, isUpdated) := FailureCtrl.Advanced(s, d.curTime, rel);
              n in Send(d, n, ch).nodes && Send(d, n, ch).nodes[n].failure == s' &&
              (isUpdated ==> ts > d.curTime && Wake(d, n, ts) in Send(d, n, ch).queue)
  {
    var s := d.nodes[n].failure;
    var rel := Dispatcher.Offset(s, ch.offset);
    FailureCtrl.AdvancedStaysConsistent(s, d.curTime, rel);
    hide FailureCtrl.Advanced;
    assert s.Offset(rel);
  }
}
