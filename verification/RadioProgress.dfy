/** The radio never sticks: what every handler of the driver keeps, and what follows for a
    node that sleeps between the messages of the simulator (radio.c, system.c). */
module RadioProgress {
  import opened Radio

  // ---------- what every handler keeps ----------

  /** An acknowledgment whose duration rounds to zero: it has no deadline, and the next pass
      ends it. */
  ghost predicate InstantAck(r: Radio) {
    r.sub == RxAckTxOngoing && r.nextTime == UNDEFINED_TIME_US
  }

  /** Only Ready and an instant acknowledgment have no deadline, and no deadline is ever
      missed. */
  ghost predicate Timed(r: Radio) {
    (r.sub == Ready ==> r.nextTime == UNDEFINED_TIME_US) &&
    (r.sub != Ready && !InstantAck(r) ==> r.nextTime != UNDEFINED_TIME_US && r.now <= r.nextTime)
  }

  /** The deadline lies ahead. */
  ghost predicate Ahead(r: Radio) {
    r.sub != Ready ==> r.now < r.nextTime
  }

  /** The deadline lies ahead once an instant acknowledgment is over. */
  ghost predicate NearlyAhead(r: Radio) {
    Ahead(r) || InstantAck(r)
  }

  /** A frame offered in Ready or Startup is not taken for one already under way. */
  ghost predicate NoStaleWait(r: Radio) {
    (r.sub == Ready || r.sub == Startup) && r.Listening() ==> !r.txWait
  }

  predicate Receives(sub: SubState) {
    sub == RxFrameOngoing || sub == RxAifsWait || sub == RxAckTxOngoing
  }

  ghost predicate Consistent(r: Radio) {
    Timed(r) && NoStaleWait(r) && (Receives(r.sub) ==> r.Listening())
  }

  /** What the stack cannot change by calling the driver. */
  ghost predicate SameClock(r: Radio, r': Radio) {
    r'.now == r.now && r'.bitrate == r.bitrate && r'.opChannel == r.opChannel && r'.lastDuration == r.lastDuration
  }

  lemma CallKeeps(r: Radio, call: Call)
    ensures SameClock(r, Called(r, call))
    ensures Timed(r) ==> Timed(Called(r, call))
    ensures Ahead(r) ==> Ahead(Called(r, call))
    ensures NearlyAhead(r) ==> NearlyAhead(Called(r, call))
    ensures NoStaleWait(r) ==> NoStaleWait(Called(r, call))
    ensures Called(r, call).sub == r.sub || Called(r, call).sub == Startup
    ensures Receives(r.sub) && r.Listening() ==>
              Called(r, call).Listening() && Called(r, call).sub == r.sub && Called(r, call).nextTime == r.nextTime
  {
  }

  lemma {:induction false} CallsKeep(r: Radio, calls: seq<Call>)
    ensures SameClock(r, CalledAll(r, calls))
    ensures Timed(r) ==> Timed(CalledAll(r, calls))
    ensures Ahead(r) ==> Ahead(CalledAll(r, calls))
    ensures NearlyAhead(r) ==> NearlyAhead(CalledAll(r, calls))
    ensures NoStaleWait(r) ==> NoStaleWait(CalledAll(r, calls))
    ensures CalledAll(r, calls).sub == r.sub || CalledAll(r, calls).sub == Startup
    ensures Receives(r.sub) && r.Listening() ==>
              CalledAll(r, calls).Listening() && CalledAll(r, calls).sub == r.sub &&
              CalledAll(r, calls).nextTime == r.nextTime
    decreases |calls|
  {
    if calls != [] {
      CallsKeep(r, calls[..|calls| - 1]);
      CallKeeps(CalledAll(r, calls[..|calls| - 1]), calls[|calls| - 1]);
    }
  }

  lemma SignalKeeps(r: Radio, callback: seq<Call>)
    ensures SameClock(r, SignalTxDone(r, callback))
    ensures Timed(r) ==> Timed(SignalTxDone(r, callback))
    ensures Ahead(r) ==> Ahead(SignalTxDone(r, callback))
    ensures NearlyAhead(r) ==> NearlyAhead(SignalTxDone(r, callback))
    ensures NoStaleWait(r) ==> NoStaleWait(SignalTxDone(r, callback))
    ensures SignalTxDone(r, callback).sub == r.sub || SignalTxDone(r, callback).sub == Startup
    ensures Receives(r.sub) && r.Listening() ==>
              SignalTxDone(r, callback).Listening() && SignalTxDone(r, callback).sub == r.sub &&
              SignalTxDone(r, callback).nextTime == r.nextTime
  {
    CallsKeep(if r.state == Transmitting then SetState(r, Receiving) else r, callback);
  }

  ghost predicate KeptBy(r: Radio, r': Radio) {
    r'.now == r.now && r'.bitrate == r.bitrate && Consistent(r') && NearlyAhead(r')
  }

  predicate Signals(sub: SubState) {
    sub == TxCca || sub == TxAifsWait || sub == TxAckRxOngoing
  }

  lemma SignallingTimeoutKeeps(r: Radio, ch: Choice)
    requires Consistent(r) && Signals(r.sub)
    ensures KeptBy(r, Timeout(r, ch).radio)
  {
    hide SignalTxDone, CalledAll, Called, FrameDuration;
    var ready := SetSubState(r, Ready, UNDEFINED_TIME_US);
    var ifs := SetSubState(r.(opChannel := r.channel), IfsWait, IfsTime(r));
    if r.sub == TxCca {
      SignalKeeps(r, ch.callback);
    } else if r.sub == TxAifsWait {
      SignalKeeps(ready, ch.callback);
    } else {
      SignalKeeps(ifs, ch.callback);
    }
  }

  lemma SilentTimeoutKeeps(r: Radio, ch: Choice)
    requires Consistent(r) && !Signals(r.sub)
    ensures KeptBy(r, Timeout(r, ch).radio)
  {
    hide Timeout, KeptBy, Consistent;
    if Receives(r.sub) {
      RxTimeoutKeeps(r, ch);
    } else {
      OtherTimeoutKeeps(r, ch);
    }
  }

  lemma RxTimeoutKeeps(r: Radio, ch: Choice)
    requires Consistent(r) && Receives(r.sub)
    ensures KeptBy(r, Timeout(r, ch).radio)
  {
    hide SignalTxDone, CalledAll, Called, FrameDuration;
  }

  lemma OtherTimeoutKeeps(r: Radio, ch: Choice)
    requires Consistent(r) && !Signals(r.sub) && !Receives(r.sub)
    ensures KeptBy(r, Timeout(r, ch).radio)
  {
    hide SignalTxDone, CalledAll, Called, FrameDuration;
  }

  lemma TimeoutKeeps(r: Radio, ch: Choice)
    requires Consistent(r)
    ensures KeptBy(r, Timeout(r, ch).radio)
  {
    hide Timeout, KeptBy, Consistent;
    if Signals(r.sub) {
      SignallingTimeoutKeeps(r, ch);
    } else {
      SilentTimeoutKeeps(r, ch);
    }
  }

  /** After a pass no deadline is due; the next pass ends an instant acknowledgment, whatever
      the stack does when it is called back. */
  lemma ProcessKeeps(r: Radio, ch: Choice)
    requires Consistent(r)
    ensures KeptBy(r, Process(r, ch).radio)
    ensures NearlyAhead(r) ==> Ahead(Process(r, ch).radio)
  {
    hide FrameDuration, Timeout, SignalTxDone, CalledAll, Called;
    SignalKeeps(r, ch.callback);
    var r' := if FailsAtOnce(r) then SignalTxDone(r, ch.callback) else r;
    if r'.now >= r'.nextTime {
      TimeoutKeeps(r', ch);
      if NearlyAhead(r) {
        TimeoutSettles(r', ch);
      }
    }
  }

  lemma TimeoutSettles(r: Radio, ch: Choice)
    requires Consistent(r) && (r.sub == Ready || InstantAck(r))
    ensures Ahead(Timeout(r, ch).radio)
  {
  }

  lemma RxStartKeeps(r: Radio, channel: int, duration: nat, error: Error)
    requires Consistent(r)
    ensures RxStart(r, channel, duration, error).now == r.now
    ensures Consistent(RxStart(r, channel, duration, error))
    ensures Ahead(r) ==> Ahead(RxStart(r, channel, duration, error))
    ensures NearlyAhead(r) ==> NearlyAhead(RxStart(r, channel, duration, error))
  {
  }

  lemma RxDoneKeeps(r: Radio, f: RxFrame, error: Error, callback: seq<Call>)
    requires Consistent(r)
    ensures RxDone(r, f, error, callback).radio.now == r.now
    ensures Consistent(RxDone(r, f, error, callback).radio)
    ensures Ahead(r) ==> Ahead(RxDone(r, f, error, callback).radio)
    ensures NearlyAhead(r) ==> NearlyAhead(RxDone(r, f, error, callback).radio)
  {
    if r.sub == RxFrameOngoing {
      var acks := f.ackRequested && !f.isAck && f.addressedToMe && error == NoError;
      ReceivedKeeps(if acks then SetSubState(r, RxAifsWait, AIFS_TIME_US)
                    else ApplyDelayedSleep(SetSubState(r, IfsWait, TURNAROUND_TIME_US)), f, error, callback);
    } else if r.sub == TxAckRxOngoing {
      ReceivedKeeps(SetSubState(r, IfsWait, IfsTime(r)), f, error, callback);
    }
  }

  lemma ReceivedKeeps(r: Radio, f: RxFrame, error: Error, callback: seq<Call>)
    requires Consistent(r) && Ahead(r)
    ensures Received(r, f, error, callback).radio.now == r.now
    ensures Consistent(Received(r, f, error, callback).radio) && Ahead(Received(r, f, error, callback).radio)
  {
    SignalKeeps(r.(txWait := false), callback);
    CallsKeep(r, callback);
  }

  lemma CcaDoneKeeps(r: Radio, channel: int, clear: bool, callback: seq<Call>)
    requires Consistent(r)
    ensures CcaDone(r, channel, clear, callback).radio.now == r.now
    ensures Consistent(CcaDone(r, channel, clear, callback).radio)
    ensures Ahead(r) ==> Ahead(CcaDone(r, channel, clear, callback).radio)
    ensures NearlyAhead(r) ==> NearlyAhead(CcaDone(r, channel, clear, callback).radio)
  {
    SignalKeeps(SetSubState(r.(txWait := false), Ready, UNDEFINED_TIME_US), callback);
  }

  lemma TxDoneKeeps(r: Radio, error: Error, callback: seq<Call>)
    requires Consistent(r)
    ensures TxDone(r, error, callback).radio.now == r.now
    ensures Consistent(TxDone(r, error, callback).radio)
    ensures Ahead(r) ==> Ahead(TxDone(r, error, callback).radio)
    ensures NearlyAhead(r) ==> NearlyAhead(TxDone(r, error, callback).radio)
  {
    SignalKeeps(SetSubState(r, TxTxToRx, TURNAROUND_TIME_US), callback);
  }

  // ---------- the node that runs the driver ----------

  /** The values last reported to the simulator. */
  datatype Report = Report(state: State, channel: int, sub: SubState, eventTime: nat)

  function ReportOf(r: Radio): Report {
    Report(r.state, r.opChannel, r.sub, r.nextTime)
  }

  /** `wakes` are the times for which the simulator has queued a wake-up of this node, `passes`
      counts the runs of the state machine since the node was last woken. */
  datatype Node = Node(radio: Radio, reported: Report, wakes: set<nat>, awake: bool, passes: nat)

  datatype Step =
    | Pass(ch: Choice)
    | StackCalls(call: Call)
    | SetsBitrate(value: int)
    | StartsRx(channel: int, duration: nat, error: Error)
    | EndsRx(f: RxFrame, error: Error, callback: seq<Call>)
    | EndsCca(channel: int, clear: bool, callback: seq<Call>)
    | EndsTx(error: Error, callback: seq<Call>)
    | GoesToSleep
    | IsWoken(t: nat)

  /** Reports a change of state; a deadline that lies ahead makes the simulator queue a
      wake-up for it. */
  function ReportState(n: Node): Node {
    if n.reported == ReportOf(n.radio) then n
    else n.(reported := ReportOf(n.radio),
            wakes := if n.radio.nextTime > n.radio.now then n.wakes + {n.radio.nextTime} else n.wakes)
  }

  function Next(n: Node, step: Step): Node {
    match step
    case Pass(ch) => n.(radio := Process(n.radio, ch).radio, passes := n.passes + 1)
    case StackCalls(call) => n.(radio := Called(n.radio, call))
    case SetsBitrate(value) => n.(radio := SetBitrate(n.radio, value))
    case StartsRx(channel, duration, error) => n.(radio := RxStart(n.radio, channel, duration, error))
    case EndsRx(f, error, callback) => n.(radio := RxDone(n.radio, f, error, callback).radio)
    case EndsCca(channel, clear, callback) => n.(radio := CcaDone(n.radio, channel, clear, callback).radio)
    case EndsTx(error, callback) => n.(radio := TxDone(n.radio, error, callback).radio)
    case GoesToSleep => ReportState(n).(awake := false)
    case IsWoken(t) => n.(radio := n.radio.(now := t), awake := true, passes := 0)
  }

  /** The state machine runs before and after every message is handled, so a node sleeps only
      after two passes, and with no transmission to start. The simulator wakes it no later than
      at the earliest wake-up it has queued (WakeUps.NotPassedOver). */
  ghost predicate Allowed(n: Node, step: Step) {
    match step
    case GoesToSleep => n.awake && n.passes >= 2 && (!n.radio.TransmitPending() || n.radio.Busy())
    case IsWoken(t) => !n.awake && n.radio.now <= t && forall w :: w in n.wakes && w > n.radio.now ==> t <= w
    case _ => n.awake
  }

  ghost predicate NodeInv(n: Node) {
    Consistent(n.radio) &&
    (n.passes >= 1 ==> NearlyAhead(n.radio)) && (n.passes >= 2 ==> Ahead(n.radio)) &&
    (n.reported.eventTime > n.radio.now ==> n.reported.eventTime in n.wakes) &&
    (!n.awake ==> n.passes >= 2 && n.reported == ReportOf(n.radio) && !(n.radio.sub == Ready && n.radio.state == Transmitting))
  }

  const InitialNode := Node(Initial, Report(Disabled, 0, Startup, 0), {}, true, 2)

  lemma StepKeeps(n: Node, step: Step)
    requires NodeInv(n) && Allowed(n, step)
    ensures NodeInv(Next(n, step))
  {
    hide Process, Called, RxStart, RxDone, CcaDone, TxDone;
    match step {
      case Pass(ch) => ProcessKeeps(n.radio, ch);
      case StackCalls(call) => CallKeeps(n.radio, call);
      case StartsRx(channel, duration, error) => RxStartKeeps(n.radio, channel, duration, error);
      case EndsRx(f, error, callback) => RxDoneKeeps(n.radio, f, error, callback);
      case EndsCca(channel, clear, callback) => CcaDoneKeeps(n.radio, channel, clear, callback);
      case EndsTx(error, callback) => TxDoneKeeps(n.radio, error, callback);
      case _ =>
    }
  }

  ghost predicate IsRun(nodes: seq<Node>, steps: seq<Step>) {
    |nodes| == |steps| + 1 && nodes[0] == InitialNode &&
    forall k :: 0 <= k < |steps| ==> Allowed(nodes[k], steps[k]) && nodes[k + 1] == Next(nodes[k], steps[k])
  }

  lemma {:induction false} RunKeeps(nodes: seq<Node>, steps: seq<Step>, k: nat)
    requires IsRun(nodes, steps) && k < |nodes|
    ensures NodeInv(nodes[k])
  {
    if k > 0 {
      RunKeeps(nodes, steps, k - 1);
      hide NodeInv, Next, Allowed;
      StepKeeps(nodes[k - 1], steps[k - 1]);
    }
  }

  /** Every timeout with a deadline happens exactly then, whatever the stack and the simulator
      do. */
  lemma TimeoutsAreExact(nodes: seq<Node>, steps: seq<Step>, k: nat)
    requires IsRun(nodes, steps) && k < |steps|
    requires steps[k].Pass? && nodes[k].radio.nextTime != UNDEFINED_TIME_US
    requires nodes[k].radio.now >= nodes[k].radio.nextTime
    ensures nodes[k].radio.now == nodes[k].radio.nextTime
  {
    RunKeeps(nodes, steps, k);
  }

  /** A sleeping node has no frame left to send, and its deadline, if it has one, lies ahead
      and is among the wake-ups the simulator has queued. */
  lemma SleepersAreWoken(nodes: seq<Node>, steps: seq<Step>, k: nat)
    requires IsRun(nodes, steps) && k < |nodes| && !nodes[k].awake
    ensures nodes[k].radio.sub == Ready ==> nodes[k].radio.state != Transmitting
    ensures nodes[k].radio.sub != Ready ==>
              nodes[k].radio.now < nodes[k].radio.nextTime && nodes[k].radio.nextTime in nodes[k].wakes
  {
    RunKeeps(nodes, steps, k);
  }

  /** An acknowledgment so fast that its duration rounds to zero gets no deadline. */
  lemma FastAckHasNoDeadline(r: Radio, ch: Choice)
    requires Consistent(r) && r.sub == RxAifsWait && r.now == r.nextTime
    ensures Process(r, ch).radio.sub == RxAckTxOngoing
    ensures Process(r, ch).radio.nextTime > r.now <==> r.bitrate <= 8_000_000 * (6 + ch.ackLength)
  {
    SignalKeeps(r, ch.callback);
    hide SignalTxDone, CalledAll, Called;
    DurationIsPositive(ch.ackLength, r.bitrate);
  }

  /** The second pass of the same message turns the radio around, so no node sleeps in it. */
  lemma FastAckEndsAtOnce(r: Radio, ch: Choice, again: Choice)
    requires Consistent(r) && r.sub == RxAifsWait && r.now == r.nextTime
    requires r.bitrate > 8_000_000 * (6 + ch.ackLength)
    ensures var r' := Process(Process(r, ch).radio, again).radio;
            r'.sub == RxTxToRx && r'.nextTime == r.now + TURNAROUND_TIME_US && Consistent(r') && Ahead(r')
  {
    hide FrameDuration, SignalTxDone, CalledAll, Called, Process, Consistent;
    FastAckHasNoDeadline(r, ch);
    ProcessKeeps(r, ch);
    var once := Process(r, ch).radio;
    KeptIsConsistent(r, once);
    ProcessKeeps(once, again);
    KeptIsConsistent(once, Process(once, again).radio);
    InstantAckTurns(once, again);
  }

  lemma InstantAckTurns(r: Radio, ch: Choice)
    requires Consistent(r) && InstantAck(r)
    ensures var r' := Process(r, ch).radio; r'.sub == RxTxToRx && r'.nextTime == r.now + TURNAROUND_TIME_US
  {
    hide FrameDuration, SignalTxDone, CalledAll, Called;
    SignalKeeps(r, ch.callback);
  }

  lemma DurationIsPositive(length: nat, bitrate: Bitrate)
    ensures FrameDuration(length, bitrate) > 0 <==> bitrate <= 8_000_000 * (6 + length)
  {
    QuotientIsPositive((6 + length) * 8 * 1_000_000, bitrate);
  }

  lemma QuotientIsPositive(a: nat, b: int)
    requires b > 0
    ensures a / b > 0 <==> a >= b
  {
    var q := a / b;
    assert a == b * q + a % b;
    if q > 0 {
      assert b * q >= b;
    } else {
      assert q == 0;
      assert b * q == 0;
    }
  }

  // ---------- back to Ready ----------

  /** Timeouts left until Ready. */
  function Rank(sub: SubState): nat {
    match sub
    case Ready => 0
    case Startup => 1
    case IfsWait => 1
    case TxCca => 1
    case TxAifsWait => 2
    case TxAckRxOngoing => 2
    case TxTxToRx => 2
    case RxFrameOngoing => 2
    case RxTxToRx => 2
    case TxTxToAifs => 3
    case TxFrameOngoing => 3
    case RxAckTxOngoing => 3
    case TxCcaToTx => 4
    case RxAifsWait => 4
  }

  /** No frame takes longer than d to send. */
  ghost predicate FramesTake(r: Radio, ch: Choice, d: nat) {
    (r.sub == TxCcaToTx ==> FrameDuration(r.frame.length, r.bitrate) <= d && r.lastDuration <= d) &&
    (r.sub == RxAifsWait ==> FrameDuration(ch.ackLength, r.bitrate) <= d)
  }

  function MaxWait(d: nat): nat {
    if d + 1 < LIFS_TIME_US then LIFS_TIME_US else d + 1
  }

  lemma SignallingTimeoutDescends(r: Radio, ch: Choice)
    requires Consistent(r) && Signals(r.sub)
    ensures Rank(Timeout(r, ch).radio.sub) < Rank(r.sub)
    ensures Timeout(r, ch).radio.nextTime <= r.now + LIFS_TIME_US
  {
    hide CalledAll, Called, FrameDuration;
    SignalWaits(r, ch.callback);
    SignalWaits(SetSubState(r, Ready, UNDEFINED_TIME_US), ch.callback);
    SignalWaits(SetSubState(r.(opChannel := r.channel), IfsWait, IfsTime(r)), ch.callback);
    hide SignalTxDone;
  }

  /** What the stack does when a transmission ends may only add a startup. */
  lemma SignalWaits(r: Radio, callback: seq<Call>)
    ensures SignalTxDone(r, callback).sub == r.sub || SignalTxDone(r, callback).sub == Startup
    ensures SignalTxDone(r, callback).nextTime <= r.nextTime ||
            SignalTxDone(r, callback).nextTime <= r.now + STARTUP_TIME_US
  {
    SignalKeeps(r, callback);
    CallsWait(if r.state == Transmitting then SetState(r, Receiving) else r, callback);
  }

  lemma CallWaits(r: Radio, call: Call)
    ensures Called(r, call).nextTime <= r.nextTime || Called(r, call).nextTime <= r.now + STARTUP_TIME_US
    ensures Called(r, call).now == r.now
  {
  }

  lemma {:induction false} CallsWait(r: Radio, calls: seq<Call>)
    ensures CalledAll(r, calls).nextTime <= r.nextTime || CalledAll(r, calls).nextTime <= r.now + STARTUP_TIME_US
    ensures CalledAll(r, calls).now == r.now
    decreases |calls|
  {
    hide Called;
    if calls != [] {
      CallsWait(r, calls[..|calls| - 1]);
      CallWaits(CalledAll(r, calls[..|calls| - 1]), calls[|calls| - 1]);
    }
  }

  lemma SilentTimeoutDescends(r: Radio, ch: Choice, d: nat)
    requires Consistent(r) && !Signals(r.sub) && r.sub != Ready && FramesTake(r, ch, d)
    ensures Rank(Timeout(r, ch).radio.sub) < Rank(r.sub)
    ensures Timeout(r, ch).radio.nextTime <= r.now + MaxWait(d) && Timeout(r, ch).radio.sub != TxCcaToTx
  {
    hide SignalTxDone, CalledAll, Called, FrameDuration;
  }

  /** A timeout brings Ready closer, and the next one is at most a frame or LIFS away. */
  lemma PassDescends(r: Radio, ch: Choice, d: nat)
    requires Consistent(r) && r.sub != Ready && r.now >= r.nextTime && FramesTake(r, ch, d)
    ensures Rank(Process(r, ch).radio.sub) < Rank(r.sub)
    ensures Process(r, ch).radio.nextTime <= r.now + MaxWait(d)
    ensures KeptBy(r, Process(r, ch).radio) && Process(r, ch).radio.sub != TxCcaToTx
  {
    hide FrameDuration, Timeout, SignalTxDone, CalledAll, Called;
    ProcessKeeps(r, ch);
    SignalKeeps(r, ch.callback);
    var r' := if FailsAtOnce(r) then SignalTxDone(r, ch.callback) else r;
    if Signals(r'.sub) {
      SignallingTimeoutDescends(r', ch);
    } else {
      SilentTimeoutDescends(r', ch, d);
    }
  }

  /** When the radio is next due: now, if it has no deadline. */
  function DueTime(r: Radio): nat {
    if r.now < r.nextTime then r.nextTime else r.now
  }

  /** The node is run whenever the radio is due and nothing else happens. */
  function AfterTimeouts(r: Radio, choices: seq<Choice>): Radio
    decreases |choices|
  {
    if choices == [] || r.sub == Ready then r
    else AfterTimeouts(Process(r.(now := DueTime(r)), choices[0]).radio, choices[1..])
  }

  /** From every substate timeouts alone lead back to Ready, in at most four of them and in
      bounded time. */
  lemma {:induction false} ReturnsToReady(r: Radio, choices: seq<Choice>, d: nat)
    requires Consistent(r) && |choices| >= Rank(r.sub)
    requires forall c :: c in choices ==>
               FrameDuration(c.ackLength, r.bitrate) <= d && (r.sub == TxCcaToTx ==> FramesTake(r, c, d))
    ensures Rank(r.sub) <= 4
    ensures AfterTimeouts(r, choices).sub == Ready
    ensures r.sub != Ready ==> AfterTimeouts(r, choices).now <= DueTime(r) + 3 * MaxWait(d)
    decreases |choices|
  {
    hide FrameDuration, Process, Consistent, MaxWait, FramesTake;
    if r.sub != Ready {
      Returns(r, choices, d);
      assert Rank(r.sub) <= 4;
      Multiples(Rank(r.sub), 5, MaxWait(d));
    }
  }

  lemma {:induction false} Returns(r: Radio, choices: seq<Choice>, d: nat)
    requires Consistent(r) && |choices| >= Rank(r.sub) && r.sub != Ready
    requires forall c :: c in choices ==>
               FrameDuration(c.ackLength, r.bitrate) <= d && (r.sub == TxCcaToTx ==> FramesTake(r, c, d))
    ensures AfterTimeouts(r, choices).sub == Ready
    ensures AfterTimeouts(r, choices).now <= DueTime(r) + (Rank(r.sub) - 1) * MaxWait(d)
    decreases |choices|
  {
    hide FrameDuration, Process, KeptBy, MaxWait;
    var due := r.(now := DueTime(r));
    var next := Process(due, choices[0]).radio;
    assert choices[0] in choices;
    PassDescends(due, choices[0], d);
    assert KeptBy(due, next);
    KeptIsConsistent(due, next);
    assert AfterTimeouts(r, choices) == AfterTimeouts(next, choices[1..]);
    if next.sub != Ready {
      Returns(next, choices[1..], d);
      Multiples(Rank(next.sub), Rank(r.sub), MaxWait(d));
    }
  }

  lemma KeptIsConsistent(r: Radio, r': Radio)
    requires KeptBy(r, r')
    ensures Consistent(r') && NearlyAhead(r') && r'.bitrate == r.bitrate && r'.now == r.now
  {
  }

  lemma Multiples(a: nat, b: nat, w: nat)
    requires 0 < a < b
    ensures w + (a - 1) * w <= (b - 1) * w
  {
    assert w + (a - 1) * w == a * w;
    assert a * w <= (b - 1) * w;
  }

  // ---------- interframe spacing ----------

  lemma CallKeepsDeadline(r: Radio, call: Call)
    ensures r.sub == Startup ==> Called(r, call).sub == Startup
    ensures Called(r, call).sub != Startup ==> Called(r, call).sub == r.sub && Called(r, call).nextTime == r.nextTime
  {
  }

  lemma {:induction false} CallsKeepDeadline(r: Radio, calls: seq<Call>)
    requires r.sub != Startup
    ensures CalledAll(r, calls).sub != Startup ==>
              CalledAll(r, calls).sub == r.sub && CalledAll(r, calls).nextTime == r.nextTime
    decreases |calls|
  {
    hide Called;
    if calls != [] {
      CallsKeepDeadline(r, calls[..|calls| - 1]);
      CallKeepsDeadline(CalledAll(r, calls[..|calls| - 1]), calls[|calls| - 1]);
    }
  }

  /** After an exchange with acknowledgment the radio is busy for exactly the spacing that the
      length of the frame it sent calls for, unless the stack restarts it. */
  lemma SpacingAfterAck(r: Radio, f: RxFrame, error: Error, callback: seq<Call>)
    requires Consistent(r) && r.sub == TxAckRxOngoing
    ensures var r' := RxDone(r, f, error, callback).radio;
            r'.sub != Startup ==>
              r'.sub == IfsWait && r'.nextTime == r.now + if r.frame.length > 18 then 640 else 192
  {
    var ifs := SetSubState(r, IfsWait, IfsTime(r));
    var waited := ifs.(txWait := false);
    CallsKeepDeadline(ifs, callback);
    CallsKeepDeadline(if waited.state == Transmitting then SetState(waited, Receiving) else waited, callback);
    hide CalledAll, Called;
  }

  /** After a frame without acknowledgment the spacing follows the frame that is in the buffer
      one turnaround time later: it is that of the frame sent if and only if both are short or
      both are long. */
  lemma SpacingAfterFrame(r: Radio, callback: seq<Call>, ch: Choice)
    requires Consistent(r) && r.sub == TxFrameOngoing && !r.frame.ackRequested
    requires TxDone(r, NoError, callback).radio.sub != Startup
    ensures var done := TxDone(r, NoError, callback).radio;
            var turned := Process(done.(now := done.nextTime), ch).radio;
            turned.sub == IfsWait &&
            turned.nextTime == r.now + (if done.frame.length > 18 then 640 else 192) &&
            (turned.nextTime == r.now + IfsTime(r) <==> (done.frame.length > 18 <==> r.frame.length > 18))
  {
    hide TxDone, Process, Consistent;
    FrameTurns(r, callback);
    TurnSpaces(TxDone(r, NoError, callback).radio.(now := r.now + TURNAROUND_TIME_US), ch);
  }

  lemma FrameTurns(r: Radio, callback: seq<Call>)
    requires r.sub == TxFrameOngoing && !r.frame.ackRequested
    requires TxDone(r, NoError, callback).radio.sub != Startup
    ensures var done := TxDone(r, NoError, callback).radio;
            done.sub == TxTxToRx && done.nextTime == r.now + TURNAROUND_TIME_US
  {
    hide CalledAll, Called;
    var turning := SetSubState(r, TxTxToRx, TURNAROUND_TIME_US);
    CallsKeepDeadline(if turning.state == Transmitting then SetState(turning, Receiving) else turning, callback);
  }

  lemma TurnSpaces(r: Radio, ch: Choice)
    requires r.sub == TxTxToRx && r.now == r.nextTime
    ensures var turned := Process(r, ch).radio;
            turned.sub == IfsWait && turned.nextTime == r.now - TURNAROUND_TIME_US + IfsTime(r)
  {
    hide SignalTxDone, CalledAll, Called, FrameDuration;
  }
}
