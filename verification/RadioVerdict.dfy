/** What the radio driver tells the OpenThread stack about the frames it was handed (radio.c):
    which verdict every event gives, and that every frame gets exactly one. */
module RadioVerdict {
  import opened Radio
  import opened RadioProgress

  // ---------- the verdict of every event ----------

  /** The frame received is taken for the reply to the one sent. A delayed sleep comes first,
      unless the frame is to be acknowledged. */
  predicate Judges(r: Radio, f: RxFrame, error: Error) {
    r.Listening() && r.txWait && r.frame.ackRequested &&
    (r.sub == TxAckRxOngoing ||
     (r.sub == RxFrameOngoing && (r.delaySleep ==> f.ackRequested && !f.isAck && f.addressedToMe && error == NoError)))
  }

  /** Success is told if and only if the frame received is the acknowledgment awaited. */
  lemma ReplyVerdict(r: Radio, f: RxFrame, error: Error, callback: seq<Call>)
    ensures var signal := RxDone(r, f, error, callback).signal;
            (signal == TxDoneSignal(NoError) <==> Judges(r, f, error) && f.isAck && f.matches && error == NoError) &&
            (signal == TxDoneSignal(NoAck) <==> Judges(r, f, error) && !(f.isAck && f.matches && error == NoError)) &&
            (signal == NoSignal <==> !Judges(r, f, error))
  {
    hide CalledAll, Called;
  }

  lemma SampleVerdict(r: Radio, channel: int, clear: bool, callback: seq<Call>)
    ensures var signal := CcaDone(r, channel, clear, callback).signal;
            (signal == TxDoneSignal(ChannelAccessFailure) <==> r.sub == TxCca && channel == r.frame.channel && !clear) &&
            (signal == NoSignal <==> r.sub != TxCca || channel != r.frame.channel || clear)
  {
    hide CalledAll, Called;
  }

  lemma EndVerdict(r: Radio, error: Error, callback: seq<Call>)
    ensures var signal := TxDone(r, error, callback).signal;
            (signal == TxDoneSignal(error) <==> r.sub == TxFrameOngoing && (error == NoError ==> !r.frame.ackRequested)) &&
            (signal == NoSignal <==> r.sub != TxFrameOngoing || (error == NoError && r.frame.ackRequested))
  {
    hide CalledAll, Called;
  }

  /** A pass tells of a frame that cannot be sent while another is received, of a channel sample
      and of an acknowledgment that did not come in time, and of nothing else. */
  lemma PassVerdict(r: Radio, ch: Choice)
    requires Consistent(r)
    ensures var signal, due := Process(r, ch).signal, r.now >= r.nextTime;
            (signal == TxDoneSignal(ChannelAccessFailure) <==>
              (due && r.sub == TxCca) || (r.TransmitPending() && Receives(r.sub))) &&
            (signal == TxDoneSignal(NoAck) <==> due && (r.sub == TxAifsWait || r.sub == TxAckRxOngoing)) &&
            (signal == NoSignal || signal == TxDoneSignal(ChannelAccessFailure) || signal == TxDoneSignal(NoAck))
  {
    hide SignalTxDone, CalledAll, Called, FrameDuration;
    SignalKeeps(r, ch.callback);
  }

  // ---------- a stack that waits for its verdict ----------

  /** While a frame is being sent the stack neither puts the radio elsewhere nor touches the
      frame. */
  predicate Patient(r: Radio, call: Call) {
    r.state == Transmitting ==> !call.Receive? && !call.Sleep? && !call.Prepare?
  }

  predicate AllPatient(r: Radio, calls: seq<Call>)
    decreases |calls|
  {
    calls == [] ||
    (AllPatient(r, calls[..|calls| - 1]) && Patient(CalledAll(r, calls[..|calls| - 1]), calls[|calls| - 1]))
  }

  /** The frames accepted among the calls. */
  function Accepted(r: Radio, calls: seq<Call>): nat
    decreases |calls|
  {
    if calls == [] then 0
    else
      var r' := CalledAll(r, calls[..|calls| - 1]);
      Accepted(r, calls[..|calls| - 1]) + if calls[|calls| - 1] == Transmit && r'.state == Receiving then 1 else 0
  }

  function Sending(r: Radio): nat {
    if r.state == Transmitting then 1 else 0
  }

  predicate InTransmission(sub: SubState) {
    sub == TxCca || sub == TxCcaToTx || sub == TxFrameOngoing || AwaitsReply(sub)
  }

  predicate AwaitsReply(sub: SubState) {
    sub == TxTxToAifs || sub == TxAifsWait || sub == TxAckRxOngoing
  }

  /** A radio that sends has no sleep to catch up on. */
  predicate Undelayed(r: Radio) {
    r.state == Transmitting ==> !r.delaySleep
  }

  /** What a patient stack can rely on. */
  predicate Committed(r: Radio) {
    Undelayed(r) && (InTransmission(r.sub) ==> r.state == Transmitting && r.txWait) &&
    (AwaitsReply(r.sub) ==> r.frame.ackRequested)
  }

  lemma CallIsCounted(r: Radio, call: Call)
    requires Patient(r, call)
    ensures Undelayed(r) ==> Undelayed(Called(r, call))
    ensures Committed(r) ==> Committed(Called(r, call))
    ensures Sending(Called(r, call)) == Sending(r) + if call == Transmit && r.state == Receiving then 1 else 0
  {
  }

  lemma {:induction false} CallsAreCounted(r: Radio, calls: seq<Call>)
    requires AllPatient(r, calls)
    ensures Undelayed(r) ==> Undelayed(CalledAll(r, calls))
    ensures Committed(r) ==> Committed(CalledAll(r, calls))
    ensures Sending(CalledAll(r, calls)) == Sending(r) + Accepted(r, calls)
    decreases |calls|
  {
    hide Called, Committed, Patient, Undelayed;
    if calls != [] {
      CallsAreCounted(r, calls[..|calls| - 1]);
      CallIsCounted(CalledAll(r, calls[..|calls| - 1]), calls[|calls| - 1]);
    }
  }

  lemma FewCalls(r: Radio, call: Call)
    ensures CalledAll(r, []) == r && CalledAll(r, [call]) == Called(r, call)
  {
    assert [call][..0] == [];
  }

  // ---------- the stack when it is called back ----------

  /** The radio after the last thing it did before it calls the stack back. */
  function Released(r: Radio): Radio {
    if r.state == Transmitting then r.(state := Receiving) else r
  }

  /** The radio once the end of a frame has set its substate. */
  function Settled(r: Radio, f: RxFrame, error: Error): Radio {
    if r.sub == TxAckRxOngoing then SetSubState(r, IfsWait, IfsTime(r))
    else if f.ackRequested && !f.isAck && f.addressedToMe && error == NoError then SetSubState(r, RxAifsWait, AIFS_TIME_US)
    else ApplyDelayedSleep(SetSubState(r, IfsWait, TURNAROUND_TIME_US))
  }

  /** The radio that the stack finds when it is called back in a step, and the calls it makes
      then. */
  function CalledBack(r: Radio, step: Step): (Radio, seq<Call>) {
    match step
    case Pass(ch) =>
      if FailsAtOnce(r) then (Released(r), ch.callback)
      else if r.now < r.nextTime then (r, [])
      else if r.sub == TxCca then (Released(r), ch.callback)
      else if r.sub == TxAifsWait then (Released(SetSubState(r, Ready, UNDEFINED_TIME_US)), ch.callback)
      else if r.sub == TxAckRxOngoing then
        (Released(SetSubState(r.(opChannel := r.channel), IfsWait, IfsTime(r))), ch.callback)
      else (r, [])
    case StackCalls(call) => (r, [call])
    case EndsRx(f, error, callback) =>
      if r.sub != RxFrameOngoing && r.sub != TxAckRxOngoing then (r, [])
      else
        var r' := Settled(r, f, error);
        if Judges(r, f, error) then (Released(r'.(txWait := false)), callback)
        else if r'.Listening() && (!f.isAck || r.promiscuous) then (r', callback)
        else (r', [])
    case EndsCca(channel, clear, callback) =>
      if r.sub == TxCca && channel == r.frame.channel && !clear
      then (Released(SetSubState(r.(txWait := false), Ready, UNDEFINED_TIME_US)), callback)
      else (r, [])
    case EndsTx(error, callback) =>
      if r.sub == TxFrameOngoing && (error == NoError ==> !r.frame.ackRequested)
      then (Released(SetSubState(r, TxTxToRx, TURNAROUND_TIME_US)), callback)
      else (r, [])
    case _ => (r, [])
  }

  function Offers(r: Radio, step: Step): nat {
    Accepted(CalledBack(r, step).0, CalledBack(r, step).1)
  }

  predicate PatientIn(r: Radio, step: Step) {
    AllPatient(CalledBack(r, step).0, CalledBack(r, step).1)
  }

  /** What a step tells the stack. */
  function Told(r: Radio, step: Step): Signal {
    match step
    case Pass(ch) => Process(r, ch).signal
    case EndsRx(f, error, callback) => RxDone(r, f, error, callback).signal
    case EndsCca(channel, clear, callback) => CcaDone(r, channel, clear, callback).signal
    case EndsTx(error, callback) => TxDone(r, error, callback).signal
    case _ => NoSignal
  }

  function Tells(r: Radio, step: Step): nat {
    if Told(r, step) == NoSignal then 0 else 1
  }

  /** A verdict on a frame that already had one. */
  function Stale(r: Radio, step: Step): nat {
    if step.EndsRx? && Judges(r, step.f, step.error) && r.state != Transmitting then 1 else 0
  }

  /** Frames accepted and verdicts told balance in a step. */
  ghost predicate Balances(n: Node, step: Step) {
    var r, r' := n.radio, Next(n, step).radio;
    Committed(r') && Sending(r) + Offers(r, step) + Stale(r, step) == Sending(r') + Tells(r, step)
  }

  lemma CallbackIsCounted(r: Radio, step: Step)
    requires PatientIn(r, step)
    ensures var (b, calls) := CalledBack(r, step);
            (Undelayed(b) ==> Undelayed(CalledAll(b, calls))) && (Committed(b) ==> Committed(CalledAll(b, calls))) &&
            Sending(CalledAll(b, calls)) == Sending(b) + Offers(r, step) &&
            (CalledAll(b, calls).sub == b.sub || CalledAll(b, calls).sub == Startup)
  {
    hide Committed, Sending, CalledBack, Accepted, AllPatient, Undelayed;
    var (b, calls) := CalledBack(r, step);
    CallsAreCounted(b, calls);
    CallsKeep(b, calls);
  }

  lemma FailureBalances(n: Node, ch: Choice)
    requires Consistent(n.radio) && Committed(n.radio) && PatientIn(n.radio, Pass(ch)) && FailsAtOnce(n.radio)
    ensures Balances(n, Pass(ch))
  {
    hide CalledAll, Called, Accepted, AllPatient, FrameDuration;
    SignalKeeps(n.radio, ch.callback);
    CallbackIsCounted(n.radio, Pass(ch));
  }

  lemma SilentPassBalances(n: Node, ch: Choice)
    requires Consistent(n.radio) && Committed(n.radio) && !FailsAtOnce(n.radio) && !Signals(n.radio.sub)
    ensures Balances(n, Pass(ch))
  {
    hide CalledAll, Called, SignalTxDone, FrameDuration;
  }

  lemma SignalBalances(n: Node, ch: Choice)
    requires Committed(n.radio) && PatientIn(n.radio, Pass(ch)) && Signals(n.radio.sub)
    ensures Balances(n, Pass(ch))
  {
    hide CalledAll, Called, Accepted, AllPatient, FrameDuration;
    CallbackIsCounted(n.radio, Pass(ch));
    FewCalls(n.radio, Enable);
  }

  lemma PassBalances(n: Node, ch: Choice)
    requires Consistent(n.radio) && Committed(n.radio) && PatientIn(n.radio, Pass(ch))
    ensures Balances(n, Pass(ch))
  {
    hide Consistent, Committed, PatientIn, Balances;
    if FailsAtOnce(n.radio) {
      FailureBalances(n, ch);
    } else if Signals(n.radio.sub) {
      SignalBalances(n, ch);
    } else {
      SilentPassBalances(n, ch);
    }
  }

  lemma RxDoneCallsBack(r: Radio, f: RxFrame, error: Error, callback: seq<Call>)
    requires Consistent(r)
    ensures var (b, calls) := CalledBack(r, EndsRx(f, error, callback));
            RxDone(r, f, error, callback).radio == CalledAll(b, calls) &&
            Tells(r, EndsRx(f, error, callback)) == if Judges(r, f, error) then 1 else 0
  {
    hide CalledAll, Called, Timeout, FrameDuration;
    var r' := Settled(r, f, error);
    FewCalls(r', Enable);
    FewCalls(r, Enable);
    if r.sub == RxFrameOngoing || r.sub == TxAckRxOngoing {
      assert RxDone(r, f, error, callback) == Received(r', f, error, callback);
      assert r'.txWait == r.txWait && r'.frame == r.frame && r'.promiscuous == r.promiscuous;
      assert Judges(r, f, error) <==> r'.Listening() && r'.txWait && r'.frame.ackRequested;
      hide RxDone, Settled, Judges;
    }
  }

  lemma EndsRxBalances(n: Node, f: RxFrame, error: Error, callback: seq<Call>)
    requires Consistent(n.radio) && Committed(n.radio) && PatientIn(n.radio, EndsRx(f, error, callback))
    ensures Balances(n, EndsRx(f, error, callback))
  {
    hide CalledAll, Accepted, AllPatient, RxDone, Tells, Told, Offers, PatientIn;
    CallbackIsCounted(n.radio, EndsRx(f, error, callback));
    RxDoneCallsBack(n.radio, f, error, callback);
  }

  lemma EndBalances(n: Node, step: Step)
    requires Committed(n.radio) && PatientIn(n.radio, step) && (step.EndsCca? || step.EndsTx?)
    ensures Balances(n, step)
  {
    hide CalledAll, Called, Accepted, AllPatient;
    CallbackIsCounted(n.radio, step);
    FewCalls(n.radio, Enable);
  }

  lemma QuietBalances(n: Node, step: Step)
    requires Committed(n.radio) && PatientIn(n.radio, step)
    requires !step.Pass? && !step.EndsRx? && !step.EndsCca? && !step.EndsTx?
    ensures Balances(n, step)
  {
    hide CalledAll, Called, Accepted, AllPatient;
    CallbackIsCounted(n.radio, step);
    FewCalls(n.radio, if step.StackCalls? then step.call else Enable);
  }

  lemma StepBalances(n: Node, step: Step)
    requires Consistent(n.radio) && Committed(n.radio) && PatientIn(n.radio, step)
    ensures Balances(n, step)
  {
    hide Balances, Consistent, Committed, PatientIn;
    match step {
      case Pass(ch) => PassBalances(n, ch);
      case EndsRx(f, error, callback) => EndsRxBalances(n, f, error, callback);
      case EndsCca(_, _, _) => EndBalances(n, step);
      case EndsTx(_, _) => EndBalances(n, step);
      case _ => QuietBalances(n, step);
    }
  }

  // ---------- every run ----------

  ghost predicate PatientRun(nodes: seq<Node>, steps: seq<Step>) {
    IsRun(nodes, steps) && forall k :: 0 <= k < |steps| ==> PatientIn(nodes[k].radio, steps[k])
  }

  /** The frames accepted, the verdicts told and the stale ones among them in the first k steps. */
  function OfferedBy(nodes: seq<Node>, steps: seq<Step>, k: nat): nat
    requires k <= |steps| <= |nodes|
  {
    if k == 0 then 0 else OfferedBy(nodes, steps, k - 1) + Offers(nodes[k - 1].radio, steps[k - 1])
  }

  function ToldBy(nodes: seq<Node>, steps: seq<Step>, k: nat): nat
    requires k <= |steps| <= |nodes|
  {
    if k == 0 then 0 else ToldBy(nodes, steps, k - 1) + Tells(nodes[k - 1].radio, steps[k - 1])
  }

  function StaleBy(nodes: seq<Node>, steps: seq<Step>, k: nat): nat
    requires k <= |steps| <= |nodes|
  {
    if k == 0 then 0 else StaleBy(nodes, steps, k - 1) + Stale(nodes[k - 1].radio, steps[k - 1])
  }

  /** In every run with a patient stack, every frame accepted gets exactly one verdict, but for
      the frame that is being sent, and every other verdict is a stale one. */
  lemma {:induction false} OneVerdictPerFrame(nodes: seq<Node>, steps: seq<Step>, k: nat)
    requires PatientRun(nodes, steps) && k < |nodes|
    ensures Committed(nodes[k].radio)
    ensures OfferedBy(nodes, steps, k) + StaleBy(nodes, steps, k) ==
            ToldBy(nodes, steps, k) + if nodes[k].radio.state == Transmitting then 1 else 0
  {
    hide Next, Allowed, NodeInv, Offers, Tells, Stale, Committed, PatientIn;
    if k > 0 {
      OneVerdictPerFrame(nodes, steps, k - 1);
      RunKeeps(nodes, steps, k - 1);
      InvIsConsistent(nodes[k - 1]);
      StepBalances(nodes[k - 1], steps[k - 1]);
    } else {
      assert Committed(InitialNode.radio) by {
        InitialIsCommitted();
      }
    }
  }

  lemma InitialIsCommitted()
    ensures Committed(Initial)
  {
  }

  lemma InvIsConsistent(n: Node)
    requires NodeInv(n)
    ensures Consistent(n.radio)
  {
  }

  /** A verdict is stale exactly when the frame that ends was received by a radio that sends
      nothing but still waits for a reply, and that does not fall asleep first. */
  lemma StaleIff(r: Radio, f: RxFrame, error: Error, callback: seq<Call>)
    requires Committed(r)
    ensures Stale(r, EndsRx(f, error, callback)) == 1 <==>
            r.sub == RxFrameOngoing && r.state == Receiving && r.txWait && r.frame.ackRequested &&
            (r.delaySleep ==> f.ackRequested && !f.isAck && f.addressedToMe && error == NoError)
  {
  }

  /** Such verdicts do happen: the sender hears the start of its acknowledgment but not its end,
      reports that there was none, hears another frame before the spacing is over, and reports
      again. */
  lemma LateFrameIsJudged(r: Radio, duration: nat, f: RxFrame, error: Error)
    requires Committed(r) && Consistent(r) && r.sub == TxAckRxOngoing && r.now == r.nextTime
    ensures var out := Process(r, Choice([], 0, true));
            var heard := RxStart(out.radio, r.channel, duration, NoError);
            out.signal == TxDoneSignal(NoAck) && heard.sub == RxFrameOngoing &&
            Stale(heard, EndsRx(f, error, [])) == 1 && RxDone(heard, f, error, []).signal != NoSignal
  {
    hide Called, CalledAll, FrameDuration;
    var spaced := Released(SetSubState(r.(opChannel := r.channel), IfsWait, IfsTime(r)));
    FewCalls(spaced, Enable);
    assert Process(r, Choice([], 0, true)).radio == spaced;
  }
}
