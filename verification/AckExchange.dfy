/** A frame and its acknowledgment between two radios: the radio driver
    (radio.c) composed with the events of the radio model (radiomodelMutualInterference.go). */
module AckExchange {
  import opened Radio
  import RadioProgress
  import Dispatcher
  import Heap

  datatype Side = Sender | Receiver

  function Other(side: Side): Side {
    if side == Sender then Receiver else Sender
  }

  /** Events of the radio model that are still to be handled. FrameEnds is internal to the
      model; the others are dispatched to a node. */
  datatype Event =
    | CcaEnds(time: nat)
    | RxStarts(time: nat, to: Side, channel: int, duration: nat)
    | FrameEnds(time: nat, from: Side)
    | TxEnds(time: nat, to: Side)
    | RxEnds(time: nat, to: Side)

  /** Both nodes have zero drift, so their clocks are the simulated time. `verdict` is what the
      sender's stack was told. */
  datatype World = World(now: nat, s: Radio, r: Radio, pending: set<Event>, verdict: Signal)

  /** `clear` is what the channel sample finds, and `reply` with `replyError` the frame that the
      sender receives after its own. */
  datatype Setup = Setup(start: nat, channel: int, length: nat, ackLength: nat,
                         senderBitrate: Bitrate, receiverBitrate: Bitrate, clear: bool, reply: RxFrame, replyError: Error)
  {
    function FrameTime(): nat { FrameDuration(length, senderBitrate) }
    function AckTime(): nat { FrameDuration(ackLength, receiverBitrate) }
    function SendAt(): nat { start + CCA_TIME_US + TURNAROUND_TIME_US }
    function EndAt(): nat { SendAt() + FrameTime() }
    function AckAt(): nat { EndAt() + AIFS_TIME_US }
    function DoneAt(): nat { AckAt() + AckTime() }

    /** The reply is the acknowledgment that the sender waits for. */
    predicate Matches() { reply.isAck && reply.matches && replyError == NoError }

    /** What the sender's stack is to be told, and when. */
    function Verdict(): Error { if !clear then ChannelAccessFailure else if Matches() then NoError else NoAck }
    function VerdictAt(): nat { if clear then DoneAt() else start + CCA_TIME_US }
  }

  /** Steps that may come in any order among those possible at one time. */
  datatype Step =
    | Tick(t: nat)
    | SenderPass
    | ReceiverPass(callback: seq<Call>)
    | ReceiverCalls(call: Call)
    | Handle(e: Event, callback: seq<Call>)

  const DATA := RxFrame(false, true, true, false)

  /** What the radio model does with a message of a node. */
  function Spawned(now: nat, from: Side, emit: Emit): set<Event> {
    match emit
    case Silent => {}
    case ChannelSample(_, duration) => {CcaEnds(now + duration)}
    case CommStart(channel, duration) =>
      {RxStarts(now, Other(from), channel, duration), FrameEnds(now + duration, from)}
  }

  function Next(x: Setup, w: World, step: Step): World {
    match step
    case Tick(t) => w.(now := t, s := w.s.(now := t), r := w.r.(now := t))
    case SenderPass =>
      var out := Process(w.s, Choice([], 0, true));
      w.(s := out.radio, pending := w.pending + Spawned(w.now, Sender, out.emit),
         verdict := if out.signal == NoSignal then w.verdict else out.signal)
    case ReceiverPass(callback) =>
      var out := Process(w.r, Choice(callback, x.ackLength, true));
      w.(r := out.radio, pending := w.pending + Spawned(w.now, Receiver, out.emit))
    case ReceiverCalls(call) => w.(r := Called(w.r, call))
    case Handle(e, callback) =>
      var w := w.(pending := w.pending - {e});
      match e
      case CcaEnds(_) =>
        var out := CcaDone(w.s, x.channel, x.clear, callback);
        w.(s := out.radio, verdict := if out.signal == NoSignal then w.verdict else out.signal)
      case RxStarts(_, Sender, channel, duration) => w.(s := RxStart(w.s, channel, duration, NoError))
      case RxStarts(_, Receiver, channel, duration) => w.(r := RxStart(w.r, channel, duration, NoError))
      case FrameEnds(time, from) => w.(pending := w.pending + {TxEnds(time, from), RxEnds(time, Other(from))})
      case TxEnds(_, Sender) =>
        var out := TxDone(w.s, NoError, []);
        w.(s := out.radio, verdict := if out.signal == NoSignal then w.verdict else out.signal)
      case TxEnds(_, Receiver) => w.(r := TxDone(w.r, NoError, callback).radio)
      case RxEnds(_, Sender) =>
        var out := RxDone(w.s, x.reply, x.replyError, callback);
        w.(s := out.radio, verdict := if out.signal == NoSignal then w.verdict else out.signal)
      case RxEnds(_, Receiver) => w.(r := RxDone(w.r, DATA, NoError, callback).radio)
  }

  /** A radio that lets time pass until t: it has nothing to send and no deadline before t. */
  predicate Waits(r: Radio, t: nat) {
    if r.sub == Ready then !r.TransmitPending() else t <= r.nextTime
  }

  /** While a frame is received the receiver's stack may do anything except ask for another
      channel; before that, and until its verdict the sender's stack, does nothing. */
  predicate StaysOn(x: Setup, calls: seq<Call>) {
    forall c :: c in calls && c.Receive? ==> c.c == x.channel
  }

  ghost predicate Allowed(x: Setup, w: World, step: Step) {
    w.verdict == NoSignal &&
    match step
    case Tick(t) => t >= w.now && Waits(w.s, t) && Waits(w.r, t) && forall e :: e in w.pending ==> t <= e.time
    case SenderPass => true
    case ReceiverPass(callback) => StaysOn(x, callback)
    case ReceiverCalls(call) => RadioProgress.Receives(w.r.sub) && StaysOn(x, [call])
    case Handle(e, callback) => e in w.pending && e.time == w.now && StaysOn(x, callback)
  }

  // ---------- the phases of an exchange ----------

  /** The sender is in a substate of its transmission. */
  ghost predicate Sends(x: Setup, w: World, sub: SubState, deadline: nat) {
    w.s.now == w.now && w.s.state == Transmitting && w.s.frame == Frame(x.length, true, x.channel) &&
    w.s.bitrate == x.senderBitrate && w.s.txWait && w.s.opChannel == x.channel && w.s.sub == sub &&
    w.s.nextTime == deadline
  }

  ghost predicate Listens(x: Setup, r: Radio) {
    r.Listening() && r.opChannel == r.rxChannel == x.channel && !r.txWait && r.bitrate == x.receiverBitrate
  }

  ghost predicate Idles(x: Setup, w: World) {
    w.r.now == w.now && Listens(x, w.r) && w.r.state == Receiving && w.r.channel == x.channel && w.r.sub == Ready &&
    w.r.nextTime == UNDEFINED_TIME_US
  }

  ghost predicate Takes(x: Setup, w: World, sub: SubState, deadline: nat) {
    w.r.now == w.now && Listens(x, w.r) && w.r.sub == sub && w.r.nextTime == deadline
  }

  /** The sender has just been given the frame; the receiver listens. */
  ghost predicate Begins(x: Setup, w: World) {
    w.verdict == NoSignal && w.now == w.s.now == x.start && w.pending == {} &&
    w.s.state == Transmitting && w.s.frame == Frame(x.length, true, x.channel) && w.s.channel == x.channel &&
    w.s.bitrate == x.senderBitrate && !w.s.txWait && w.s.sub == Ready && w.s.nextTime == UNDEFINED_TIME_US &&
    Idles(x, w)
  }

  ghost predicate SensesChannel(x: Setup, w: World) {
    w.verdict == NoSignal && x.start <= w.now <= x.start + CCA_TIME_US && w.pending == {CcaEnds(x.start + CCA_TIME_US)} &&
    Sends(x, w, TxCca, x.start + CCA_TIME_US + FAILSAFE_TIME_US) && Idles(x, w)
  }

  ghost predicate TurnsToSend(x: Setup, w: World) {
    w.verdict == NoSignal && x.start + CCA_TIME_US <= w.now <= x.SendAt() && w.pending == {} &&
    Sends(x, w, TxCcaToTx, x.SendAt()) && Idles(x, w)
  }

  ghost predicate StartsFrame(x: Setup, w: World) {
    w.verdict == NoSignal && w.now == x.SendAt() &&
    w.pending == {RxStarts(x.SendAt(), Receiver, x.channel, x.FrameTime()), FrameEnds(x.EndAt(), Sender)} &&
    Sends(x, w, TxFrameOngoing, x.EndAt() + FAILSAFE_TIME_US) && Idles(x, w)
  }

  ghost predicate FrameOnAir(x: Setup, w: World) {
    w.verdict == NoSignal && x.SendAt() <= w.now <= x.EndAt() && w.pending == {FrameEnds(x.EndAt(), Sender)} &&
    Sends(x, w, TxFrameOngoing, x.EndAt() + FAILSAFE_TIME_US) &&
    Takes(x, w, RxFrameOngoing, x.EndAt() + FAILSAFE_TIME_US)
  }

  /** The end of the frame reaches the two nodes at one time, in either order. */
  ghost predicate EndsFrame(x: Setup, w: World, sent: bool, taken: bool) {
    w.verdict == NoSignal && w.now == x.EndAt() &&
    w.pending == (if sent then {} else {TxEnds(x.EndAt(), Sender)}) +
                 (if taken then {} else {RxEnds(x.EndAt(), Receiver)}) &&
    (if sent then Sends(x, w, TxTxToAifs, x.EndAt() + TURNAROUND_TIME_US)
     else Sends(x, w, TxFrameOngoing, x.EndAt() + FAILSAFE_TIME_US)) &&
    (if taken then Takes(x, w, RxAifsWait, x.AckAt()) else Takes(x, w, RxFrameOngoing, x.EndAt() + FAILSAFE_TIME_US))
  }

  ghost predicate TurnsToListen(x: Setup, w: World) {
    w.verdict == NoSignal && x.EndAt() <= w.now <= x.EndAt() + TURNAROUND_TIME_US && w.pending == {} &&
    Sends(x, w, TxTxToAifs, x.EndAt() + TURNAROUND_TIME_US) && Takes(x, w, RxAifsWait, x.AckAt())
  }

  ghost predicate AwaitsAck(x: Setup, w: World) {
    w.verdict == NoSignal && x.EndAt() + TURNAROUND_TIME_US <= w.now <= x.AckAt() && w.pending == {} &&
    Sends(x, w, TxAifsWait, x.EndAt() + TURNAROUND_TIME_US + MAX_ACK_WAIT_US) && Takes(x, w, RxAifsWait, x.AckAt())
  }

  ghost predicate StartsAck(x: Setup, w: World) {
    w.verdict == NoSignal && w.now == x.AckAt() &&
    w.pending == {RxStarts(x.AckAt(), Sender, x.channel, x.AckTime()), FrameEnds(x.DoneAt(), Receiver)} &&
    Sends(x, w, TxAifsWait, x.EndAt() + TURNAROUND_TIME_US + MAX_ACK_WAIT_US) &&
    Takes(x, w, RxAckTxOngoing, x.DoneAt())
  }

  /** The receiver ends its transmission by its own timer or by the message, whichever comes
      first. */
  ghost predicate ReceiverEnds(x: Setup, w: World) {
    w.r.now == w.now &&
    (Takes(x, w, RxAckTxOngoing, x.DoneAt()) ||
     (w.now == x.DoneAt() && w.r.sub == RxTxToRx && w.r.nextTime == x.DoneAt() + TURNAROUND_TIME_US))
  }

  ghost predicate AckOnAir(x: Setup, w: World) {
    w.verdict == NoSignal && x.AckAt() <= w.now <= x.DoneAt() && w.pending == {FrameEnds(x.DoneAt(), Receiver)} &&
    Sends(x, w, TxAckRxOngoing, x.DoneAt() + FAILSAFE_TIME_US) && ReceiverEnds(x, w)
  }

  ghost predicate EndsAck(x: Setup, w: World, told: bool) {
    w.verdict == NoSignal && w.now == x.DoneAt() &&
    w.pending == {RxEnds(x.DoneAt(), Sender)} + (if told then {} else {TxEnds(x.DoneAt(), Receiver)}) &&
    Sends(x, w, TxAckRxOngoing, x.DoneAt() + FAILSAFE_TIME_US) && ReceiverEnds(x, w)
  }

  ghost predicate Decided(x: Setup, w: World) {
    w.verdict == TxDoneSignal(x.Verdict()) && w.now == x.VerdictAt()
  }

  /** The phases after the channel was found clear. */
  ghost predicate OnClearChannel(x: Setup, w: World) {
    TurnsToSend(x, w) || StartsFrame(x, w) || FrameOnAir(x, w) ||
    (exists sent, taken :: EndsFrame(x, w, sent, taken)) || TurnsToListen(x, w) || AwaitsAck(x, w) ||
    StartsAck(x, w) || AckOnAir(x, w) || (exists told :: EndsAck(x, w, told))
  }

  ghost predicate InExchange(x: Setup, w: World) {
    Begins(x, w) || SensesChannel(x, w) || (x.clear && OnClearChannel(x, w)) || Decided(x, w)
  }

  // ---------- every phase leads to the next ----------

  lemma {:induction false} CallsKeepListening(x: Setup, r: Radio, calls: seq<Call>)
    requires Listens(x, r) && RadioProgress.Receives(r.sub) && StaysOn(x, calls)
    ensures var r' := CalledAll(r, calls);
            Listens(x, r') && r'.now == r.now && r'.sub == r.sub && r'.nextTime == r.nextTime
    decreases |calls|
  {
    if calls != [] {
      CallsKeepListening(x, r, calls[..|calls| - 1]);
      RadioProgress.CallsKeep(r, calls);
      assert calls[|calls| - 1] in calls;
    }
  }

  lemma SignalKeepsListening(x: Setup, r: Radio, callback: seq<Call>)
    requires Listens(x, r) && RadioProgress.Receives(r.sub) && StaysOn(x, callback)
    ensures var r' := SignalTxDone(r, callback);
            Listens(x, r') && r'.now == r.now && r'.sub == r.sub && r'.nextTime == r.nextTime
  {
    CallsKeepListening(x, if r.state == Transmitting then SetState(r, Receiving) else r, callback);
  }

  /** Until its deadline a pass of a receiving radio changes nothing that matters. */
  lemma PassWaits(x: Setup, r: Radio, ch: Choice)
    requires Listens(x, r) && RadioProgress.Receives(r.sub) && StaysOn(x, ch.callback) && r.now < r.nextTime
    ensures var out := Process(r, ch);
            Listens(x, out.radio) && out.radio.now == r.now && out.radio.sub == r.sub &&
            out.radio.nextTime == r.nextTime && out.emit == Silent
  {
    SignalKeepsListening(x, r, ch.callback);
  }

  lemma FromBegins(x: Setup, w: World, step: Step)
    requires Begins(x, w) && Allowed(x, w, step)
    ensures Begins(x, Next(x, w, step)) || SensesChannel(x, Next(x, w, step))
  {
    hide FrameDuration, CalledAll, Called, RxDone, TxDone, CcaDone;
  }

  lemma FromSensesChannel(x: Setup, w: World, step: Step)
    requires SensesChannel(x, w) && Allowed(x, w, step)
    ensures SensesChannel(x, Next(x, w, step)) || (x.clear && TurnsToSend(x, Next(x, w, step))) ||
            Decided(x, Next(x, w, step))
  {
    hide FrameDuration, CalledAll, Called, RxDone, TxDone;
  }

  lemma FromTurnsToSend(x: Setup, w: World, step: Step)
    requires TurnsToSend(x, w) && Allowed(x, w, step)
    ensures TurnsToSend(x, Next(x, w, step)) || StartsFrame(x, Next(x, w, step))
  {
    hide FrameDuration, CalledAll, Called, RxDone, TxDone;
  }

  lemma FromStartsFrame(x: Setup, w: World, step: Step)
    requires StartsFrame(x, w) && Allowed(x, w, step) && x.FrameTime() > 0
    ensures StartsFrame(x, Next(x, w, step)) || FrameOnAir(x, Next(x, w, step))
  {
    hide FrameDuration, CalledAll, Called, RxDone, TxDone;
  }

  lemma FromFrameOnAir(x: Setup, w: World, step: Step)
    requires FrameOnAir(x, w) && Allowed(x, w, step)
    ensures FrameOnAir(x, Next(x, w, step)) || EndsFrame(x, Next(x, w, step), false, false)
  {
    hide FrameDuration, CalledAll, RxDone, TxDone;
    if step.ReceiverPass? {
      PassWaits(x, w.r, Choice(step.callback, x.ackLength, true));
    }
  }

  lemma ReceiverTakesFrame(x: Setup, r: Radio, callback: seq<Call>)
    requires Listens(x, r) && r.sub == RxFrameOngoing && StaysOn(x, callback)
    ensures var r' := RxDone(r, DATA, NoError, callback).radio;
            Listens(x, r') && r'.now == r.now && r'.sub == RxAifsWait && r'.nextTime == r.now + AIFS_TIME_US
  {
    CallsKeepListening(x, SetSubState(r, RxAifsWait, AIFS_TIME_US), callback);
  }

  lemma FromEndsFrame(x: Setup, w: World, step: Step, sent: bool, taken: bool)
    requires EndsFrame(x, w, sent, taken) && Allowed(x, w, step)
    ensures TurnsToListen(x, Next(x, w, step)) || exists s, t :: EndsFrame(x, Next(x, w, step), s, t)
  {
    hide FrameDuration, CalledAll, RxDone;
    if step.ReceiverPass? {
      PassWaits(x, w.r, Choice(step.callback, x.ackLength, true));
      assert EndsFrame(x, Next(x, w, step), sent, taken);
    } else if step.Handle? && step.e.TxEnds? {
      assert EndsFrame(x, Next(x, w, step), true, taken);
    } else if step.Handle? {
      ReceiverTakesFrame(x, w.r, step.callback);
      assert EndsFrame(x, Next(x, w, step), sent, true);
    } else if step.Tick? {
      assert step.t > w.now ==> sent && taken;
      assert step.t == w.now ==> EndsFrame(x, Next(x, w, step), sent, taken);
    } else {
      assert EndsFrame(x, Next(x, w, step), sent, taken);
    }
  }

  lemma FromTurnsToListen(x: Setup, w: World, step: Step)
    requires TurnsToListen(x, w) && Allowed(x, w, step)
    ensures TurnsToListen(x, Next(x, w, step)) || AwaitsAck(x, Next(x, w, step))
  {
    hide FrameDuration, CalledAll, RxDone, TxDone;
    if step.ReceiverPass? {
      PassWaits(x, w.r, Choice(step.callback, x.ackLength, true));
    }
  }

  lemma ReceiverSendsAck(x: Setup, r: Radio, callback: seq<Call>)
    requires Listens(x, r) && r.sub == RxAifsWait && StaysOn(x, callback) && r.now == r.nextTime && x.AckTime() > 0
    ensures var out := Process(r, Choice(callback, x.ackLength, true));
            Listens(x, out.radio) && out.radio.now == r.now && out.radio.sub == RxAckTxOngoing &&
            out.radio.nextTime == r.now + x.AckTime() && out.emit == CommStart(x.channel, x.AckTime())
  {
    hide FrameDuration;
    SignalKeepsListening(x, r, callback);
  }

  lemma FromAwaitsAck(x: Setup, w: World, step: Step)
    requires AwaitsAck(x, w) && Allowed(x, w, step) && x.AckTime() > 0
    ensures AwaitsAck(x, Next(x, w, step)) || StartsAck(x, Next(x, w, step))
  {
    hide FrameDuration, CalledAll, RxDone, TxDone;
    if step.ReceiverPass? {
      hide Process;
      if w.now < x.AckAt() {
        PassWaits(x, w.r, Choice(step.callback, x.ackLength, true));
      } else {
        ReceiverSendsAck(x, w.r, step.callback);
      }
    }
  }

  lemma FromStartsAck(x: Setup, w: World, step: Step)
    requires StartsAck(x, w) && Allowed(x, w, step) && x.AckTime() > 0
    ensures StartsAck(x, Next(x, w, step)) || AckOnAir(x, Next(x, w, step))
  {
    hide FrameDuration, CalledAll, RxDone, TxDone;
    if step.ReceiverPass? {
      PassWaits(x, w.r, Choice(step.callback, x.ackLength, true));
    }
  }

  lemma ReceiverPassEnds(x: Setup, w: World, callback: seq<Call>)
    requires ReceiverEnds(x, w) && StaysOn(x, callback) && w.now <= x.DoneAt()
    ensures ReceiverEnds(x, Next(x, w, ReceiverPass(callback)))
    ensures Process(w.r, Choice(callback, x.ackLength, true)).emit == Silent
  {
    hide FrameDuration;
    if w.r.sub == RxAckTxOngoing {
      SignalKeepsListening(x, w.r, callback);
      hide SignalTxDone, CalledAll, Called;
      if w.now < x.DoneAt() {
        PassWaits(x, w.r, Choice(callback, x.ackLength, true));
      }
    }
  }

  lemma FromAckOnAir(x: Setup, w: World, step: Step)
    requires AckOnAir(x, w) && Allowed(x, w, step)
    ensures AckOnAir(x, Next(x, w, step)) || EndsAck(x, Next(x, w, step), false)
  {
    hide FrameDuration, CalledAll, RxDone, TxDone;
    if step.ReceiverPass? {
      hide Process;
      ReceiverPassEnds(x, w, step.callback);
    }
  }

  lemma SenderTakesAck(x: Setup, w: World, callback: seq<Call>)
    requires Sends(x, w, TxAckRxOngoing, x.DoneAt() + FAILSAFE_TIME_US)
    ensures RxDone(w.s, x.reply, x.replyError, callback).signal == TxDoneSignal(if x.Matches() then NoError else NoAck)
  {
    hide FrameDuration, CalledAll, Called;
  }

  lemma FromEndsAck(x: Setup, w: World, step: Step, told: bool)
    requires EndsAck(x, w, told) && Allowed(x, w, step) && x.clear
    ensures Decided(x, Next(x, w, step)) || exists t :: EndsAck(x, Next(x, w, step), t)
  {
    hide FrameDuration, CalledAll, RxDone;
    if step.Handle? && step.e.RxEnds? {
      SenderTakesAck(x, w, step.callback);
    } else if step.Handle? {
      assert EndsAck(x, Next(x, w, step), true);
    } else if step.ReceiverPass? {
      hide Process;
      ReceiverPassEnds(x, w, step.callback);
      assert EndsAck(x, Next(x, w, step), told);
    } else {
      assert EndsAck(x, Next(x, w, step), told);
    }
  }

  // ---------- every run ----------

  /** Both frames take time: neither bitrate is so high that a duration rounds to zero. */
  ghost predicate TakesTime(x: Setup) {
    x.senderBitrate <= 8_000_000 * (6 + x.length) && x.receiverBitrate <= 8_000_000 * (6 + x.ackLength)
  }

  lemma DurationsArePositive(x: Setup)
    ensures TakesTime(x) <==> x.FrameTime() > 0 && x.AckTime() > 0
  {
    RadioProgress.DurationIsPositive(x.length, x.senderBitrate);
    RadioProgress.DurationIsPositive(x.ackLength, x.receiverBitrate);
  }

  lemma StepStaysInExchange(x: Setup, w: World, step: Step)
    requires InExchange(x, w) && Allowed(x, w, step) && (x.clear ==> TakesTime(x))
    ensures InExchange(x, Next(x, w, step))
  {
    DurationsArePositive(x);
    assert w.verdict == NoSignal;
    assert !Decided(x, w);
    hide Next, Allowed, FrameDuration, TakesTime, Begins, SensesChannel, TurnsToSend, StartsFrame, FrameOnAir, EndsFrame;
    hide TurnsToListen, AwaitsAck, StartsAck, AckOnAir, EndsAck, Decided;
    if Begins(x, w) {
      FromBegins(x, w, step);
    } else if SensesChannel(x, w) {
      FromSensesChannel(x, w, step);
    } else if TurnsToSend(x, w) {
      FromTurnsToSend(x, w, step);
    } else if StartsFrame(x, w) {
      FromStartsFrame(x, w, step);
    } else if FrameOnAir(x, w) {
      FromFrameOnAir(x, w, step);
    } else if sent, taken :| EndsFrame(x, w, sent, taken) {
      FromEndsFrame(x, w, step, sent, taken);
    } else if TurnsToListen(x, w) {
      FromTurnsToListen(x, w, step);
    } else if AwaitsAck(x, w) {
      FromAwaitsAck(x, w, step);
    } else if StartsAck(x, w) {
      FromStartsAck(x, w, step);
    } else if AckOnAir(x, w) {
      FromAckOnAir(x, w, step);
    } else {
      var told :| EndsAck(x, w, told);
      FromEndsAck(x, w, step, told);
    }
  }

  ghost predicate IsRun(x: Setup, ws: seq<World>, steps: seq<Step>) {
    |ws| == |steps| + 1 && Begins(x, ws[0]) &&
    forall k :: 0 <= k < |steps| ==> Allowed(x, ws[k], steps[k]) && ws[k + 1] == Next(x, ws[k], steps[k])
  }

  lemma {:induction false} RunStaysInExchange(x: Setup, ws: seq<World>, steps: seq<Step>, k: nat)
    requires IsRun(x, ws, steps) && k < |ws| && (x.clear ==> TakesTime(x))
    ensures InExchange(x, ws[k])
  {
    if k > 0 {
      RunStaysInExchange(x, ws, steps, k - 1);
      hide InExchange, Next, Allowed, TakesTime, Begins;
      StepStaysInExchange(x, ws[k - 1], steps[k - 1]);
    }
  }

  /** For every frame length, bitrate and start time, in every order of what happens at one
      time: the stack is told that the channel was busy, exactly when the sample ends; or
      success, if and only if the acknowledgment it waits for arrives intact, or else that
      there was none, exactly when the reply ends. Time does not go past that moment before it
      is told. */
  lemma ExchangeIsJudged(x: Setup, ws: seq<World>, steps: seq<Step>, k: nat)
    requires IsRun(x, ws, steps) && k < |ws| && (x.clear ==> TakesTime(x))
    ensures x.start <= ws[k].now <= x.VerdictAt()
    ensures ws[k].verdict != NoSignal ==> ws[k].verdict == TxDoneSignal(x.Verdict()) && ws[k].now == x.VerdictAt()
  {
    RunStaysInExchange(x, ws, steps, k);
    hide FrameDuration, Next, Allowed;
  }

  /** The timing of the four messages: both ends of the frame share a time, the acknowledgment
      starts AIFS later strictly inside the sender's waiting window, and it ends before the
      sender's failsafe. */
  lemma ExchangeTiming(x: Setup, ws: seq<World>, steps: seq<Step>, k: nat)
    requires IsRun(x, ws, steps) && k < |steps| && TakesTime(x) && steps[k].Handle?
    ensures steps[k].e.TxEnds? && steps[k].e.to == Sender ==> ws[k].now == x.EndAt()
    ensures steps[k].e.RxEnds? && steps[k].e.to == Receiver ==> ws[k].now == x.EndAt()
    ensures steps[k].e.RxStarts? && steps[k].e.to == Sender ==>
              ws[k].s.sub == TxAifsWait && ws[k].now == x.EndAt() + AIFS_TIME_US &&
              x.EndAt() + TURNAROUND_TIME_US < ws[k].now < ws[k].s.nextTime
    ensures steps[k].e.RxEnds? && steps[k].e.to == Sender ==>
              ws[k].s.sub == TxAckRxOngoing && ws[k].now == x.DoneAt() < ws[k].s.nextTime
  {
    RunStaysInExchange(x, ws, steps, k);
    hide FrameDuration, Next;
  }

  // ---------- the exchange ends ----------

  /** A schedule for the exchange: handle what is due, run a radio that is due, or let time pass. */
  function Plan(x: Setup, w: World): Step {
    match w.s.sub
    case Ready => SenderPass
    case TxCca =>
      if w.now < x.start + CCA_TIME_US then Tick(x.start + CCA_TIME_US)
      else Handle(CcaEnds(x.start + CCA_TIME_US), [])
    case TxCcaToTx => if w.now < x.SendAt() then Tick(x.SendAt()) else SenderPass
    case TxFrameOngoing =>
      if w.r.sub == Ready then Handle(RxStarts(x.SendAt(), Receiver, x.channel, x.FrameTime()), [])
      else if w.now < x.EndAt() then Tick(x.EndAt())
      else if FrameEnds(x.EndAt(), Sender) in w.pending then Handle(FrameEnds(x.EndAt(), Sender), [])
      else Handle(TxEnds(x.EndAt(), Sender), [])
    case TxTxToAifs =>
      if RxEnds(x.EndAt(), Receiver) in w.pending then Handle(RxEnds(x.EndAt(), Receiver), [])
      else if w.now < x.EndAt() + TURNAROUND_TIME_US then Tick(x.EndAt() + TURNAROUND_TIME_US)
      else SenderPass
    case TxAifsWait =>
      if RxStarts(x.AckAt(), Sender, x.channel, x.AckTime()) in w.pending
      then Handle(RxStarts(x.AckAt(), Sender, x.channel, x.AckTime()), [])
      else if w.now < x.AckAt() then Tick(x.AckAt())
      else ReceiverPass([])
    case _ =>
      if w.now < x.DoneAt() then Tick(x.DoneAt())
      else if FrameEnds(x.DoneAt(), Receiver) in w.pending then Handle(FrameEnds(x.DoneAt(), Receiver), [])
      else Handle(RxEnds(x.DoneAt(), Sender), [])
  }

  /** The steps that the schedule still takes, at most. */
  function Left(x: Setup, w: World): nat {
    if w.verdict != NoSignal then 0
    else match w.s.sub
      case Ready => 20
      case TxCca => if w.now < x.start + CCA_TIME_US then 19 else 18
      case TxCcaToTx => if w.now < x.SendAt() then 17 else 16
      case TxFrameOngoing =>
        if w.r.sub == Ready then 15
        else if w.now < x.EndAt() then 14
        else if FrameEnds(x.EndAt(), Sender) in w.pending then 13
        else 12
      case TxTxToAifs =>
        if RxEnds(x.EndAt(), Receiver) in w.pending then 11
        else if w.now < x.EndAt() + TURNAROUND_TIME_US then 10
        else 9
      case TxAifsWait =>
        if RxStarts(x.AckAt(), Sender, x.channel, x.AckTime()) in w.pending then 6
        else if w.now < x.AckAt() then 8
        else 7
      case TxAckRxOngoing =>
        if w.now < x.DoneAt() then 5 else if FrameEnds(x.DoneAt(), Receiver) in w.pending then 4 else 3
      case _ => 1
  }

  ghost predicate Progresses(x: Setup, w: World) {
    Allowed(x, w, Plan(x, w)) && Left(x, Next(x, w, Plan(x, w))) < Left(x, w)
  }

  lemma SendingProgresses(x: Setup, w: World)
    requires Begins(x, w) || SensesChannel(x, w) || TurnsToSend(x, w)
    ensures Progresses(x, w)
  {
    hide FrameDuration, CalledAll, Called, RxDone, TxDone;
  }

  lemma StartProgresses(x: Setup, w: World)
    requires StartsFrame(x, w)
    ensures Progresses(x, w)
  {
    hide FrameDuration, CalledAll, Called, RxDone, TxDone;
  }

  lemma FrameProgresses(x: Setup, w: World)
    requires FrameOnAir(x, w)
    ensures Progresses(x, w)
  {
    hide FrameDuration, CalledAll, Called, RxDone, TxDone;
  }

  lemma EndProgresses(x: Setup, w: World, sent: bool, taken: bool)
    requires EndsFrame(x, w, sent, taken)
    ensures Progresses(x, w)
  {
    hide FrameDuration, CalledAll, Called, RxDone;
  }

  lemma WaitProgresses(x: Setup, w: World)
    requires TurnsToListen(x, w) || AwaitsAck(x, w)
    ensures Progresses(x, w)
  {
    hide FrameDuration, CalledAll, Called, RxDone, TxDone;
    if AwaitsAck(x, w) && w.now == x.AckAt() {
      AckIsSent(x, w.r);
    }
  }

  lemma AckIsSent(x: Setup, r: Radio)
    requires Listens(x, r) && r.sub == RxAifsWait && r.now == r.nextTime
    ensures Process(r, Choice([], x.ackLength, true)).emit == CommStart(x.channel, x.AckTime())
  {
    hide FrameDuration;
    SignalKeepsListening(x, r, []);
  }

  lemma AckProgresses(x: Setup, w: World)
    requires StartsAck(x, w) || AckOnAir(x, w)
    ensures Progresses(x, w)
  {
    hide FrameDuration, CalledAll, Called, RxDone, TxDone;
  }

  lemma VerdictProgresses(x: Setup, w: World, told: bool)
    requires EndsAck(x, w, told)
    ensures Progresses(x, w)
  {
    SenderTakesAck(x, w, []);
    hide FrameDuration, CalledAll, Called, RxDone, TxDone;
  }

  /** Until the verdict the schedule's next step is possible and leaves less to do. */
  lemma NeverStuck(x: Setup, w: World)
    requires InExchange(x, w) && w.verdict == NoSignal
    ensures Progresses(x, w)
  {
    assert !Decided(x, w);
    hide Progresses, Begins, SensesChannel, TurnsToSend, StartsFrame, FrameOnAir, EndsFrame, TurnsToListen, AwaitsAck;
    hide StartsAck, AckOnAir, EndsAck, Decided;
    if Begins(x, w) || SensesChannel(x, w) || TurnsToSend(x, w) {
      SendingProgresses(x, w);
    } else if StartsFrame(x, w) {
      StartProgresses(x, w);
    } else if FrameOnAir(x, w) {
      FrameProgresses(x, w);
    } else if sent, taken :| EndsFrame(x, w, sent, taken) {
      EndProgresses(x, w, sent, taken);
    } else if TurnsToListen(x, w) || AwaitsAck(x, w) {
      WaitProgresses(x, w);
    } else if StartsAck(x, w) || AckOnAir(x, w) {
      AckProgresses(x, w);
    } else {
      var told :| EndsAck(x, w, told);
      VerdictProgresses(x, w, told);
    }
  }

  /** The world after k steps of the schedule, or after its verdict. */
  function Planned(x: Setup, w: World, k: nat): World
    decreases k
  {
    if k == 0 || w.verdict != NoSignal then w else Planned(x, Next(x, w, Plan(x, w)), k - 1)
  }

  /** From every world of the exchange at most twenty steps lead to the verdict. */
  lemma {:induction false} PlanEnds(x: Setup, w: World, k: nat)
    requires InExchange(x, w) && (x.clear ==> TakesTime(x)) && k >= Left(x, w)
    ensures Decided(x, Planned(x, w, k)) && Left(x, w) <= 20
    decreases k
  {
    hide Next, Plan, TakesTime, InExchange, Allowed;
    if w.verdict == NoSignal {
      NeverStuck(x, w);
      StepStaysInExchange(x, w, Plan(x, w));
      PlanEnds(x, Next(x, w, Plan(x, w)), k - 1);
    } else {
      VerdictIsDecided(x, w);
    }
  }

  lemma VerdictIsDecided(x: Setup, w: World)
    requires InExchange(x, w) && w.verdict != NoSignal
    ensures Decided(x, w)
  {
    hide FrameDuration;
  }

  // ---------- the events of the radio model ----------

  /** The event that the queue of the dispatcher holds for an event of the exchange. */
  function Queued(e: Event, node: int, duration: nat, serial: nat): Dispatcher.Event {
    var body := Dispatcher.Body(Dispatcher.CommStart, true, 0, duration, true, serial);
    match e
    case CcaEnds(t) => Heap.Entry(t, node, body.(kind := Dispatcher.ChannelSample))
    case RxStarts(t, _, _, _) => Heap.Entry(t, node, body)
    case FrameEnds(t, _) => Heap.Entry(t, node, body.(kind := Dispatcher.TxDone, must := false))
    case TxEnds(t, _) => Heap.Entry(t, node, body.(kind := Dispatcher.TxDone))
    case RxEnds(t, _) => Heap.Entry(t, node, body.(kind := Dispatcher.RxDone))
  }

  /** A channel sample ends after its duration, as in the dispatcher's radio model. */
  lemma SampleIsTheModels(now: nat, from: Side, channel: int, duration: nat, node: int, serial: nat)
    ensures var sample := Heap.Entry(now, node, Dispatcher.Body(Dispatcher.ChannelSample, false, 0, duration, true, serial));
            Spawned(now, from, ChannelSample(channel, duration)) == {CcaEnds(now + duration)} &&
            Dispatcher.OnChannelSample(sample) == multiset{Queued(CcaEnds(now + duration), node, duration, serial)}
  {
  }

  /** The events of an exchange are those the dispatcher's radio model posts: a start is
      dispatched at once and ends after its duration, and its end reaches sender and receiver
      at one time. */
  lemma EventsAreTheModels(now: nat, from: Side, channel: int, duration: nat, node: int, serial: nat)
    ensures var start := Heap.Entry(now, node, Dispatcher.Body(Dispatcher.CommStart, false, 0, duration, true, serial));
            var rxStart, end := RxStarts(now, Other(from), channel, duration), FrameEnds(now + duration, from);
            var txEnd, rxEnd := TxEnds(now + duration, from), RxEnds(now + duration, Other(from));
            Spawned(now, from, CommStart(channel, duration)) == {rxStart, end} &&
            Dispatcher.OnCommStart(start, false) ==
              multiset{Queued(rxStart, node, duration, serial), Queued(end, node, duration, serial)} &&
            Dispatcher.OnTxDone(Queued(end, node, duration, serial)) ==
              multiset{Queued(txEnd, node, duration, serial), Queued(rxEnd, node, duration, serial)}
  {
  }
}
