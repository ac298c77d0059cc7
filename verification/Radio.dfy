/** The simulated IEEE 802.15.4 radio of a node (radio.c): its substates, their deadlines and
    the handlers that move between them. Interferer mode is not modelled. */
module Radio {

  const SYMBOL_TIME_US := 16
  const LIFS_TIME_US := 40 * SYMBOL_TIME_US
  const SIFS_TIME_US := 12 * SYMBOL_TIME_US
  const AIFS_TIME_US := 12 * SYMBOL_TIME_US
  const CCA_TIME_US := 8 * SYMBOL_TIME_US
  const MAX_ACK_WAIT_US := AIFS_TIME_US + 10 * SYMBOL_TIME_US
  const MAX_SIFS_FRAME_SIZE := 18
  const SHR_PHR_LENGTH_BYTES := 6
  const TURNAROUND_TIME_US := 40
  const STARTUP_TIME_US := 140
  const RAMPUP_TIME_US := 40
  const FAILSAFE_TIME_US := 1
  const MIN_CHANNEL := 11
  const DEFAULT_BITRATE := 250_000

  /** Stands for "no deadline": a deadline in the past, so it is evaluated on every pass. */
  const UNDEFINED_TIME_US := 0

  type Bitrate = b: int | b > 0 witness DEFAULT_BITRATE

  datatype State = Disabled | Asleep | Receiving | Transmitting

  datatype SubState =
    | Ready | IfsWait | TxCca | TxCcaToTx | TxFrameOngoing | TxTxToRx | TxTxToAifs | TxAifsWait | TxAckRxOngoing
    | RxFrameOngoing | RxAifsWait | RxAckTxOngoing | RxTxToRx | Startup

  /** What the state machine looks at in the frame that is to be sent. */
  datatype Frame = Frame(length: nat, ackRequested: bool, channel: int)

  /** What it looks at in a received frame; `matches` says that its sequence number is that of
      the frame last sent. */
  datatype RxFrame = RxFrame(isAck: bool, ackRequested: bool, addressedToMe: bool, matches: bool)

  datatype Error = NoError | NoAck | ChannelAccessFailure | OtherError

  /** The static variables of the driver. `now` is the node's clock; `channel` is the one asked
      for, `rxChannel` the one last asked for to receive, and `opChannel` the one in use. */
  datatype Radio = Radio(now: nat, state: State, sub: SubState, nextTime: nat, txWait: bool, delaySleep: bool,
                         channel: int, rxChannel: int, opChannel: int, frame: Frame, bitrate: Bitrate, lastDuration: nat,
                         promiscuous: bool)
  {
    predicate TransmitPending() {
      state == Transmitting && !txWait
    }

    predicate Busy() {
      (state == Transmitting || state == Receiving) && sub != Ready
    }

    predicate Listening() {
      state == Receiving || state == Transmitting
    }
  }

  /** Messages to the simulator. */
  datatype Emit = Silent | ChannelSample(channel: int, duration: nat) | CommStart(channel: int, duration: nat)

  /** The outcome of a transmission as told to the OpenThread stack. */
  datatype Signal = NoSignal | TxDoneSignal(error: Error)

  datatype Outcome = Outcome(radio: Radio, emit: Emit, signal: Signal)

  /** Calls of the radio platform interface by the OpenThread stack. */
  datatype Call =
    | Enable | Disable | Sleep | Receive(c: int) | Transmit
    | Prepare(f: Frame) | SetPromiscuous(on: bool)

  /** The choices made outside of the driver during a pass: what the stack calls when it is
      told about a transmission, how long the acknowledgment is, and whether securing the frame
      succeeded. */
  datatype Choice = Choice(callback: seq<Call>, ackLength: nat, secured: bool)

  const Initial := Radio(0, Disabled, Startup, STARTUP_TIME_US, false, false, MIN_CHANNEL, 0, MIN_CHANNEL,
                         Frame(0, false, 0), DEFAULT_BITRATE, 0, false)

  // ---------- states and substates ----------

  function SetSubState(r: Radio, sub: SubState, timeToRemain: nat): Radio {
    r.(sub := sub, nextTime := if timeToRemain == UNDEFINED_TIME_US then UNDEFINED_TIME_US else r.now + timeToRemain)
  }

  function SetState(r: Radio, state: State): Radio {
    (if state != r.state && state == Disabled then SetSubState(r, Startup, STARTUP_TIME_US) else r).(state := state)
  }

  function ApplyDelayedSleep(r: Radio): Radio {
    if r.delaySleep then SetState(r, Asleep).(delaySleep := false) else r
  }

  function FrameDuration(length: nat, bitrate: Bitrate): nat {
    (SHR_PHR_LENGTH_BYTES + length) * 8 * 1_000_000 / bitrate
  }

  function IfsTime(r: Radio): nat {
    if r.frame.length > MAX_SIFS_FRAME_SIZE then LIFS_TIME_US else SIFS_TIME_US
  }

  // ---------- the platform interface ----------

  function Called(r: Radio, call: Call): Radio {
    match call
    case Enable =>
      if r.state == Disabled then SetSubState(SetState(r.(delaySleep := false), Asleep), Startup, STARTUP_TIME_US)
      else r
    case Disable => if r.state == Asleep then SetState(r.(delaySleep := false), Disabled) else r
    case Sleep =>
      if r.sub == RxFrameOngoing || r.sub == RxAckTxOngoing || r.sub == RxAifsWait then r.(delaySleep := true)
      else if r.state == Asleep || r.state == Receiving then SetState(r.(delaySleep := false), Asleep)
      else r
    case Receive(c) =>
      if r.state == Disabled then r
      else
        var up := if r.state == Asleep && r.sub != Startup then SetSubState(r, Startup, RAMPUP_TIME_US) else r;
        SetState(up.(txWait := false, delaySleep := false, channel := c, rxChannel := c), Receiving)
    case Transmit =>
      if r.state == Receiving then SetState(r.(delaySleep := false, channel := r.frame.channel), Transmitting) else r
    case Prepare(f) => r.(frame := f)
    case SetPromiscuous(on) => r.(promiscuous := on)
  }

  function CalledAll(r: Radio, calls: seq<Call>): Radio
    decreases |calls|
  {
    if calls == [] then r else Called(CalledAll(r, calls[..|calls| - 1]), calls[|calls| - 1])
  }

  /** Tells the stack that a transmission is over, and lets it react. */
  function SignalTxDone(r: Radio, callback: seq<Call>): Radio {
    CalledAll(if r.state == Transmitting then SetState(r, Receiving) else r, callback)
  }

  // ---------- the state machine ----------

  function Timeout(r: Radio, ch: Choice): Outcome {
    match r.sub
    case Startup => Outcome(SetSubState(r, Ready, UNDEFINED_TIME_US), Silent, NoSignal)
    case Ready =>
      var r := r.(opChannel := r.channel);
      if r.TransmitPending()
      then Outcome(SetSubState(r, TxCca, CCA_TIME_US + FAILSAFE_TIME_US).(txWait := true),
                   ChannelSample(r.frame.channel, CCA_TIME_US), NoSignal)
      else Outcome(r, Silent, NoSignal)
    case TxCca =>
      Outcome(SetSubState(SignalTxDone(r, ch.callback), Ready, UNDEFINED_TIME_US).(txWait := false),
              Silent, TxDoneSignal(ChannelAccessFailure))
    case TxCcaToTx =>
      var r := if ch.secured then r.(lastDuration := FrameDuration(r.frame.length, r.bitrate)) else r;
      Outcome(SetSubState(r, TxFrameOngoing, r.lastDuration + FAILSAFE_TIME_US),
              if ch.secured then CommStart(r.frame.channel, r.lastDuration) else Silent, NoSignal)
    case TxFrameOngoing => Outcome(SetSubState(r, TxTxToRx, TURNAROUND_TIME_US), Silent, NoSignal)
    case TxTxToRx =>
      Outcome(SetSubState(r.(opChannel := r.channel), IfsWait, IfsTime(r) - TURNAROUND_TIME_US), Silent, NoSignal)
    case TxTxToAifs => Outcome(SetSubState(r, TxAifsWait, MAX_ACK_WAIT_US), Silent, NoSignal)
    case TxAifsWait =>
      Outcome(SignalTxDone(SetSubState(r, Ready, UNDEFINED_TIME_US), ch.callback).(txWait := false),
              Silent, TxDoneSignal(NoAck))
    case TxAckRxOngoing =>
      Outcome(SignalTxDone(SetSubState(r.(opChannel := r.channel), IfsWait, IfsTime(r)), ch.callback),
              Silent, TxDoneSignal(NoAck))
    case IfsWait =>
      Outcome(SetSubState(r.(opChannel := r.channel), Ready, UNDEFINED_TIME_US).(txWait := false), Silent, NoSignal)
    case RxFrameOngoing => Outcome(SetSubState(r, IfsWait, TURNAROUND_TIME_US), Silent, NoSignal)
    case RxAifsWait =>
      var r := r.(lastDuration := FrameDuration(ch.ackLength, r.bitrate));
      Outcome(SetSubState(r, RxAckTxOngoing, r.lastDuration), CommStart(r.rxChannel, r.lastDuration), NoSignal)
    case RxAckTxOngoing =>
      Outcome(ApplyDelayedSleep(SetSubState(r, RxTxToRx, TURNAROUND_TIME_US)), Silent, NoSignal)
    case RxTxToRx => Outcome(SetSubState(r, IfsWait, TURNAROUND_TIME_US), Silent, NoSignal)
  }

  /** A frame offered while the radio receives fails at once. */
  predicate FailsAtOnce(r: Radio) {
    r.TransmitPending() && (r.sub == RxFrameOngoing || r.sub == RxAckTxOngoing || r.sub == RxAifsWait)
  }

  /** One pass of the state machine. */
  function Process(r: Radio, ch: Choice): Outcome {
    var failed := FailsAtOnce(r);
    var r := if failed then SignalTxDone(r, ch.callback) else r;
    var signal := if failed then TxDoneSignal(ChannelAccessFailure) else NoSignal;
    if r.now >= r.nextTime then
      var out := Timeout(r, ch);
      if failed then out.(signal := signal) else out
    else Outcome(r, Silent, signal)
  }

  // ---------- events from the simulator ----------

  function RxStart(r: Radio, channel: int, duration: nat, error: Error): Radio {
    if r.opChannel == channel && r.Listening() && error == NoError &&
       (r.sub == Ready || r.sub == IfsWait || r.sub == TxAifsWait)
    then SetSubState(r, if r.sub == TxAifsWait then TxAckRxOngoing else RxFrameOngoing, duration + FAILSAFE_TIME_US)
    else r
  }

  function RxDone(r: Radio, f: RxFrame, error: Error, callback: seq<Call>): Outcome {
    if r.sub == RxFrameOngoing then
      var acks := f.ackRequested && !f.isAck && f.addressedToMe && error == NoError;
      Received(if acks then SetSubState(r, RxAifsWait, AIFS_TIME_US)
               else ApplyDelayedSleep(SetSubState(r, IfsWait, TURNAROUND_TIME_US)), f, error, callback)
    else if r.sub == TxAckRxOngoing then
      Received(SetSubState(r, IfsWait, IfsTime(r)), f, error, callback)
    else Outcome(r, Silent, NoSignal)
  }

  /** Hands a received frame to the stack, or ends the transmission it may acknowledge. */
  function Received(r: Radio, f: RxFrame, error: Error, callback: seq<Call>): Outcome {
    if !r.Listening() then Outcome(r, Silent, NoSignal)
    else if r.txWait && r.frame.ackRequested then
      Outcome(SignalTxDone(r.(txWait := false), callback), Silent,
              TxDoneSignal(if f.isAck && error == NoError && f.matches then NoError else NoAck))
    else if !f.isAck || r.promiscuous then Outcome(CalledAll(r, callback), Silent, NoSignal)
    else Outcome(r, Silent, NoSignal)
  }

  function CcaDone(r: Radio, channel: int, clear: bool, callback: seq<Call>): Outcome {
    if channel != r.frame.channel || r.sub != TxCca then Outcome(r, Silent, NoSignal)
    else if clear then Outcome(SetSubState(r, TxCcaToTx, TURNAROUND_TIME_US), Silent, NoSignal)
    else Outcome(SignalTxDone(SetSubState(r.(txWait := false), Ready, UNDEFINED_TIME_US), callback),
                 Silent, TxDoneSignal(ChannelAccessFailure))
  }

  function TxDone(r: Radio, error: Error, callback: seq<Call>): Outcome {
    if r.sub == RxAckTxOngoing then Outcome(SetSubState(r, RxTxToRx, TURNAROUND_TIME_US), Silent, NoSignal)
    else if r.sub != TxFrameOngoing then Outcome(r, Silent, NoSignal)
    else if !r.frame.ackRequested || error != NoError then
      Outcome(SignalTxDone(SetSubState(r, TxTxToRx, TURNAROUND_TIME_US), callback), Silent, TxDoneSignal(error))
    else Outcome(SetSubState(r, TxTxToAifs, TURNAROUND_TIME_US), Silent, NoSignal)
  }

  function SetBitrate(r: Radio, value: int): Radio {
    r.(bitrate := if value < 1 then 1 else value)
  }
}
