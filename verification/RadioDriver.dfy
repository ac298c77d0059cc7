/** The radio driver as the object the source keeps in static variables (radio.c): every
    handler is proved against its function in module Radio, and the handling of a whole message
    (system.c) leaves no deadline due. */
module RadioDriver {
  import opened Radio
  import RadioProgress

  /** What a message of the simulator asks the radio to do; AlarmFired only moves its clock. */
  datatype SimEvent =
    | AlarmFired
    | RxStartEvent(channel: int, duration: nat, error: Error)
    | RxDoneEvent(f: RxFrame, error: Error, callback: seq<Call>)
    | CcaDoneEvent(channel: int, clear: bool, callback: seq<Call>)
    | TxDoneEvent(error: Error, callback: seq<Call>)

  function Handled(r: Radio, e: SimEvent): Outcome {
    match e
    case AlarmFired => Outcome(r, Silent, NoSignal)
    case RxStartEvent(c, duration, error) => Outcome(RxStart(r, c, duration, error), Silent, NoSignal)
    case RxDoneEvent(f, error, callback) => RxDone(r, f, error, callback)
    case CcaDoneEvent(c, clear, callback) => CcaDone(r, c, clear, callback)
    case TxDoneEvent(error, callback) => TxDone(r, error, callback)
  }

  class Driver {
    var now: nat
    var state: State
    var sub: SubState
    var nextTime: nat
    var txWait: bool
    var delaySleep: bool
    var channel: int
    var rxChannel: int
    var opChannel: int
    var frame: Frame
    var bitrate: Bitrate
    var lastDuration: nat
    var promiscuous: bool

    ghost function View(): Radio reads this {
      Radio(now, state, sub, nextTime, txWait, delaySleep, channel, rxChannel, opChannel, frame, bitrate,
            lastDuration, promiscuous)
    }

    constructor ()
      ensures View() == Initial
    {
      now, state, sub, nextTime := 0, Disabled, Startup, STARTUP_TIME_US;
      txWait, delaySleep := false, false;
      channel, rxChannel, opChannel := MIN_CHANNEL, 0, MIN_CHANNEL;
      frame, bitrate, lastDuration, promiscuous := Frame(0, false, 0), DEFAULT_BITRATE, 0, false;
    }

    method SetRadioSubState(to: SubState, timeToRemain: nat)
      modifies this
      ensures View() == SetSubState(old(View()), to, timeToRemain)
    {
      if timeToRemain == UNDEFINED_TIME_US {
        nextTime := UNDEFINED_TIME_US;
      } else {
        nextTime := now + timeToRemain;
      }
      sub := to;
    }

    method SetRadioState(to: State)
      modifies this
      ensures View() == SetState(old(View()), to)
    {
      if to != state {
        if to == Disabled {
          SetRadioSubState(Startup, STARTUP_TIME_US);
        }
      }
      state := to;
    }

    method ApplyRadioDelayedSleep()
      modifies this
      ensures View() == ApplyDelayedSleep(old(View()))
    {
      if delaySleep {
        SetRadioState(Asleep);
        delaySleep := false;
      }
    }

    // ---------- the platform interface ----------

    method PlatRadioEnable()
      modifies this
      ensures View() == Called(old(View()), Enable)
    {
      if state == Disabled {
        delaySleep := false;
        SetRadioState(Asleep);
        SetRadioSubState(Startup, STARTUP_TIME_US);
      }
    }

    /** Fails if the radio is on and not asleep. */
    method PlatRadioDisable() returns (ok: bool)
      modifies this
      ensures View() == Called(old(View()), Disable)
      ensures ok <==> old(state) == Disabled || old(state) == Asleep
      ensures ok ==> state == Disabled
    {
      if state == Disabled {
        return true;
      }
      if state != Asleep {
        return false;
      }
      delaySleep := false;
      SetRadioState(Disabled);
      return true;
    }

    /** Fails, and is remembered, while a frame is received or acknowledged. */
    method PlatRadioSleep() returns (ok: bool)
      modifies this
      ensures View() == Called(old(View()), Sleep)
      ensures ok ==> state == Asleep
    {
      ok := false;
      if sub == RxFrameOngoing || sub == RxAckTxOngoing || sub == RxAifsWait {
        delaySleep := true;
      } else if state == Asleep || state == Receiving {
        ok := true;
        delaySleep := false;
        SetRadioState(Asleep);
      }
    }

    method PlatRadioReceive(c: int) returns (ok: bool)
      modifies this
      ensures View() == Called(old(View()), Receive(c))
      ensures ok <==> old(state) != Disabled
    {
      ok := false;
      if state != Disabled {
        if state == Asleep && sub != Startup {
          SetRadioSubState(Startup, RAMPUP_TIME_US);
        }
        ok := true;
        txWait, delaySleep := false, false;
        rxChannel, channel := c, c;
        SetRadioState(Receiving);
      }
    }

    method PlatRadioTransmit() returns (ok: bool)
      modifies this
      ensures View() == Called(old(View()), Transmit)
      ensures ok <==> old(state) == Receiving
    {
      ok := false;
      if state == Receiving {
        ok := true;
        delaySleep := false;
        channel := frame.channel;
        SetRadioState(Transmitting);
      }
    }

    method Call(call: Call)
      modifies this
      ensures View() == Called(old(View()), call)
    {
      match call
      case Enable => PlatRadioEnable();
      case Disable => var _ := PlatRadioDisable();
      case Sleep => var _ := PlatRadioSleep();
      case Receive(c) => var _ := PlatRadioReceive(c);
      case Transmit => var _ := PlatRadioTransmit();
      case Prepare(f) => frame := f;
      case SetPromiscuous(on) => promiscuous := on;
    }

    /** What the stack does while it is called back. */
    method CallBack(calls: seq<Call>)
      modifies this
      ensures View() == CalledAll(old(View()), calls)
    {
      hide Called;
      var i := 0;
      while i < |calls|
        invariant 0 <= i <= |calls|
        invariant View() == CalledAll(old(View()), calls[..i])
      {
        assert calls[..i + 1][..i] == calls[..i] && calls[..i + 1][i] == calls[i];
        Call(calls[i]);
        i := i + 1;
      }
      assert calls[..i] == calls;
    }

    method SignalRadioTxDone(callback: seq<Call>)
      modifies this
      ensures View() == SignalTxDone(old(View()), callback)
    {
      hide CalledAll;
      if state == Transmitting {
        SetRadioState(Receiving);
      }
      CallBack(callback);
    }

    // ---------- the state machine ----------

    /** Sends a frame of the given length: its duration follows from the bitrate. */
    method RadioTransmit(length: nat, c: int) returns (emit: Emit)
      modifies this
      ensures View() == old(View()).(lastDuration := FrameDuration(length, old(bitrate)))
      ensures emit == CommStart(c, lastDuration)
    {
      lastDuration := (SHR_PHR_LENGTH_BYTES + length) * 8 * 1_000_000 / bitrate;
      emit := CommStart(c, lastDuration);
    }

    method TxTimeout(ch: Choice) returns (emit: Emit, signal: Signal)
      requires sub == TxCca || sub == TxCcaToTx || sub == TxFrameOngoing || sub == TxTxToRx || sub == TxTxToAifs ||
               sub == TxAifsWait || sub == TxAckRxOngoing
      modifies this
      ensures Outcome(View(), emit, signal) == Timeout(old(View()), ch)
    {
      hide SignalTxDone, FrameDuration, CalledAll, Called;
      emit, signal := Silent, NoSignal;
      var ifsTime := if frame.length > MAX_SIFS_FRAME_SIZE then LIFS_TIME_US else SIFS_TIME_US;
      match sub
      case TxCca =>
        SignalRadioTxDone(ch.callback);
        signal := TxDoneSignal(ChannelAccessFailure);
        SetRadioSubState(Ready, UNDEFINED_TIME_US);
        txWait := false;
      case TxCcaToTx =>
        if ch.secured {
          emit := RadioTransmit(frame.length, frame.channel);
        }
        SetRadioSubState(TxFrameOngoing, lastDuration + FAILSAFE_TIME_US);
      case TxFrameOngoing =>
        SetRadioSubState(TxTxToRx, TURNAROUND_TIME_US);
      case TxTxToRx =>
        opChannel := channel;
        SetRadioSubState(IfsWait, ifsTime - TURNAROUND_TIME_US);
      case TxTxToAifs =>
        SetRadioSubState(TxAifsWait, MAX_ACK_WAIT_US);
      case TxAifsWait =>
        SetRadioSubState(Ready, UNDEFINED_TIME_US);
        SignalRadioTxDone(ch.callback);
        signal := TxDoneSignal(NoAck);
        txWait := false;
      case TxAckRxOngoing =>
        opChannel := channel;
        SetRadioSubState(IfsWait, ifsTime);
        SignalRadioTxDone(ch.callback);
        signal := TxDoneSignal(NoAck);
    }

    method RxTimeout(ch: Choice) returns (emit: Emit)
      requires sub == RxFrameOngoing || sub == RxAifsWait || sub == RxAckTxOngoing || sub == RxTxToRx
      modifies this
      ensures Outcome(View(), emit, NoSignal) == Timeout(old(View()), ch)
    {
      hide SignalTxDone, FrameDuration, CalledAll, Called;
      emit := Silent;
      match sub
      case RxFrameOngoing =>
        SetRadioSubState(IfsWait, TURNAROUND_TIME_US);
      case RxAifsWait =>
        emit := RadioTransmit(ch.ackLength, rxChannel);
        SetRadioSubState(RxAckTxOngoing, lastDuration);
      case RxAckTxOngoing =>
        SetRadioSubState(RxTxToRx, TURNAROUND_TIME_US);
        ApplyRadioDelayedSleep();
      case RxTxToRx =>
        SetRadioSubState(IfsWait, TURNAROUND_TIME_US);
    }

    method OnTimeout(ch: Choice) returns (emit: Emit, signal: Signal)
      modifies this
      ensures Outcome(View(), emit, signal) == Timeout(old(View()), ch)
    {
      hide SignalTxDone, FrameDuration, CalledAll, Called;
      emit, signal := Silent, NoSignal;
      match sub
      case Startup =>
        SetRadioSubState(Ready, UNDEFINED_TIME_US);
      case Ready =>
        opChannel := channel;
        if state == Transmitting && !txWait {
          SetRadioSubState(TxCca, CCA_TIME_US + FAILSAFE_TIME_US);
          txWait := true;
          emit := ChannelSample(frame.channel, CCA_TIME_US);
        }
      case IfsWait =>
        opChannel := channel;
        SetRadioSubState(Ready, UNDEFINED_TIME_US);
        txWait := false;
      case RxFrameOngoing => emit := RxTimeout(ch);
      case RxAifsWait => emit := RxTimeout(ch);
      case RxAckTxOngoing => emit := RxTimeout(ch);
      case RxTxToRx => emit := RxTimeout(ch);
      case _ => emit, signal := TxTimeout(ch);
    }

    method RadioProcess(ch: Choice) returns (emit: Emit, signal: Signal)
      modifies this
      ensures Outcome(View(), emit, signal) == Process(old(View()), ch)
    {
      hide Timeout, SignalTxDone, CalledAll, Called;
      emit, signal := Silent, NoSignal;
      var failed := state == Transmitting && !txWait &&
                    (sub == RxFrameOngoing || sub == RxAckTxOngoing || sub == RxAifsWait);
      if failed {
        SignalRadioTxDone(ch.callback);
        signal := TxDoneSignal(ChannelAccessFailure);
      }
      if now >= nextTime {
        var timeoutSignal;
        emit, timeoutSignal := OnTimeout(ch);
        if !failed {
          signal := timeoutSignal;
        }
      }
    }

    // ---------- events from the simulator ----------

    method OnRxStart(c: int, duration: nat, error: Error)
      modifies this
      ensures View() == RxStart(old(View()), c, duration, error)
    {
      if opChannel != c || !(state == Receiving || state == Transmitting) ||
         !(sub == Ready || sub == IfsWait || sub == TxAifsWait) || error != NoError {
        return;
      }
      if sub == TxAifsWait {
        SetRadioSubState(TxAckRxOngoing, duration + FAILSAFE_TIME_US);
      } else {
        SetRadioSubState(RxFrameOngoing, duration + FAILSAFE_TIME_US);
      }
    }

    method OnRxDone(f: RxFrame, error: Error, callback: seq<Call>) returns (signal: Signal)
      modifies this
      ensures Outcome(View(), Silent, signal) == RxDone(old(View()), f, error, callback)
    {
      hide Received;
      if sub != RxFrameOngoing && sub != TxAckRxOngoing {
        return NoSignal;
      }
      if sub == RxFrameOngoing && f.ackRequested && !f.isAck && f.addressedToMe && error == NoError {
        SetRadioSubState(RxAifsWait, AIFS_TIME_US);
      } else if sub == RxFrameOngoing {
        SetRadioSubState(IfsWait, TURNAROUND_TIME_US);
        ApplyRadioDelayedSleep();
      } else {
        var ifsTime := if frame.length > MAX_SIFS_FRAME_SIZE then LIFS_TIME_US else SIFS_TIME_US;
        SetRadioSubState(IfsWait, ifsTime);
      }
      signal := RadioReceive(f, error, callback);
    }

    method RadioReceive(f: RxFrame, error: Error, callback: seq<Call>) returns (signal: Signal)
      modifies this
      ensures Outcome(View(), Silent, signal) == Received(old(View()), f, error, callback)
    {
      hide SignalTxDone, CalledAll;
      signal := NoSignal;
      if !(state == Receiving || state == Transmitting) {
        return;
      }
      if txWait && frame.ackRequested {
        var isAwaitedAckReceived := false;
        if f.isAck && error == NoError {
          isAwaitedAckReceived := f.matches;
        }
        txWait := false;
        SignalRadioTxDone(callback);
        signal := TxDoneSignal(if isAwaitedAckReceived then NoError else NoAck);
      } else if !f.isAck || promiscuous {
        CallBack(callback);
      }
    }

    method OnCcaDone(c: int, clear: bool, callback: seq<Call>) returns (signal: Signal)
      modifies this
      ensures Outcome(View(), Silent, signal) == CcaDone(old(View()), c, clear, callback)
    {
      hide SignalTxDone;
      signal := NoSignal;
      if c != frame.channel || sub != TxCca {
        return;
      }
      if clear {
        SetRadioSubState(TxCcaToTx, TURNAROUND_TIME_US);
      } else {
        txWait := false;
        SetRadioSubState(Ready, UNDEFINED_TIME_US);
        SignalRadioTxDone(callback);
        signal := TxDoneSignal(ChannelAccessFailure);
      }
    }

    method OnTxDone(error: Error, callback: seq<Call>) returns (signal: Signal)
      modifies this
      ensures Outcome(View(), Silent, signal) == TxDone(old(View()), error, callback)
    {
      hide SignalTxDone;
      signal := NoSignal;
      if sub == RxAckTxOngoing {
        SetRadioSubState(RxTxToRx, TURNAROUND_TIME_US);
      } else if sub == TxFrameOngoing {
        if !frame.ackRequested || error != NoError {
          SetRadioSubState(TxTxToRx, TURNAROUND_TIME_US);
          SignalRadioTxDone(callback);
          signal := TxDoneSignal(error);
        } else {
          SetRadioSubState(TxTxToAifs, TURNAROUND_TIME_US);
        }
      }
    }

    // ---------- a whole message ----------

    method HandleSimEvent(e: SimEvent) returns (signal: Signal)
      requires RadioProgress.Consistent(View())
      modifies this
      ensures Outcome(View(), Silent, signal) == Handled(old(View()), e)
      ensures RadioProgress.Consistent(View()) && now == old(now)
      ensures old(RadioProgress.NearlyAhead(View())) ==> RadioProgress.NearlyAhead(View())
    {
      hide RadioProgress.Consistent, RadioProgress.NearlyAhead, RxStart, RxDone, CcaDone, TxDone;
      signal := NoSignal;
      match e
      case AlarmFired =>
      case RxStartEvent(c, duration, error) =>
        RadioProgress.RxStartKeeps(View(), c, duration, error);
        OnRxStart(c, duration, error);
      case RxDoneEvent(f, error, callback) =>
        RadioProgress.RxDoneKeeps(View(), f, error, callback);
        signal := OnRxDone(f, error, callback);
      case CcaDoneEvent(c, clear, callback) =>
        RadioProgress.CcaDoneKeeps(View(), c, clear, callback);
        signal := OnCcaDone(c, clear, callback);
      case TxDoneEvent(error, callback) =>
        RadioProgress.TxDoneKeeps(View(), error, callback);
        signal := OnTxDone(error, callback);
    }

    method Pass(ch: Choice) returns (emit: Emit, signal: Signal)
      requires RadioProgress.Consistent(View())
      modifies this
      ensures Outcome(View(), emit, signal) == Process(old(View()), ch)
      ensures RadioProgress.Consistent(View()) && RadioProgress.NearlyAhead(View()) && now == old(now)
      ensures old(RadioProgress.NearlyAhead(View())) ==> RadioProgress.Ahead(View())
    {
      hide RadioProgress.Consistent, RadioProgress.NearlyAhead, RadioProgress.Ahead, Process;
      RadioProgress.ProcessKeeps(View(), ch);
      emit, signal := RadioProcess(ch);
      RadioProgress.KeptIsConsistent(old(View()), View());
    }

    /** The radio's part in the handling of a message: move the clock, run the state machine,
        handle the event, let the stack's timers call the driver, run the state machine again.
        A node that is not woken after its deadline is left with its deadline ahead, whatever
        the message, the stack and the bitrate. */
    method ProcessMessage(delay: nat, e: SimEvent, calls: seq<Call>, first: Choice, second: Choice)
      returns (sent: seq<Emit>, signals: seq<Signal>)
      requires RadioProgress.Consistent(View())
      requires RadioProgress.Ahead(View()) && (sub != Ready ==> now + delay <= nextTime)
      modifies this
      ensures RadioProgress.Consistent(View()) && RadioProgress.Ahead(View()) && now == old(now) + delay
      ensures var out1 := Process(old(View()).(now := old(now) + delay), first);
              var out2 := Handled(out1.radio, e);
              var out3 := Process(CalledAll(out2.radio, calls), second);
              View() == out3.radio && sent == [out1.emit, out3.emit] &&
              signals == [out1.signal, out2.signal, out3.signal]
    {
      hide RadioProgress.Consistent, RadioProgress.NearlyAhead, RadioProgress.Ahead, Process, CalledAll, Handled;
      MovedClock(View(), delay);
      now := now + delay;
      assert View() == old(View()).(now := old(now) + delay);
      var emit1, signal1 := Pass(first);
      var signal2 := HandleSimEvent(e);
      CallsKeepConsistent(View(), calls);
      CallBack(calls);
      var emit3, signal3 := Pass(second);
      sent, signals := [emit1, emit3], [signal1, signal2, signal3];
    }
  }

  lemma MovedClock(r: Radio, delay: nat)
    requires RadioProgress.Consistent(r) && (r.sub != Ready ==> r.now + delay <= r.nextTime)
    ensures RadioProgress.Consistent(r.(now := r.now + delay))
  {
  }

  lemma CallsKeepConsistent(r: Radio, calls: seq<Call>)
    requires RadioProgress.Consistent(r)
    ensures RadioProgress.Consistent(CalledAll(r, calls)) && CalledAll(r, calls).now == r.now
    ensures RadioProgress.NearlyAhead(r) ==> RadioProgress.NearlyAhead(CalledAll(r, calls))
  {
    hide CalledAll;
    RadioProgress.CallsKeep(r, calls);
  }
}
