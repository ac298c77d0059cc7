/** What the calls of the radio platform interface lead to (radio.c): the state diagram of the
    OpenThread radio, its channels, and a sleep that has to wait for a reception. */
module RadioCalls {
  import opened Radio
  import opened RadioProgress

  /** The radio moves between Disabled, Asleep, Receiving and Transmitting one step at a time;
      only a reception holds back the step to sleep. */
  lemma StateDiagram(r: Radio, call: Call)
    ensures var state := Called(r, call).state;
            (r.state == Disabled ==> (state == Asleep <==> call == Enable) && (state != Asleep ==> state == Disabled)) &&
            (r.state == Asleep ==> (state == Disabled <==> call == Disable) && (state == Receiving <==> call.Receive?) &&
                                   state != Transmitting) &&
            (r.state == Receiving ==> (state == Transmitting <==> call == Transmit) && state != Disabled &&
                                      (state == Asleep <==> call == Sleep && !Receives(r.sub))) &&
            (r.state == Transmitting ==> (state == Receiving <==> call.Receive?) &&
                                         (state != Receiving ==> state == Transmitting))
  {
  }

  /** An idle radio that is asked to receive on c hears, after its next pass, exactly the frames
      on c. */
  lemma ReceivesOnChannel(r: Radio, c: int, ch: Choice, channel: int, duration: nat)
    requires Consistent(r) && r.Listening() && r.sub == Ready
    ensures var tuned := Process(Called(r, Receive(c)), ch);
            tuned.emit == Silent && tuned.signal == NoSignal && tuned.radio.state == Receiving &&
            (RxStart(tuned.radio, channel, duration, NoError).sub == RxFrameOngoing <==> channel == c)
  {
    hide CalledAll, FrameDuration;
  }

  /** A sleeping radio does so after exactly the ramp-up time, and no earlier. */
  lemma WakesToReceive(r: Radio, c: int, ch: Choice, channel: int, duration: nat)
    requires Consistent(r) && r.state == Asleep && r.sub == Ready
    ensures var woken := Called(r, Receive(c));
            woken.state == Receiving && woken.sub == Startup && woken.nextTime == r.now + 40 &&
            RxStart(woken, channel, duration, NoError) == woken &&
            var up := Process(Process(woken.(now := r.now + 40), ch).radio, ch).radio;
            up.sub == Ready && (RxStart(up, channel, duration, NoError).sub == RxFrameOngoing <==> channel == c)
  {
    hide CalledAll, FrameDuration;
  }

  /** A frame handed to an idle radio is on its way at the next pass: the channel of the frame
      is sampled for eight symbol times. */
  lemma SendsOnChannel(r: Radio, f: Frame, ch: Choice)
    requires Consistent(r) && r.state == Receiving && r.sub == Ready
    ensures var out := Process(Called(Called(r, Prepare(f)), Transmit), ch);
            out.emit == ChannelSample(f.channel, 128) && out.signal == NoSignal && out.radio.sub == TxCca &&
            out.radio.opChannel == f.channel && out.radio.txWait && out.radio.frame == f &&
            out.radio.nextTime == r.now + 129
  {
    hide CalledAll, FrameDuration;
  }

  /** A frame that found the channel busy can be handed over again at once, and is sampled for
      again at the next pass. */
  lemma BusyChannelRetry(r: Radio, ch: Choice)
    requires Consistent(r) && r.state == Transmitting && r.sub == TxCca
    ensures var busy := CcaDone(r, r.frame.channel, false, [Transmit]);
            busy.signal == TxDoneSignal(ChannelAccessFailure) && busy.radio.state == Transmitting &&
            Process(busy.radio, ch).emit == ChannelSample(r.frame.channel, 128)
  {
    hide FrameDuration;
    var idle := SetSubState(r.(txWait := false), Ready, UNDEFINED_TIME_US).(state := Receiving);
    assert [Transmit][..0] == [];
    assert CalledAll(idle, [Transmit]) == Called(idle, Transmit);
    hide CalledAll;
  }

  /** A frame found clear is sent one turnaround time later, on its own channel and for as long
      as its length and the bitrate ask for. */
  lemma ClearChannelSends(r: Radio, callback: seq<Call>, ackLength: nat)
    requires Consistent(r) && r.sub == TxCca
    ensures var clear := CcaDone(r, r.frame.channel, true, callback);
            clear.signal == NoSignal && clear.radio.nextTime == r.now + 40 &&
            var out := Process(clear.radio.(now := r.now + 40), Choice(callback, ackLength, true));
            out.emit == CommStart(r.frame.channel, (6 + r.frame.length) * 8_000_000 / r.bitrate) &&
            out.radio.sub == TxFrameOngoing
  {
    hide CalledAll;
  }

  /** A frame is to be acknowledged. */
  predicate Acknowledges(f: RxFrame, error: Error) {
    f.ackRequested && !f.isAck && f.addressedToMe && error == NoError
  }

  /** A sleep asked for during a reception comes true when the frame has ended, or when its
      acknowledgment has been sent; until then the radio goes on receiving. */
  lemma SleepComesTrue(r: Radio, f: RxFrame, error: Error, callback: seq<Call>, ackLength: nat)
    requires Consistent(r) && r.state == Receiving && r.sub == RxFrameOngoing && !r.txWait
    ensures var asked := Called(r, Sleep);
            asked == r.(delaySleep := true) &&
            (!Acknowledges(f, error) ==> RxDone(asked, f, error, callback).radio.state == Asleep) &&
            (Acknowledges(f, error) ==>
               var ending := RxDone(asked, f, error, []).radio;
               var sending := Process(ending.(now := ending.nextTime), Choice([], ackLength, true)).radio;
               ending.state == Receiving && sending.sub == RxAckTxOngoing && sending.state == Receiving &&
               Process(sending.(now := DueTime(sending)), Choice([], ackLength, true)).radio.state == Asleep)
  {
    hide Called, FrameDuration;
    SleepIsDelayed(r);
    var asked := r.(delaySleep := true);
    if Acknowledges(f, error) {
      assert RxDone(asked, f, error, []).radio == SetSubState(asked, RxAifsWait, AIFS_TIME_US);
    }
  }

  lemma SleepIsDelayed(r: Radio)
    requires Receives(r.sub)
    ensures Called(r, Sleep) == r.(delaySleep := true)
  {
  }

  /** Enabling takes the startup time, and a radio that was disabled starts again. */
  lemma EnableStarts(r: Radio, ch: Choice)
    requires r.state == Disabled
    ensures var on := Called(r, Enable);
            on.state == Asleep && on.sub == Startup && on.nextTime == r.now + 140 &&
            Process(on.(now := r.now + 140), ch).radio.sub == Ready &&
            var off := Called(on.(now := r.now + 140), Disable);
            off.state == Disabled && off.sub == Startup && off.nextTime == r.now + 280
  {
    hide CalledAll, FrameDuration;
  }

  /** A receive call takes back a sleep that was put off. */
  lemma ReceiveCancelsSleep(r: Radio, c: int, f: RxFrame, error: Error)
    requires Consistent(r) && r.state == Receiving && r.sub == RxFrameOngoing && !r.txWait && !f.isAck
    ensures var asked := Called(Called(r, Sleep), Receive(c));
            RxDone(asked, f, error, []).radio.state == Receiving
  {
    hide FrameDuration;
  }

  /** A start of a frame is heard if and only if it is intact and on the channel in use, and the
      radio listens and does nothing else; it is taken for an acknowledgment exactly while one
      is awaited. */
  lemma HearsStartIff(r: Radio, channel: int, duration: nat, error: Error)
    ensures var heard := RxStart(r, channel, duration, error);
            (heard != r ==> heard.nextTime == r.now + duration + 1) &&
            (heard.sub == TxAckRxOngoing && r.sub != TxAckRxOngoing <==>
               channel == r.opChannel && error == NoError && r.Listening() && r.sub == TxAifsWait) &&
            (heard.sub == RxFrameOngoing && r.sub != RxFrameOngoing <==>
               channel == r.opChannel && error == NoError && r.Listening() && (r.sub == Ready || r.sub == IfsWait))
  {
  }

  /** An acknowledgment goes out on the channel that the stack last asked to receive on. */
  lemma AcksOnChannel(r: Radio, c: int, ackLength: nat)
    requires Consistent(r) && r.sub == RxAifsWait && r.now == r.nextTime
    ensures Process(Called(r, Receive(c)), Choice([], ackLength, true)).emit ==
            CommStart(c, (6 + ackLength) * 8_000_000 / r.bitrate)
  {
    hide CalledAll;
  }

  /** After an acknowledgment was sent the radio is ready again two turnaround times later. */
  lemma SpacingAfterSentAck(r: Radio, ch: Choice)
    requires Consistent(r) && r.sub == RxAckTxOngoing && r.now >= r.nextTime && !r.TransmitPending()
    ensures var turning := Process(r, ch).radio;
            var waiting := Process(turning.(now := turning.nextTime), ch).radio;
            waiting.sub == IfsWait && waiting.nextTime == r.now + 80 &&
            Process(waiting.(now := r.now + 80), ch).radio.sub == Ready
  {
    hide CalledAll, FrameDuration;
  }

  /** Whenever the radio has been idle or has waited for the spacing, it is on the channel that
      was asked for last; in between it stays on the one in use. */
  lemma RetunesIff(r: Radio, ch: Choice)
    requires Consistent(r) && r.now >= r.nextTime && !FailsAtOnce(r)
    ensures var r' := Process(r, ch).radio;
            if r.sub == Ready || r.sub == IfsWait || r.sub == TxTxToRx || r.sub == TxAckRxOngoing
            then r'.opChannel == r.channel
            else r'.opChannel == r.opChannel
  {
    hide CalledAll, Called, FrameDuration;
    SignalKeeps(r, ch.callback);
    SignalKeeps(SetSubState(r, Ready, UNDEFINED_TIME_US), ch.callback);
    SignalKeeps(SetSubState(r.(opChannel := r.channel), IfsWait, IfsTime(r)), ch.callback);
    hide SignalTxDone;
  }

  /** A frame that could not be secured is not sent, and its stack is told nothing; after the
      time of the last frame, a turnaround and the spacing the radio samples for it again. */
  lemma UnsecuredFrameRetries(r: Radio, ackLength: nat)
    requires Consistent(r) && r.sub == TxCcaToTx && r.now == r.nextTime && r.state == Transmitting
    requires r.channel == r.frame.channel
    ensures var ch := Choice([], ackLength, false);
            var out1 := Process(r, ch);
            var out2 := Process(out1.radio.(now := out1.radio.nextTime), ch);
            var out3 := Process(out2.radio.(now := out2.radio.nextTime), ch);
            var out4 := Process(out3.radio.(now := out3.radio.nextTime), ch);
            out1.emit == out2.emit == out3.emit == out4.emit == Silent &&
            out1.signal == out2.signal == out3.signal == out4.signal == NoSignal &&
            out4.radio.now == r.now + r.lastDuration + 1 + (if r.frame.length > 18 then 640 else 192) &&
            Process(out4.radio, ch).emit == ChannelSample(r.frame.channel, 128)
  {
    hide SignalTxDone, CalledAll, Called, FrameDuration;
  }

  /** A bitrate below one is taken for one; then frames take as long as it asks for. */
  lemma BitrateIsSet(r: Radio, value: int, length: nat)
    ensures value >= 1 ==> FrameDuration(length, SetBitrate(r, value).bitrate) == (6 + length) * 8_000_000 / value
    ensures value < 1 ==> FrameDuration(length, SetBitrate(r, value).bitrate) == (6 + length) * 8_000_000
  {
  }

  /** An acknowledgment that nobody waits for reaches the stack if and only if the radio is
      promiscuous: only then can the stack react. */
  lemma StrayAckIsHeardIff(r: Radio, on: bool, f: RxFrame, error: Error, c: int)
    requires Consistent(r) && r.state == Receiving && r.sub == RxFrameOngoing && !r.txWait && !r.delaySleep
    requires f.isAck && r.channel != c
    ensures var heard := RxDone(Called(r, SetPromiscuous(on)), f, error, [Receive(c)]).radio;
            heard.channel == c <==> on
  {
    hide FrameDuration;
    var r1 := SetSubState(r.(promiscuous := on), IfsWait, TURNAROUND_TIME_US);
    assert [Receive(c)][..0] == [];
    assert CalledAll(r1, [Receive(c)]) == Called(r1, Receive(c));
    hide CalledAll;
  }
}
