/** When a frame that the channel is clear for can go without its acknowledgment: exactly when the
    reply is not that acknowledgment, or a duration rounds to zero, for then a frame can end
    before it starts. */
module AckFailure {
  import opened Heap
  import opened Radio
  import opened AckExchange
  import RadioProgress

  // ---------- worlds that a run reaches ----------

  function After(x: Setup, w: World, steps: seq<Step>): World
    decreases |steps|
  {
    if steps == [] then w else Next(x, After(x, w, steps[..|steps| - 1]), steps[|steps| - 1])
  }

  ghost predicate AllAllowed(x: Setup, w: World, steps: seq<Step>) {
    forall k :: 0 <= k < |steps| ==> Allowed(x, After(x, w, steps[..k]), steps[k])
  }

  ghost predicate Reaches(x: Setup, w: World, w': World) {
    exists steps :: AllAllowed(x, w, steps) && After(x, w, steps) == w'
  }

  lemma ReachesItself(x: Setup, w: World)
    ensures Reaches(x, w, w)
  {
    assert AllAllowed(x, w, []) && After(x, w, []) == w;
  }

  lemma ReachesNext(x: Setup, w0: World, w: World, step: Step)
    requires Reaches(x, w0, w) && Allowed(x, w, step)
    ensures Reaches(x, w0, Next(x, w, step))
  {
    hide Next, Allowed;
    var steps :| AllAllowed(x, w0, steps) && After(x, w0, steps) == w;
    var longer := steps + [step];
    assert longer[..|steps|] == steps;
    forall k | 0 <= k < |longer| ensures Allowed(x, After(x, w0, longer[..k]), longer[k]) {
      assert longer[..k] == steps[..k];
      if k == |steps| {
        assert steps[..k] == steps;
      }
    }
    assert AllAllowed(x, w0, longer) && After(x, w0, longer) == Next(x, w, step);
  }

  /** What is reached from a beginning is the end of a run. */
  lemma ReachedByRun(x: Setup, w0: World, w: World)
    requires Begins(x, w0) && Reaches(x, w0, w)
    ensures exists ws, steps :: IsRun(x, ws, steps) && ws[|steps|] == w
  {
    hide Next, Allowed, Begins;
    var steps :| AllAllowed(x, w0, steps) && After(x, w0, steps) == w;
    var ws := seq(|steps| + 1, k requires 0 <= k <= |steps| => After(x, w0, steps[..k]));
    forall k | 0 <= k < |steps| ensures Allowed(x, ws[k], steps[k]) && ws[k + 1] == Next(x, ws[k], steps[k]) {
      assert steps[..k + 1][..k] == steps[..k];
    }
    assert steps[..|steps|] == steps;
    assert IsRun(x, ws, steps) && ws[|steps|] == w;
  }

  // ---------- a beginning for every setup ----------

  function Idle(x: Setup, bitrate: Bitrate): Radio {
    Radio(x.start, Receiving, Ready, UNDEFINED_TIME_US, false, false, x.channel, x.channel, x.channel,
          Frame(x.length, true, x.channel), bitrate, 0, false)
  }

  function Beginning(x: Setup): World {
    World(x.start, Idle(x, x.senderBitrate).(state := Transmitting), Idle(x, x.receiverBitrate), {}, NoSignal)
  }

  lemma BeginningBegins(x: Setup)
    ensures Begins(x, Beginning(x))
  {
  }

  // ---------- from the beginning to the frame ----------

  lemma ReachesFrame(x: Setup, w0: World) returns (w: World)
    requires Begins(x, w0) && x.clear
    ensures Reaches(x, w0, w) && StartsFrame(x, w)
  {
    hide Next, Reaches, Allowed, Begins, SensesChannel, TurnsToSend, StartsFrame;
    ReachesItself(x, w0);
    SensesFirst(x, w0);
    ReachesNext(x, w0, w0, SenderPass);
    w := Next(x, w0, SenderPass);
    SensesToTurn(x, w);
    ReachesNext(x, w0, w, Tick(x.start + CCA_TIME_US));
    w := Next(x, w, Tick(x.start + CCA_TIME_US));
    ReachesNext(x, w0, w, Handle(CcaEnds(x.start + CCA_TIME_US), []));
    w := Next(x, w, Handle(CcaEnds(x.start + CCA_TIME_US), []));
    TurnsToFrame(x, w);
    ReachesNext(x, w0, w, Tick(x.SendAt()));
    w := Next(x, w, Tick(x.SendAt()));
    ReachesNext(x, w0, w, SenderPass);
    w := Next(x, w, SenderPass);
  }

  lemma SensesFirst(x: Setup, w: World)
    requires Begins(x, w)
    ensures Allowed(x, w, SenderPass) && SensesChannel(x, Next(x, w, SenderPass))
  {
    hide FrameDuration, CalledAll, Called;
  }

  lemma SensesToTurn(x: Setup, w: World)
    requires SensesChannel(x, w) && x.clear
    ensures var tick, cca := Tick(x.start + CCA_TIME_US), Handle(CcaEnds(x.start + CCA_TIME_US), []);
            Allowed(x, w, tick) && Allowed(x, Next(x, w, tick), cca) && TurnsToSend(x, Next(x, Next(x, w, tick), cca))
  {
    hide FrameDuration, CalledAll, Called;
  }

  lemma TurnsToFrame(x: Setup, w: World)
    requires TurnsToSend(x, w)
    ensures var tick := Tick(x.SendAt());
            Allowed(x, w, tick) && Allowed(x, Next(x, w, tick), SenderPass) &&
            StartsFrame(x, Next(x, Next(x, w, tick), SenderPass))
  {
    hide FrameDuration, CalledAll, Called;
  }

  // ---------- a frame that takes no time ----------

  /** The frame has ended, the receiver has just heard its start and knows of no end. */
  ghost predicate Missed(x: Setup, w: World) {
    w.verdict == NoSignal && w.now == x.SendAt() && w.pending == {} &&
    Sends(x, w, TxTxToAifs, x.SendAt() + TURNAROUND_TIME_US) &&
    w.r.now == w.now && Listens(x, w.r) && w.r.state == Receiving && w.r.sub == RxFrameOngoing &&
    w.r.nextTime == x.SendAt() + FAILSAFE_TIME_US
  }

  /** Its end is handled before its start: the receiver ignores the end. */
  lemma FrameEndsFirst(x: Setup, w: World)
    requires StartsFrame(x, w) && x.FrameTime() == 0
    ensures var end, rxEnd := Handle(FrameEnds(w.now, Sender), []), Handle(RxEnds(w.now, Receiver), []);
            var txEnd, rxStart := Handle(TxEnds(w.now, Sender), []), Handle(RxStarts(w.now, Receiver, x.channel, 0), []);
            var w1 := Next(x, w, end);
            var w2 := Next(x, w1, rxEnd);
            var w3 := Next(x, w2, txEnd);
            Allowed(x, w, end) && Allowed(x, w1, rxEnd) && Allowed(x, w2, txEnd) && Allowed(x, w3, rxStart) &&
            Missed(x, Next(x, w3, rxStart))
  {
    hide FrameDuration, CalledAll, Called;
  }

  /** The receiver gives up on the frame, and the sender waits for its acknowledgment in vain. */
  lemma MissedTimesOut(x: Setup, w: World)
    requires Missed(x, w)
    ensures var t, pass := x.SendAt(), ReceiverPass([]);
            var w1 := Next(x, w, Tick(t + 1));
            var w2 := Next(x, w1, pass);
            var w3 := Next(x, w2, Tick(t + 40));
            var w4 := Next(x, w3, SenderPass);
            Allowed(x, w, Tick(t + 1)) && Allowed(x, w1, pass) && Allowed(x, w2, Tick(t + 40)) &&
            Allowed(x, w3, SenderPass) && Waiting(x, w4)
  {
    hide FrameDuration, CalledAll, Called;
  }

  ghost predicate Waiting(x: Setup, w: World) {
    w.verdict == NoSignal && w.now == x.SendAt() + 40 && w.pending == {} &&
    Sends(x, w, TxAifsWait, x.SendAt() + 40 + MAX_ACK_WAIT_US) &&
    w.r.now == w.now && Listens(x, w.r) && w.r.state == Receiving && w.r.sub == IfsWait &&
    w.r.nextTime == x.SendAt() + 41
  }

  lemma WaitingFails(x: Setup, w: World)
    requires Waiting(x, w)
    ensures var t, pass := x.SendAt(), ReceiverPass([]);
            var w1 := Next(x, w, Tick(t + 41));
            var w2 := Next(x, w1, pass);
            var w3 := Next(x, w2, Tick(t + 392));
            Allowed(x, w, Tick(t + 41)) && Allowed(x, w1, pass) && Allowed(x, w2, Tick(t + 392)) &&
            Allowed(x, w3, SenderPass) && Next(x, w3, SenderPass).verdict == TxDoneSignal(NoAck)
  {
    hide FrameDuration, CalledAll, Called;
  }

  /** An exchange in which the frame takes no time can end without acknowledgment. */
  lemma InstantFrameIsMissed(x: Setup, w0: World) returns (w: World)
    requires Begins(x, w0) && x.clear && x.FrameTime() == 0
    ensures Reaches(x, w0, w) && w.verdict == TxDoneSignal(NoAck)
  {
    hide Next, Reaches, Allowed, Begins, StartsFrame, Missed, Waiting, FrameDuration;
    w := ReachesFrame(x, w0);
    StartsAtSend(x, w);
    FrameEndsFirst(x, w);
    w := Follow(x, w0, w, [Handle(FrameEnds(x.SendAt(), Sender), []), Handle(RxEnds(x.SendAt(), Receiver), []),
                           Handle(TxEnds(x.SendAt(), Sender), []),
                           Handle(RxStarts(x.SendAt(), Receiver, x.channel, 0), [])]);
    MissedTimesOut(x, w);
    w := Follow(x, w0, w, [Tick(x.SendAt() + 1), ReceiverPass([]), Tick(x.SendAt() + 40), SenderPass]);
    WaitingFails(x, w);
    w := Follow(x, w0, w, [Tick(x.SendAt() + 41), ReceiverPass([]), Tick(x.SendAt() + 392), SenderPass]);
  }

  lemma StartsAtSend(x: Setup, w: World)
    requires StartsFrame(x, w)
    ensures w.now == x.SendAt()
  {
  }

  /** Four steps that are allowed one after the other. */
  lemma Follow(x: Setup, w0: World, w: World, s: seq<Step>) returns (w': World)
    requires Reaches(x, w0, w) && |s| == 4
    requires Allowed(x, w, s[0]) && Allowed(x, Next(x, w, s[0]), s[1])
    requires Allowed(x, Next(x, Next(x, w, s[0]), s[1]), s[2])
    requires Allowed(x, Next(x, Next(x, Next(x, w, s[0]), s[1]), s[2]), s[3])
    ensures w' == Next(x, Next(x, Next(x, Next(x, w, s[0]), s[1]), s[2]), s[3]) && Reaches(x, w0, w')
  {
    hide Next, Reaches, Allowed;
    ReachesNext(x, w0, w, s[0]);
    ReachesNext(x, w0, Next(x, w, s[0]), s[1]);
    ReachesNext(x, w0, Next(x, Next(x, w, s[0]), s[1]), s[2]);
    ReachesNext(x, w0, Next(x, Next(x, Next(x, w, s[0]), s[1]), s[2]), s[3]);
    w' := Next(x, Next(x, Next(x, Next(x, w, s[0]), s[1]), s[2]), s[3]);
  }

  // ---------- an acknowledgment that takes no time ----------

  lemma FrameIsTaken(x: Setup, w: World)
    requires StartsFrame(x, w)
    ensures var start, end := Handle(RxStarts(x.SendAt(), Receiver, x.channel, x.FrameTime()), []),
                              Handle(FrameEnds(x.EndAt(), Sender), []);
            var w1 := Next(x, w, start);
            var w2 := Next(x, w1, Tick(x.EndAt()));
            var w3 := Next(x, w2, end);
            Allowed(x, w, start) && Allowed(x, w1, Tick(x.EndAt())) && Allowed(x, w2, end) &&
            Allowed(x, w3, Handle(TxEnds(x.EndAt(), Sender), [])) &&
            EndsFrame(x, Next(x, w3, Handle(TxEnds(x.EndAt(), Sender), [])), true, false)
  {
    hide FrameDuration, CalledAll, Called;
  }

  lemma AckIsAwaited(x: Setup, w: World)
    requires EndsFrame(x, w, true, false)
    ensures var end, turned := Handle(RxEnds(x.EndAt(), Receiver), []), x.EndAt() + TURNAROUND_TIME_US;
            var w1 := Next(x, w, end);
            var w2 := Next(x, w1, Tick(turned));
            var w3 := Next(x, w2, SenderPass);
            Allowed(x, w, end) && Allowed(x, w1, Tick(turned)) && Allowed(x, w2, SenderPass) &&
            Allowed(x, w3, Tick(x.AckAt())) &&
            AwaitsAck(x, Next(x, w3, Tick(x.AckAt()))) && Next(x, w3, Tick(x.AckAt())).now == x.AckAt()
  {
    ReceiverTakesFrame(x, w.r, []);
    hide FrameDuration, CalledAll, Called, RxDone;
  }

  /** The acknowledgment has ended, the sender ignored its end and is to hear of its start. */
  ghost predicate AckMissed(x: Setup, w: World) {
    w.verdict == NoSignal && w.now == x.AckAt() &&
    w.pending == {RxStarts(x.AckAt(), Sender, x.channel, 0), TxEnds(x.AckAt(), Receiver)} &&
    Sends(x, w, TxAifsWait, x.EndAt() + TURNAROUND_TIME_US + MAX_ACK_WAIT_US) &&
    w.r.now == w.now && w.r.sub == RxTxToRx && w.r.nextTime == x.AckAt() + TURNAROUND_TIME_US
  }

  lemma AckEndsFirst(x: Setup, w: World)
    requires AwaitsAck(x, w) && w.now == x.AckAt() && x.AckTime() == 0
    ensures var pass, end, rxEnd := ReceiverPass([]), Handle(FrameEnds(x.AckAt(), Receiver), []),
                                    Handle(RxEnds(x.AckAt(), Sender), []);
            var w1 := Next(x, w, pass);
            var w2 := Next(x, w1, pass);
            var w3 := Next(x, w2, end);
            Allowed(x, w, pass) && Allowed(x, w1, pass) && Allowed(x, w2, end) && Allowed(x, w3, rxEnd) &&
            AckMissed(x, Next(x, w3, rxEnd))
  {
    hide FrameDuration, CalledAll, Called, AckMissed;
    InstantAckTurns(x, w);
    AckIgnored(x, Next(x, Next(x, w, ReceiverPass([])), ReceiverPass([])));
  }

  /** Both passes of the receiver at the start of the acknowledgment. */
  ghost predicate Turned(x: Setup, w: World) {
    w.verdict == NoSignal && w.now == x.AckAt() &&
    w.pending == {RxStarts(x.AckAt(), Sender, x.channel, 0), FrameEnds(x.AckAt(), Receiver)} &&
    Sends(x, w, TxAifsWait, x.EndAt() + TURNAROUND_TIME_US + MAX_ACK_WAIT_US) &&
    w.r.now == w.now && w.r.sub == RxTxToRx && w.r.nextTime == x.AckAt() + TURNAROUND_TIME_US
  }

  lemma InstantAckTurns(x: Setup, w: World)
    requires AwaitsAck(x, w) && w.now == x.AckAt() && x.AckTime() == 0
    ensures Allowed(x, w, ReceiverPass([])) && Allowed(x, Next(x, w, ReceiverPass([])), ReceiverPass([]))
    ensures Turned(x, Next(x, Next(x, w, ReceiverPass([])), ReceiverPass([])))
  {
    hide FrameDuration, CalledAll, Called;
    SignalKeepsListening(x, w.r, []);
    var r := Process(w.r, Choice([], x.ackLength, true)).radio;
    AckHasNoDeadline(x, w.r);
    SignalKeepsListening(x, r, []);
  }

  lemma AckHasNoDeadline(x: Setup, r: Radio)
    requires Listens(x, r) && r.sub == RxAifsWait && r.now == r.nextTime && x.AckTime() == 0
    ensures var out := Process(r, Choice([], x.ackLength, true));
            Listens(x, out.radio) && out.radio.now == r.now && out.radio.sub == RxAckTxOngoing &&
            out.radio.nextTime == UNDEFINED_TIME_US && out.emit == CommStart(x.channel, 0)
  {
    hide FrameDuration;
    SignalKeepsListening(x, r, []);
  }

  lemma AckIgnored(x: Setup, w: World)
    requires Turned(x, w)
    ensures var end, rxEnd := Handle(FrameEnds(x.AckAt(), Receiver), []), Handle(RxEnds(x.AckAt(), Sender), []);
            Allowed(x, w, end) && Allowed(x, Next(x, w, end), rxEnd) && AckMissed(x, Next(x, Next(x, w, end), rxEnd))
  {
    hide FrameDuration, CalledAll, Called;
  }

  lemma AckMissedFails(x: Setup, w: World)
    requires AckMissed(x, w)
    ensures var txEnd, rxStart := Handle(TxEnds(x.AckAt(), Receiver), []),
                                  Handle(RxStarts(x.AckAt(), Sender, x.channel, 0), []);
            var w1 := Next(x, w, txEnd);
            var w2 := Next(x, w1, rxStart);
            var w3 := Next(x, w2, Tick(x.AckAt() + 1));
            Allowed(x, w, txEnd) && Allowed(x, w1, rxStart) && Allowed(x, w2, Tick(x.AckAt() + 1)) &&
            Allowed(x, w3, SenderPass) && Next(x, w3, SenderPass).verdict == TxDoneSignal(NoAck)
  {
    hide FrameDuration, CalledAll, Called;
  }

  /** An exchange in which the acknowledgment takes no time can end without it. */
  lemma InstantAckIsMissed(x: Setup, w0: World) returns (w: World)
    requires Begins(x, w0) && x.clear && x.AckTime() == 0
    ensures Reaches(x, w0, w) && w.verdict == TxDoneSignal(NoAck)
  {
    hide Next, Reaches, Allowed, Begins, StartsFrame, EndsFrame, AwaitsAck, AckMissed, FrameDuration;
    w := ReachesFrame(x, w0);
    FrameIsTaken(x, w);
    w := Follow(x, w0, w, [Handle(RxStarts(x.SendAt(), Receiver, x.channel, x.FrameTime()), []), Tick(x.EndAt()),
                           Handle(FrameEnds(x.EndAt(), Sender), []), Handle(TxEnds(x.EndAt(), Sender), [])]);
    AckIsAwaited(x, w);
    w := Follow(x, w0, w, [Handle(RxEnds(x.EndAt(), Receiver), []), Tick(x.EndAt() + TURNAROUND_TIME_US), SenderPass,
                           Tick(x.AckAt())]);
    AckEndsFirst(x, w);
    w := Follow(x, w0, w, [ReceiverPass([]), ReceiverPass([]), Handle(FrameEnds(x.AckAt(), Receiver), []),
                           Handle(RxEnds(x.AckAt(), Sender), [])]);
    AckMissedFails(x, w);
    w := Follow(x, w0, w, [Handle(TxEnds(x.AckAt(), Receiver), []),
                           Handle(RxStarts(x.AckAt(), Sender, x.channel, 0), []), Tick(x.AckAt() + 1), SenderPass]);
  }

  // ---------- the exact condition ----------

  /** What the schedule of an exchange leads to is reached. */
  lemma {:induction false} ReachesPlanned(x: Setup, w0: World, w: World, k: nat)
    requires Reaches(x, w0, w) && InExchange(x, w) && (x.clear ==> TakesTime(x))
    ensures Reaches(x, w0, Planned(x, w, k))
    decreases k
  {
    hide Next, Reaches, Allowed, TakesTime, InExchange, Plan, Left;
    if k > 0 && w.verdict == NoSignal {
      NeverStuck(x, w);
      ReachesNext(x, w0, w, Plan(x, w));
      StepStaysInExchange(x, w, Plan(x, w));
      ReachesPlanned(x, w0, Next(x, w, Plan(x, w)), k - 1);
    }
  }

  /** A reply that does not match, when both frames take time. */
  lemma WrongReplyFails(x: Setup, w0: World) returns (w: World)
    requires Begins(x, w0) && x.clear && TakesTime(x) && !x.Matches()
    ensures Reaches(x, w0, w) && w.verdict == TxDoneSignal(NoAck)
  {
    hide Next, Reaches, Allowed, TakesTime, Begins, Planned, OnClearChannel;
    ReachesItself(x, w0);
    PlanEnds(x, w0, Left(x, w0));
    ReachesPlanned(x, w0, w0, Left(x, w0));
    w := Planned(x, w0, Left(x, w0));
  }

  /** Some run of an exchange ends without acknowledgment if and only if the channel is clear,
      and one of the two durations rounds to zero or the reply is not the acknowledgment. */
  lemma NoAckIff(x: Setup)
    ensures (exists ws: seq<World>, steps: seq<Step> ::
               IsRun(x, ws, steps) && ws[|steps|].verdict == TxDoneSignal(NoAck)) <==>
            x.clear && (!TakesTime(x) || !x.Matches())
  {
    hide Reaches, TakesTime, FrameDuration;
    if ws: seq<World>, steps: seq<Step> :| IsRun(x, ws, steps) && ws[|steps|].verdict == TxDoneSignal(NoAck) {
      if x.clear ==> TakesTime(x) {
        ExchangeIsJudged(x, ws, steps, |steps|);
      }
    }
    DurationsArePositive(x);
    if x.clear && (!TakesTime(x) || !x.Matches()) {
      var w0 := Beginning(x);
      BeginningBegins(x);
      var w;
      if x.FrameTime() == 0 {
        w := InstantFrameIsMissed(x, w0);
      } else if x.AckTime() == 0 {
        w := InstantAckIsMissed(x, w0);
      } else {
        w := WrongReplyFails(x, w0);
      }
      ReachedByRun(x, w0, w);
    }
  }

  // ---------- the queue's part in it ----------

  /** An event of node n for time t; the order of the queue only looks at these two. */
  ghost predicate IsAt<T>(e: Entry<T>, t: nat, n: int) {
    e.timestamp == t && e.nodeId == n
  }

  lemma StaysLast<T>(q: seq<Entry<T>>, e: Entry<T>, q': seq<Entry<T>>)
    requires |q| == 0 || !Less(e, q[(|q| - 1) / 2], true)
    requires q' == q + [e]
    ensures Push(q, e, true) == q'
  {
  }

  lemma Stops<T>(q: seq<Entry<T>>, i: nat, n: nat)
    requires i < n <= |q|
    requires 2 * i + 1 < n ==> !Less(q[2 * i + 1], q[i], true)
    requires 2 * i + 2 < n ==> !Less(q[2 * i + 2], q[i], true)
    ensures Down(q, i, n, true) == q
  {
  }

  lemma SinksTo<T>(q: seq<Entry<T>>, i: nat, n: nat, j: nat, q': seq<Entry<T>>)
    requires 2 * i + 1 < n <= |q| && j == Child(q, i, n, true) && Less(q[j], q[i], true) && q' == Swap(q, i, j)
    ensures Down(q, i, n, true) == Down(q', j, n, true)
  {
  }

  /** The first pop, of the event that posts the start and the end. */
  lemma PopsFirst<T>(t: nat, n: int, m: int, f: Entry<T>, a: Entry<T>, b: Entry<T>, c: Entry<T>, y: Entry<T>, z: Entry<T>)
    requires n < m && IsAt(f, t, n) && IsAt(a, t, n) && IsAt(b, t, n) && IsAt(c, t, n) && IsAt(y, t, m) && IsAt(z, t, m)
    ensures Pop([f, a, y, b, c, z], true) == [a, b, y, z, c]
  {
    hide Down;
    var q := [z, a, y, b, c, f];
    SinksTo(q, 0, 5, 1, [a, z, y, b, c, f]);
    SinksTo([a, z, y, b, c, f], 1, 5, 3, [a, b, y, z, c, f]);
    Stops([a, b, y, z, c, f], 3, 5);
    assert Swap([f, a, y, b, c, z], 0, 5) == q;
  }

  lemma PostsFrame<T>(t: nat, n: int, m: int, a: Entry<T>, b: Entry<T>, c: Entry<T>, y: Entry<T>, z: Entry<T>,
                      start: Entry<T>, end: Entry<T>)
    requires n < m && IsAt(a, t, n) && IsAt(b, t, n) && IsAt(c, t, n) && IsAt(y, t, m) && IsAt(z, t, m)
    requires IsAt(start, t, n) && IsAt(end, t, n)
    ensures Push(Push([a, b, y, z, c], start, true), end, true) == [a, b, start, z, c, y, end]
  {
    var q := [a, b, y, z, c, start];
    assert Swap(q, 2, 5) == [a, b, start, z, c, y];
    assert Up([a, b, start, z, c, y], 2, true) == [a, b, start, z, c, y];
    assert [a, b, y, z, c] + [start] == q;
    assert Push([a, b, y, z, c], start, true) == [a, b, start, z, c, y];
    StaysLast([a, b, start, z, c, y], end, [a, b, start, z, c, y, end]);
  }

  /** A pop that puts the last of seven events of one node first. */
  lemma PopsOne<T>(t: nat, n: int, f: Entry<T>, a: Entry<T>, b: Entry<T>, c: Entry<T>, d: Entry<T>, e: Entry<T>, l: Entry<T>)
    requires IsAt(a, t, n) && IsAt(b, t, n) && IsAt(l, t, n)
    ensures Pop([f, a, b, c, d, e, l], true) == [l, a, b, c, d, e]
  {
    hide Down;
    assert Swap([f, a, b, c, d, e, l], 0, 6) == [l, a, b, c, d, e, f];
    Stops([l, a, b, c, d, e, f], 0, 6);
  }

  lemma PopsEnd<T>(t: nat, n: int, m: int, end: Entry<T>, b: Entry<T>, start: Entry<T>, z: Entry<T>, c: Entry<T>, y: Entry<T>)
    requires n < m && IsAt(end, t, n) && IsAt(b, t, n) && IsAt(start, t, n) && IsAt(c, t, n)
    requires IsAt(y, t, m) && IsAt(z, t, m)
    ensures Pop([end, b, start, z, c, y], true) == [b, c, start, z, y]
  {
    hide Down;
    var q := [y, b, start, z, c, end];
    assert Swap([end, b, start, z, c, y], 0, 5) == q;
    SinksTo(q, 0, 5, 1, [b, y, start, z, c, end]);
    SinksTo([b, y, start, z, c, end], 1, 5, 4, [b, c, start, z, y, end]);
    Stops([b, c, start, z, y, end], 4, 5);
  }

  lemma PopsReceived<T>(t: nat, n: int, r: Entry<T>, c: Entry<T>, start: Entry<T>, z: Entry<T>, y: Entry<T>, x: Entry<T>)
    requires IsAt(c, t, n) && IsAt(start, t, n) && IsAt(x, t, n)
    ensures Pop([r, c, start, z, y, x], true) == [x, c, start, z, y]
  {
    hide Down;
    assert Swap([r, c, start, z, y, x], 0, 5) == [x, c, start, z, y, r];
    Stops([x, c, start, z, y, r], 0, 5);
  }

  /** The queue does hand out the events of an instant frame in the order that fails. The event
      `first` of node n posts the frame's start and end for the present; with three more events
      of n and two of a later node m queued for that time, the end is popped before the start,
      and so are the two events that it posts in turn. */
  lemma QueueSwapsInstantFrame<T>(t: nat, n: int, m: int, first: Entry<T>, a: Entry<T>, b: Entry<T>, c: Entry<T>,
                                  y: Entry<T>, z: Entry<T>, start: Entry<T>, end: Entry<T>, txEnd: Entry<T>,
                                  rxEnd: Entry<T>)
    requires n < m && IsAt(first, t, n) && IsAt(a, t, n) && IsAt(b, t, n) && IsAt(c, t, n)
    requires IsAt(start, t, n) && IsAt(end, t, n) && IsAt(txEnd, t, n) && IsAt(rxEnd, t, n)
    requires IsAt(y, t, m) && IsAt(z, t, m)
    ensures Push(Push(Push(Push(Push(Push([], first, true), a, true), y, true), b, true), c, true), z, true) ==
            [first, a, y, b, c, z]
    ensures var q1 := Push(Push(Pop([first, a, y, b, c, z], true), start, true), end, true);
            |q1| == 7 && q1[0] == a && |Pop(q1, true)| == 6 && Pop(q1, true)[0] == end &&
            var q2 := Push(Push(Pop(Pop(q1, true), true), txEnd, true), rxEnd, true);
            |q2| == 7 && q2[0] == b && |Pop(q2, true)| == 6 && Pop(q2, true)[0] == rxEnd &&
            |Pop(Pop(q2, true), true)| == 5 && Pop(Pop(q2, true), true)[0] == txEnd &&
            start in Pop(Pop(q2, true), true)[1..]
  {
    hide Pop, Push;
    StaysLast<T>([], first, [first]);
    StaysLast([first], a, [first, a]);
    StaysLast([first, a], y, [first, a, y]);
    StaysLast([first, a, y], b, [first, a, y, b]);
    StaysLast([first, a, y, b], c, [first, a, y, b, c]);
    StaysLast([first, a, y, b, c], z, [first, a, y, b, c, z]);
    PopsFirst(t, n, m, first, a, b, c, y, z);
    PostsFrame(t, n, m, a, b, c, y, z, start, end);
    PopsOne(t, n, a, b, start, z, c, y, end);
    PopsEnd(t, n, m, end, b, start, z, c, y);
    StaysLast([b, c, start, z, y], txEnd, [b, c, start, z, y, txEnd]);
    StaysLast([b, c, start, z, y, txEnd], rxEnd, [b, c, start, z, y, txEnd, rxEnd]);
    PopsOne(t, n, b, c, start, z, y, txEnd, rxEnd);
    PopsReceived(t, n, rxEnd, c, start, z, y, txEnd);
  }
}
