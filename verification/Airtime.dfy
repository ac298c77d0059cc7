/** Time on the air per channel: the statistics that the radio models keep
    (radiomodelIdeal.go, inherited by the mutual-interference model). */
module Airtime {
  import NodeOrder

  datatype ChannelStats = ChannelStats(txTimeUs: int, numFrames: nat, txStartTime: nat, transmitters: set<int>)

  /** The statistics, the radio model's clock and the channel every radio is on. */
  datatype Stats = Stats(ts: nat, channels: map<int, ChannelStats>, radioChannel: map<int, int>) {
    function Transmitters(c: int): set<int> {
      if c in channels then channels[c].transmitters else {}
    }

    /** The time counted so far, an interval that is still open included. */
    function Recorded(c: int): int {
      if c !in channels then 0
      else if channels[c].transmitters == {} then channels[c].txTimeUs
      else channels[c].txTimeUs + ts - channels[c].txStartTime
    }
  }

  // ---------- the operations as functions of the statistics ----------

  function AdvanceTo(s: Stats, ts: nat): Stats {
    s.(ts := ts)
  }

  function MoveTo(s: Stats, n: int, c: int): Stats {
    s.(radioChannel := s.radioChannel[n := c])
  }

  /** A start on a channel where the node transmits already is aborted, and counted. */
  function TxStart(s: Stats, n: int, c: int): Stats {
    var cs := if c in s.channels then s.channels[c] else ChannelStats(0, 0, 0, {});
    var start := if cs.transmitters == {} then s.ts else cs.txStartTime;
    var moved := if n in cs.transmitters then s.radioChannel else s.radioChannel[n := c];
    s.(channels := s.channels[c := ChannelStats(cs.txTimeUs, cs.numFrames + 1, start, cs.transmitters + {n})],
       radioChannel := moved)
  }

  /** Takes a node from a channel's transmitters; the last one closes the open interval. */
  function Removed(cs: ChannelStats, n: int, ts: nat): ChannelStats {
    var rest := cs.transmitters - {n};
    if rest == {} then cs.(transmitters := rest, txTimeUs := cs.txTimeUs + ts - cs.txStartTime)
    else cs.(transmitters := rest)
  }

  function TxStop(s: Stats, n: int, c: int): Stats
    requires c in s.channels
  {
    s.(channels := s.channels[c := Removed(s.channels[c], n, s.ts)])
  }

  function DeleteNode(s: Stats, n: int): Stats
    requires n in s.radioChannel
  {
    var c := s.radioChannel[n];
    if s.Transmitters(c) == {} then s.(radioChannel := s.radioChannel - {n})
    else s.(channels := s.channels[c := Removed(s.channels[c], n, s.ts)], radioChannel := s.radioChannel - {n})
  }

  /** Reading a channel while it is busy moves the time counted so far into the total. */
  function Read(s: Stats, c: int): Stats {
    if c in s.channels && s.channels[c].transmitters != {} && s.ts > s.channels[c].txStartTime
    then s.(channels := s.channels[c := s.channels[c].(
              txTimeUs := s.channels[c].txTimeUs + s.ts - s.channels[c].txStartTime, txStartTime := s.ts)])
    else s
  }

  function Reset(s: Stats, c: int): Stats {
    s.(channels := s.channels - {c})
  }

  // ---------- what happened on the air ----------

  datatype Interval = Interval(node: int, ch: int, from: nat, to: nat)

  /** The transmissions since a channel's statistics began: those that have ended, and the
      start times of those still on the air, by channel and node. */
  datatype History = History(closed: set<Interval>, open: map<(int, int), nat>)

  ghost predicate OnAir(h: History, c: int, t: nat) {
    (exists i :: i in h.closed && i.ch == c && i.from <= t < i.to) ||
    (exists n :: (c, n) in h.open && h.open[(c, n)] <= t)
  }

  /** The microseconds before ts at which some node transmitted on c: the union of the
      transmission intervals. */
  ghost function Busy(h: History, c: int, ts: nat): set<nat> {
    set t: nat | t < ts && OnAir(h, c, t)
  }

  datatype Op =
    | Advanced(ts: nat)
    | Moved(n: int, c: int)
    | Started(n: int, c: int)
    | Stopped(n: int, c: int)
    | Deleted(n: int)
    | WasRead(c: int)
    | WasReset(c: int)

  ghost predicate Allowed(s: Stats, h: History, op: Op) {
    match op
    case Advanced(ts) => ts >= s.ts
    case Stopped(n, c) => (c, n) in h.open
    case Deleted(n) => n in s.radioChannel && DeletesCleanly(s, h, n)
    case WasReset(c) => forall n :: (c, n) !in h.open
    case _ => true
  }

  /** The deleted node transmits on no channel but the one its radio is on. */
  ghost predicate DeletesCleanly(s: Stats, h: History, n: int)
    requires n in s.radioChannel
  {
    forall c :: (c, n) in h.open ==> c == s.radioChannel[n]
  }

  ghost function Apply(s: Stats, op: Op): Stats
    requires op.Stopped? ==> op.c in s.channels
    requires op.Deleted? ==> op.n in s.radioChannel
  {
    match op
    case Advanced(ts) => AdvanceTo(s, ts)
    case Moved(n, c) => MoveTo(s, n, c)
    case Started(n, c) => TxStart(s, n, c)
    case Stopped(n, c) => TxStop(s, n, c)
    case Deleted(n) => DeleteNode(s, n)
    case WasRead(c) => Read(s, c)
    case WasReset(c) => Reset(s, c)
  }

  /** What really happens on the air. */
  ghost function Happens(h: History, ts: nat, op: Op): History {
    match op
    case Started(n, c) => if (c, n) in h.open then h else h.(open := h.open[(c, n) := ts])
    case Stopped(n, c) =>
      if (c, n) in h.open
      then History(h.closed + {Interval(n, c, h.open[(c, n)], ts)}, h.open - {(c, n)})
      else h
    case Deleted(n) =>
      History(h.closed + (set k | k in h.open && k.1 == n :: Interval(n, k.0, h.open[k], ts)),
              map k | k in h.open && k.1 != n :: h.open[k])
    case WasReset(c) => h.(closed := set i | i in h.closed && i.ch != c)
    case _ => h
  }

  // ---------- the statistics are exact ----------

  ghost predicate Past(h: History, ts: nat) {
    (forall i :: i in h.closed ==> i.to <= ts) && (forall k :: k in h.open ==> h.open[k] <= ts)
  }

  ghost predicate Follows(s: Stats, h: History) {
    forall c, n :: n in s.Transmitters(c) <==> (c, n) in h.open
  }

  ghost predicate StartedInPast(s: Stats) {
    forall c :: c in s.channels && s.channels[c].transmitters != {} ==> s.channels[c].txStartTime <= s.ts
  }

  ghost predicate Counted(s: Stats, h: History) {
    forall c :: s.Recorded(c) == |Busy(h, c, s.ts)|
  }

  /** The recorded transmitters are those on the air, and the recorded time is the measure
      of the union of all transmission intervals. */
  ghost predicate Exact(s: Stats, h: History) {
    Past(h, s.ts) && Follows(s, h) && StartedInPast(s) && Counted(s, h)
  }

  ghost function Span(from: nat, to: nat): (s: set<nat>)
    ensures forall t :: t in s <==> from <= t < to
    ensures |s| == if from <= to then to - from else 0
  {
    if from >= to then {} else Span(from, to - 1) + {to - 1}
  }

  lemma BusyGrows(h: History, c: int, ts: nat, later: nat)
    requires ts <= later
    requires Past(h, ts)
    ensures |Busy(h, c, later)| == |Busy(h, c, ts)| + if exists n :: (c, n) in h.open then later - ts else 0
  {
    if n :| (c, n) in h.open {
      var span := Span(ts, later);
      forall t: nat | t in span ensures OnAir(h, c, t) {
        assert h.open[(c, n)] <= t;
      }
      assert Busy(h, c, later) == Busy(h, c, ts) + span;
    } else {
      assert Busy(h, c, later) == Busy(h, c, ts);
    }
  }

  lemma AdvanceKeepsExact(s: Stats, h: History, ts: nat)
    requires Exact(s, h) && s.ts <= ts
    ensures Exact(AdvanceTo(s, ts), h)
  {
    var s' := AdvanceTo(s, ts);
    forall c ensures s'.Recorded(c) == |Busy(h, c, ts)| {
      BusyGrows(h, c, s.ts, ts);
      assert s.Recorded(c) == |Busy(h, c, s.ts)|;
      NodeOrder.NonEmpty(s.Transmitters(c));
      if n :| n in s.Transmitters(c) {
        assert (c, n) in h.open;
      }
    }
    assert forall c :: s'.Transmitters(c) == s.Transmitters(c);
  }

  /** Everything but the passing of time happens at one instant and leaves the past alone. */
  lemma PastIsKept(h: History, ts: nat, op: Op, c: int)
    requires !op.Advanced? && op != WasReset(c)
    requires Past(h, ts)
    ensures Busy(Happens(h, ts, op), c, ts) == Busy(h, c, ts)
  {
    var h' := Happens(h, ts, op);
    forall t: nat | t < ts ensures OnAir(h', c, t) == OnAir(h, c, t) {
      if OnAir(h, c, t) {
        StaysOnAir(h, ts, op, c, t);
      }
      if OnAir(h', c, t) {
        WasOnAir(h, ts, op, c, t);
      }
    }
  }

  lemma StaysOnAir(h: History, ts: nat, op: Op, c: int, t: nat)
    requires !op.Advanced? && op != WasReset(c) && t < ts && OnAir(h, c, t)
    ensures OnAir(Happens(h, ts, op), c, t)
  {
    var h' := Happens(h, ts, op);
    if i :| i in h.closed && i.ch == c && i.from <= t < i.to {
      assert i in h'.closed;
    } else {
      var n :| (c, n) in h.open && h.open[(c, n)] <= t;
      if (op.Stopped? && op.n == n && op.c == c) || (op.Deleted? && op.n == n) {
        var i := Interval(n, c, h.open[(c, n)], ts);
        assert op.Deleted? ==> (c, n) in h.open && (c, n).1 == op.n;
        assert i in h'.closed && i.ch == c && i.from <= t < i.to;
      } else {
        assert (c, n) in h'.open && h'.open[(c, n)] <= t;
      }
    }
  }

  lemma WasOnAir(h: History, ts: nat, op: Op, c: int, t: nat)
    requires !op.Advanced? && t < ts && OnAir(Happens(h, ts, op), c, t)
    ensures OnAir(h, c, t)
  {
    var h' := Happens(h, ts, op);
    if i :| i in h'.closed && i.ch == c && i.from <= t < i.to {
      if i !in h.closed {
        assert (c, i.node) in h.open && h.open[(c, i.node)] <= t;
      }
    } else {
      var n :| (c, n) in h'.open && h'.open[(c, n)] <= t;
      assert (c, n) in h.open && h.open[(c, n)] <= t;
    }
  }

  /** Apart from a reset of the channel, nothing but time changes what is recorded. */
  lemma RecordIsKept(s: Stats, h: History, op: Op, c: int)
    requires Exact(s, h) && Allowed(s, h, op) && !op.Advanced? && op != WasReset(c)
    requires op.Stopped? ==> op.c in s.channels
    ensures Apply(s, op).Recorded(c) == s.Recorded(c)
  {
    hide Counted, Busy;
    if op.Stopped? {
      assert op.n in s.Transmitters(op.c);
    }
  }

  lemma TransmittersFollow(s: Stats, h: History, op: Op)
    requires Exact(s, h) && Allowed(s, h, op) && !op.Advanced?
    requires op.Stopped? ==> op.c in s.channels
    ensures Follows(Apply(s, op), Happens(h, s.ts, op))
  {
    hide Counted, Past, StartedInPast;
    forall c, n ensures n in Apply(s, op).Transmitters(c) <==> (c, n) in Happens(h, s.ts, op).open {
      assert n in s.Transmitters(c) <==> (c, n) in h.open;
    }
  }

  lemma StaysPast(s: Stats, h: History, op: Op)
    requires Exact(s, h) && Allowed(s, h, op) && !op.Advanced?
    requires op.Stopped? ==> op.c in s.channels
    ensures Past(Happens(h, s.ts, op), s.ts) && StartedInPast(Apply(s, op)) && Apply(s, op).ts == s.ts
  {
    hide Counted, Busy, OnAir;
  }

  lemma StopFindsTransmitter(s: Stats, h: History, n: int, c: int)
    requires Exact(s, h) && (c, n) in h.open
    ensures c in s.channels && n in s.channels[c].transmitters
  {
    assert n in s.Transmitters(c);
  }

  lemma StepKeepsExact(s: Stats, h: History, op: Op)
    requires Exact(s, h) && Allowed(s, h, op)
    ensures op.Stopped? ==> op.c in s.channels && op.n in s.channels[op.c].transmitters
    ensures Exact(Apply(s, op), Happens(h, s.ts, op))
  {
    if op.Stopped? {
      StopFindsTransmitter(s, h, op.n, op.c);
    }
    if op.Advanced? {
      AdvanceKeepsExact(s, h, op.ts);
    } else {
      TransmittersFollow(s, h, op);
      StaysPast(s, h, op);
      forall c ensures Apply(s, op).Recorded(c) == |Busy(Happens(h, s.ts, op), c, s.ts)| {
        CountIsKept(s, h, op, c);
      }
    }
  }

  lemma CountIsKept(s: Stats, h: History, op: Op, c: int)
    requires Exact(s, h) && Allowed(s, h, op) && !op.Advanced?
    requires op.Stopped? ==> op.c in s.channels
    ensures Apply(s, op).Recorded(c) == |Busy(Happens(h, s.ts, op), c, s.ts)|
  {
    if op == WasReset(c) {
      assert Busy(Happens(h, s.ts, op), c, s.ts) == {};
    } else {
      RecordIsKept(s, h, op, c);
      PastIsKept(h, s.ts, op, c);
    }
  }

  // ---------- every run ----------

  const NoStats := Stats(0, map[], map[])
  const NoHistory := History({}, map[])

  ghost predicate IsRun(states: seq<Stats>, hs: seq<History>, ops: seq<Op>) {
    |states| == |hs| == |ops| + 1 && states[0] == NoStats && hs[0] == NoHistory &&
    forall k :: 0 <= k < |ops| ==>
      Allowed(states[k], hs[k], ops[k]) && (ops[k].Stopped? ==> ops[k].c in states[k].channels) &&
      states[k + 1] == Apply(states[k], ops[k]) && hs[k + 1] == Happens(hs[k], states[k].ts, ops[k])
  }

  /** Airtime is the measure of a union of intervals, in every state of every run. */
  lemma {:induction false} AirtimeIsExact(states: seq<Stats>, hs: seq<History>, ops: seq<Op>, k: nat)
    requires IsRun(states, hs, ops) && k < |states|
    ensures Exact(states[k], hs[k])
  {
    if k > 0 {
      AirtimeIsExact(states, hs, ops, k - 1);
      hide Exact, Apply, Happens, Allowed;
      StepKeepsExact(states[k - 1], hs[k - 1], ops[k - 1]);
    } else {
      forall c ensures states[0].Recorded(c) == |Busy(hs[0], c, 0)| {
        assert Busy(hs[0], c, 0) == {};
      }
    }
  }

  /** The frames started on c since its statistics were last reset, aborted starts included. */
  ghost function Frames(ops: seq<Op>, c: int): nat {
    if ops == [] || ops[|ops| - 1] == WasReset(c) then 0
    else Frames(ops[..|ops| - 1], c) + if ops[|ops| - 1].Started? && ops[|ops| - 1].c == c then 1 else 0
  }

  /** Frames are counted exactly, and a channel without statistics has had none. */
  lemma {:induction false} FramesAreCounted(states: seq<Stats>, hs: seq<History>, ops: seq<Op>, c: int, k: nat)
    requires IsRun(states, hs, ops) && k < |states|
    ensures Frames(ops[..k], c) == NumFrames(states[k], c)
  {
    hide Apply, Happens, DeletesCleanly;
    if k > 0 {
      FramesAreCounted(states, hs, ops, c, k - 1);
      assert ops[..k][..k - 1] == ops[..k - 1] && ops[..k][k - 1] == ops[k - 1];
      FrameStep(states[k - 1], ops[k - 1], c);
    }
  }

  ghost function NumFrames(s: Stats, c: int): nat {
    if c in s.channels then s.channels[c].numFrames else 0
  }

  lemma FrameStep(s: Stats, op: Op, c: int)
    requires op.Stopped? ==> op.c in s.channels
    requires op.Deleted? ==> op.n in s.radioChannel
    ensures NumFrames(Apply(s, op), c) ==
            if op == WasReset(c) then 0 else NumFrames(s, c) + if op.Started? && op.c == c then 1 else 0
  {
  }

  /** The last of the first k operations that tuned n's radio tuned it to c, and n was not
      deleted since. A start tunes it unless n is already on the air there. */
  ghost predicate Tuned(hs: seq<History>, ops: seq<Op>, n: int, c: int, k: nat)
    requires k <= |ops| <= |hs|
  {
    k > 0 &&
    var op := ops[k - 1];
    if op == Deleted(n) then false
    else if (op.Moved? && op.n == n) || (op.Started? && op.n == n && (op.c, n) !in hs[k - 1].open) then op.c == c
    else Tuned(hs, ops, n, c, k - 1)
  }

  /** The channel that a deletion looks at is the one the radio was last tuned to. */
  lemma {:induction false} RadioIsTuned(states: seq<Stats>, hs: seq<History>, ops: seq<Op>, n: int, c: int, k: nat)
    requires IsRun(states, hs, ops) && k < |states|
    ensures n in states[k].radioChannel && states[k].radioChannel[n] == c <==> Tuned(hs, ops, n, c, k)
  {
    if k > 0 {
      RadioIsTuned(states, hs, ops, n, c, k - 1);
      AirtimeIsExact(states, hs, ops, k - 1);
      var s, op := states[k - 1], ops[k - 1];
      assert Follows(s, hs[k - 1]);
      if op.Started? {
        assert op.n in s.Transmitters(op.c) <==> (op.c, op.n) in hs[k - 1].open;
      }
      hide Follows, Counted, StartedInPast, Past, Happens, Removed, Allowed;
    }
  }

  /** Reading the statistics returns the measure and leaves every later value as it was. */
  lemma ReadIsPure(s: Stats, h: History, c: int)
    requires Exact(s, h)
    ensures c in s.channels ==> Read(s, c).channels[c].txTimeUs == |Busy(h, c, s.ts)|
    ensures forall d, ts: nat :: ts >= s.ts ==> AdvanceTo(Read(s, c), ts).Recorded(d) == AdvanceTo(s, ts).Recorded(d)
  {
    assert s.Recorded(c) == |Busy(h, c, s.ts)|;
  }

  // ---------- deleting a transmitting node ----------

  /** Deletion looks only at the channel the radio is on: it stays exact if and only if the
      node transmits nowhere else. */
  lemma DeleteIsExact(s: Stats, h: History, n: int)
    requires Exact(s, h) && n in s.radioChannel
    ensures Exact(DeleteNode(s, n), Happens(h, s.ts, Deleted(n))) <==> DeletesCleanly(s, h, n)
  {
    if DeletesCleanly(s, h, n) {
      StepKeepsExact(s, h, Deleted(n));
    } else {
      var c :| (c, n) in h.open && c != s.radioChannel[n];
      assert n in s.Transmitters(c);
      assert n in DeleteNode(s, n).Transmitters(c);
      assert (c, n) !in Happens(h, s.ts, Deleted(n)).open;
    }
  }

  /** Such a node stays a transmitter: all later time is counted as busy. */
  lemma LeakedTransmitterCounts(s: Stats, h: History, n: int, c: int, ts: nat)
    requires Exact(s, h) && n in s.radioChannel && ts >= s.ts
    requires c != s.radioChannel[n] && forall m :: (c, m) in h.open <==> m == n
    ensures var s', h' := AdvanceTo(DeleteNode(s, n), ts), Happens(h, s.ts, Deleted(n));
            s'.Recorded(c) == |Busy(h', c, ts)| + ts - s.ts
  {
    var s', h' := AdvanceTo(DeleteNode(s, n), ts), Happens(h, s.ts, Deleted(n));
    assert n in s.Transmitters(c);
    PastIsKept(h, s.ts, Deleted(n), c);
    assert Past(h', s.ts);
    BusyGrows(h', c, s.ts, ts);
    assert s.Recorded(c) == |Busy(h, c, s.ts)|;
  }

  // ---------- the radio model's statistics object ----------

  class Statistics {
    var ts: nat
    var channels: map<int, ChannelStats>
    var radioChannel: map<int, int>

    ghost function State(): Stats reads this {
      Stats(ts, channels, radioChannel)
    }

    constructor ()
      ensures State() == NoStats
    {
      ts, channels, radioChannel := 0, map[], map[];
    }

    method OnNextEventTime(to: nat)
      modifies this
      ensures State() == AdvanceTo(old(State()), to)
    {
      ts := to;
    }

    method StatsTxStart(n: int, c: int)
      modifies this
      ensures State() == TxStart(old(State()), n, c)
    {
      if c !in channels {
        channels := channels[c := ChannelStats(0, 0, 0, {})];
      }
      var cs := channels[c];
      if n !in cs.transmitters {
        radioChannel := radioChannel[n := c];
      }
      if cs.transmitters == {} {
        cs := cs.(txStartTime := ts);
      }
      cs := cs.(transmitters := cs.transmitters + {n}, numFrames := cs.numFrames + 1);
      channels := channels[c := cs];
    }

    method StatsTxStop(n: int, c: int)
      requires c in channels && channels[c].transmitters != {}
      modifies this
      ensures State() == TxStop(old(State()), n, c)
    {
      var cs := channels[c].(transmitters := channels[c].transmitters - {n});
      if cs.transmitters == {} {
        var txDur := ts - cs.txStartTime;
        cs := cs.(txTimeUs := cs.txTimeUs + txDur);
      }
      channels := channels[c := cs];
    }

    method StatsDeleteNode(n: int)
      requires n in radioChannel
      modifies this
      ensures State() == DeleteNode(old(State()), n)
    {
      var c := radioChannel[n];
      radioChannel := radioChannel - {n};
      if c in channels {
        if channels[c].transmitters == {} {
          return;
        }
        var cs := channels[c].(transmitters := channels[c].transmitters - {n});
        if cs.transmitters == {} {
          var txDur := ts - cs.txStartTime;
          cs := cs.(txTimeUs := cs.txTimeUs + txDur);
        }
        channels := channels[c := cs];
      }
    }

    method GetChannelStats(c: int) returns (found: bool, stats: ChannelStats)
      modifies this
      ensures State() == Read(old(State()), c)
      ensures found <==> c in old(channels)
      ensures found ==> stats == channels[c]
    {
      found, stats := c in channels, ChannelStats(0, 0, 0, {});
      if found {
        stats := channels[c];
        if stats.transmitters != {} && ts > stats.txStartTime {
          stats := stats.(txTimeUs := stats.txTimeUs + (ts - stats.txStartTime), txStartTime := ts);
          channels := channels[c := stats];
        }
      }
    }

    method ResetChannelStats(c: int)
      modifies this
      ensures State() == Reset(old(State()), c)
    {
      channels := channels - {c};
    }
  }
}
