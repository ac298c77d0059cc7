/** The node's microsecond clock and alarm timers (alarm.c). The clock drifts by a number of
    parts per million; the part of a microsecond it owes is carried in picoseconds. */
module DriftClock {
  import opened SimTypes

  const PS_PER_US := 1_000_000
  const US_PER_MS := 1000
  const INT64_MAX := 0x7fff_ffff_ffff_ffff

  type Ppm = x: int | -0x8000 <= x < 0x8000

  datatype ClockState = ClockState(now: int, ppm: Ppm, residual: int) {
    ghost predicate Valid() {
      0 <= now && -PS_PER_US < residual < PS_PER_US
    }

    /** Node time in picoseconds, including what is still owed. */
    ghost function Exact(): int { now * PS_PER_US + residual }
  }

  datatype Action = Advance(delta: nat) | SetDrift(ppm: Ppm)

  const Initial := ClockState(0, 0, 0)

  /** C division of integers, which truncates toward zero. */
  function TruncDiv(a: int): int {
    if a >= 0 then a / PS_PER_US else -(-a / PS_PER_US)
  }

  /** The clock delta microseconds of simulated time later. */
  function After(c: ClockState, delta: nat): ClockState {
    Carried(c, delta, c.ppm * delta)
  }

  /** Adds delta and the drift of the interval, and carries whole microseconds of it over. */
  function Carried(c: ClockState, delta: nat, drift: int): ClockState {
    var owed := c.residual + drift;
    ClockState(c.now + delta + TruncDiv(owed), c.ppm, owed - TruncDiv(owed) * PS_PER_US)
  }

  function Act(c: ClockState, a: Action): ClockState {
    match a
    case Advance(delta) => After(c, delta)
    case SetDrift(ppm) => c.(ppm := ppm)
  }

  function Run(c: ClockState, actions: seq<Action>): ClockState
    decreases |actions|
  {
    if actions == [] then c else Run(Act(c, actions[0]), actions[1..])
  }

  // ---------- one advance ----------

  lemma TruncDivBounds(a: int)
    ensures -PS_PER_US < a - TruncDiv(a) * PS_PER_US < PS_PER_US
    ensures a >= 0 ==> a - TruncDiv(a) * PS_PER_US >= 0
    ensures a <= 0 ==> a - TruncDiv(a) * PS_PER_US <= 0
  {
  }

  /** An advance accounts for exactly delta * (10^6 + ppm) picoseconds and never moves the
      clock backward, whatever is still owed. */
  lemma AfterIsExact(c: ClockState, delta: nat)
    requires c.Valid()
    ensures After(c, delta).Valid()
    ensures After(c, delta).Exact() == c.Exact() + delta * (PS_PER_US + c.ppm)
    ensures After(c, delta).now >= c.now
    ensures c.ppm == 0 ==> After(c, delta) == c.(now := c.now + delta)
  {
    assert delta * (PS_PER_US + c.ppm) == delta * PS_PER_US + c.ppm * delta;
    assert c.ppm * delta >= -0x8000 * delta;
    CarriedIsExact(c, delta, c.ppm * delta);
  }

  lemma CarriedIsExact(c: ClockState, delta: nat, drift: int)
    requires c.Valid() && drift >= -0x8000 * delta
    ensures Carried(c, delta, drift).Valid()
    ensures Carried(c, delta, drift).Exact() == c.Exact() + delta * PS_PER_US + drift
    ensures Carried(c, delta, drift).now >= c.now
    ensures drift == 0 ==> Carried(c, delta, drift) == c.(now := c.now + delta)
  {
    TruncDivBounds(c.residual + drift);
    CarryIsSmall(c.residual + drift, delta);
  }

  lemma CarryIsSmall(owed: int, delta: nat)
    requires owed > -PS_PER_US - 0x8000 * delta
    ensures delta > 0 ==> TruncDiv(owed) + delta >= 0
    ensures delta == 0 ==> TruncDiv(owed) >= 0
  {
  }

  // ---------- whole runs ----------

  /** The picoseconds a run of actions is worth, advance by advance. */
  ghost function Worth(ppm: Ppm, actions: seq<Action>): int
    decreases |actions|
  {
    if actions == [] then 0
    else match actions[0]
         case Advance(delta) => delta * (PS_PER_US + ppm) + Worth(ppm, actions[1..])
         case SetDrift(ppm') => Worth(ppm', actions[1..])
  }

  /** Over any run, with the drift changed at will, clock and residual together equal the sum
      of the drifted deltas, the residual stays below a microsecond, and time never reverses. */
  lemma {:induction false} RunIsExact(c: ClockState, actions: seq<Action>)
    requires c.Valid()
    ensures Run(c, actions).Valid()
    ensures Run(c, actions).Exact() == c.Exact() + Worth(c.ppm, actions)
    ensures Run(c, actions).now >= c.now
    decreases |actions|
  {
    if actions != [] {
      var c' := Act(c, actions[0]);
      if actions[0].Advance? {
        AfterIsExact(c, actions[0].delta);
      }
      RunIsExact(c', actions[1..]);
    }
  }

  ghost function Sum(deltas: seq<nat>): nat {
    if deltas == [] then 0 else deltas[0] + Sum(deltas[1..])
  }

  ghost function Advances(deltas: seq<nat>): seq<Action> {
    seq(|deltas|, i requires 0 <= i < |deltas| => Advance(deltas[i]))
  }

  /** Two carries in the same direction add up to one. */
  lemma CarriesAdd(r: int, a: int, b: int)
    requires -PS_PER_US < r < PS_PER_US
    requires (a >= 0 && b >= 0) || (a <= 0 && b <= 0)
    ensures TruncDiv(r + a) + TruncDiv(r + a - TruncDiv(r + a) * PS_PER_US + b) == TruncDiv(r + a + b)
  {
    if a <= 0 && b <= 0 {
      CarriesAddUp(-r, -a, -b);
    } else {
      CarriesAddUp(r, a, b);
    }
  }

  lemma CarriesAddUp(r: int, a: int, b: int)
    requires -PS_PER_US < r < PS_PER_US
    requires a >= 0 && b >= 0
    ensures TruncDiv(r + a) + TruncDiv(r + a - TruncDiv(r + a) * PS_PER_US + b) == TruncDiv(r + a + b)
  {
    if r + a >= 0 {
      var k := TruncDiv(r + a);
      var rest := r + a - k * PS_PER_US;
      assert 0 <= rest < PS_PER_US;
      assert (k * PS_PER_US + (rest + b)) / PS_PER_US == k + (rest + b) / PS_PER_US;
    }
  }

  lemma CarriedTwice(c: ClockState, d: nat, e: nat, x: int, y: int)
    requires c.Valid()
    requires (x >= 0 && y >= 0) || (x <= 0 && y <= 0)
    ensures Carried(Carried(c, d, x), e, y) == Carried(c, d + e, x + y)
  {
    CarriesAdd(c.residual, x, y);
  }

  lemma Products(p: int, d: nat, e: nat)
    ensures p * (d + e) == p * d + p * e
    ensures p >= 0 ==> p * d >= 0 && p * e >= 0
    ensures p <= 0 ==> p * d <= 0 && p * e <= 0
  {
  }

  lemma TwoAdvances(c: ClockState, d: nat, e: nat)
    requires c.Valid()
    ensures After(After(c, d), e) == After(c, d + e)
  {
    var x, y := c.ppm * d, c.ppm * e;
    Products(c.ppm, d, e);
    CarriedTwice(c, d, e, x, y);
  }

  /** Under a constant drift the clock depends on the elapsed time only, not on how the
      simulator split it into advances, whatever residual an earlier drift left behind. */
  lemma {:induction false} SplitIndependent(c: ClockState, deltas: seq<nat>)
    requires c.Valid()
    ensures Run(c, Advances(deltas)) == After(c, Sum(deltas))
    decreases |deltas|
  {
    if deltas == [] {
      TruncDivBounds(c.residual);
      assert Advances(deltas) == [];
    } else {
      assert Advances(deltas)[1..] == Advances(deltas[1..]);
      AfterIsExact(c, deltas[0]);
      SplitIndependent(After(c, deltas[0]), deltas[1..]);
      TwoAdvances(c, deltas[0], Sum(deltas[1..]));
    }
  }

  // ---------- the clock and timer object ----------

  /** The C conversion of an unsigned 32-bit difference to int32_t. */
  function SignedDiff(a: Word32, b: Word32): int {
    var d := (a - b) % 0x1_0000_0000;
    if d < 0x8000_0000 then d else d - 0x1_0000_0000
  }

  function MilliAt(now: nat): Word32 { now / US_PER_MS % 0x1_0000_0000 }

  function MicroAt(now: nat): Word32 { now % 0x1_0000_0000 }

  class Alarm {
    var now: nat
    var ppm: Ppm
    var residual: int
    var msRunning: bool
    var msAlarm: Word32
    var usRunning: bool
    var usAlarm: Word32

    ghost predicate Valid() reads this {
      State().Valid()
    }

    ghost function State(): ClockState reads this {
      ClockState(now, ppm, residual)
    }

    constructor ()
      ensures Valid() && State() == Initial && !msRunning && !usRunning
    {
      now, ppm, residual := 0, 0, 0;
      msRunning, msAlarm, usRunning, usAlarm := false, 0, false, 0;
    }

    method AdvanceNow(delta: nat)
      requires Valid()
      modifies this`now, this`residual
      ensures Valid() && State() == After(old(State()), delta)
    {
      AfterIsExact(State(), delta);
      var t := now + delta;
      residual := residual + ppm * delta;
      if residual >= PS_PER_US || residual <= -PS_PER_US {
        var adjust := TruncDiv(residual);
        t := t + adjust;
        residual := residual - adjust * PS_PER_US;
      }
      now := t;
    }

    method SetClockDrift(drift: Ppm)
      requires Valid()
      modifies this`ppm
      ensures Valid() && State() == old(State()).(ppm := drift)
    {
      ppm := drift;
    }

    method MilliStartAt(t0: Word32, dt: Word32)
      modifies this`msAlarm, this`msRunning
      ensures msRunning && msAlarm == (t0 + dt) % 0x1_0000_0000
    {
      msAlarm := (t0 + dt) % 0x1_0000_0000;
      msRunning := true;
    }

    method MicroStartAt(t0: Word32, dt: Word32)
      modifies this`usAlarm, this`usRunning
      ensures usRunning && usAlarm == (t0 + dt) % 0x1_0000_0000
    {
      usAlarm := (t0 + dt) % 0x1_0000_0000;
      usRunning := true;
    }

    /** Whether platformAlarmProcess would fire one of the timers at clock value t. */
    predicate DueAt(t: nat) reads this {
      (msRunning && SignedDiff(msAlarm, MilliAt(t)) <= 0) ||
      (usRunning && SignedDiff(usAlarm, MicroAt(t)) <= 0)
    }

    /** The delay the node asks for when it goes to sleep (platformAlarmGetNext). */
    function GetNext(): nat reads this {
      var milli := SignedDiff(msAlarm, MilliAt(now));
      var afterMs := if msRunning then (if milli < 0 then 0 else milli * US_PER_MS) else INT64_MAX;
      var micro := SignedDiff(usAlarm, MicroAt(now));
      if usRunning then
        if micro < 0 then 0 else if afterMs > micro then micro else afterMs
      else afterMs
    }

    /** Sleeping for the requested delay is always long enough: a timer is then due. */
    lemma SleepReachesATimer()
      requires GetNext() > 0 && (msRunning || usRunning)
      ensures DueAt(now + GetNext())
    {
      var d := GetNext();
      if usRunning && d == SignedDiff(usAlarm, MicroAt(now)) {
        MicroDue(usAlarm, now, d);
      } else {
        MilliDue(msAlarm, now, d);
      }
    }

    /** A microsecond timer alone is due at the requested instant and at none before it. */
    lemma MicroTimerIsExact(delta: nat)
      requires usRunning && !msRunning && 0 < GetNext() && delta <= GetNext()
      ensures DueAt(now + delta) <==> delta == GetNext()
    {
      MicroDue(usAlarm, now, delta);
    }

    /** A millisecond timer alone is due earlier than the requested instant by the
        microseconds already spent in the current millisecond, because GetNext does not
        subtract them: the node oversleeps it by exactly now % 1000. */
    lemma MilliTimerIsLate(delta: nat)
      requires msRunning && !usRunning && 0 < GetNext() && delta <= GetNext()
      ensures DueAt(now + delta) <==> delta >= GetNext() - now % US_PER_MS
    {
      MilliDue(msAlarm, now, delta);
    }
  }

  lemma MicroDue(alarm: Word32, now: nat, delta: nat)
    requires 0 <= delta <= SignedDiff(alarm, MicroAt(now))
    ensures SignedDiff(alarm, MicroAt(now + delta)) == SignedDiff(alarm, MicroAt(now)) - delta
  {
  }

  lemma MilliDue(alarm: Word32, now: nat, delta: nat)
    requires 0 < SignedDiff(alarm, MilliAt(now))
    requires delta <= SignedDiff(alarm, MilliAt(now)) * US_PER_MS
    ensures SignedDiff(alarm, MilliAt(now + delta)) <= 0 <==>
            delta >= SignedDiff(alarm, MilliAt(now)) * US_PER_MS - now % US_PER_MS
  {
    var m := now / US_PER_MS;
    var k := (now + delta) / US_PER_MS - m;
    var diff := SignedDiff(alarm, MilliAt(now));
    assert k >= diff <==> now % US_PER_MS + delta >= diff * US_PER_MS;
    MicroDue(alarm, m, k);
  }
}
