/** Scheduled radio failures of a node (FailureCtrl.go): once per interval the radio fails for
    a fixed duration, starting at a random offset. */
module FailureCtrl {
  import opened SimTypes

  /** The controller's fields together with the radio's failed flag, which it alone changes
      while a schedule is set. A duration of 0 means that there is no schedule. */
  datatype Schedule = Schedule(duration: nat, interval: nat, recoverTs: nat, failTs: nat,
                               remainTm: nat, prevOp: nat, failed: bool)
  {
    predicate CanFail() { duration > 0 }

    /** The offsets the random generator can choose from. */
    predicate Offset(rel: nat) { CanFail() ==> duration < interval && rel < interval - duration }

    /** The two assertions that OnTimeAdvanced makes before anything else. */
    predicate AssertionsHold() {
      CanFail() ==> if failed then failTs == 0 else recoverTs == 0
    }

    /** What SetFailTime establishes on a working radio and every later step keeps. */
    ghost predicate Consistent() {
      CanFail() ==> AssertionsHold() && duration < interval && remainTm > 0
    }
  }

  const NoSchedule := Schedule(0, 0, 0, 0, 0, 0, false)

  function NextFailure(s: Schedule, now: nat, rel: nat): Schedule
    requires s.CanFail() && s.Offset(rel)
  {
    s.(failTs := rel + now + s.remainTm, remainTm := s.interval - s.duration - rel)
  }

  function WithFailTime(s: Schedule, now: nat, duration: nat, interval: nat, rel: nat): Schedule
    requires s.(duration := duration, interval := interval).Offset(rel)
  {
    var s' := s.(duration := duration, interval := interval, recoverTs := 0, failTs := 0, remainTm := 0,
                 failed := s.failed && duration > 0);
    if s'.CanFail() then NextFailure(s', now, rel) else s'
  }

  /** The schedule after node time advanced to now, the time of the next operation, and
      whether that time has moved further into the future. */
  function Advanced(s: Schedule, now: nat, rel: nat): (r: (Schedule, nat, bool))
    requires s.Offset(rel)
  {
    if !s.CanFail() then (s, EVER, false)
    else if s.failed then
      if now >= s.recoverTs then
        var s' := NextFailure(s.(recoverTs := 0), now, rel).(failed := false);
        (s'.(prevOp := s'.failTs), s'.failTs, true)
      else (s.(prevOp := s.recoverTs), s.recoverTs, s.recoverTs > s.prevOp)
    else
      if now >= s.failTs then
        var t := now + s.duration;
        (s.(recoverTs := t, failTs := 0, failed := true, prevOp := t), t, true)
      else (s.(prevOp := s.failTs), s.failTs, s.failTs > s.prevOp)
  }

  // ---------- the controller object ----------

  class Node {
    var curTime: nat
    var isFailed: bool
  }

  class Controller {
    const owner: Node
    var duration: nat
    var interval: nat
    var recoverTs: nat
    var failTs: nat
    var remainTm: nat
    var prevOpTimestamp: nat

    ghost function State(): Schedule reads this, owner {
      Schedule(duration, interval, recoverTs, failTs, remainTm, prevOpTimestamp, owner.isFailed)
    }

    constructor (owner: Node)
      ensures this.owner == owner
      ensures State() == NoSchedule.(failed := owner.isFailed)
    {
      this.owner := owner;
      duration, interval, recoverTs, failTs, remainTm, prevOpTimestamp := 0, 0, 0, 0, 0, 0;
    }

    method SetFailTime(failDuration: nat, failInterval: nat, rel: nat)
      requires State().(duration := failDuration, interval := failInterval).Offset(rel)
      modifies this, owner`isFailed
      ensures State() == WithFailTime(old(State()), owner.curTime, failDuration, failInterval, rel)
    {
      duration, interval := failDuration, failInterval;
      recoverTs := 0;
      failTs := 0;
      remainTm := 0;
      if failDuration == 0 && owner.isFailed {
        owner.isFailed := false;
      }
      CalcNextFailTimestamp(rel);
    }

    method CalcNextFailTimestamp(rel: nat)
      requires State().Offset(rel)
      modifies this`failTs, this`remainTm
      ensures State() == if duration > 0 then NextFailure(old(State()), owner.curTime, rel) else old(State())
    {
      if duration == 0 {
        return;
      }
      failTs := rel + owner.curTime + remainTm;
      remainTm := interval - duration - rel;
    }

    method OnTimeAdvanced(oldTime: nat, rel: nat) returns (ts: nat, isUpdated: bool)
      requires State().Offset(rel) && State().AssertionsHold()
      requires duration > 0 ==> oldTime < owner.curTime
      modifies this`recoverTs, this`failTs, this`remainTm, this`prevOpTimestamp, owner`isFailed
      ensures (State(), ts, isUpdated) == Advanced(old(State()), owner.curTime, rel)
    {
      isUpdated := false;
      if duration == 0 {
        return EVER, isUpdated;
      }
      if owner.isFailed {
        assert failTs == 0;
        if owner.curTime >= recoverTs {
          recoverTs := 0;
          CalcNextFailTimestamp(rel);
          owner.isFailed := false;
          prevOpTimestamp := failTs;
          return failTs, true;
        }
        isUpdated := recoverTs > prevOpTimestamp;
        prevOpTimestamp := recoverTs;
        return recoverTs, isUpdated;
      }
      assert recoverTs == 0;
      if owner.curTime >= failTs {
        recoverTs := owner.curTime + duration;
        failTs := 0;
        owner.isFailed := true;
        prevOpTimestamp := recoverTs;
        return recoverTs, true;
      }
      isUpdated := failTs > prevOpTimestamp;
      prevOpTimestamp := failTs;
      return failTs, isUpdated;
    }
  }

  // ---------- the assertions ----------

  /** Setting a schedule leaves the controller's own assertions true exactly when the radio
      works, or the schedule is set at time 0 with offset 0. A radio switched off by hand and
      then given a schedule violates them at its next step. */
  lemma ScheduleOnWorkingRadio(s: Schedule, now: nat, duration: nat, interval: nat, rel: nat)
    requires 0 < duration < interval && rel < interval - duration
    ensures var s' := WithFailTime(s, now, duration, interval, rel);
            s'.AssertionsHold() <==> !s.failed || now + rel == 0
    ensures !s.failed ==> WithFailTime(s, now, duration, interval, rel).Consistent()
  {
  }

  /** Clearing the schedule leaves a working radio that never fails and asks for no wake-up. */
  lemma ClearedScheduleWorks(s: Schedule, now: nat, later: nat, interval: nat, rel: nat)
    ensures var s' := WithFailTime(s, now, 0, interval, rel);
            !s'.failed && Advanced(s', later, rel) == (s', EVER, false)
  {
  }

  /** From then on the assertions hold after every step, and a new wake-up always lies in the
      future. */
  lemma AdvancedStaysConsistent(s: Schedule, now: nat, rel: nat)
    requires s.Consistent() && s.Offset(rel)
    ensures Advanced(s, now, rel).0.Consistent()
    ensures Advanced(s, now, rel).2 ==> Advanced(s, now, rel).1 > now
  {
  }

  // ---------- whole runs ----------

  /** A node with a schedule, the wake-ups queued for it, and the failures so far. */
  datatype World = World(s: Schedule, now: nat, wakes: set<nat>, starts: seq<nat>, ends: seq<nat>)

  /** One advance of the node's time. The dispatcher never passes over a queued wake-up
      (WakeUps.NotPassedOver). */
  datatype Advance = Advance(to: nat, rel: nat)

  predicate Legal(w: World, a: Advance) {
    w.now < a.to && w.s.Offset(a.rel) && forall t :: t in w.wakes ==> !(w.now < t < a.to)
  }

  function Run1(w: World, a: Advance): World
    requires Legal(w, a)
  {
    var (s', ts, isUpdated) := Advanced(w.s, a.to, a.rel);
    World(s', a.to, if isUpdated then w.wakes + {ts} else w.wakes,
          if s'.failed && !w.s.failed then w.starts + [a.to] else w.starts,
          if w.s.failed && !s'.failed then w.ends + [a.to] else w.ends)
  }

  ghost predicate IsRun(ws: seq<World>, advances: seq<Advance>) {
    |ws| == |advances| + 1 &&
    forall k :: 0 <= k < |advances| ==> Legal(ws[k], advances[k]) && ws[k + 1] == Run1(ws[k], advances[k])
  }

  /** A schedule was just set on a working radio. */
  function Begin(s: Schedule, now: nat, duration: nat, interval: nat, rel: nat, wakes: set<nat>): World
    requires 0 < duration < interval && rel < interval - duration
  {
    World(WithFailTime(s, now, duration, interval, rel), now, wakes, [], [])
  }

  /** Where the k-th interval after the anchor begins. */
  ghost function Boundary(anchor: int, interval: nat, k: nat): int {
    anchor + k * interval
  }

  lemma NextBoundary(anchor: int, interval: nat, k: nat)
    ensures Boundary(anchor, interval, k + 1) == Boundary(anchor, interval, k) + interval
    ensures Boundary(anchor, interval, 0) == anchor
  {
  }

  /** The k-th failure lies in the k-th interval after the anchor. */
  ghost predicate InItsInterval(w: World, anchor: int, k: nat)
    requires k < |w.starts|
  {
    Boundary(anchor, w.s.interval, k) <= w.starts[k] &&
    w.starts[k] + w.s.duration < Boundary(anchor, w.s.interval, k + 1)
  }

  /** Once the first failure has happened: all failures are where they belong, and the next
      operation is exactly placed and has a wake-up queued. */
  ghost predicate OnSchedule(w: World, anchor: int) {
    var n := |w.starts|;
    w.s.CanFail() && w.s.Consistent() && n > 0 &&
    (forall k :: 0 <= k < n ==> InItsInterval(w, anchor, k)) &&
    |w.ends| == (if w.s.failed then n - 1 else n) &&
    (forall k :: 0 <= k < |w.ends| ==> w.ends[k] == w.starts[k] + w.s.duration) &&
    if w.s.failed then
      w.now < w.s.recoverTs && w.s.recoverTs in w.wakes &&
      w.s.recoverTs == w.starts[n - 1] + w.s.duration &&
      w.s.recoverTs + w.s.remainTm == Boundary(anchor, w.s.interval, n)
    else
      w.now < w.s.failTs && w.s.failTs in w.wakes &&
      w.s.failTs + w.s.duration + w.s.remainTm == Boundary(anchor, w.s.interval, n + 1) &&
      w.s.failTs >= Boundary(anchor, w.s.interval, n)
  }

  lemma StaysOnSchedule(w: World, a: Advance, anchor: int)
    requires OnSchedule(w, anchor) && Legal(w, a)
    ensures OnSchedule(Run1(w, a), anchor)
  {
    hide Boundary;
    var w' := Run1(w, a);
    var n := |w.starts|;
    NextBoundary(anchor, w.s.interval, n);
    NextBoundary(anchor, w.s.interval, n + 1);
    forall k | 0 <= k < |w'.starts| ensures InItsInterval(w', anchor, k) {
      if k < n {
        assert InItsInterval(w, anchor, k);
      }
    }
  }

  /** Before the first failure: the controller waits, and knows a wake-up once it has seen
      an advance and was not misled by an older, later operation. */
  ghost predicate Waiting(w: World, t0: nat, duration: nat, interval: nat, rel: nat) {
    w.starts == [] && w.ends == [] && !w.s.failed && w.s.Consistent() &&
    w.s.duration == duration && w.s.interval == interval && duration > 0 &&
    w.s.failTs == t0 + rel && w.s.remainTm == interval - duration - rel && rel < interval - duration
  }

  /** The first failure starts at the first advance that reaches the chosen instant, and the
      whole schedule is anchored by how late that was. */
  lemma FirstFailure(w: World, a: Advance, t0: nat, duration: nat, interval: nat, rel: nat)
    requires Waiting(w, t0, duration, interval, rel) && Legal(w, a)
    ensures a.to < t0 + rel ==> Waiting(Run1(w, a), t0, duration, interval, rel)
    ensures a.to >= t0 + rel ==> OnSchedule(Run1(w, a), a.to - rel)
    ensures a.to < t0 + rel ==> (t0 + rel in Run1(w, a).wakes <==> t0 + rel in w.wakes || t0 + rel > w.s.prevOp)
  {
    hide Boundary;
    if a.to >= t0 + rel {
      var w' := Run1(w, a);
      NextBoundary(a.to - rel, interval, 0);
      assert InItsInterval(w', a.to - rel, 0);
    }
  }

  /** One failure per interval: in every run from a schedule set at t0 on a working radio, at
      every moment, either no failure was due yet, or the k-th failure lasts exactly the
      duration and lies wholly inside the k-th interval after an anchor fixed by the first. */
  lemma {:induction false} OneFailurePerInterval(ws: seq<World>, advances: seq<Advance>, s: Schedule, t0: nat,
                                                 duration: nat, interval: nat, rel: nat, wakes: set<nat>, k: nat)
    requires 0 < duration < interval && rel < interval - duration && !s.failed
    requires IsRun(ws, advances) && ws[0] == Begin(s, t0, duration, interval, rel, wakes)
    requires k < |ws|
    ensures ws[k].starts == [] ==> Waiting(ws[k], t0, duration, interval, rel)
    ensures ws[k].starts != [] ==> ws[k].starts[0] >= t0 + rel && OnSchedule(ws[k], ws[k].starts[0] - rel)
    ensures ws[k].s.duration == duration && ws[k].s.interval == interval
  {
    hide Boundary, InItsInterval;
    if k > 0 {
      OneFailurePerInterval(ws, advances, s, t0, duration, interval, rel, wakes, k - 1);
      var w, a := ws[k - 1], advances[k - 1];
      if w.starts == [] {
        FirstFailure(w, a, t0, duration, interval, rel);
      } else {
        StaysOnSchedule(w, a, w.starts[0] - rel);
      }
    }
  }

  ghost predicate RanAt(advances: seq<Advance>, k: nat, t: nat)
    requires k <= |advances|
  {
    exists i :: 0 <= i < k && advances[i].to == t
  }

  /** The anchor is the instant the schedule was set exactly when the node is run at the first
      chosen instant; a node run only later shifts the whole schedule. */
  lemma {:induction false} AnchorIsSetTime(ws: seq<World>, advances: seq<Advance>, s: Schedule, t0: nat,
                                           duration: nat, interval: nat, rel: nat, wakes: set<nat>, k: nat)
    requires 0 < duration < interval && rel < interval - duration && !s.failed
    requires IsRun(ws, advances) && ws[0] == Begin(s, t0, duration, interval, rel, wakes)
    requires k < |ws|
    ensures ws[k].now >= t0
    ensures ws[k].starts == [] ==> !RanAt(advances, k, t0 + rel) && (k == 0 || ws[k].now < t0 + rel)
    ensures ws[k].starts != [] ==> ws[k].now >= ws[k].starts[0] > t0
    ensures ws[k].starts != [] ==> (ws[k].starts[0] == t0 + rel <==> RanAt(advances, k, t0 + rel))
  {
    if k > 0 {
      AnchorIsSetTime(ws, advances, s, t0, duration, interval, rel, wakes, k - 1);
      OneFailurePerInterval(ws, advances, s, t0, duration, interval, rel, wakes, k - 1);
      var w, a := ws[k - 1], advances[k - 1];
      assert RanAt(advances, k, t0 + rel) <==> RanAt(advances, k - 1, t0 + rel) || a.to == t0 + rel;
      if w.starts == [] {
        FirstFailure(w, a, t0, duration, interval, rel);
      }
    }
  }

  /** That is guaranteed when the node is run once before that instant and no older schedule
      had announced a later operation, for then a wake-up is queued and not passed over. */
  lemma {:induction false} FreshScheduleIsPunctual(ws: seq<World>, advances: seq<Advance>, s: Schedule, t0: nat,
                                                   duration: nat, interval: nat, rel: nat, wakes: set<nat>, k: nat)
    requires 0 < duration < interval && rel < interval - duration && !s.failed
    requires IsRun(ws, advances) && ws[0] == Begin(s, t0, duration, interval, rel, wakes)
    requires 0 < k < |ws|
    requires advances[0].to <= t0 + rel && s.prevOp < t0 + rel
    ensures ws[k].starts == [] ==> t0 + rel in ws[k].wakes && ws[k].now < t0 + rel
    ensures ws[k].starts != [] ==> ws[k].starts[0] == t0 + rel
  {
    OneFailurePerInterval(ws, advances, s, t0, duration, interval, rel, wakes, k - 1);
    var w, a := ws[k - 1], advances[k - 1];
    if w.starts == [] {
      FirstFailure(w, a, t0, duration, interval, rel);
    }
    if k > 1 {
      FreshScheduleIsPunctual(ws, advances, s, t0, duration, interval, rel, wakes, k - 1);
    }
  }

  /** The older announcement matters: with one at or after the first chosen instant, the first
      advance before that instant queues no wake-up for it. */
  lemma StaleAnnouncementLosesWake(s: Schedule, t0: nat, duration: nat, interval: nat, rel: nat, a: Advance)
    requires 0 < duration < interval && rel < interval - duration && !s.failed
    requires t0 < a.to < t0 + rel && a.rel < interval - duration
    ensures var w := Run1(Begin(s, t0, duration, interval, rel, {}), a);
            w.wakes == {} <==> t0 + rel <= s.prevOp
  {
    var w := Begin(s, t0, duration, interval, rel, {});
    assert t0 + rel in Run1(w, a).wakes <==> t0 + rel > s.prevOp;
  }
}
