/** One simulated instant finishes within every run of dispatcher and nodes. */
module InstantRuns {
  import opened SimTypes
  import opened Dispatcher
  import opened Causality
  import opened LockStep
  import Instant

  /** While the dispatcher processes an instant, each of its steps leaves less work, and the
      steps of the nodes leave it as it is. */
  lemma ProcessingShrinks(w: World, step: Step)
    requires LockStep.Inv(w) && Allowed(w, step) && w.mode == Processing && w.d.curTime < EVER
    ensures step.FiresAlarm? || step.TakesEvent? ==> Instant.Work(Next(w, step).d) < Instant.Work(w.d)
    ensures !step.FiresAlarm? && !step.TakesEvent? ==> Instant.Work(Next(w, step).d) == Instant.Work(w.d)
    ensures Next(w, step).d.curTime == w.d.curTime
  {
    if step.FiresAlarm? {
      Instant.AlarmWork(w.d, step.n, step.ch);
      hide FailuresAdvanced;
    } else if step.TakesEvent? {
      Instant.EventWork(w.d, step.e, step.ch);
      ProcessEventKeepsTime(Instant.Popped(w.d, step.e), step.e, step.ch);
    } else {
      assert Instant.DueAlarms(Next(w, step).d) == Instant.DueAlarms(w.d);
    }
  }

  /** The alarms and events processed in steps i to j. */
  ghost function Processed(steps: seq<Step>, i: nat, j: nat): nat
    requires i <= j <= |steps|
    decreases j - i
  {
    if i == j then 0
    else Processed(steps, i, j - 1) + if steps[j - 1].FiresAlarm? || steps[j - 1].TakesEvent? then 1 else 0
  }

  /** No instant before the end of time takes more steps than the work it begins with. */
  lemma {:induction false} InstantIsBounded(ws: seq<World>, steps: seq<Step>, i: nat, j: nat)
    requires IsRun(ws, steps) && i <= j <= |steps| && ws[i].d.curTime < EVER
    requires forall k :: i <= k < j ==> ws[k].mode == Processing
    ensures Processed(steps, i, j) + Instant.Work(ws[j].d) <= Instant.Work(ws[i].d)
    ensures ws[j].d.curTime == ws[i].d.curTime
    decreases j - i
  {
    hide Takes, Instant.Work, Next, Allowed, LockStep.Inv;
    if i < j {
      InstantIsBounded(ws, steps, i, j - 1);
      RunKeeps(ws, steps, j - 1);
      ProcessingShrinks(ws[j - 1], steps[j - 1]);
    }
  }

  /** And until nothing is due there is always a next step. */
  lemma InstantGoesOn(w: World)
    requires LockStep.Inv(w) && w.mode == Processing && w.d.curTime < EVER && !QuietUntil(w.d, w.d.curTime)
    ensures exists step :: Allowed(w, step) && (step.FiresAlarm? || step.TakesEvent?)
  {
    var d := w.d;
    var ch := Choice({}, {}, false, false, 0, {});
    assert NothingBefore(d, d.curTime) by {
      forall n | n in d.alarms ensures d.curTime <= d.alarms[n] {
        assert AlarmAhead(d, n);
      }
    }
    if n :| n in d.alarms && d.alarms[n] < d.curTime + 1 {
      assert Allowed(w, FiresAlarm(n, ch));
    } else {
      var e :| e in d.queue && e.timestamp < d.curTime + 1;
      assert Allowed(w, TakesEvent(e, ch));
    }
  }

  // ---------- the end of time ----------

  lemma StuckStepAtEver(w: World, step: Step, n: int)
    requires LockStep.Inv(w) && Allowed(w, step) && w.mode == Processing && w.d.curTime == EVER
    requires n in w.d.alarms && w.d.alarms[n] == EVER
    ensures Next(w, step).mode == Processing && Next(w, step).d.curTime == EVER
    ensures n in Next(w, step).d.alarms && Next(w, step).d.alarms[n] == EVER
  {
    hide Links, AdvanceNode, ProcessEvent, Read, QueueAhead, AlarmAhead, NodeTimes;
    if step.FiresAlarm? {
      Instant.AdvanceNodeOnlyClears(w.d, step.n, w.d.alarms[step.n], false, step.ch);
    } else if step.TakesEvent? {
      PopKeeps(w.d, step.e);
      Instant.ProcessEventOnlyClears(Instant.Popped(w.d, step.e), step.e, step.ch);
    }
  }

  /** An instant at Ever in which some node's alarm is cleared never ends: the cleared alarm is
      due, and stays so whatever is processed. */
  lemma {:induction false} InstantAtEverNeverEnds(ws: seq<World>, steps: seq<Step>, i: nat, j: nat, n: int)
    requires IsRun(ws, steps) && i <= j < |ws| && ws[i].mode == Processing && ws[i].d.curTime == EVER
    requires n in ws[i].d.alarms && ws[i].d.alarms[n] == EVER
    ensures ws[j].mode == Processing && ws[j].d.curTime == EVER
    ensures n in ws[j].d.alarms && ws[j].d.alarms[n] == EVER
    ensures j < |steps| ==> !steps[j].EndsInstant?
    decreases j - i
  {
    hide Takes, Next, LockStep.Inv;
    if i < j {
      InstantAtEverNeverEnds(ws, steps, i, j - 1, n);
      RunKeeps(ws, steps, j - 1);
      StuckStepAtEver(ws[j - 1], steps[j - 1], n);
    }
    if j < |steps| {
      RunKeeps(ws, steps, j);
    }
  }
}
