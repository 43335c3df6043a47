/**
 * What a caller asks of the binding manager's worker is not lost: a first
 * listener's wake leaves no entry dormant, and a change of a fabric's keys is
 * rechecked though its calls coalesce (binding/manager.go, binding/resolve.go).
 */
module BindingWakes {
  import opened Bytes
  import opened BindingRecords
  import opened BindingManager
  import opened BindingLaws

  // ---- the wake

  predicate NoneDormant(rs: Records) {
    forall source :: source in rs ==> rs[source].dormant == map[]
  }

  /** A wake is on its way, or there is nothing to wake. */
  predicate WakeDue(s: State) {
    WakeTask in s.queue || NoneDormant(s.records)
  }

  lemma TaskWakes(s: State, t: Task, ans: Answers)
    requires s.worker.Idle? && TaskAnswered(s, t, ans) && (t == WakeTask || NoneDormant(s.records))
    ensures NoneDormant(WorkTask(s, t, ans).records)
  {
    if t.UnregisterTask? { UnregisterWakes(s, t.slot); }
  }

  lemma UnregisterWakes(s: State, t: Slot)
    requires NoneDormant(s.records)
    ensures NoneDormant(DoUnregister(s, t).records)
  {
    var rs := DoUnregister(s, t).records;
    assert rs == s.records || rs == ClearPending(s.records, t) || rs == DropEstablished(s.records, t)
        || rs == ClearDormant(s.records, t);
  }

  lemma ItemWakes(s: State, ans: Answers)
    requires s.worker.Busy? && s.listeners > 0 && NoneDormant(s.records)
    ensures NoneDormant(WorkItem(s, ans).records)
  {
    if s.worker.at.Parking? {
      ParkingWakes(s, ans);
    } else if s.worker.at.Emitting? {
      EmitWakes(s, s.worker.at.res);
    } else {
      assert WorkItem(s, ans).records == s.records;
    }
  }

  lemma ParkingWakes(s: State, ans: Answers)
    requires s.worker.Busy? && s.worker.at.Parking? && s.listeners > 0 && NoneDormant(s.records)
    ensures NoneDormant(WorkItem(s, ans).records)
  {
    var rs := WorkItem(s, ans).records;
    assert rs == s.records || rs == Await(s.records, s.worker.it.slot, |s.made|);
  }

  lemma EmitWakes(s: State, res: Resolution)
    requires s.worker.Busy? && s.listeners > 0 && NoneDormant(s.records)
    ensures NoneDormant(EmitEstablished(s, res).records)
  {
    assert EmitEstablished(s, res).records == Establish(s.records, res);
  }

  lemma TaskQueue(s: State, ans: Answers)
    requires s.worker.Idle? && Enabled(s, Work(ans))
    ensures Do(s, Work(ans)).queue == s.queue[1..]
  {
    TaskShape(s.(queue := s.queue[1..]), s.queue[0], ans);
  }

  /** A task that waits goes on waiting unless the worker takes it. */
  lemma StaysQueued(s: State, step: Step, t: Task)
    requires Enabled(s, step) && t in s.queue
    ensures t in Do(s, step).queue || Takes(s, step, t)
  {
    if step.Work? {
      match s.worker
      case Idle => TaskQueue(s, step.ans);
      case Busy(_, _, _, _) => ItemShape(s, step.ans);
      case Closing(_) =>
    }
  }

  predicate Takes(s: State, step: Step, t: Task) {
    step.Work? && s.worker.Idle? && s.queue != [] && s.queue[0] == t
  }

  /** While something listens nothing is parked. */
  lemma StepParks(s: State, step: Step)
    requires Enabled(s, step) && s.listeners > 0 && NoneDormant(s.records)
    ensures NoneDormant(Do(s, step).records)
  {
    if step.Work? {
      match s.worker
      case Idle => TaskWakes(s.(queue := s.queue[1..]), s.queue[0], step.ans);
      case Busy(_, _, _, _) => ItemWakes(s, step.ans);
      case Closing(_) =>
    }
  }

  lemma StepWakes(s: State, step: Step)
    requires Enabled(s, step) && s.listeners > 0 && WakeDue(s)
    ensures WakeDue(Do(s, step))
  {
    if NoneDormant(s.records) {
      StepParks(s, step);
    } else {
      StaysQueued(s, step, WakeTask);
      if Takes(s, step, WakeTask) { TaskWakes(s.(queue := s.queue[1..]), s.queue[0], step.ans); }
    }
  }

  lemma {:induction false} WakeHolds(run: seq<State>, steps: seq<Step>, j: nat, k: nat)
    requires IsRun(run, steps) && j <= k < |run| && WakeDue(run[j])
    requires forall i :: j <= i < k ==> run[i].listeners > 0
    ensures WakeDue(run[k])
  {
    if j < k {
      WakeHolds(run, steps, j, k - 1);
      StepWakes(run[k - 1], steps[k - 1]);
    }
  }

  /** What a worker's step leaves to the callers. */
  lemma WorkKeeps(s: State, ans: Answers)
    requires Enabled(s, Work(ans))
    ensures
      var s' := Do(s, Work(ans));
      && s'.listeners == s.listeners && s'.closing == s.closing
      && s'.rechecks == (if s.worker.Idle? && s.queue[0].RecheckTask? then s.rechecks - {s.queue[0].fabric}
                         else s.rechecks)
  {
    match s.worker
    case Idle => TaskShape(s.(queue := s.queue[1..]), s.queue[0], ans);
    case Busy(_, _, _, _) => ItemShape(s, ans);
    case Closing(_) =>
  }

  lemma StepListeners(s: State, step: Step)
    requires Enabled(s, step)
    ensures Do(s, step).listeners == s.listeners + (if step.Listen? then 1 else if step.Unlisten? then -1 else 0)
  {
    if step.Work? { WorkKeeps(s, step.ans); }
  }

  /** The last listener that came first. */
  lemma {:induction false} FirstListener(run: seq<State>, steps: seq<Step>, k: nat) returns (i: nat)
    requires IsRun(run, steps) && k < |run| && run[k].listeners > 0
    ensures i < k && steps[i] == Listen && run[i].listeners == 0
    ensures forall m :: i < m <= k ==> run[m].listeners > 0
  {
    StepListeners(run[k - 1], steps[k - 1]);
    if run[k - 1].listeners == 0 {
      i := k - 1;
    } else {
      i := FirstListener(run, steps, k - 1);
    }
  }

  predicate PostedBetween(steps: seq<Step>, t: Task, i: nat, k: nat) {
    exists j :: i < j < k <= |steps| && steps[j] == Post(t)
  }

  /** Every listener that came first has posted its wake. */
  predicate WakesPosted(run: seq<State>, steps: seq<Step>, k: nat)
    requires k <= |steps| < |run|
  {
    forall i :: 0 <= i < k && steps[i] == Listen && run[i].listeners == 0 ==> PostedBetween(steps, WakeTask, i, k)
  }

  lemma StepCloses(s: State, step: Step)
    requires Enabled(s, step) && s.closing
    ensures Do(s, step).closing
  {
    if step.Work? { WorkKeeps(s, step.ans); }
  }

  lemma {:induction false} StaysClosing(run: seq<State>, steps: seq<Step>, j: nat, k: nat)
    requires IsRun(run, steps) && j <= k < |run| && run[j].closing
    ensures run[k].closing
  {
    if j < k {
      StaysClosing(run, steps, j, k - 1);
      StepCloses(run[k - 1], steps[k - 1]);
    }
  }

  predicate AtRest(s: State) {
    s.queue == [] && s.worker.Idle?
  }

  lemma RestsClosed(run: seq<State>, steps: seq<Step>, k: nat)
    requires IsRun(run, steps) && k < |run| && run[k].closing && AtRest(run[k])
    ensures run[k].closed && run[k].records == map[]
  {
    RunInv(run, steps, k);
  }

  /** No wake is lost: once something listens, its wake is posted and the worker is at rest, no entry is dormant. */
  lemma NoLostWake(run: seq<State>, steps: seq<Step>, k: nat)
    requires IsRun(run, steps) && k < |run| && run[k].listeners > 0 && WakesPosted(run, steps, k) && AtRest(run[k])
    ensures DormantItems(run[k].records) == {}
  {
    var i := FirstListener(run, steps, k);
    assert PostedBetween(steps, WakeTask, i, k);
    var j :| i < j < k && steps[j] == Post(WakeTask);
    if run[j].closing {
      StaysClosing(run, steps, j, k);
      RestsClosed(run, steps, k);
    } else {
      assert run[j + 1].queue == run[j].queue + [WakeTask];
      WakeHolds(run, steps, j + 1, k);
    }
  }

  // ---- the recheck

  /** A fabric's mark goes only when its recheck begins. */
  lemma StepMarks(s: State, step: Step, fabric: byte)
    requires Enabled(s, step)
    ensures fabric in s.rechecks ==> (fabric in Do(s, step).rechecks <==> !Takes(s, step, RecheckTask(fabric)))
    ensures fabric !in s.rechecks ==>
              (fabric in Do(s, step).rechecks <==> step == Mark(fabric) && !s.closing)
  {
    if step.Work? { WorkKeeps(s, step.ans); }
  }

  /** Between two points a marked fabric's recheck begins or it stays marked. */
  lemma {:induction false} BeginsOrMarked(run: seq<State>, steps: seq<Step>, i: nat, k: nat, fabric: byte)
      returns (w: nat)
    requires IsRun(run, steps) && i <= k < |run| && fabric in run[i].rechecks
    ensures (i <= w < k && Takes(run[w], steps[w], RecheckTask(fabric))) || fabric in run[k].rechecks
  {
    w := 0;
    if i < k {
      w := BeginsOrMarked(run, steps, i, k - 1, fabric);
      if fabric in run[k - 1].rechecks {
        StepMarks(run[k - 1], steps[k - 1], fabric);
        if fabric !in run[k].rechecks { w := k - 1; }
      }
    }
  }

  /** The call that set the mark. */
  lemma {:induction false} MarkedSince(run: seq<State>, steps: seq<Step>, k: nat, fabric: byte) returns (e: nat)
    requires IsRun(run, steps) && k < |run| && fabric in run[k].rechecks
    ensures e < k && steps[e] == Mark(fabric) && fabric !in run[e].rechecks && !run[e].closing
    ensures forall m :: e < m <= k ==> fabric in run[m].rechecks
  {
    StepMarks(run[k - 1], steps[k - 1], fabric);
    if fabric in run[k - 1].rechecks {
      e := MarkedSince(run, steps, k - 1, fabric);
    } else {
      e := k - 1;
    }
  }

  /** Every call that set a mark has posted its recheck. */
  predicate RechecksPosted(run: seq<State>, steps: seq<Step>, k: nat)
    requires k <= |steps| < |run|
  {
    forall i :: 0 <= i < k && steps[i].Mark? && !run[i].closing && steps[i].fabric !in run[i].rechecks ==>
      PostedBetween(steps, RecheckTask(steps[i].fabric), i, k)
  }

  lemma {:induction false} RecheckWaits(run: seq<State>, steps: seq<Step>, j: nat, k: nat, fabric: byte)
    requires IsRun(run, steps) && j <= k < |run| && RecheckTask(fabric) in run[j].queue
    requires forall m :: j <= m <= k ==> fabric in run[m].rechecks
    ensures RecheckTask(fabric) in run[k].queue
  {
    if j < k {
      RecheckWaits(run, steps, j, k - 1, fabric);
      StepMarks(run[k - 1], steps[k - 1], fabric);
      StaysQueued(run[k - 1], steps[k - 1], RecheckTask(fabric));
    }
  }

  /** At rest no mark is left but on a closed manager. */
  lemma NoneMarked(run: seq<State>, steps: seq<Step>, k: nat, fabric: byte)
    requires IsRun(run, steps) && k < |run| && RechecksPosted(run, steps, k) && AtRest(run[k])
    ensures fabric in run[k].rechecks ==> run[k].closed
  {
    if fabric in run[k].rechecks {
      var e := MarkedSince(run, steps, k, fabric);
      assert PostedBetween(steps, RecheckTask(fabric), e, k);
      var j :| e < j < k && steps[j] == Post(RecheckTask(fabric));
      if run[j].closing {
        StaysClosing(run, steps, j, k);
        RestsClosed(run, steps, k);
      } else {
        assert run[j + 1].queue == run[j].queue + [RecheckTask(fabric)];
        RecheckWaits(run, steps, j + 1, k, fabric);
        assert false;
      }
    }
  }

  /**
   * No change of keys is lost, though calls coalesce: once the worker is at
   * rest, a recheck of the fabric has begun after the call, or the manager is
   * closed.
   */
  lemma NoLostRecheck(run: seq<State>, steps: seq<Step>, i: nat, k: nat, fabric: byte) returns (w: nat)
    requires IsRun(run, steps) && i < k < |run| && steps[i] == Mark(fabric)
    requires RechecksPosted(run, steps, k) && AtRest(run[k])
    ensures run[k].closed || (i < w < k && Takes(run[w], steps[w], RecheckTask(fabric)))
  {
    w := 0;
    if run[i].closing {
      StaysClosing(run, steps, i, k);
      RestsClosed(run, steps, k);
    } else {
      w := BeginsOrMarked(run, steps, i + 1, k, fabric);
      NoneMarked(run, steps, k, fabric);
    }
  }
}
