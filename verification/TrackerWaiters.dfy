/**
 * What becomes of a waiter's channel and of a due entry in the outbound
 * reliable tracker (bridge/outbound_reliable.go): in every run each is dealt
 * with, and in the way its end calls for.
 */
module TrackerWaiters {
  import opened Bytes
  import opened ReliableTracker

  // ---- a channel that is out of everyone's hands

  predicate Held(s: State, ch: nat) {
    exists k :: k in s.waiters && s.waiters[k] == ch
  }

  predicate IsOwed(s: State, ch: nat) {
    CloseIt(ch) in s.owed || NotifyIt(ch) in s.owed
  }

  /** The channel is neither waited on through the table nor owed an action. */
  predicate Released(s: State, ch: nat) {
    ch < |s.chans| && !Held(s, ch) && !IsOwed(s, ch)
  }

  lemma AbandonReleased(s: State, exchange: u16, ch: nat)
    requires Released(s, ch)
    ensures Released(DoAbandon(s, exchange), ch)
  {
  }

  lemma SweepReleased(s: State, now: int, delays: map<Key, nat>, ch: nat)
    requires Released(s, ch)
    ensures Released(DoSweep(s, now, delays), ch) && DoSweep(s, now, delays).chans[ch] == s.chans[ch]
  {
    var t := DoSweep(s, now, delays);
  }

  /** A released channel is never touched again. */
  lemma StepReleased(s: State, op: Op, ch: nat)
    requires Released(s, ch) && Enabled(s, op)
    ensures Released(Do(s, op), ch) && Do(s, op).chans[ch] == s.chans[ch]
  {
    var t := Do(s, op);
    match op
    case Abandon(exchange) => AbandonReleased(s, exchange, ch);
    case Sweep(now, delays) => SweepReleased(s, now, delays, ch);
    case Settle(a) => assert a.ch != ch; assert t.waiters == s.waiters;
    case _ =>
  }

  lemma {:induction false} StaysReleased(run: seq<State>, ops: seq<Op>, j: nat, k: nat, ch: nat)
    requires IsRun(run, ops) && j <= k < |run| && Released(run[j], ch)
    ensures Released(run[k], ch) && run[k].chans[ch] == run[j].chans[ch]
  {
    if j < k {
      StaysReleased(run, ops, j, k - 1, ch);
      StepReleased(run[k - 1], ops[k - 1], ch);
    }
  }

  // ---- a channel that is owed an action

  /** The channel is owed exactly `a`, or it has been made and left the channel as `done`. */
  predicate Settling(s: State, a: Owed, done: Chan) {
    || (a in s.owed && Fresh(s, a.ch))
    || (Released(s, a.ch) && s.chans[a.ch] == done)
  }

  lemma StepOwed(s: State, op: Op, a: Owed)
    requires ChansRight(s) && Enabled(s, op) && a in s.owed && op != Settle(a)
    ensures a in Do(s, op).owed
  {}

  /** An owed action, when made, closes or notifies the fresh channel. */
  lemma SettleDone(s: State, a: Owed)
    requires ChansRight(s) && a in s.owed && a.ch < |s.chans|
    ensures
      var t := DoSettle(s, a);
      Released(t, a.ch) && t.chans[a.ch] == if a.CloseIt? then Chan(0, 1) else Chan(1, 0)
  {
    var t := DoSettle(s, a);
    assert Fresh(s, a.ch);
  }

  lemma StepSettling(s: State, op: Op, a: Owed, done: Chan)
    requires ChansRight(s) && Enabled(s, op) && Settling(s, a, done)
    requires done == if a.CloseIt? then Chan(0, 1) else Chan(1, 0)
    ensures Settling(Do(s, op), a, done)
  {
    StepChans(s, op);
    if a !in s.owed {
      StepReleased(s, op, a.ch);
    } else if op == Settle(a) {
      SettleDone(s, a);
    } else {
      StepOwed(s, op, a);
    }
  }

  lemma NextSettling(run: seq<State>, ops: seq<Op>, k: nat, a: Owed, done: Chan)
    requires IsRun(run, ops) && k < |ops| && Settling(run[k], a, done)
    requires done == if a.CloseIt? then Chan(0, 1) else Chan(1, 0)
    ensures Settling(run[k + 1], a, done)
  {
    RunChans(run, ops, k);
    StepSettling(run[k], ops[k], a, done);
  }

  lemma {:induction false} StaysSettling(run: seq<State>, ops: seq<Op>, j: nat, k: nat, a: Owed, done: Chan)
    requires IsRun(run, ops) && j <= k < |run| && Settling(run[j], a, done)
    requires done == if a.CloseIt? then Chan(0, 1) else Chan(1, 0)
    ensures Settling(run[k], a, done)
  {
    if j < k {
      StaysSettling(run, ops, j, k - 1, a, done);
      NextSettling(run, ops, k - 1, a, done);
    }
  }

  // ---- the ends of a wait

  /**
   * A waiter whose message is given up is told so: from the sweep that finds
   * its entry due with the retries spent, the channel has got its one error
   * and is closed.
   */
  lemma GivenUpIsTold(run: seq<State>, ops: seq<Op>, j: nat, k: nat, key: Key)
    requires IsRun(run, ops) && j < k < |run| && ops[j].Sweep?
    requires key in run[j].pending && run[j].pending[key].due <= ops[j].now && run[j].pending[key].retries >= 4
    requires key in run[j].waiters
    ensures
      var ch := run[j].waiters[key];
      key !in run[j + 1].pending && ch < |run[k].chans| && run[k].chans[ch] == Chan(1, 1)
  {
    var s, ch := run[j], run[j].waiters[key];
    RunChans(run, ops, j);
    assert Fresh(s, ch);
    SweepTells(s, ops[j].now, ops[j].delays, key);
    StaysReleased(run, ops, j + 1, k, ch);
  }

  lemma SweepTells(s: State, now: int, delays: map<Key, nat>, key: Key)
    requires ChansRight(s) && key in s.waiters && Fresh(s, s.waiters[key])
    requires key in s.pending && s.pending[key].due <= now && s.pending[key].retries >= 4
    ensures
      var t, ch := DoSweep(s, now, delays), s.waiters[key];
      key !in t.pending && Released(t, ch) && t.chans[ch] == Chan(1, 1)
  {
    var t, ch := DoSweep(s, now, delays), s.waiters[key];
    assert key in GivenUp(s, now);
  }

  /** A waiter whose message is acknowledged finds its channel closed, once the Ack has got to it. */
  lemma AckedIsClosed(run: seq<State>, ops: seq<Op>, j: nat, k: nat, key: Key)
    requires IsRun(run, ops) && j < k < |run| && ops[j] == Ack(key) && key in run[j].waiters
    ensures Settling(run[k], CloseIt(run[j].waiters[key]), Chan(0, 1))
  {
    RunChans(run, ops, j);
    RunChans(run, ops, j + 1);
    StaysSettling(run, ops, j + 1, k, CloseIt(run[j].waiters[key]), Chan(0, 1));
  }

  /** A waiter whose exchange is abandoned has got one error, once the abandonment has got to it. */
  lemma AbandonedIsTold(run: seq<State>, ops: seq<Op>, j: nat, k: nat, key: Key)
    requires IsRun(run, ops) && j < k < |run| && ops[j].Abandon?
    requires key in run[j].pending && run[j].pending[key].exchange == ops[j].exchange && key in run[j].waiters
    ensures Settling(run[k], NotifyIt(run[j].waiters[key]), Chan(1, 0))
  {
    RunChans(run, ops, j);
    RunChans(run, ops, j + 1);
    var a := NotifyIt(run[j].waiters[key]);
    assert key in Abandoned(run[j], ops[j].exchange);
    assert a in run[j + 1].owed;
    StaysSettling(run, ops, j + 1, k, a, Chan(1, 0));
  }

  // ---- no channel is forgotten

  /** The channel's own wait was cancelled. */
  predicate Cancels(s: State, op: Op, ch: nat) {
    op.CancelWait? && op.ch == ch && op.key in s.waiters && s.waiters[op.key] == ch
  }

  predicate WasCancelled(run: seq<State>, ops: seq<Op>, k: nat, ch: nat)
    requires k <= |ops| < |run|
  {
    exists j :: 0 <= j < k && Cancels(run[j], ops[j], ch)
  }

  predicate Accounted(run: seq<State>, ops: seq<Op>, k: nat, ch: nat)
    requires k <= |ops| < |run|
  {
    var s := run[k];
    ch < |s.chans| ==> Held(s, ch) || IsOwed(s, ch) || s.chans[ch] != Chan(0, 0) || WasCancelled(run, ops, k, ch)
  }

  /** Whoever loses its place in the table is owed an action, told, or had its wait cancelled. */
  lemma HeldGoes(s: State, op: Op, ch: nat)
    requires ChansRight(s) && Enabled(s, op) && Held(s, ch)
    ensures
      var t := Do(s, op);
      ch < |t.chans| && (Held(t, ch) || IsOwed(t, ch) || t.chans[ch] == Chan(1, 1) || Cancels(s, op, ch))
  {
    var t := Do(s, op);
    var k :| k in s.waiters && s.waiters[k] == ch;
    assert Fresh(s, ch);
    match op
    case Abandon(exchange) =>
      if k in Abandoned(s, exchange) { assert NotifyIt(s.waiters[k]) in t.owed; } else { assert k in t.waiters; }
    case Sweep(now, delays) =>
      if k in GivenUp(s, now) { SweepTells(s, now, delays, k); } else { assert k in t.waiters; }
    case CancelWait(key, c) => if key != k { assert k in t.waiters; }
    case Ack(key) => if key != k { assert k in t.waiters; }
    case _ => assert k in t.waiters && t.waiters[k] == ch;
  }

  lemma WaitFresh(s: State, op: Op, ch: nat)
    requires Enabled(s, op) && |s.chans| <= ch < |Do(s, op).chans|
    ensures Held(Do(s, op), ch)
  {
    assert op.Wait? && op.key in Do(s, op).waiters && Do(s, op).waiters[op.key] == ch;
  }

  lemma OwedGoes(s: State, op: Op, ch: nat)
    requires ChansRight(s) && Enabled(s, op) && IsOwed(s, ch)
    ensures
      var t := Do(s, op);
      ch < |t.chans| && (IsOwed(t, ch) || t.chans[ch] != Chan(0, 0))
  {
    var a := if CloseIt(ch) in s.owed then CloseIt(ch) else NotifyIt(ch);
    assert Fresh(s, a.ch);
    if op == Settle(a) { SettleDone(s, a); } else { StepOwed(s, op, a); }
    OnlyGrows(s, op);
  }

  lemma OnlyGrows(s: State, op: Op)
    requires Enabled(s, op)
    ensures |s.chans| <= |Do(s, op).chans|
  {}

  /** In every run each channel a wait made is in the table, owed an action, resolved, or its wait was cancelled. */
  lemma {:induction false} NoChannelForgotten(run: seq<State>, ops: seq<Op>, k: nat, ch: nat)
    requires IsRun(run, ops) && k < |run|
    ensures Accounted(run, ops, k, ch)
  {
    if k > 0 && ch < |run[k].chans| {
      var s, op := run[k - 1], ops[k - 1];
      NoChannelForgotten(run, ops, k - 1, ch);
      RunChans(run, ops, k - 1);
      if ch >= |s.chans| {
        WaitFresh(s, op, ch);
      } else if Held(s, ch) {
        HeldGoes(s, op, ch);
        if Cancels(s, op, ch) { assert Cancels(run[k - 1], ops[k - 1], ch); }
      } else if IsOwed(s, ch) {
        OwedGoes(s, op, ch);
      } else {
        StepReleased(s, op, ch);
        if s.chans[ch] == Chan(0, 0) {
          var j :| 0 <= j < k - 1 && Cancels(run[j], ops[j], ch);
          assert Cancels(run[j], ops[j], ch);
        }
      }
    }
  }

  // ---- waits and sweeps

  /** A wait gets a channel iff the message is pending or someone waits for it still, and the same one as who waits. */
  lemma WaitLaw(s: State, key: Key)
    ensures
      var t := DoWait(s, key);
      && (key in s.waiters ==> t == s)
      && (key !in s.waiters && key !in s.pending ==> t == s)
      && (key !in s.waiters && key in s.pending ==>
            key in t.waiters && t.waiters[key] == |s.chans| && t.chans == s.chans + [Chan(0, 0)])
  {}

  /**
   * A sweep deals with each entry by its own: one that is not due stays; one
   * that is due is counted, put off and scheduled for its next resend, or
   * given up when its four retries are spent.
   */
  lemma SweepLaw(s: State, now: int, delays: map<Key, nat>, key: Key)
    requires key in s.pending
    ensures
      var t, e := DoSweep(s, now, delays), s.pending[key];
      && (now < e.due ==> key in t.pending && t.pending[key] == e)
      && (e.due <= now && e.retries >= 4 ==> key !in t.pending && key !in t.waiters)
      && (e.due <= now && e.retries < 4 ==>
            && key in t.pending && t.pending[key].retries == e.retries + 1 && t.pending[key].id == e.id
            && t.pending[key].due == now + (if key in delays then delays[key] else 0)
            && t.pending[key].exchange == e.exchange
            && Resend(key, e.id, e.retries + 1) in t.todo)
  {}

  /** Untracking and acknowledging take out their own entry, abandoning the entries of its exchange, and no other. */
  lemma RemovalLaw(s: State, op: Op, k: Key)
    requires op.Untrack? || op.Ack? || op.Abandon?
    ensures
      var t := Do(s, op);
      && (k in t.pending <==>
            k in s.pending && if op.Abandon? then s.pending[k].exchange != op.exchange else k != op.key)
      && (k in t.pending ==> t.pending[k] == s.pending[k])
  {}

  /** A tracking is new: no retries, and an identity that no entry and no resend had. */
  lemma TrackLaw(run: seq<State>, ops: seq<Op>, k: nat)
    requires IsRun(run, ops) && k < |ops| && ops[k].Track?
    ensures
      var s, t, op := run[k], run[k + 1], ops[k];
      && op.key in t.pending && t.pending[op.key].retries == 0
      && t.pending[op.key].due == op.due && t.pending[op.key].exchange == op.exchange
      && (forall q :: q in s.pending ==> s.pending[q].id != t.pending[op.key].id)
      && (forall r :: r in s.todo || r in s.resent ==> r.id != t.pending[op.key].id)
  {
    RunRetries(run, ops, k);
    var s := run[k];
    forall r | r in s.todo || r in s.resent ensures r.id < s.nextId { assert Seen(s, r); assert Numbered(s, r); }
  }
}
