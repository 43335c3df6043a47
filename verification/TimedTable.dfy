/**
 * Timed interactions (bridge/exchange_routing.go, bridge/receive.go,
 * bridge/receive_dispatch.go): deadlines per (session, exchange), the gate
 * that consumes them, and the expiry sweep beside it. A sweep visits an entry
 * and deletes its key in two steps, so other steps may fall between.
 */
module TimedTable {
  import opened Bytes

  const NANOS_PER_MILLI: int := 1_000_000
  const TIMED_SWEEP_INTERVAL: int := 60_000_000_000

  datatype Key = Key(session: u16, exchange: u16)

  datatype Reply = Proceed | TimedRequestMismatch | Timeout

  /** `visited` are the deletions sweeps still owe. */
  datatype State = State(table: map<Key, int>, visited: multiset<Key>, clock: int)

  datatype Step =
    | Tick(now: int)
    | Timed(key: Key, now: int, timeoutMs: u16)
    | Gate(key: Key, flag: bool, now: int)
    | DropSession(session: u16)
    | Visit(key: Key, now: int)
    | Remove(key: Key)
    | Sweep(now: int)

  function Deadline(now: int, timeoutMs: u16): int {
    now + timeoutMs as int * NANOS_PER_MILLI
  }

  function Swept(table: map<Key, int>, now: int): map<Key, int> {
    map k | k in table && now <= table[k] :: table[k]
  }

  function WithoutSession(table: map<Key, int>, session: u16): map<Key, int> {
    map k | k in table && k.session != session :: table[k]
  }

  function GateReply(table: map<Key, int>, key: Key, flag: bool, now: int): Reply {
    if !flag then if key in table then TimedRequestMismatch else Proceed
    else if key !in table then TimedRequestMismatch
    else if now > table[key] then Timeout
    else Proceed
  }

  /** The clock never goes back; a sweep works with a time it read earlier. */
  predicate Enabled(s: State, step: Step) {
    match step
    case Tick(now) => s.clock <= now
    case Timed(_, now, _) => s.clock <= now
    case Gate(_, _, now) => s.clock <= now
    case DropSession(_) => true
    case Visit(_, now) => now <= s.clock
    case Remove(k) => k in s.visited
    case Sweep(now) => now <= s.clock
  }

  function Do(s: State, step: Step): State
    requires Enabled(s, step)
  {
    match step
    case Tick(now) => s.(clock := now)
    case Timed(k, now, ms) => s.(table := s.table[k := Deadline(now, ms)], clock := now)
    case Gate(k, _, now) => s.(table := s.table - {k}, clock := now)
    case DropSession(session) => s.(table := WithoutSession(s.table, session))
    case Visit(k, now) => if k in s.table && now > s.table[k] then s.(visited := s.visited + multiset{k}) else s
    case Remove(k) => s.(table := s.table - {k}, visited := s.visited - multiset{k})
    case Sweep(now) => s.(table := Swept(s.table, now))
  }

  predicate IsRun(run: seq<State>, steps: seq<Step>) {
    && |run| == |steps| + 1
    && run[0].table == map[] && run[0].visited == multiset{}
    && forall i :: 0 <= i < |steps| ==> Enabled(run[i], steps[i]) && run[i + 1] == Do(run[i], steps[i])
  }

  // ---- the reference: what the messages alone say

  /** What a step makes of the last event on `key`; sweeps are not events. */
  function After(before: Option<int>, step: Step, key: Key): Option<int> {
    match step
    case Timed(k, now, ms) => if k == key then Some(Deadline(now, ms)) else before
    case Gate(k, _, _) => if k == key then None else before
    case DropSession(session) => if key.session == session then None else before
    case _ => before
  }

  /** The deadline of the last event on `key` if that was a TimedRequest. */
  function Latest(steps: seq<Step>, key: Key): Option<int> {
    if steps == [] then None else After(Latest(steps[..|steps| - 1], key), steps[|steps| - 1], key)
  }

  /** A message that decides what stands for `key`. */
  predicate EventOn(step: Step, key: Key) {
    match step
    case Timed(k, _, _) => k == key
    case Gate(k, _, _) => k == key
    case DropSession(session) => key.session == session
    case _ => false
  }

  /** Step `m` comes behind the last event on `key`. */
  predicate SinceLast(steps: seq<Step>, key: Key, m: nat) {
    m < |steps| && !EventOn(steps[m], key) && forall n :: m < n < |steps| ==> !EventOn(steps[n], key)
  }

  /** A sweep deleted `key` since the last event on it. */
  predicate Deleted(steps: seq<Step>, key: Key) {
    exists m :: 0 <= m < |steps| && steps[m] == Remove(key) && SinceLast(steps, key, m)
  }

  /** An atomic sweep took the expired deadline since then. */
  predicate Expired(steps: seq<Step>, key: Key, deadline: int) {
    exists m :: 0 <= m < |steps| && steps[m].Sweep? && steps[m].now > deadline && SinceLast(steps, key, m)
  }

  lemma SinceSnoc(steps: seq<Step>, step: Step, key: Key, m: nat)
    ensures SinceLast(steps + [step], key, m)
            == (!EventOn(step, key) && (m == |steps| || SinceLast(steps, key, m)))
  {
    var all := steps + [step];
    if SinceLast(all, key, m) {
      assert all[|steps|] == step;
      assert forall n :: m < n < |steps| ==> all[n] == steps[n];
    }
    if !EventOn(step, key) && SinceLast(steps, key, m) {
      assert all[m] == steps[m];
      assert forall n :: m < n < |steps| ==> all[n] == steps[n];
    }
  }

  lemma DeletedSnoc(steps: seq<Step>, step: Step, key: Key)
    ensures Deleted(steps + [step], key) == (!EventOn(step, key) && (step == Remove(key) || Deleted(steps, key)))
  {
    var all := steps + [step];
    if Deleted(all, key) {
      var m :| 0 <= m < |all| && all[m] == Remove(key) && SinceLast(all, key, m);
      SinceSnoc(steps, step, key, m);
    }
    if !EventOn(step, key) && step == Remove(key) {
      SinceSnoc(steps, step, key, |steps|);
      assert all[|steps|] == step;
    }
    if !EventOn(step, key) && Deleted(steps, key) {
      var m :| 0 <= m < |steps| && steps[m] == Remove(key) && SinceLast(steps, key, m);
      SinceSnoc(steps, step, key, m);
      assert all[m] == steps[m];
    }
  }

  lemma ExpiredSnoc(steps: seq<Step>, step: Step, key: Key, deadline: int)
    ensures Expired(steps + [step], key, deadline)
            == (!EventOn(step, key) && ((step.Sweep? && step.now > deadline) || Expired(steps, key, deadline)))
  {
    var all := steps + [step];
    if Expired(all, key, deadline) {
      var m :| 0 <= m < |all| && all[m].Sweep? && all[m].now > deadline && SinceLast(all, key, m);
      SinceSnoc(steps, step, key, m);
    }
    if !EventOn(step, key) && step.Sweep? && step.now > deadline {
      SinceSnoc(steps, step, key, |steps|);
      assert all[|steps|] == step;
    }
    if !EventOn(step, key) && Expired(steps, key, deadline) {
      var m :| 0 <= m < |steps| && steps[m].Sweep? && steps[m].now > deadline && SinceLast(steps, key, m);
      SinceSnoc(steps, step, key, m);
      assert all[m] == steps[m];
    }
  }

  lemma LatestSnoc(steps: seq<Step>, step: Step, key: Key)
    ensures Latest(steps + [step], key) == After(Latest(steps, key), step, key)
  {
    assert (steps + [step])[..|steps|] == steps;
  }

  /** The deadline that stands for `key` after some steps, if any. */
  ghost function Standing(steps: seq<Step>, key: Key): Option<int> {
    var latest := Latest(steps, key);
    if latest.Some? && !Deleted(steps, key) && !Expired(steps, key, latest.value) then latest else None
  }

  lemma StandingSnoc(steps: seq<Step>, step: Step, key: Key)
    ensures Standing(steps + [step], key)
            == match step
               case Timed(k, now, ms) => if k == key then Some(Deadline(now, ms)) else Standing(steps, key)
               case Gate(k, _, _) => if k == key then None else Standing(steps, key)
               case DropSession(session) => if key.session == session then None else Standing(steps, key)
               case Remove(k) => if k == key then None else Standing(steps, key)
               case Sweep(now) => if Standing(steps, key).Some? && now > Standing(steps, key).value
                                  then None else Standing(steps, key)
               case _ => Standing(steps, key)
  {
    LatestSnoc(steps, step, key);
    DeletedSnoc(steps, step, key);
    var latest := Latest(steps + [step], key);
    if latest.Some? { ExpiredSnoc(steps, step, key, latest.value); }
  }

  function Find(table: map<Key, int>, key: Key): Option<int> {
    if key in table then Some(table[key]) else None
  }

  /** The table holds exactly what stands: the last TimedRequest, unless a sweep took it since. */
  lemma {:induction false} TableIsStanding(run: seq<State>, steps: seq<Step>, i: nat, key: Key)
    requires IsRun(run, steps) && i < |run|
    ensures Find(run[i].table, key) == Standing(steps[..i], key)
  {
    if i > 0 {
      TableIsStanding(run, steps, i - 1, key);
      assert steps[..i] == steps[..i - 1] + [steps[i - 1]];
      StandingSnoc(steps[..i - 1], steps[i - 1], key);
    }
  }

  lemma {:induction false} SweepsInThePast(run: seq<State>, steps: seq<Step>, i: nat, key: Key, deadline: int)
    requires IsRun(run, steps) && i < |run| && Expired(steps[..i], key, deadline)
    ensures deadline < run[i].clock
  {
    if i > 0 {
      assert steps[..i] == steps[..i - 1] + [steps[i - 1]];
      ExpiredSnoc(steps[..i - 1], steps[i - 1], key, deadline);
      if Expired(steps[..i - 1], key, deadline) { SweepsInThePast(run, steps, i - 1, key, deadline); }
    }
  }

  /**
   * A request with the Timed flag proceeds iff the last event on its key is
   * a TimedRequest whose deadline has not passed and no sweep deleted the key
   * since that event.
   */
  lemma TimedAdmittedIff(run: seq<State>, steps: seq<Step>, i: nat)
    requires IsRun(run, steps) && i < |steps| && steps[i].Gate? && steps[i].flag
    ensures
      var key, latest := steps[i].key, Latest(steps[..i], steps[i].key);
      (GateReply(run[i].table, key, true, steps[i].now) == Proceed)
      == (latest.Some? && steps[i].now <= latest.value && !Deleted(steps[..i], key))
  {
    var key, latest := steps[i].key, Latest(steps[..i], steps[i].key);
    TableIsStanding(run, steps, i, key);
    if latest.Some? && Expired(steps[..i], key, latest.value) {
      SweepsInThePast(run, steps, i, key, latest.value);
    }
  }

  /**
   * The whole answer to a request with the Timed flag: a mismatch when no
   * TimedRequest stands, else it proceeds up to the deadline and has timed
   * out behind it.
   */
  lemma FlaggedReplyIs(run: seq<State>, steps: seq<Step>, i: nat)
    requires IsRun(run, steps) && i < |steps| && steps[i].Gate? && steps[i].flag
    ensures
      var key, latest := steps[i].key, Latest(steps[..i], steps[i].key);
      GateReply(run[i].table, key, true, steps[i].now)
      == if latest.None? || Deleted(steps[..i], key) || Expired(steps[..i], key, latest.value) then TimedRequestMismatch
         else if steps[i].now <= latest.value then Proceed
         else Timeout
  {
    TableIsStanding(run, steps, i, steps[i].key);
  }

  /** Without the flag it is refused iff a TimedRequest is the last event and no sweep took it since. */
  lemma UntimedRefusedIff(run: seq<State>, steps: seq<Step>, i: nat)
    requires IsRun(run, steps) && i < |steps| && steps[i].Gate? && !steps[i].flag
    ensures
      var key, latest := steps[i].key, Latest(steps[..i], steps[i].key);
      var reply := GateReply(run[i].table, key, false, steps[i].now);
      && (reply == TimedRequestMismatch || reply == Proceed)
      && (reply == TimedRequestMismatch)
         == (latest.Some? && !Deleted(steps[..i], key) && !Expired(steps[..i], key, latest.value))
  {
    TableIsStanding(run, steps, i, steps[i].key);
  }

  lemma {:induction false} LatestNeedsTimed(steps: seq<Step>, i: nat, j: nat, key: Key) returns (m: nat)
    requires i < j <= |steps| && steps[i].Gate? && steps[i].key == key && Latest(steps[..j], key).Some?
    ensures i < m < j && steps[m].Timed? && steps[m].key == key
  {
    assert steps[..j][..j - 1] == steps[..j - 1];
    if steps[j - 1].Timed? && steps[j - 1].key == key {
      m := j - 1;
    } else {
      m := LatestNeedsTimed(steps, i, j - 1, key);
    }
  }

  /** Each TimedRequest admits at most one request: between two admitted ones there is a new TimedRequest. */
  lemma AdmitsAtMostOne(run: seq<State>, steps: seq<Step>, i: nat, j: nat) returns (m: nat)
    requires IsRun(run, steps) && i < j < |steps|
    requires steps[i].Gate? && steps[j].Gate? && steps[j].flag && steps[i].key == steps[j].key
    requires GateReply(run[j].table, steps[j].key, true, steps[j].now) == Proceed
    ensures i < m < j && steps[m].Timed? && steps[m].key == steps[i].key
  {
    TimedAdmittedIff(run, steps, j);
    m := LatestNeedsTimed(steps, i, j, steps[i].key);
  }

  // ---- when the sweep is invisible

  /** Before step `i`, no TimedRequest on `key` falls between a sweep's visit of the key and its deletion. */
  predicate Undisturbed(run: seq<State>, steps: seq<Step>, i: nat, key: Key)
    requires |run| == |steps| + 1 && i <= |steps|
  {
    forall m :: 0 <= m < i && steps[m].Timed? && steps[m].key == key ==> key !in run[m].visited
  }

  /** If a sweep visited or deleted `key`, the last event's deadline has passed. */
  predicate GoneIsPast(s: State, key: Key, latest: Option<int>, deleted: bool) {
    latest.Some? && (key in s.visited || deleted) ==> latest.value < s.clock
  }

  lemma GoneStep(s: State, step: Step, key: Key, latest: Option<int>, deleted: bool)
    requires Enabled(s, step) && GoneIsPast(s, key, latest, deleted)
    requires key in s.table ==> latest == Some(s.table[key])
    requires step.Timed? && step.key == key ==> key !in s.visited
    ensures GoneIsPast(Do(s, step), key, After(latest, step, key),
                       !EventOn(step, key) && (step == Remove(key) || deleted))
  {}

  /** Then what a sweep visited or deleted has expired. */
  lemma {:induction false} DeletedIsExpired(run: seq<State>, steps: seq<Step>, i: nat, key: Key)
    requires IsRun(run, steps) && i <= |steps| && Undisturbed(run, steps, i, key)
    ensures GoneIsPast(run[i], key, Latest(steps[..i], key), Deleted(steps[..i], key))
  {
    if i == 0 {
      assert steps[..0] == [];
    } else {
      var before, step := steps[..i - 1], steps[i - 1];
      DeletedIsExpired(run, steps, i - 1, key);
      TableIsStanding(run, steps, i - 1, key);
      assert steps[..i] == before + [step];
      LatestSnoc(before, step, key);
      DeletedSnoc(before, step, key);
      GoneStep(run[i - 1], step, key, Latest(before, key), Deleted(before, key));
    }
  }

  /** Then the sweeps are invisible: admission is what the messages alone say. */
  lemma SweepInvisible(run: seq<State>, steps: seq<Step>, i: nat)
    requires IsRun(run, steps) && i < |steps| && steps[i].Gate? && steps[i].flag
    requires Undisturbed(run, steps, i, steps[i].key)
    ensures
      var latest := Latest(steps[..i], steps[i].key);
      (GateReply(run[i].table, steps[i].key, true, steps[i].now) == Proceed)
      == (latest.Some? && steps[i].now <= latest.value)
  {
    TimedAdmittedIff(run, steps, i);
    DeletedIsExpired(run, steps, i, steps[i].key);
  }

  const STEALING := [Timed(Key(1, 2), 0, 0), Tick(1), Visit(Key(1, 2), 1), Timed(Key(1, 2), 1, 1000), Remove(Key(1, 2))]

  lemma StolenLatest()
    ensures Latest(STEALING, Key(1, 2)) == Some(1_000_000_001)
  {
    assert STEALING[..4][3] == STEALING[3];
    assert Latest(STEALING[..4], Key(1, 2)) == Some(1_000_000_001);
  }

  /** A TimedRequest between visit and deletion is lost with the old deadline: its request is refused in time. */
  lemma SweepCanSteal() returns (run: seq<State>)
    ensures IsRun(run, STEALING) && Latest(STEALING, Key(1, 2)) == Some(1_000_000_001)
    ensures GateReply(run[5].table, Key(1, 2), true, 1) == TimedRequestMismatch
  {
    StolenLatest();
    var s0 := State(map[], multiset{}, 0);
    var s1 := Do(s0, STEALING[0]);
    var s2 := Do(s1, STEALING[1]);
    var s3 := Do(s2, STEALING[2]);
    var s4 := Do(s3, STEALING[3]);
    run := [s0, s1, s2, s3, s4, Do(s4, STEALING[4])];
  }

  // ---- the tables in place

  class ExchangeRouting {
    var timedDeadlines: map<Key, int>
    var lastTimedSweep: int

    constructor ()
      ensures timedDeadlines == map[] && lastTimedSweep == 0
    {
      timedDeadlines, lastTimedSweep := map[], 0;
    }

    /** The deadline is stored before the sweep, which therefore leaves it. */
    method DispatchTimedRequest(key: Key, now: int, timeoutMs: u16)
      modifies this
      ensures var stored := old(timedDeadlines)[key := Deadline(now, timeoutMs)];
              timedDeadlines == if now - old(lastTimedSweep) < TIMED_SWEEP_INTERVAL then stored else Swept(stored, now)
      ensures key in timedDeadlines && timedDeadlines[key] == Deadline(now, timeoutMs)
      ensures lastTimedSweep == if now - old(lastTimedSweep) < TIMED_SWEEP_INTERVAL then old(lastTimedSweep) else now
    {
      timedDeadlines := timedDeadlines[key := Deadline(now, timeoutMs)];
      var _ := MaybeSweepExpired(now);
    }

    method CheckTimedGate(flag: bool, key: Key, now: int) returns (reply: Reply)
      modifies this
      ensures reply == GateReply(old(timedDeadlines), key, flag, now)
      ensures timedDeadlines == old(timedDeadlines) - {key} && lastTimedSweep == old(lastTimedSweep)
    {
      var found := if key in timedDeadlines then Some(timedDeadlines[key]) else None;
      timedDeadlines := timedDeadlines - {key};
      if !flag {
        return if found.Some? then TimedRequestMismatch else Proceed;
      }
      if found.None? { return TimedRequestMismatch; }
      return if now > found.value then Timeout else Proceed;
    }

    method MaybeSweepExpired(now: int) returns (reclaimed: nat)
      modifies this
      ensures lastTimedSweep == if now - old(lastTimedSweep) < TIMED_SWEEP_INTERVAL then old(lastTimedSweep) else now
      ensures timedDeadlines == if now - old(lastTimedSweep) < TIMED_SWEEP_INTERVAL then old(timedDeadlines)
                                else Swept(old(timedDeadlines), now)
      ensures |timedDeadlines| + reclaimed == |old(timedDeadlines)|
    {
      if now - lastTimedSweep < TIMED_SWEEP_INTERVAL { return 0; }
      lastTimedSweep := now;
      reclaimed := SweepExpired(now);
    }

    method SweepExpired(now: int) returns (reclaimed: nat)
      modifies this`timedDeadlines
      ensures timedDeadlines == Swept(old(timedDeadlines), now)
      ensures |timedDeadlines| + reclaimed == |old(timedDeadlines)|
    {
      ghost var table := timedDeadlines;
      var keys := timedDeadlines.Keys;
      reclaimed := 0;
      while keys != {}
        invariant keys <= table.Keys && |timedDeadlines| + reclaimed == |table|
        invariant timedDeadlines == map k | k in table && (k in keys || now <= table[k]) :: table[k]
        decreases |keys|
      {
        var k :| k in keys;
        keys := keys - {k};
        if now > timedDeadlines[k] {
          RemovedOne(timedDeadlines, k);
          timedDeadlines := timedDeadlines - {k};
          reclaimed := reclaimed + 1;
        }
      }
    }

    method DropSessionDeadlines(session: u16)
      modifies this`timedDeadlines
      ensures timedDeadlines == WithoutSession(old(timedDeadlines), session)
    {
      ghost var table := timedDeadlines;
      var keys := timedDeadlines.Keys;
      while keys != {}
        invariant keys <= table.Keys
        invariant timedDeadlines == map k | k in table && (k in keys || k.session != session) :: table[k]
        decreases |keys|
      {
        var k :| k in keys;
        keys := keys - {k};
        if k.session == session { timedDeadlines := timedDeadlines - {k}; }
      }
    }
  }

  lemma RemovedOne<K, V>(m: map<K, V>, k: K)
    requires k in m
    ensures |m - {k}| == |m| - 1
  {
    assert (m - {k}).Keys == m.Keys - {k};
  }
}
