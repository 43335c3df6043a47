/**
 * The outbound reliable tracker (bridge/outbound_reliable.go) as atomic steps:
 * each critical section, the resends Tick makes after its sweep, and the
 * waiter channels resolved after a lock is released.
 */
module ReliableTracker {
  import opened Bytes

  const MAX_RETRANSMISSIONS: nat := 4

  datatype Key = Key(session: u16, counter: u32)

  /** One tracked datagram; `id` tells one tracking under a key from a later one. */
  datatype Entry = Entry(id: nat, exchange: u16, retries: nat, due: int)

  /** A retransmission a sweep scheduled. */
  datatype Resend = Resend(key: Key, id: nat, attempt: nat)

  /** A waiter channel's sends and closes; the buffer holds one. */
  datatype Chan = Chan(sends: nat, closes: nat)

  /** A channel action decided under the lock and made after it. */
  datatype Owed = CloseIt(ch: nat) | NotifyIt(ch: nat)

  datatype State = State(
    pending: map<Key, Entry>, waiters: map<Key, nat>, todo: set<Resend>, owed: set<Owed>,
    chans: seq<Chan>, nextId: nat, resent: seq<Resend>)

  const EMPTY := State(map[], map[], {}, {}, [], 0, [])

  datatype Op =
    | Track(key: Key, exchange: u16, due: int)
    | Untrack(key: Key)
    | Abandon(exchange: u16)
    | Ack(key: Key)
    | Wait(key: Key)
    | CancelWait(key: Key, ch: nat)
    | Sweep(now: int, delays: map<Key, nat>)
    | Recheck(item: Resend)
    | Settle(action: Owed)

  predicate Due(e: Entry, now: int) {
    e.due <= now
  }

  predicate GivesUp(e: Entry, now: int) {
    Due(e, now) && e.retries >= MAX_RETRANSMISSIONS
  }

  function Delay(delays: map<Key, nat>, k: Key): nat {
    if k in delays then delays[k] else 0
  }

  function Rescheduled(e: Entry, now: int, delay: nat): Entry {
    e.(retries := e.retries + 1, due := now + delay)
  }

  /** A channel told an error and then closed. */
  function ToldAndClosed(c: Chan): Chan {
    Chan(c.sends + 1, c.closes + 1)
  }

  /** The send finds the empty buffer of a fresh channel; else the channel is closed. */
  function Notified(c: Chan): Chan {
    if c.sends == 0 then c.(sends := 1) else c.(closes := c.closes + 1)
  }

  // ---- the steps

  function DoTrack(s: State, key: Key, exchange: u16, due: int): State {
    s.(pending := s.pending[key := Entry(s.nextId, exchange, 0, due)], nextId := s.nextId + 1)
  }

  function DoAck(s: State, key: Key): State {
    s.(pending := s.pending - {key},
       waiters := s.waiters - {key},
       owed := s.owed + if key in s.waiters then {CloseIt(s.waiters[key])} else {})
  }

  function Abandoned(s: State, exchange: u16): set<Key> {
    set k | k in s.pending && s.pending[k].exchange == exchange
  }

  /** The entries under `ks` leave, and their waiters are owed a notification. */
  function AbandonKeys(s: State, ks: set<Key>): State {
    s.(pending := s.pending - ks,
       waiters := s.waiters - ks,
       owed := s.owed + set k | k in ks && k in s.waiters :: NotifyIt(s.waiters[k]))
  }

  function DoAbandon(s: State, exchange: u16): State {
    AbandonKeys(s, Abandoned(s, exchange))
  }

  function DoWait(s: State, key: Key): State {
    if key !in s.pending || key in s.waiters then s
    else s.(waiters := s.waiters[key := |s.chans|], chans := s.chans + [Chan(0, 0)])
  }

  function DoCancel(s: State, key: Key, ch: nat): State {
    if key in s.waiters && s.waiters[key] == ch then s.(waiters := s.waiters - {key}) else s
  }

  function GivenUp(s: State, now: int): set<Key> {
    set k | k in s.pending && GivesUp(s.pending[k], now)
  }

  function DoSweep(s: State, now: int, delays: map<Key, nat>): State {
    var gone := GivenUp(s, now);
    State(
      map k | k in s.pending && k !in gone ::
        if Due(s.pending[k], now) then Rescheduled(s.pending[k], now, Delay(delays, k)) else s.pending[k],
      s.waiters - gone,
      s.todo + set k | k in s.pending && k !in gone && Due(s.pending[k], now)
                 :: Resend(k, s.pending[k].id, s.pending[k].retries + 1),
      s.owed,
      seq(|s.chans|, i requires 0 <= i < |s.chans| =>
        if exists k :: k in gone && k in s.waiters && s.waiters[k] == i then ToldAndClosed(s.chans[i]) else s.chans[i]),
      s.nextId,
      s.resent)
  }

  predicate StillPending(s: State, r: Resend) {
    r.key in s.pending && s.pending[r.key].id == r.id
  }

  function DoRecheck(s: State, r: Resend): State {
    s.(todo := s.todo - {r}, resent := if StillPending(s, r) then s.resent + [r] else s.resent)
  }

  function DoSettle(s: State, a: Owed): State
    requires a.ch < |s.chans|
  {
    s.(owed := s.owed - {a},
       chans := s.chans[a.ch := match a
                                case CloseIt(ch) => s.chans[ch].(closes := s.chans[ch].closes + 1)
                                case NotifyIt(ch) => Notified(s.chans[ch])])
  }

  /** What a step needs: work of the two phases and owed actions must be outstanding. */
  predicate Enabled(s: State, op: Op) {
    match op
    case Recheck(r) => r in s.todo
    case Settle(a) => a in s.owed && a.ch < |s.chans|
    case _ => true
  }

  function Do(s: State, op: Op): State
    requires Enabled(s, op)
  {
    match op
    case Track(key, exchange, due) => DoTrack(s, key, exchange, due)
    case Untrack(key) => s.(pending := s.pending - {key})
    case Abandon(exchange) => DoAbandon(s, exchange)
    case Ack(key) => DoAck(s, key)
    case Wait(key) => DoWait(s, key)
    case CancelWait(key, ch) => DoCancel(s, key, ch)
    case Sweep(now, delays) => DoSweep(s, now, delays)
    case Recheck(r) => DoRecheck(s, r)
    case Settle(a) => DoSettle(s, a)
  }

  predicate IsRun(run: seq<State>, ops: seq<Op>) {
    && |run| == |ops| + 1
    && run[0] == EMPTY
    && forall k :: 0 <= k < |ops| ==> Enabled(run[k], ops[k]) && run[k + 1] == Do(run[k], ops[k])
  }

  // ---- bounded retransmission

  predicate Distinct(rs: seq<Resend>) {
    forall i, j :: 0 <= i < j < |rs| ==> rs[i] != rs[j]
  }

  /** An attempt is numbered within the limit and belongs to a tracking that exists or existed. */
  predicate Numbered(s: State, r: Resend) {
    1 <= r.attempt <= MAX_RETRANSMISSIONS && r.id < s.nextId
  }

  /** No attempt beyond the retries of a tracking that is still pending. */
  predicate Within(s: State, r: Resend) {
    forall k :: k in s.pending && s.pending[k].id == r.id ==> k == r.key && r.attempt <= s.pending[k].retries
  }

  predicate Seen(s: State, r: Resend) {
    r in s.todo || r in s.resent
  }

  ghost predicate RetriesRight(s: State) {
    && (forall k :: k in s.pending ==> s.pending[k].retries <= MAX_RETRANSMISSIONS && s.pending[k].id < s.nextId)
    && (forall k, k' :: k in s.pending && k' in s.pending && s.pending[k].id == s.pending[k'].id ==> k == k')
    && (forall r :: Seen(s, r) ==> Numbered(s, r) && Within(s, r))
    && (forall r, r' :: Seen(s, r) && Seen(s, r') && r.id == r'.id ==> r.key == r'.key)
    && (forall r :: r in s.todo ==> r !in s.resent)
    && Distinct(s.resent)
  }

  /** A resend seen after a sweep was seen before it or is the next one of a pending tracking. */
  lemma SweepSeen(s: State, now: int, delays: map<Key, nat>, r: Resend)
    requires Seen(DoSweep(s, now, delays), r)
    ensures Seen(s, r) || (r.key in s.pending && s.pending[r.key].id == r.id
                           && r.attempt == s.pending[r.key].retries + 1
                           && s.pending[r.key].retries < MAX_RETRANSMISSIONS && r in DoSweep(s, now, delays).todo)
    ensures
      var t := DoSweep(s, now, delays);
      !Seen(s, r) ==> r.key in t.pending && t.pending[r.key].retries == r.attempt
  {}

  lemma SweepRetries(s: State, now: int, delays: map<Key, nat>)
    requires RetriesRight(s)
    ensures RetriesRight(DoSweep(s, now, delays))
  {
    var t := DoSweep(s, now, delays);
    forall r | Seen(t, r) ensures Numbered(t, r) && Within(t, r) {
      SweepSeen(s, now, delays, r);
      if Seen(s, r) { assert Numbered(s, r) && Within(s, r); }
    }
    forall r, r' | Seen(t, r) && Seen(t, r') && r.id == r'.id ensures r.key == r'.key {
      SweepSeen(s, now, delays, r);
      SweepSeen(s, now, delays, r');
      if Seen(s, r) { assert Within(s, r); }
      if Seen(s, r') { assert Within(s, r'); }
    }
    forall r | r in t.todo ensures r !in t.resent {
      SweepSeen(s, now, delays, r);
      assert Seen(s, r) ==> Within(s, r);
    }
  }

  /** Taking entries out of the table keeps the retries right. */
  lemma RemovalRetries(s: State, t: State)
    requires RetriesRight(s)
    requires t.pending.Keys <= s.pending.Keys && forall k :: k in t.pending ==> t.pending[k] == s.pending[k]
    requires t.todo == s.todo && t.resent == s.resent && t.nextId == s.nextId
    ensures RetriesRight(t)
  {
    forall r | Seen(t, r) ensures Numbered(t, r) && Within(t, r) {
      assert Seen(s, r);
      assert Numbered(s, r) && Within(s, r);
    }
    assert forall r :: Seen(t, r) ==> Seen(s, r);
  }

  lemma TrackRetries(s: State, key: Key, exchange: u16, due: int)
    requires RetriesRight(s)
    ensures RetriesRight(DoTrack(s, key, exchange, due))
  {
    var t := DoTrack(s, key, exchange, due);
    forall r | Seen(t, r) ensures Numbered(t, r) && Within(t, r) {
      assert Seen(s, r);
      assert Numbered(s, r) && Within(s, r);
    }
    assert forall r :: Seen(t, r) ==> Seen(s, r);
  }

  lemma RecheckRetries(s: State, r: Resend)
    requires RetriesRight(s) && r in s.todo
    ensures RetriesRight(DoRecheck(s, r))
  {
    var t := DoRecheck(s, r);
    forall x | Seen(t, x) ensures Seen(s, x) && Numbered(t, x) && Within(t, x) {
      assert Seen(s, x);
      assert Numbered(s, x) && Within(s, x);
    }
    assert forall i :: 0 <= i < |s.resent| ==> s.resent[i] in s.resent;
  }

  lemma StepRetries(s: State, op: Op)
    requires RetriesRight(s) && Enabled(s, op)
    ensures RetriesRight(Do(s, op))
  {
    match op
    case Sweep(now, delays) => SweepRetries(s, now, delays);
    case Recheck(r) => RecheckRetries(s, r);
    case Track(key, exchange, due) => TrackRetries(s, key, exchange, due);
    case _ => RemovalRetries(s, Do(s, op));
  }

  lemma {:induction false} RunRetries(run: seq<State>, ops: seq<Op>, k: nat)
    requires IsRun(run, ops) && k < |run|
    ensures RetriesRight(run[k])
  {
    if k > 0 {
      RunRetries(run, ops, k - 1);
      StepRetries(run[k - 1], ops[k - 1]);
    }
  }

  /** How often a tracking was re-sent. */
  function ResendsOf(rs: seq<Resend>, id: nat): nat {
    if rs == [] then 0 else ResendsOf(rs[..|rs| - 1], id) + if rs[|rs| - 1].id == id then 1 else 0
  }

  function AttemptsOf(rs: seq<Resend>, id: nat): set<nat> {
    set i | 0 <= i < |rs| && rs[i].id == id :: rs[i].attempt
  }

  lemma AttemptsSnoc(rs: seq<Resend>, r: Resend, id: nat)
    ensures AttemptsOf(rs + [r], id) == AttemptsOf(rs, id) + if r.id == id then {r.attempt} else {}
  {
    var rs' := rs + [r];
    forall x | x in AttemptsOf(rs, id) ensures x in AttemptsOf(rs', id) {
      var i :| 0 <= i < |rs| && rs[i].id == id && rs[i].attempt == x;
      assert rs'[i] == rs[i];
    }
    if r.id == id { assert rs'[|rs|] == r; }
  }

  lemma NewAttempt(rs: seq<Resend>, r: Resend)
    requires Distinct(rs + [r]) && forall i :: 0 <= i < |rs| && rs[i].id == r.id ==> rs[i].key == r.key
    ensures r.attempt !in AttemptsOf(rs, r.id)
  {
    forall x | x in AttemptsOf(rs, r.id) ensures x != r.attempt {
      var i :| 0 <= i < |rs| && rs[i].id == r.id && rs[i].attempt == x;
      assert (rs + [r])[i] == rs[i] && (rs + [r])[|rs|] == r;
    }
  }

  lemma {:induction false} ResendsAreAttempts(rs: seq<Resend>, id: nat)
    requires Distinct(rs)
    requires forall i, j :: 0 <= i < |rs| && 0 <= j < |rs| && rs[i].id == rs[j].id ==> rs[i].key == rs[j].key
    ensures ResendsOf(rs, id) == |AttemptsOf(rs, id)|
  {
    if rs != [] {
      var rs', r := rs[..|rs| - 1], rs[|rs| - 1];
      ResendsAreAttempts(rs', id);
      assert rs == rs' + [r];
      AttemptsSnoc(rs', r, id);
      if r.id == id { NewAttempt(rs', r); }
    }
  }

  lemma {:induction false} SmallSet(xs: set<nat>, n: nat)
    requires forall x :: x in xs ==> 1 <= x <= n
    ensures |xs| <= n
  {
    if n == 0 {
      assert xs == {};
    } else {
      SmallSet(xs - {n}, n - 1);
    }
  }

  /** Bounded retransmission: in every run, each tracking is re-sent at most MaxRetransmissions times. */
  lemma BoundedRetransmission(run: seq<State>, ops: seq<Op>, k: nat, id: nat)
    requires IsRun(run, ops) && k < |run|
    ensures ResendsOf(run[k].resent, id) <= MAX_RETRANSMISSIONS
  {
    RunRetries(run, ops, k);
    var s := run[k];
    SameKeys(s);
    ResendsAreAttempts(s.resent, id);
    forall x | x in AttemptsOf(s.resent, id) ensures 1 <= x <= MAX_RETRANSMISSIONS {
      var i :| 0 <= i < |s.resent| && s.resent[i].id == id && s.resent[i].attempt == x;
      assert Seen(s, s.resent[i]);
    }
    SmallSet(AttemptsOf(s.resent, id), MAX_RETRANSMISSIONS);
  }

  // ---- no retry is lost

  /** Every retry a pending entry counts is scheduled or was sent. */
  ghost predicate RetriesSeen(s: State) {
    forall k, a :: k in s.pending && 1 <= a <= s.pending[k].retries ==> Seen(s, Resend(k, s.pending[k].id, a))
  }

  lemma SweepIsSeen(s: State, now: int, delays: map<Key, nat>)
    requires RetriesSeen(s)
    ensures RetriesSeen(DoSweep(s, now, delays))
  {
    var t := DoSweep(s, now, delays);
    forall k, a | k in t.pending && 1 <= a <= t.pending[k].retries ensures Seen(t, Resend(k, t.pending[k].id, a)) {
      if a <= s.pending[k].retries { assert Seen(s, Resend(k, s.pending[k].id, a)); }
    }
  }

  lemma RecheckIsSeen(s: State, r: Resend)
    requires RetriesSeen(s) && RetriesRight(s) && r in s.todo
    ensures RetriesSeen(DoRecheck(s, r))
  {
    var t := DoRecheck(s, r);
    forall k, a | k in t.pending && 1 <= a <= t.pending[k].retries ensures Seen(t, Resend(k, t.pending[k].id, a)) {
      assert Seen(s, Resend(k, s.pending[k].id, a));
    }
  }

  lemma StepIsSeen(s: State, op: Op)
    requires RetriesSeen(s) && RetriesRight(s) && Enabled(s, op)
    ensures RetriesSeen(Do(s, op))
  {
    match op
    case Sweep(now, delays) => SweepIsSeen(s, now, delays);
    case Recheck(r) => RecheckIsSeen(s, r);
    case _ =>
      var t := Do(s, op);
      forall k, a | k in t.pending && 1 <= a <= t.pending[k].retries ensures Seen(t, Resend(k, t.pending[k].id, a)) {
        assert Seen(s, Resend(k, s.pending[k].id, a));
      }
  }

  lemma {:induction false} RunIsSeen(run: seq<State>, ops: seq<Op>, k: nat)
    requires IsRun(run, ops) && k < |run|
    ensures RetriesSeen(run[k])
  {
    if k > 0 {
      RunIsSeen(run, ops, k - 1);
      RunRetries(run, ops, k - 1);
      StepIsSeen(run[k - 1], ops[k - 1]);
    }
  }

  /** The numbers 1 to n. */
  function UpTo(n: nat): (xs: set<nat>)
    ensures |xs| == n && forall a :: a in xs <==> 1 <= a <= n
  {
    if n == 0 then {} else UpTo(n - 1) + {n}
  }

  /**
   * No retransmission is lost: a tracking that is still pending and has no
   * resend scheduled was re-sent exactly as often as its sweeps counted.
   */
  lemma NoResendLost(run: seq<State>, ops: seq<Op>, k: nat, key: Key)
    requires IsRun(run, ops) && k < |run| && key in run[k].pending
    requires forall r :: r in run[k].todo ==> r.id != run[k].pending[key].id
    ensures ResendsOf(run[k].resent, run[k].pending[key].id) == run[k].pending[key].retries
  {
    RunRetries(run, ops, k);
    RunIsSeen(run, ops, k);
    var s := run[k];
    var e := s.pending[key];
    SameKeys(s);
    ResendsAreAttempts(s.resent, e.id);
    forall a: nat ensures (a in AttemptsOf(s.resent, e.id)) == (1 <= a <= e.retries) {
      AttemptSent(s, key, a);
    }
    assert AttemptsOf(s.resent, e.id) == UpTo(e.retries);
  }

  lemma SameKeys(s: State)
    requires RetriesRight(s)
    ensures forall i, j :: 0 <= i < |s.resent| && 0 <= j < |s.resent| && s.resent[i].id == s.resent[j].id
                           ==> s.resent[i].key == s.resent[j].key
  {
    forall i, j | 0 <= i < |s.resent| && 0 <= j < |s.resent| && s.resent[i].id == s.resent[j].id
      ensures s.resent[i].key == s.resent[j].key
    {
      assert Seen(s, s.resent[i]) && Seen(s, s.resent[j]);
    }
  }

  lemma AttemptSent(s: State, key: Key, a: nat)
    requires RetriesRight(s) && RetriesSeen(s) && key in s.pending
    requires forall r :: r in s.todo ==> r.id != s.pending[key].id
    ensures (a in AttemptsOf(s.resent, s.pending[key].id)) == (1 <= a <= s.pending[key].retries)
  {
    var e := s.pending[key];
    if a in AttemptsOf(s.resent, e.id) {
      var i :| 0 <= i < |s.resent| && s.resent[i].id == e.id && s.resent[i].attempt == a;
      assert Seen(s, s.resent[i]);
      assert Within(s, s.resent[i]) && Numbered(s, s.resent[i]);
    }
    if 1 <= a <= e.retries {
      var r := Resend(key, e.id, a);
      assert Seen(s, r);
      var i :| 0 <= i < |s.resent| && s.resent[i] == r;
    }
  }

  // ---- a tracking that left the table

  /** The tracking was acknowledged, untracked, abandoned or given up. */
  predicate Gone(s: State, id: nat) {
    id < s.nextId && forall k :: k in s.pending ==> s.pending[k].id != id
  }

  lemma GoneStays(s: State, op: Op, id: nat)
    requires Gone(s, id) && Enabled(s, op)
    ensures Gone(Do(s, op), id)
    ensures ResendsOf(Do(s, op).resent, id) == ResendsOf(s.resent, id)
  {
    if op.Recheck? && StillPending(s, op.item) {
      assert (s.resent + [op.item])[..|s.resent|] == s.resent;
    }
  }

  /**
   * Once a tracking is gone, by an Ack before its recheck or otherwise, no
   * run re-sends it any more.
   */
  lemma {:induction false} GoneIsNotResent(run: seq<State>, ops: seq<Op>, i: nat, j: nat, id: nat)
    requires IsRun(run, ops) && i <= j < |run| && Gone(run[i], id)
    ensures Gone(run[j], id) && ResendsOf(run[j].resent, id) == ResendsOf(run[i].resent, id)
  {
    if i < j {
      GoneIsNotResent(run, ops, i, j - 1, id);
      GoneStays(run[j - 1], ops[j - 1], id);
    }
  }

  /** An Ack takes out its own (session, counter) and leaves every other entry and waiter alone. */
  lemma AckIsLocal(s: State, key: Key)
    requires RetriesRight(s)
    ensures
      var t := DoAck(s, key);
      && (forall k :: k != key ==>
            (k in t.pending <==> k in s.pending) && (k in s.pending ==> t.pending[k] == s.pending[k]))
      && (forall k :: k != key ==>
            (k in t.waiters <==> k in s.waiters) && (k in s.waiters ==> t.waiters[k] == s.waiters[k]))
      && (key in s.pending ==> Gone(t, s.pending[key].id))
      && t.resent == s.resent && t.todo == s.todo && t.chans == s.chans
  {}

  // ---- due sweeps empty the table

  /** The sweeps from step `i` to step `j` that found the entry under `key` due. */
  function DueSweeps(run: seq<State>, ops: seq<Op>, i: nat, j: nat, key: Key): nat
    requires i <= j <= |ops| && |run| == |ops| + 1
    decreases j
  {
    if i == j then 0
    else DueSweeps(run, ops, i, j - 1, key)
         + if ops[j - 1].Sweep? && key in run[j - 1].pending && Due(run[j - 1].pending[key], ops[j - 1].now)
           then 1 else 0
  }

  lemma {:induction false} SweepsCount(run: seq<State>, ops: seq<Op>, i: nat, j: nat, key: Key)
    requires IsRun(run, ops) && i <= j <= |ops|
    requires forall k :: i <= k < j && ops[k].Track? ==> ops[k].key != key
    ensures key in run[j].pending ==> run[j].pending[key].retries >= DueSweeps(run, ops, i, j, key)
  {
    if i < j { SweepsCount(run, ops, i, j - 1, key); }
  }

  /**
   * An entry that is not tracked anew is gone after one due sweep more than
   * the limit, whatever happens to the other entries and in between.
   */
  lemma DueEntryGoes(run: seq<State>, ops: seq<Op>, i: nat, j: nat, key: Key)
    requires IsRun(run, ops) && i <= j <= |ops|
    requires forall k :: i <= k < j && ops[k].Track? ==> ops[k].key != key
    requires DueSweeps(run, ops, i, j, key) > MAX_RETRANSMISSIONS
    ensures key !in run[j].pending
  {
    SweepsCount(run, ops, i, j, key);
    RunRetries(run, ops, j);
  }

  /** The sweeps from step `i` to step `j` that found every entry due. */
  function FullSweeps(run: seq<State>, ops: seq<Op>, i: nat, j: nat): nat
    requires i <= j <= |ops| && |run| == |ops| + 1
    decreases j
  {
    if i == j then 0
    else FullSweeps(run, ops, i, j - 1)
         + if ops[j - 1].Sweep? && AllDue(run[j - 1], ops[j - 1].now) then 1 else 0
  }

  predicate AllDue(s: State, now: int) {
    forall k :: k in s.pending ==> Due(s.pending[k], now)
  }

  lemma {:induction false} FullSweepsAreDue(run: seq<State>, ops: seq<Op>, i: nat, j: nat, key: Key)
    requires IsRun(run, ops) && i <= j <= |ops| && key in run[j].pending
    requires forall k :: i <= k < j ==> !ops[k].Track?
    ensures FullSweeps(run, ops, i, j) <= DueSweeps(run, ops, i, j, key)
  {
    if i < j { FullSweepsAreDue(run, ops, i, j - 1, key); }
  }

  /** Without new messages, one sweep more than the limit that finds every entry due empties the table. */
  lemma DueSweepsEmpty(run: seq<State>, ops: seq<Op>, i: nat, j: nat)
    requires IsRun(run, ops) && i <= j <= |ops|
    requires forall k :: i <= k < j ==> !ops[k].Track?
    requires FullSweeps(run, ops, i, j) > MAX_RETRANSMISSIONS
    ensures run[j].pending == map[]
  {
    RunRetries(run, ops, j);
    if key :| key in run[j].pending {
      FullSweepsAreDue(run, ops, i, j, key);
      SweepsCount(run, ops, i, j, key);
      assert false;
    }
    assert run[j].pending.Keys == {};
  }

  // ---- waiter channels

  predicate Fresh(s: State, ch: nat) {
    ch < |s.chans| && s.chans[ch] == Chan(0, 0)
  }

  /** A channel in the table or owed an action is fresh, and is in one place only. */
  ghost predicate ChansRight(s: State) {
    && (forall k :: k in s.waiters ==> Fresh(s, s.waiters[k]))
    && (forall a :: a in s.owed ==> Fresh(s, a.ch))
    && (forall k, k' :: k in s.waiters && k' in s.waiters && s.waiters[k] == s.waiters[k'] ==> k == k')
    && (forall a, a' :: a in s.owed && a' in s.owed && a.ch == a'.ch ==> a == a')
    && (forall k, a :: k in s.waiters && a in s.owed ==> s.waiters[k] != a.ch)
    && (forall i :: 0 <= i < |s.chans| ==> s.chans[i].sends <= 1 && s.chans[i].closes <= 1)
  }

  lemma SweepChans(s: State, now: int, delays: map<Key, nat>)
    requires ChansRight(s)
    ensures ChansRight(DoSweep(s, now, delays))
  {
    var t := DoSweep(s, now, delays);
    forall k | k in t.waiters ensures Fresh(t, t.waiters[k]) {
      assert Fresh(s, s.waiters[k]);
    }
    forall a | a in t.owed ensures Fresh(t, a.ch) {
      assert Fresh(s, a.ch);
    }
    forall i | 0 <= i < |t.chans| ensures t.chans[i].sends <= 1 && t.chans[i].closes <= 1 {
      if k :| k in GivenUp(s, now) && k in s.waiters && s.waiters[k] == i { assert Fresh(s, s.waiters[k]); }
    }
  }

  lemma AbandonChans(s: State, exchange: u16)
    requires ChansRight(s)
    ensures ChansRight(DoAbandon(s, exchange))
  {}

  lemma SettleChans(s: State, a: Owed)
    requires ChansRight(s) && a in s.owed && a.ch < |s.chans|
    ensures ChansRight(DoSettle(s, a))
  {
    assert Fresh(s, a.ch);
  }

  lemma WaitChans(s: State, key: Key)
    requires ChansRight(s)
    ensures ChansRight(DoWait(s, key))
  {}

  lemma StepChans(s: State, op: Op)
    requires ChansRight(s) && Enabled(s, op)
    ensures ChansRight(Do(s, op))
  {
    match op
    case Sweep(now, delays) => SweepChans(s, now, delays);
    case Settle(a) => SettleChans(s, a);
    case Abandon(exchange) => AbandonChans(s, exchange);
    case Wait(key) => WaitChans(s, key);
    case _ =>
  }

  lemma {:induction false} RunChans(run: seq<State>, ops: seq<Op>, k: nat)
    requires IsRun(run, ops) && k < |run|
    ensures ChansRight(run[k])
  {
    if k > 0 {
      RunChans(run, ops, k - 1);
      StepChans(run[k - 1], ops[k - 1]);
    }
  }

  /**
   * Waiter channels resolve at most once: in every run no channel is sent to
   * twice or closed twice, and every channel a sweep or an owed action is
   * about to resolve is fresh, so the send Tick makes under the lock finds
   * an empty buffer and an open channel.
   */
  lemma WaitersResolveOnce(run: seq<State>, ops: seq<Op>, k: nat)
    requires IsRun(run, ops) && k < |run|
    ensures
      var s := run[k];
      && (forall i :: 0 <= i < |s.chans| ==> s.chans[i].sends <= 1 && s.chans[i].closes <= 1)
      && (forall now, key :: key in GivenUp(s, now) && key in s.waiters ==> Fresh(s, s.waiters[key]))
      && (forall a :: a in s.owed ==> Fresh(s, a.ch))
  {
    RunChans(run, ops, k);
  }
}
