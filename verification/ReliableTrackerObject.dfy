/**
 * The tracker in the form of bridge/outbound_reliable.go: an object whose
 * methods update its tables in place. Each critical section is proved to be
 * the step of ReliableTracker it stands for; the sweeps over the tables are
 * loops.
 */
module ReliableTrackerObject {
  import opened Bytes
  import opened ReliableTracker

  class OutboundReliableTracker {
    var pending: map<Key, Entry>
    var waiters: map<Key, nat>
    var chans: seq<Chan>
    var nextId: nat
    ghost var todo: set<Resend>
    ghost var owed: set<Owed>
    ghost var resent: seq<Resend>

    ghost function Now(): State
      reads this
    {
      State(pending, waiters, todo, owed, chans, nextId, resent)
    }

    constructor ()
      ensures Now() == EMPTY
    {
      pending, waiters, chans, nextId := map[], map[], [], 0;
      todo, owed, resent := {}, {}, [];
    }

    method Track(key: Key, exchange: u16, due: int)
      modifies this
      ensures Now() == DoTrack(old(Now()), key, exchange, due)
    {
      pending := pending[key := Entry(nextId, exchange, 0, due)];
      nextId := nextId + 1;
    }

    method Untrack(key: Key)
      modifies this
      ensures Now() == Do(old(Now()), ReliableTracker.Untrack(key))
    {
      pending := pending - {key};
    }

    /** The locked part of Ack; a returned channel is closed after it. */
    method Ack(key: Key) returns (found: bool, wake: Option<nat>)
      modifies this
      ensures Now() == DoAck(old(Now()), key)
      ensures found == (key in old(pending))
      ensures wake == if key in old(waiters) then Some(old(waiters)[key]) else None
    {
      found := key in pending;
      wake := if key in waiters then Some(waiters[key]) else None;
      if wake.Some? { owed := owed + {CloseIt(wake.value)}; }
      pending := pending - {key};
      waiters := waiters - {key};
    }

    /** The locked part of AbandonExchange; the returned channels are notified after it. */
    method AbandonExchange(exchange: u16) returns (cleared: nat, wakers: set<nat>)
      modifies this
      ensures Now() == DoAbandon(old(Now()), exchange)
      ensures cleared == |Abandoned(old(Now()), exchange)|
      ensures wakers == WakersOf(old(Now()), Abandoned(old(Now()), exchange))
    {
      ghost var s, all := Now(), Abandoned(Now(), exchange);
      var keys := pending.Keys;
      cleared, wakers := 0, {};
      AbandonNone(s, all);
      while keys != {}
        invariant keys <= s.pending.Keys
        invariant Now() == AbandonKeys(s, all - keys)
        invariant cleared == |all - keys| && wakers == WakersOf(s, all - keys)
        decreases keys
      {
        var k :| k in keys;
        AbandonTurn(s, exchange, keys, k);
        var hit, woken := AbandonIf(k, exchange);
        wakers := wakers + woken;
        if hit { cleared := cleared + 1; }
        keys := keys - {k};
      }
      AbandonEnds(all, keys);
    }

    /** One turn of that loop. */
    method AbandonIf(k: Key, exchange: u16) returns (hit: bool, woken: set<nat>)
      requires k in pending
      modifies this
      ensures hit == (old(pending)[k].exchange == exchange)
      ensures woken == if hit then WakersOf(old(Now()), {k}) else {}
      ensures Now() == if hit then ForgetKey(old(Now()), k) else old(Now())
    {
      hit, woken := pending[k].exchange == exchange, {};
      if hit {
        if k in waiters {
          owed := owed + {NotifyIt(waiters[k])};
          woken := {waiters[k]};
        }
        pending := pending - {k};
        waiters := waiters - {k};
      }
    }

    /** The locked part of WaitForAck: None when there is nothing to wait for. */
    method WaitForAck(key: Key) returns (ch: Option<nat>)
      modifies this
      ensures Now() == DoWait(old(Now()), key)
      ensures ch == if key in pending then Some(waiters[key]) else None
    {
      if key !in pending { return None; }
      if key !in waiters {
        waiters := waiters[key := |chans|];
        chans := chans + [Chan(0, 0)];
      }
      ch := Some(waiters[key]);
    }

    /** A cancelled wait takes away its own channel only. */
    method CancelWait(key: Key, ch: nat)
      modifies this
      ensures Now() == DoCancel(old(Now()), key, ch)
    {
      if key in waiters && waiters[key] == ch { waiters := waiters - {key}; }
    }

    /** The sweep of Tick: due entries are rescheduled, exhausted ones given up and their waiters told. */
    method Sweep(now: int, delays: map<Key, nat>)
      requires ChansRight(Now())
      modifies this
      ensures Now() == DoSweep(old(Now()), now, delays)
    {
      ghost var s := Now();
      var keys := pending.Keys;
      ghost var seen: set<Key> := {};
      SweepNone(s, now, delays);
      while keys != {}
        invariant seen !! keys && seen + keys == s.pending.Keys
        invariant Now() == SweepKeys(s, now, delays, seen)
        decreases keys
      {
        var k :| k in keys;
        keys := keys - {k};
        SweepOneMore(s, now, delays, seen, k);
        SweepOne(k, now, delays);
        seen := seen + {k};
      }
      SweepAll(s, now, delays, seen);
    }

    /** One iteration of the sweep. */
    method SweepOne(k: Key, now: int, delays: map<Key, nat>)
      requires k in pending && (k in waiters ==> waiters[k] < |chans|)
      modifies this
      ensures Now() == SweepKey(old(Now()), now, delays, k)
    {
      var e := pending[k];
      if now < e.due { return; }
      if e.retries >= MAX_RETRANSMISSIONS {
        pending := pending - {k};
        if k in waiters {
          var ch := waiters[k];
          waiters := waiters - {k};
          chans := chans[ch := ToldAndClosed(chans[ch])];
        }
        return;
      }
      pending := pending[k := Rescheduled(e, now, Delay(delays, k))];
      todo := todo + {Resend(k, e.id, e.retries + 1)};
    }

    /** The second phase of Tick: the recheck before one resend. */
    method Recheck(r: Resend) returns (send: bool)
      requires r in todo
      modifies this
      ensures Now() == DoRecheck(old(Now()), r)
      ensures send == StillPending(old(Now()), r)
    {
      send := r.key in pending && pending[r.key].id == r.id;
      todo := todo - {r};
      if send { resent := resent + [r]; }
    }

    /** A channel action after its lock was released: a close, or the best-effort notification. */
    method Settle(a: Owed)
      requires a in owed && a.ch < |chans|
      modifies this
      ensures Now() == DoSettle(old(Now()), a)
    {
      owed := owed - {a};
      chans := chans[a.ch := match a
                             case CloseIt(ch) => chans[ch].(closes := chans[ch].closes + 1)
                             case NotifyIt(ch) => Notified(chans[ch])];
    }
  }

  // ---- what the loops over the tables make of a part of the keys

  function WakersOf(s: State, ks: set<Key>): set<nat> {
    set k | k in ks && k in s.waiters :: s.waiters[k]
  }

  function ForgetKey(s: State, k: Key): State {
    s.(pending := s.pending - {k}, waiters := s.waiters - {k},
       owed := if k in s.waiters then s.owed + {NotifyIt(s.waiters[k])} else s.owed)
  }

  lemma AbandonNone(s: State, all: set<Key>)
    requires all <= s.pending.Keys
    ensures all - s.pending.Keys == {}
    ensures AbandonKeys(s, {}) == s && WakersOf(s, {}) == {}
  {
    assert s.pending - {} == s.pending && s.waiters - {} == s.waiters;
    assert AbandonKeys(s, {}).owed == s.owed;
  }

  lemma AbandonEnds(all: set<Key>, keys: set<Key>)
    requires keys == {}
    ensures all - keys == all
  {}

  /** What the turn of key `k` finds and makes of the keys done so far. */
  lemma AbandonTurn(s: State, exchange: u16, keys: set<Key>, k: Key)
    requires k in keys && keys <= s.pending.Keys
    ensures
      var all := Abandoned(s, exchange);
      var t := AbandonKeys(s, all - keys);
      && k in t.pending && t.pending[k] == s.pending[k] && (k in all) == (s.pending[k].exchange == exchange)
      && (k !in all ==> all - (keys - {k}) == all - keys)
      && (k in all ==>
            && AbandonKeys(s, all - (keys - {k})) == ForgetKey(t, k)
            && |all - (keys - {k})| == |all - keys| + 1
            && WakersOf(s, all - (keys - {k})) == WakersOf(s, all - keys) + WakersOf(t, {k}))
  {
    var all := Abandoned(s, exchange);
    if k in all {
      assert all - (keys - {k}) == all - keys + {k};
      AbandonOne(s, all - keys, k);
    } else {
      assert all - (keys - {k}) == all - keys;
    }
  }

  lemma AbandonOne(s: State, hit: set<Key>, k: Key)
    requires k !in hit
    ensures AbandonKeys(s, hit + {k}) == ForgetKey(AbandonKeys(s, hit), k)
    ensures |hit + {k}| == |hit| + 1
    ensures WakersOf(s, hit + {k}) == WakersOf(s, hit) + if k in s.waiters then {s.waiters[k]} else {}
  {
    assert s.pending - (hit + {k}) == s.pending - hit - {k};
    assert s.waiters - (hit + {k}) == s.waiters - hit - {k};
    assert AbandonKeys(s, hit + {k}).owed == ForgetKey(AbandonKeys(s, hit), k).owed;
  }

  function PendingSwept(s: State, now: int, delays: map<Key, nat>, seen: set<Key>): map<Key, Entry> {
    map k | k in s.pending && !(k in seen && GivesUp(s.pending[k], now)) ::
      if k in seen && Due(s.pending[k], now) then Rescheduled(s.pending[k], now, Delay(delays, k)) else s.pending[k]
  }

  function TodoSwept(s: State, now: int, seen: set<Key>): set<Resend> {
    set k | k in seen && k in s.pending && !GivesUp(s.pending[k], now) && Due(s.pending[k], now)
      :: Resend(k, s.pending[k].id, s.pending[k].retries + 1)
  }

  function GivenUpAmong(s: State, now: int, seen: set<Key>): set<Key> {
    set k | k in seen && k in s.pending && GivesUp(s.pending[k], now)
  }

  function ChansSwept(s: State, gone: set<Key>): seq<Chan> {
    seq(|s.chans|, i requires 0 <= i < |s.chans| =>
      if exists k :: k in gone && k in s.waiters && s.waiters[k] == i then ToldAndClosed(s.chans[i]) else s.chans[i])
  }

  function SweepKeys(s: State, now: int, delays: map<Key, nat>, seen: set<Key>): State {
    var gone := GivenUpAmong(s, now, seen);
    s.(pending := PendingSwept(s, now, delays, seen), waiters := s.waiters - gone,
       todo := s.todo + TodoSwept(s, now, seen), chans := ChansSwept(s, gone))
  }

  function SweepKey(s: State, now: int, delays: map<Key, nat>, k: Key): State
    requires k in s.pending && (k in s.waiters ==> s.waiters[k] < |s.chans|)
  {
    var e := s.pending[k];
    if !Due(e, now) then s
    else if GivesUp(e, now) then
      s.(pending := s.pending - {k}, waiters := s.waiters - {k},
         chans := if k in s.waiters then s.chans[s.waiters[k] := ToldAndClosed(s.chans[s.waiters[k]])] else s.chans)
    else s.(pending := s.pending[k := Rescheduled(e, now, Delay(delays, k))],
            todo := s.todo + {Resend(k, e.id, e.retries + 1)})
  }

  lemma SweepNone(s: State, now: int, delays: map<Key, nat>)
    ensures SweepKeys(s, now, delays, {}) == s
  {
    assert PendingSwept(s, now, delays, {}) == s.pending;
    assert s.waiters - {} == s.waiters;
  }

  lemma SweepAll(s: State, now: int, delays: map<Key, nat>, seen: set<Key>)
    requires seen == s.pending.Keys
    ensures SweepKeys(s, now, delays, seen) == DoSweep(s, now, delays)
  {
    assert PendingSwept(s, now, delays, seen) == DoSweep(s, now, delays).pending;
    assert GivenUpAmong(s, now, seen) == GivenUp(s, now);
  }

  lemma GivenUpGrows(s: State, now: int, seen: set<Key>, k: Key)
    requires k in s.pending
    ensures GivenUpAmong(s, now, seen + {k})
            == GivenUpAmong(s, now, seen) + if GivesUp(s.pending[k], now) then {k} else {}
  {}

  lemma PendingGrows(s: State, now: int, delays: map<Key, nat>, seen: set<Key>, k: Key)
    requires k in s.pending && k !in seen
    ensures var p := PendingSwept(s, now, delays, seen);
            var e := s.pending[k];
            PendingSwept(s, now, delays, seen + {k})
            == if GivesUp(e, now) then p - {k}
               else if Due(e, now) then p[k := Rescheduled(e, now, Delay(delays, k))]
               else p
  {}

  lemma TodoGrows(s: State, now: int, seen: set<Key>, k: Key)
    requires k in s.pending && k !in seen
    ensures var e := s.pending[k];
            TodoSwept(s, now, seen + {k})
            == TodoSwept(s, now, seen)
               + if !GivesUp(e, now) && Due(e, now) then {Resend(k, e.id, e.retries + 1)} else {}
  {}

  lemma ChansGrow(s: State, gone: set<Key>, k: Key)
    requires ChansRight(s) && k !in gone
    ensures k in s.waiters ==> s.waiters[k] < |s.chans|
    ensures var cs := ChansSwept(s, gone);
            ChansSwept(s, gone + {k})
            == if k in s.waiters then cs[s.waiters[k] := ToldAndClosed(cs[s.waiters[k]])] else cs
  {
    if k in s.waiters {
      assert k in gone + {k};
    } else {
      forall i | 0 <= i < |s.chans| ensures ChansSwept(s, gone + {k})[i] == ChansSwept(s, gone)[i] {}
    }
  }

  lemma SweepGivenUp(s: State, now: int, delays: map<Key, nat>, seen: set<Key>, k: Key)
    requires ChansRight(s) && k in s.pending && k !in seen && GivesUp(s.pending[k], now)
    ensures var t := SweepKeys(s, now, delays, seen);
            && k in t.pending && (k in t.waiters ==> t.waiters[k] < |t.chans|)
            && SweepKeys(s, now, delays, seen + {k}) == SweepKey(t, now, delays, k)
  {
    var gone := GivenUpAmong(s, now, seen);
    GivenUpGrows(s, now, seen, k);
    PendingGrows(s, now, delays, seen, k);
    TodoGrows(s, now, seen, k);
    ChansGrow(s, gone, k);
    assert s.waiters - (gone + {k}) == s.waiters - gone - {k};
  }

  /** Sweeping one more key is one more iteration: no entry's waiter is another's. */
  lemma SweepOneMore(s: State, now: int, delays: map<Key, nat>, seen: set<Key>, k: Key)
    requires ChansRight(s) && k in s.pending && k !in seen
    ensures var t := SweepKeys(s, now, delays, seen);
            && k in t.pending && (k in t.waiters ==> t.waiters[k] < |t.chans|)
            && SweepKeys(s, now, delays, seen + {k}) == SweepKey(t, now, delays, k)
  {
    if GivesUp(s.pending[k], now) {
      SweepGivenUp(s, now, delays, seen, k);
    } else {
      var t := SweepKeys(s, now, delays, seen);
      GivenUpGrows(s, now, seen, k);
      PendingGrows(s, now, delays, seen, k);
      TodoGrows(s, now, seen, k);
      assert t.pending[k] == s.pending[k];
      assert GivenUpAmong(s, now, seen + {k}) == GivenUpAmong(s, now, seen);
    }
  }
}
