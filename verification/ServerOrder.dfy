/** Message order per connection: what is handled is what arrived, in order, and
    no message is left behind while a password hash runs. */
module ServerOrder {
  import opened Ordering
  import opened Sequences
  import opened WorkLimiting
  import opened QueueIds
  import opened ServerSpec
  import opened ServerReserve
  import Q = QueueSpec
  import H = QueueHistory

  // ------------------------------------------------------------ queued messages

  /** Messages of `c` in the application worker's queue. */
  ghost function QueuedFor(jobs: seq<AppJob>, c: nat): seq<Msg> {
    if jobs == [] then []
    else
      var last := jobs[|jobs| - 1];
      QueuedFor(jobs[..|jobs| - 1], c) + if last.Message? && last.conn == c then [last.msg] else []
  }

  lemma QueuedSnoc(jobs: seq<AppJob>, job: AppJob, c: nat)
    ensures QueuedFor(jobs + [job], c) == QueuedFor(jobs, c) + if job.Message? && job.conn == c then [job.msg] else []
  {
    assert (jobs + [job])[..|jobs|] == jobs;
  }

  lemma {:induction false} QueuedHead(jobs: seq<AppJob>, c: nat)
    requires jobs != []
    ensures QueuedFor(jobs, c) == (if jobs[0].Message? && jobs[0].conn == c then [jobs[0].msg] else []) + QueuedFor(jobs[1..], c)
  {
    if |jobs| == 1 {
      assert jobs == [] + [jobs[0]];
      QueuedSnoc([], jobs[0], c);
      assert jobs[1..] == [];
    } else {
      hide QueuedFor;
      var init, last := jobs[..|jobs| - 1], jobs[|jobs| - 1];
      assert jobs == init + [last] && jobs[1..] == init[1..] + [last] && init[0] == jobs[0];
      QueuedHead(init, c);
      var head := if jobs[0].Message? && jobs[0].conn == c then [jobs[0].msg] else [];
      var tail := if last.Message? && last.conn == c then [last.msg] else [];
      assert QueuedFor(jobs, c) == QueuedFor(init, c) + tail by {
        QueuedSnoc(init, last, c);
      }
      assert QueuedFor(jobs[1..], c) == QueuedFor(init[1..], c) + tail by {
        QueuedSnoc(init[1..], last, c);
      }
      assert QueuedFor(jobs, c) == (head + QueuedFor(init[1..], c)) + tail;
    }
  }

  lemma {:induction false} QueuedNone(jobs: seq<AppJob>, c: nat)
    requires forall job :: job in jobs ==> !(job.Message? && job.conn == c)
    ensures QueuedFor(jobs, c) == []
  {
    if jobs != [] {
      assert jobs[|jobs| - 1] in jobs;
      QueuedNone(jobs[..|jobs| - 1], c);
    }
  }

  // ------------------------------------------------------------------- counting

  ghost function Total(conns: map<nat, Conn>, keys: set<nat>): nat
    requires keys <= conns.Keys
  {
    if keys == {} then 0
    else
      var c := LeastNat(keys);
      |conns[c].deferred| + Total(conns, keys - {c})
  }

  lemma {:induction false} TotalTake(conns: map<nat, Conn>, keys: set<nat>, c: nat)
    requires keys <= conns.Keys && c in keys
    ensures Total(conns, keys) == |conns[c].deferred| + Total(conns, keys - {c})
    decreases keys
  {
    var least := LeastNat(keys);
    if c != least {
      TotalTake(conns, keys - {least}, c);
      TotalTake(conns, keys - {c}, least);
      assert keys - {least} - {c} == keys - {c} - {least};
    }
  }

  lemma {:induction false} TotalSame(a: map<nat, Conn>, b: map<nat, Conn>, keys: set<nat>)
    requires keys <= a.Keys && keys <= b.Keys
    requires forall c :: c in keys ==> |a[c].deferred| == |b[c].deferred|
    ensures Total(a, keys) == Total(b, keys)
    decreases keys
  {
    if keys != {} {
      TotalSame(a, b, keys - {LeastNat(keys)});
    }
  }

  lemma TotalUpdate(conns: map<nat, Conn>, c: nat, k: Conn)
    ensures Total(conns[c := k], conns[c := k].Keys)
         == Total(conns, conns.Keys) + |k.deferred| - if c in conns then |conns[c].deferred| else 0
  {
    var after := conns[c := k];
    TotalTake(after, after.Keys, c);
    assert after.Keys - {c} == conns.Keys - {c};
    TotalSame(conns, after, conns.Keys - {c});
    if c in conns {
      TotalTake(conns, conns.Keys, c);
    } else {
      assert conns.Keys - {c} == conns.Keys;
    }
  }

  // ------------------------------------------------------------------ invariant

  /** The messages of a connection, with `fly` being handled right now. */
  ghost predicate InOrder(k: Conn, fly: seq<Msg>, queued: seq<Msg>, stopping: bool) {
    && Subsequence(k.handled + fly + k.deferred + queued, k.arrived)
    && (k.alive && !k.lost && !stopping ==> k.arrived == k.handled + fly + k.deferred + queued)
  }

  ghost predicate Counted(k: Conn, others: nat) {
    k.count == |k.deferred| + others && k.count <= BACKLOG
  }

  /** The counter of deferred messages is exact and limited. */
  ghost predicate Tallied(s: Server) {
    s.deferred == Total(s.conns, s.conns.Keys) && s.deferred <= DEFERRED_LIMIT
  }

  /** A waiting request of a live connection is in the queue. */
  ghost predicate Awaited(s: Server, c: nat)
    requires c in s.conns
  {
    s.conns[c].alive && !s.stopping && s.conns[c].waiting ==> c in s.queue.ids
  }

  /** Deferred messages of a live connection have a request to wait for. */
  ghost predicate Attended(s: Server, c: nat)
    requires c in s.conns
  {
    s.conns[c].alive && !s.stopping && s.conns[c].deferred != [] ==> s.conns[c].waiting
  }

  /** Everything about one connection, outside its own handling. */
  ghost predicate Settled(s: Server, c: nat, extra: nat)
    requires c in s.conns
  {
    var queued := QueuedFor(s.jobs, c);
    InOrder(s.conns[c], [], queued, s.stopping) && Counted(s.conns[c], |queued| + extra) && Attended(s, c)
  }

  ghost function Share(d: nat, c: nat, extra: nat): nat {
    if d == c then extra else 0
  }

  /** All connections are in order; `c` counts `extra` messages in handling, and
      the expiry callbacks of the requests in `due` are still to run. */
  ghost predicate Orderly(s: Server, c: nat, extra: nat, due: set<nat>) {
    && Tallied(s)
    && (forall d :: d in s.conns ==> Settled(s, d, Share(d, c, extra)))
    && (forall d :: d in s.conns && d !in due ==> Awaited(s, d))
  }

  /** The same, while the deferred messages of `c` are being drained. */
  ghost predicate Draining(s: Server, c: nat, extra: nat) {
    && c in s.conns && Tallied(s)
    && InOrder(s.conns[c], [], QueuedFor(s.jobs, c), s.stopping)
    && Counted(s.conns[c], |QueuedFor(s.jobs, c)| + extra)
    && (forall d :: d in s.conns && d != c ==> Settled(s, d, 0))
    && (forall d :: d in s.conns ==> Awaited(s, d))
  }

  // ------------------------------------------------------- one connection drained

  /** Taking the oldest deferred message and handling or dropping it. */
  lemma HeadHandled(k: Conn, queued: seq<Msg>, stopping: bool)
    requires InOrder(k, [], queued, stopping) && k.deferred != []
    ensures var rest := k.(deferred := k.deferred[1..]);
            && InOrder(rest.(handled := k.handled + [k.deferred[0]]), [], queued, stopping)
            && (!k.alive || stopping ==> InOrder(rest, [], queued, stopping))
  {
    var all := k.handled + [] + k.deferred + queued;
    assert all == k.handled + [k.deferred[0]] + [] + k.deferred[1..] + queued;
    assert all[..|k.handled|] + all[|k.handled| + 1..] == k.handled + [] + k.deferred[1..] + queued;
    SubsequenceDrop(all, k.arrived, |k.handled|);
  }

  /** Handled or dropped, the head of the deferred messages is gone. */
  ghost predicate Advanced(k: Conn, after: Conn, stopping: bool) {
    && k.deferred != []
    && after == k.(count := k.count - 1, deferred := k.deferred[1..], waiting := after.waiting, handled := after.handled)
    && after.handled == if k.alive && !stopping then k.handled + [k.deferred[0]] else k.handled
  }

  lemma AdvancedInOrder(k: Conn, after: Conn, queued: seq<Msg>, stopping: bool)
    requires Advanced(k, after, stopping) && InOrder(k, [], queued, stopping) && Counted(k, |queued|)
    ensures InOrder(after, [], queued, stopping) && Counted(after, |queued|)
  {
    HeadHandled(k, queued, stopping);
    hide Subsequence;
  }

  /** What asking for a hash does to the asking connection. */
  lemma AskHolds(s: Server, c: nat, source: string, now: nat)
    requires c in s.conns
    ensures var t := AskHash(s, c, source, now);
            && c in t.0.conns && t.0.conns[c] == s.conns[c].(waiting := s.conns[c].waiting || t.1)
            && (t.1 ==> c in t.0.queue.ids && s.conns[c].alive && !s.stopping)
            && t.0.deferred == s.deferred && t.0.jobs == s.jobs
  {
    AskTouches(s, c, source, now);
    hide Touches;
    EnqueueIds(s.queue, Q.Job(c, source, now + s.timeout));
    hide Q.Enqueue;
  }

  /** What handling a message does to its connection. */
  ghost predicate Handled(s: Server, t: Server, c: nat, m: Msg) {
    c in s.conns && c in t.conns &&
    var k := s.conns[c];
    && t.conns[c] == k.(count := k.count - 1, waiting := t.conns[c].waiting,
                        handled := if k.alive && !s.stopping then k.handled + [m] else k.handled)
    && (t.conns[c].waiting && !k.waiting ==> c in t.queue.ids)
    && t.deferred == s.deferred
  }

  lemma HandleIs(s: Server, c: nat, m: Msg, now: nat)
    requires c in s.conns
    ensures Handled(s, Handle0(s, c, m, now), c, m)
  {
    hide AskHash;
    if s.conns[c].alive && !s.stopping && m.asks.Some? {
      AskHolds(Noted(s, c, m), c, m.asks.value, now);
    }
  }

  lemma HandleAdvances(s: Server, c: nat, now: nat)
    requires c in s.conns && s.conns[c].deferred != []
    ensures var t := Handle0(Popped(s, c), c, s.conns[c].deferred[0], now);
            && Advanced(s.conns[c], t.conns[c], s.stopping)
            && (t.conns[c].waiting && !s.conns[c].waiting ==> c in t.queue.ids)
            && t.deferred == s.deferred - 1
  {
    hide Handle0;
    HandleIs(Popped(s, c), c, s.conns[c].deferred[0], now);
  }

  /** Draining ends with nothing deferred or with a request to wait for. */
  lemma {:induction false} DrainSettles(s: Server, c: nat, now: nat)
    requires c in s.conns && Tallied(s) && Awaited(s, c)
    requires InOrder(s.conns[c], [], QueuedFor(s.jobs, c), s.stopping) && Counted(s.conns[c], |QueuedFor(s.jobs, c)|)
    ensures var t := Drain0(s, c, now);
            && Touches(s, t, c) && Tallied(t) && Settled(t, c, 0) && Awaited(t, c)
    decreases |s.conns[c].deferred|
  {
    DrainTouches(s, c, now);
    var k := s.conns[c];
    if !k.waiting && k.deferred != [] {
      var t := Handle0(Popped(s, c), c, k.deferred[0], now);
      HandleAdvances(s, c, now);
      PoppedTouches(s, c);
      HandleTouches(Popped(s, c), c, k.deferred[0], now);
      TouchesChain(s, Popped(s, c), t, c);
      AdvancedInOrder(k, t.conns[c], QueuedFor(s.jobs, c), s.stopping);
      TouchedTally(s, t, c);
      hide Handle0;
      hide QueuedFor;
      hide InOrder;
      assert t.jobs == s.jobs && t.stopping == s.stopping;
      DrainSettles(t, c, now);
      DrainTouches(t, c, now);
      TouchesChain(s, t, Drain0(t, c, now), c);
    }
  }

  lemma TouchedTally(s: Server, t: Server, c: nat)
    requires c in s.conns && Touches(s, t, c) && Tallied(s)
    requires t.deferred - |t.conns[c].deferred| == s.deferred - |s.conns[c].deferred|
    ensures Tallied(t)
  {
    hide Q.Valid;
    TotalUpdate(s.conns, c, t.conns[c]);
    assert t.conns == s.conns[c := t.conns[c]];
  }

  // -------------------------------------------------------- pumping, callbacks

  /** One connection changed and is in order again; the others are as before. */
  lemma OrderlyTouched(s: Server, t: Server, d: nat, c: nat, extra: nat, due: set<nat>)
    requires Orderly(s, c, extra, due) && Touches(s, t, d) && Tallied(t)
    requires d in s.conns && d in t.conns && Settled(t, d, Share(d, c, extra)) && Awaited(t, d)
    ensures Orderly(t, c, extra, due - {d})
  {
    hide InOrder;
    hide QueuedFor;
    hide Q.Valid;
    hide Tallied;
    forall x | x in t.conns
      ensures Settled(t, x, Share(x, c, extra))
      ensures x !in due - {d} ==> Awaited(t, x)
    {
      if x != d {
        assert Settled(s, x, Share(x, c, extra));
        assert t.conns[x] == s.conns[x];
      }
    }
  }

  lemma FinishOrderly(s: Server, d: nat, now: nat, c: nat, extra: nat, due: set<nat>)
    requires Orderly(s, c, extra, due) && (d == c ==> extra == 0)
    ensures Orderly(Finish0(s, d, now), c, extra, due - {d})
  {
    if d in s.conns {
      var k := s.conns[d];
      var a := WithConn(s, d, k.(waiting := false));
      UpdateTouches(s, d, k.(waiting := false));
      TouchedTally(s, a, d);
      assert Settled(s, d, 0);
      hide Q.Valid;
      hide QueuedFor;
      hide Drain0;
      assert InOrder(a.conns[d], [], QueuedFor(a.jobs, d), a.stopping);
      DrainSettles(a, d, now);
      var t := Drain0(a, d, now);
      TouchesChain(s, a, t, d);
      TouchesKnown(s, t, d);
      hide Touches;
      hide InOrder;
      hide Settled;
      hide Tallied;
      hide Awaited;
      OrderlyTouched(s, t, d, c, extra, due);
    } else {
      assert forall x :: x in s.conns && x !in due - {d} ==> x !in due;
      hide Settled;
      hide Awaited;
      hide Tallied;
    }
  }

  lemma {:induction false} CallbacksOrderly(s: Server, expired: seq<Q.Job>, now: nat, c: nat, extra: nat, due: set<nat>)
    requires Orderly(s, c, extra, due) && (extra == 0 || c !in IdsOf(expired))
    ensures Orderly(Callbacks(s, expired, now), c, extra, due - IdsOf(expired))
    decreases |expired|
  {
    hide Orderly;
    hide Finish0;
    if expired == [] {
      assert due - IdsOf(expired) == due;
    } else {
      var d := expired[0].id;
      assert expired[0] in expired;
      FinishOrderly(s, d, now, c, extra, due);
      CallbacksOrderly(Finish0(s, d, now), expired[1..], now, c, extra, due - {d});
      assert expired == [expired[0]] + expired[1..];
      assert due - {d} - IdsOf(expired[1..]) == due - IdsOf(expired);
    }
  }

  lemma OrderlyQueue(s: Server, q: Q.Queue, c: nat, extra: nat, due: set<nat>)
    requires Orderly(s, c, extra, {})
    requires forall d :: d in s.queue.ids && d !in q.ids && d in Alive(s) ==> d in due
    ensures Orderly(s.(queue := q), c, extra, due)
  {
    var t := s.(queue := q);
    hide InOrder;
    hide QueuedFor;
    forall d | d in t.conns
      ensures Settled(t, d, Share(d, c, extra))
      ensures d !in due ==> Awaited(t, d)
    {
      assert Settled(s, d, Share(d, c, extra));
      assert Awaited(s, d);
    }
  }

  lemma StayingKept(q: Q.Queue, c: nat, now: nat, alive: set<nat>)
    requires Q.Valid(q) && Stays(q, c, now, alive)
    ensures c in q.ids
  {
    var key, i: nat :| Q.WaitsAt(q, key, i, c) && Q.Keep(q.sources[key].waiting[i], now, alive);
    assert Q.IsWaiting(q, c);
  }

  lemma PruneOrderly(s: Server, now: nat, c: nat, extra: nat)
    requires Q.Valid(s.queue) && Orderly(s, c, extra, {})
    requires extra == 0 || Stays(s.queue, c, now, Alive(s))
    ensures Orderly(PruneStep(s, now), c, extra, {})
  {
    var q := Q.Prune(s.queue, now, Alive(s));
    var expired := H.ExpiredSince(q.fates, |s.queue.fates|);
    PruneIds(s.queue, now, Alive(s));
    hide Q.Valid;
    hide Orderly;
    hide Stays;
    hide Callbacks;
    if extra > 0 {
      StayingKept(q, c, now, Alive(s));
    }
    forall d | d in s.queue.ids && d !in q.ids && d in Alive(s)
      ensures d in IdsOf(expired)
    {
    }
    hide Alive;
    OrderlyQueue(s, q, c, extra, IdsOf(expired));
    assert extra > 0 ==> c !in IdsOf(expired);
    CallbacksOrderly(s.(queue := q), expired, now, c, extra, IdsOf(expired));
    assert IdsOf(expired) - IdsOf(expired) == {};
  }

  lemma ScheduleOrderly(s: Server, now: nat, c: nat, extra: nat)
    requires Orderly(s, c, extra, {})
    ensures Orderly(ScheduleStep(s, now), c, extra, {})
  {
    ScheduleIds(s.queue, s.limits, 0, now);
    var t := ScheduleStep(s, now);
    hide Q.Schedule;
    assert t.queue.ids == s.queue.ids && t.conns == s.conns && t.jobs == s.jobs;
    hide ScheduleStep;
    hide InOrder;
    hide QueuedFor;
    forall d | d in t.conns
      ensures Settled(t, d, Share(d, c, extra)) && Awaited(t, d)
    {
      assert Settled(s, d, Share(d, c, extra));
      assert Awaited(s, d);
    }
  }

  lemma PumpOrderly(s: Server, now: nat, c: nat, extra: nat)
    requires Q.Valid(s.queue) && Orderly(s, c, extra, {})
    requires extra == 0 || Stays(s.queue, c, now, Alive(s))
    ensures Orderly(Pump(s, now), c, extra, {})
  {
    hide Orderly;
    hide Q.Valid;
    hide PruneStep;
    hide ScheduleStep;
    PruneOrderly(s, now, c, extra);
    ScheduleOrderly(PruneStep(s, now), now, c, extra);
  }

  // ------------------------------------------------------- handling at the top

  /** A change of `c` alone keeps the others in order. */
  lemma DrainingTouched(s: Server, t: Server, c: nat, before: nat, after: nat)
    requires Draining(s, c, before) && Touches(s, t, c) && Tallied(t) && c in t.conns
    requires InOrder(t.conns[c], [], QueuedFor(t.jobs, c), t.stopping) && Counted(t.conns[c], |QueuedFor(t.jobs, c)| + after)
    requires Awaited(t, c)
    ensures Draining(t, c, after)
  {
    hide InOrder;
    hide QueuedFor;
    hide Q.Valid;
    hide Tallied;
    forall x | x in t.conns && x != c
      ensures Settled(t, x, 0) && Awaited(t, x)
    {
      assert Settled(s, x, 0);
      assert t.conns[x] == s.conns[x];
    }
  }

  lemma DrainingOrderly(s: Server, c: nat, extra: nat)
    requires Draining(s, c, extra) && (s.conns[c].alive && !s.stopping && s.conns[c].deferred != [] ==> s.conns[c].waiting)
    ensures Orderly(s, c, extra, {})
  {
    hide InOrder;
    hide QueuedFor;
    hide Tallied;
  }

  lemma OrderlyDraining(s: Server, c: nat, extra: nat)
    requires Orderly(s, c, extra, {}) && c in s.conns
    ensures Draining(s, c, extra)
  {
    hide InOrder;
    hide QueuedFor;
    hide Tallied;
    assert Settled(s, c, extra);
    forall x | x in s.conns && x != c
      ensures Settled(s, x, 0)
    {
      assert Settled(s, x, Share(x, c, extra));
    }
  }

  lemma AskDrains(s: Server, c: nat, source: string, now: nat)
    requires Draining(s, c, 1)
    ensures Draining(AskHash(s, c, source, now).0, c, 1)
  {
    var u := AskHash(s, c, source, now).0;
    AskTouches(s, c, source, now);
    AskHolds(s, c, source, now);
    hide AskHash;
    hide QueuedFor;
    TouchedTally(s, u, c);
    hide Tallied;
    TouchesJobs(s, u, c);
    assert InOrder(u.conns[c], [], QueuedFor(u.jobs, c), u.stopping);
    hide InOrder;
    hide Touches;
    DrainingTouched(s, u, c, 1, 1);
  }

  lemma TouchesJobs(s: Server, t: Server, c: nat)
    requires Touches(s, t, c)
    ensures t.jobs == s.jobs && t.stopping == s.stopping && t.timeout == s.timeout && s.queue.ids <= t.queue.ids
    ensures Q.Valid(s.queue) ==> Q.Valid(t.queue)
  {
    hide Q.Valid;
  }

  /** After the message is noted: ask for a hash if needed, and pump. */
  lemma ProcessDrains(s: Server, c: nat, m: Msg, now: nat)
    requires c in s.conns && Q.Valid(s.queue) && 0 < s.timeout
    requires s.conns[c].alive && !s.stopping && !s.conns[c].waiting
    requires Draining(Noted(s, c, m), c, 1)
    ensures Draining(Process1(s, c, m, now), c, 1)
  {
    hide Draining;
    hide AskHash;
    hide Pump;
    hide Q.Valid;
    hide Stays;
    hide Touches;
    if m.asks.Some? {
      var a := Noted(s, c, m);
      var (u, ok) := AskHash(a, c, m.asks.value, now);
      AskDrains(a, c, m.asks.value, now);
      if ok {
        AskTouches(a, c, m.asks.value, now);
        TouchesJobs(a, u, c);
        AskHolds(a, c, m.asks.value, now);
        AskedStays(a, c, m.asks.value, now);
        DrainingOrderly(u, c, 1);
        PumpOrderly(u, now, c, 1);
        PumpFrame(u, now);
        OrderlyDraining(Pump(u, now), c, 1);
      }
    }
  }

  lemma AskedStays(s: Server, c: nat, source: string, now: nat)
    requires c in s.conns && 0 < s.timeout
    ensures var t := AskHash(s, c, source, now);
            t.1 ==> Stays(t.0.queue, c, now, Alive(t.0))
  {
    var t := AskHash(s, c, source, now);
    if t.1 {
      assert c in Alive(t.0);
      EnqueueStays(s.queue, Q.Job(c, source, now + s.timeout), now, Alive(t.0));
    }
  }

  lemma UncountInOrder(k: Conn, fly: seq<Msg>, queued: seq<Msg>, stopping: bool)
    requires InOrder(k, fly, queued, stopping)
    ensures InOrder(k.(count := k.count - 1), fly, queued, stopping)
  {
    hide Subsequence;
  }

  lemma UpdateDrains(s: Server, c: nat, k: Conn, before: nat, after: nat)
    requires Draining(s, c, before) && Settling(s.conns[c], k) && |k.deferred| == |s.conns[c].deferred|
    requires k.waiting == s.conns[c].waiting
    requires InOrder(k, [], QueuedFor(s.jobs, c), s.stopping) && Counted(k, |QueuedFor(s.jobs, c)| + after)
    ensures Draining(WithConn(s, c, k), c, after)
  {
    hide InOrder;
    hide QueuedFor;
    var t := WithConn(s, c, k);
    UpdateTouches(s, c, k);
    TouchedTally(s, t, c);
    hide Touches;
    hide Tallied;
    hide Settling;
    DrainingTouched(s, t, c, before, after);
  }

  lemma UncountDrains(s: Server, c: nat)
    requires Draining(s, c, 1)
    ensures Draining(Uncount(s, c), c, 0)
  {
    var k := s.conns[c].(count := s.conns[c].count - 1);
    UncountInOrder(s.conns[c], [], QueuedFor(s.jobs, c), s.stopping);
    hide InOrder;
    hide QueuedFor;
    hide Settled;
    hide Awaited;
    hide Tallied;
    assert Counted(k, |QueuedFor(s.jobs, c)| + 0);
    UpdateDrains(s, c, k, 1, 0);
    hide Draining;
  }

  lemma HeadNoted(s: Server, c: nat)
    requires Draining(s, c, 0) && !s.conns[c].waiting && s.conns[c].deferred != []
    ensures var k := s.conns[c];
            var a := Popped(s, c);
            var b := if k.alive && !s.stopping then Noted(a, c, k.deferred[0]) else a;
            Draining(b, c, 1)
  {
    hide InOrder;
    hide QueuedFor;
    hide Total;
    hide Touches;
    hide Settled;
    var k := s.conns[c];
    var a := Popped(s, c);
    HeadHandled(k, QueuedFor(s.jobs, c), s.stopping);
    PoppedTouches(s, c);
    TouchedTally(s, a, c);
    if k.alive && !s.stopping {
      var b := Noted(a, c, k.deferred[0]);
      UpdateTouches(a, c, b.conns[c]);
      TouchedTally(a, b, c);
      TouchesChain(s, a, b, c);
      DrainingTouched(s, b, c, 0, 1);
    } else {
      DrainingTouched(s, a, c, 0, 1);
    }
    hide Draining;
  }

  /** Handling the oldest deferred message, inside a completion job. */
  lemma HeadDrains(s: Server, c: nat, now: nat)
    requires Draining(s, c, 0) && Q.Valid(s.queue) && 0 < s.timeout
    requires !s.conns[c].waiting && s.conns[c].deferred != []
    ensures Draining(Handle1(Popped(s, c), c, s.conns[c].deferred[0], now), c, 0)
  {
    hide Q.Valid;
    hide Process1;
    hide Uncount;
    var k := s.conns[c];
    var m := k.deferred[0];
    hide Draining;
    var a := Popped(s, c);
    HeadNoted(s, c);
    if k.alive && !s.stopping {
      hide Noted;
      ProcessDrains(a, c, m, now);
      UncountDrains(Process1(a, c, m, now), c);
    } else {
      UncountDrains(a, c);
    }
  }

  lemma {:induction false} DrainDrains(s: Server, c: nat, now: nat)
    requires Draining(s, c, 0) && Q.Valid(s.queue) && 0 < s.timeout
    ensures Orderly(Drain1(s, c, now), c, 0, {})
    decreases |s.conns[c].deferred|
  {
    var k := s.conns[c];
    if k.waiting || k.deferred == [] {
      DrainingOrderly(s, c, 0);
    } else {
      var t := Handle1(Popped(s, c), c, k.deferred[0], now);
      HeadDrains(s, c, now);
      Handle1Frame(Popped(s, c), c, k.deferred[0], now);
      assert t.timeout == s.timeout && |t.conns[c].deferred| < |k.deferred|;
      hide Handle1;
      hide Draining;
      hide Q.Valid;
      DrainDrains(t, c, now);
    }
    hide Orderly;
    hide Handle1;
  }

  // ------------------------------------------------------------------- steps

  /** A connection whose cleanup is queued is dead. */
  ghost predicate Buried(s: Server) {
    forall job :: job in s.jobs && job.Cleanup? ==> job.conn in s.conns && !s.conns[job.conn].alive
  }

  ghost predicate InPlace(s: Server) {
    Orderly(s, 0, 0, {}) && Buried(s) && 0 < s.timeout
  }

  /** At most the flags of the connection changed, and it did not revive. */
  ghost predicate Fading(before: Conn, after: Conn) {
    after == before.(listed := after.listed, isOpen := after.isOpen, alive := after.alive) && (after.alive ==> before.alive)
  }

  /** Steps that neither move messages nor touch requests. */
  ghost predicate Fades(s: Server, t: Server) {
    && t.conns.Keys == s.conns.Keys && t.deferred == s.deferred && t.timeout == s.timeout
    && s.queue.ids <= t.queue.ids && (s.stopping ==> t.stopping)
    && (forall d :: d in s.conns ==> Fading(s.conns[d], t.conns[d]))
    && (forall d :: QueuedFor(t.jobs, d) == QueuedFor(s.jobs, d))
  }

  lemma FadingInOrder(k: Conn, after: Conn, queued: seq<Msg>, before: bool, stopping: bool)
    requires InOrder(k, [], queued, before) && Fading(k, after) && (before ==> stopping)
    ensures InOrder(after, [], queued, stopping)
  {
    hide Subsequence;
  }

  lemma FadesOrderly(s: Server, t: Server)
    requires Orderly(s, 0, 0, {}) && Fades(s, t)
    ensures Orderly(t, 0, 0, {})
  {
    hide QueuedFor;
    TotalSame(s.conns, t.conns, s.conns.Keys);
    hide Total;
    forall d | d in t.conns
      ensures Settled(t, d, Share(d, 0, 0)) && Awaited(t, d)
    {
      assert Settled(s, d, Share(d, 0, 0)) && Awaited(s, d);
      assert Fading(s.conns[d], t.conns[d]);
      FadingInOrder(s.conns[d], t.conns[d], QueuedFor(s.jobs, d), s.stopping, t.stopping);
      hide InOrder;
    }
  }

  lemma PlainJob(s: Server, job: AppJob)
    requires InPlace(s) && !job.Message? && (job.Cleanup? ==> job.conn in s.conns && !s.conns[job.conn].alive)
    ensures InPlace(s.(jobs := s.jobs + [job]))
  {
    var t := s.(jobs := s.jobs + [job]);
    hide Orderly;
    forall d
      ensures QueuedFor(t.jobs, d) == QueuedFor(s.jobs, d)
    {
      QueuedSnoc(s.jobs, job, d);
    }
    hide QueuedFor;
    FadesOrderly(s, t);
    assert forall j :: j in t.jobs ==> j in s.jobs || j == job;
  }

  lemma FadesInPlace(s: Server, t: Server)
    requires InPlace(s) && t.jobs == s.jobs && Fades(s, t)
    ensures InPlace(t)
  {
    hide Orderly;
    hide QueuedFor;
    FadesOrderly(s, t);
    forall job | job in t.jobs && job.Cleanup?
      ensures job.conn in t.conns && !t.conns[job.conn].alive
    {
      assert Fading(s.conns[job.conn], t.conns[job.conn]);
    }
  }

  lemma FlagsInPlace(s: Server, c: nat, k: Conn)
    requires InPlace(s) && c in s.conns && Fading(s.conns[c], k)
    ensures InPlace(WithConn(s, c, k))
  {
    hide Orderly;
    hide QueuedFor;
    FadesInPlace(s, WithConn(s, c, k));
  }

  lemma CleanUpInPlace(s: Server, c: nat)
    requires InPlace(s) && c in s.conns
    ensures InPlace(CleanUp(s, c)) && CleanUp(s, c).conns == s.conns[c := s.conns[c].(alive := false)]
  {
    hide Orderly;
    hide QueuedFor;
    var k := s.conns[c].(alive := false);
    var a := WithConn(s, c, k);
    FlagsInPlace(s, c, k);
    var b := a.(cleanups := a.cleanups + 1);
    FadesInPlace(a, b);
    FadesInPlace(b, b.(failed := true));
    PlainJob(b, Cleanup(c));
    hide InPlace;
  }

  lemma CloseInPlace(s: Server, c: nat)
    requires InPlace(s)
    ensures InPlace(CloseConn(s, c))
  {
    hide InPlace;
    hide CleanUp;
    if c in s.conns {
      CleanUpInPlace(s, c);
    }
  }

  lemma {:induction false} CloseAllInPlace(s: Server, conns: seq<nat>)
    requires InPlace(s)
    ensures InPlace(CloseAll(s, conns))
    decreases |conns|
  {
    hide InPlace;
    hide CloseConn;
    if conns != [] {
      CloseInPlace(s, conns[0]);
      CloseAllInPlace(CloseConn(s, conns[0]), conns[1..]);
    }
  }

  lemma GoneInPlace(s: Server, c: nat)
    requires InPlace(s)
    ensures InPlace(Finish(s, c))
  {
    hide InPlace;
    hide CleanUp;
    if c in s.conns {
      CleanUpInPlace(s, c);
      var a := CleanUp(s, c);
      FlagsInPlace(a, c, a.conns[c].(listed := false));
    }
  }

  lemma AcceptedInPlace(s: Server, c: Option<nat>)
    requires InPlace(s) && Known(s)
    ensures InPlace(Accepted(s, c))
  {
    var a := s.(accepting := false);
    assert InPlace(a) by {
      hide Orderly;
      hide QueuedFor;
      FadesInPlace(s, a);
    }
    if s.accepting && !s.stopping && c.Some? && c.value !in s.conns {
      NewInPlace(a, c.value);
    }
    hide InPlace;
  }

  /** Only `c` and its own queued messages change. */
  ghost predicate ChangesOnly(s: Server, t: Server, c: nat) {
    && c in t.conns && t.conns == s.conns[c := t.conns[c]] && t.timeout == s.timeout && t.stopping == s.stopping
    && (forall d :: d in s.queue.ids && d != c ==> d in t.queue.ids)
    && (forall d :: d != c ==> QueuedFor(t.jobs, d) == QueuedFor(s.jobs, d))
  }

  ghost predicate Others(s: Server, c: nat) {
    forall d :: d in s.conns && d != c ==> Settled(s, d, 0) && Awaited(s, d)
  }

  lemma OthersOrderly(s: Server, c: nat)
    requires Orderly(s, 0, 0, {})
    ensures Others(s, c)
  {
    hide Settled;
    hide Tallied;
    forall d | d in s.conns
      ensures Settled(s, d, 0)
    {
      assert Settled(s, d, Share(d, 0, 0));
    }
  }

  lemma OneChanged(s: Server, t: Server, c: nat)
    requires Others(s, c) && ChangesOnly(s, t, c) && Tallied(t)
    requires Settled(t, c, 0) && Awaited(t, c)
    ensures Orderly(t, 0, 0, {})
  {
    hide QueuedFor;
    hide InOrder;
    hide Tallied;
    forall d | d in t.conns
      ensures Settled(t, d, Share(d, 0, 0)) && Awaited(t, d)
    {
      if d != c {
        assert Settled(s, d, 0) && Awaited(s, d);
        assert t.conns[d] == s.conns[d];
      }
    }
  }

  lemma NewSettled(s: Server, c: nat)
    requires Known(s) && c !in s.conns
    ensures Settled(WithConn(s, c, NEW_CONN), c, 0) && Awaited(WithConn(s, c, NEW_CONN), c)
  {
    forall job | job in s.jobs
      ensures !(job.Message? && job.conn == c)
    {
      assert Knows(s, job);
    }
    QueuedNone(s.jobs, c);
    hide QueuedFor;
    hide Known;
    assert Embeds<Msg>([], [], []);
    assert NEW_CONN.handled + [] + NEW_CONN.deferred + [] == [];
  }

  lemma NewInPlace(s: Server, c: nat)
    requires InPlace(s) && Known(s) && c !in s.conns
    ensures InPlace(WithConn(s, c, NEW_CONN))
  {
    hide Known;
    hide Settled;
    var t := WithConn(s, c, NEW_CONN);
    NewSettled(s, c);
    TotalUpdate(s.conns, c, NEW_CONN);
    hide Total;
    OthersOrderly(s, c);
    OneChanged(s, t, c);
    hide Orderly;
  }

  /** An arriving message joins both ends of the order. */
  lemma ArriveInPlace(s: Server, c: nat, m: Msg)
    requires InPlace(s)
    ensures InPlace(Arrive(s, c, m))
  {
    hide InPlace;
    hide CloseConn;
    CloseInPlace(s, c);
    if c in s.conns && s.conns[c].count < BACKLOG {
      QueueMessage(s, c, m);
    }
  }

  ghost function Taken(s: Server, c: nat, m: Msg): Server
    requires c in s.conns
  {
    var k := s.conns[c];
    WithConn(s.(jobs := s.jobs + [Message(c, m)]), c, k.(count := k.count + 1, arrived := k.arrived + [m]))
  }

  lemma TakenSettled(s: Server, c: nat, m: Msg)
    requires c in s.conns && Settled(s, c, 0) && Awaited(s, c) && s.conns[c].count < BACKLOG
    ensures Settled(Taken(s, c, m), c, 0) && Awaited(Taken(s, c, m), c)
  {
    QueuedSnoc(s.jobs, Message(c, m), c);
    hide QueuedFor;
    GrownInOrder(s.conns[c], QueuedFor(s.jobs, c), m, s.stopping);
    hide InOrder;
  }

  lemma TakenOnly(s: Server, c: nat, m: Msg)
    requires c in s.conns
    ensures ChangesOnly(s, Taken(s, c, m), c)
  {
    forall d | d != c
      ensures QueuedFor(Taken(s, c, m).jobs, d) == QueuedFor(s.jobs, d)
    {
      QueuedSnoc(s.jobs, Message(c, m), d);
    }
    hide QueuedFor;
  }

  lemma TakenTallied(s: Server, c: nat, m: Msg)
    requires c in s.conns && Tallied(s)
    ensures Tallied(Taken(s, c, m))
  {
    TotalUpdate(s.conns, c, Taken(s, c, m).conns[c]);
    hide Total;
  }

  lemma TakenBuried(s: Server, c: nat, m: Msg)
    requires c in s.conns && Buried(s)
    ensures Buried(Taken(s, c, m))
  {
    assert forall j :: j in Taken(s, c, m).jobs ==> j in s.jobs || j == Message(c, m);
  }

  lemma QueueMessage(s: Server, c: nat, m: Msg)
    requires InPlace(s) && c in s.conns && s.conns[c].count < BACKLOG
    ensures InPlace(Taken(s, c, m))
  {
    hide QueuedFor;
    hide Tallied;
    hide Buried;
    assert Settled(s, c, Share(c, 0, 0)) && Awaited(s, c);
    TakenSettled(s, c, m);
    TakenOnly(s, c, m);
    TakenTallied(s, c, m);
    TakenBuried(s, c, m);
    hide Settled;
    hide ChangesOnly;
    OthersOrderly(s, c);
    hide Others;
    OneChanged(s, Taken(s, c, m), c);
    hide Orderly;
  }

  lemma GrownInOrder(k: Conn, queued: seq<Msg>, m: Msg, stopping: bool)
    requires InOrder(k, [], queued, stopping)
    ensures InOrder(k.(count := k.count + 1, arrived := k.arrived + [m]), [], queued + [m], stopping)
  {
    var all := k.handled + [] + k.deferred + queued;
    SubsequenceGrow(all, k.arrived, m);
    assert k.handled + [] + k.deferred + (queued + [m]) == all + [m];
    hide Subsequence;
  }

  // --------------------------------------------------------- application jobs

  /** The message `m` of `c` was just taken off the queue. */
  ghost predicate Arriving(p: Server, c: nat, m: Msg) {
    && c in p.conns && Tallied(p) && Others(p, c) && Attended(p, c) && Awaited(p, c)
    && InOrder(p.conns[c], [], [m] + QueuedFor(p.jobs, c), p.stopping)
    && Counted(p.conns[c], |QueuedFor(p.jobs, c)| + 1)
  }

  lemma TakeMessage(s: Server)
    requires InPlace(s) && s.jobs != [] && s.jobs[0].Message? && s.jobs[0].conn in s.conns
    ensures Arriving(s.(jobs := s.jobs[1..]), s.jobs[0].conn, s.jobs[0].msg)
  {
    var p := s.(jobs := s.jobs[1..]);
    var c := s.jobs[0].conn;
    forall d
      ensures QueuedFor(s.jobs, d) == (if d == c then [s.jobs[0].msg] else []) + QueuedFor(p.jobs, d)
    {
      QueuedHead(s.jobs, d);
    }
    OthersOrderly(s, c);
    assert Settled(s, c, Share(c, 0, 0)) && Awaited(s, c);
    hide QueuedFor;
    hide InOrder;
    hide Tallied;
    forall d | d in p.conns && d != c
      ensures Settled(p, d, 0) && Awaited(p, d)
    {
      assert Settled(s, d, 0) && Awaited(s, d);
      assert [] + QueuedFor(p.jobs, d) == QueuedFor(p.jobs, d);
    }
  }

  /** Lost or left unhandled, the message is out of the order. */
  lemma DroppedInOrder(k: Conn, after: Conn, m: Msg, queued: seq<Msg>, stopping: bool)
    requires InOrder(k, [], [m] + queued, stopping)
    requires after == k.(count := after.count, lost := after.lost) && (!k.alive || stopping || after.lost)
    ensures InOrder(after, [], queued, stopping)
  {
    var all := k.handled + [] + k.deferred + ([m] + queued);
    var i := |k.handled| + |k.deferred|;
    assert all[..i] + all[i + 1..] == k.handled + [] + k.deferred + queued;
    SubsequenceDrop(all, k.arrived, i);
    hide Subsequence;
  }

  lemma DeferredInOrder(k: Conn, m: Msg, queued: seq<Msg>, stopping: bool)
    requires InOrder(k, [], [m] + queued, stopping)
    ensures InOrder(k.(deferred := k.deferred + [m]), [], queued, stopping)
  {
    assert k.handled + [] + k.deferred + ([m] + queued) == k.handled + [] + (k.deferred + [m]) + queued;
    hide Subsequence;
  }

  lemma NotedInOrder(k: Conn, m: Msg, queued: seq<Msg>, stopping: bool)
    requires InOrder(k, [], [m] + queued, stopping) && k.deferred == []
    ensures InOrder(k.(handled := k.handled + [m]), [], queued, stopping)
  {
    assert k.handled + [] + k.deferred + ([m] + queued) == (k.handled + [m]) + [] + k.deferred + queued;
    hide Subsequence;
  }

  lemma SameJobs(s: Server, c: nat, k: Conn, deferred: int)
    ensures ChangesOnly(s, WithConn(s.(deferred := deferred), c, k), c)
  {
  }

  /** The connection `c` of `p` with a new record and counter. */
  lemma Replaced(p: Server, c: nat, k: Conn, deferred: int)
    requires Others(p, c) && c in p.conns && Tallied(p)
    requires deferred - |k.deferred| == p.deferred - |p.conns[c].deferred| && deferred <= DEFERRED_LIMIT
    requires InOrder(k, [], QueuedFor(p.jobs, c), p.stopping) && Counted(k, |QueuedFor(p.jobs, c)|)
    requires k.alive && !p.stopping ==> (k.deferred != [] ==> k.waiting) && (k.waiting ==> c in p.queue.ids)
    ensures Orderly(WithConn(p.(deferred := deferred), c, k), 0, 0, {})
  {
    var t := WithConn(p.(deferred := deferred), c, k);
    TotalUpdate(p.conns, c, k);
    hide Total;
    hide InOrder;
    hide QueuedFor;
    SameJobs(p, c, k, deferred);
    assert Settled(t, c, 0) && Awaited(t, c);
    hide ChangesOnly;
    hide Others;
    OneChanged(p, t, c);
    hide Orderly;
  }

  lemma DeferOrderly(p: Server, c: nat, m: Msg)
    requires Arriving(p, c, m) && p.conns[c].waiting
    ensures Orderly(Defer(p, c, m), 0, 0, {})
  {
    hide InOrder;
    hide QueuedFor;
    hide Others;
    hide Orderly;
    var k := p.conns[c];
    if p.deferred >= DEFERRED_LIMIT {
      var after := k.(count := k.count - 1, lost := true);
      DroppedInOrder(k, after, m, QueuedFor(p.jobs, c), p.stopping);
      Replaced(p, c, after, p.deferred);
    } else {
      DeferredInOrder(k, m, QueuedFor(p.jobs, c), p.stopping);
      Replaced(p, c, k.(deferred := k.deferred + [m]), p.deferred + 1);
    }
  }

  lemma DropOrderly(p: Server, c: nat, m: Msg)
    requires Arriving(p, c, m) && (!p.conns[c].alive || p.stopping)
    ensures Orderly(Uncount(p, c), 0, 0, {})
  {
    hide InOrder;
    hide QueuedFor;
    hide Others;
    hide Orderly;
    var k := p.conns[c];
    DroppedInOrder(k, k.(count := k.count - 1), m, QueuedFor(p.jobs, c), p.stopping);
    Replaced(p, c, k.(count := k.count - 1), p.deferred);
  }

  lemma NotedDrains(p: Server, c: nat, m: Msg)
    requires Arriving(p, c, m) && p.conns[c].deferred == []
    ensures Draining(Noted(p, c, m), c, 1)
  {
    var k := p.conns[c];
    var t := Noted(p, c, m);
    NotedInOrder(k, m, QueuedFor(p.jobs, c), p.stopping);
    hide InOrder;
    hide QueuedFor;
    TotalUpdate(p.conns, c, t.conns[c]);
    hide Total;
    forall x | x in t.conns
      ensures x != c ==> Settled(t, x, 0)
      ensures Awaited(t, x)
    {
      assert x != c ==> Settled(p, x, 0) && Awaited(p, x);
    }
  }

  lemma TopOrderly(p: Server, c: nat, m: Msg, now: nat)
    requires Arriving(p, c, m) && Q.Valid(p.queue) && 0 < p.timeout
    requires p.conns[c].alive && !p.stopping && !p.conns[c].waiting
    ensures Orderly(Handle1(p, c, m, now), 0, 0, {})
  {
    assert p.conns[c].deferred == [] by {
      hide InOrder;
    }
    NotedDrains(p, c, m);
    hide Arriving;
    hide Draining;
    hide Q.Valid;
    hide Process1;
    ProcessDrains(p, c, m, now);
    Process1Frame(p, c, m, now);
    var t := Process1(p, c, m, now);
    assert c in t.conns && |t.conns[c].deferred| <= 0;
    UncountDrains(t, c);
    DrainingOrderly(Uncount(t, c), c, 0);
    AnyShare(Uncount(t, c), c);
  }

  lemma AnyShare(s: Server, c: nat)
    requires Orderly(s, c, 0, {})
    ensures Orderly(s, 0, 0, {})
  {
    hide Settled;
    hide Tallied;
    hide Awaited;
    forall d | d in s.conns
      ensures Settled(s, d, Share(d, 0, 0))
    {
      assert Settled(s, d, Share(d, c, 0));
    }
  }

  lemma DispatchOrderly(p: Server, c: nat, m: Msg, now: nat)
    requires c in p.conns && Arriving(p, c, m) && Q.Valid(p.queue) && 0 < p.timeout
    ensures Orderly(Dispatch(p, c, m, now), 0, 0, {})
  {
    hide Orderly;
    hide Arriving;
    hide Q.Valid;
    hide Process1;
    hide Defer;
    var k := p.conns[c];
    if !k.alive || p.stopping {
      DropOrderly(p, c, m);
    } else if k.waiting {
      DeferOrderly(p, c, m);
    } else {
      TopOrderly(p, c, m, now);
    }
  }

  /** A job that is not a message leaves the order of messages alone. */
  lemma TakePlain(s: Server)
    requires InPlace(s) && s.jobs != [] && !s.jobs[0].Message?
    ensures InPlace(s.(jobs := s.jobs[1..]))
  {
    var p := s.(jobs := s.jobs[1..]);
    forall d
      ensures QueuedFor(p.jobs, d) == QueuedFor(s.jobs, d)
    {
      QueuedHead(s.jobs, d);
      assert [] + QueuedFor(p.jobs, d) == QueuedFor(p.jobs, d);
    }
    hide QueuedFor;
    hide Orderly;
    FadesOrderly(s, p);
    assert forall job :: job in p.jobs ==> job in s.jobs;
  }

  lemma CutInOrder(k: Conn, queued: seq<Msg>, stopping: bool)
    requires InOrder(k, [], queued, stopping) && !k.alive
    ensures InOrder(k.(count := k.count - |k.deferred|, deferred := []), [], queued, stopping)
  {
    var all := k.handled + [] + k.deferred + queued;
    var i, j := |k.handled|, |k.handled| + |k.deferred|;
    assert all[..i] + all[j..] == k.handled + [] + [] + queued;
    SubsequenceCut(all, k.arrived, i, j);
    hide Subsequence;
  }

  ghost function Emptied(k: Conn): Conn {
    k.(count := k.count - |k.deferred|, deferred := [])
  }

  lemma EmptiedOrderly(p: Server, c: nat)
    requires Orderly(p, 0, 0, {}) && c in p.conns && !p.conns[c].alive
    ensures Orderly(WithConn(p.(deferred := p.deferred - |p.conns[c].deferred|), c, Emptied(p.conns[c])), 0, 0, {})
  {
    hide Total;
    OthersOrderly(p, c);
    assert Settled(p, c, Share(c, 0, 0));
    CutInOrder(p.conns[c], QueuedFor(p.jobs, c), p.stopping);
    hide Awaited;
    hide Attended;
    hide InOrder;
    hide QueuedFor;
    hide Others;
    Replaced(p, c, Emptied(p.conns[c]), p.deferred - |p.conns[c].deferred|);
    hide Orderly;
  }

  lemma CleanupOrderly(p: Server, c: nat)
    requires Orderly(p, 0, 0, {}) && c in p.conns && !p.conns[c].alive && Q.Valid(p.queue)
    ensures Orderly(RunCleanup(p, c), 0, 0, {})
  {
    hide Orderly;
    hide Q.Cancel;
    hide Q.Valid;
    EmptiedOrderly(p, c);
    CancelHolds(p.queue, c);
    var a := WithConn(p.(deferred := p.deferred - |p.conns[c].deferred|), c, Emptied(p.conns[c]));
    CancelledOrderly(a, Q.Cancel(p.queue, c), c);
  }

  lemma CancelHolds(q: Q.Queue, c: nat)
    requires Q.Valid(q)
    ensures q.ids - {c} <= Q.Cancel(q, c).ids
  {
    H.ValidOutstanding(q);
    CancelIds(q, SortedKeys(q.sources.Keys), c);
  }

  lemma CancelledOrderly(a: Server, q: Q.Queue, c: nat)
    requires c in a.conns && !a.conns[c].alive && Orderly(a, 0, 0, {}) && a.queue.ids - {c} <= q.ids
    ensures Orderly(a.(queue := q, posted := a.posted + 1), 0, 0, {})
  {
    var t := a.(queue := q, posted := a.posted + 1);
    hide InOrder;
    hide QueuedFor;
    hide Tallied;
    forall d | d in t.conns
      ensures Settled(t, d, Share(d, 0, 0)) && Awaited(t, d)
    {
      assert Settled(a, d, Share(d, 0, 0)) && Awaited(a, d);
    }
  }

  /** A completion: the request is over, and what was deferred is handled. */
  lemma CompletionOrderly(p: Server, w: nat, c: nat, now: nat)
    requires Orderly(p, 0, 0, {}) && Fine(p) && 0 < p.timeout && c in p.conns
    requires w < |p.queue.running| && p.queue.running[w].Busy? && p.queue.running[w].job.id == c
    ensures Orderly(RunCompletion(p, w, c, now), 0, 0, {})
  {
    CompletedFine(p, w);
    CompleteIds(p.queue, w);
    var q := Q.Complete(p.queue, w).0;
    var b := p.(queue := q, hashers := p.hashers[w := Resting]);
    var a := WithConn(b, c, p.conns[c].(waiting := false));
    hide Q.Complete;
    hide Q.Valid;
    OthersOrderly(p, c);
    ReleasedDrains(p, a, c);
    DrainDrains(a, c, now);
    Drain1Frame(a, c, now);
    var d := Drain1(a, c, now);
    hide Drain1;
    hide Draining;
    AnyShare(d, c);
    PumpOrderly(d, now, 0, 0);
    hide Orderly;
    hide Pump;
    hide AppFrame;
    assert Q.Complete(p.queue, w).1 && w < |p.hashers|;
  }

  lemma ReleasedDrains(p: Server, a: Server, c: nat)
    requires Orderly(p, 0, 0, {}) && c in p.conns
    requires a == WithConn(p.(queue := a.queue, hashers := a.hashers), c, p.conns[c].(waiting := false))
    requires a.queue.ids == p.queue.ids - {c}
    ensures Draining(a, c, 0)
  {
    hide Total;
    hide QueuedFor;
    OthersOrderly(p, c);
    assert Settled(p, c, Share(c, 0, 0));
    TotalUpdate(p.conns, c, a.conns[c]);
    assert InOrder(a.conns[c], [], QueuedFor(a.jobs, c), a.stopping);
    hide InOrder;
    forall x | x in a.conns
      ensures x != c ==> Settled(a, x, 0)
      ensures Awaited(a, x)
    {
      assert x != c ==> Settled(p, x, 0) && Awaited(p, x);
    }
  }

  lemma MessageInPlace(s: Server, now: nat)
    requires InPlace(s) && Q.Valid(s.queue) && s.jobs != [] && s.jobs[0].Message? && s.jobs[0].conn in s.conns
    ensures InPlace(Dispatch(s.(jobs := s.jobs[1..]), s.jobs[0].conn, s.jobs[0].msg, now))
  {
    var p := s.(jobs := s.jobs[1..]);
    var c, m := s.jobs[0].conn, s.jobs[0].msg;
    TakeMessage(s);
    assert Buried(p) && 0 < p.timeout by {
      hide Orderly;
      assert forall job :: job in p.jobs ==> job in s.jobs;
    }
    hide Orderly;
    hide Arriving;
    hide Q.Valid;
    hide Buried;
    DispatchOrderly(p, c, m, now);
    DispatchKeeps(p, c, m, now);
    KeepsBuriedJobs(p, Dispatch(p, c, m, now));
    hide Dispatch;
  }

  /** Dispatching touches no queued job, no liveness and no timeout. */
  ghost predicate SameLives(s: Server, t: Server) {
    && t.jobs == s.jobs && t.timeout == s.timeout && t.conns.Keys == s.conns.Keys
    && (forall d :: d in s.conns ==> t.conns[d].alive == s.conns[d].alive)
  }

  lemma KeepsBuriedJobs(s: Server, t: Server)
    requires Buried(s) && SameLives(s, t)
    ensures Buried(t)
  {
  }

  lemma FrameLives(s: Server, t: Server)
    requires AppFrame(s, t)
    ensures SameLives(s, t)
  {
    forall d | d in s.conns
      ensures t.conns[d].alive == s.conns[d].alive
    {
      assert Settling(s.conns[d], t.conns[d]);
    }
  }

  lemma LivesChain(s: Server, t: Server, u: Server)
    requires SameLives(s, t) && SameLives(t, u)
    ensures SameLives(s, u)
  {
  }

  lemma DeferLives(p: Server, c: nat, m: Msg)
    requires c in p.conns
    ensures SameLives(p, Defer(p, c, m))
  {
  }

  lemma DispatchKeeps(p: Server, c: nat, m: Msg, now: nat)
    requires c in p.conns && Q.Valid(p.queue)
    ensures SameLives(p, Dispatch(p, c, m, now))
  {
    hide Handle1;
    hide AppFrame;
    hide Q.Valid;
    hide SameLives;
    hide Defer;
    DeferLives(p, c, m);
    Handle1Frame(p, c, m, now);
    FrameLives(p, Handle1(p, c, m, now));
  }

  lemma ReleasedLives(p: Server, w: nat, c: nat)
    requires c in p.conns && w < |p.hashers| && Q.Valid(p.queue)
    ensures SameLives(p, WithConn(p.(queue := Q.Complete(p.queue, w).0, hashers := p.hashers[w := Resting]), c, p.conns[c].(waiting := false)))
  {
    hide Q.Valid;
  }

  lemma FineSlots(p: Server, w: nat)
    requires Fine(p) && w < |p.queue.running|
    ensures w < |p.hashers| && Q.Valid(p.queue)
  {
    hide Q.Valid;
  }

  lemma FineQueue(p: Server)
    requires Fine(p)
    ensures Q.Valid(p.queue)
  {
    hide Q.Valid;
  }

  lemma CompletionKeeps(p: Server, w: nat, c: nat, now: nat)
    requires Fine(p) && c in p.conns
    requires w < |p.queue.running| && p.queue.running[w].Busy?
    ensures Q.Valid(p.queue) && SameLives(p, RunCompletion(p, w, c, now))
  {
    FineSlots(p, w);
    CompletedFine(p, w);
    var b := p.(queue := Q.Complete(p.queue, w).0, hashers := p.hashers[w := Resting]);
    FineQueue(b);
    hide Fine;
    hide Q.Complete;
    hide Q.Valid;
    hide Drain1;
    hide Pump;
    hide AppFrame;
    hide SameLives;
    var a := WithConn(b, c, p.conns[c].(waiting := false));
    ReleasedLives(p, w, c);
    Drain1Frame(a, c, now);
    var d := Drain1(a, c, now);
    FrameLives(a, d);
    LivesChain(p, a, d);
    PumpFrame(d, now);
    FrameLives(d, Pump(d, now));
    LivesChain(p, d, Pump(d, now));
    assert Q.Complete(p.queue, w).1 && w < |p.hashers|;
  }

  lemma CompletionInPlace(s: Server, now: nat)
    requires InPlace(s) && Reserved(s) && s.jobs != [] && s.jobs[0].Completion? && Knows(s, s.jobs[0])
    ensures Q.Valid(s.queue) && InPlace(RunCompletion(s.(jobs := s.jobs[1..]), s.jobs[0].worker, s.jobs[0].conn, now))
  {
    hide Q.Valid;
    hide Orderly;
    hide RunCompletion;
    hide Reserved;
    hide Fine;
    var p := s.(jobs := s.jobs[1..]);
    ReservedValid(s);
    TakePlain(s);
    FineSame(s, p);
    CompletionActive(s);
    CompletionOrderly(p, s.jobs[0].worker, s.jobs[0].conn, now);
    CompletionKeeps(p, s.jobs[0].worker, s.jobs[0].conn, now);
    KeepsBuriedJobs(p, RunCompletion(p, s.jobs[0].worker, s.jobs[0].conn, now));
  }

  lemma CleanupInPlace(s: Server)
    requires InPlace(s) && Reserved(s) && s.jobs != [] && s.jobs[0].Cleanup? && Knows(s, s.jobs[0])
    ensures Q.Valid(s.queue) && InPlace(RunCleanup(s.(jobs := s.jobs[1..]), s.jobs[0].conn))
  {
    hide Q.Valid;
    hide Orderly;
    hide RunCleanup;
    hide Reserved;
    hide Fine;
    var p := s.(jobs := s.jobs[1..]);
    ReservedValid(s);
    TakePlain(s);
    FineSame(s, p);
    assert s.jobs[0] in s.jobs;
    CleanupOrderly(p, s.jobs[0].conn);
    CleanupKeeps(p, s.jobs[0].conn);
  }

  lemma TickInPlace(s: Server, now: nat)
    requires InPlace(s) && Reserved(s) && s.jobs != [] && s.jobs[0].Tick?
    ensures Q.Valid(s.queue) && InPlace(Pump(s.(jobs := s.jobs[1..]), now))
  {
    hide Q.Valid;
    hide Orderly;
    hide Pump;
    hide Reserved;
    hide Fine;
    var p := s.(jobs := s.jobs[1..]);
    ReservedValid(s);
    TakePlain(s);
    PumpOrderly(p, now, 0, 0);
    PumpFrame(p, now);
    FrameLives(p, Pump(p, now));
    KeepsBuriedJobs(p, Pump(p, now));
  }

  lemma WorkInPlace(s: Server, now: nat)
    requires InPlace(s) && Reserved(s)
    ensures Q.Valid(s.queue) && InPlace(Step(s, Work(now)))
  {
    hide Q.Valid;
    hide InPlace;
    hide Reserved;
    hide Dispatch;
    hide RunCleanup;
    hide RunCompletion;
    hide Pump;
    ReservedValid(s);
    if s.jobs != [] && Knows(s, s.jobs[0]) {
      if s.jobs[0].Message? {
        MessageInPlace(s, now);
      } else {
        TakePlain(s);
        if s.jobs[0].Completion? {
          CompletionInPlace(s, now);
        } else if s.jobs[0].Cleanup? {
          CleanupInPlace(s);
        } else if s.jobs[0].Tick? {
          TickInPlace(s, now);
        }
      }
    }
    hide Fine;
  }

  lemma CleanupKeeps(p: Server, c: nat)
    requires Buried(p) && c in p.conns && Q.Valid(p.queue)
    ensures Buried(RunCleanup(p, c)) && RunCleanup(p, c).timeout == p.timeout
  {
    hide Q.Valid;
    hide Q.Cancel;
    KeepsBuriedJobs(p, RunCleanup(p, c));
  }

  lemma SweepInPlace(s: Server)
    requires InPlace(s) && Q.Valid(s.queue)
    ensures InPlace(Step(s, SweepTimer))
  {
    hide InPlace;
    hide Q.Valid;
    var a := s.(sweepDue := false);
    NetworkInPlace(s, a);
    NetworkInPlace(a, a.(failed := true));
    PlainJob(a, Sweep);
  }

  lemma StopInPlace(s: Server)
    requires InPlace(s) && Q.Valid(s.queue)
    ensures InPlace(Step(s, Stop))
  {
    hide InPlace;
    hide Q.Valid;
    hide CloseAll;
    hide SortedNats;
    var a := s.(stopping := true);
    NetworkInPlace(s, a);
    PlainJob(a, Farewell);
    var b := Submit(a, Farewell, true).0;
    CloseAllInPlace(b, SortedNats(Listed(b)));
  }

  lemma HashedInPlace(s: Server, w: nat)
    requires InPlace(s) && Q.Valid(s.queue)
    ensures InPlace(Step(s, Hashed(w)))
  {
    hide InPlace;
    hide Q.Valid;
    if w < |s.hashers| && s.hashers[w].Hashing? {
      var a := s.(hashers := s.hashers[w := Done(s.hashers[w].conn)]);
      NetworkInPlace(s, a);
      NetworkInPlace(a, a.(failed := true));
      PlainJob(a, Completion(w, s.hashers[w].conn));
    }
  }

  lemma StepInPlace(s: Server, e: Event)
    requires InPlace(s) && Reserved(s)
    ensures Q.Valid(s.queue) && InPlace(Step(s, e))
  {
    ReservedValid(s);
    ReservedKnown(s);
    if e.SweepTimer? {
      SweepInPlace(s);
      hide Step;
    } else if e.Stop? {
      StopInPlace(s);
      hide Step;
    } else if e.Hashed? {
      HashedInPlace(s, e.worker);
      hide Step;
    } else if e.Work? {
      WorkInPlace(s, e.now);
      hide Step;
    } else {
      hide Q.Valid;
      hide InPlace;
      hide Known;
      hide Reserved;
      OtherInPlace(s, e);
      hide Step;
    }
    hide Reserved;
    hide InPlace;
    hide Q.Valid;
    hide Known;
  }

  lemma OtherInPlace(s: Server, e: Event)
    requires InPlace(s) && Known(s) && Q.Valid(s.queue)
    requires !e.SweepTimer? && !e.Stop? && !e.Hashed? && !e.Work?
    ensures InPlace(Step(s, e))
  {
    hide Q.Valid;
    hide InPlace;
    hide Known;
    match e
    case TryAccept(tight) => NetworkInPlace(s, AcceptNext(s, tight));
    case AcceptDone(c) => AcceptedInPlace(s, c);
    case Open(c) =>
      if c in s.conns {
        FlagsInPlace(s, c, s.conns[c].(isOpen := true));
      }
    case Receive(c, m) => ArriveInPlace(s, c, m);
    case Close(c) => CloseInPlace(s, c);
    case Gone(c) => GoneInPlace(s, c);
    case Submitted(job) => PlainSubmitted(s, job);
    case Pick(w) =>
      if w < |s.hashers| && s.hashers[w].Queued? {
        NetworkInPlace(s, s.(hashers := s.hashers[w := Hashing(s.hashers[w].conn)]));
      }
    case Posted =>
      if s.posted > 0 && s.cleanups > 0 {
        NetworkInPlace(s, s.(posted := s.posted - 1, cleanups := s.cleanups - 1));
      }
  }

  lemma PlainSubmitted(s: Server, job: AppJob)
    requires InPlace(s)
    ensures Ordinary(job) ==> InPlace(Submit(s, job, false).0)
  {
    if Ordinary(job) {
      PlainJob(s, job);
    }
    hide InPlace;
  }

  lemma ReservedKnown(s: Server)
    requires Reserved(s)
    ensures Known(s)
  {
    hide Fine;
  }

  /** Steps of the network thread that touch no connection and no queue. */
  lemma NetworkInPlace(s: Server, t: Server)
    requires InPlace(s)
    requires t == s.(accepting := t.accepting, cleanups := t.cleanups, posted := t.posted, hashers := t.hashers,
                     sweepDue := t.sweepDue, stopping := t.stopping, failed := t.failed)
    requires s.stopping ==> t.stopping
    ensures InPlace(t)
  {
    hide Orderly;
    hide QueuedFor;
    FadesInPlace(s, t);
  }

  // -------------------------------------------------------------------- runs

  lemma NewInOrder(x: Setup)
    requires Proper(x)
    ensures InPlace(NewServer(x))
  {
  }

  lemma {:induction false} RunInPlace(x: Setup, events: seq<Event>)
    requires Proper(x)
    ensures InPlace(Run(x, events))
    decreases |events|
  {
    hide InPlace;
    hide Reserved;
    hide Step;
    if events == [] {
      NewInOrder(x);
    } else {
      RunInPlace(x, events[..|events| - 1]);
      StepInPlace(Run(x, events[..|events| - 1]), events[|events| - 1]);
    }
  }

  /** What the invariant says of one connection. */
  ghost predicate Ordered(s: Server, c: nat) {
    c in s.conns &&
    var k := s.conns[c];
    var queued := QueuedFor(s.jobs, c);
    && Subsequence(k.handled, k.arrived)
    && (k.alive && !k.lost && !s.stopping ==> k.arrived == k.handled + k.deferred + queued)
    && (k.alive && !s.stopping && k.deferred != [] ==> k.waiting && c in s.queue.ids)
    && k.count == |k.deferred| + |queued| <= 128
  }

  lemma InPlaceOrdered(s: Server, c: nat)
    requires InPlace(s) && c in s.conns
    ensures Ordered(s, c)
  {
    var k := s.conns[c];
    var queued := QueuedFor(s.jobs, c);
    assert Settled(s, c, Share(c, 0, 0)) && Awaited(s, c);
    hide QueuedFor;
    hide Total;
    var all := k.handled + [] + k.deferred + queued;
    assert all[..|k.handled|] + all[|all|..] == k.handled;
    assert k.handled + k.deferred + queued == all;
    SubsequenceCut(all, k.arrived, |k.handled|, |all|);
    hide Subsequence;
  }

  /** In every reachable state and for every connection: messages are handled in
      the order in which they arrived; while it lives and lost none, nothing is
      missing; deferred messages always have a queued or running request to wait
      for; and the counters are exact and limited. */
  lemma RunKeepsOrder(x: Setup, events: seq<Event>)
    requires Proper(x)
    ensures var s := Run(x, events);
            && (forall c :: c in s.conns ==> Ordered(s, c))
            && s.deferred == Total(s.conns, s.conns.Keys) <= 1024
  {
    RunInPlace(x, events);
    var s := Run(x, events);
    hide Run;
    hide Reserved;
    hide Total;
    assert Tallied(s);
    hide Orderly;
    hide Buried;
    forall c | c in s.conns
      ensures Ordered(s, c)
    {
      InPlaceOrdered(s, c);
    }
    hide Ordered;
  }
}
