/** What the server takes in, holds back and cleans up, event by event and over
    whole runs. */
module ServerHolds {
  import opened Ordering
  import opened WorkLimiting
  import opened QueueTurns
  import opened ServerSpec
  import opened ServerReserve
  import opened ServerOrder
  import opened ServerCleanups
  import Q = QueueSpec
  import H = QueueHistory

  // ----------------------------------------------------------------- holding back

  /** The request of `c` expired between the two queues. */
  ghost predicate ExpiredFor(q: Q.Queue, r: Q.Queue, c: nat) {
    exists i :: |q.fates| <= i < |r.fates| && r.fates[i].Expired? && r.fates[i].job.id == c
  }

  /** The connection goes on waiting for its request, and nothing of it is handled. */
  ghost predicate WaitsOn(s: Server, t: Server, c: nat) {
    c in s.conns && c in t.conns && t.conns[c].waiting && t.conns[c].handled == s.conns[c].handled
  }

  /** A connection that waits for its request waits on, unless the request expires. */
  ghost predicate HeldBack(s: Server, t: Server, c: nat) {
    && s.queue.fates <= t.queue.fates
    && (c in s.conns && s.conns[c].waiting ==> ExpiredFor(s.queue, t.queue, c) || WaitsOn(s, t, c))
  }

  lemma HeldChain(s: Server, t: Server, u: Server, c: nat)
    requires HeldBack(s, t, c) && HeldBack(t, u, c)
    ensures HeldBack(s, u, c)
  {
    if ExpiredFor(s.queue, t.queue, c) {
      var i :| |s.queue.fates| <= i < |t.queue.fates| && t.queue.fates[i].Expired? && t.queue.fates[i].job.id == c;
      assert u.queue.fates[i] == t.queue.fates[i];
    }
  }

  /** Changes of other connections. */
  lemma HeldSame(s: Server, t: Server, c: nat)
    requires s.queue.fates <= t.queue.fates
    requires c in s.conns ==> c in t.conns && t.conns[c] == s.conns[c]
    ensures HeldBack(s, t, c)
  {
  }

  lemma HeldUpdate(s: Server, d: nat, k: Conn, c: nat)
    requires d in s.conns
    requires d == c && s.conns[c].waiting ==> k.waiting && k.handled == s.conns[c].handled
    ensures HeldBack(s, WithConn(s, d, k), c)
  {
  }

  lemma EnqueueGrows(q: Q.Queue, job: Q.Job)
    ensures q.fates <= Q.Enqueue(q, job).0.fates
  {
  }

  lemma AskHeld(s: Server, d: nat, source: string, now: nat, c: nat)
    requires d in s.conns
    ensures HeldBack(s, AskHash(s, d, source, now).0, c)
  {
    EnqueueGrows(s.queue, Q.Job(d, source, now + s.timeout));
    HeldSame(s, s, c);
    hide Q.Enqueue;
  }

  lemma NotedHeld(s: Server, d: nat, m: Msg, c: nat)
    requires d in s.conns && d != c
    ensures HeldBack(s, Noted(s, d, m), c)
  {
    HeldUpdate(s, d, s.conns[d].(handled := s.conns[d].handled + [m]), c);
    hide HeldBack;
  }

  lemma UncountHeld(s: Server, d: nat, c: nat)
    requires d in s.conns
    ensures HeldBack(s, Uncount(s, d), c)
  {
    HeldUpdate(s, d, s.conns[d].(count := s.conns[d].count - 1), c);
    hide HeldBack;
  }

  lemma PoppedHeld(s: Server, d: nat, c: nat)
    requires d in s.conns && s.conns[d].deferred != []
    ensures HeldBack(s, Popped(s, d), c)
  {
  }

  lemma Handle0Held(s: Server, d: nat, m: Msg, now: nat, c: nat)
    requires d in s.conns && d != c
    ensures HeldBack(s, Handle0(s, d, m, now), c)
  {
    hide HeldBack;
    hide AskHash;
    HeldSame(s, s, c);
    var t := Noted(s, d, m);
    NotedHeld(s, d, m, c);
    var u := if m.asks.None? then t else AskHash(t, d, m.asks.value, now).0;
    if m.asks.Some? {
      AskHeld(t, d, m.asks.value, now, c);
      AskTouches(t, d, m.asks.value, now);
      TouchesKnown(t, u, d);
      HeldChain(s, t, u, c);
    }
    hide Touches;
    var v := if s.conns[d].alive && !s.stopping then u else s;
    assert Handle0(s, d, m, now) == Uncount(v, d);
    hide Handle0;
    hide Noted;
    hide Uncount;
    UncountHeld(v, d, c);
    HeldChain(s, v, Uncount(v, d), c);
  }

  lemma {:induction false} Drain0Held(s: Server, d: nat, now: nat, c: nat)
    requires d in s.conns && d != c
    ensures HeldBack(s, Drain0(s, d, now), c)
    decreases |s.conns[d].deferred|
  {
    hide HeldBack;
    hide Handle0;
    HeldSame(s, s, c);
    var k := s.conns[d];
    if !k.waiting && k.deferred != [] {
      var a := Popped(s, d);
      PoppedHeld(s, d, c);
      var b := Handle0(a, d, k.deferred[0], now);
      Handle0Held(a, d, k.deferred[0], now, c);
      HeldChain(s, a, b, c);
      Drain0Held(b, d, now, c);
      HeldChain(s, b, Drain0(b, d, now), c);
    }
  }

  /** Callbacks of other connections' requests. */
  lemma {:induction false} CallbacksHeld(s: Server, expired: seq<Q.Job>, now: nat, c: nat)
    requires forall job :: job in expired ==> job.id != c
    ensures HeldBack(s, Callbacks(s, expired, now), c)
    decreases |expired|
  {
    hide HeldBack;
    hide Drain0;
    HeldSame(s, s, c);
    if expired != [] {
      var d := expired[0].id;
      assert expired[0] in expired;
      var t := Finish0(s, d, now);
      if d in s.conns {
        var a := WithConn(s, d, s.conns[d].(waiting := false));
        HeldUpdate(s, d, s.conns[d].(waiting := false), c);
        Drain0Held(a, d, now, c);
        HeldChain(s, a, t, c);
      }
      CallbacksHeld(t, expired[1..], now, c);
      HeldChain(s, t, Callbacks(t, expired[1..], now), c);
    }
  }

  /** Whatever the callbacks do, the history of the queue only grows. */
  lemma {:induction false} Drain0Grows(s: Server, d: nat, now: nat)
    requires d in s.conns
    ensures s.queue.fates <= Drain0(s, d, now).queue.fates
    decreases |s.conns[d].deferred|
  {
    var k := s.conns[d];
    if !k.waiting && k.deferred != [] {
      var a := Popped(s, d);
      Handle0Grows(a, d, k.deferred[0], now);
      hide Handle0;
      Drain0Grows(Handle0(a, d, k.deferred[0], now), d, now);
    }
  }

  lemma Handle0Grows(s: Server, d: nat, m: Msg, now: nat)
    requires d in s.conns
    ensures s.queue.fates <= Handle0(s, d, m, now).queue.fates
  {
    Handle0Held(s, d, m, now, d + 1);
    hide Handle0;
  }

  lemma {:induction false} CallbacksGrow(s: Server, expired: seq<Q.Job>, now: nat)
    ensures s.queue.fates <= Callbacks(s, expired, now).queue.fates
    decreases |expired|
  {
    hide Drain0;
    if expired != [] {
      var d := expired[0].id;
      if d in s.conns {
        Drain0Grows(WithConn(s, d, s.conns[d].(waiting := false)), d, now);
      }
      CallbacksGrow(Finish0(s, d, now), expired[1..], now);
    }
  }

  lemma PruneHeld(s: Server, now: nat, c: nat)
    requires Q.Valid(s.queue)
    ensures HeldBack(s, PruneStep(s, now), c)
  {
    hide Q.Valid;
    hide Q.PruneKeys;
    hide Callbacks;
    var q := Q.Prune(s.queue, now, Alive(s));
    PruneKeysAdds(s.queue, SortedKeys(s.queue.sources.Keys), now, None, Alive(s));
    AddsPrefix(s.queue, q, now, None, Alive(s));
    hide Adds;
    var a := s.(queue := q);
    var expired := H.ExpiredSince(q.fates, |s.queue.fates|);
    var t := PruneStep(s, now);
    CallbacksGrow(a, expired, now);
    if job :| job in expired && job.id == c {
      ExpiredSinceHas(q.fates, |s.queue.fates|, job);
      var i :| |s.queue.fates| <= i < |q.fates| && q.fates[i] == Q.Expired(job);
      assert t.queue.fates[i] == q.fates[i];
      assert ExpiredFor(s.queue, t.queue, c);
    } else {
      HeldSame(s, a, c);
      CallbacksHeld(a, expired, now, c);
      HeldChain(s, a, t, c);
    }
    hide PruneStep;
    hide H.ExpiredSince;
  }

  lemma PumpHeld(s: Server, now: nat, c: nat)
    requires Q.Valid(s.queue)
    ensures HeldBack(s, Pump(s, now), c)
  {
    hide HeldBack;
    PruneHeld(s, now, c);
    var t := PruneStep(s, now);
    hide PruneStep;
    hide Q.Valid;
    hide Q.Schedule;
    ScheduleStarts(t.queue, t.limits, 0, now);
    var u := ScheduleStep(t, now);
    assert u.conns == t.conns && u.queue == Q.Schedule(t.queue, t.limits, 0, now).0;
    hide ScheduleStep;
    HeldSame(t, u, c);
    HeldChain(s, t, u, c);
  }

  lemma Handle1Held(s: Server, d: nat, m: Msg, now: nat, c: nat)
    requires d in s.conns && Q.Valid(s.queue) && (d != c || !s.conns[d].alive || s.stopping)
    ensures HeldBack(s, Handle1(s, d, m, now), c)
  {
    hide HeldBack;
    hide AskHash;
    hide Pump;
    hide Q.Valid;
    HeldSame(s, s, c);
    Process1Frame(s, d, m, now);
    var t := Noted(s, d, m);
    var v := if s.conns[d].alive && !s.stopping then Process1(s, d, m, now) else s;
    if s.conns[d].alive && !s.stopping {
      NotedHeld(s, d, m, c);
      if m.asks.Some? {
        var (u, ok) := AskHash(t, d, m.asks.value, now);
        AskHeld(t, d, m.asks.value, now, c);
        AskTouches(t, d, m.asks.value, now);
        TouchesFrame(t, u, d);
        HeldChain(s, t, u, c);
        PumpHeld(u, now, c);
        HeldChain(s, u, Pump(u, now), c);
      }
    }
    assert v.conns.Keys == s.conns.Keys;
    assert Handle1(s, d, m, now) == Uncount(v, d);
    hide Handle1;
    hide Process1;
    hide AppFrame;
    hide Touches;
    hide Uncount;
    UncountHeld(v, d, c);
    HeldChain(s, v, Uncount(v, d), c);
  }

  lemma {:induction false} Drain1Held(s: Server, d: nat, now: nat, c: nat)
    requires d in s.conns && Q.Valid(s.queue) && d != c
    ensures HeldBack(s, Drain1(s, d, now), c)
    decreases |s.conns[d].deferred|
  {
    hide HeldBack;
    hide Handle1;
    hide Q.Valid;
    HeldSame(s, s, c);
    var k := s.conns[d];
    if !k.waiting && k.deferred != [] {
      var a := Popped(s, d);
      PoppedHeld(s, d, c);
      var b := Handle1(a, d, k.deferred[0], now);
      Handle1Frame(a, d, k.deferred[0], now);
      Handle1Held(a, d, k.deferred[0], now, c);
      HeldChain(s, a, b, c);
      FrameShorter(a, b, d);
      Drain1Held(b, d, now, c);
      HeldChain(s, b, Drain1(b, d, now), c);
    }
  }

  lemma DeferHeld(s: Server, d: nat, m: Msg, c: nat)
    requires d in s.conns
    ensures HeldBack(s, Defer(s, d, m), c)
  {
  }

  lemma CancelGrows(q: Q.Queue, keys: seq<string>, id: nat)
    requires forall k :: k in keys ==> k in q.sources && q.sources[k].outstanding > 0
    ensures q.fates <= Q.CancelIn(q, keys, id).fates
    decreases |keys|
  {
    if keys != [] {
      var i := Q.Find(q.sources[keys[0]].waiting, id);
      if i == |q.sources[keys[0]].waiting| {
        CancelGrows(q, keys[1..], id);
      }
    }
  }

  lemma CleanupHeld(s: Server, d: nat, c: nat)
    requires d in s.conns && Q.Valid(s.queue)
    ensures HeldBack(s, RunCleanup(s, d), c)
  {
    H.ValidOutstanding(s.queue);
    CancelGrows(s.queue, SortedKeys(s.queue.sources.Keys), d);
    hide Q.Valid;
    hide Q.CancelIn;
    var t := RunCleanup(s, d);
    assert t.queue == Q.Cancel(s.queue, d);
    assert c in s.conns ==> c in t.conns && t.conns[c].waiting == s.conns[c].waiting && t.conns[c].handled == s.conns[c].handled;
    hide RunCleanup;
  }

  lemma CompletionHeld(s: Server, w: nat, d: nat, now: nat, c: nat)
    requires d in s.conns && Q.Valid(s.queue) && d != c
    ensures HeldBack(s, RunCompletion(s, w, d, now), c)
  {
    hide HeldBack;
    hide Drain1;
    hide Pump;
    HeldSame(s, s.(failed := true), c);
    var (q, ok) := Q.Complete(s.queue, w);
    if ok && w < |s.hashers| {
      Q.FreeValid(s.queue, w);
      hide Q.Valid;
      assert q.fates == s.queue.fates;
      hide Q.Complete;
      var a := WithConn(s.(queue := q, hashers := s.hashers[w := Resting]), d, s.conns[d].(waiting := false));
      HeldSame(s, a, c);
      Drain1Frame(a, d, now);
      Drain1Held(a, d, now, c);
      var b := Drain1(a, d, now);
      HeldChain(s, a, b, c);
      PumpHeld(b, now, c);
      HeldChain(s, b, Pump(b, now), c);
    }
    hide Q.Valid;
    hide AppFrame;
  }

  /** The job completes the request of `c`. */
  ghost predicate Completes(job: AppJob, c: nat) {
    job.Completion? && job.conn == c
  }

  lemma JobHeld(s: Server, job: AppJob, now: nat, c: nat)
    requires Q.Valid(s.queue) && Knows(s, job) && !Completes(job, c)
    ensures HeldBack(s, RunJob(s, job, now), c)
  {
    hide HeldBack;
    hide Q.Valid;
    hide Handle1;
    hide Defer;
    hide RunCleanup;
    hide RunCompletion;
    hide Pump;
    HeldSame(s, s, c);
    match job {
      case Message(d, m) =>
        DeferHeld(s, d, m, c);
        if !(s.conns[d].alive && !s.stopping && s.conns[d].waiting) {
          MessageHeld(s, d, m, now, c);
        }
      case Cleanup(d) => CleanupHeld(s, d, c);
      case Completion(w, d) => CompletionHeld(s, w, d, now, c);
      case Tick => PumpHeld(s, now, c);
      case _ =>
    }
  }

  lemma MessageHeld(s: Server, d: nat, m: Msg, now: nat, c: nat)
    requires Q.Valid(s.queue) && d in s.conns && !(s.conns[d].alive && !s.stopping && s.conns[d].waiting)
    ensures HeldBack(s, Handle1(s, d, m, now), c)
  {
    if d != c || !s.conns[d].alive || s.stopping {
      Handle1Held(s, d, m, now, c);
    } else {
      Handle1Grows(s, d, m, now);
      hide Handle1;
      hide Q.Valid;
    }
  }

  lemma MessageGrows(s: Server, d: nat, m: Msg, now: nat, c: nat)
    requires d in s.conns && Q.Valid(s.queue) && d != c
    ensures s.queue.fates <= Handle1(s, d, m, now).queue.fates
  {
    Handle1Held(s, d, m, now, c);
    hide Handle1;
    hide Q.Valid;
  }

  lemma Handle1Grows(s: Server, d: nat, m: Msg, now: nat)
    requires d in s.conns && Q.Valid(s.queue)
    ensures s.queue.fates <= Handle1(s, d, m, now).queue.fates
  {
    MessageGrows(s, d, m, now, d + 1);
    hide Handle1;
    hide Q.Valid;
  }

  // --------------------------------------------------------------------- whole runs

  lemma OutsideHeld(s: Server, t: Server, c: nat)
    requires Outside(s, t, c)
    ensures HeldBack(s, t, c)
  {
    hide Cleanups;
  }

  lemma StepHoldsBack(s: Server, e: Event, c: nat)
    requires Reserved(s)
    ensures Q.Valid(s.queue)
    ensures var t := Step(s, e);
            c in s.conns && s.conns[c].waiting ==>
              || (e.Work? && s.jobs != [] && Completes(s.jobs[0], c))
              || ExpiredFor(s.queue, t.queue, c)
              || (c in t.conns && t.conns[c].waiting && t.conns[c].handled == s.conns[c].handled)
  {
    hide Q.Valid;
    hide Reserved;
    ReservedValid(s);
    if e.Work? {
      if s.jobs != [] {
        HeadKnown(s);
        WorkHeld(s, e.now, c);
      }
      hide RunJob;
    } else {
      StepOutside(s, e, c);
      OutsideHeld(s, Step(s, e), c);
      hide Step;
      hide Outside;
    }
    hide ExpiredFor;
    hide Completes;
  }

  lemma WorkHeld(s: Server, now: nat, c: nat)
    requires Q.Valid(s.queue) && s.jobs != [] && Knows(s, s.jobs[0])
    ensures var a := s.(jobs := s.jobs[1..]);
            Knows(a, s.jobs[0]) && (Completes(s.jobs[0], c) || HeldBack(s, RunJob(a, s.jobs[0], now), c))
  {
    hide Q.Valid;
    hide RunJob;
    var a := s.(jobs := s.jobs[1..]);
    if !Completes(s.jobs[0], c) {
      JobHeld(a, s.jobs[0], now, c);
      HeldSame(s, a, c);
      HeldChain(s, a, RunJob(a, s.jobs[0], now), c);
    }
    hide HeldBack;
  }

  /** Over every run: while a connection waits for its request, no event handles a
      message of it, but the completion of that request and its expiry. */
  lemma RunHoldsBack(x: Setup, events: seq<Event>, c: nat)
    requires Proper(x) && events != []
    ensures var s, t, e := Run(x, events[..|events| - 1]), Run(x, events), events[|events| - 1];
            c in s.conns && s.conns[c].waiting ==>
              || (e.Work? && s.jobs != [] && Completes(s.jobs[0], c))
              || ExpiredFor(s.queue, t.queue, c)
              || (c in t.conns && t.conns[c].waiting && t.conns[c].handled == s.conns[c].handled)
  {
    hide Reserved;
    hide Step;
    hide ExpiredFor;
    hide Completes;
    var before := events[..|events| - 1];
    StepHoldsBack(Run(x, before), events[|events| - 1], c);
  }

  // ------------------------------------------------------------------- what is lost

  /** Only the connection whose message is dispatched can lose one. */
  ghost predicate LosesNone(s: Server, t: Server) {
    forall c :: c in s.conns && c in t.conns ==> t.conns[c].lost == s.conns[c].lost
  }

  lemma FrameLosesNone(s: Server, t: Server)
    requires AppFrame(s, t)
    ensures LosesNone(s, t)
  {
  }

  lemma CompletionLosesNone(s: Server, w: nat, d: nat, now: nat)
    requires d in s.conns && Q.Valid(s.queue)
    ensures LosesNone(s, RunCompletion(s, w, d, now))
  {
    hide Drain1;
    hide Pump;
    hide AppFrame;
    hide Q.Valid;
    hide Q.Complete;
    hide Q.Free;
    var (q, ok) := Q.Complete(s.queue, w);
    if ok && w < |s.hashers| {
      CompletedValid(s.queue, w);
      var a := WithConn(s.(queue := q, hashers := s.hashers[w := Resting]), d, s.conns[d].(waiting := false));
      Drain1Frame(a, d, now);
      var b := Drain1(a, d, now);
      FrameLosesNone(a, b);
      FrameKeys(a, b);
      PumpFrame(b, now);
      FrameLosesNone(b, Pump(b, now));
    }
  }

  lemma FrameKeys(s: Server, t: Server)
    requires AppFrame(s, t)
    ensures t.conns.Keys == s.conns.Keys
  {
  }

  lemma JobLoses(s: Server, job: AppJob, now: nat, c: nat)
    requires Q.Valid(s.queue) && Knows(s, job) && c in s.conns
    ensures var t := RunJob(s, job, now);
            c in t.conns && t.conns[c].lost && !s.conns[c].lost ==>
              job.Message? && job.conn == c && s.conns[c].waiting && s.deferred >= 1024
  {
    hide Q.Valid;
    hide Handle1;
    hide RunCompletion;
    hide Pump;
    hide AppFrame;
    hide LosesNone;
    match job {
      case Message(d, m) =>
        Handle1Frame(s, d, m, now);
        FrameLosesNone(s, Handle1(s, d, m, now));
        LostNone(s, Handle1(s, d, m, now), c);
      case Cleanup(d) => hide Q.Cancel;
      case Completion(w, d) =>
        CompletionLosesNone(s, w, d, now);
        LostNone(s, RunCompletion(s, w, d, now), c);
      case Tick =>
        PumpFrame(s, now);
        FrameLosesNone(s, Pump(s, now));
        LostNone(s, Pump(s, now), c);
      case _ =>
    }
  }

  lemma LostNone(s: Server, t: Server, c: nat)
    requires LosesNone(s, t)
    ensures c in s.conns && c in t.conns ==> t.conns[c].lost == s.conns[c].lost
  {
  }

  lemma StepLoses(s: Server, e: Event, c: nat)
    requires Reserved(s) && InPlace(s)
    ensures Q.Valid(s.queue)
    ensures var t := Step(s, e);
            c in s.conns && c in t.conns && t.conns[c].lost && !s.conns[c].lost ==>
              && e.Work? && s.jobs != [] && s.jobs[0].Message? && s.jobs[0].conn == c && s.conns[c].waiting
              && Total(s.conns, s.conns.Keys) >= 1024
  {
    hide Q.Valid;
    hide Reserved;
    hide Total;
    ReservedValid(s);
    assert s.deferred == Total(s.conns, s.conns.Keys);
    hide InPlace;
    if e.Work? {
      if s.jobs != [] {
        HeadKnown(s);
        if c in s.conns {
          JobLoses(s.(jobs := s.jobs[1..]), s.jobs[0], e.now, c);
        }
      }
      hide RunJob;
    } else {
      StepOutside(s, e, c);
      hide Step;
      hide Cleanups;
    }
  }

  /** Over every run: a message is lost only when it is dispatched while its
      connection waits for a request and 1024 messages are deferred already. */
  lemma RunLosesOnly(x: Setup, events: seq<Event>, c: nat)
    requires Proper(x) && events != []
    ensures var s, t, e := Run(x, events[..|events| - 1]), Run(x, events), events[|events| - 1];
            c in s.conns && c in t.conns && t.conns[c].lost && !s.conns[c].lost ==>
              && e.Work? && s.jobs != [] && s.jobs[0].Message? && s.jobs[0].conn == c && s.conns[c].waiting
              && Total(s.conns, s.conns.Keys) >= 1024
  {
    hide Reserved;
    hide Step;
    hide InPlace;
    hide Total;
    var before := events[..|events| - 1];
    RunInPlace(x, before);
    StepLoses(Run(x, before), events[|events| - 1], c);
  }
}
