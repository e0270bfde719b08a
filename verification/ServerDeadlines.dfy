/** When requests for a password hash are given up, over runs of the server: not
    before the configured time after their acceptance, and not later than the
    first pump after it; and why one still waits while a worker rests. */
module ServerDeadlines {
  import opened Ordering
  import opened WorkLimiting
  import opened QueueTurns
  import opened QueueWindows
  import opened ServerSpec
  import opened ServerReserve
  import opened ServerOrder
  import opened ServerFairness
  import opened ServerCleanups
  import opened QueueIds
  import Q = QueueSpec
  import H = QueueHistory

  // ------------------------------------------------------------- inside one job

  /** A part of a job at `now`: what it adds is due, and nobody dies meanwhile. */
  ghost predicate Proceeds(s: Server, t: Server, now: nat) {
    && Adds(s.queue, t.queue, now, Some(s.timeout), Alive(s))
    && t.timeout == s.timeout && Alive(t) == Alive(s)
  }

  lemma ProceedsChain(s: Server, t: Server, u: Server, now: nat)
    requires Proceeds(s, t, now) && Proceeds(t, u, now)
    ensures Proceeds(s, u, now)
  {
    hide Alive;
    AddsChain(s.queue, t.queue, u.queue, now, Some(s.timeout), Alive(s));
    hide Adds;
  }

  lemma SelfProceeds(s: Server, now: nat)
    ensures Proceeds(s, s, now)
  {
    AddsSelf(s.queue, s.queue, now, Some(s.timeout), Alive(s));
    hide Adds;
  }

  lemma SameConnsAlive(s: Server, t: Server)
    requires t.conns == s.conns
    ensures Alive(t) == Alive(s)
  {
  }

  /** One connection changes, without dying, and the queue's history does not. */
  ghost predicate OneConn(s: Server, t: Server, c: nat) {
    && c in s.conns && c in t.conns && t.conns == s.conns[c := t.conns[c]]
    && t.conns[c].alive == s.conns[c].alive && t.queue.fates == s.queue.fates && t.timeout == s.timeout
  }

  lemma NotedIs(s: Server, c: nat, m: Msg)
    requires c in s.conns
    ensures OneConn(s, Noted(s, c, m), c) && Noted(s, c, m).queue == s.queue
  {
  }

  lemma UncountIs(s: Server, c: nat)
    requires c in s.conns
    ensures OneConn(s, Uncount(s, c), c) && Uncount(s, c).queue == s.queue
  {
  }

  lemma DeferIs(s: Server, c: nat, m: Msg)
    requires c in s.conns
    ensures OneConn(s, Defer(s, c, m), c)
  {
  }

  /** A change of one connection that leaves it alive or dead. */
  lemma UpdateProceeds(s: Server, t: Server, c: nat, now: nat)
    requires OneConn(s, t, c)
    ensures Proceeds(s, t, now)
  {
    AddsSelf(s.queue, t.queue, now, Some(s.timeout), Alive(s));
    hide Adds;
  }

  lemma LiveAlive(s: Server, c: nat)
    requires c in s.conns && s.conns[c].alive
    ensures c in Alive(s)
  {
  }

  lemma AddsProceeds(s: Server, t: Server, now: nat)
    requires Adds(s.queue, t.queue, now, Some(s.timeout), Alive(s)) && t.timeout == s.timeout && Alive(t) == Alive(s)
    ensures Proceeds(s, t, now)
  {
  }

  lemma AskProceeds(s: Server, c: nat, source: string, now: nat)
    requires c in s.conns && 0 < s.timeout
    ensures Proceeds(s, AskHash(s, c, source, now).0, now)
    ensures InTime(s.queue, now, Alive(s)) ==> InTime(AskHash(s, c, source, now).0.queue, now, Alive(s))
  {
    hide Adds;
    hide InTime;
    hide Q.Enqueue;
    hide Alive;
    hide Proceeds;
    var k := s.conns[c];
    SelfProceeds(s, now);
    if !s.stopping && k.alive && !k.waiting {
      var job := Q.Job(c, source, now + s.timeout);
      var t := s.(queue := Q.Enqueue(s.queue, job).0);
      assert c in Alive(s) by {
        LiveAlive(s, c);
      }
      EnqueueAdds(s.queue, job, now, Some(s.timeout), Alive(s));
      SameConnsAlive(s, t);
      AddsProceeds(s, t, now);
      var u := WithConn(t, c, k.(waiting := true));
      UpdateProceeds(t, u, c, now);
      ProceedsAlive(t, u, now);
      ProceedsChain(s, t, u, now);
    }
  }

  lemma Handle0Proceeds(s: Server, c: nat, m: Msg, now: nat)
    requires c in s.conns && 0 < s.timeout
    ensures Proceeds(s, Handle0(s, c, m, now), now)
    ensures InTime(s.queue, now, Alive(s)) ==> InTime(Handle0(s, c, m, now).queue, now, Alive(s))
  {
    hide Proceeds;
    hide InTime;
    hide Alive;
    hide AskHash;
    hide OneConn;
    SelfProceeds(s, now);
    var t := Noted(s, c, m);
    NotedIs(s, c, m);
    UpdateProceeds(s, t, c, now);
    ProceedsAlive(s, t, now);
    var u := if m.asks.None? then t else AskHash(t, c, m.asks.value, now).0;
    if m.asks.Some? {
      AskProceeds(t, c, m.asks.value, now);
      AskTouches(t, c, m.asks.value, now);
      TouchesKnown(t, u, c);
      ProceedsChain(s, t, u, now);
    }
    var v := if s.conns[c].alive && !s.stopping then u else s;
    assert Handle0(s, c, m, now) == Uncount(v, c);
    hide Handle0;
    hide Touches;
    hide Noted;
    hide Uncount;
    UncountIs(v, c);
    UpdateProceeds(v, Uncount(v, c), c, now);
    ProceedsChain(s, v, Uncount(v, c), now);
  }

  lemma ProceedsAlive(s: Server, t: Server, now: nat)
    requires Proceeds(s, t, now)
    ensures Alive(t) == Alive(s) && t.timeout == s.timeout
  {
  }

  lemma {:induction false} Drain0Proceeds(s: Server, c: nat, now: nat)
    requires c in s.conns && 0 < s.timeout
    ensures Proceeds(s, Drain0(s, c, now), now)
    ensures InTime(s.queue, now, Alive(s)) ==> InTime(Drain0(s, c, now).queue, now, Alive(s))
    decreases |s.conns[c].deferred|
  {
    hide Proceeds;
    hide InTime;
    hide Alive;
    hide Handle0;
    UpdateProceeds(s, s, c, now);
    var k := s.conns[c];
    if !k.waiting && k.deferred != [] {
      var a := Popped(s, c);
      UpdateProceeds(s, a, c, now);
      ProceedsAlive(s, a, now);
      var b := Handle0(a, c, k.deferred[0], now);
      Handle0Proceeds(a, c, k.deferred[0], now);
      ProceedsAlive(a, b, now);
      ProceedsChain(s, a, b, now);
      Drain0Proceeds(b, c, now);
      ProceedsChain(s, b, Drain0(b, c, now), now);
    }
  }

  lemma {:induction false} CallbacksProceed(s: Server, expired: seq<Q.Job>, now: nat)
    requires 0 < s.timeout
    ensures Proceeds(s, Callbacks(s, expired, now), now)
    ensures InTime(s.queue, now, Alive(s)) ==> InTime(Callbacks(s, expired, now).queue, now, Alive(s))
    decreases |expired|
  {
    hide Proceeds;
    hide InTime;
    hide Alive;
    hide Drain0;
    SelfProceeds(s, now);
    if expired != [] {
      var c := expired[0].id;
      var t := Finish0(s, c, now);
      if c in s.conns {
        var a := WithConn(s, c, s.conns[c].(waiting := false));
        UpdateProceeds(s, a, c, now);
        ProceedsAlive(s, a, now);
        Drain0Proceeds(a, c, now);
        ProceedsChain(s, a, t, now);
      }
      ProceedsAlive(s, t, now);
      CallbacksProceed(t, expired[1..], now);
      ProceedsChain(s, t, Callbacks(t, expired[1..], now), now);
    }
  }

  /** A pump leaves only requests that are in time. */
  lemma PumpProceeds(s: Server, limit: nat, now: nat)
    requires Serves(s, limit, now) && 0 < s.timeout
    ensures Q.Valid(s.queue) && Proceeds(s, Pump(s, now), now)
    ensures InTime(Pump(s, now).queue, now, Alive(s))
  {
    assert H.Sane(s.queue);
    hide Serves;
    hide H.Sane;
    hide Adds;
    hide InTime;
    hide Alive;
    hide Q.Valid;
    hide Q.Prune;
    hide Q.Schedule;
    hide Callbacks;
    H.SaneValid(s.queue);
    var q := Q.Prune(s.queue, now, Alive(s));
    PruneAdds(s.queue, now, Some(s.timeout), Alive(s));
    var a := s.(queue := q);
    assert Alive(a) == Alive(s) by {
      SameConnsAlive(s, a);
    }
    var t := PruneStep(s, now);
    CallbacksProceed(a, H.ExpiredSince(q.fates, |s.queue.fates|), now);
    ProceedsChain(s, a, t, now);
    ScheduleAdds(t.queue, t.limits, 0, now, Some(t.timeout), Alive(t));
    var u := ScheduleStep(t, now);
    SameConnsAlive(t, u);
    ProceedsChain(s, t, u, now);
    hide PruneStep;
    hide ScheduleStep;
  }

  lemma Handle1Proceeds(s: Server, c: nat, m: Msg, limit: nat, now: nat)
    requires Serves(s, limit, now) && c in s.conns && 0 < s.timeout
    ensures Q.Valid(s.queue) && Proceeds(s, Handle1(s, c, m, now), now)
  {
    hide Keeps;
    hide Q.Valid;
    hide AskHash;
    hide Pump;
    hide Proceeds;
    hide Alive;
    hide InTime;
    KeepsValid(s.queue, s.limits, now);
    SelfProceeds(s, now);
    var t := Noted(s, c, m);
    UpdateProceeds(s, t, c, now);
    ProceedsAlive(s, t, now);
    Process1Frame(s, c, m, now);
    var u := if s.conns[c].alive && !s.stopping then Process1(s, c, m, now) else s;
    if m.asks.Some? {
      var (a, ok) := AskHash(t, c, m.asks.value, now);
      AskServes(t, c, m.asks.value, limit, now);
      AskProceeds(t, c, m.asks.value, now);
      ProceedsAlive(t, a, now);
      ProceedsChain(s, t, a, now);
      PumpProceeds(a, limit, now);
      ProceedsChain(s, a, Pump(a, now), now);
    }
    assert Proceeds(s, u, now);
    assert u.conns.Keys == s.conns.Keys;
    hide AppFrame;
    hide Serves;
    UpdateProceeds(u, Uncount(u, c), c, now);
    ProceedsChain(s, u, Uncount(u, c), now);
  }

  lemma {:induction false} Drain1Proceeds(s: Server, c: nat, limit: nat, now: nat)
    requires Serves(s, limit, now) && c in s.conns && 0 < s.timeout
    ensures Q.Valid(s.queue) && Proceeds(s, Drain1(s, c, now), now)
    decreases |s.conns[c].deferred|
  {
    hide Keeps;
    hide Q.Valid;
    hide Handle1;
    hide Proceeds;
    hide Alive;
    KeepsValid(s.queue, s.limits, now);
    SelfProceeds(s, now);
    var k := s.conns[c];
    if !k.waiting && k.deferred != [] {
      var a := Popped(s, c);
      UpdateProceeds(s, a, c, now);
      Handle1Serves(a, c, k.deferred[0], limit, now);
      Handle1Proceeds(a, c, k.deferred[0], limit, now);
      Handle1Frame(a, c, k.deferred[0], now);
      var b := Handle1(a, c, k.deferred[0], now);
      ProceedsAlive(a, b, now);
      ProceedsChain(s, a, b, now);
      Drain1Proceeds(b, c, limit, now);
      ProceedsChain(s, b, Drain1(b, c, now), now);
    }
  }

  lemma CompletionProceeds(s: Server, w: nat, c: nat, limit: nat, now: nat)
    requires Serves(s, limit, now) && c in s.conns && 0 < s.timeout
    ensures Q.Valid(s.queue) && Proceeds(s, RunCompletion(s, w, c, now), now)
  {
    hide Keeps;
    hide Q.Valid;
    hide Drain1;
    hide Pump;
    hide Proceeds;
    hide Alive;
    CompleteKept(s.queue, s.limits, w, now);
    SelfProceeds(s, now);
    UpdateProceeds(s, s.(failed := true), c, now);
    var (q, ok) := Q.Complete(s.queue, w);
    if ok && w < |s.hashers| {
      var a := WithConn(s.(queue := q, hashers := s.hashers[w := Resting]), c, s.conns[c].(waiting := false));
      UpdateProceeds(s, a, c, now);
      Drain1Serves(a, c, limit, now);
      Drain1Proceeds(a, c, limit, now);
      var b := Drain1(a, c, now);
      ProceedsAlive(a, b, now);
      ProceedsChain(s, a, b, now);
      PumpProceeds(b, limit, now);
      ProceedsChain(s, b, Pump(b, now), now);
    }
    hide Q.Complete;
  }

  lemma CleanupProceeds(s: Server, c: nat, limit: nat, now: nat)
    requires Serves(s, limit, now) && c in s.conns && !s.conns[c].alive
    ensures Q.Valid(s.queue) && Proceeds(s, RunCleanup(s, c), now)
  {
    hide Keeps;
    hide Q.Valid;
    KeepsValid(s.queue, s.limits, now);
    H.ValidOutstanding(s.queue);
    CancelAdds(s.queue, SortedKeys(s.queue.sources.Keys), c, now, Some(s.timeout), Alive(s));
    hide Adds;
    hide Q.CancelIn;
  }

  lemma DispatchProceeds(s: Server, c: nat, m: Msg, limit: nat, now: nat)
    requires Serves(s, limit, now) && c in s.conns && 0 < s.timeout
    ensures Q.Valid(s.queue) && Proceeds(s, Dispatch(s, c, m, now), now)
  {
    Handle1Proceeds(s, c, m, limit, now);
    hide Handle1;
    hide Serves;
    hide Q.Valid;
    hide Proceeds;
    hide OneConn;
    hide Defer;
    if s.conns[c].alive && !s.stopping && s.conns[c].waiting {
      DeferIs(s, c, m);
      UpdateProceeds(s, Defer(s, c, m), c, now);
    }
  }

  lemma JobProceeds(s: Server, job: AppJob, limit: nat, now: nat)
    requires Serves(s, limit, now) && Knows(s, job) && 0 < s.timeout
    requires job.Cleanup? ==> job.conn in s.conns && !s.conns[job.conn].alive
    ensures Q.Valid(s.queue) && Proceeds(s, RunJob(s, job, now), now)
  {
    hide Q.Valid;
    hide Proceeds;
    hide Dispatch;
    hide RunCleanup;
    hide RunCompletion;
    hide Pump;
    PumpProceeds(s, limit, now);
    SelfProceeds(s, now);
    match job {
      case Message(c, m) => DispatchProceeds(s, c, m, limit, now);
      case Cleanup(c) => CleanupProceeds(s, c, limit, now);
      case Completion(w, c) => CompletionProceeds(s, w, c, limit, now);
      case _ =>
    }
  }

  // --------------------------------------------------------------- whole runs

  /** The events before the one that added entry `i` to the queue's history. */
  ghost function Before(x: Setup, events: seq<Event>, i: nat): seq<Event>
    requires Proper(x) && i < |Run(x, events).queue.fates|
    decreases |events|
  {
    if events == [] then []
    else
      var before := events[..|events| - 1];
      if i < |Run(x, before).queue.fates| then Before(x, before, i) else before
  }

  /** The time of that event. */
  ghost function FateTime(x: Setup, events: seq<Event>, i: nat): nat
    requires Proper(x) && i < |Run(x, events).queue.fates|
    decreases |events|
  {
    if events == [] then 0
    else
      var before := events[..|events| - 1];
      if i < |Run(x, before).queue.fates| then FateTime(x, before, i) else LastTime(events)
  }

  lemma WorkProceeds(s: Server, limit: nat, now: nat)
    requires Serves(s, limit, now) && 0 < s.timeout && s.jobs != [] && Knows(s, s.jobs[0])
    requires s.jobs[0].Cleanup? ==> !s.conns[s.jobs[0].conn].alive
    ensures var t := s.(jobs := s.jobs[1..]);
            && Q.Valid(t.queue)
            && RunJob(t, s.jobs[0], now).timeout == s.timeout
            && Adds(s.queue, RunJob(t, s.jobs[0], now).queue, now, Some(s.timeout), Alive(s))
  {
    var t := s.(jobs := s.jobs[1..]);
    SameConnsAlive(s, t);
    assert Serves(t, limit, now) by {
      hide Keeps;
    }
    hide Serves;
    hide Q.Valid;
    JobProceeds(t, s.jobs[0], limit, now);
    hide RunJob;
    hide Adds;
    hide Alive;
  }

  lemma StepProceeds(s: Server, e: Event, limit: nat, now: nat)
    requires Serves(s, limit, now) && Reserved(s) && Buried(s) && 0 < s.timeout && (e.Work? ==> now == e.now)
    ensures Q.Valid(s.queue) && Step(s, e).timeout == s.timeout
    ensures Adds(s.queue, Step(s, e).queue, now, Some(s.timeout), Alive(s))
  {
    ReservedValid(s);
    hide Reserved;
    hide Q.Valid;
    if e.Work? {
      AddsSelf(s.queue, s.queue, now, Some(s.timeout), Alive(s));
      if s.jobs != [] && Knows(s, s.jobs[0]) {
        assert s.jobs[0] in s.jobs;
        WorkProceeds(s, limit, now);
        hide RunJob;
      }
    } else {
      hide Keeps;
      OutsideQueue(s, e);
      hide Step;
      AddsSelf(s.queue, Step(s, e).queue, now, Some(s.timeout), Alive(s));
    }
    hide Adds;
    hide Keeps;
  }

  lemma {:induction false} RunTimeout(x: Setup, events: seq<Event>)
    requires Proper(x) && Clocked(events)
    ensures Run(x, events).timeout == x.timeout
    ensures events != [] ==>
              var s := Run(x, events[..|events| - 1]);
              Adds(s.queue, Run(x, events).queue, LastTime(events), Some(x.timeout), Alive(s))
    decreases |events|
  {
    hide Step;
    hide Reserved;
    hide Adds;
    if events != [] {
      var before, e := events[..|events| - 1], events[|events| - 1];
      var s := Run(x, before);
      RunTimeout(x, before);
      RunServes(x, before);
      ServesLater(s, x.limit, LastTime(before), LastTime(events));
      RunInPlace(x, before);
      assert Buried(s);
      hide InPlace;
      hide Serves;
      StepProceeds(s, e, x.limit, LastTime(events));
    }
  }

  lemma ServesLater(s: Server, limit: nat, now: nat, later: nat)
    requires Serves(s, limit, now) && now <= later
    ensures Serves(s, limit, later)
  {
    KeepsLater(s.queue, s.limits, now, later);
    hide Keeps;
  }

  /** Over every run each entry of the queue's history was due when it was added. */
  lemma {:induction false} RunDue(x: Setup, events: seq<Event>, i: nat)
    requires Proper(x) && Clocked(events) && i < |Run(x, events).queue.fates|
    ensures Due(Run(x, events).queue.fates[i], FateTime(x, events, i), Some(x.timeout), Alive(Run(x, Before(x, events, i))))
    decreases |events|
  {
    hide Reserved;
    hide Step;
    hide Due;
    hide Alive;
    if events != [] {
      var before := events[..|events| - 1];
      var q, r := Run(x, before).queue, Run(x, events).queue;
      RunTimeout(x, events);
      if i < |q.fates| {
        RunDue(x, before, i);
        assert r.fates[i] == q.fates[i];
      }
    }
  }

  lemma {:induction false} JobsHas(fates: seq<Q.Fate>, kind: H.Kind, source: string, job: Q.Job)
    ensures job in H.Jobs(fates, kind, source) <==>
              job.source == source && exists i :: 0 <= i < |fates| && H.KindOf(fates[i]) == kind && fates[i].job == job
  {
    if fates != [] {
      var init, f := fates[..|fates| - 1], fates[|fates| - 1];
      JobsHas(init, kind, source, job);
      assert fates == init + [f];
    }
  }

  /** Whatever waits, was started or expired has been accepted. */
  ghost predicate Met(q: Q.Queue, job: Q.Job) {
    || job in Q.Waiting(q.sources, job.source)
    || exists i :: 0 <= i < |q.fates| && (q.fates[i].Expired? || q.fates[i].Started?) && q.fates[i].job == job
  }

  lemma MetAccepted(q: Q.Queue, job: Q.Job)
    requires H.Fated(q, job.source) && Met(q, job)
    ensures exists j :: 0 <= j < |q.fates| && q.fates[j] == Q.Accepted(job)
  {
    hide H.Jobs;
    var b := H.LedgerOf(q, job.source);
    JobsHas(q.fates, H.WasExpired, job.source, job);
    JobsHas(q.fates, H.WasStarted, job.source, job);
    JobsHas(q.fates, H.WasAccepted, job.source, job);
    assert job in multiset(b.waiting) || job in multiset(b.expired) || job in multiset(b.started);
    assert job in multiset(b.accepted);
    var j :| 0 <= j < |q.fates| && H.KindOf(q.fates[j]) == H.WasAccepted && q.fates[j].job == job;
    assert q.fates[j] == Q.Accepted(job);
    hide H.Fated;
  }

  ghost function FatesOf(x: Setup, events: seq<Event>): seq<Q.Fate>
    requires Proper(x)
  {
    Run(x, events).queue.fates
  }

  /** The connections alive when entry `i` was added. */
  ghost function AliveBefore(x: Setup, events: seq<Event>, i: nat): set<nat>
    requires Proper(x) && i < |FatesOf(x, events)|
  {
    Alive(Run(x, Before(x, events, i)))
  }

  /** Entry `j` accepts the request, at time `at`. */
  ghost predicate Accepts(x: Setup, events: seq<Event>, job: Q.Job, j: nat, at: nat)
    requires Proper(x)
  {
    j < |FatesOf(x, events)| && FatesOf(x, events)[j] == Q.Accepted(job) && FateTime(x, events, j) == at
  }

  /** The allowance of the request, from its acceptance on, is over by `now`. */
  ghost predicate Over(x: Setup, events: seq<Event>, job: Q.Job, now: nat)
    requires Proper(x)
  {
    exists j: nat, at: nat :: Accepts(x, events, job, j, at) && at + x.timeout <= now
  }

  ghost predicate NotYetOver(x: Setup, events: seq<Event>, job: Q.Job, now: nat)
    requires Proper(x)
  {
    exists j: nat, at: nat :: Accepts(x, events, job, j, at) && now < at + x.timeout
  }

  lemma RunFated(x: Setup, events: seq<Event>, source: string)
    requires Proper(x) && Clocked(events)
    ensures H.Fated(Run(x, events).queue, source)
  {
    RunServes(x, events);
    hide Run;
    hide H.Fated;
    hide Punctual;
    hide H.Metered;
  }

  lemma MetOver(x: Setup, events: seq<Event>, job: Q.Job, now: nat)
    requires Proper(x) && Clocked(events) && Met(Run(x, events).queue, job)
    ensures job.deadline <= now ==> Over(x, events, job, now)
    ensures now < job.deadline ==> NotYetOver(x, events, job, now)
  {
    hide Run;
    hide Met;
    hide H.Fated;
    hide FateTime;
    RunFated(x, events, job.source);
    var q := Run(x, events).queue;
    MetAccepted(q, job);
    var j: nat :| j < |q.fates| && q.fates[j] == Q.Accepted(job);
    RunDue(x, events, j);
    assert Accepts(x, events, job, j, FateTime(x, events, j));
  }

  /** Over every run: a request expires only while its connection lives and only
      when the allowance since its acceptance is over; it is started only while
      its connection lives, before that; and none but those of dead connections
      are canceled. */
  lemma RunKeepsAllowance(x: Setup, events: seq<Event>, i: nat)
    requires Proper(x) && Clocked(events) && i < |FatesOf(x, events)|
    ensures var f := FatesOf(x, events)[i];
            && (f.Expired? ==> f.job.id in AliveBefore(x, events, i) && Over(x, events, f.job, FateTime(x, events, i)))
            && (f.Started? ==> f.job.id in AliveBefore(x, events, i) && NotYetOver(x, events, f.job, FateTime(x, events, i)))
            && (f.Canceled? ==> f.job.id !in AliveBefore(x, events, i))
  {
    RunDue(x, events, i);
    var f := FatesOf(x, events)[i];
    if f.Expired? || f.Started? {
      assert Met(Run(x, events).queue, f.job);
      MetOver(x, events, f.job, FateTime(x, events, i));
    }
    hide Run;
    hide Over;
    hide NotYetOver;
  }

  /** The last event ran the pump: the pump timer's job, the end of a hash, or a
      message about which something happened in the queue. */
  ghost predicate Ticked(x: Setup, events: seq<Event>)
    requires Proper(x)
  {
    events != [] && events[|events| - 1].Work? && Ticks(Run(x, events[..|events| - 1]), Run(x, events))
  }

  ghost predicate Ticks(s: Server, t: Server) {
    && s.jobs != [] && !s.stopping
    && (s.jobs[0].Tick? || s.jobs[0].Completion? || (s.jobs[0].Message? && t.queue.fates != s.queue.fates))
  }

  ghost predicate Pumped(s: Server, limit: nat, now: nat) {
    && Serves(s, limit, now) && InTime(s.queue, now, Alive(s))
    && (SomeIdle(s.queue) ==> Q.ReadySet(s.queue, now) == {})
  }

  lemma PumpPumps(s: Server, limit: nat, now: nat)
    requires Serves(s, limit, now) && 0 < s.timeout
    ensures Q.Valid(s.queue) && Pumped(Pump(s, now), limit, now)
  {
    hide Serves;
    hide Pump;
    hide Adds;
    hide InTime;
    hide Alive;
    hide SomeIdle;
    PumpProceeds(s, limit, now);
    PumpServes(s, limit, now);
  }

  /** A change of one connection that leaves it alive or dead. */
  lemma PumpedUpdate(s: Server, t: Server, c: nat, limit: nat, now: nat)
    requires Pumped(s, limit, now) && OneConn(s, t, c) && t.queue == s.queue && t.limits == s.limits
    ensures Pumped(t, limit, now)
  {
    hide Keeps;
    hide InTime;
    hide SomeIdle;
    assert Alive(t) == Alive(s);
  }

  lemma CompletionPumps(s: Server, w: nat, c: nat, limit: nat, now: nat)
    requires Serves(s, limit, now) && c in s.conns && 0 < s.timeout && !s.stopping
    requires w < |s.hashers| && w < |s.queue.running| && s.queue.running[w].Busy?
    ensures Q.Valid(s.queue) && Pumped(RunCompletion(s, w, c, now), limit, now)
  {
    hide Keeps;
    hide Q.Valid;
    hide Drain1;
    hide Pump;
    hide Proceeds;
    hide Pumped;
    hide Alive;
    CompleteKept(s.queue, s.limits, w, now);
    CompleteIds(s.queue, w);
    hide Q.Complete;
    var q := Q.Complete(s.queue, w).0;
    var a := WithConn(s.(queue := q, hashers := s.hashers[w := Resting]), c, s.conns[c].(waiting := false));
    Drain1Serves(a, c, limit, now);
    Drain1Proceeds(a, c, limit, now);
    var b := Drain1(a, c, now);
    ProceedsAlive(a, b, now);
    PumpPumps(b, limit, now);
    assert b.stopping == s.stopping by {
      Drain1Frame(a, c, now);
    }
  }

  lemma RefusedFates(s: Server, c: nat, source: string, now: nat)
    requires c in s.conns
    ensures !AskHash(s, c, source, now).1 ==> AskHash(s, c, source, now).0.queue.fates == s.queue.fates
  {
  }

  /** A message about which something happened in the queue made a request. */
  lemma DispatchPumps(s: Server, c: nat, m: Msg, limit: nat, now: nat)
    requires Serves(s, limit, now) && c in s.conns && 0 < s.timeout && Q.Valid(s.queue)
    ensures Dispatch(s, c, m, now).queue.fates != s.queue.fates ==> Pumped(Dispatch(s, c, m, now), limit, now)
  {
    hide Keeps;
    hide Q.Valid;
    hide AskHash;
    hide Pump;
    hide Pumped;
    hide InTime;
    hide Alive;
    hide Proceeds;
    if s.conns[c].alive && !s.stopping && !s.conns[c].waiting && m.asks.Some? {
      var t := Noted(s, c, m);
      var (a, ok) := AskHash(t, c, m.asks.value, now);
      RefusedFates(t, c, m.asks.value, now);
      if ok {
        AskServes(t, c, m.asks.value, limit, now);
        AskProceeds(t, c, m.asks.value, now);
        ProceedsAlive(t, a, now);
        PumpPumps(a, limit, now);
        Process1Frame(s, c, m, now);
        hide AppFrame;
        UncountIs(Pump(a, now), c);
        hide Uncount;
        hide OneConn;
        PumpedUpdate(Pump(a, now), Uncount(Pump(a, now), c), c, limit, now);
      }
    }
  }

  lemma WorkIs(s: Server, now: nat)
    requires Q.Valid(s.queue) && s.jobs != [] && Knows(s, s.jobs[0])
    ensures Step(s, Work(now)) == RunJob(s.(jobs := s.jobs[1..]), s.jobs[0], now)
  {
    hide Q.Valid;
    hide RunJob;
  }

  lemma TickPumps(s: Server, limit: nat, now: nat)
    requires Serves(s, limit, now) && Reserved(s) && 0 < s.timeout
    ensures Q.Valid(s.queue) && (Ticks(s, Step(s, Work(now))) ==> Pumped(Step(s, Work(now)), limit, now))
  {
    hide Reserved;
    hide Q.Valid;
    hide Keeps;
    hide Step;
    hide Pumped;
    hide Dispatch;
    hide RunCompletion;
    hide RunCleanup;
    hide Pump;
    KeepsValid(s.queue, s.limits, now);
    if Ticks(s, Step(s, Work(now))) {
      var a := s.(jobs := s.jobs[1..]);
      HeadKnown(s);
      WorkIs(s, now);
      match s.jobs[0] {
        case Message(c, m) => DispatchPumps(a, c, m, limit, now);
        case Completion(w, c) =>
          CompletionActive(s);
          CompletionPumps(a, w, c, limit, now);
        case _ => PumpPumps(a, limit, now);
      }
    }
  }

  lemma TickedPumped(x: Setup, events: seq<Event>)
    requires Proper(x) && Clocked(events) && Ticked(x, events)
    ensures Pumped(Run(x, events), x.limit, LastTime(events))
  {
    var before := events[..|events| - 1];
    RunServes(x, before);
    ServesLater(Run(x, before), x.limit, LastTime(before), LastTime(events));
    RunTimeout(x, before);
    hide Reserved;
    hide Step;
    hide Serves;
    hide Pumped;
    TickPumps(Run(x, before), x.limit, LastTime(events));
  }

  lemma PumpedInTime(s: Server, limit: nat, now: nat, source: string, job: Q.Job)
    requires Pumped(s, limit, now) && job in Q.Waiting(s.queue.sources, source)
    ensures job.id in Alive(s) && now < job.deadline && Met(s.queue, job) && job.source == source
    ensures SomeIdle(s.queue) ==> source !in Q.ReadySet(s.queue, now)
  {
    KeepsValid(s.queue, s.limits, now);
    Q.ValidHeld(s.queue, source);
    hide Keeps;
    hide Q.Valid;
    hide SomeIdle;
    hide Alive;
  }

  /** Whenever the pump has run there is no request waiting whose allowance is over or whose
      connection is dead; and none while a worker rests, but of sources that had
      their share of the open window or were crowded out. */
  lemma RunLeavesNoneLate(x: Setup, events: seq<Event>, source: string, job: Q.Job)
    requires Proper(x) && Clocked(events) && Ticked(x, events)
    requires job in Q.Waiting(Run(x, events).queue.sources, source)
    ensures job.id in Alive(Run(x, events)) && NotYetOver(x, events, job, LastTime(events))
    ensures SomeIdle(Run(x, events).queue) ==> Justified(Run(x, events).queue, x.limit, source, LastTime(events))
  {
    hide Reserved;
    hide Run;
    hide NotYetOver;
    hide Punctual;
    hide Justified;
    hide SomeIdle;
    hide InTime;
    TickedPumped(x, events);
    var t, now := Run(x, events), LastTime(events);
    PumpedInTime(t, x.limit, now, source, job);
    MetOver(x, events, job, now);
    if SomeIdle(t.queue) {
      PunctualJustified(t.queue, t.limits, source, now);
    }
  }
}
