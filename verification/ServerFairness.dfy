/** The credential queue inside the server: whatever connections, messages,
    hashing workers and shutdown do, it keeps what was proved of the queue on
    its own, so its guarantees hold of every run of the server. */
module ServerFairness {
  import opened Ordering
  import opened WorkLimiting
  import opened QueueLogs
  import opened QueueWindows
  import opened ServerSpec
  import opened ServerReserve
  import Q = QueueSpec
  import H = QueueHistory

  /** The queue and its limiter are as some run of the queue leaves them. */
  ghost predicate Keeps(q: Q.Queue, l: Limits, now: nat) {
    H.Sane(q) && Logged(q) && Punctual(q, l, now) && forall source :: H.Metered(q.fates, l, source, now)
  }

  ghost predicate Serves(s: Server, limit: nat, now: nat) {
    s.limits.limit == limit && Keeps(s.queue, s.limits, now)
  }

  lemma KeepsValid(q: Q.Queue, l: Limits, now: nat)
    requires Keeps(q, l, now)
    ensures Q.Valid(q)
  {
    H.SaneValid(q);
    hide Punctual;
  }

  lemma KeepsLater(q: Q.Queue, l: Limits, now: nat, later: nat)
    requires Keeps(q, l, now) && now <= later
    ensures Keeps(q, l, later)
  {
    H.MeteredLater(q.fates, l, now, later);
    PunctualLater(q, l, now, later);
    hide Punctual;
    hide H.Sane;
    hide Logged;
    hide H.Metered;
  }

  // --------------------------------------------------- operations of the queue

  lemma EnqueueKept(q: Q.Queue, l: Limits, job: Q.Job, now: nat)
    requires Keeps(q, l, now)
    ensures Keeps(Q.Enqueue(q, job).0, l, now)
  {
    hide H.Sane;
    hide H.Metered;
    hide Logged;
    hide Follows;
    hide Q.Enqueue;
    H.EnqueueKeeps(q, job, l, now);
    hide Punctual;
    hide Silent;
    EnqueueSilent(q, job);
    SilentPunctual(q, Q.Enqueue(q, job).0, l, now);
    EnqueueFollows(q, job);
    LoggedFollows(q, Q.Enqueue(q, job).0);
  }

  lemma CancelKept(q: Q.Queue, l: Limits, id: nat, now: nat)
    requires Keeps(q, l, now)
    ensures Q.Valid(q) && Keeps(Q.Cancel(q, id), l, now)
  {
    hide H.Sane;
    hide H.Metered;
    hide Logged;
    hide Follows;
    hide Q.Valid;
    hide Q.CancelIn;
    H.SaneValid(q);
    H.AbandonKeeps(q, l, id, now);
    H.ValidOutstanding(q);
    hide Punctual;
    hide Silent;
    CancelSilent(q, SortedKeys(q.sources.Keys), id);
    SilentPunctual(q, Q.Cancel(q, id), l, now);
    CancelFollows(q, SortedKeys(q.sources.Keys), id);
    LoggedFollows(q, Q.Cancel(q, id));
  }

  lemma CompleteKept(q: Q.Queue, l: Limits, worker: nat, now: nat)
    requires Keeps(q, l, now)
    ensures Q.Valid(q) && Keeps(Q.Complete(q, worker).0, l, now)
  {
    hide H.Sane;
    hide H.Metered;
    hide Logged;
    hide Follows;
    hide Q.Valid;
    hide Q.Complete;
    H.SaneValid(q);
    H.FinishKeeps(q, l, worker, now);
    hide Punctual;
    hide Silent;
    CompleteSilent(q, worker);
    SilentPunctual(q, Q.Complete(q, worker).0, l, now);
    CompleteFollows(q, worker);
    LoggedFollows(q, Q.Complete(q, worker).0);
  }

  lemma SaneFated(q: Q.Queue)
    requires H.Sane(q)
    ensures forall source :: H.Fated(q, source)
  {
    hide H.Fated;
    hide H.Chained;
  }

  lemma PruneKept(q: Q.Queue, l: Limits, now: nat, alive: set<nat>)
    requires Keeps(q, l, now)
    ensures Q.Valid(q) && Keeps(Q.Prune(q, now, alive), l, now)
  {
    hide H.Sane;
    hide H.Metered;
    hide Logged;
    hide Follows;
    hide Q.Valid;
    hide Q.PruneKeys;
    H.SaneValid(q);
    H.PruneKeeps(q, l, now, alive);
    hide Punctual;
    hide Silent;
    assert forall source :: H.Fated(q, source) by {
      SaneFated(q);
    }
    PruneSilent(q, now, alive);
    SilentPunctual(q, Q.Prune(q, now, alive), l, now);
    PruneKeysFollows(q, SortedKeys(q.sources.Keys), now, alive);
    LoggedFollows(q, Q.Prune(q, now, alive));
  }

  lemma ScheduleKept(q: Q.Queue, l: Limits, now: nat)
    requires Keeps(q, l, now)
    ensures Keeps(Q.Schedule(q, l, 0, now).0, Q.Schedule(q, l, 0, now).1, now)
    ensures Q.Schedule(q, l, 0, now).1.limit == l.limit
    ensures SomeIdle(Q.Schedule(q, l, 0, now).0) ==> Q.ReadySet(Q.Schedule(q, l, 0, now).0, now) == {}
  {
    hide H.Sane;
    hide H.Metered;
    hide Logged;
    hide Q.Schedule;
    hide Q.Valid;
    H.SaneValid(q);
    H.ScheduleKeeps(q, l, 0, now);
    H.ScheduleLimit(q, l, 0, now);
    ScheduleLogged(q, l, 0, now);
    hide Punctual;
    SchedulePunctual(q, l, 0, now);
  }

  // ------------------------------------------------------- inside one job

  lemma AskServes(s: Server, c: nat, source: string, limit: nat, now: nat)
    requires Serves(s, limit, now) && c in s.conns
    ensures Serves(AskHash(s, c, source, now).0, limit, now)
  {
    hide Keeps;
    hide Q.Enqueue;
    EnqueueKept(s.queue, s.limits, Q.Job(c, source, now + s.timeout), now);
  }

  lemma Handle0Serves(s: Server, c: nat, m: Msg, limit: nat, now: nat)
    requires Serves(s, limit, now) && c in s.conns
    ensures Serves(Handle0(s, c, m, now), limit, now)
  {
    hide Keeps;
    hide AskHash;
    if m.asks.Some? {
      AskServes(Noted(s, c, m), c, m.asks.value, limit, now);
    }
  }

  lemma {:induction false} Drain0Serves(s: Server, c: nat, limit: nat, now: nat)
    requires Serves(s, limit, now) && c in s.conns
    ensures Serves(Drain0(s, c, now), limit, now)
    decreases |s.conns[c].deferred|
  {
    hide Keeps;
    hide Handle0;
    var k := s.conns[c];
    if !k.waiting && k.deferred != [] {
      var a := Popped(s, c);
      Handle0Serves(a, c, k.deferred[0], limit, now);
      Drain0Serves(Handle0(a, c, k.deferred[0], now), c, limit, now);
    }
  }

  lemma {:induction false} CallbacksServe(s: Server, expired: seq<Q.Job>, limit: nat, now: nat)
    requires Serves(s, limit, now)
    ensures Serves(Callbacks(s, expired, now), limit, now)
    decreases |expired|
  {
    hide Keeps;
    hide Drain0;
    if expired != [] {
      var c := expired[0].id;
      if c in s.conns {
        Drain0Serves(WithConn(s, c, s.conns[c].(waiting := false)), c, limit, now);
      }
      CallbacksServe(Finish0(s, c, now), expired[1..], limit, now);
    }
  }

  lemma PumpServes(s: Server, limit: nat, now: nat)
    requires Serves(s, limit, now)
    ensures Q.Valid(s.queue) && Serves(Pump(s, now), limit, now)
    ensures SomeIdle(Pump(s, now).queue) ==> Q.ReadySet(Pump(s, now).queue, now) == {}
  {
    hide Keeps;
    hide Q.Valid;
    hide Q.Prune;
    hide Q.Schedule;
    hide Callbacks;
    KeepsValid(s.queue, s.limits, now);
    var q := Q.Prune(s.queue, now, Alive(s));
    PruneKept(s.queue, s.limits, now, Alive(s));
    CallbacksServe(s.(queue := q), H.ExpiredSince(q.fates, |s.queue.fates|), limit, now);
    var t := PruneStep(s, now);
    ScheduleKept(t.queue, t.limits, now);
    hide PruneStep;
  }

  lemma Handle1Serves(s: Server, c: nat, m: Msg, limit: nat, now: nat)
    requires Serves(s, limit, now) && c in s.conns
    ensures Q.Valid(s.queue) && Serves(Handle1(s, c, m, now), limit, now)
  {
    hide Keeps;
    hide Q.Valid;
    hide AskHash;
    hide Pump;
    KeepsValid(s.queue, s.limits, now);
    if m.asks.Some? {
      var t := Noted(s, c, m);
      AskServes(t, c, m.asks.value, limit, now);
      PumpServes(AskHash(t, c, m.asks.value, now).0, limit, now);
    }
  }

  lemma {:induction false} Drain1Serves(s: Server, c: nat, limit: nat, now: nat)
    requires Serves(s, limit, now) && c in s.conns
    ensures Q.Valid(s.queue) && Serves(Drain1(s, c, now), limit, now)
    decreases |s.conns[c].deferred|
  {
    hide Keeps;
    hide Q.Valid;
    hide Handle1;
    KeepsValid(s.queue, s.limits, now);
    var k := s.conns[c];
    if !k.waiting && k.deferred != [] {
      var a := Popped(s, c);
      Handle1Serves(a, c, k.deferred[0], limit, now);
      Handle1Frame(a, c, k.deferred[0], now);
      Drain1Serves(Handle1(a, c, k.deferred[0], now), c, limit, now);
    }
  }

  lemma CompletionServes(s: Server, w: nat, c: nat, limit: nat, now: nat)
    requires Serves(s, limit, now) && c in s.conns
    ensures Q.Valid(s.queue) && Serves(RunCompletion(s, w, c, now), limit, now)
  {
    hide Keeps;
    hide Q.Valid;
    hide Q.Complete;
    hide Drain1;
    hide Pump;
    CompleteKept(s.queue, s.limits, w, now);
    var (q, ok) := Q.Complete(s.queue, w);
    if ok && w < |s.hashers| {
      var a := WithConn(s.(queue := q, hashers := s.hashers[w := Resting]), c, s.conns[c].(waiting := false));
      Drain1Serves(a, c, limit, now);
      PumpServes(Drain1(a, c, now), limit, now);
    }
  }

  lemma JobServes(s: Server, job: AppJob, limit: nat, now: nat)
    requires Serves(s, limit, now) && Knows(s, job)
    ensures Q.Valid(s.queue) && Serves(RunJob(s, job, now), limit, now)
  {
    hide Keeps;
    hide Q.Valid;
    hide Q.Cancel;
    hide Handle1;
    hide RunCompletion;
    hide Pump;
    KeepsValid(s.queue, s.limits, now);
    match job {
      case Message(c, m) => Handle1Serves(s, c, m, limit, now);
      case Cleanup(c) => CancelKept(s.queue, s.limits, c, now);
      case Completion(w, c) => CompletionServes(s, w, c, limit, now);
      case Tick => PumpServes(s, limit, now);
      case _ =>
    }
  }

  // --------------------------------------------------------------- whole runs

  ghost predicate SameQueue(s: Server, t: Server) {
    t.queue == s.queue && t.limits == s.limits && t.timeout == s.timeout
  }

  lemma CloseQueue(s: Server, c: nat)
    ensures SameQueue(s, CloseConn(s, c))
    ensures c in s.conns ==> SameQueue(s, CleanUp(s, c))
  {
  }

  lemma {:induction false} CloseAllQueue(s: Server, conns: seq<nat>)
    ensures SameQueue(s, CloseAll(s, conns))
    decreases |conns|
  {
    hide CloseConn;
    if conns != [] {
      CloseQueue(s, conns[0]);
      CloseAllQueue(CloseConn(s, conns[0]), conns[1..]);
    }
  }

  lemma ReceiveQueue(s: Server, c: nat, m: Msg)
    ensures SameQueue(s, Arrive(s, c, m))
  {
    hide CloseConn;
    CloseQueue(s, c);
    hide CleanUp;
  }

  lemma SubmitQueue(s: Server, job: AppJob, lifecycle: bool)
    ensures SameQueue(s, Submit(s, job, lifecycle).0) && SameQueue(s, MustSubmit(s, job))
  {
    if |s.jobs| >= Limit(s, lifecycle) {
      assert Submit(s, job, lifecycle).0 == s;
    }
    if |s.jobs| >= Limit(s, true) {
      assert MustSubmit(s, job) == s.(failed := true);
    } else {
      assert MustSubmit(s, job) == s.(jobs := s.jobs + [job]);
    }
    hide Limit;
  }

  lemma PostedQueue(s: Server, e: Event)
    requires Q.Valid(s.queue) && (e.Submitted? || e.SweepTimer? || e.Hashed?)
    ensures SameQueue(s, Step(s, e))
  {
    hide Q.Valid;
    match e {
      case Submitted(job) =>
        SubmitQueue(s, job, false);
        hide Submit;
      case SweepTimer =>
        SubmitQueue(s.(sweepDue := false), Sweep, true);
        hide MustSubmit;
      case Hashed(w) =>
        if w < |s.hashers| && s.hashers[w].Hashing? {
          SubmitQueue(s.(hashers := s.hashers[w := Done(s.hashers[w].conn)]), Completion(w, s.hashers[w].conn), true);
        }
        hide MustSubmit;
    }
  }

  lemma FinishQueue(s: Server, c: nat)
    ensures SameQueue(s, Finish(s, c))
  {
    hide CleanUp;
    CloseQueue(s, c);
  }

  lemma StopQueue(s: Server)
    requires Q.Valid(s.queue)
    ensures SameQueue(s, Step(s, Stop))
  {
    hide Q.Valid;
    hide CloseAll;
    hide Submit;
    hide SortedNats;
    var a := Submit(s.(stopping := true), Farewell, true).0;
    SubmitQueue(s.(stopping := true), Farewell, true);
    CloseAllQueue(a, SortedNats(Listed(a)));
  }

  /** Events that run no job leave the queue alone. */
  lemma OutsideQueue(s: Server, e: Event)
    requires Q.Valid(s.queue) && !e.Work?
    ensures SameQueue(s, Step(s, e))
  {
    hide Q.Valid;
    hide CloseConn;
    hide CloseAll;
    hide Arrive;
    hide Finish;
    hide Submit;
    hide MustSubmit;
    hide RunJob;
    hide SortedNats;
    match e {
      case Receive(c, m) => ReceiveQueue(s, c, m);
      case Close(c) => CloseQueue(s, c);
      case Gone(c) => FinishQueue(s, c);
      case Stop => StopQueue(s);
      case Submitted(_) => PostedQueue(s, e);
      case SweepTimer => PostedQueue(s, e);
      case Hashed(_) => PostedQueue(s, e);
      case _ =>
    }
  }

  lemma StepServes(s: Server, e: Event, limit: nat, now: nat)
    requires Serves(s, limit, now) && (e.Work? ==> now == e.now)
    ensures Q.Valid(s.queue) && Serves(Step(s, e), limit, now)
  {
    hide Keeps;
    hide Q.Valid;
    KeepsValid(s.queue, s.limits, now);
    if e.Work? {
      hide RunJob;
      if s.jobs != [] && Knows(s, s.jobs[0]) {
        JobServes(s.(jobs := s.jobs[1..]), s.jobs[0], limit, now);
      }
    } else {
      OutsideQueue(s, e);
      hide Step;
    }
  }

  /** The time at which the last job ran. */
  function LastTime(events: seq<Event>): nat {
    if events == [] then 0
    else
      var e := events[|events| - 1];
      if e.Work? then e.now else LastTime(events[..|events| - 1])
  }

  /** The clock of the jobs does not run backwards. */
  predicate Clocked(events: seq<Event>) {
    events == [] ||
    var before := events[..|events| - 1];
    Clocked(before) && LastTime(before) <= LastTime(events)
  }

  lemma {:induction false} RunServes(x: Setup, events: seq<Event>)
    requires Proper(x) && Clocked(events)
    ensures Serves(Run(x, events), x.limit, LastTime(events))
  {
    if events == [] {
      NewServes(x);
    } else {
      var before, e := events[..|events| - 1], events[|events| - 1];
      var s := Run(x, before);
      RunServes(x, before);
      KeepsLater(s.queue, s.limits, LastTime(before), LastTime(events));
      StepServes(s, e, x.limit, LastTime(events));
    }
    hide Keeps;
    hide Step;
  }

  lemma NewServes(x: Setup)
    requires Proper(x)
    ensures Serves(NewServer(x), x.limit, 0)
  {
    NewPunctual(H.Start0(x.workers, x.queueCapacity, x.sourceCapacity, x.limit));
    hide Punctual;
    H.NewQueueSane(x.workers, x.queueCapacity, x.sourceCapacity, x.limit);
    hide H.Sane;
    hide H.Metered;
  }

  /** Over every run of the server: a source waiting to be served at each of
      some decisions sees no other source served twice in between; its own
      requests start in the order in which they were accepted; each is waiting or
      has met exactly one fate; and no minute starts more than twice the limit of
      them. The decisions are, in order, the starts. */
  lemma RunServesFairly(x: Setup, events: seq<Event>, i: nat, j: nat, source: string, from: nat)
    requires Proper(x) && Clocked(events)
    ensures var q := Run(x, events).queue;
            && Served(q.fates) == Picks(q.decisions)
            && H.Fated(q, source)
            && InMinute(H.StartTimes(q.fates, source), from) <= 2 * x.limit
    ensures var ds := Run(x, events).queue.decisions;
            i <= j < |ds| && (forall k :: i <= k <= j ==> source in ds[k].open) && (forall k :: i <= k < j ==> ds[k].pick != Some(source))
            ==> forall a, b :: i <= a < b <= j ==> ds[a].pick.Some? && ds[b].pick.Some? && ds[a].pick != ds[b].pick
  {
    var s := Run(x, events);
    RunServes(x, events);
    hide Run;
    var q, now := s.queue, LastTime(events);
    assert H.Metered(q.fates, s.limits, source, now) && H.Fated(q, source) && H.Chained(q.decisions, q.lastSource);
    var p :| Paced(s.limits, source, p, now) && p.at == H.StartTimes(q.fates, source);
    MinuteBound(s.limits, source, p, now, from);
    hide Paced;
    hide H.Chained;
    hide H.Fated;
    var ds := q.decisions;
    if i <= j < |ds| && (forall k :: i <= k <= j ==> source in ds[k].open) && (forall k :: i <= k < j ==> ds[k].pick != Some(source)) {
      H.Fairness(ds, q.lastSource, i, j, source);
    }
  }
}
