/** The application worker's lifecycle reserve never runs out, and an idle slot's
    hashing worker always has an empty queue. */
module ServerReserve {
  import opened Ordering
  import opened WorkLimiting
  import opened QueueIds
  import opened ServerSpec
  import Q = QueueSpec
  import H = QueueHistory

  // ------------------------------------------------------------ counting jobs

  datatype Kind = Normal | ForCleanup | ForCompletion | ForSweep | ForFarewell

  function KindOf(job: AppJob): Kind {
    match job
    case Cleanup(_) => ForCleanup
    case Completion(_, _) => ForCompletion
    case Sweep => ForSweep
    case Farewell => ForFarewell
    case _ => Normal
  }

  ghost function Count(jobs: seq<AppJob>, kind: Kind): nat {
    if jobs == [] then 0 else Count(jobs[1..], kind) + if KindOf(jobs[0]) == kind then 1 else 0
  }

  lemma {:induction false} CountSnoc(jobs: seq<AppJob>, job: AppJob, kind: Kind)
    ensures Count(jobs + [job], kind) == Count(jobs, kind) + if KindOf(job) == kind then 1 else 0
  {
    if jobs == [] {
      assert jobs + [job] == [job];
      assert Count([job][1..], kind) == 0;
    } else {
      assert (jobs + [job])[1..] == jobs[1..] + [job];
      CountSnoc(jobs[1..], job, kind);
    }
  }

  lemma {:induction false} CountAll(jobs: seq<AppJob>)
    ensures |jobs| == Count(jobs, Normal) + Count(jobs, ForCleanup) + Count(jobs, ForCompletion)
                      + Count(jobs, ForSweep) + Count(jobs, ForFarewell)
  {
    if jobs != [] {
      CountAll(jobs[1..]);
    }
  }

  ghost function Dones(hashers: seq<Hasher>): nat {
    if hashers == [] then 0 else Dones(hashers[1..]) + if hashers[0].Done? then 1 else 0
  }

  lemma {:induction false} DonesUpdate(hashers: seq<Hasher>, w: nat, h: Hasher)
    requires w < |hashers|
    ensures Dones(hashers[w := h]) == Dones(hashers) + (if h.Done? then 1 else 0) - (if hashers[w].Done? then 1 else 0)
  {
    if w == 0 {
      assert hashers[w := h][1..] == hashers[1..];
    } else {
      assert hashers[w := h][1..] == hashers[1..][w - 1 := h];
      DonesUpdate(hashers[1..], w - 1, h);
    }
  }

  ghost predicate SameDone(a: seq<Hasher>, b: seq<Hasher>) {
    |a| == |b| && forall w :: 0 <= w < |a| && (a[w].Done? || b[w].Done?) ==> a[w] == b[w]
  }

  lemma {:induction false} SameDones(a: seq<Hasher>, b: seq<Hasher>)
    requires SameDone(a, b)
    ensures Dones(a) == Dones(b)
  {
    if a != [] {
      assert forall w :: 0 <= w < |a| - 1 ==> a[1..][w] == a[w + 1] && b[1..][w] == b[w + 1];
      SameDones(a[1..], b[1..]);
      assert a[0].Done? <==> b[0].Done?;
    }
  }

  lemma {:induction false} DonesBound(hashers: seq<Hasher>)
    ensures Dones(hashers) <= |hashers|
  {
    if hashers != [] {
      DonesBound(hashers[1..]);
    }
  }

  // ---------------------------------------------------------------- invariant

  /** A slot is idle exactly when its hashing worker rests, queue empty. */
  ghost predicate Matched(hashers: seq<Hasher>, running: seq<Q.Slot>) {
    && |hashers| == |running|
    && (forall w :: 0 <= w < |running| ==> (running[w].Idle? <==> hashers[w].Resting?))
    && (forall w :: 0 <= w < |running| && running[w].Busy? ==> hashers[w].conn == running[w].job.id)
  }

  /** Each finished hash owes one completion, to its own worker. */
  ghost predicate Owed(jobs: seq<AppJob>, hashers: seq<Hasher>) {
    && Count(jobs, ForCompletion) == Dones(hashers)
    && (forall i :: 0 <= i < |jobs| && jobs[i].Completion? ==>
          jobs[i].worker < |hashers| && hashers[jobs[i].worker] == Done(jobs[i].conn))
    && (forall i, j :: 0 <= i < j < |jobs| && jobs[i].Completion? && jobs[j].Completion? ==> jobs[i].worker != jobs[j].worker)
  }

  ghost predicate Fine(s: Server) {
    Q.Valid(s.queue) && Matched(s.hashers, s.queue.running) && !s.failed && s.queue.ids <= s.conns.Keys
  }

  /** Every lifecycle job in the queue, or still to come, has its place. */
  ghost predicate Bounded(s: Server) {
    && s.reserve >= s.maxConnections + |s.hashers| + 4
    && Count(s.jobs, Normal) <= s.capacity
    && Count(s.jobs, ForCleanup) + s.posted == s.cleanups
    && |Alive(s)| + s.cleanups + (if s.accepting then 1 else 0) <= s.maxConnections
    && Count(s.jobs, ForSweep) + (if s.sweepDue then 1 else 0) <= 1
    && Count(s.jobs, ForFarewell) + (if s.stopping then 0 else 1) <= 1
  }

  ghost predicate Known(s: Server) {
    && (forall job :: job in s.jobs ==> Knows(s, job))
    && (forall c :: c in s.conns && s.conns[c].alive ==> s.conns[c].listed)
  }

  ghost predicate Reserved(s: Server) {
    Fine(s) && Bounded(s) && Owed(s.jobs, s.hashers) && Known(s)
  }

  /** Even with every place promised taken, two places of the reserve are left. */
  lemma ReserveSuffices(s: Server)
    requires Reserved(s)
    ensures |s.jobs| + 2 + |Alive(s)| <= s.capacity + s.reserve
  {
    CountAll(s.jobs);
    DonesBound(s.hashers);
    hide Fine;
    hide Known;
  }

  // --------------------------------------------------------- application jobs

  /** What handling messages keeps. */
  ghost predicate Kept(s: Server, t: Server) {
    AppFrame(s, t) && Fine(t) && SameDone(s.hashers, t.hashers)
  }

  lemma KeptChain(s: Server, t: Server, u: Server)
    requires Kept(s, t) && Kept(t, u)
    ensures Kept(s, u)
  {
    hide Fine;
    FrameChain(s, t, u);
    hide AppFrame;
  }

  lemma KeptSelf(s: Server)
    requires Fine(s)
    ensures Kept(s, s)
  {
    FrameSelf(s);
    hide Fine;
    hide AppFrame;
  }

  lemma TouchesKept(s: Server, t: Server, c: nat)
    requires Fine(s) && Touches(s, t, c) && c in s.conns
    ensures Kept(s, t)
  {
    hide Q.Valid;
  }

  lemma VisitsKept(s: Server, t: Server, some: set<nat>)
    requires Fine(s) && Visits(s, t, some) && t.queue.ids <= s.conns.Keys
    ensures Kept(s, t)
  {
    hide Q.Valid;
  }

  /** Callbacks only ask for connections that exist. */
  lemma {:induction false} CallbacksKnown(s: Server, expired: seq<Q.Job>, now: nat)
    requires s.queue.ids <= s.conns.Keys
    ensures Callbacks(s, expired, now).queue.ids <= s.conns.Keys
    decreases |expired|
  {
    if expired != [] {
      var t := Finish0(s, expired[0].id, now);
      FinishTouches(s, expired[0].id, now);
      assert expired[0].id !in s.conns ==> t == s;
      hide Finish0;
      hide Q.Valid;
      CallbacksKnown(t, expired[1..], now);
    }
  }

  lemma QueueKept(s: Server, q: Q.Queue)
    requires Fine(s) && Q.Valid(q) && q.running == s.queue.running && q.ids <= s.queue.ids
    ensures Kept(s, s.(queue := q))
  {
    hide Q.Valid;
  }

  lemma PruneKept(s: Server, now: nat)
    requires Fine(s)
    ensures Kept(s, PruneStep(s, now))
  {
    hide Q.Valid;
    hide Kept;
    hide Visits;
    var q := Q.Prune(s.queue, now, Alive(s));
    var expired := H.ExpiredSince(q.fates, |s.queue.fates|);
    var a := s.(queue := q);
    PruneIds(s.queue, now, Alive(s));
    QueueKept(s, q);
    CallbacksVisit(a, expired, now);
    CallbacksKnown(a, expired, now);
    hide Callbacks;
    hide Pruning;
    CallbacksKeepConns(a, expired, now);
    VisitsKept(a, PruneStep(s, now), IdsOf(expired));
    KeptChain(s, a, PruneStep(s, now));
  }

  lemma CallbacksKeepConns(s: Server, expired: seq<Q.Job>, now: nat)
    ensures Callbacks(s, expired, now).conns.Keys == s.conns.Keys
  {
    CallbacksVisit(s, expired, now);
    hide Q.Valid;
  }

  /** Starting requests finds every chosen worker's queue empty. */
  lemma LaunchMatched(s: Server, before: seq<Q.Slot>)
    requires Matched(s.hashers, before) && |before| == |s.queue.running|
    requires forall w :: 0 <= w < |before| && before[w].Busy? ==> s.queue.running[w] == before[w]
    ensures var t := Launch(s, before);
            Matched(t.hashers, s.queue.running) && SameDone(s.hashers, t.hashers) && t.failed == s.failed
  {
    var t := Launch(s, before);
    forall w | 0 <= w < |before|
      ensures t.hashers[w] == if before[w].Idle? && s.queue.running[w].Busy? then Queued(s.queue.running[w].job.id) else s.hashers[w]
    {
    }
  }

  lemma ScheduleKept(s: Server, now: nat)
    requires Fine(s)
    ensures Kept(s, ScheduleStep(s, now))
  {
    hide Q.Valid;
    var q := Q.Schedule(s.queue, s.limits, 0, now).0;
    Q.ScheduleValid(s.queue, s.limits, 0, now);
    ScheduleIds(s.queue, s.limits, 0, now);
    var a := s.(queue := q, limits := Q.Schedule(s.queue, s.limits, 0, now).1);
    hide Q.Schedule;
    LaunchMatched(a, s.queue.running);
    FrameSelf(s);
    hide Matched;
    hide Launched;
    hide SameDone;
  }

  lemma PumpKept(s: Server, now: nat)
    requires Fine(s)
    ensures Kept(s, Pump(s, now))
  {
    hide ScheduleStep;
    PruneKept(s, now);
    ScheduleKept(PruneStep(s, now), now);
    KeptChain(s, PruneStep(s, now), Pump(s, now));
    hide Kept;
  }

  lemma ProcessKept(s: Server, c: nat, m: Msg, now: nat)
    requires Fine(s) && c in s.conns
    ensures Kept(s, Process1(s, c, m, now))
  {
    var a := Noted(s, c, m);
    UpdateTouches(s, c, a.conns[c]);
    TouchesKept(s, a, c);
    assert Fine(a);
    if m.asks.Some? {
      var b := AskHash(a, c, m.asks.value, now).0;
      AskTouches(a, c, m.asks.value, now);
      TouchesKept(a, b, c);
      KeptChain(s, a, b);
      assert Fine(b);
      hide AskHash;
      PumpKept(b, now);
      KeptChain(s, b, Pump(b, now));
    }
    hide Kept;
    hide Pump;
    hide Q.Valid;
    hide AskHash;
  }

  lemma FineSame(s: Server, t: Server)
    requires Fine(s) && t.queue == s.queue && t.hashers == s.hashers && t.failed == s.failed && s.conns.Keys <= t.conns.Keys
    ensures Fine(t)
  {
    hide Q.Valid;
    hide Matched;
  }

  lemma UncountKept(s: Server, c: nat)
    requires Fine(s) && c in s.conns
    ensures Kept(s, Uncount(s, c))
  {
    UncountFrame(s, c);
    FineSame(s, Uncount(s, c));
    hide AppFrame;
    hide Fine;
  }

  lemma HandleKept(s: Server, c: nat, m: Msg, now: nat)
    requires Fine(s) && c in s.conns
    ensures Kept(s, Handle1(s, c, m, now))
  {
    hide Process1;
    KeptSelf(s);
    if s.conns[c].alive && !s.stopping {
      ProcessKept(s, c, m, now);
      KeptFine(s, Process1(s, c, m, now));
      UncountKept(Process1(s, c, m, now), c);
      KeptChain(s, Process1(s, c, m, now), Handle1(s, c, m, now));
    } else {
      UncountKept(s, c);
    }
    hide Kept;
    hide Uncount;
  }

  lemma KeptFine(s: Server, t: Server)
    requires Kept(s, t)
    ensures Fine(t) && t.conns.Keys == s.conns.Keys
  {
    hide Fine;
  }

  lemma {:induction false} DrainKept(s: Server, c: nat, now: nat)
    requires Fine(s) && c in s.conns
    ensures Kept(s, Drain1(s, c, now))
    decreases |s.conns[c].deferred|
  {
    KeptSelf(s);
    var k := s.conns[c];
    if !k.waiting && k.deferred != [] {
      var a := Popped(s, c);
      PoppedTouches(s, c);
      TouchesKept(s, a, c);
      assert Fine(a);
      HandleKept(a, c, k.deferred[0], now);
      Handle1Frame(a, c, k.deferred[0], now);
      var b := Handle1(a, c, k.deferred[0], now);
      assert Fine(b);
      hide Handle1;
      hide Fine;
      KeptChain(s, a, b);
      assert b.conns.Keys == s.conns.Keys && |b.conns[c].deferred| < |k.deferred|;
      hide Kept;
      hide AppFrame;
      DrainKept(b, c, now);
      KeptChain(s, b, Drain1(b, c, now));
    }
    hide Kept;
    hide Fine;
  }

  // -------------------------------------------------------------- whole steps

  /** Handling inside a job keeps the counts: no job is added, nobody dies. */
  lemma KeptReserved(s: Server, t: Server)
    requires Reserved(s) && Kept(s, t)
    ensures Reserved(t)
  {
    SameDones(s.hashers, t.hashers);
    hide Fine;
    assert Alive(t) == Alive(s);
    hide Count;
    hide Dones;
    forall job | job in t.jobs
      ensures Knows(t, job)
    {
      assert Knows(s, job);
    }
  }

  lemma CountsSnoc(jobs: seq<AppJob>, job: AppJob)
    ensures forall kind :: Count(jobs + [job], kind) == Count(jobs, kind) + if KindOf(job) == kind then 1 else 0
  {
    hide Count;
    forall kind
      ensures Count(jobs + [job], kind) == Count(jobs, kind) + if KindOf(job) == kind then 1 else 0
    {
      CountSnoc(jobs, job, kind);
    }
  }

  lemma NormalLess(jobs: seq<AppJob>)
    ensures Count(jobs, Normal) <= |jobs|
  {
    CountAll(jobs);
    hide Count;
  }

  lemma SubmitReserved(s: Server, job: AppJob)
    requires Reserved(s) && KindOf(job) == Normal && Knows(s, job)
    ensures Reserved(Submit(s, job, false).0)
  {
    hide Dones;
    hide Count;
    var t := Submit(s, job, false).0;
    FineSame(s, t);
    hide Fine;
    CountsSnoc(s.jobs, job);
    NormalLess(s.jobs);
    assert Alive(t) == Alive(s);
    hide Alive;
    OwedSnoc(s.jobs, s.hashers, job);
    hide Owed;
    KnownSnoc(s, job);
    hide Known;
  }

  lemma OwedSnoc(jobs: seq<AppJob>, hashers: seq<Hasher>, job: AppJob)
    requires Owed(jobs, hashers) && !job.Completion?
    ensures Owed(jobs + [job], hashers)
  {
    CountSnoc(jobs, job, ForCompletion);
    hide Count;
    hide Dones;
  }

  lemma KnownSnoc(s: Server, job: AppJob)
    requires Known(s) && Knows(s, job)
    ensures Known(s.(jobs := s.jobs + [job]))
  {
    var t := s.(jobs := s.jobs + [job]);
    forall j | j in t.jobs
      ensures Knows(t, j)
    {
      assert j == job || j in s.jobs;
      assert Knows(s, j);
    }
  }

  lemma KnownConns(s: Server, t: Server)
    requires Known(s) && t.jobs == s.jobs && s.conns.Keys <= t.conns.Keys
    requires forall c :: c in t.conns && t.conns[c].alive ==> t.conns[c].listed
    ensures Known(t)
  {
    forall j | j in t.jobs
      ensures Knows(t, j)
    {
      assert Knows(s, j);
    }
  }

  lemma DeadReserved(s: Server, c: nat)
    requires Reserved(s) && c in s.conns
    ensures var a := WithConn(s, c, s.conns[c].(alive := false));
            Reserved(a) && |Alive(a)| == |Alive(s)| - if s.conns[c].alive then 1 else 0
  {
    var a := WithConn(s, c, s.conns[c].(alive := false));
    assert Alive(a) == Alive(s) - {c};
    assert c in Alive(s) <==> s.conns[c].alive;
    KnownConns(s, a);
    FineSame(s, a);
    hide Count;
    hide Owed;
    hide Known;
    hide Fine;
    hide Alive;
  }

  lemma CleanupSubmitted(a: Server, c: nat)
    requires Reserved(a) && c in a.conns
    requires |Alive(a)| + a.cleanups + (if a.accepting then 1 else 0) < a.maxConnections
    ensures Reserved(MustSubmit(a.(cleanups := a.cleanups + 1), Cleanup(c)))
  {
    hide Fine;
    hide Count;
    hide Owed;
    var t := a.(cleanups := a.cleanups + 1, jobs := a.jobs + [Cleanup(c)]);
    assert MustSubmit(a.(cleanups := a.cleanups + 1), Cleanup(c)) == t by {
      CleanupsRoom(a);
    }
    assert Alive(t) == Alive(a);
    FineSame(a, t);
    KnownSnoc(a, Cleanup(c));
    OwedSnoc(a.jobs, a.hashers, Cleanup(c));
    CountsSnoc(a.jobs, Cleanup(c));
    hide Alive;
  }

  lemma CleanupsRoom(s: Server)
    requires Reserved(s)
    ensures |s.jobs| < Limit(s, true)
  {
    ReserveSuffices(s);
  }

  lemma ReservedConns(s: Server)
    requires Reserved(s)
    ensures |Alive(s)| + s.cleanups + (if s.accepting then 1 else 0) <= s.maxConnections
  {
    hide Fine;
    hide Count;
    hide Alive;
    hide Owed;
    hide Known;
  }

  /** A dying connection passes its place to its cleanup job. */
  lemma CleanUpReserved(s: Server, c: nat)
    requires Reserved(s) && c in s.conns
    ensures Reserved(CleanUp(s, c)) && CleanUp(s, c).conns.Keys == s.conns.Keys
    ensures CleanUp(s, c).conns[c] == s.conns[c].(alive := false)
  {
    hide Alive;
    hide Reserved;
    var k := s.conns[c];
    var a := WithConn(s, c, k.(alive := false));
    DeadReserved(s, c);
    ReservedConns(s);
    if k.alive && k.isOpen {
      CleanupSubmitted(a, c);
    }
  }

  lemma UpdateReserved(s: Server, c: nat, k: Conn)
    requires Reserved(s) && c in s.conns && k.alive == s.conns[c].alive && (k.alive ==> k.listed)
    ensures Reserved(WithConn(s, c, k))
  {
    var t := WithConn(s, c, k);
    assert Alive(t) == Alive(s);
    KnownConns(s, t);
    FineSame(s, t);
    hide Count;
    hide Owed;
    hide Known;
    hide Fine;
    hide Alive;
  }

  lemma CloseReserved(s: Server, c: nat)
    requires Reserved(s)
    ensures Reserved(CloseConn(s, c))
  {
    if c in s.conns {
      CleanUpReserved(s, c);
    }
    hide Reserved;
    hide CleanUp;
  }

  lemma {:induction false} CloseAllReserved(s: Server, conns: seq<nat>)
    requires Reserved(s)
    ensures Reserved(CloseAll(s, conns))
    decreases |conns|
  {
    hide Reserved;
    hide CloseConn;
    if conns != [] {
      CloseReserved(s, conns[0]);
      CloseAllReserved(CloseConn(s, conns[0]), conns[1..]);
    }
  }

  lemma GoneReserved(s: Server, c: nat)
    requires Reserved(s)
    ensures Reserved(Finish(s, c))
  {
    if c in s.conns && s.conns[c].listed {
      CleanUpReserved(s, c);
      var a := CleanUp(s, c);
      hide CleanUp;
      UpdateReserved(a, c, a.conns[c].(listed := false));
    }
    hide Reserved;
  }

  lemma {:induction false} Subset(a: set<nat>, b: set<nat>)
    requires a <= b
    ensures |a| <= |b|
  {
    if a != {} {
      var x :| x in a;
      Subset(a - {x}, b - {x});
    }
  }

  lemma AcceptReserved(s: Server, tight: bool)
    requires Reserved(s)
    ensures Reserved(AcceptNext(s, tight))
  {
    assert Alive(s) <= Listed(s);
    Subset(Alive(s), Listed(s));
    var t := AcceptNext(s, tight);
    assert Alive(t) == Alive(s);
    FineSame(s, t);
    KnownConns(s, t);
    hide Count;
    hide Fine;
    hide Owed;
    hide Known;
    hide Alive;
    hide Listed;
    hide Unopened;
  }

  lemma AliveAdded(s: Server, t: Server, c: nat)
    requires t.conns == s.conns[c := NEW_CONN] && c !in s.conns
    ensures |Alive(t)| == |Alive(s)| + 1
  {
    assert c !in Alive(s);
    forall x
      ensures x in Alive(t) <==> x in Alive(s) || x == c
    {
    }
    hide Alive;
    assert Alive(t) == Alive(s) + {c};
  }

  lemma AcceptedAlive(s: Server, c: Option<nat>)
    ensures |Alive(Accepted(s, c))| == |Alive(s)| + if s.accepting && !s.stopping && c.Some? && c.value !in s.conns then 1 else 0
  {
    var t := Accepted(s, c);
    if s.accepting && !s.stopping && c.Some? && c.value !in s.conns {
      AliveAdded(s, t, c.value);
    } else {
      assert Alive(t) == Alive(s);
    }
    hide Alive;
  }

  lemma AcceptedReserved(s: Server, c: Option<nat>)
    requires Reserved(s)
    ensures Reserved(Accepted(s, c))
  {
    hide Alive;
    hide Count;
    hide Fine;
    hide Owed;
    var t := Accepted(s, c);
    AcceptedAlive(s, c);
    FineSame(s, t);
    KnownConns(s, t);
    hide Known;
  }

  lemma ListedAlive(s: Server, c: nat)
    requires Reserved(s) && c in s.conns
    ensures s.conns[c].alive ==> s.conns[c].listed
  {
    hide Fine;
  }

  lemma ArriveReserved(s: Server, c: nat, m: Msg)
    requires Reserved(s)
    ensures Reserved(Arrive(s, c, m))
  {
    hide Reserved;
    hide CloseConn;
    CloseReserved(s, c);
    if c in s.conns {
      ListedAlive(s, c);
      SubmitReserved(s, Message(c, m));
      var t := Submit(s, Message(c, m), false).0;
      var k := s.conns[c];
      UpdateReserved(t, c, k.(count := k.count + 1, arrived := k.arrived + [m]));
    }
  }

  /** A one-shot lifecycle job takes the place kept for it. */
  lemma OnceReserved(s: Server, t: Server, job: AppJob)
    requires Reserved(s) && (job == Sweep || job == Farewell)
    requires t == s.(jobs := s.jobs + [job], sweepDue := t.sweepDue, stopping := t.stopping)
    requires job == Sweep ==> s.sweepDue && !t.sweepDue && t.stopping == s.stopping
    requires job == Farewell ==> !s.stopping && t.stopping && t.sweepDue == s.sweepDue
    ensures Reserved(t)
  {
    CountsSnoc(s.jobs, job);
    assert Alive(t) == Alive(s);
    OwedSnoc(s.jobs, s.hashers, job);
    KnownSnoc(s, job);
    FineSame(s, t);
    hide Count;
    hide Fine;
    hide Owed;
    hide Alive;
  }

  lemma SweepReserved(s: Server)
    requires Reserved(s)
    ensures Reserved(Step(s, SweepTimer))
  {
    CleanupsRoom(s);
    if s.sweepDue && !s.stopping {
      OnceReserved(s, s.(jobs := s.jobs + [Sweep], sweepDue := false), Sweep);
    }
    hide Reserved;
  }

  lemma StopReserved(s: Server)
    requires Reserved(s)
    ensures Reserved(Step(s, Stop))
  {
    hide CloseAll;
    hide SortedNats;
    hide Listed;
    hide Reserved;
    hide Fine;
    CleanupsRoom(s);
    if !s.stopping {
      var a := s.(jobs := s.jobs + [Farewell], stopping := true);
      OnceReserved(s, a, Farewell);
      CloseAllReserved(a, SortedNats(Listed(a)));
    }
  }

  lemma CountsPop(jobs: seq<AppJob>)
    requires jobs != []
    ensures forall kind :: Count(jobs, kind) == Count(jobs[1..], kind) + if KindOf(jobs[0]) == kind then 1 else 0
  {
  }

  lemma KnownPop(s: Server)
    requires Known(s) && s.jobs != []
    ensures Known(s.(jobs := s.jobs[1..])) && Knows(s, s.jobs[0])
  {
    var t := s.(jobs := s.jobs[1..]);
    forall j | j in t.jobs
      ensures Knows(t, j)
    {
      assert j in s.jobs;
      assert Knows(s, j);
    }
    assert s.jobs[0] in s.jobs;
  }

  lemma OwedPop(jobs: seq<AppJob>, hashers: seq<Hasher>)
    requires Owed(jobs, hashers) && jobs != [] && !jobs[0].Completion?
    ensures Owed(jobs[1..], hashers)
  {
    CountsPop(jobs);
    hide Count;
    hide Dones;
  }

  /** Taking a job that is not a completion off the queue. */
  lemma PopReserved(s: Server)
    requires Reserved(s) && s.jobs != [] && !s.jobs[0].Completion?
    ensures var t := s.(jobs := s.jobs[1..], posted := if s.jobs[0].Cleanup? then s.posted + 1 else s.posted);
            Reserved(t)
  {
    var t := s.(jobs := s.jobs[1..], posted := if s.jobs[0].Cleanup? then s.posted + 1 else s.posted);
    CountsPop(s.jobs);
    assert Alive(t) == Alive(s);
    KnownPop(s);
    KnownConns(s.(jobs := s.jobs[1..]), t);
    OwedPop(s.jobs, s.hashers);
    FineSame(s, t);
    hide Fine;
    hide Count;
    hide Owed;
    hide Known;
    hide Alive;
  }

  lemma CounterReserved(s: Server, deferred: int)
    requires Reserved(s)
    ensures Reserved(s.(deferred := deferred))
  {
    var t := s.(deferred := deferred);
    FineSame(s, t);
    KnownConns(s, t);
    assert Alive(t) == Alive(s);
    hide Fine;
    hide Count;
    hide Owed;
    hide Known;
    hide Alive;
  }

  lemma DeferReserved(s: Server, c: nat, m: Msg)
    requires Reserved(s) && c in s.conns
    ensures Reserved(Defer(s, c, m))
  {
    hide Reserved;
    var k := s.conns[c];
    ListedAlive(s, c);
    UpdateReserved(s, c, k.(count := k.count - 1, lost := true));
    CounterReserved(s, s.deferred + 1);
    UpdateReserved(s.(deferred := s.deferred + 1), c, k.(deferred := k.deferred + [m]));
  }

  lemma ReservedValid(s: Server)
    requires Reserved(s)
    ensures Q.Valid(s.queue) && Fine(s)
  {
    hide Q.Valid;
  }

  lemma MessageReserved(s: Server, c: nat, m: Msg, now: nat)
    requires Reserved(s) && c in s.conns
    ensures Reserved(Dispatch(s, c, m, now))
  {
    hide Reserved;
    hide Handle1;
    hide Defer;
    ReservedValid(s);
    HandleKept(s, c, m, now);
    KeptReserved(s, Handle1(s, c, m, now));
    DeferReserved(s, c, m);
  }

  lemma CancelKept(s: Server, c: nat)
    requires Fine(s)
    ensures Kept(s, s.(queue := Q.Cancel(s.queue, c)))
  {
    H.ValidOutstanding(s.queue);
    Q.CancelValid(s.queue, SortedKeys(s.queue.sources.Keys), c);
    CancelIds(s.queue, SortedKeys(s.queue.sources.Keys), c);
    hide Q.Valid;
    hide Q.CancelIn;
    hide SortedKeys;
    QueueKept(s, Q.Cancel(s.queue, c));
  }

  /** The cleanup job's place passes to the decrement it posts. */
  lemma RunCleanupReserved(s: Server, c: nat)
    requires s.posted > 0 && Reserved(s) && c in s.conns
    ensures Q.Valid(s.queue) && Reserved(RunCleanup(s.(posted := s.posted - 1), c))
  {
    hide Reserved;
    hide Fine;
    hide Kept;
    hide Q.Valid;
    hide Q.Cancel;
    ReservedValid(s);
    var k := s.conns[c];
    CancelKept(s, c);
    var a := s.(queue := Q.Cancel(s.queue, c));
    KeptReserved(s, a);
    CounterReserved(a, s.deferred - |k.deferred|);
    var b := a.(deferred := s.deferred - |k.deferred|);
    ListedAlive(s, c);
    UpdateReserved(b, c, k.(count := k.count - |k.deferred|, deferred := []));
  }

  // -------------------------------------------------------- hashing completions

  lemma OwedCompleted(jobs: seq<AppJob>, hashers: seq<Hasher>)
    requires Owed(jobs, hashers) && jobs != [] && jobs[0].Completion?
    ensures jobs[0].worker < |hashers| && hashers[jobs[0].worker] == Done(jobs[0].conn)
    ensures Owed(jobs[1..], hashers[jobs[0].worker := Resting])
  {
    var w := jobs[0].worker;
    CountsPop(jobs);
    DonesUpdate(hashers, w, Resting);
    hide Count;
    hide Dones;
    forall i | 0 <= i < |jobs| - 1 && jobs[1..][i].Completion?
      ensures jobs[1..][i].worker < |hashers| && hashers[w := Resting][jobs[1..][i].worker] == Done(jobs[1..][i].conn)
    {
      assert jobs[i + 1].worker != w;
    }
    forall i, j | 0 <= i < j < |jobs| - 1 && jobs[1..][i].Completion? && jobs[1..][j].Completion?
      ensures jobs[1..][i].worker != jobs[1..][j].worker
    {
      assert jobs[i + 1].worker != jobs[j + 1].worker;
    }
  }

  lemma OwedHashed(jobs: seq<AppJob>, hashers: seq<Hasher>, w: nat)
    requires Owed(jobs, hashers) && w < |hashers| && hashers[w].Hashing?
    ensures var c := hashers[w].conn;
            Owed(jobs + [Completion(w, c)], hashers[w := Done(c)])
  {
    var c := hashers[w].conn;
    var jobs', hashers' := jobs + [Completion(w, c)], hashers[w := Done(c)];
    CountSnoc(jobs, Completion(w, c), ForCompletion);
    DonesUpdate(hashers, w, Done(c));
    hide Count;
    hide Dones;
    forall i | 0 <= i < |jobs'| && jobs'[i].Completion?
      ensures jobs'[i].worker < |hashers'| && hashers'[jobs'[i].worker] == Done(jobs'[i].conn)
      ensures i < |jobs| ==> jobs'[i].worker != w
    {
      if i < |jobs| {
        assert jobs'[i] == jobs[i];
      }
    }
  }

  /** The worker of a completion is active, for that connection. */
  lemma CompletionActive(s: Server)
    requires Reserved(s) && s.jobs != [] && s.jobs[0].Completion?
    ensures var w := s.jobs[0].worker;
            && w < |s.queue.running| && w < |s.hashers| && s.queue.running[w].Busy? && s.queue.running[w].job.id == s.jobs[0].conn
            && s.jobs[0].conn in s.conns
  {
    var w := s.jobs[0].worker;
    OwedCompleted(s.jobs, s.hashers);
    KnownPop(s);
    hide Count;
    hide Dones;
    hide Q.Valid;
  }

  lemma MatchedFreed(hashers: seq<Hasher>, running: seq<Q.Slot>, w: nat)
    requires Matched(hashers, running) && w < |running|
    ensures Matched(hashers[w := Resting], running[w := Q.Idle])
  {
  }

  lemma CompletedFine(s: Server, w: nat)
    requires Fine(s) && w < |s.queue.running| && s.queue.running[w].Busy?
    ensures var q := Q.Complete(s.queue, w).0;
            Fine(s.(queue := q, hashers := s.hashers[w := Resting]))
    ensures Q.Complete(s.queue, w).1
  {
    Q.FreeValid(s.queue, w);
    CompleteIds(s.queue, w);
    MatchedFreed(s.hashers, s.queue.running, w);
    hide Matched;
    hide Q.Valid;
    hide Q.Free;
  }

  lemma CompletionPopped(s: Server)
    requires Reserved(s) && s.jobs != [] && s.jobs[0].Completion?
    ensures var w := s.jobs[0].worker;
            && w < |s.hashers| && Q.Valid(s.queue) && Q.Complete(s.queue, w).1
            && Reserved(s.(jobs := s.jobs[1..], queue := Q.Complete(s.queue, w).0, hashers := s.hashers[w := Resting]))
  {
    hide Dones;
    hide Q.Complete;
    hide Count;
    CompletionActive(s);
    var w := s.jobs[0].worker;
    assert Fine(s) && Known(s) && Owed(s.jobs, s.hashers) && Bounded(s);
    CompletedFine(s, w);
    OwedCompleted(s.jobs, s.hashers);
    hide Owed;
    CountsPop(s.jobs);
    KnownPop(s);
    var a := s.(queue := Q.Complete(s.queue, w).0, hashers := s.hashers[w := Resting]);
    var t := a.(jobs := s.jobs[1..]);
    FineSame(a, t);
    KnownConns(s.(jobs := s.jobs[1..]), t);
    hide Known;
    ReservedValid(s);
    hide Fine;
    assert Alive(t) == Alive(s);
    hide Alive;
  }

  lemma CompletionReserved(s: Server, now: nat)
    requires Reserved(s) && s.jobs != [] && s.jobs[0].Completion? && s.jobs[0].conn in s.conns
    ensures Q.Valid(s.queue) && Reserved(RunCompletion(s.(jobs := s.jobs[1..]), s.jobs[0].worker, s.jobs[0].conn, now))
  {
    hide Reserved;
    hide Q.Valid;
    hide Q.Complete;
    hide Drain1;
    hide Pump;
    hide Fine;
    hide Kept;
    var w, c := s.jobs[0].worker, s.jobs[0].conn;
    CompletionPopped(s);
    var a := s.(jobs := s.jobs[1..], queue := Q.Complete(s.queue, w).0, hashers := s.hashers[w := Resting]);
    ListedAlive(s, c);
    UpdateReserved(a, c, s.conns[c].(waiting := false));
    var b := WithConn(a, c, s.conns[c].(waiting := false));
    ReservedValid(b);
    DrainKept(b, c, now);
    var d := Drain1(b, c, now);
    KeptReserved(b, d);
    ReservedValid(d);
    PumpKept(d, now);
    KeptReserved(d, Pump(d, now));
  }

  lemma HashedReserved(s: Server, w: nat)
    requires Reserved(s) && w < |s.hashers| && s.hashers[w].Hashing?
    ensures Reserved(MustSubmit(s.(hashers := s.hashers[w := Done(s.hashers[w].conn)]), Completion(w, s.hashers[w].conn)))
  {
    var c := s.hashers[w].conn;
    CleanupsRoom(s);
    OwedHashed(s.jobs, s.hashers, w);
    CountsSnoc(s.jobs, Completion(w, c));
    var a := s.(hashers := s.hashers[w := Done(c)]);
    var t := a.(jobs := s.jobs + [Completion(w, c)]);
    assert Fine(a) by {
      hide Q.Valid;
    }
    FineSame(a, t);
    RunningKnown(s, w);
    KnownConns(s, a);
    KnownSnoc(a, Completion(w, c));
    assert Alive(t) == Alive(s);
    assert t == MustSubmit(a, Completion(w, c));
    hide Fine;
    hide Count;
    hide Owed;
    hide Known;
    hide Alive;
  }

  lemma RunningKnown(s: Server, w: nat)
    requires Fine(s) && w < |s.hashers| && !s.hashers[w].Resting?
    ensures s.hashers[w].conn in s.conns
  {
    assert Q.RunsAt(s.queue, w, s.queue.running[w].job.id);
    assert Q.IsRunning(s.queue, s.queue.running[w].job.id);
  }

  lemma PickReserved(s: Server, w: nat)
    requires Reserved(s) && w < |s.hashers| && s.hashers[w].Queued?
    ensures Reserved(s.(hashers := s.hashers[w := Hashing(s.hashers[w].conn)]))
  {
    var t := s.(hashers := s.hashers[w := Hashing(s.hashers[w].conn)]);
    assert Kept(s, t) by {
      FrameSelf(s);
      hide Q.Valid;
    }
    KeptReserved(s, t);
  }

  // -------------------------------------------------------------------- runs

  lemma WorkReserved(s: Server, now: nat)
    requires Reserved(s)
    ensures Q.Valid(s.queue) && Reserved(Step(s, Work(now)))
  {
    hide Reserved;
    hide Q.Valid;
    hide Dispatch;
    hide RunCleanup;
    hide RunCompletion;
    hide Pump;
    ReservedValid(s);
    if s.jobs != [] && Knows(s, s.jobs[0]) {
      if s.jobs[0].Completion? {
        CompletionReserved(s, now);
      } else {
        var t := s.(jobs := s.jobs[1..], posted := if s.jobs[0].Cleanup? then s.posted + 1 else s.posted);
        PopReserved(s);
        match s.jobs[0]
        case Message(c, m) => MessageReserved(t, c, m, now);
        case Cleanup(c) => RunCleanupReserved(t, c);
        case Tick =>
          ReservedValid(t);
          PumpKept(t, now);
          KeptReserved(t, Pump(t, now));
        case _ =>
      }
    }
  }

  lemma PostedReserved(s: Server)
    requires Reserved(s) && s.posted > 0
    ensures s.cleanups > 0 && Reserved(s.(posted := s.posted - 1, cleanups := s.cleanups - 1))
  {
    var t := s.(posted := s.posted - 1, cleanups := s.cleanups - 1);
    assert s.cleanups > 0 by {
      hide Fine;
    }
    FineSame(s, t);
    KnownConns(s, t);
    assert Alive(t) == Alive(s);
    hide Fine;
    hide Count;
    hide Owed;
    hide Known;
    hide Alive;
  }

  lemma StepReserved(s: Server, e: Event)
    requires Reserved(s)
    ensures Q.Valid(s.queue) && Reserved(Step(s, e))
  {
    hide Reserved;
    hide Q.Valid;
    ReservedValid(s);
    match e
    case TryAccept(tight) => AcceptReserved(s, tight);
    case AcceptDone(c) => AcceptedReserved(s, c);
    case Open(c) =>
      if c in s.conns && s.conns[c].listed {
        UpdateReserved(s, c, s.conns[c].(isOpen := true));
      }
    case Receive(c, m) => ArriveReserved(s, c, m);
    case Close(c) => CloseReserved(s, c);
    case Gone(c) => GoneReserved(s, c);
    case Submitted(job) =>
      if Ordinary(job) {
        SubmitReserved(s, job);
      }
    case SweepTimer => SweepReserved(s);
    case Stop => StopReserved(s);
    case Work(now) => WorkReserved(s, now);
    case Pick(w) =>
      if w < |s.hashers| && s.hashers[w].Queued? {
        PickReserved(s, w);
      }
    case Hashed(w) =>
      if w < |s.hashers| && s.hashers[w].Hashing? {
        HashedReserved(s, w);
      }
    case Posted =>
      if s.posted > 0 {
        PostedReserved(s);
      }
  }

  datatype Setup = Setup(
    capacity: nat, maxConnections: nat, effective: nat, timeout: nat,
    workers: nat, queueCapacity: nat, sourceCapacity: nat, limit: nat)

  ghost predicate Proper(x: Setup) {
    0 < x.workers && 0 < x.queueCapacity && 0 < x.sourceCapacity && 0 < x.limit && 0 < x.timeout
    && x.effective <= x.maxConnections
  }

  /** The server as constructed: the reserve is sized from the configured limits;
      a low file-descriptor limit can only reduce the effective connections. */
  ghost function NewServer(x: Setup): Server {
    Server(x.capacity, x.maxConnections + x.workers + 4, x.effective, x.timeout,
           [], map[], false, 0, 0, 0,
           Q.NewQueue(x.workers, x.queueCapacity, x.sourceCapacity), Limits(x.limit, map[], 0),
           seq(x.workers, _ => Resting), true, false, false)
  }

  lemma {:induction false} NoneDone(hashers: seq<Hasher>)
    requires forall w :: 0 <= w < |hashers| ==> hashers[w].Resting?
    ensures Dones(hashers) == 0
  {
    if hashers != [] {
      NoneDone(hashers[1..]);
    }
  }

  lemma NewReserved(x: Setup)
    requires Proper(x)
    ensures Reserved(NewServer(x))
  {
    var s := NewServer(x);
    H.NewQueueSane(x.workers, x.queueCapacity, x.sourceCapacity, 1);
    H.SaneValid(s.queue);
    hide Q.Valid;
    NoneDone(s.hashers);
    assert Alive(s) == {};
  }

  ghost function Run(x: Setup, events: seq<Event>): (s: Server)
    requires Proper(x)
    ensures Reserved(s)
    decreases |events|
  {
    if events == [] then
      NewReserved(x);
      NewServer(x)
    else
      var before := Run(x, events[..|events| - 1]);
      StepReserved(before, events[|events| - 1]);
      Step(before, events[|events| - 1])
  }

  /** In every reachable state a lifecycle job can be submitted, none was ever
      refused, and an idle slot's hashing worker has an empty queue. */
  lemma RunNeverRefuses(x: Setup, events: seq<Event>)
    requires Proper(x)
    ensures var s := Run(x, events);
            && !s.failed
            && (forall job :: Submit(s, job, true).1)
            && |Alive(s)| + s.cleanups <= s.maxConnections
            && (forall w :: 0 <= w < |s.queue.running| ==> w < |s.hashers| && (s.queue.running[w].Idle? <==> s.hashers[w].Resting?))
  {
    var s := Run(x, events);
    hide Run;
    ReserveSuffices(s);
    hide Q.Valid;
    hide Count;
    hide Owed;
    hide Known;
  }
}
