/** `BoundedExecutor` and the parts of `SignalServer` that feed it, with the
    re-entrancy of the original: handling a message may pump the credential queue,
    whose callbacks handle further messages. */
module SignalServers {
  import opened Ordering
  import opened WorkLimiting
  import opened CredentialQueues
  import S = ServerSpec
  import Q = QueueSpec
  import R = ServerReserve

  /** A single FIFO; reserved slots are for lifecycle jobs only. */
  class BoundedExecutor<J> {
    const capacity: nat
    const reserve: nat
    var jobs: seq<J>
    var stopping: bool

    constructor (capacity: nat, reserve: nat)
      ensures this.capacity == capacity && this.reserve == reserve && jobs == [] && !stopping
    {
      this.capacity, this.reserve := capacity, reserve;
      jobs, stopping := [], false;
    }

    method Submit(job: J, lifecycle: bool) returns (ok: bool)
      modifies this`jobs
      ensures ok == (!stopping && |old(jobs)| < capacity + if lifecycle then reserve else 0)
      ensures jobs == if ok then old(jobs) + [job] else old(jobs)
    {
      if stopping || |jobs| >= capacity + (if lifecycle then reserve else 0) {
        return false;
      }
      jobs := jobs + [job];
      ok := true;
    }

    /** The worker thread takes its next job; `None` when there is none. A stopped
        executor still runs what it holds. */
    method Take() returns (job: Option<J>)
      modifies this`jobs
      ensures old(jobs) == [] ==> job.None? && jobs == []
      ensures old(jobs) != [] ==> job == Some(old(jobs)[0]) && jobs == old(jobs)[1..]
    {
      if jobs == [] {
        return None;
      }
      job := Some(jobs[0]);
      jobs := jobs[1..];
    }

    method Stop()
      modifies this`stopping
      ensures stopping
    {
      stopping := true;
    }
  }

  class SignalServer {
    const worker: BoundedExecutor<S.AppJob>
    const queue: CredentialQueue
    const limiter: CredentialWorkLimiter
    const maxConnections: nat
    const timeout: nat
    var conns: map<nat, S.Conn>
    var accepting: bool
    var cleanups: nat
    var posted: nat
    var deferred: int
    var hashers: seq<S.Hasher>
    var sweepDue: bool
    var stopping: bool
    var failed: bool

    ghost function State(): S.Server
      reads this, worker, queue, limiter
    {
      S.Server(worker.capacity, worker.reserve, maxConnections, timeout, worker.jobs, conns, accepting, cleanups, posted,
               deferred, queue.State(), limiter.State(), hashers, sweepDue, stopping, failed)
    }

    ghost predicate Valid()
      reads this, worker, queue
    {
      queue.Valid() && !worker.stopping
    }

    /** Queue sizes from the configured limits; a low descriptor limit can reduce
        the connections accepted. */
    constructor (x: R.Setup)
      requires R.Proper(x)
      ensures Valid() && State() == R.NewServer(x) && !queue.pumping
      ensures fresh(worker) && fresh(queue) && fresh(limiter)
    {
      worker := new BoundedExecutor(x.capacity, x.maxConnections + x.workers + 4);
      queue := new CredentialQueue(x.workers, x.queueCapacity, x.sourceCapacity);
      limiter := new CredentialWorkLimiter(x.limit);
      maxConnections, timeout := x.effective, x.timeout;
      conns, accepting, cleanups, posted, deferred := map[], false, 0, 0, 0;
      hashers := seq(x.workers, _ => S.Resting);
      sweepDue, stopping, failed := true, false, false;
    }

    // -------------------------------------------------------- network thread

    /** The cleanup job must find its place in the reserve. */
    method SubmitCleanup(c: nat)
      requires Valid()
      modifies this`failed, worker
      ensures Valid() && State() == S.MustSubmit(old(State()), S.Cleanup(c))
    {
      hide Q.Valid;
      var ok := worker.Submit(S.Cleanup(c), true);
      if !ok {
        failed := true;
      }
    }

    method QueueSessionCleanup(c: nat)
      requires Valid() && c in conns
      modifies this, worker
      ensures Valid() && State() == S.CleanUp(old(State()), c)
    {
      hide Q.Valid;
      hide S.MustSubmit;
      ghost var a := S.WithConn(State(), c, conns[c].(alive := false));
      var was := conns[c];
      conns := conns[c := was.(alive := false)];
      if !was.alive || !was.isOpen {
        return;
      }
      cleanups := cleanups + 1;
      assert State() == a.(cleanups := a.cleanups + 1);
      SubmitCleanup(c);
    }

    method CloseConnection(c: nat)
      requires Valid()
      modifies this, worker
      ensures Valid() && State() == S.CloseConn(old(State()), c)
    {
      if c !in conns || !conns[c].listed || !conns[c].alive {
        return;
      }
      QueueSessionCleanup(c);
    }

    method FinishConnection(c: nat)
      requires Valid()
      modifies this, worker
      ensures Valid() && State() == S.Finish(old(State()), c)
    {
      if c !in conns || !conns[c].listed {
        return;
      }
      QueueSessionCleanup(c);
      conns := conns[c := conns[c].(listed := false)];
    }

    method AcceptNext(tight: bool)
      requires Valid()
      modifies this`accepting
      ensures Valid() && State() == S.AcceptNext(old(State()), tight)
    {
      if stopping || accepting {
        return;
      }
      var listed := set c | c in conns && conns[c].listed;
      assert listed == S.Listed(State());
      var handshakes := set c | c in conns && conns[c].listed && !conns[c].isOpen;
      assert handshakes == S.Unopened(State());
      if |listed| + cleanups >= maxConnections || |handshakes| >= S.MAX_HANDSHAKES || tight {
        return;
      }
      accepting := true;
    }

    method OnMessage(c: nat, m: S.Msg)
      requires Valid()
      modifies this, worker
      ensures Valid() && State() == S.Arrive(old(State()), c, m)
    {
      if c !in conns || !conns[c].listed || !conns[c].alive {
        return;
      }
      if conns[c].count >= S.BACKLOG {
        CloseConnection(c);
        return;
      }
      var ok := worker.Submit(S.Message(c, m), false);
      if ok {
        conns := conns[c := conns[c].(count := conns[c].count + 1, arrived := conns[c].arrived + [m])];
      } else {
        CloseConnection(c);
      }
    }

    // ---------------------------------------------------- application worker

    /** A message handled while a pump is in progress or at the top of a job. */
    static ghost function Processed(s: S.Server, pumping: bool, c: nat, m: S.Msg, now: nat): S.Server
      requires c in s.conns && Q.Valid(s.queue)
    {
      if pumping then S.Process0(s, c, m, now) else S.Process1(s, c, m, now)
    }

    static ghost function Handled(s: S.Server, pumping: bool, c: nat, m: S.Msg, now: nat): S.Server
      requires c in s.conns && Q.Valid(s.queue)
    {
      if pumping then S.Handle0(s, c, m, now) else S.Handle1(s, c, m, now)
    }

    static ghost function Drained(s: S.Server, pumping: bool, c: nat, now: nat): S.Server
      requires c in s.conns && Q.Valid(s.queue)
    {
      if pumping then S.Drain0(s, c, now) else S.Drain1(s, c, now)
    }

    /** One turn of the drain loop. */
    static lemma DrainedStep(s: S.Server, pumping: bool, c: nat, now: nat)
      requires c in s.conns && Q.Valid(s.queue) && !s.conns[c].waiting && s.conns[c].deferred != []
      ensures var t := Handled(S.Popped(s, c), pumping, c, s.conns[c].deferred[0], now);
              && c in t.conns && Q.Valid(t.queue) && |t.conns[c].deferred| < |s.conns[c].deferred|
              && Drained(s, pumping, c, now) == Drained(t, pumping, c, now)
    {
      var a := S.Popped(s, c);
      S.HandleTouches(a, c, s.conns[c].deferred[0], now);
      S.Handle1Frame(a, c, s.conns[c].deferred[0], now);
      hide Q.Valid;
      hide S.Handle0;
      hide S.Handle1;
    }

    /** A message that arrives while the hash runs waits its turn, or is lost. */
    method DeferMessage(c: nat, m: S.Msg)
      requires Valid() && c in conns
      modifies this`conns, this`deferred
      ensures Valid() && State() == S.Defer(old(State()), c, m)
    {
      if deferred >= S.DEFERRED_LIMIT {
        conns := conns[c := conns[c].(count := conns[c].count - 1, lost := true)];
        return;
      }
      deferred := deferred + 1;
      conns := conns[c := conns[c].(deferred := conns[c].deferred + [m])];
    }

    method CountDown(c: nat)
      requires Valid() && c in conns
      modifies this`conns
      ensures Valid() && State() == S.Uncount(old(State()), c)
    {
      conns := conns[c := conns[c].(count := conns[c].count - 1)];
    }

    method DispatchMessage(c: nat, m: S.Msg, now: nat)
      requires Valid() && c in conns
      modifies this, queue, limiter
      ensures Valid() && queue.pumping == old(queue.pumping)
      ensures State() == if old(conns[c].alive && !stopping && conns[c].waiting) then S.Defer(old(State()), c, m)
                         else Handled(old(State()), old(queue.pumping), c, m, now)
      decreases if queue.pumping then 0 else 2, |conns[c].deferred|, 2
    {
      hide Q.Valid;
      hide S.Defer;
      hide S.Uncount;
      hide S.Process0;
      hide S.Process1;
      if conns[c].alive && !stopping {
        if conns[c].waiting {
          DeferMessage(c, m);
          return;
        }
        ProcessMessage(c, m, now);
      }
      CountDown(c);
    }

    method ProcessMessage(c: nat, m: S.Msg, now: nat)
      requires Valid() && c in conns && conns[c].alive && !stopping
      modifies this, queue, limiter
      ensures Valid() && queue.pumping == old(queue.pumping) && c in conns
      ensures State() == Processed(old(State()), old(queue.pumping), c, m, now)
      decreases if queue.pumping then 0 else 2, |conns[c].deferred|, 1
    {
      conns := conns[c := conns[c].(handled := conns[c].handled + [m])];
      if m.asks.Some? {
        var _ := SubmitCredentialWork(c, m.asks.value, now);
      }
    }

    method AskHash(c: nat, source: string, now: nat) returns (ok: bool)
      requires Valid() && c in conns
      modifies this`conns, queue
      ensures Valid() && queue.pumping == old(queue.pumping)
      ensures (State(), ok) == S.AskHash(old(State()), c, source, now)
    {
      hide Q.Valid;
      hide Q.Enqueue;
      if stopping || !conns[c].alive || conns[c].waiting {
        return false;
      }
      ok := queue.Enqueue(Q.Job(c, source, now + timeout));
      if ok {
        conns := conns[c := conns[c].(waiting := true)];
      }
    }

    method SubmitCredentialWork(c: nat, source: string, now: nat) returns (ok: bool)
      requires Valid() && c in conns
      modifies this, queue, limiter
      ensures Valid() && queue.pumping == old(queue.pumping) && c in conns
      ensures var (t, asked) := S.AskHash(old(State()), c, source, now);
              && ok == asked && Q.Valid(t.queue)
              && State() == if ok && !old(queue.pumping) then S.Pump(t, now) else t
      decreases if queue.pumping then 0 else 2, |conns[c].deferred|, 0
    {
      hide S.Pump;
      hide Q.Valid;
      ok := AskHash(c, source, now);
      S.AskTouches(old(State()), c, source, now);
      hide S.Touches;
      if ok {
        S.PumpFrame(State(), now);
        Pump(now);
        hide S.AppFrame;
      }
      hide S.AskHash;
    }

    static lemma DrainedEnd(s: S.Server, pumping: bool, c: nat, now: nat)
      requires c in s.conns && Q.Valid(s.queue) && (s.conns[c].waiting || s.conns[c].deferred == [])
      ensures Drained(s, pumping, c, now) == s
    {
      hide Q.Valid;
    }

    /** One turn of the drain loop: the oldest deferred message is dispatched. */
    method DrainOne(c: nat, now: nat)
      requires Valid() && c in conns && !conns[c].waiting && conns[c].deferred != []
      modifies this, queue, limiter
      ensures Valid() && queue.pumping == old(queue.pumping) && c in conns
      ensures |conns[c].deferred| < |old(conns[c].deferred)|
      ensures Drained(State(), queue.pumping, c, now) == Drained(old(State()), queue.pumping, c, now)
      decreases if queue.pumping then 0 else 2, |conns[c].deferred|, 2
    {
      hide Q.Valid;
      hide S.Handle0;
      hide S.Handle1;
      hide Drained;
      var message := conns[c].deferred[0];
      DrainedStep(State(), queue.pumping, c, now);
      conns := conns[c := conns[c].(deferred := conns[c].deferred[1..])];
      deferred := deferred - 1;
      DispatchMessage(c, message, now);
    }

    method FinishCredentialRequest(c: nat, now: nat)
      requires Valid() && c in conns
      modifies this, queue, limiter
      ensures Valid() && queue.pumping == old(queue.pumping)
      ensures State() == Drained(S.WithConn(old(State()), c, old(conns[c]).(waiting := false)), old(queue.pumping), c, now)
      decreases if queue.pumping then 0 else 2, |conns[c].deferred|, 3
    {
      hide Q.Valid;
      hide S.Handle0;
      hide S.Handle1;
      hide Drained;
      conns := conns[c := conns[c].(waiting := false)];
      while !conns[c].waiting && conns[c].deferred != []
        invariant Valid() && queue.pumping == old(queue.pumping) && c in conns
        invariant |conns[c].deferred| <= |old(conns[c].deferred)|
        invariant Drained(State(), queue.pumping, c, now)
               == Drained(S.WithConn(old(State()), c, old(conns[c]).(waiting := false)), queue.pumping, c, now)
        decreases |conns[c].deferred|
      {
        DrainOne(c, now);
      }
      DrainedEnd(State(), queue.pumping, c, now);
    }

    /** A call from inside a callback returns at once. */
    method Pump(now: nat)
      requires Valid()
      modifies this, queue, limiter
      ensures Valid() && queue.pumping == old(queue.pumping)
      ensures State() == if old(queue.pumping) then old(State()) else S.Pump(old(State()), now)
      decreases if queue.pumping then 0 else 2, 0, 0, 0
    {
      hide Q.Valid;
      hide S.ScheduleStep;
      hide Q.Prune;
      hide S.Callbacks;
      if queue.pumping {
        return;
      }
      queue.pumping := true;
      var alive := set c | c in conns && conns[c].alive;
      var expired := queue.Prune(now, alive);
      RunCallbacks(expired, now);
      Schedule(now);
      queue.pumping := false;
    }

    method RunCallbacks(expired: seq<Q.Job>, now: nat)
      requires Valid() && queue.pumping
      modifies this, queue, limiter
      ensures Valid() && queue.pumping
      ensures State() == S.Callbacks(old(State()), expired, now)
      decreases 1, 0, 0, 0
    {
      hide Q.Valid;
      hide S.Drain0;
      var i := 0;
      while i < |expired|
        invariant i <= |expired| && Valid() && queue.pumping
        invariant S.Callbacks(State(), expired[i..], now) == S.Callbacks(old(State()), expired, now)
      {
        assert expired[i..][0] == expired[i] && expired[i..][1..] == expired[i + 1..];
        if expired[i].id in conns {
          FinishCredentialRequest(expired[i].id, now);
        }
        i := i + 1;
      }
    }

    method Schedule(now: nat)
      requires Valid()
      modifies this`hashers, this`failed, queue, limiter
      ensures Valid() && queue.pumping == old(queue.pumping)
      ensures State() == S.ScheduleStep(old(State()), now)
      decreases 0, 0, 0, 0
    {
      var before := queue.running;
      queue.Schedule(now, limiter);
      StartCredentialWork(before);
    }

    /** Every request started goes to its hashing worker. */
    method StartCredentialWork(before: seq<Q.Slot>)
      modifies this`hashers, this`failed
      ensures State() == S.Launch(old(State()), before)
    {
      var w := 0;
      while w < |hashers|
        invariant w <= |hashers| == |old(hashers)|
        invariant forall v :: w <= v < |hashers| ==> hashers[v] == old(hashers)[v]
        invariant forall v :: 0 <= v < w ==> hashers[v] == S.Launch(old(State()), before).hashers[v]
        invariant failed == (old(failed) || exists v :: 0 <= v < w && S.Launched(before, queue.running, v) && old(hashers)[v].Queued?)
      {
        if w < |before| && w < |queue.running| && before[w].Idle? && queue.running[w].Busy? {
          if hashers[w].Queued? {
            failed := true;
          } else {
            hashers := hashers[w := S.Queued(queue.running[w].job.id)];
          }
        }
        w := w + 1;
      }
    }

    method RunCleanup(c: nat)
      requires Valid() && c in conns
      modifies this, queue
      ensures Valid() && queue.pumping == old(queue.pumping)
      ensures State() == S.RunCleanup(old(State()), c)
    {
      hide Q.Cancel;
      hide Q.Valid;
      queue.Cancel(c);
      var k := conns[c];
      deferred := deferred - |k.deferred|;
      conns := conns[c := k.(count := k.count - |k.deferred|, deferred := [])];
      posted := posted + 1;
    }

    method RunCompletion(w: nat, c: nat, now: nat)
      requires Valid() && c in conns && !queue.pumping
      modifies this, queue, limiter
      ensures Valid() && !queue.pumping
      ensures State() == S.RunCompletion(old(State()), w, c, now)
    {
      hide S.Drain1;
      hide S.Pump;
      hide Q.Valid;
      if w >= |hashers| {
        failed := true;
        return;
      }
      var ok := queue.Complete(w);
      if !ok {
        failed := true;
        return;
      }
      hide Q.Complete;
      hashers := hashers[w := S.Resting];
      S.Drain1Frame(S.WithConn(State(), c, conns[c].(waiting := false)), c, now);
      FinishCredentialRequest(c, now);
      if !stopping {
        Pump(now);
      }
    }

    /** The application worker's thread runs its next job, if any. */
    method RunNext(now: nat)
      requires Valid() && !queue.pumping
      requires forall job :: job in worker.jobs ==> S.Knows(State(), job)
      modifies this, worker, queue, limiter
      ensures Valid() && !queue.pumping
      ensures State() == S.Step(old(State()), S.Work(now))
    {
      hide Q.Valid;
      hide S.RunCleanup;
      hide S.RunCompletion;
      hide S.Handle1;
      hide S.Defer;
      hide S.Pump;
      var next := worker.Take();
      if next.None? {
        return;
      }
      assert next.value in old(worker.jobs);
      match next.value
      case Message(c, m) => DispatchMessage(c, m, now);
      case Cleanup(c) => RunCleanup(c);
      case Completion(w, c) => RunCompletion(w, c, now);
      case Tick =>
        if !stopping {
          Pump(now);
        }
      case _ =>
    }
  }
}
