/** How connections come and go: what is admitted, and that each connection that
    dies open is cleaned up exactly once. */
module ServerCleanups {
  import opened Ordering
  import opened WorkLimiting
  import opened ServerSpec
  import opened ServerReserve
  import opened ServerOrder
  import Q = QueueSpec

  // ---------------------------------------------------------------- queued cleanups

  ghost function Cleanups(jobs: seq<AppJob>, c: nat): nat {
    if jobs == [] then 0
    else Cleanups(jobs[..|jobs| - 1], c) + if jobs[|jobs| - 1] == Cleanup(c) then 1 else 0
  }

  lemma CleanupsSnoc(jobs: seq<AppJob>, job: AppJob, c: nat)
    ensures Cleanups(jobs + [job], c) == Cleanups(jobs, c) + if job == Cleanup(c) then 1 else 0
  {
    assert (jobs + [job])[..|jobs|] == jobs;
  }

  lemma {:induction false} CleanupsHead(jobs: seq<AppJob>, c: nat)
    requires jobs != []
    ensures Cleanups(jobs, c) == (if jobs[0] == Cleanup(c) then 1 else 0) + Cleanups(jobs[1..], c)
  {
    if |jobs| == 1 {
      assert jobs[..0] == [] && jobs[1..] == [];
    } else {
      var init, last := jobs[..|jobs| - 1], jobs[|jobs| - 1];
      CleanupsHead(init, c);
      assert jobs[1..] == init[1..] + [last];
      CleanupsSnoc(init[1..], last, c);
    }
  }

  // -------------------------------------------------------------- one step for one `c`

  ghost predicate Lives(s: Server, c: nat) {
    c in s.conns && s.conns[c].alive
  }

  /** The connection dies between the two states, having been opened. */
  ghost predicate DiesOpen(s: Server, t: Server, c: nat) {
    Lives(s, c) && s.conns[c].isOpen && !Lives(t, c)
  }

  /** An event outside the application worker: messages stay where they are, the
      dead stay dead, and who dies open gets one cleanup. */
  ghost predicate Outside(s: Server, t: Server, c: nat) {
    && (c in s.conns ==> c in t.conns && t.conns[c].handled == s.conns[c].handled && t.conns[c].waiting == s.conns[c].waiting
                         && t.conns[c].deferred == s.conns[c].deferred && t.conns[c].lost == s.conns[c].lost
                         && (Lives(t, c) ==> Lives(s, c)))
    && t.queue == s.queue && t.deferred == s.deferred
    && Cleanups(t.jobs, c) == Cleanups(s.jobs, c) + if DiesOpen(s, t, c) then 1 else 0
  }

  lemma OutsideSelf(s: Server, t: Server, c: nat)
    requires t.conns == s.conns && t.queue == s.queue && t.deferred == s.deferred && t.jobs == s.jobs
    ensures Outside(s, t, c)
  {
  }

  lemma OutsideChain(s: Server, t: Server, u: Server, c: nat)
    requires Outside(s, t, c) && Outside(t, u, c)
    requires c in s.conns ==> c in t.conns && t.conns[c].isOpen == s.conns[c].isOpen
    requires c !in s.conns ==> c !in t.conns
    ensures Outside(s, u, c)
  {
  }

  /** Another job, which is no cleanup, is queued or not. */
  lemma PlainOutside(s: Server, t: Server, job: AppJob, c: nat)
    requires t.conns == s.conns && t.queue == s.queue && t.deferred == s.deferred && !job.Cleanup?
    requires t.jobs == s.jobs || t.jobs == s.jobs + [job]
    ensures Outside(s, t, c)
  {
    CleanupsSnoc(s.jobs, job, c);
    hide Cleanups;
  }

  lemma CleanUpIs(s: Server, d: nat)
    requires Reserved(s) && d in s.conns
    ensures var t, k := CleanUp(s, d), s.conns[d];
            && t.conns == s.conns[d := k.(alive := false)] && t.queue == s.queue && t.deferred == s.deferred
            && t.stopping == s.stopping && t.accepting == s.accepting
            && t.jobs == s.jobs + if k.alive && k.isOpen then [Cleanup(d)] else []
  {
    ReserveSuffices(s);
    hide Reserved;
    assert s.jobs + [] == s.jobs;
  }

  /** `d` dies, and a cleanup of it is queued if it was open. */
  lemma DiesOutside(s: Server, t: Server, d: nat, c: nat)
    requires d in s.conns && t.conns == s.conns[d := s.conns[d].(alive := false)]
    requires t.queue == s.queue && t.deferred == s.deferred
    requires Cleanups(t.jobs, c) == Cleanups(s.jobs, c) + if c == d && s.conns[d].alive && s.conns[d].isOpen then 1 else 0
    ensures Outside(s, t, c)
  {
    hide Cleanups;
    assert c != d && c in s.conns ==> t.conns[c] == s.conns[c];
  }

  lemma CleanUpOutside(s: Server, d: nat, c: nat)
    requires Reserved(s) && d in s.conns
    ensures Outside(s, CleanUp(s, d), c)
  {
    hide Reserved;
    hide CleanUp;
    hide Cleanups;
    hide Outside;
    CleanUpIs(s, d);
    CleanupsSnoc(s.jobs, Cleanup(d), c);
    assert s.jobs + [] == s.jobs;
    DiesOutside(s, CleanUp(s, d), d, c);
  }

  lemma CloseOutside(s: Server, d: nat, c: nat)
    requires Reserved(s)
    ensures Outside(s, CloseConn(s, d), c)
    ensures CloseConn(s, d).conns.Keys == s.conns.Keys
    ensures c in s.conns ==> CloseConn(s, d).conns[c].isOpen == s.conns[c].isOpen && CloseConn(s, d).conns[c].listed == s.conns[c].listed
    ensures d in s.conns && s.conns[d].listed ==> !Lives(CloseConn(s, d), d)
  {
    OutsideSelf(s, s, c);
    if d in s.conns {
      CleanUpOutside(s, d, c);
      CleanUpIs(s, d);
    }
    hide Reserved;
    hide CleanUp;
    hide Cleanups;
    hide Outside;
  }

  lemma {:induction false} CloseAllOutside(s: Server, conns: seq<nat>, c: nat)
    requires Reserved(s)
    ensures var t := CloseAll(s, conns);
            && Outside(s, t, c) && t.conns.Keys == s.conns.Keys
            && (c in s.conns ==> t.conns[c].isOpen == s.conns[c].isOpen && t.conns[c].listed == s.conns[c].listed)
            && (c in conns && c in s.conns && s.conns[c].listed ==> !Lives(t, c))
    decreases |conns|
  {
    hide Reserved;
    hide CloseConn;
    hide Cleanups;
    if conns == [] {
      OutsideSelf(s, s, c);
    } else {
      var t := CloseConn(s, conns[0]);
      CloseReserved(s, conns[0]);
      CloseOutside(s, conns[0], c);
      CloseAllOutside(t, conns[1..], c);
      OutsideChain(s, t, CloseAll(t, conns[1..]), c);
      assert conns == [conns[0]] + conns[1..];
    }
  }

  lemma GoneOutside(s: Server, d: nat, c: nat)
    requires Reserved(s)
    ensures Outside(s, Finish(s, d), c)
  {
    OutsideSelf(s, s, c);
    if d in s.conns && s.conns[d].listed {
      CleanUpOutside(s, d, c);
      CleanUpIs(s, d);
      var a := CleanUp(s, d);
      hide CleanUp;
      var b := WithConn(a, d, a.conns[d].(listed := false));
      ListedOutside(a, d, c);
      OutsideChain(s, a, b, c);
    }
    hide Reserved;
    hide Outside;
  }

  lemma ListedOutside(s: Server, d: nat, c: nat)
    requires d in s.conns
    ensures Outside(s, WithConn(s, d, s.conns[d].(listed := false)), c)
    ensures Outside(s, WithConn(s, d, s.conns[d].(isOpen := true)), c)
  {
  }

  lemma QueuedOutside(s: Server, d: nat, m: Msg, c: nat)
    requires d in s.conns && s.conns[d].listed && s.conns[d].alive && s.conns[d].count < BACKLOG && |s.jobs| < s.capacity
    ensures Outside(s, Arrive(s, d, m), c)
    ensures var t, k := Arrive(s, d, m), s.conns[d];
            t.jobs == s.jobs + [Message(d, m)] && t.conns == s.conns[d := k.(count := k.count + 1, arrived := k.arrived + [m])]
  {
    CleanupsSnoc(s.jobs, Message(d, m), c);
    hide Cleanups;
  }

  lemma ArriveOutside(s: Server, d: nat, m: Msg, c: nat)
    requires Reserved(s)
    ensures Outside(s, Arrive(s, d, m), c)
  {
    hide Reserved;
    hide Outside;
    hide CloseConn;
    hide Cleanups;
    OutsideSelf(s, s, c);
    CloseOutside(s, d, c);
    if d in s.conns && s.conns[d].listed && s.conns[d].alive && s.conns[d].count < BACKLOG && |s.jobs| < s.capacity {
      QueuedOutside(s, d, m, c);
    }
  }

  lemma AcceptedOutside(s: Server, d: Option<nat>, c: nat)
    ensures Outside(s, Accepted(s, d), c)
  {
  }

  ghost function Stopping(s: Server): Server {
    s.(jobs := s.jobs + [Farewell], stopping := true)
  }

  lemma StopIs(s: Server)
    requires Reserved(s) && !s.stopping
    ensures Q.Valid(s.queue) && Reserved(Stopping(s)) && Step(s, Stop) == CloseAll(Stopping(s), SortedNats(Listed(Stopping(s))))
  {
    hide CloseAll;
    hide SortedNats;
    hide Listed;
    ReservedValid(s);
    CleanupsRoom(s);
    OnceReserved(s, Stopping(s), Farewell);
    hide Reserved;
    hide Q.Valid;
    assert Submit(s.(stopping := true), Farewell, true).0 == Stopping(s);
  }

  lemma StopOutside(s: Server, c: nat)
    requires Reserved(s)
    ensures Q.Valid(s.queue) && Outside(s, Step(s, Stop), c)
    ensures !s.stopping ==> (c in s.conns && s.conns[c].listed ==> !Lives(Step(s, Stop), c))
  {
    hide Outside;
    hide SortedNats;
    hide Reserved;
    hide CloseAll;
    hide Q.Valid;
    ReservedValid(s);
    OutsideSelf(s, s, c);
    if !s.stopping {
      StopIs(s);
      var a := Stopping(s);
      PlainOutside(s, a, Farewell, c);
      CloseAllOutside(a, SortedNats(Listed(a)), c);
      OutsideChain(s, a, CloseAll(a, SortedNats(Listed(a))), c);
      assert c in s.conns && s.conns[c].listed ==> c in SortedNats(Listed(a));
      hide Step;
    }
  }

  lemma HashedOutside(s: Server, w: nat, c: nat)
    requires Reserved(s)
    ensures Q.Valid(s.queue) && Outside(s, Step(s, Hashed(w)), c)
  {
    ReservedValid(s);
    hide Q.Valid;
    hide Reserved;
    OutsideSelf(s, s, c);
    if w < |s.hashers| && s.hashers[w].Hashing? {
      PlainOutside(s, Step(s, Hashed(w)), Completion(w, s.hashers[w].conn), c);
    }
    hide Outside;
  }

  lemma SubmittedOutside(s: Server, job: AppJob, c: nat)
    ensures Outside(s, if Ordinary(job) then Submit(s, job, false).0 else s, c)
  {
    hide Outside;
    OutsideSelf(s, s, c);
    if Ordinary(job) {
      PlainOutside(s, Submit(s, job, false).0, job, c);
    }
  }

  lemma SweepOutside(s: Server, c: nat)
    requires Q.Valid(s.queue)
    ensures Outside(s, Step(s, SweepTimer), c)
  {
    hide Outside;
    hide Q.Valid;
    PlainOutside(s, Step(s, SweepTimer), Sweep, c);
  }

  lemma StepOutside(s: Server, e: Event, c: nat)
    requires Reserved(s) && !e.Work?
    ensures Q.Valid(s.queue) && Outside(s, Step(s, e), c)
  {
    hide Q.Valid;
    hide Reserved;
    hide Outside;
    hide Arrive;
    hide CloseConn;
    hide Finish;
    hide CloseAll;
    hide Submit;
    hide MustSubmit;
    hide RunJob;
    ReservedValid(s);
    match e {
      case TryAccept(tight) => OutsideSelf(s, AcceptNext(s, tight), c);
      case AcceptDone(d) => AcceptedOutside(s, d, c);
      case Open(d) =>
        OutsideSelf(s, s, c);
        if d in s.conns {
          ListedOutside(s, d, c);
        }
      case Receive(d, m) => ArriveOutside(s, d, m, c);
      case Close(d) => CloseOutside(s, d, c);
      case Gone(d) => GoneOutside(s, d, c);
      case Submitted(job) => SubmittedOutside(s, job, c);
      case SweepTimer => SweepOutside(s, c);
      case Stop => StopOutside(s, c);
      case Hashed(w) => HashedOutside(s, w, c);
      case Pick(w) => OutsideSelf(s, Step(s, e), c);
      case Posted => OutsideSelf(s, Step(s, e), c);
    }
  }

  // ------------------------------------------------------------------ inside one job

  /** A job runs: it queues nothing, and nobody dies, comes or goes meanwhile. */
  ghost predicate Inside(s: Server, t: Server) {
    && t.jobs == s.jobs && t.conns.Keys == s.conns.Keys
    && (forall c :: c in s.conns ==> t.conns[c].listed == s.conns[c].listed && t.conns[c].alive == s.conns[c].alive
                                     && t.conns[c].isOpen == s.conns[c].isOpen)
    && t.stopping == s.stopping
  }

  lemma FrameInside(s: Server, t: Server)
    requires AppFrame(s, t)
    ensures Inside(s, t)
  {
  }

  lemma CleanupInside(s: Server, c: nat)
    requires c in s.conns && Q.Valid(s.queue)
    ensures Inside(s, RunCleanup(s, c))
  {
    hide Q.Valid;
    hide Q.Cancel;
  }

  lemma InsideSame(s: Server, t: Server)
    requires t.jobs == s.jobs && t.conns.Keys == s.conns.Keys && t.stopping == s.stopping
    requires forall c :: c in s.conns ==> t.conns[c].listed == s.conns[c].listed && t.conns[c].alive == s.conns[c].alive
                                          && t.conns[c].isOpen == s.conns[c].isOpen
    ensures Inside(s, t)
  {
  }

  lemma InsideChain(s: Server, t: Server, u: Server)
    requires Inside(s, t) && Inside(t, u)
    ensures Inside(s, u)
  {
  }

  lemma CompletedValid(q: Q.Queue, w: nat)
    requires Q.Valid(q)
    ensures Q.Valid(Q.Complete(q, w).0)
  {
    if Q.Complete(q, w).1 {
      Q.FreeValid(q, w);
    }
    hide Q.Free;
  }

  lemma WithInside(s: Server, a: Server, c: nat, k: Conn)
    requires c in s.conns && a.jobs == s.jobs && a.conns == s.conns && a.stopping == s.stopping
    requires k.listed == s.conns[c].listed && k.alive == s.conns[c].alive && k.isOpen == s.conns[c].isOpen
    ensures Inside(s, WithConn(a, c, k))
  {
  }

  lemma DeferInside(s: Server, c: nat, m: Msg)
    requires c in s.conns
    ensures Inside(s, Defer(s, c, m))
  {
    hide Inside;
    hide WithConn;
    var k := s.conns[c];
    WithInside(s, s, c, k.(count := k.count - 1, lost := true));
    WithInside(s, s.(deferred := s.deferred + 1), c, k.(deferred := k.deferred + [m]));
  }

  lemma CompletionInside(s: Server, w: nat, c: nat, now: nat)
    requires c in s.conns && Q.Valid(s.queue)
    ensures Inside(s, RunCompletion(s, w, c, now))
  {
    hide Drain1;
    hide Pump;
    hide AppFrame;
    hide Inside;
    hide Q.Valid;
    hide Q.Complete;
    hide Q.Free;
    InsideSame(s, s.(failed := true));
    var (q, ok) := Q.Complete(s.queue, w);
    if ok && w < |s.hashers| {
      CompletedValid(s.queue, w);
      var a := WithConn(s.(queue := q, hashers := s.hashers[w := Resting]), c, s.conns[c].(waiting := false));
      InsideSame(s, a);
      Drain1Frame(a, c, now);
      var b := Drain1(a, c, now);
      FrameInside(a, b);
      InsideChain(s, a, b);
      PumpFrame(b, now);
      FrameInside(b, Pump(b, now));
      InsideChain(s, b, Pump(b, now));
    }
  }

  lemma JobInside(s: Server, job: AppJob, now: nat)
    requires Q.Valid(s.queue) && Knows(s, job)
    ensures Inside(s, RunJob(s, job, now))
  {
    hide Q.Valid;
    hide Handle1;
    hide Defer;
    hide RunCleanup;
    hide RunCompletion;
    hide Pump;
    hide AppFrame;
    hide Inside;
    InsideSame(s, s);
    match job {
      case Message(d, m) =>
        DeferInside(s, d, m);
        Handle1Frame(s, d, m, now);
        FrameInside(s, Handle1(s, d, m, now));
      case Cleanup(d) => CleanupInside(s, d);
      case Completion(w, d) => CompletionInside(s, w, d, now);
      case Tick =>
        PumpFrame(s, now);
        FrameInside(s, Pump(s, now));
      case _ =>
    }
  }

  // --------------------------------------------------------------------- whole runs

  /** How often the worker has cleaned up after `c`. */
  ghost function CleanedUp(x: Setup, events: seq<Event>, c: nat): nat
    requires Proper(x)
    decreases |events|
  {
    if events == [] then 0
    else
      var before, e := events[..|events| - 1], events[|events| - 1];
      var s := Run(x, before);
      CleanedUp(x, before, c) + if e.Work? && s.jobs != [] && s.jobs[0] == Cleanup(c) then 1 else 0
  }

  /** How often `c` has died after it was opened. */
  ghost function Deaths(x: Setup, events: seq<Event>, c: nat): nat
    requires Proper(x)
    decreases |events|
  {
    if events == [] then 0
    else
      var before := events[..|events| - 1];
      Deaths(x, before, c) + if DiesOpen(Run(x, before), Run(x, events), c) then 1 else 0
  }

  lemma WorkCleans(s: Server, now: nat, c: nat)
    requires Reserved(s)
    ensures Q.Valid(s.queue)
    ensures var t := Step(s, Work(now));
            && (Lives(t, c) <==> Lives(s, c)) && (c in t.conns <==> c in s.conns)
            && Cleanups(s.jobs, c) == Cleanups(t.jobs, c) + if s.jobs != [] && s.jobs[0] == Cleanup(c) then 1 else 0
  {
    ReservedValid(s);
    if s.jobs != [] {
      HeadKnown(s);
    }
    hide Reserved;
    hide Q.Valid;
    hide RunJob;
    if s.jobs != [] {
      var a := s.(jobs := s.jobs[1..]);
      JobInside(a, s.jobs[0], now);
      CleanupsHead(s.jobs, c);
    }
    hide Cleanups;
  }

  lemma HeadKnown(s: Server)
    requires Reserved(s) && s.jobs != []
    ensures Knows(s, s.jobs[0])
  {
    assert s.jobs[0] in s.jobs;
    hide Fine;
    hide Bounded;
    hide Owed;
  }

  /** Over every run: a connection that lives has not died before, one that died
      after it was opened did so once, and for that its cleanup either waits, once,
      or has been done, once. */
  lemma {:induction false} RunCleansUp(x: Setup, events: seq<Event>, c: nat)
    requires Proper(x)
    ensures var s := Run(x, events);
            && Cleanups(s.jobs, c) + CleanedUp(x, events, c) == Deaths(x, events, c) <= 1
            && (Lives(s, c) || c !in s.conns ==> Deaths(x, events, c) == 0)
    decreases |events|
  {
    hide Reserved;
    hide Cleanups;
    hide Q.Valid;
    if events == [] {
      assert Cleanups([], c) == 0 by {
        NoCleanups(c);
      }
    } else {
      hide Step;
      var before, e := events[..|events| - 1], events[|events| - 1];
      var s := Run(x, before);
      RunCleansUp(x, before, c);
      if e.Work? {
        WorkCleans(s, e.now, c);
      } else {
        StepOutside(s, e, c);
      }
    }
  }

  lemma NoCleanups(c: nat)
    ensures Cleanups([], c) == 0
  {
  }

  // -------------------------------------------------------------- admission and arrival

  ghost predicate MayAccept(s: Server, tight: bool) {
    var listed := set c | c in s.conns && s.conns[c].listed;
    var unopened := set c | c in s.conns && s.conns[c].listed && !s.conns[c].isOpen;
    !s.stopping && !tight && |listed| + Count(s.jobs, ForCleanup) + s.posted < s.maxConnections && |unopened| < 128
  }

  /** A new connection is waited for exactly while the server runs, connections and
      pending cleanups leave a place, fewer than 128 are unopened and descriptors
      are not short; nothing else changes. */
  lemma AcceptsWhen(s: Server, tight: bool)
    requires Reserved(s)
    ensures var t := AcceptNext(s, tight);
            && t == s.(accepting := t.accepting)
            && (t.accepting <==> (s.accepting || MayAccept(s, tight)))
  {
    hide Fine;
    hide Owed;
    hide Known;
    hide Count;
    assert Listed(s) == set c | c in s.conns && s.conns[c].listed;
    assert Unopened(s) == set c | c in s.conns && s.conns[c].listed && !s.conns[c].isOpen;
  }

  /** Over every run: a message of a live connection is queued exactly when fewer
      than 128 of its messages are pending and the worker has a normal place; else
      the connection is closed. */
  lemma RunReceives(x: Setup, events: seq<Event>, c: nat, m: Msg)
    requires Proper(x)
    requires var s := Run(x, events);
             c in s.conns && s.conns[c].listed && s.conns[c].alive
    ensures var s := Run(x, events);
            var t, k := Arrive(s, c, m), s.conns[c];
            if |k.deferred| + |QueuedFor(s.jobs, c)| < 128 && |s.jobs| < s.capacity then
              t.jobs == s.jobs + [Message(c, m)] && Lives(t, c) && t.conns[c].arrived == k.arrived + [m]
            else !Lives(t, c) && t.conns[c].arrived == k.arrived
  {
    hide Run;
    hide InPlace;
    hide QueuedFor;
    hide Reserved;
    hide Outside;
    hide CleanUp;
    var s := Run(x, events);
    RunInPlace(x, events);
    InPlaceOrdered(s, c);
    var k := s.conns[c];
    assert k.count == |k.deferred| + |QueuedFor(s.jobs, c)|;
    hide Ordered;
    if k.count < BACKLOG && |s.jobs| < s.capacity {
      QueuedOutside(s, c, m, c);
      hide Arrive;
    } else {
      CleanUpIs(s, c);
    }
  }

  /** Over every run: stopping kills every connection still listed. */
  lemma RunStops(x: Setup, events: seq<Event>, c: nat)
    requires Proper(x) && !Run(x, events).stopping
    ensures Q.Valid(Run(x, events).queue)
    ensures var s, t := Run(x, events), Step(Run(x, events), Stop);
            c in s.conns && s.conns[c].listed ==> !Lives(t, c)
  {
    StopOutside(Run(x, events), c);
    ReservedValid(Run(x, events));
    hide Run;
    hide Reserved;
    hide Outside;
    hide Step;
    hide Q.Valid;
  }
}
