/** `SignalServer`'s queues as functions: the application worker's bounded FIFO
    with its lifecycle reserve, connection admission and cleanup, and the
    deferral of a connection's messages while its password hash runs.

    One application job is atomic here, reads the clock once, and sees
    connections die only between jobs. `arrived`, `handled` and `lost` are
    history. */
module ServerSpec {
  import opened Ordering
  import opened WorkLimiting
  import opened QueueIds
  import Q = QueueSpec
  import H = QueueHistory

  /** `asks` names the rate-limit source when handling the message needs hashing. */
  datatype Msg = Msg(tag: nat, asks: Option<string>)

  /** `count` is `pending_messages`, `waiting` is `credential_pending`. */
  datatype Conn = Conn(
    listed: bool, isOpen: bool, alive: bool,
    count: int, waiting: bool, deferred: seq<Msg>,
    arrived: seq<Msg>, handled: seq<Msg>, lost: bool)

  datatype AppJob =
    | Message(conn: nat, msg: Msg)
    | Cleanup(conn: nat)
    | Completion(worker: nat, conn: nat)
    | Tick
    | Routine
    | Sweep
    | Farewell

  /** A hashing worker: its own queue holds one job while `Queued`. */
  datatype Hasher = Resting | Queued(conn: nat) | Hashing(conn: nat) | Done(conn: nat)

  datatype Server = Server(
    capacity: nat, reserve: nat, maxConnections: nat, timeout: nat,
    jobs: seq<AppJob>,
    conns: map<nat, Conn>,
    accepting: bool,
    cleanups: nat,
    posted: nat,
    deferred: int,
    queue: Q.Queue,
    limits: Limits,
    hashers: seq<Hasher>,
    sweepDue: bool,
    stopping: bool,
    failed: bool)

  const BACKLOG := 128
  const DEFERRED_LIMIT := 1024
  const MAX_HANDSHAKES := 128
  const NEW_CONN := Conn(true, false, true, 0, false, [], [], [], false)

  // --------------------------------------------------------------- executors

  function Limit(s: Server, lifecycle: bool): nat {
    s.capacity + if lifecycle then s.reserve else 0
  }

  ghost function Submit(s: Server, job: AppJob, lifecycle: bool): (Server, bool) {
    if |s.jobs| >= Limit(s, lifecycle) then (s, false) else (s.(jobs := s.jobs + [job]), true)
  }

  /** A lifecycle submission whose failure would end the process. */
  ghost function MustSubmit(s: Server, job: AppJob): Server {
    var (t, ok) := Submit(s, job, true);
    if ok then t else t.(failed := true)
  }

  ghost function WithConn(s: Server, c: nat, k: Conn): Server {
    s.(conns := s.conns[c := k])
  }

  // ---------------------------------------------------------- network thread

  /** `QueueSessionCleanup`: the connection dies; its session is cleaned up once. */
  ghost function CleanUp(s: Server, c: nat): Server
    requires c in s.conns
  {
    var k := s.conns[c];
    var a := WithConn(s, c, k.(alive := false));
    if !k.alive || !k.isOpen then a else MustSubmit(a.(cleanups := a.cleanups + 1), Cleanup(c))
  }

  ghost function CloseConn(s: Server, c: nat): Server {
    if c !in s.conns || !s.conns[c].listed || !s.conns[c].alive then s else CleanUp(s, c)
  }

  ghost function Finish(s: Server, c: nat): Server {
    if c !in s.conns || !s.conns[c].listed then s
    else
      var a := CleanUp(s, c);
      WithConn(a, c, a.conns[c].(listed := false))
  }

  ghost function Listed(s: Server): set<nat> {
    set c | c in s.conns && s.conns[c].listed
  }

  ghost function Alive(s: Server): set<nat> {
    set c | c in s.conns && s.conns[c].alive
  }

  ghost function Unopened(s: Server): set<nat> {
    set c | c in s.conns && s.conns[c].listed && !s.conns[c].isOpen
  }

  /** Admission. `tight` says that the file descriptors, which are sampled, are
      nearly used up or could not be read. */
  ghost function AcceptNext(s: Server, tight: bool): Server {
    if s.stopping || s.accepting then s
    else if |Listed(s)| + s.cleanups >= s.maxConnections || |Unopened(s)| >= MAX_HANDSHAKES || tight then s
    else s.(accepting := true)
  }

  /** The pending accept completes; `c` is a new connection id, or it failed. */
  ghost function Accepted(s: Server, c: Option<nat>): Server {
    if !s.accepting then s
    else if s.stopping || c.None? || c.value in s.conns then s.(accepting := false)
    else WithConn(s.(accepting := false), c.value, NEW_CONN)
  }

  ghost function Opened(s: Server, c: nat): Server {
    if c !in s.conns || !s.conns[c].listed then s else WithConn(s, c, s.conns[c].(isOpen := true))
  }

  ghost function Arrive(s: Server, c: nat, m: Msg): Server {
    if c !in s.conns || !s.conns[c].listed || !s.conns[c].alive then s
    else if s.conns[c].count >= BACKLOG then CloseConn(s, c)
    else
      var k := s.conns[c];
      var (t, ok) := Submit(s, Message(c, m), false);
      if !ok then CloseConn(s, c)
      else WithConn(t, c, k.(count := k.count + 1, arrived := k.arrived + [m]))
  }

  // --------------------------------------------------------- messages, hashing

  /** Up to the enqueueing in `SubmitCredentialWork`. */
  ghost function AskHash(s: Server, c: nat, source: string, now: nat): (Server, bool)
    requires c in s.conns
  {
    var k := s.conns[c];
    if s.stopping || !k.alive || k.waiting then (s, false)
    else
      var (q, ok) := Q.Enqueue(s.queue, Q.Job(c, source, now + s.timeout));
      if ok then (WithConn(s.(queue := q), c, k.(waiting := true)), true) else (s.(queue := q), false)
  }

  ghost function Noted(s: Server, c: nat, m: Msg): Server
    requires c in s.conns
  {
    WithConn(s, c, s.conns[c].(handled := s.conns[c].handled + [m]))
  }

  /** Handling a message while a pump is in progress: no nested pump runs. */
  ghost function Process0(s: Server, c: nat, m: Msg, now: nat): Server
    requires c in s.conns
  {
    var t := Noted(s, c, m);
    if m.asks.None? then t else AskHash(t, c, m.asks.value, now).0
  }

  ghost function Uncount(s: Server, c: nat): Server
    requires c in s.conns
  {
    WithConn(s, c, s.conns[c].(count := s.conns[c].count - 1))
  }

  /** `DispatchMessage` for a connection that is not waiting. */
  ghost function Handle0(s: Server, c: nat, m: Msg, now: nat): (r: Server)
    requires c in s.conns
    ensures c in r.conns && r.conns[c].deferred == s.conns[c].deferred
  {
    Uncount(if s.conns[c].alive && !s.stopping then Process0(s, c, m, now) else s, c)
  }

  ghost function Popped(s: Server, c: nat): Server
    requires c in s.conns && s.conns[c].deferred != []
  {
    WithConn(s.(deferred := s.deferred - 1), c, s.conns[c].(deferred := s.conns[c].deferred[1..]))
  }

  ghost function Drain0(s: Server, c: nat, now: nat): Server
    requires c in s.conns
    decreases |s.conns[c].deferred|
  {
    var k := s.conns[c];
    if k.waiting || k.deferred == [] then s
    else Drain0(Handle0(Popped(s, c), c, k.deferred[0], now), c, now)
  }

  /** `FinishCredentialRequest` from an expiry callback. */
  ghost function Finish0(s: Server, c: nat, now: nat): Server {
    if c !in s.conns then s else Drain0(WithConn(s, c, s.conns[c].(waiting := false)), c, now)
  }

  ghost function Callbacks(s: Server, expired: seq<Q.Job>, now: nat): Server
    decreases |expired|
  {
    if expired == [] then s else Callbacks(Finish0(s, expired[0].id, now), expired[1..], now)
  }

  /** Started requests go to their hashing workers, whose queue holds one job. */
  ghost function Launch(s: Server, before: seq<Q.Slot>): Server {
    s.(hashers := seq(|s.hashers|, w requires 0 <= w < |s.hashers| =>
         if Launched(before, s.queue.running, w) && !s.hashers[w].Queued? then Queued(s.queue.running[w].job.id) else s.hashers[w]),
       failed := s.failed || exists w :: 0 <= w < |s.hashers| && Launched(before, s.queue.running, w) && s.hashers[w].Queued?)
  }

  ghost predicate Launched(before: seq<Q.Slot>, running: seq<Q.Slot>, w: nat) {
    w < |before| && w < |running| && before[w].Idle? && running[w].Busy?
  }

  // -------------------------------------------------- what handling leaves alone

  /** Handling messages changes neither liveness nor arrivals, and defers none. */
  ghost predicate Settling(before: Conn, after: Conn) {
    && after == before.(count := after.count, waiting := after.waiting, deferred := after.deferred, handled := after.handled)
    && |after.deferred| <= |before.deferred|
  }

  ghost predicate AppFrame(s: Server, t: Server) {
    && t == s.(conns := t.conns, deferred := t.deferred, queue := t.queue, limits := t.limits, hashers := t.hashers, failed := t.failed)
    && t.conns.Keys == s.conns.Keys
    && (forall d :: d in s.conns ==> Settling(s.conns[d], t.conns[d]))
  }

  lemma FrameChain(s: Server, t: Server, u: Server)
    requires AppFrame(s, t) && AppFrame(t, u)
    ensures AppFrame(s, u)
  {
  }

  /** Only `c` changes, and it is the only request that may be added. */
  ghost predicate Touches(s: Server, t: Server, c: nat) {
    && AppFrame(s, t) && t.limits == s.limits && t.hashers == s.hashers && t.failed == s.failed
    && (forall d :: d in s.conns && d != c ==> t.conns[d] == s.conns[d])
    && t.queue.running == s.queue.running && s.queue.ids <= t.queue.ids <= s.queue.ids + {c}
    && (Q.Valid(s.queue) ==> Q.Valid(t.queue))
  }

  lemma TouchesChain(s: Server, t: Server, u: Server, c: nat)
    requires Touches(s, t, c) && Touches(t, u, c)
    ensures Touches(s, u, c)
  {
    hide Q.Valid;
  }

  lemma UpdateTouches(s: Server, c: nat, k: Conn)
    requires c in s.conns && Settling(s.conns[c], k)
    ensures Touches(s, WithConn(s, c, k), c)
  {
    hide Q.Valid;
  }

  lemma QueueTouches(s: Server, q: Q.Queue, c: nat)
    requires q.running == s.queue.running && s.queue.ids <= q.ids <= s.queue.ids + {c}
    requires Q.Valid(s.queue) ==> Q.Valid(q)
    ensures Touches(s, s.(queue := q), c)
  {
    hide Q.Valid;
  }

  lemma EnqueueTouches(s: Server, job: Q.Job)
    ensures Touches(s, s.(queue := Q.Enqueue(s.queue, job).0), job.id)
  {
    if Q.Valid(s.queue) {
      Q.EnqueueValid(s.queue, job);
    }
    hide Q.Valid;
    EnqueueIds(s.queue, job);
    hide Q.Enqueue;
    QueueTouches(s, Q.Enqueue(s.queue, job).0, job.id);
    hide Touches;
  }

  lemma AskTouches(s: Server, c: nat, source: string, now: nat)
    requires c in s.conns
    ensures Touches(s, AskHash(s, c, source, now).0, c)
    ensures AskHash(s, c, source, now).0.conns[c] == s.conns[c].(waiting := s.conns[c].waiting || AskHash(s, c, source, now).1)
  {
    hide Touches;
    hide Q.Enqueue;
    TouchesSelf(s, c);
    var k := s.conns[c];
    if !s.stopping && k.alive && !k.waiting {
      var job := Q.Job(c, source, now + s.timeout);
      var t := s.(queue := Q.Enqueue(s.queue, job).0);
      EnqueueTouches(s, job);
      UpdateTouches(t, c, k.(waiting := true));
      TouchesChain(s, t, WithConn(t, c, k.(waiting := true)), c);
    }
  }

  lemma HandleTouches(s: Server, c: nat, m: Msg, now: nat)
    requires c in s.conns
    ensures Touches(s, Handle0(s, c, m, now), c)
  {
    hide Touches;
    hide AskHash;
    TouchesSelf(s, c);
    var a := Noted(s, c, m);
    UpdateTouches(s, c, a.conns[c]);
    var b := Process0(s, c, m, now);
    TouchesSelf(a, c);
    if m.asks.Some? {
      AskTouches(a, c, m.asks.value, now);
    }
    TouchesChain(s, a, b, c);
    var d := if s.conns[c].alive && !s.stopping then b else s;
    assert c in d.conns by {
      TouchesKnown(s, d, c);
    }
    UpdateTouches(d, c, d.conns[c].(count := d.conns[c].count - 1));
    TouchesChain(s, d, Uncount(d, c), c);
  }

  lemma TouchesKnown(s: Server, t: Server, c: nat)
    requires Touches(s, t, c)
    ensures t.conns.Keys == s.conns.Keys
  {
    hide Q.Valid;
  }

  lemma {:induction false} DrainTouches(s: Server, c: nat, now: nat)
    requires c in s.conns
    ensures Touches(s, Drain0(s, c, now), c)
    decreases |s.conns[c].deferred|
  {
    hide Touches;
    var k := s.conns[c];
    if k.waiting || k.deferred == [] {
      TouchesSelf(s, c);
    } else {
      var a := Popped(s, c);
      var b := Handle0(a, c, k.deferred[0], now);
      PoppedTouches(s, c);
      HandleTouches(a, c, k.deferred[0], now);
      TouchesChain(s, a, b, c);
      DrainTouches(b, c, now);
      TouchesChain(s, b, Drain0(b, c, now), c);
    }
  }

  lemma TouchesSelf(s: Server, c: nat)
    ensures Touches(s, s, c)
  {
  }

  lemma PoppedTouches(s: Server, c: nat)
    requires c in s.conns && s.conns[c].deferred != []
    ensures Touches(s, Popped(s, c), c)
  {
    hide Q.Valid;
  }

  lemma FinishTouches(s: Server, c: nat, now: nat)
    ensures Touches(s, Finish0(s, c, now), c)
  {
    if c in s.conns {
      var a := WithConn(s, c, s.conns[c].(waiting := false));
      assert Touches(s, a, c) by {
        hide Q.Valid;
      }
      DrainTouches(a, c, now);
      TouchesChain(s, a, Drain0(a, c, now), c);
    }
    hide Drain0;
    hide Q.Valid;
  }

  /** Callbacks touch the connections whose requests expired, and no other. */
  ghost predicate Visits(s: Server, t: Server, some: set<nat>) {
    && AppFrame(s, t) && t.limits == s.limits && t.hashers == s.hashers && t.failed == s.failed
    && (forall d :: d in s.conns && d !in some ==> t.conns[d] == s.conns[d])
    && t.queue.running == s.queue.running && s.queue.ids <= t.queue.ids
    && (Q.Valid(s.queue) ==> Q.Valid(t.queue))
  }

  ghost function IdsOf(jobs: seq<Q.Job>): set<nat> {
    set j | j in jobs :: j.id
  }

  lemma {:induction false} CallbacksVisit(s: Server, expired: seq<Q.Job>, now: nat)
    ensures Visits(s, Callbacks(s, expired, now), IdsOf(expired))
    decreases |expired|
  {
    hide Q.Valid;
    hide Finish0;
    if expired != [] {
      var t := Finish0(s, expired[0].id, now);
      FinishTouches(s, expired[0].id, now);
      CallbacksVisit(t, expired[1..], now);
      VisitsChain(s, t, Callbacks(t, expired[1..], now), expired[0].id, IdsOf(expired[1..]), IdsOf(expired));
    }
  }

  lemma VisitsChain(s: Server, t: Server, u: Server, c: nat, rest: set<nat>, all: set<nat>)
    requires Touches(s, t, c) && Visits(t, u, rest) && c in all && rest <= all
    ensures Visits(s, u, all)
  {
    hide Q.Valid;
    FrameChain(s, t, u);
    hide AppFrame;
  }

  // -------------------------------------------------------------------- pumping

  /** `CredentialQueue::Pump` with the server's callbacks: prune, finish what
      expired, then start requests on idle workers. */
  ghost function PruneStep(s: Server, now: nat): Server
    requires Q.Valid(s.queue)
  {
    var q := Q.Prune(s.queue, now, Alive(s));
    Callbacks(s.(queue := q), H.ExpiredSince(q.fates, |s.queue.fates|), now)
  }

  ghost function ScheduleStep(s: Server, now: nat): Server {
    var (q, l) := Q.Schedule(s.queue, s.limits, 0, now);
    Launch(s.(queue := q, limits := l), s.queue.running)
  }

  ghost function Pump(s: Server, now: nat): Server
    requires Q.Valid(s.queue)
  {
    ScheduleStep(PruneStep(s, now), now)
  }

  lemma PumpFrame(s: Server, now: nat)
    requires Q.Valid(s.queue)
    ensures AppFrame(s, Pump(s, now)) && Q.Valid(Pump(s, now).queue)
  {
    hide Q.Valid;
    var q := Q.Prune(s.queue, now, Alive(s));
    var expired := H.ExpiredSince(q.fates, |s.queue.fates|);
    CallbacksVisit(s.(queue := q), expired, now);
    var t := PruneStep(s, now);
    assert Visits(s.(queue := q), t, IdsOf(expired));
    FrameChain(s, s.(queue := q), t);
    Q.ScheduleValid(t.queue, t.limits, 0, now);
    hide PruneStep;
    hide Callbacks;
    hide Q.Schedule;
    assert AppFrame(t, ScheduleStep(t, now));
    FrameChain(s, t, ScheduleStep(t, now));
    hide ScheduleStep;
    hide AppFrame;
  }

  /** Handling a message at the top of an application job. */
  ghost function Process1(s: Server, c: nat, m: Msg, now: nat): (r: Server)
    requires c in s.conns && Q.Valid(s.queue)
  {
    var t := Noted(s, c, m);
    if m.asks.None? then t
    else
      var (u, ok) := AskHash(t, c, m.asks.value, now);
      AskTouches(t, c, m.asks.value, now);
      if ok then Pump(u, now) else u
  }

  lemma TouchesFrame(s: Server, t: Server, c: nat)
    requires Touches(s, t, c)
    ensures AppFrame(s, t) && (Q.Valid(s.queue) ==> Q.Valid(t.queue))
  {
    hide Q.Valid;
  }

  lemma Process1Frame(s: Server, c: nat, m: Msg, now: nat)
    requires c in s.conns && Q.Valid(s.queue)
    ensures AppFrame(s, Process1(s, c, m, now)) && Q.Valid(Process1(s, c, m, now).queue)
  {
    hide Q.Valid;
    hide Pump;
    hide AskHash;
    var t := Noted(s, c, m);
    assert AppFrame(s, t);
    hide AppFrame;
    if m.asks.Some? {
      var u := AskHash(t, c, m.asks.value, now).0;
      AskTouches(t, c, m.asks.value, now);
      TouchesFrame(t, u, c);
      hide Touches;
      FrameChain(s, t, u);
      PumpFrame(u, now);
      FrameChain(s, u, Pump(u, now));
    }
  }

  ghost function Handle1(s: Server, c: nat, m: Msg, now: nat): Server
    requires c in s.conns && Q.Valid(s.queue)
  {
    if s.conns[c].alive && !s.stopping then
      Process1Frame(s, c, m, now);
      Uncount(Process1(s, c, m, now), c)
    else Uncount(s, c)
  }

  lemma Handle1Frame(s: Server, c: nat, m: Msg, now: nat)
    requires c in s.conns && Q.Valid(s.queue)
    ensures AppFrame(s, Handle1(s, c, m, now)) && Q.Valid(Handle1(s, c, m, now).queue)
  {
    hide Q.Valid;
    Process1Frame(s, c, m, now);
    var t := if s.conns[c].alive && !s.stopping then Process1(s, c, m, now) else s;
    FrameSelf(s);
    assert t.conns.Keys == s.conns.Keys;
    hide Process1;
    UncountFrame(t, c);
    FrameChain(s, t, Uncount(t, c));
    hide AppFrame;
  }

  lemma FrameSelf(s: Server)
    ensures AppFrame(s, s)
  {
  }

  lemma UncountFrame(s: Server, c: nat)
    requires c in s.conns
    ensures AppFrame(s, Uncount(s, c))
  {
  }

  ghost function Drain1(s: Server, c: nat, now: nat): Server
    requires c in s.conns && Q.Valid(s.queue)
    decreases |s.conns[c].deferred|
  {
    var k := s.conns[c];
    if k.waiting || k.deferred == [] then s
    else
      Handle1Frame(Popped(s, c), c, k.deferred[0], now);
      Drain1(Handle1(Popped(s, c), c, k.deferred[0], now), c, now)
  }

  ghost function Defer(s: Server, c: nat, m: Msg): Server
    requires c in s.conns
  {
    var k := s.conns[c];
    if s.deferred >= DEFERRED_LIMIT then WithConn(s, c, k.(count := k.count - 1, lost := true))
    else WithConn(s.(deferred := s.deferred + 1), c, k.(deferred := k.deferred + [m]))
  }

  // ------------------------------------------------------------ application jobs

  /** `DispatchMessage`. A message over the limit is lost with its connection,
      whose close is requested. */
  ghost function Dispatch(s: Server, c: nat, m: Msg, now: nat): Server
    requires c in s.conns && Q.Valid(s.queue)
  {
    if s.conns[c].alive && !s.stopping && s.conns[c].waiting then Defer(s, c, m) else Handle1(s, c, m, now)
  }

  ghost function RunCleanup(s: Server, c: nat): Server
    requires c in s.conns && Q.Valid(s.queue)
  {
    var k := s.conns[c];
    WithConn(s.(queue := Q.Cancel(s.queue, c), deferred := s.deferred - |k.deferred|, posted := s.posted + 1),
             c, k.(count := k.count - |k.deferred|, deferred := []))
  }

  ghost function RunCompletion(s: Server, w: nat, c: nat, now: nat): Server
    requires c in s.conns && Q.Valid(s.queue)
  {
    var (q, ok) := Q.Complete(s.queue, w);
    if !ok || w >= |s.hashers| then s.(failed := true)
    else
      Q.FreeValid(s.queue, w);
      var a := WithConn(s.(queue := q, hashers := s.hashers[w := Resting]), c, s.conns[c].(waiting := false));
      Drain1Frame(a, c, now);
      var b := Drain1(a, c, now);
      if s.stopping then b else Pump(b, now)
  }

  lemma FrameShorter(s: Server, t: Server, c: nat)
    requires AppFrame(s, t) && c in s.conns
    ensures c in t.conns && |t.conns[c].deferred| <= |s.conns[c].deferred|
  {
  }

  lemma {:induction false} Drain1Frame(s: Server, c: nat, now: nat)
    requires c in s.conns && Q.Valid(s.queue)
    ensures AppFrame(s, Drain1(s, c, now)) && Q.Valid(Drain1(s, c, now).queue)
    decreases |s.conns[c].deferred|
  {
    hide Q.Valid;
    hide Handle1;
    var k := s.conns[c];
    if !k.waiting && k.deferred != [] {
      var a := Popped(s, c);
      assert AppFrame(s, a);
      Handle1Frame(a, c, k.deferred[0], now);
      var b := Handle1(a, c, k.deferred[0], now);
      FrameChain(s, a, b);
      FrameShorter(a, b, c);
      hide AppFrame;
      Drain1Frame(b, c, now);
      FrameChain(s, b, Drain1(b, c, now));
    } else {
      FrameSelf(s);
    }
  }

  /** The connections an application job refers to are known. */
  ghost predicate Knows(s: Server, job: AppJob) {
    match job
    case Message(c, _) => c in s.conns
    case Cleanup(c) => c in s.conns
    case Completion(_, c) => c in s.conns
    case _ => true
  }

  ghost function RunJob(s: Server, job: AppJob, now: nat): Server
    requires Q.Valid(s.queue) && Knows(s, job)
  {
    match job
    case Message(c, m) => Dispatch(s, c, m, now)
    case Cleanup(c) => RunCleanup(s, c)
    case Completion(w, c) => RunCompletion(s, w, c, now)
    case Tick => if s.stopping then s else Pump(s, now)
    case _ => s
  }

  // ------------------------------------------------------------------- events

  datatype Event =
    | TryAccept(tight: bool)
    | AcceptDone(arrival: Option<nat>)
    | Open(conn: nat)
    | Receive(conn: nat, msg: Msg)
    | Close(conn: nat)
    | Gone(conn: nat)
    | Submitted(job: AppJob)
    | SweepTimer
    | Stop
    | Work(now: nat)
    | Pick(worker: nat)
    | Hashed(worker: nat)
    | Posted

  ghost predicate Ordinary(job: AppJob) {
    job.Tick? || job.Routine?
  }

  ghost function CloseAll(s: Server, conns: seq<nat>): Server
    decreases |conns|
  {
    if conns == [] then s else CloseAll(CloseConn(s, conns[0]), conns[1..])
  }

  ghost function Step(s: Server, e: Event): Server
    requires Q.Valid(s.queue)
  {
    match e
    case TryAccept(tight) => AcceptNext(s, tight)
    case AcceptDone(c) => Accepted(s, c)
    case Open(c) => Opened(s, c)
    case Receive(c, m) => Arrive(s, c, m)
    case Close(c) => CloseConn(s, c)
    case Gone(c) => Finish(s, c)
    case Submitted(job) => if Ordinary(job) then Submit(s, job, false).0 else s
    case SweepTimer => if s.sweepDue && !s.stopping then MustSubmit(s.(sweepDue := false), Sweep) else s
    case Stop =>
      if s.stopping then s
      else
        var a := Submit(s.(stopping := true), Farewell, true).0;
        CloseAll(a, SortedNats(Listed(a)))
    case Work(now) =>
      if s.jobs == [] || !Knows(s, s.jobs[0]) then s
      else RunJob(s.(jobs := s.jobs[1..]), s.jobs[0], now)
    case Pick(w) =>
      if w < |s.hashers| && s.hashers[w].Queued? then s.(hashers := s.hashers[w := Hashing(s.hashers[w].conn)]) else s
    case Hashed(w) =>
      if w < |s.hashers| && s.hashers[w].Hashing? then
        MustSubmit(s.(hashers := s.hashers[w := Done(s.hashers[w].conn)]), Completion(w, s.hashers[w].conn))
      else s
    case Posted => if s.posted > 0 && s.cleanups > 0 then s.(posted := s.posted - 1, cleanups := s.cleanups - 1) else s
  }
}
