/** Messages that ask for a password hash and the requests they make, over whole
    runs: each is answered, by a request accepted or a refusal counted, and no
    request comes from anything else. */
module ServerRequests {
  import opened Ordering
  import opened WorkLimiting
  import opened QueueIds
  import opened QueueLogs
  import opened ServerSpec
  import opened ServerReserve
  import opened ServerOrder
  import opened ServerCleanups
  import Q = QueueSpec
  import H = QueueHistory

  // ----------------------------------------------------------- questions and answers

  ghost function Questions(msgs: seq<Msg>): nat {
    if msgs == [] then 0
    else Questions(msgs[..|msgs| - 1]) + if msgs[|msgs| - 1].asks.Some? then 1 else 0
  }

  /** How often handled messages of `c` have asked for a hash. */
  ghost function AskedBy(conns: map<nat, Conn>, c: nat): nat {
    if c in conns then Questions(conns[c].handled) else 0
  }

  /** From `s` to `t` what `c` asked was granted, or refused for want of room, and
      nothing else was granted to it. */
  ghost predicate Answered(s: Server, t: Server, c: nat) {
    var granted := Granted(t.queue.fates, c) - Granted(s.queue.fates, c);
    granted <= AskedBy(t.conns, c) - AskedBy(s.conns, c) <= granted + Refused(t.queue) - Refused(s.queue)
  }

  /** Whoever has a request waits for it. */
  ghost predicate Mindful(s: Server) {
    forall c :: c in s.queue.ids ==> c in s.conns && s.conns[c].waiting
  }

  ghost predicate Replies(s: Server, t: Server, c: nat) {
    Answered(s, t, c) && Mindful(t)
  }

  lemma RepliesChain(s: Server, t: Server, u: Server, c: nat)
    requires Replies(s, t, c) && Replies(t, u, c)
    ensures Replies(s, u, c)
  {
    hide Granted;
    hide Refused;
    hide AskedBy;
    hide Mindful;
  }

  lemma RepliesSelf(s: Server, c: nat)
    requires Mindful(s)
    ensures Replies(s, s, c)
  {
    hide Mindful;
  }

  lemma RepliesMindful(s: Server, t: Server, c: nat)
    requires Replies(s, t, c)
    ensures Mindful(t)
  {
    hide Mindful;
    hide Answered;
  }

  /** Connection `d` changes, but neither what it handled nor whether it waits. */
  lemma UpdateReplies(s: Server, t: Server, d: nat, c: nat)
    requires Mindful(s) && d in s.conns && d in t.conns && t.conns == s.conns[d := t.conns[d]] && t.queue == s.queue
    requires t.conns[d].handled == s.conns[d].handled && t.conns[d].waiting == s.conns[d].waiting
    ensures Replies(s, t, c)
  {
  }

  /** The queue changes, without an acceptance or refusal. */
  lemma StillReplies(s: Server, t: Server, c: nat)
    requires Mindful(s) && t.conns == s.conns && Still(s.queue, t.queue, c) && t.queue.ids <= s.queue.ids
    ensures Replies(s, t, c)
  {
    hide Granted;
    hide Refused;
    hide AskedBy;
  }

  lemma QuestionsSnoc(msgs: seq<Msg>, m: Msg)
    ensures Questions(msgs + [m]) == Questions(msgs) + if m.asks.Some? then 1 else 0
  {
    assert (msgs + [m])[..|msgs|] == msgs;
  }

  // ------------------------------------------------------------- handling a message

  /** A message that may be handled: its connection is not waiting, if it counts. */
  ghost predicate Handles(s: Server, d: nat) {
    d in s.conns && (s.conns[d].alive && !s.stopping ==> !s.conns[d].waiting)
  }

  lemma StillMindful(s: Server, t: Server, d: nat)
    requires Mindful(s) && d in s.conns && d in t.conns && t.conns == s.conns[d := t.conns[d]] && t.queue == s.queue
    requires t.conns[d].waiting == s.conns[d].waiting
    ensures Mindful(t)
  {
  }

  lemma NotedAsks(s: Server, d: nat, m: Msg, c: nat)
    requires Mindful(s) && d in s.conns
    ensures var t := Noted(s, d, m);
            && Mindful(t) && t.queue == s.queue && t.stopping == s.stopping && t.timeout == s.timeout
            && d in t.conns && t.conns[d].alive == s.conns[d].alive && t.conns[d].waiting == s.conns[d].waiting
            && AskedBy(t.conns, c) == AskedBy(s.conns, c) + if c == d && m.asks.Some? then 1 else 0
  {
    hide Questions;
    hide Mindful;
    var k := s.conns[d];
    QuestionsSnoc(k.handled, m);
    var t := Noted(s, d, m);
    assert t.conns[d].handled == k.handled + [m];
    assert Mindful(t) by {
      StillMindful(s, t, d);
    }
  }

  /** Asking after the question was noted. */
  lemma AskReplies(s: Server, t: Server, d: nat, source: string, now: nat, c: nat)
    requires Mindful(s) && Mindful(t) && t.queue == s.queue
    requires d in t.conns && t.conns[d].alive && !t.stopping && !t.conns[d].waiting
    requires AskedBy(t.conns, c) == AskedBy(s.conns, c) + if c == d then 1 else 0
    ensures Replies(s, AskHash(t, d, source, now).0, c)
  {
    hide Granted;
    hide Refused;
    hide Q.Enqueue;
    hide Questions;
    EnqueueGrants(t.queue, Q.Job(d, source, now + t.timeout), c);
    assert AskedBy(AskHash(t, d, source, now).0.conns, c) == AskedBy(t.conns, c);
  }

  /** A message is noted and asks; up to the pump that may follow. */
  lemma ProcessReplies(s: Server, d: nat, m: Msg, now: nat, c: nat)
    requires Mindful(s) && d in s.conns && s.conns[d].alive && !s.stopping && !s.conns[d].waiting
    ensures Replies(s, Process0(s, d, m, now), c)
  {
    NotedAsks(s, d, m, c);
    hide Mindful;
    hide AskedBy;
    hide AskHash;
    hide Noted;
    hide Granted;
    hide Refused;
    var t := Noted(s, d, m);
    if m.asks.Some? {
      AskReplies(s, t, d, m.asks.value, now, c);
    }
    hide Answered;
    hide Replies;
    assert m.asks.None? ==> Replies(s, t, c) by {
      NotAsked(s, t, c);
    }
  }

  lemma NotAsked(s: Server, t: Server, c: nat)
    requires Mindful(t) && t.queue == s.queue
    ensures AskedBy(t.conns, c) == AskedBy(s.conns, c) ==> Replies(s, t, c)
  {
    hide Mindful;
    hide AskedBy;
  }

  lemma UncountReplies(s: Server, d: nat, c: nat)
    requires Mindful(s) && d in s.conns
    ensures Replies(s, Uncount(s, d), c)
  {
    UpdateReplies(s, Uncount(s, d), d, c);
    hide Replies;
    hide Mindful;
  }

  lemma Handle0Replies(s: Server, d: nat, m: Msg, now: nat, c: nat)
    requires Mindful(s) && Handles(s, d)
    ensures Replies(s, Handle0(s, d, m, now), c)
  {
    hide Mindful;
    hide Replies;
    hide Process0;
    hide Uncount;
    RepliesSelf(s, c);
    var t := if s.conns[d].alive && !s.stopping then Process0(s, d, m, now) else s;
    if s.conns[d].alive && !s.stopping {
      ProcessReplies(s, d, m, now, c);
      ProcessKnown(s, d, m, now);
    }
    RepliesMindful(s, t, c);
    UncountReplies(t, d, c);
    RepliesChain(s, t, Uncount(t, d), c);
  }

  lemma ProcessKnown(s: Server, d: nat, m: Msg, now: nat)
    requires d in s.conns
    ensures d in Process0(s, d, m, now).conns
  {
    hide Q.Enqueue;
  }

  lemma PoppedReplies(s: Server, d: nat, c: nat)
    requires Mindful(s) && d in s.conns && s.conns[d].deferred != []
    ensures Replies(s, Popped(s, d), c)
  {
    UpdateReplies(s, Popped(s, d), d, c);
    hide Replies;
    hide Mindful;
  }

  lemma {:induction false} Drain0Replies(s: Server, d: nat, now: nat, c: nat)
    requires Mindful(s) && d in s.conns
    ensures Replies(s, Drain0(s, d, now), c)
    decreases |s.conns[d].deferred|
  {
    hide Mindful;
    hide Replies;
    hide Handle0;
    RepliesSelf(s, c);
    var k := s.conns[d];
    if !k.waiting && k.deferred != [] {
      var a := Popped(s, d);
      PoppedReplies(s, d, c);
      RepliesMindful(s, a, c);
      var b := Handle0(a, d, k.deferred[0], now);
      Handle0Replies(a, d, k.deferred[0], now, c);
      RepliesMindful(a, b, c);
      RepliesChain(s, a, b, c);
      Drain0Replies(b, d, now, c);
      RepliesChain(s, b, Drain0(b, d, now), c);
    }
  }

  // ------------------------------------------------------------------------ pumping

  /** `d` is no longer waiting, and has no request any more. */
  lemma DoneReplies(s: Server, t: Server, d: nat, c: nat)
    requires Mindful(s) && d in s.conns && t.conns == s.conns[d := s.conns[d].(waiting := false)]
    requires Still(s.queue, t.queue, c) && t.queue.ids <= s.queue.ids - {d}
    ensures Replies(s, t, c)
  {
    hide Granted;
    hide Refused;
    hide Questions;
  }

  lemma FinishReplies(s: Server, d: nat, now: nat, c: nat)
    requires Mindful(s) && d !in s.queue.ids
    ensures Replies(s, Finish0(s, d, now), c)
  {
    hide Mindful;
    hide Replies;
    hide Drain0;
    hide Still;
    RepliesSelf(s, c);
    if d in s.conns {
      var a := WithConn(s, d, s.conns[d].(waiting := false));
      assert Still(s.queue, a.queue, c) by {
        SelfStill(s.queue, c);
      }
      DoneReplies(s, a, d, c);
      RepliesMindful(s, a, c);
      Drain0Replies(a, d, now, c);
      RepliesChain(s, a, Drain0(a, d, now), c);
    }
  }

  lemma SelfStill(q: Q.Queue, id: nat)
    ensures Still(q, q, id)
  {
  }

  ghost predicate Gone(s: Server, expired: seq<Q.Job>) {
    forall i :: 0 <= i < |expired| ==> expired[i].id !in s.queue.ids
  }

  lemma FinishGone(s: Server, expired: seq<Q.Job>, now: nat)
    requires expired != [] && Gone(s, expired) && Distinct(expired)
    ensures Gone(Finish0(s, expired[0].id, now), expired[1..]) && Distinct(expired[1..])
  {
    FinishTouches(s, expired[0].id, now);
    hide Finish0;
    hide Q.Valid;
    hide AppFrame;
  }

  lemma {:induction false} CallbacksReply(s: Server, expired: seq<Q.Job>, now: nat, c: nat)
    requires Mindful(s) && Gone(s, expired) && Distinct(expired)
    ensures Replies(s, Callbacks(s, expired, now), c)
    decreases |expired|
  {
    hide Mindful;
    hide Replies;
    hide Finish0;
    hide Distinct;
    RepliesSelf(s, c);
    if expired != [] {
      var t := Finish0(s, expired[0].id, now);
      FinishGone(s, expired, now);
      assert expired[0].id !in s.queue.ids;
      hide Gone;
      FinishReplies(s, expired[0].id, now, c);
      RepliesMindful(s, t, c);
      CallbacksReply(t, expired[1..], now, c);
      RepliesChain(s, t, Callbacks(t, expired[1..], now), c);
    }
  }

  lemma PrunedGone(s: Server, now: nat)
    requires Q.Valid(s.queue)
    ensures var q := Q.Prune(s.queue, now, Alive(s));
            var expired := H.ExpiredSince(q.fates, |s.queue.fates|);
            q.ids <= s.queue.ids && Gone(s.(queue := q), expired) && Distinct(expired)
  {
    hide Q.Valid;
    hide Q.Prune;
    hide Alive;
    hide H.ExpiredSince;
    hide Distinct;
    hide Stays;
    PruneIds(s.queue, now, Alive(s));
  }

  lemma PruneReplies(s: Server, now: nat, c: nat)
    requires Mindful(s) && Q.Valid(s.queue)
    ensures Replies(s, PruneStep(s, now), c)
  {
    hide Mindful;
    hide Replies;
    hide Callbacks;
    hide Distinct;
    hide Gone;
    hide Still;
    hide Q.Valid;
    hide Q.PruneKeys;
    hide SortedKeys;
    hide Alive;
    PrunedGone(s, now);
    PruneKeysStill(s.queue, SortedKeys(s.queue.sources.Keys), now, Alive(s), c);
    var q := Q.Prune(s.queue, now, Alive(s));
    var a := s.(queue := q);
    StillReplies(s, a, c);
    RepliesMindful(s, a, c);
    var expired := H.ExpiredSince(q.fates, |s.queue.fates|);
    CallbacksReply(a, expired, now, c);
    RepliesChain(s, a, PruneStep(s, now), c);
  }

  lemma ScheduleReplies(s: Server, now: nat, c: nat)
    requires Mindful(s)
    ensures Replies(s, ScheduleStep(s, now), c)
  {
    hide Mindful;
    hide Replies;
    hide Still;
    hide Q.Schedule;
    ScheduleIds(s.queue, s.limits, 0, now);
    ScheduleStill(s.queue, s.limits, 0, now, c);
    StillReplies(s, ScheduleStep(s, now), c);
  }

  lemma PumpReplies(s: Server, now: nat, c: nat)
    requires Mindful(s) && Q.Valid(s.queue)
    ensures Replies(s, Pump(s, now), c)
  {
    hide Mindful;
    hide Replies;
    hide PruneStep;
    hide ScheduleStep;
    hide Q.Valid;
    PruneReplies(s, now, c);
    var t := PruneStep(s, now);
    RepliesMindful(s, t, c);
    ScheduleReplies(t, now, c);
    RepliesChain(s, t, ScheduleStep(t, now), c);
  }

  // --------------------------------------------------------------- jobs of the worker

  lemma Process1Replies(s: Server, d: nat, m: Msg, now: nat, c: nat)
    requires Mindful(s) && Q.Valid(s.queue) && d in s.conns && s.conns[d].alive && !s.stopping && !s.conns[d].waiting
    ensures Replies(s, Process1(s, d, m, now), c)
  {
    hide Mindful;
    hide Replies;
    hide Pump;
    hide AskHash;
    hide Q.Valid;
    hide Touches;
    ProcessReplies(s, d, m, now, c);
    if m.asks.Some? {
      var t := Noted(s, d, m);
      var u := AskHash(t, d, m.asks.value, now).0;
      assert u == Process0(s, d, m, now);
      AskValid(t, d, m.asks.value, now);
      RepliesMindful(s, u, c);
      PumpReplies(u, now, c);
      RepliesChain(s, u, Pump(u, now), c);
    }
  }

  lemma AskValid(s: Server, d: nat, source: string, now: nat)
    requires d in s.conns && Q.Valid(s.queue)
    ensures Q.Valid(AskHash(s, d, source, now).0.queue)
  {
    AskTouches(s, d, source, now);
    hide AskHash;
    hide Q.Valid;
    hide AppFrame;
  }

  lemma Handle1Replies(s: Server, d: nat, m: Msg, now: nat, c: nat)
    requires Mindful(s) && Handles(s, d) && Q.Valid(s.queue)
    ensures Replies(s, Handle1(s, d, m, now), c)
  {
    hide Mindful;
    hide Replies;
    hide Process1;
    hide Uncount;
    hide Q.Valid;
    RepliesSelf(s, c);
    Process1Frame(s, d, m, now);
    var t := if s.conns[d].alive && !s.stopping then Process1(s, d, m, now) else s;
    assert d in t.conns;
    hide AppFrame;
    if s.conns[d].alive && !s.stopping {
      Process1Replies(s, d, m, now, c);
    }
    RepliesMindful(s, t, c);
    UncountReplies(t, d, c);
    RepliesChain(s, t, Uncount(t, d), c);
  }

  lemma {:induction false} Drain1Replies(s: Server, d: nat, now: nat, c: nat)
    requires Mindful(s) && d in s.conns && Q.Valid(s.queue)
    ensures Replies(s, Drain1(s, d, now), c)
    decreases |s.conns[d].deferred|
  {
    hide Mindful;
    hide Replies;
    hide Handle1;
    hide Q.Valid;
    hide AppFrame;
    RepliesSelf(s, c);
    var k := s.conns[d];
    if !k.waiting && k.deferred != [] {
      var a := Popped(s, d);
      PoppedReplies(s, d, c);
      RepliesMindful(s, a, c);
      var b := Handle1(a, d, k.deferred[0], now);
      Handle1Frame(a, d, k.deferred[0], now);
      FrameShorter(a, b, d);
      Handle1Replies(a, d, k.deferred[0], now, c);
      RepliesMindful(a, b, c);
      RepliesChain(s, a, b, c);
      Drain1Replies(b, d, now, c);
      RepliesChain(s, b, Drain1(b, d, now), c);
    }
  }

  lemma CompleteStill(q: Q.Queue, w: nat, id: nat)
    requires Q.Valid(q)
    ensures Still(q, Q.Complete(q, w).0, id)
  {
    hide Q.Valid;
    hide Granted;
  }

  /** The hash of `d` is done: its request leaves the queue. */
  lemma CompletionReplies(s: Server, w: nat, d: nat, now: nat, c: nat)
    requires Mindful(s) && d in s.conns && Q.Valid(s.queue)
    requires w < |s.hashers| && w < |s.queue.running| && s.queue.running[w].Busy? && s.queue.running[w].job.id == d
    ensures Replies(s, RunCompletion(s, w, d, now), c)
  {
    hide Mindful;
    hide Replies;
    hide Drain1;
    hide Pump;
    hide Still;
    hide Q.Valid;
    hide AppFrame;
    CompleteIds(s.queue, w);
    CompleteStill(s.queue, w, c);
    CompletedValid(s.queue, w);
    hide Q.Complete;
    var q := Q.Complete(s.queue, w).0;
    var a := WithConn(s.(queue := q, hashers := s.hashers[w := Resting]), d, s.conns[d].(waiting := false));
    DoneReplies(s, a, d, c);
    RepliesMindful(s, a, c);
    Drain1Frame(a, d, now);
    var b := Drain1(a, d, now);
    Drain1Replies(a, d, now, c);
    RepliesMindful(a, b, c);
    RepliesChain(s, a, b, c);
    PumpReplies(b, now, c);
    RepliesChain(s, b, Pump(b, now), c);
  }

  lemma CleanupReplies(s: Server, d: nat, c: nat)
    requires Mindful(s) && d in s.conns && Q.Valid(s.queue)
    ensures Replies(s, RunCleanup(s, d), c)
  {
    hide Mindful;
    hide Replies;
    hide Still;
    hide Q.CancelIn;
    hide SortedKeys;
    H.ValidOutstanding(s.queue);
    hide Q.Valid;
    var keys := SortedKeys(s.queue.sources.Keys);
    CancelIds(s.queue, keys, d);
    CancelStill(s.queue, keys, d, c);
    var a := s.(queue := Q.Cancel(s.queue, d));
    StillReplies(s, a, c);
    RepliesMindful(s, a, c);
    UpdateReplies(a, RunCleanup(s, d), d, c);
    RepliesChain(s, a, RunCleanup(s, d), c);
  }

  lemma DispatchReplies(s: Server, d: nat, m: Msg, now: nat, c: nat)
    requires Mindful(s) && d in s.conns && Q.Valid(s.queue)
    ensures Replies(s, Dispatch(s, d, m, now), c)
  {
    hide Mindful;
    hide Replies;
    hide Handle1;
    hide Q.Valid;
    if s.conns[d].alive && !s.stopping && s.conns[d].waiting {
      UpdateReplies(s, Defer(s, d, m), d, c);
    } else {
      Handle1Replies(s, d, m, now, c);
    }
  }

  lemma WorkReplies(s: Server, now: nat, c: nat)
    requires Mindful(s) && Reserved(s)
    ensures Q.Valid(s.queue) && Replies(s, Step(s, Work(now)), c)
  {
    hide Mindful;
    hide Replies;
    hide Dispatch;
    hide RunCleanup;
    hide RunCompletion;
    hide Pump;
    hide Still;
    ReservedValid(s);
    if s.jobs != [] && s.jobs[0].Completion? {
      CompletionActive(s);
    }
    hide Reserved;
    hide Q.Valid;
    RepliesSelf(s, c);
    if s.jobs != [] && Knows(s, s.jobs[0]) {
      var a := s.(jobs := s.jobs[1..]);
      SelfStill(s.queue, c);
      StillReplies(s, a, c);
      RepliesMindful(s, a, c);
      RepliesSelf(a, c);
      match s.jobs[0] {
        case Message(d, m) => DispatchReplies(a, d, m, now, c);
        case Cleanup(d) => CleanupReplies(a, d, c);
        case Completion(w, d) => CompletionReplies(a, w, d, now, c);
        case Tick => PumpReplies(a, now, c);
        case _ =>
      }
      RepliesChain(s, a, RunJob(a, s.jobs[0], now), c);
    }
  }

  /** Outside the worker nothing is asked or answered. */
  lemma OutsideReplies(s: Server, e: Event, c: nat)
    requires Mindful(s) && Reserved(s) && !e.Work?
    ensures Q.Valid(s.queue) && Replies(s, Step(s, e), c)
  {
    ReservedValid(s);
    var t := Step(s, e);
    forall d
      ensures Outside(s, t, d)
    {
      StepOutside(s, e, d);
    }
    NewcomerFresh(s, e, c);
    hide Step;
    hide Reserved;
    hide Q.Valid;
    hide Cleanups;
    assert Outside(s, t, c);
    assert t.queue == s.queue;
    forall d | d in t.queue.ids
      ensures d in t.conns && t.conns[d].waiting
    {
      assert Outside(s, t, d);
    }
  }

  lemma NewcomerFresh(s: Server, e: Event, c: nat)
    requires Reserved(s) && !e.Work?
    ensures Q.Valid(s.queue)
    ensures c !in s.conns && c in Step(s, e).conns ==> Step(s, e).conns[c].handled == []
  {
    hide Q.Valid;
    hide Reserved;
    hide CleanUp;
    hide CloseConn;
    hide CloseAll;
    hide SortedNats;
    hide Outside;
    ReservedValid(s);
    match e {
      case Stop =>
        if !s.stopping {
          StopIs(s);
          CloseAllOutside(Stopping(s), SortedNats(Listed(Stopping(s))), c);
        }
        hide Step;
      case Receive(d, _) => CloseOutside(s, d, c);
      case Close(d) => CloseOutside(s, d, c);
      case Gone(d) =>
        if d in s.conns {
          CleanUpIs(s, d);
        }
      case _ =>
    }
  }

  // --------------------------------------------------------------------- whole runs

  /** Over every run: what the handled messages of a connection have asked is what
      was accepted from it, but for refusals counted as such. */
  lemma {:induction false} RunAnswers(x: Setup, events: seq<Event>, c: nat)
    requires Proper(x)
    ensures var s := Run(x, events);
            && Mindful(s)
            && Granted(s.queue.fates, c) <= AskedBy(s.conns, c) <= Granted(s.queue.fates, c) + s.queue.stats.full + s.queue.stats.sourceFull
    decreases |events|
  {
    hide Mindful;
    hide Granted;
    hide AskedBy;
    hide Step;
    hide Reserved;
    if events == [] {
      NewReplies(x, c);
    } else {
      var before, e := events[..|events| - 1], events[|events| - 1];
      RunAnswers(x, before, c);
      if e.Work? {
        WorkReplies(Run(x, before), e.now, c);
      } else {
        OutsideReplies(Run(x, before), e, c);
      }
    }
  }

  lemma NewReplies(x: Setup, c: nat)
    requires Proper(x)
    ensures Mindful(Run(x, [])) && Granted(Run(x, []).queue.fates, c) == 0 && AskedBy(Run(x, []).conns, c) == 0
  {
  }
}
