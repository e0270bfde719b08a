/** What the history of a `CredentialQueue` says agrees with its statistics and
    its decisions: every counter counts its events, and the decisions that
    picked a source are, in order, the starts. */
module QueueLogs {
  import opened Ordering
  import opened WorkLimiting
  import opened QueueSpec
  import opened QueueHistory

  ghost function Times(fates: seq<Fate>, kind: Kind): nat {
    if fates == [] then 0
    else Times(fates[..|fates| - 1], kind) + if KindOf(fates[|fates| - 1]) == kind then 1 else 0
  }

  /** The sources of the jobs started, in order. */
  ghost function Served(fates: seq<Fate>): seq<string> {
    if fates == [] then []
    else
      var f := fates[|fates| - 1];
      Served(fates[..|fates| - 1]) + if f.Started? then [f.job.source] else []
  }

  /** The sources picked, in order. */
  ghost function Picks(ds: seq<Decision>): seq<string> {
    if ds == [] then []
    else
      var d := ds[|ds| - 1];
      Picks(ds[..|ds| - 1]) + if d.pick.Some? then [d.pick.value] else []
  }

  ghost predicate Logged(q: Queue) {
    && q.stats.accepted == Times(q.fates, WasAccepted)
    && q.stats.started == Times(q.fates, WasStarted)
    && q.stats.expired == Times(q.fates, WasExpired)
    && q.stats.canceled == Times(q.fates, WasCanceled)
    && Served(q.fates) == Picks(q.decisions)
  }

  /** From `q` to `r`, with starts of the sources `extra` and no decision yet. */
  ghost predicate Follows(q: Queue, r: Queue, extra: seq<string>) {
    && r.decisions == q.decisions
    && Served(r.fates) == Served(q.fates) + extra
    && r.stats.accepted - q.stats.accepted == Times(r.fates, WasAccepted) - Times(q.fates, WasAccepted)
    && r.stats.started - q.stats.started == Times(r.fates, WasStarted) - Times(q.fates, WasStarted)
    && r.stats.expired - q.stats.expired == Times(r.fates, WasExpired) - Times(q.fates, WasExpired)
    && r.stats.canceled - q.stats.canceled == Times(r.fates, WasCanceled) - Times(q.fates, WasCanceled)
  }

  lemma FollowsChain(q: Queue, r: Queue, s: Queue, a: seq<string>, b: seq<string>)
    requires Follows(q, r, a) && Follows(r, s, b)
    ensures Follows(q, s, a + b)
  {
    assert Served(q.fates) + a + b == Served(q.fates) + (a + b);
  }

  lemma FollowsSilently(q: Queue, r: Queue)
    requires r.decisions == q.decisions && r.fates == q.fates
    requires r.stats == q.stats.(completed := r.stats.completed, full := r.stats.full, sourceFull := r.stats.sourceFull, sourceWaits := r.stats.sourceWaits)
    ensures Follows(q, r, [])
  {
    assert Served(q.fates) + [] == Served(q.fates);
  }

  lemma FateSnoc(fates: seq<Fate>, f: Fate)
    ensures Served(fates + [f]) == Served(fates) + if f.Started? then [f.job.source] else []
    ensures forall kind :: Times(fates + [f], kind) == Times(fates, kind) + if KindOf(f) == kind then 1 else 0
  {
    assert (fates + [f])[..|fates|] == fates;
  }

  // ------------------------------------------------------------- each operation

  lemma EnqueueFollows(q: Queue, job: Job)
    ensures Follows(q, Enqueue(q, job).0, [])
  {
    var r := Enqueue(q, job).0;
    if Enqueue(q, job).1 {
      FateSnoc(q.fates, Accepted(job.(source := SourceKey(job.source))));
    } else {
      FollowsSilently(q, r);
    }
    hide Served;
    hide Times;
  }

  lemma DropFollows(q: Queue, key: string, i: nat, expire: bool)
    requires i < |Waiting(q.sources, key)| && q.sources[key].outstanding > 0
    ensures Follows(q, Drop(q, key, i, expire), [])
  {
    var job := q.sources[key].waiting[i];
    FateSnoc(q.fates, if expire then Expired(job) else Canceled(job));
    hide Served;
    hide Times;
  }

  lemma {:induction false} CancelFollows(q: Queue, keys: seq<string>, id: nat)
    requires forall k :: k in keys ==> k in q.sources && q.sources[k].outstanding > 0
    ensures Follows(q, CancelIn(q, keys, id), [])
  {
    hide Follows;
    hide Drop;
    FollowsSilently(q, q);
    if keys != [] {
      var i := Find(q.sources[keys[0]].waiting, id);
      if i < |q.sources[keys[0]].waiting| {
        DropFollows(q, keys[0], i, false);
      } else {
        CancelFollows(q, keys[1..], id);
      }
    }
  }

  lemma {:induction false} PruneSourceFollows(q: Queue, key: string, i: nat, now: nat, alive: set<nat>)
    requires i <= |Waiting(q.sources, key)| && Valid(q)
    ensures Follows(q, PruneSource(q, key, i, now, alive), [])
    decreases |Waiting(q.sources, key)| - i
  {
    hide Follows;
    hide Valid;
    FollowsSilently(q, q);
    if i < |Waiting(q.sources, key)| {
      var job := q.sources[key].waiting[i];
      if Keep(job, now, alive) {
        PruneSourceFollows(q, key, i + 1, now, alive);
      } else {
        ValidHeld(q, key);
        var r := Drop(q, key, i, job.id in alive);
        DropValid(q, key, i, job.id in alive);
        DropFollows(q, key, i, job.id in alive);
        PruneSourceFollows(r, key, i, now, alive);
        FollowsChain(q, r, PruneSource(r, key, i, now, alive), [], []);
      }
    }
  }

  lemma {:induction false} PruneKeysFollows(q: Queue, keys: seq<string>, now: nat, alive: set<nat>)
    requires Valid(q)
    ensures Follows(q, PruneKeys(q, keys, now, alive), [])
    decreases |keys|
  {
    hide Follows;
    hide Valid;
    hide PruneSource;
    FollowsSilently(q, q);
    if keys != [] {
      var r := PruneSource(q, keys[0], 0, now, alive);
      PruneSourceFollows(q, keys[0], 0, now, alive);
      PruneKeysFollows(r, keys[1..], now, alive);
      FollowsChain(q, r, PruneKeys(r, keys[1..], now, alive), [], []);
    }
  }

  lemma StartFollows(q: Queue, worker: nat, key: string, now: nat)
    requires worker < |q.running| && |Waiting(q.sources, key)| > 0 && Held(q, key)
    ensures Follows(q, Start(q, worker, key, now), [key])
  {
    FateSnoc(q.fates, Started(q.sources[key].waiting[0], worker, now));
    hide Served;
    hide Times;
  }

  ghost function Picked(pick: Option<string>): seq<string> {
    if pick.Some? then [pick.value] else []
  }

  lemma {:induction false} ScanFollows(q: Queue, l: Limits, worker: nat, round: seq<string>, now: nat)
    requires worker < |q.running| && Valid(q)
    requires forall k :: k in round ==> k in q.sources
    ensures var s := Scan(q, l, worker, round, now);
            Follows(q, s.queue, Picked(s.pick))
    decreases |round|
  {
    hide Ask;
    hide Valid;
    hide Follows;
    hide Held;
    if round == [] {
      FollowsSilently(q, q);
    } else {
      var key := round[0];
      if !Ready(q.sources[key], now) {
        ScanFollows(q, l, worker, round[1..], now);
      } else {
        var (l', delay) := Ask(l, q.sources[key].waiting[0].source, now);
        if delay > 0 {
          var r := Refuse(q, key, now + delay);
          RefuseValid(q, key, now + delay);
          FollowsSilently(q, r);
          ScanFollows(r, l', worker, round[1..], now);
          var s := Scan(r, l', worker, round[1..], now);
          FollowsChain(q, r, s.queue, [], Picked(s.pick));
          assert [] + Picked(s.pick) == Picked(s.pick);
        } else {
          ValidHeld(q, key);
          StartFollows(q, worker, key, now);
        }
      }
    }
  }

  // ----------------------------------------------------- what asking and answering add

  /** How many requests of this id have been accepted. */
  ghost function Granted(fates: seq<Fate>, id: nat): nat {
    if fates == [] then 0
    else
      var f := fates[|fates| - 1];
      Granted(fates[..|fates| - 1], id) + if f.Accepted? && f.job.id == id then 1 else 0
  }

  /** How many requests have been refused for want of room. */
  ghost function Refused(q: Queue): nat {
    q.stats.full + q.stats.sourceFull
  }

  /** No request is accepted or refused on the way. */
  ghost predicate Still(q: Queue, r: Queue, id: nat) {
    Granted(r.fates, id) == Granted(q.fates, id) && Refused(r) == Refused(q)
  }

  lemma GrantedSnoc(fates: seq<Fate>, f: Fate, id: nat)
    ensures Granted(fates + [f], id) == Granted(fates, id) + if f.Accepted? && f.job.id == id then 1 else 0
  {
    assert (fates + [f])[..|fates|] == fates;
  }

  lemma DropStill(q: Queue, key: string, i: nat, expire: bool, id: nat)
    requires i < |Waiting(q.sources, key)| && q.sources[key].outstanding > 0
    ensures Still(q, Drop(q, key, i, expire), id)
  {
    hide Granted;
    var job := q.sources[key].waiting[i];
    GrantedSnoc(q.fates, if expire then Expired(job) else Canceled(job), id);
  }

  lemma {:induction false} CancelStill(q: Queue, keys: seq<string>, x: nat, id: nat)
    requires forall k :: k in keys ==> k in q.sources && q.sources[k].outstanding > 0
    ensures Still(q, CancelIn(q, keys, x), id)
  {
    hide Drop;
    hide Granted;
    if keys != [] {
      var i := Find(q.sources[keys[0]].waiting, x);
      if i < |q.sources[keys[0]].waiting| {
        DropStill(q, keys[0], i, false, id);
      } else {
        CancelStill(q, keys[1..], x, id);
      }
    }
  }

  lemma {:induction false} PruneSourceStill(q: Queue, key: string, i: nat, now: nat, alive: set<nat>, id: nat)
    requires i <= |Waiting(q.sources, key)| && Valid(q)
    ensures Still(q, PruneSource(q, key, i, now, alive), id)
    decreases |Waiting(q.sources, key)| - i
  {
    hide Valid;
    hide Granted;
    hide Refused;
    if i < |Waiting(q.sources, key)| {
      var job := q.sources[key].waiting[i];
      if Keep(job, now, alive) {
        PruneSourceStill(q, key, i + 1, now, alive, id);
      } else {
        ValidHeld(q, key);
        DropValid(q, key, i, job.id in alive);
        DropStill(q, key, i, job.id in alive, id);
        PruneSourceStill(Drop(q, key, i, job.id in alive), key, i, now, alive, id);
      }
    }
  }

  lemma {:induction false} PruneKeysStill(q: Queue, keys: seq<string>, now: nat, alive: set<nat>, id: nat)
    requires Valid(q)
    ensures Still(q, PruneKeys(q, keys, now, alive), id)
    decreases |keys|
  {
    hide Valid;
    hide PruneSource;
    hide Granted;
    hide Refused;
    if keys != [] {
      PruneSourceStill(q, keys[0], 0, now, alive, id);
      PruneKeysStill(PruneSource(q, keys[0], 0, now, alive), keys[1..], now, alive, id);
    }
  }

  lemma StartStill(q: Queue, worker: nat, key: string, now: nat, id: nat)
    requires worker < |q.running| && |Waiting(q.sources, key)| > 0
    ensures Still(q, Start(q, worker, key, now), id)
  {
    hide Granted;
    GrantedSnoc(q.fates, Started(q.sources[key].waiting[0], worker, now), id);
    assert Start(q, worker, key, now).stats == q.stats.(started := q.stats.started + 1);
  }

  lemma RefuseStill(q: Queue, key: string, until: nat, id: nat)
    requires key in q.sources
    ensures Still(q, Refuse(q, key, until), id)
  {
  }

  lemma {:induction false} ScanStill(q: Queue, l: Limits, worker: nat, round: seq<string>, now: nat, id: nat)
    requires worker < |q.running|
    requires forall k :: k in round ==> k in q.sources
    ensures Still(q, Scan(q, l, worker, round, now).queue, id)
    decreases |round|
  {
    hide Ask;
    hide Granted;
    hide Refused;
    hide Start;
    if round != [] {
      var key := round[0];
      if !Ready(q.sources[key], now) {
        ScanStill(q, l, worker, round[1..], now, id);
      } else {
        var (l', delay) := Ask(l, q.sources[key].waiting[0].source, now);
        if delay > 0 {
          RefuseStill(q, key, now + delay, id);
          ScanStill(Refuse(q, key, now + delay), l', worker, round[1..], now, id);
        } else {
          StartStill(q, worker, key, now, id);
        }
      }
    }
  }

  lemma {:induction false} ScheduleStill(q: Queue, l: Limits, worker: nat, now: nat, id: nat)
    requires worker <= |q.running|
    ensures Still(q, Schedule(q, l, worker, now).0, id)
    decreases |q.running| - worker
  {
    hide Scan;
    hide RoundFrom;
    hide SortedKeys;
    hide Granted;
    if worker < |q.running| {
      if q.running[worker].Busy? {
        ScheduleStill(q, l, worker + 1, now, id);
      } else {
        var round := RoundFrom(SortedKeys(q.sources.Keys), q.lastSource);
        DecideIs(q, l, worker, now);
        ScanStill(q, l, worker, round, now, id);
        ScanShape(q, l, worker, round, now);
        var d := Decide(q, l, worker, now);
        ScheduleStill(d.queue, d.limits, worker + 1, now, id);
      }
    }
  }

  /** Asking under a new id: it is granted, or one more is refused. */
  lemma EnqueueGrants(q: Queue, job: Job, id: nat)
    requires job.id !in q.ids
    ensures var (r, ok) := Enqueue(q, job);
            && Granted(r.fates, id) == Granted(q.fates, id) + (if ok && job.id == id then 1 else 0)
            && Refused(r) == Refused(q) + (if ok then 0 else 1)
            && r.ids == if ok then q.ids + {job.id} else q.ids
  {
    hide Granted;
    GrantedSnoc(q.fates, Accepted(job.(source := SourceKey(job.source))), id);
  }

  // ----------------------------------------------------------------- whole runs

  lemma LoggedFollows(q: Queue, r: Queue)
    requires Logged(q) && Follows(q, r, [])
    ensures Logged(r)
  {
  }

  lemma Decided(q: Queue, r: Queue, d: Decision)
    requires Logged(q) && Follows(q, r, Picked(d.pick))
    ensures Logged(r.(decisions := q.decisions + [d]))
  {
    var ds := q.decisions + [d];
    assert ds[..|q.decisions|] == q.decisions;
    assert Picks(ds) == Picks(q.decisions) + Picked(d.pick);
    hide Served;
    hide Times;
    hide Picks;
  }

  lemma DecideLogged(q: Queue, l: Limits, worker: nat, now: nat)
    requires worker < |q.running| && Valid(q) && Logged(q)
    ensures Logged(Decide(q, l, worker, now).queue)
  {
    hide Valid;
    hide Scan;
    hide Logged;
    hide Follows;
    hide SortedKeys;
    var keys := SortedKeys(q.sources.Keys);
    var round := RoundFrom(keys, q.lastSource);
    RoundKeys(keys, q.lastSource);
    hide RoundFrom;
    hide ReadySet;
    ScanFollows(q, l, worker, round, now);
    var s := Scan(q, l, worker, round, now);
    var d := Decide(q, l, worker, now);
    Decided(q, s.queue, d.queue.decisions[|q.decisions|]);
  }

  lemma {:induction false} ScheduleLogged(q: Queue, l: Limits, worker: nat, now: nat)
    requires worker <= |q.running| && Valid(q) && Logged(q)
    ensures Logged(Schedule(q, l, worker, now).0)
    decreases |q.running| - worker
  {
    hide Valid;
    hide Logged;
    hide Decide;
    if worker < |q.running| {
      if q.running[worker].Busy? {
        ScheduleLogged(q, l, worker + 1, now);
      } else {
        DecideValid(q, l, worker, now);
        DecideLogged(q, l, worker, now);
        var s := Decide(q, l, worker, now);
        ScheduleLogged(s.queue, s.limits, worker + 1, now);
      }
    }
  }

  lemma {:induction false} EnqueueAllLogged(q: Queue, jobs: seq<Job>)
    requires Valid(q) && Logged(q)
    ensures Valid(EnqueueAll(q, jobs)) && Logged(EnqueueAll(q, jobs))
    decreases |jobs|
  {
    hide Valid;
    hide Logged;
    hide Follows;
    hide Enqueue;
    if jobs != [] {
      EnqueueValid(q, jobs[0]);
      EnqueueFollows(q, jobs[0]);
      LoggedFollows(q, Enqueue(q, jobs[0]).0);
      EnqueueAllLogged(Enqueue(q, jobs[0]).0, jobs[1..]);
    }
  }

  lemma PumpLogged(q: Queue, l: Limits, now: nat, alive: set<nat>, asks: map<nat, seq<Job>>)
    requires Valid(q) && Logged(q)
    ensures Logged(Pump(q, l, now, alive, asks).0)
  {
    hide Valid;
    hide Logged;
    hide Follows;
    hide PruneKeys;
    hide EnqueueAll;
    hide Schedule;
    var pruned := Prune(q, now, alive);
    PruneKeysFollows(q, SortedKeys(q.sources.Keys), now, alive);
    LoggedFollows(q, pruned);
    var jobs := Callbacks(ExpiredSince(pruned.fates, |q.fates|), asks);
    EnqueueAllLogged(pruned, jobs);
    ScheduleLogged(EnqueueAll(pruned, jobs), l, 0, now);
  }

  lemma StepLogged(q: Queue, l: Limits, e: Timed)
    requires Valid(q) && Logged(q)
    ensures Logged(Step(q, l, e).0)
  {
    hide Valid;
    hide Logged;
    hide Follows;
    hide Pump;
    hide CancelIn;
    hide Enqueue;
    hide Free;
    match e.event {
      case Submit(job) =>
        EnqueueFollows(q, job);
        LoggedFollows(q, Enqueue(q, job).0);
      case Abandon(id) =>
        ValidOutstanding(q);
        CancelFollows(q, SortedKeys(q.sources.Keys), id);
        LoggedFollows(q, Cancel(q, id));
      case Finish(worker) =>
        CompleteFollows(q, worker);
        LoggedFollows(q, Complete(q, worker).0);
      case Turn(alive, asks) =>
        PumpLogged(q, l, e.at, alive, asks);
    }
  }

  lemma CompleteFollows(q: Queue, worker: nat)
    requires Valid(q)
    ensures Follows(q, Complete(q, worker).0, [])
  {
    FollowsSilently(q, Complete(q, worker).0);
    hide Valid;
    hide Follows;
  }

  /** In every reachable state each counter counts its events, and the sources
      picked by the decisions are, in order, those of the jobs started: what is
      proved of decisions holds of starts. */
  lemma {:induction false} RunLogs(c: Start0, events: seq<Timed>)
    requires Positive(c) && InOrder(events)
    ensures Logged(Run(c, events).0)
  {
    hide Logged;
    hide Step;
    hide Sane;
    hide Metered;
    if events == [] {
      assert Logged(NewQueue(c.workers, c.capacity, c.sourceCapacity)) by {
        NewLogged(c);
      }
    } else {
      var before := events[..|events| - 1];
      RunLogs(c, before);
      var (q, l) := Run(c, before);
      SaneValid(q);
      StepLogged(q, l, events[|events| - 1]);
    }
  }

  lemma NewLogged(c: Start0)
    ensures Logged(NewQueue(c.workers, c.capacity, c.sourceCapacity))
  {
  }
}
