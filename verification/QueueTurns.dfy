/** What a pump does to the requests that wait: the dead and the late go, the
    others stay or start, and the callbacks of the late ones are answered. */
module QueueTurns {
  import opened Ordering
  import opened WorkLimiting
  import opened QueueSpec
  import opened QueueHistory

  /** What happens at `now` to requests, when `alive` are the live connections: one
      that expires is late and alive, one that is canceled is dead, and with an
      allowance requests are accepted for it and started within it. */
  ghost predicate Due(f: Fate, now: nat, timeout: Option<nat>, alive: set<nat>) {
    match f
    case Accepted(job) => timeout.Some? ==> job.deadline == now + timeout.value
    case Started(job, _, at) => at == now && (timeout.Some? ==> now < job.deadline && job.id in alive)
    case Expired(job) => job.deadline <= now && job.id in alive
    case Canceled(job) => job.id !in alive
  }

  ghost predicate Adds(q: Queue, r: Queue, now: nat, timeout: Option<nat>, alive: set<nat>) {
    && q.fates <= r.fates
    && (forall i :: |q.fates| <= i < |r.fates| ==> Due(r.fates[i], now, timeout, alive))
  }

  /** Every waiting request is in time, and its connection alive. */
  ghost predicate InTime(q: Queue, now: nat, alive: set<nat>) {
    forall key, job :: job in Waiting(q.sources, key) ==> now < job.deadline && job.id in alive
  }

  lemma AddsSelf(q: Queue, r: Queue, now: nat, timeout: Option<nat>, alive: set<nat>)
    requires r.fates == q.fates
    ensures Adds(q, r, now, timeout, alive)
  {
  }

  lemma AddsChain(q: Queue, r: Queue, s: Queue, now: nat, timeout: Option<nat>, alive: set<nat>)
    requires Adds(q, r, now, timeout, alive) && Adds(r, s, now, timeout, alive)
    ensures Adds(q, s, now, timeout, alive)
  {
    hide Due;
  }

  lemma AddsOne(q: Queue, r: Queue, f: Fate, now: nat, timeout: Option<nat>, alive: set<nat>)
    requires r.fates == q.fates + [f] && Due(f, now, timeout, alive)
    ensures Adds(q, r, now, timeout, alive)
  {
    hide Due;
  }

  // --------------------------------------------------------- operations of the queue

  lemma EnqueueAdds(q: Queue, job: Job, now: nat, timeout: Option<nat>, alive: set<nat>)
    requires timeout.Some? ==> job.deadline == now + timeout.value && 0 < timeout.value && job.id in alive
    ensures Adds(q, Enqueue(q, job).0, now, timeout, alive)
    ensures timeout.Some? && InTime(q, now, alive) ==> InTime(Enqueue(q, job).0, now, alive)
  {
    var r := Enqueue(q, job).0;
    var accepted := job.(source := SourceKey(job.source));
    if Enqueue(q, job).1 {
      AddsOne(q, r, Accepted(accepted), now, timeout, alive);
      forall key, j | j in Waiting(r.sources, key)
        ensures j == accepted || j in Waiting(q.sources, key)
      {
      }
    } else {
      AddsSelf(q, r, now, timeout, alive);
    }
    hide Adds;
    hide Enqueue;
  }

  lemma DropAdds(q: Queue, key: string, i: nat, now: nat, timeout: Option<nat>, alive: set<nat>)
    requires i < |Waiting(q.sources, key)| && q.sources[key].outstanding > 0
    requires !Keep(q.sources[key].waiting[i], now, alive)
    ensures Adds(q, Drop(q, key, i, q.sources[key].waiting[i].id in alive), now, timeout, alive)
  {
    var job := q.sources[key].waiting[i];
    AddsOne(q, Drop(q, key, i, job.id in alive), if job.id in alive then Expired(job) else Canceled(job), now, timeout, alive);
  }

  lemma {:induction false} PruneSourceAdds(q: Queue, key: string, i: nat, now: nat, timeout: Option<nat>, alive: set<nat>)
    requires Valid(q) && i <= |Waiting(q.sources, key)|
    ensures Adds(q, PruneSource(q, key, i, now, alive), now, timeout, alive)
    decreases |Waiting(q.sources, key)| - i
  {
    hide Adds;
    hide Valid;
    AddsSelf(q, q, now, timeout, alive);
    if i < |Waiting(q.sources, key)| {
      var job := q.sources[key].waiting[i];
      if Keep(job, now, alive) {
        PruneSourceAdds(q, key, i + 1, now, timeout, alive);
      } else {
        ValidHeld(q, key);
        var r := Drop(q, key, i, job.id in alive);
        DropValid(q, key, i, job.id in alive);
        DropAdds(q, key, i, now, timeout, alive);
        PruneSourceAdds(r, key, i, now, timeout, alive);
        AddsChain(q, r, PruneSource(r, key, i, now, alive), now, timeout, alive);
      }
    }
  }

  lemma {:induction false} PruneKeysAdds(q: Queue, keys: seq<string>, now: nat, timeout: Option<nat>, alive: set<nat>)
    requires Valid(q)
    ensures Adds(q, PruneKeys(q, keys, now, alive), now, timeout, alive)
    decreases |keys|
  {
    hide Adds;
    hide Valid;
    hide PruneSource;
    AddsSelf(q, q, now, timeout, alive);
    if keys != [] {
      var r := PruneSource(q, keys[0], 0, now, alive);
      PruneSourceAdds(q, keys[0], 0, now, timeout, alive);
      PruneKeysAdds(r, keys[1..], now, timeout, alive);
      AddsChain(q, r, PruneKeys(r, keys[1..], now, alive), now, timeout, alive);
    }
  }

  lemma {:induction false} KeptInTime(jobs: seq<Job>, now: nat, alive: set<nat>)
    ensures forall job :: job in KeptJobs(jobs, now, alive) ==> now < job.deadline && job.id in alive
  {
    if jobs != [] {
      KeptInTime(jobs[1..], now, alive);
    }
  }

  lemma PruneAdds(q: Queue, now: nat, timeout: Option<nat>, alive: set<nat>)
    requires Sane(q)
    ensures Valid(q) && Adds(q, Prune(q, now, alive), now, timeout, alive)
    ensures InTime(Prune(q, now, alive), now, alive)
  {
    hide Valid;
    hide Adds;
    hide PruneKeys;
    hide Fated;
    hide Chained;
    var r := Prune(q, now, alive);
    PruneKeysAdds(q, SortedKeys(q.sources.Keys), now, timeout, alive);
    PruneEffect(q, now, alive, "");
    forall key, job | job in Waiting(r.sources, key)
      ensures now < job.deadline && job.id in alive
    {
      KeptInTime(Waiting(q.sources, key), now, alive);
    }
  }

  lemma {:induction false} CancelAdds(q: Queue, keys: seq<string>, id: nat, now: nat, timeout: Option<nat>, alive: set<nat>)
    requires forall k :: k in keys ==> k in q.sources && q.sources[k].outstanding > 0
    requires id !in alive
    ensures Adds(q, CancelIn(q, keys, id), now, timeout, alive)
  {
    hide Adds;
    AddsSelf(q, q, now, timeout, alive);
    if keys != [] {
      var i := Find(q.sources[keys[0]].waiting, id);
      if i < |q.sources[keys[0]].waiting| {
        DropAdds(q, keys[0], i, now, timeout, alive);
      } else {
        CancelAdds(q, keys[1..], id, now, timeout, alive);
      }
    }
  }

  lemma StartAdds(q: Queue, worker: nat, key: string, now: nat, timeout: Option<nat>, alive: set<nat>)
    requires worker < |q.running| && |Waiting(q.sources, key)| > 0 && (timeout.Some? ==> InTime(q, now, alive))
    ensures var r := Start(q, worker, key, now);
            Adds(q, r, now, timeout, alive) && (timeout.Some? ==> InTime(r, now, alive))
  {
    var r := Start(q, worker, key, now);
    var job := q.sources[key].waiting[0];
    assert job in Waiting(q.sources, key);
    AddsOne(q, r, Started(job, worker, now), now, timeout, alive);
    hide Adds;
    forall k, j | j in Waiting(r.sources, k) && timeout.Some?
      ensures now < j.deadline && j.id in alive
    {
      assert j in Waiting(q.sources, k);
    }
  }

  lemma {:induction false} ScanAdds(q: Queue, l: Limits, worker: nat, round: seq<string>, now: nat, timeout: Option<nat>, alive: set<nat>)
    requires worker < |q.running| && (timeout.Some? ==> InTime(q, now, alive))
    requires forall k :: k in round ==> k in q.sources
    ensures var r := Scan(q, l, worker, round, now).queue;
            Adds(q, r, now, timeout, alive) && (timeout.Some? ==> InTime(r, now, alive))
    decreases |round|
  {
    hide Adds;
    hide InTime;
    hide Ask;
    AddsSelf(q, q, now, timeout, alive);
    if round != [] {
      var key := round[0];
      if !Ready(q.sources[key], now) {
        ScanAdds(q, l, worker, round[1..], now, timeout, alive);
      } else {
        var (l', delay) := Ask(l, q.sources[key].waiting[0].source, now);
        if delay > 0 {
          var r := Refuse(q, key, now + delay);
          if timeout.Some? {
            RefuseInTime(q, key, now + delay, now, alive);
          }
          AddsSelf(q, r, now, timeout, alive);
          ScanAdds(r, l', worker, round[1..], now, timeout, alive);
          AddsChain(q, r, Scan(r, l', worker, round[1..], now).queue, now, timeout, alive);
        } else {
          StartAdds(q, worker, key, now, timeout, alive);
        }
      }
    }
  }

  lemma RefuseInTime(q: Queue, key: string, until: nat, now: nat, alive: set<nat>)
    requires key in q.sources && InTime(q, now, alive)
    ensures InTime(Refuse(q, key, until), now, alive)
  {
    assert forall k :: Waiting(Refuse(q, key, until).sources, k) == Waiting(q.sources, k);
  }

  lemma {:induction false} ScheduleAdds(q: Queue, l: Limits, worker: nat, now: nat, timeout: Option<nat>, alive: set<nat>)
    requires worker <= |q.running| && (timeout.Some? ==> InTime(q, now, alive))
    ensures var r := Schedule(q, l, worker, now).0;
            Adds(q, r, now, timeout, alive) && (timeout.Some? ==> InTime(r, now, alive))
    decreases |q.running| - worker
  {
    hide Adds;
    hide Scan;
    hide RoundFrom;
    hide SortedKeys;
    AddsSelf(q, q, now, timeout, alive);
    if worker < |q.running| {
      if q.running[worker].Busy? {
        ScheduleAdds(q, l, worker + 1, now, timeout, alive);
      } else {
        var round := RoundFrom(SortedKeys(q.sources.Keys), q.lastSource);
        DecideIs(q, l, worker, now);
        ScanAdds(q, l, worker, round, now, timeout, alive);
        ScanShape(q, l, worker, round, now);
        var s, d := Scan(q, l, worker, round, now), Decide(q, l, worker, now);
        AddsSelf(s.queue, d.queue, now, timeout, alive);
        AddsChain(q, s.queue, d.queue, now, timeout, alive);
        ScheduleAdds(d.queue, d.limits, worker + 1, now, timeout, alive);
        AddsChain(q, d.queue, Schedule(d.queue, d.limits, worker + 1, now).0, now, timeout, alive);
      }
    }
  }

  // --------------------------------------------------------------- nothing is skipped

  /** The history of `r` has this entry, that of `q` before it did not. */
  ghost predicate Gains(q: Queue, r: Queue, f: Fate) {
    exists i :: |q.fates| <= i < |r.fates| && r.fates[i] == f
  }

  lemma GainsLater(q: Queue, r: Queue, s: Queue, f: Fate)
    requires q.fates <= r.fates <= s.fates && (Gains(q, r, f) || Gains(r, s, f))
    ensures Gains(q, s, f)
  {
    if Gains(q, r, f) {
      var i :| |q.fates| <= i < |r.fates| && r.fates[i] == f;
      assert s.fates[i] == f;
    }
  }

  /** What becomes of a waiting request that may not stay. */
  ghost function Verdict(job: Job, alive: set<nat>): Fate {
    if job.id in alive then Expired(job) else Canceled(job)
  }

  lemma AddsPrefix(q: Queue, r: Queue, now: nat, timeout: Option<nat>, alive: set<nat>)
    requires Adds(q, r, now, timeout, alive)
    ensures q.fates <= r.fates
  {
  }

  lemma {:induction false} PruneSourceGains(q: Queue, key: string, i: nat, now: nat, alive: set<nat>, job: Job)
    requires Valid(q) && i <= |Waiting(q.sources, key)| && job in Waiting(q.sources, key)[i..] && !Keep(job, now, alive)
    ensures Gains(q, PruneSource(q, key, i, now, alive), Verdict(job, alive))
    decreases |Waiting(q.sources, key)| - i
  {
    hide Valid;
    hide Keep;
    var w := Waiting(q.sources, key);
    if Keep(w[i], now, alive) {
      assert w[i..] == [w[i]] + w[i + 1..];
      PruneSourceGains(q, key, i + 1, now, alive, job);
    } else {
      ValidHeld(q, key);
      var r := Drop(q, key, i, w[i].id in alive);
      DropValid(q, key, i, w[i].id in alive);
      DropLeaves(q, key, i, w[i].id in alive);
      PruneSourceAdds(r, key, i, now, None, alive);
      var s := PruneSource(r, key, i, now, alive);
      AddsPrefix(r, s, now, None, alive);
      assert r.fates == q.fates + [Verdict(w[i], alive)];
      if job == w[i] {
        assert r.fates[|q.fates|] == Verdict(job, alive);
        GainsLater(q, r, s, Verdict(job, alive));
      } else {
        assert w[i..] == [w[i]] + w[i + 1..];
        assert Waiting(r.sources, key)[i..] == w[i + 1..];
        PruneSourceGains(r, key, i, now, alive, job);
        GainsLater(q, r, s, Verdict(job, alive));
      }
    }
  }

  lemma DropLeaves(q: Queue, key: string, i: nat, expire: bool)
    requires i < |Waiting(q.sources, key)| && Held(q, key)
    ensures var w := Waiting(q.sources, key);
            Waiting(Drop(q, key, i, expire).sources, key) == w[..i] + w[i + 1..]
  {
    LoadPositive(q.running, key);
  }

  lemma PruneSourceElsewhere(q: Queue, key: string, i: nat, now: nat, alive: set<nat>, k: string)
    requires Valid(q) && i <= |Waiting(q.sources, key)| && k != key
    ensures Waiting(PruneSource(q, key, i, now, alive).sources, k) == Waiting(q.sources, k)
    decreases |Waiting(q.sources, key)| - i
  {
    hide Valid;
    if i < |Waiting(q.sources, key)| {
      var job := q.sources[key].waiting[i];
      if Keep(job, now, alive) {
        PruneSourceElsewhere(q, key, i + 1, now, alive, k);
      } else {
        ValidHeld(q, key);
        DropValid(q, key, i, job.id in alive);
        DropLeaves(q, key, i, job.id in alive);
        PruneSourceElsewhere(Drop(q, key, i, job.id in alive), key, i, now, alive, k);
      }
    }
  }

  lemma {:induction false} PruneKeysGains(q: Queue, keys: seq<string>, key: string, now: nat, alive: set<nat>, job: Job)
    requires Valid(q) && key in keys && job in Waiting(q.sources, key) && !Keep(job, now, alive)
    ensures Gains(q, PruneKeys(q, keys, now, alive), Verdict(job, alive))
    decreases |keys|
  {
    hide Valid;
    hide PruneSource;
    hide Gains;
    hide Keep;
    var r := PruneSource(q, keys[0], 0, now, alive);
    var s := PruneKeys(r, keys[1..], now, alive);
    PruneSourceAdds(q, keys[0], 0, now, None, alive);
    PruneKeysAdds(r, keys[1..], now, None, alive);
    AddsPrefix(q, r, now, None, alive);
    AddsPrefix(r, s, now, None, alive);
    if key == keys[0] {
      PruneSourceGains(q, key, 0, now, alive, job);
    } else {
      PruneSourceElsewhere(q, keys[0], 0, now, alive, key);
      PruneKeysGains(r, keys[1..], key, now, alive, job);
    }
    GainsLater(q, r, s, Verdict(job, alive));
  }

  lemma {:induction false} KeptStay(jobs: seq<Job>, now: nat, alive: set<nat>, job: Job)
    requires job in jobs && Keep(job, now, alive)
    ensures job in KeptJobs(jobs, now, alive)
  {
    if job != jobs[0] {
      KeptStay(jobs[1..], now, alive, job);
    }
  }

  /** Pruning judges every waiting request by its connection and deadline. */
  lemma PruneJudges(q: Queue, now: nat, alive: set<nat>, key: string, job: Job)
    requires Sane(q) && job in Waiting(q.sources, key)
    ensures Valid(q)
    ensures if job.id in alive && now < job.deadline then job in Waiting(Prune(q, now, alive).sources, key)
            else Gains(q, Prune(q, now, alive), Verdict(job, alive))
  {
    SaneValid(q);
    if Keep(job, now, alive) {
      assert Fated(q, "") by {
        hide Valid;
        hide Chained;
      }
      PruneEffect(q, now, alive, "");
      KeptStay(Waiting(q.sources, key), now, alive, job);
    } else {
      PruneKeysGains(q, SortedKeys(q.sources.Keys), key, now, alive, job);
    }
    hide Sane;
    hide Valid;
    hide Gains;
    hide PruneKeys;
  }

  // ------------------------------------------------------------------- callbacks

  /** The request of `asked` is held, or a capacity was reached on the way. */
  ghost predicate Answered(q: Queue, r: Queue, asked: Job) {
    asked.id in r.ids || r.stats.full > q.stats.full || r.stats.sourceFull > q.stats.sourceFull
  }

  ghost predicate Fuller(q: Queue, r: Queue) {
    && q.fates <= r.fates && q.ids <= r.ids && r.stats.full >= q.stats.full && r.stats.sourceFull >= q.stats.sourceFull
    && (forall key, job :: job in Waiting(q.sources, key) ==> job in Waiting(r.sources, key))
  }

  lemma EnqueueAnswers(q: Queue, asked: Job)
    ensures Answered(q, Enqueue(q, asked).0, asked) && Fuller(q, Enqueue(q, asked).0)
    ensures forall key, job :: job in Waiting(Enqueue(q, asked).0.sources, key) ==>
              job in Waiting(q.sources, key) || job == asked.(source := SourceKey(asked.source))
  {
  }

  lemma {:induction false} EnqueueAllAnswers(q: Queue, jobs: seq<Job>)
    ensures Fuller(q, EnqueueAll(q, jobs)) && forall asked :: asked in jobs ==> Answered(q, EnqueueAll(q, jobs), asked)
    ensures forall key, job :: job in Waiting(EnqueueAll(q, jobs).sources, key) ==>
              job in Waiting(q.sources, key) || exists asked :: asked in jobs && job == asked.(source := SourceKey(asked.source))
    decreases |jobs|
  {
    hide Enqueue;
    if jobs != [] {
      var r := Enqueue(q, jobs[0]).0;
      EnqueueAnswers(q, jobs[0]);
      EnqueueAllAnswers(r, jobs[1..]);
      forall asked | asked in jobs
        ensures Answered(q, EnqueueAll(q, jobs), asked)
      {
        assert asked == jobs[0] || asked in jobs[1..];
      }
    }
  }

  lemma {:induction false} CallbacksHave(expired: seq<Job>, asks: map<nat, seq<Job>>, asked: Job)
    ensures asked in Callbacks(expired, asks) <==> exists job: Job :: job in expired && job.id in asks && asked in asks[job.id]
  {
    if expired != [] {
      CallbacksHave(expired[1..], asks, asked);
      assert expired == [expired[0]] + expired[1..];
    }
  }

  lemma {:induction false} ExpiredSinceHas(fates: seq<Fate>, from: nat, job: Job)
    ensures job in ExpiredSince(fates, from) <==> exists i :: from <= i < |fates| && fates[i] == Expired(job)
  {
    if |fates| > from {
      var init := fates[..|fates| - 1];
      ExpiredSinceHas(init, from, job);
      assert fates == init + [fates[|fates| - 1]];
    }
  }

  // ------------------------------------------------------------------- scheduling

  /** Requests wait on or have been started, and no other is there. */
  ghost predicate Schedules(q: Queue, r: Queue, now: nat) {
    && q.fates <= r.fates && r.ids == q.ids && r.stats.full == q.stats.full && r.stats.sourceFull == q.stats.sourceFull
    && (forall key, job :: job in Waiting(r.sources, key) ==> job in Waiting(q.sources, key))
    && (forall key, job :: job in Waiting(q.sources, key) ==>
          job in Waiting(r.sources, key) || exists worker :: Gains(q, r, Started(job, worker, now)))
  }

  lemma SchedulesChain(q: Queue, r: Queue, s: Queue, now: nat)
    requires Schedules(q, r, now) && Schedules(r, s, now)
    ensures Schedules(q, s, now)
  {
    hide Gains;
    forall key, job | job in Waiting(q.sources, key) && job !in Waiting(s.sources, key)
      ensures exists worker :: Gains(q, s, Started(job, worker, now))
    {
      if job in Waiting(r.sources, key) {
        var worker :| Gains(r, s, Started(job, worker, now));
        GainsLater(q, r, s, Started(job, worker, now));
      } else {
        var worker :| Gains(q, r, Started(job, worker, now));
        GainsLater(q, r, s, Started(job, worker, now));
      }
    }
  }

  lemma StartSchedules(q: Queue, worker: nat, key: string, now: nat)
    requires worker < |q.running| && |Waiting(q.sources, key)| > 0
    ensures Schedules(q, Start(q, worker, key, now), now)
  {
    var r := Start(q, worker, key, now);
    var job := q.sources[key].waiting[0];
    assert r.fates[|q.fates|] == Started(job, worker, now);
    assert Gains(q, r, Started(job, worker, now));
    hide Gains;
    forall k, j | j in Waiting(q.sources, k) && j !in Waiting(r.sources, k)
      ensures j == job
    {
      assert q.sources[key].waiting == [job] + q.sources[key].waiting[1..];
    }
  }

  lemma RefuseSchedules(q: Queue, key: string, until: nat, now: nat)
    requires key in q.sources
    ensures Schedules(q, Refuse(q, key, until), now)
  {
    assert forall k :: Waiting(Refuse(q, key, until).sources, k) == Waiting(q.sources, k);
    hide Gains;
  }

  lemma SchedulesSelf(q: Queue, r: Queue, now: nat)
    requires r == q.(decisions := r.decisions)
    ensures Schedules(q, r, now)
  {
    hide Gains;
  }

  lemma {:induction false} ScanSchedules(q: Queue, l: Limits, worker: nat, round: seq<string>, now: nat)
    requires worker < |q.running| && forall k :: k in round ==> k in q.sources
    ensures Schedules(q, Scan(q, l, worker, round, now).queue, now)
    decreases |round|
  {
    hide Schedules;
    hide Ask;
    SchedulesSelf(q, q, now);
    if round != [] {
      var key := round[0];
      if !Ready(q.sources[key], now) {
        ScanSchedules(q, l, worker, round[1..], now);
      } else {
        var (l', delay) := Ask(l, q.sources[key].waiting[0].source, now);
        if delay > 0 {
          var r := Refuse(q, key, now + delay);
          RefuseSchedules(q, key, now + delay, now);
          ScanSchedules(r, l', worker, round[1..], now);
          SchedulesChain(q, r, Scan(r, l', worker, round[1..], now).queue, now);
        } else {
          StartSchedules(q, worker, key, now);
        }
      }
    }
  }

  lemma {:induction false} SchedulesAll(q: Queue, l: Limits, worker: nat, now: nat)
    requires worker <= |q.running|
    ensures Schedules(q, Schedule(q, l, worker, now).0, now)
    decreases |q.running| - worker
  {
    hide Schedules;
    hide Scan;
    hide RoundFrom;
    hide SortedKeys;
    SchedulesSelf(q, q, now);
    if worker < |q.running| {
      if q.running[worker].Busy? {
        SchedulesAll(q, l, worker + 1, now);
      } else {
        var round := RoundFrom(SortedKeys(q.sources.Keys), q.lastSource);
        DecideIs(q, l, worker, now);
        ScanSchedules(q, l, worker, round, now);
        ScanShape(q, l, worker, round, now);
        var s, d := Scan(q, l, worker, round, now), Decide(q, l, worker, now);
        SchedulesSelf(s.queue, d.queue, now);
        SchedulesChain(q, s.queue, d.queue, now);
        SchedulesAll(d.queue, d.limits, worker + 1, now);
        SchedulesChain(q, d.queue, Schedule(d.queue, d.limits, worker + 1, now).0, now);
      }
    }
  }

  // -------------------------------------------------------------------- the pump

  /** A request that waited before the pump: alive and in time it waits on or has
      been started, else it has expired or, with a dead connection, been canceled. */
  ghost predicate Judged(q: Queue, r: Queue, now: nat, alive: set<nat>, key: string, job: Job) {
    if job.id in alive && now < job.deadline then
      job in Waiting(r.sources, key) || exists worker :: Gains(q, r, Started(job, worker, now))
    else Gains(q, r, if job.id in alive then Expired(job) else Canceled(job))
  }

  /** One of the callbacks of the requests that expired asked for it. */
  ghost predicate AskedFor(q: Queue, r: Queue, asks: map<nat, seq<Job>>, asked: Job) {
    exists job: Job :: Gains(q, r, Expired(job)) && job.id in asks && asked in asks[job.id]
  }

  lemma ExpiredGains(q: Queue, r: Queue, s: Queue, asks: map<nat, seq<Job>>, asked: Job)
    requires q.fates <= r.fates <= s.fates
    requires forall i :: |r.fates| <= i < |s.fates| ==> !s.fates[i].Expired?
    ensures asked in Callbacks(ExpiredSince(r.fates, |q.fates|), asks) <==> AskedFor(q, s, asks, asked)
  {
    CallbacksHave(ExpiredSince(r.fates, |q.fates|), asks, asked);
    forall job: Job
      ensures job in ExpiredSince(r.fates, |q.fates|) <==> Gains(q, s, Expired(job))
    {
      ExpiredSinceHas(r.fates, |q.fates|, job);
      if Gains(q, r, Expired(job)) {
        GainsLater(q, r, s, Expired(job));
      }
      if Gains(q, s, Expired(job)) {
        var i :| |q.fates| <= i < |s.fates| && s.fates[i] == Expired(job);
        assert i < |r.fates| && r.fates[i] == Expired(job);
      }
    }
    hide ExpiredSince;
    hide Callbacks;
    hide Gains;
  }

  lemma {:induction false} EnqueueAllExpiresNone(q: Queue, jobs: seq<Job>)
    ensures var r := EnqueueAll(q, jobs);
            q.fates <= r.fates && forall i :: |q.fates| <= i < |r.fates| ==> r.fates[i].Accepted?
    decreases |jobs|
  {
    if jobs != [] {
      EnqueueAllExpiresNone(Enqueue(q, jobs[0]).0, jobs[1..]);
    }
  }

  lemma {:induction false} ScanStarts(q: Queue, l: Limits, worker: nat, round: seq<string>, now: nat)
    requires worker < |q.running| && forall k :: k in round ==> k in q.sources
    ensures var r := Scan(q, l, worker, round, now).queue;
            q.fates <= r.fates && forall i :: |q.fates| <= i < |r.fates| ==> r.fates[i].Started?
    decreases |round|
  {
    hide Ask;
    if round != [] {
      var key := round[0];
      if !Ready(q.sources[key], now) {
        ScanStarts(q, l, worker, round[1..], now);
      } else {
        var (l', delay) := Ask(l, q.sources[key].waiting[0].source, now);
        if delay > 0 {
          ScanStarts(Refuse(q, key, now + delay), l', worker, round[1..], now);
        }
      }
    }
  }

  lemma {:induction false} ScheduleStarts(q: Queue, l: Limits, worker: nat, now: nat)
    requires worker <= |q.running|
    ensures var r := Schedule(q, l, worker, now).0;
            q.fates <= r.fates && forall i :: |q.fates| <= i < |r.fates| ==> r.fates[i].Started?
    decreases |q.running| - worker
  {
    hide Scan;
    hide RoundFrom;
    hide SortedKeys;
    if worker < |q.running| {
      if q.running[worker].Busy? {
        ScheduleStarts(q, l, worker + 1, now);
      } else {
        var round := RoundFrom(SortedKeys(q.sources.Keys), q.lastSource);
        DecideIs(q, l, worker, now);
        ScanStarts(q, l, worker, round, now);
        ScanShape(q, l, worker, round, now);
        var d := Decide(q, l, worker, now);
        ScheduleStarts(d.queue, d.limits, worker + 1, now);
      }
    }
  }

  lemma {:induction false} EnqueueAllAdds(q: Queue, jobs: seq<Job>, now: nat, alive: set<nat>)
    ensures Adds(q, EnqueueAll(q, jobs), now, None, alive)
    decreases |jobs|
  {
    hide Adds;
    hide Enqueue;
    AddsSelf(q, q, now, None, alive);
    if jobs != [] {
      var r := Enqueue(q, jobs[0]).0;
      EnqueueAdds(q, jobs[0], now, None, alive);
      EnqueueAllAdds(r, jobs[1..], now, alive);
      AddsChain(q, r, EnqueueAll(r, jobs[1..]), now, None, alive);
    }
  }

  lemma {:induction false} KeptWere(jobs: seq<Job>, now: nat, alive: set<nat>)
    ensures forall job :: job in KeptJobs(jobs, now, alive) ==> job in jobs && now < job.deadline && job.id in alive
  {
    if jobs != [] {
      KeptWere(jobs[1..], now, alive);
    }
  }

  lemma PrunedWaits(q: Queue, now: nat, alive: set<nat>, key: string, job: Job)
    requires Sane(q)
    ensures Valid(q)
    ensures job in Waiting(Prune(q, now, alive).sources, key) ==> job in Waiting(q.sources, key) && job.id in alive && now < job.deadline
  {
    SaneValid(q);
    assert Fated(q, "") by {
      hide Valid;
      hide Chained;
    }
    PruneEffect(q, now, alive, "");
    KeptWere(Waiting(q.sources, key), now, alive);
    hide Sane;
    hide Valid;
    hide Prune;
  }

  /** Pruning refuses nobody. */
  ghost predicate SameRefusals(q: Queue, r: Queue) {
    r.stats.full == q.stats.full && r.stats.sourceFull == q.stats.sourceFull
  }

  lemma {:induction false} PruneSourceRefuses(q: Queue, key: string, i: nat, now: nat, alive: set<nat>)
    requires Valid(q) && i <= |Waiting(q.sources, key)|
    ensures SameRefusals(q, PruneSource(q, key, i, now, alive))
    decreases |Waiting(q.sources, key)| - i
  {
    hide Valid;
    if i < |Waiting(q.sources, key)| {
      var job := q.sources[key].waiting[i];
      if Keep(job, now, alive) {
        PruneSourceRefuses(q, key, i + 1, now, alive);
      } else {
        ValidHeld(q, key);
        DropValid(q, key, i, job.id in alive);
        DropLeaves(q, key, i, job.id in alive);
        PruneSourceRefuses(Drop(q, key, i, job.id in alive), key, i, now, alive);
      }
    }
  }

  lemma {:induction false} PruneKeysRefuses(q: Queue, keys: seq<string>, now: nat, alive: set<nat>)
    requires Valid(q)
    ensures SameRefusals(q, PruneKeys(q, keys, now, alive))
    decreases |keys|
  {
    hide Valid;
    hide PruneSource;
    if keys != [] {
      PruneSourceRefuses(q, keys[0], 0, now, alive);
      PruneKeysRefuses(PruneSource(q, keys[0], 0, now, alive), keys[1..], now, alive);
    }
  }

  /** The pump's three stages: pruned, with the callbacks' requests, scheduled. */
  ghost predicate Stages(q: Queue, p: Queue, e: Queue, r: Queue, l: Limits, now: nat, alive: set<nat>, jobs: seq<Job>)
    requires Valid(q)
  {
    p == Prune(q, now, alive) && e == EnqueueAll(p, jobs) && r == Schedule(e, l, 0, now).0
  }

  lemma StagesAdd(q: Queue, p: Queue, e: Queue, r: Queue, l: Limits, now: nat, alive: set<nat>, jobs: seq<Job>)
    requires Valid(q) && Sane(q) && Stages(q, p, e, r, l, now, alive, jobs)
    ensures Adds(q, r, now, None, alive) && q.fates <= p.fates <= e.fates <= r.fates
    ensures forall i :: |p.fates| <= i < |r.fates| ==> !r.fates[i].Expired?
    ensures Fuller(p, e) && Schedules(e, r, now) && SameRefusals(q, p)
    ensures forall asked :: asked in jobs ==> Answered(p, e, asked)
    ensures forall key, job :: job in Waiting(e.sources, key) ==>
              job in Waiting(p.sources, key) || exists asked :: asked in jobs && job == asked.(source := SourceKey(asked.source))
  {
    hide Valid;
    hide Sane;
    hide Adds;
    hide PruneKeys;
    hide EnqueueAll;
    hide Schedule;
    hide Schedules;
    hide Fuller;
    hide Answered;
    PruneAdds(q, now, None, alive);
    AddsPrefix(q, p, now, None, alive);
    PruneKeysRefuses(q, SortedKeys(q.sources.Keys), now, alive);
    EnqueueAllAnswers(p, jobs);
    EnqueueAllExpiresNone(p, jobs);
    EnqueueAllAdds(p, jobs, now, alive);
    AddsChain(q, p, e, now, None, alive);
    SchedulesAll(e, l, 0, now);
    ScheduleStarts(e, l, 0, now);
    ScheduleAdds(e, l, 0, now, None, alive);
    AddsChain(q, e, r, now, None, alive);
    forall i | |p.fates| <= i < |r.fates|
      ensures !r.fates[i].Expired?
    {
      assert i < |e.fates| ==> r.fates[i] == e.fates[i];
    }
  }

  lemma JudgedOn(q: Queue, p: Queue, e: Queue, r: Queue, now: nat, alive: set<nat>, key: string, job: Job)
    requires q.fates <= p.fates <= e.fates <= r.fates && Fuller(p, e) && Schedules(e, r, now)
    requires if job.id in alive && now < job.deadline then job in Waiting(p.sources, key) else Gains(q, p, Verdict(job, alive))
    ensures Judged(q, r, now, alive, key, job)
  {
    hide Gains;
    if job.id in alive && now < job.deadline {
      assert job in Waiting(e.sources, key);
      if job !in Waiting(r.sources, key) {
        var worker :| Gains(e, r, Started(job, worker, now));
        GainsLater(q, e, r, Started(job, worker, now));
      }
    } else {
      GainsLater(q, p, r, Verdict(job, alive));
    }
  }

  /** One pump: every waiting request is judged by its connection and deadline,
      every request a callback of an expired one asks for is held unless a capacity
      was reached, and nothing else waits afterwards. */
  lemma PumpJudges(q: Queue, l: Limits, now: nat, alive: set<nat>, asks: map<nat, seq<Job>>, key: string, job: Job, asked: Job)
    requires Sane(q)
    ensures Valid(q)
    ensures var r := Pump(q, l, now, alive, asks).0;
            && Adds(q, r, now, None, alive)
            && (job in Waiting(q.sources, key) ==> Judged(q, r, now, alive, key, job))
            && (AskedFor(q, r, asks, asked) ==> Answered(q, r, asked))
            && (job in Waiting(r.sources, key) ==>
                  || (job in Waiting(q.sources, key) && job.id in alive && now < job.deadline)
                  || (exists a :: AskedFor(q, r, asks, a) && job == a.(source := SourceKey(a.source))))
  {
    hide Valid;
    hide Sane;
    hide Adds;
    hide Prune;
    hide Callbacks;
    hide EnqueueAll;
    hide Schedule;
    hide Judged;
    hide AskedFor;
    hide Gains;
    SaneValid(q);
    var p := Prune(q, now, alive);
    var jobs := Callbacks(ExpiredSince(p.fates, |q.fates|), asks);
    var e := EnqueueAll(p, jobs);
    var r := Pump(q, l, now, alive, asks).0;
    StagesAdd(q, p, e, r, l, now, alive, jobs);
    forall a
      ensures a in jobs <==> AskedFor(q, r, asks, a)
    {
      ExpiredGains(q, p, r, asks, a);
    }
    PrunedWaits(q, now, alive, key, job);
    if job in Waiting(q.sources, key) {
      PruneJudges(q, now, alive, key, job);
      JudgedOn(q, p, e, r, now, alive, key, job);
    }
  }
}
