/** How long a refused source waits, told by the starts of its jobs alone: its
    60 second windows begin with a start, and it waits only for the end of one
    in which it has had all its starts, or because very many sources had one. */
module QueueWindows {
  import opened Ordering
  import opened WorkLimiting
  import opened QueueSpec
  import opened QueueHistory

  // ------------------------------------------------------------- windows of starts

  /** When the window of the last start began: with that start, unless the
      window before it was still open. */
  ghost function Opening(at: seq<nat>): nat
    requires at != []
  {
    var n := |at| - 1;
    if n == 0 then at[0]
    else
      var before := Opening(at[..n]);
      if at[n] < before + 60 then before else at[n]
  }

  /** How many of the instants lie in the half-open interval. */
  ghost function Count(at: seq<nat>, from: nat, until: nat): nat {
    if at == [] then 0
    else Count(at[..|at| - 1], from, until) + if from <= at[|at| - 1] < until then 1 else 0
  }

  /** The starts in the window of the last one. */
  ghost function Used(at: seq<nat>): nat
    requires at != []
  {
    Count(at, Opening(at), Opening(at) + 60)
  }

  lemma {:induction false} CountNone(at: seq<nat>, from: nat, until: nat)
    requires forall i :: 0 <= i < |at| ==> at[i] < from
    ensures Count(at, from, until) == 0
  {
    if at != [] {
      CountNone(at[..|at| - 1], from, until);
    }
  }

  lemma CountSnoc(at: seq<nat>, now: nat, from: nat, until: nat)
    ensures Count(at + [now], from, until) == Count(at, from, until) + if from <= now < until then 1 else 0
  {
    assert (at + [now])[..|at|] == at;
  }

  /** Ascending instants, none of them in the future. */
  ghost predicate Past(at: seq<nat>, now: nat) {
    Ascending(at) && (at != [] ==> at[|at| - 1] <= now)
  }

  lemma {:induction false} OpeningFacts(at: seq<nat>)
    requires Ascending(at) && at != []
    ensures Opening(at) in at && Opening(at) <= at[|at| - 1] < Opening(at) + 60
  {
    var n := |at| - 1;
    if n > 0 {
      OpeningFacts(at[..n]);
      assert at[n - 1] <= at[n];
    }
  }

  /** A start opens a window when none is open, and else uses the open one. */
  lemma StartOpens(at: seq<nat>, now: nat)
    requires Past(at, now)
    ensures Past(at + [now], now)
    ensures var opens := at == [] || Opening(at) + 60 <= now;
            && Opening(at + [now]) == (if opens then now else Opening(at))
            && Used(at + [now]) == if opens then 1 else Used(at) + 1
  {
    var more := at + [now];
    assert more[..|at|] == at;
    AscendingTook(at, now);
    CountSnoc(at, now, Opening(more), Opening(more) + 60);
    if at != [] {
      OpeningFacts(at);
      if Opening(at) + 60 <= now {
        assert forall i :: 0 <= i < |at| ==> at[i] <= at[|at| - 1];
        CountNone(at, now, now + 60);
      }
    }
  }

  // ------------------------------------------------------------- the limiter's table

  /** The table's entry for `key` is what its starts say. */
  ghost predicate Entered(l: Limits, key: string, at: seq<nat>, now: nat) {
    && Past(at, now)
    && if key in l.windows then at != [] && l.windows[key] == Window(Used(at), Opening(at) + 60) && Used(at) <= l.limit
       else at == [] || Opening(at) + 60 <= now
  }

  /** Entries are swept at most a minute after their windows end. */
  ghost predicate Swept(l: Limits, now: nat) {
    && 0 < l.limit && l.nextCleanup <= now + 60
    && forall k :: k in l.windows ==> l.nextCleanup < l.windows[k].expires + 60
  }

  lemma CleanedEntered(l: Limits, key: string, at: seq<nat>, now: nat)
    requires Entered(l, key, at, now)
    ensures Entered(Cleaned(l, now), key, at, now)
  {
  }

  lemma CleanedSwept(l: Limits, now: nat)
    requires Swept(l, now)
    ensures Swept(Cleaned(l, now), now) && now < Cleaned(l, now).nextCleanup
  {
  }

  /** One call of `Admit` for some source, seen by any source. */
  lemma AskEntered(l: Limits, source: string, key: string, at: seq<nat>, now: nat)
    requires Swept(l, now) && Entered(l, key, at, now)
    ensures var (l', delay) := Ask(l, source, now);
            Entered(l', key, if delay == 0 && SourceKey(source) == key then at + [now] else at, now)
  {
    hide Cleaned;
    hide Opening;
    hide Used;
    hide Past;
    CleanedEntered(l, key, at, now);
    CleanedSwept(l, now);
    StartOpens(at, now);
  }

  lemma AskSwept(l: Limits, source: string, now: nat)
    requires Swept(l, now)
    ensures Swept(Ask(l, source, now).0, now) && Ask(l, source, now).0.limit == l.limit
  {
    CleanedSwept(l, now);
    var c := Cleaned(l, now);
    assert c.limit == l.limit;
    hide Cleaned;
  }

  /** A refusal lasts to the end of a spent window, or a minute when the table
      is full and the source has no window. */
  lemma AskRefuses(l: Limits, source: string, at: seq<nat>, now: nat)
    requires Swept(l, now) && Entered(l, SourceKey(source), at, now) && Ask(l, source, now).1 > 0
    ensures var delay := Ask(l, source, now).1;
            || (at != [] && now + delay == Opening(at) + 60 && Used(at) == l.limit && delay <= 60)
            || (delay == 60 && |Cleaned(l, now).windows| >= 16384 && (at == [] || Opening(at) + 60 <= now))
  {
    var key := SourceKey(source);
    CleanedEntered(l, key, at, now);
    if at != [] {
      OpeningFacts(at);
    }
    hide Cleaned;
    hide Opening;
    hide Used;
    hide SourceKey;
  }

  // ------------------------------------------------------------ why a source waits

  /** A start in the two minutes up to `t`. */
  ghost predicate Lately(at: seq<nat>, t: nat) {
    exists i :: 0 <= i < |at| && at[i] <= t < at[i] + 120
  }

  ghost predicate AllLately(fates: seq<Fate>, keys: set<string>, t: nat) {
    forall k :: k in keys ==> Lately(StartTimes(fates, k), t)
  }

  /** More sources than the limiter can follow had starts in those two minutes. */
  ghost predicate Crowded(fates: seq<Fate>, t: nat) {
    exists keys: set<string> :: |keys| >= 16384 && AllLately(fates, keys, t)
  }

  /** The window of the last start ends at `until` and is used up. */
  ghost predicate UsedUp(at: seq<nat>, limit: nat, until: nat) {
    at != [] && until == Opening(at) + 60 && Used(at) == limit
  }

  /** Turned away at `t`, without an open window, in a crowd. */
  ghost predicate TurnedAway(fates: seq<Fate>, at: seq<nat>, t: nat) {
    Crowded(fates, t) && (at == [] || Opening(at) + 60 <= t)
  }

  /** What the starts say about a source that may not be served before `until`. */
  ghost predicate Excused(fates: seq<Fate>, limit: nat, key: string, until: nat) {
    var at := StartTimes(fates, key);
    UsedUp(at, limit, until) || (60 <= until && TurnedAway(fates, at, until - 60))
  }

  ghost predicate Waits(q: Queue, limit: nat, key: string, now: nat) {
    key in q.sources ==>
      var until := q.sources[key].notBefore;
      until <= now || (until <= now + 60 && Excused(q.fates, limit, key, until))
  }

  /** The limiter's table and every waiting time are told by the starts. */
  ghost predicate Punctual(q: Queue, l: Limits, now: nat) {
    && Swept(l, now)
    && (forall key :: Entered(l, key, StartTimes(q.fates, key), now))
    && (forall key :: Waits(q, l.limit, key, now))
  }

  lemma PunctualLater(q: Queue, l: Limits, now: nat, later: nat)
    requires Punctual(q, l, now) && now <= later
    ensures Punctual(q, l, later)
  {
    hide Excused;
    hide Opening;
    hide Used;
    forall key
      ensures Entered(l, key, StartTimes(q.fates, key), later) && Waits(q, l.limit, key, later)
    {
      assert Entered(l, key, StartTimes(q.fates, key), now) && Waits(q, l.limit, key, now);
    }
  }

  ghost predicate Grown(fates: seq<Fate>, fates': seq<Fate>) {
    forall k :: StartTimes(fates, k) <= StartTimes(fates', k)
  }

  lemma CrowdedGrows(fates: seq<Fate>, fates': seq<Fate>, t: nat)
    requires Crowded(fates, t)
    requires Grown(fates, fates')
    ensures Crowded(fates', t)
  {
    hide StartTimes;
    var keys: set<string> :| |keys| >= 16384 && AllLately(fates, keys, t);
    forall k | k in keys
      ensures Lately(StartTimes(fates', k), t)
    {
      assert Lately(StartTimes(fates, k), t);
      assert StartTimes(fates, k) <= StartTimes(fates', k);
    }
  }

  /** Other sources' starts do not matter. */
  lemma ExcusedGrows(fates: seq<Fate>, fates': seq<Fate>, limit: nat, key: string, until: nat)
    requires Excused(fates, limit, key, until) && StartTimes(fates', key) == StartTimes(fates, key)
    requires Grown(fates, fates')
    ensures Excused(fates', limit, key, until)
  {
    hide StartTimes;
    hide UsedUp;
    hide Crowded;
    if 60 <= until && TurnedAway(fates, StartTimes(fates, key), until - 60) {
      CrowdedGrows(fates, fates', until - 60);
    }
  }

  /** No source is held back that was not, and no job starts. */
  ghost predicate Silent(q: Queue, r: Queue) {
    && (forall k :: k in r.sources ==> r.sources[k].notBefore == 0 || (k in q.sources && r.sources[k].notBefore == q.sources[k].notBefore))
    && (forall k :: StartTimes(r.fates, k) == StartTimes(q.fates, k))
  }

  lemma SilentPunctual(q: Queue, r: Queue, l: Limits, now: nat)
    requires Punctual(q, l, now) && Silent(q, r)
    ensures Punctual(r, l, now)
  {
    hide Excused;
    hide Entered;
    hide StartTimes;
    hide Swept;
    forall key
      ensures Entered(l, key, StartTimes(r.fates, key), now) && Waits(r, l.limit, key, now)
    {
      assert Entered(l, key, StartTimes(q.fates, key), now) && Waits(q, l.limit, key, now);
      if key in r.sources && r.sources[key].notBefore > now {
        ExcusedGrows(q.fates, r.fates, l.limit, key, r.sources[key].notBefore);
      }
    }
  }

  lemma SilentChain(q: Queue, r: Queue, s: Queue)
    requires Silent(q, r) && Silent(r, s)
    ensures Silent(q, s)
  {
    hide StartTimes;
  }

  lemma SilentSnoc(q: Queue, r: Queue, f: Fate)
    requires r.fates == q.fates + [f] && !f.Started?
    ensures forall k :: StartTimes(r.fates, k) == StartTimes(q.fates, k)
  {
    forall k
      ensures StartTimes(r.fates, k) == StartTimes(q.fates, k)
    {
      StartTimesSnoc(q.fates, f, k);
    }
    hide StartTimes;
  }

  lemma EnqueueSilent(q: Queue, job: Job)
    ensures Silent(q, Enqueue(q, job).0)
  {
    if Enqueue(q, job).1 {
      SilentSnoc(q, Enqueue(q, job).0, Accepted(job.(source := SourceKey(job.source))));
    }
    hide StartTimes;
  }

  lemma {:induction false} EnqueueAllSilent(q: Queue, jobs: seq<Job>)
    ensures Silent(q, EnqueueAll(q, jobs))
    decreases |jobs|
  {
    hide Enqueue;
    hide StartTimes;
    if jobs != [] {
      EnqueueSilent(q, jobs[0]);
      EnqueueAllSilent(Enqueue(q, jobs[0]).0, jobs[1..]);
      SilentChain(q, Enqueue(q, jobs[0]).0, EnqueueAll(q, jobs));
    }
  }

  lemma DropSilent(q: Queue, key: string, i: nat, expire: bool)
    requires i < |Waiting(q.sources, key)| && q.sources[key].outstanding > 0
    ensures Silent(q, Drop(q, key, i, expire))
  {
    var r := Drop(q, key, i, expire);
    SilentSnoc(q, r, r.fates[|q.fates|]);
    hide StartTimes;
  }

  lemma {:induction false} CancelSilent(q: Queue, keys: seq<string>, id: nat)
    requires forall k :: k in keys ==> k in q.sources && q.sources[k].outstanding > 0
    ensures Silent(q, CancelIn(q, keys, id))
  {
    hide Drop;
    hide StartTimes;
    if keys != [] {
      var i := Find(q.sources[keys[0]].waiting, id);
      if i < |q.sources[keys[0]].waiting| {
        DropSilent(q, keys[0], i, false);
      } else {
        CancelSilent(q, keys[1..], id);
      }
    }
  }

  lemma CompleteSilent(q: Queue, worker: nat)
    requires Valid(q)
    ensures Silent(q, Complete(q, worker).0)
  {
    hide StartTimes;
  }

  lemma PruneSilent(q: Queue, now: nat, alive: set<nat>)
    requires Valid(q) && forall source :: Fated(q, source)
    ensures Silent(q, Prune(q, now, alive))
  {
    hide Valid;
    hide Fated;
    hide Prune;
    var r := Prune(q, now, alive);
    forall k
      ensures PruneFrame(q, r, k)
    {
      PruneEffect(q, now, alive, k);
    }
    assert PruneFrame(q, r, "");
    forall k
      ensures StartTimes(r.fates, k) == StartTimes(q.fates, k)
    {
      assert PruneFrame(q, r, k);
    }
    hide StartTimes;
  }

  // ------------------------------------------------------------------- scheduling

  /** A full table means a crowd. */
  lemma FullCrowds(fates: seq<Fate>, l: Limits, now: nat)
    requires Swept(l, now) && |Cleaned(l, now).windows| >= 16384
    requires forall key :: Entered(l, key, StartTimes(fates, key), now)
    ensures Crowded(fates, now)
  {
    var c := Cleaned(l, now);
    CleanedSwept(l, now);
    assert |c.windows.Keys| == |c.windows|;
    forall k | k in c.windows.Keys
      ensures Lately(StartTimes(fates, k), now)
    {
      var at := StartTimes(fates, k);
      CleanedEntered(l, k, at, now);
      OpeningFacts(at);
      var i :| 0 <= i < |at| && at[i] == Opening(at);
      assert at[i] <= at[|at| - 1] <= now;
    }
  }

  lemma RefuseFates(q: Queue, key: string, until: nat)
    requires key in q.sources
    ensures Refuse(q, key, until).fates == q.fates
  {
  }

  lemma RefuseWaits(q: Queue, limit: nat, key: string, delay: nat, now: nat, k: string)
    requires key in q.sources && Waits(q, limit, k, now)
    requires delay <= 60 && Excused(q.fates, limit, key, now + delay)
    ensures Waits(Refuse(q, key, now + delay), limit, k, now)
  {
    hide Excused;
  }

  lemma RefusePunctual(q: Queue, l: Limits, key: string, asked: string, now: nat)
    requires Punctual(q, l, now) && key in q.sources && SourceKey(asked) == key && Ask(l, asked, now).1 > 0
    ensures Punctual(Refuse(q, key, now + Ask(l, asked, now).1), Ask(l, asked, now).0, now)
  {
    hide Ask;
    hide Cleaned;
    hide Entered;
    hide StartTimes;
    hide Swept;
    hide Opening;
    hide Used;
    hide Crowded;
    hide Waits;
    hide Refuse;
    var (l', delay) := Ask(l, asked, now);
    var r := Refuse(q, key, now + delay);
    RefuseFates(q, key, now + delay);
    AskSwept(l, asked, now);
    assert Entered(l, key, StartTimes(q.fates, key), now);
    AskRefuses(l, asked, StartTimes(q.fates, key), now);
    if |Cleaned(l, now).windows| >= 16384 {
      FullCrowds(q.fates, l, now);
    }
    forall k
      ensures Entered(l', k, StartTimes(r.fates, k), now)
      ensures Waits(r, l.limit, k, now)
    {
      assert Entered(l, k, StartTimes(q.fates, k), now);
      AskEntered(l, asked, k, StartTimes(q.fates, k), now);
      assert Waits(q, l.limit, k, now);
      RefuseWaits(q, l.limit, key, delay, now, k);
    }
  }

  lemma StartedAt(q: Queue, worker: nat, key: string, now: nat, k: string)
    requires worker < |q.running| && |Waiting(q.sources, key)| > 0 && q.sources[key].waiting[0].source == key
    ensures StartTimes(Start(q, worker, key, now).fates, k) == if k == key then StartTimes(q.fates, k) + [now] else StartTimes(q.fates, k)
  {
    hide StartTimes;
    StartTimesSnoc(q.fates, Started(q.sources[key].waiting[0], worker, now), k);
    assert StartTimes(q.fates, k) + [] == StartTimes(q.fates, k);
  }

  lemma StartWaits(q: Queue, limit: nat, worker: nat, key: string, now: nat, k: string)
    requires worker < |q.running| && key in q.sources && Ready(q.sources[key], now) && q.sources[key].waiting[0].source == key
    requires Waits(q, limit, k, now)
    ensures Waits(Start(q, worker, key, now), limit, k, now)
  {
    hide Excused;
    hide StartTimes;
    var r := Start(q, worker, key, now);
    forall x
      ensures StartTimes(r.fates, x) == if x == key then StartTimes(q.fates, x) + [now] else StartTimes(q.fates, x)
    {
      StartedAt(q, worker, key, now, x);
    }
    if k in q.sources && k != key && q.sources[k].notBefore > now {
      ExcusedGrows(q.fates, r.fates, limit, k, q.sources[k].notBefore);
    }
  }

  lemma StartPunctual(q: Queue, l: Limits, worker: nat, key: string, now: nat)
    requires Punctual(q, l, now) && worker < |q.running|
    requires key in q.sources && Ready(q.sources[key], now)
    requires SourceKey(q.sources[key].waiting[0].source) == q.sources[key].waiting[0].source == key
    requires Ask(l, key, now).1 == 0
    ensures Punctual(Start(q, worker, key, now), Ask(l, key, now).0, now)
  {
    hide Ask;
    hide Entered;
    hide StartTimes;
    hide Swept;
    hide Waits;
    hide Start;
    var l' := Ask(l, key, now).0;
    var r := Start(q, worker, key, now);
    AskSwept(l, key, now);
    forall k
      ensures Entered(l', k, StartTimes(r.fates, k), now)
      ensures Waits(r, l'.limit, k, now)
    {
      StartedAt(q, worker, key, now, k);
      assert Entered(l, k, StartTimes(q.fates, k), now);
      AskEntered(l, key, k, StartTimes(q.fates, k), now);
      assert Waits(q, l.limit, k, now);
      StartWaits(q, l.limit, worker, key, now, k);
    }
  }

  lemma {:induction false} ScanPunctual(q: Queue, l: Limits, worker: nat, round: seq<string>, now: nat)
    requires worker < |q.running| && Valid(q) && Punctual(q, l, now)
    requires forall k :: k in round ==> k in q.sources
    ensures Punctual(Scan(q, l, worker, round, now).queue, Scan(q, l, worker, round, now).limits, now)
    decreases |round|
  {
    hide Valid;
    hide Punctual;
    hide Ask;
    if round != [] {
      var key := round[0];
      if !Ready(q.sources[key], now) {
        ScanPunctual(q, l, worker, round[1..], now);
      } else {
        ValidHeld(q, key);
        var asked := q.sources[key].waiting[0].source;
        assert asked == key && SourceKey(asked) == key;
        var (l', delay) := Ask(l, asked, now);
        if delay > 0 {
          RefuseValid(q, key, now + delay);
          RefusePunctual(q, l, key, asked, now);
          ScanPunctual(Refuse(q, key, now + delay), l', worker, round[1..], now);
        } else {
          StartPunctual(q, l, worker, key, now);
        }
      }
    }
  }

  lemma {:induction false} SchedulePunctual(q: Queue, l: Limits, worker: nat, now: nat)
    requires worker <= |q.running| && Valid(q) && Punctual(q, l, now)
    ensures Punctual(Schedule(q, l, worker, now).0, Schedule(q, l, worker, now).1, now)
    decreases |q.running| - worker
  {
    hide Valid;
    hide Punctual;
    hide Scan;
    hide RoundFrom;
    hide SortedKeys;
    if worker < |q.running| {
      if q.running[worker].Busy? {
        SchedulePunctual(q, l, worker + 1, now);
      } else {
        DecideValid(q, l, worker, now);
        var round := RoundFrom(SortedKeys(q.sources.Keys), q.lastSource);
        DecideIs(q, l, worker, now);
        ScanPunctual(q, l, worker, round, now);
        var s, d := Scan(q, l, worker, round, now), Decide(q, l, worker, now);
        DecidedPunctual(s.queue, d.queue, s.limits, now);
        SchedulePunctual(d.queue, d.limits, worker + 1, now);
      }
    }
  }

  lemma DecidedPunctual(q: Queue, r: Queue, l: Limits, now: nat)
    requires Punctual(q, l, now) && r == q.(decisions := r.decisions)
    ensures Punctual(r, l, now)
  {
    assert Silent(q, r);
    SilentPunctual(q, r, l, now);
    hide Punctual;
  }

  // ------------------------------------------------------------------------- runs

  lemma PumpPunctual(q: Queue, l: Limits, now: nat, alive: set<nat>, asks: map<nat, seq<Job>>)
    requires Sane(q) && Punctual(q, l, now) && forall s :: Metered(q.fates, l, s, now)
    ensures Punctual(Pump(q, l, now, alive, asks).0, Pump(q, l, now, alive, asks).1, now)
  {
    hide Valid;
    hide Fated;
    hide Chained;
    hide Metered;
    hide Punctual;
    hide Silent;
    hide Prune;
    hide EnqueueAll;
    hide Schedule;
    var pruned := Prune(q, now, alive);
    PruneSilent(q, now, alive);
    SilentPunctual(q, pruned, l, now);
    PruneKeeps(q, l, now, alive);
    var jobs := Callbacks(ExpiredSince(pruned.fates, |q.fates|), asks);
    EnqueueAllSilent(pruned, jobs);
    SilentPunctual(pruned, EnqueueAll(pruned, jobs), l, now);
    EnqueueAllKeeps(pruned, jobs, l, now);
    SchedulePunctual(EnqueueAll(pruned, jobs), l, 0, now);
  }

  lemma StepPunctual(q: Queue, l: Limits, e: Timed)
    requires Sane(q) && Punctual(q, l, e.at) && forall s :: Metered(q.fates, l, s, e.at)
    ensures Punctual(Step(q, l, e).0, Step(q, l, e).1, e.at)
  {
    hide Valid;
    hide Fated;
    hide Chained;
    hide Metered;
    hide Punctual;
    hide Silent;
    hide Pump;
    hide CancelIn;
    hide Enqueue;
    hide Complete;
    match e.event {
      case Submit(job) =>
        EnqueueSilent(q, job);
        SilentPunctual(q, Enqueue(q, job).0, l, e.at);
      case Abandon(id) =>
        ValidOutstanding(q);
        CancelSilent(q, SortedKeys(q.sources.Keys), id);
        SilentPunctual(q, Cancel(q, id), l, e.at);
      case Finish(worker) =>
        CompleteSilent(q, worker);
        SilentPunctual(q, Complete(q, worker).0, l, e.at);
      case Turn(alive, asks) =>
        PumpPunctual(q, l, e.at, alive, asks);
    }
  }

  lemma NewPunctual(c: Start0)
    requires Positive(c)
    ensures Punctual(NewQueue(c.workers, c.capacity, c.sourceCapacity), Limits(c.limit, map[], 0), 0)
  {
  }

  lemma {:induction false} RunPunctual(c: Start0, events: seq<Timed>)
    requires Positive(c) && InOrder(events)
    ensures Punctual(Run(c, events).0, Run(c, events).1, EndOf(events))
  {
    hide Punctual;
    hide Sane;
    hide Metered;
    hide Step;
    if events == [] {
      NewPunctual(c);
    } else {
      var before, e := events[..|events| - 1], events[|events| - 1];
      var (q, l) := Run(c, before);
      RunPunctual(c, before);
      PunctualLater(q, l, EndOf(before), e.at);
      MeteredLater(q.fates, l, EndOf(before), e.at);
      SaneValid(q);
      StepPunctual(q, l, e);
    }
  }

  ghost predicate SomeIdle(q: Queue) {
    exists w :: 0 <= w < |q.running| && q.running[w].Idle?
  }

  /** Exactly `limit` starts in the window of the last one, which is still open
      and ends at `until`. */
  ghost predicate HadItsShare(at: seq<nat>, limit: nat, now: nat, until: nat) {
    at != [] && Count(at, Opening(at), Opening(at) + 60) == limit && Opening(at) <= now < Opening(at) + 60 == until
  }

  /** Turned away less than a minute ago, with no window open, in a crowd. */
  ghost predicate CrowdedOut(fates: seq<Fate>, at: seq<nat>, now: nat, until: nat) {
    exists t: nat :: t <= now < t + 60 == until && Crowded(fates, t) && (at == [] || Opening(at) + 60 <= t)
  }

  ghost predicate Justified(q: Queue, limit: nat, source: string, now: nat) {
    source in q.sources && q.sources[source].waiting != [] ==>
      var at, until := StartTimes(q.fates, source), q.sources[source].notBefore;
      HadItsShare(at, limit, now, until) || CrowdedOut(q.fates, at, now, until)
  }

  lemma PunctualJustified(q: Queue, l: Limits, source: string, now: nat)
    requires Punctual(q, l, now) && source in q.sources && now < q.sources[source].notBefore
    ensures Justified(q, l.limit, source, now)
  {
    var at, until := StartTimes(q.fates, source), q.sources[source].notBefore;
    assert Waits(q, l.limit, source, now) && Entered(l, source, at, now);
    if UsedUp(at, l.limit, until) {
      OpeningFacts(at);
    } else {
      var t: nat := until - 60;
      assert t <= now < t + 60 == until && TurnedAway(q.fates, at, t);
    }
    hide StartTimes;
    hide Opening;
    hide Count;
    hide Crowded;
  }

  /** Over every run: when a pump leaves a worker idle, each source with a waiting
      job has had exactly its limit of starts in a window that is still open, and
      waits for its end; or it was turned away less than a minute ago, with no
      window open, when more sources had starts than the limiter can follow. */
  lemma RunWaitsOut(c: Start0, events: seq<Timed>, source: string)
    requires Positive(c) && InOrder(events) && events != [] && events[|events| - 1].event.Turn?
    requires SomeIdle(Run(c, events).0)
    ensures Justified(Run(c, events).0, c.limit, source, EndOf(events))
  {
    var before, e := events[..|events| - 1], events[|events| - 1];
    var (p, k) := Run(c, before);
    var (q, l) := Run(c, events);
    MeteredLater(p.fates, k, EndOf(before), e.at);
    PumpWorks(p, k, e.at, e.event.alive, e.event.asks);
    RunPunctual(c, events);
    RunLimit(c, events);
    SaneValid(p);
    assert (q, l) == Pump(p, k, e.at, e.event.alive, e.event.asks);
    hide Run;
    hide Pump;
    hide Sane;
    hide Metered;
    hide Punctual;
    if source in q.sources && q.sources[source].waiting != [] {
      PunctualJustified(q, l, source, e.at);
    }
    hide Justified;
  }

  // ------------------------------------------------------------ counting refusals

  /** Sources that could be served at `now` in `q`, and are held back in `r`. */
  ghost function HeldOff(q: Queue, r: Queue, now: nat): set<string> {
    set k | k in q.sources && k in r.sources && q.sources[k].notBefore <= now < r.sources[k].notBefore
  }

  /** The sources are the same, those held back stay so, and each newly held back
      has been counted. */
  ghost predicate Counts(q: Queue, r: Queue, now: nat) {
    && r.sources.Keys == q.sources.Keys
    && (forall k :: k in q.sources && now < q.sources[k].notBefore ==> now < r.sources[k].notBefore)
    && r.stats.sourceWaits == q.stats.sourceWaits + |HeldOff(q, r, now)|
  }

  lemma CountsNone(q: Queue, r: Queue, now: nat)
    requires r.sources.Keys == q.sources.Keys && r.stats.sourceWaits == q.stats.sourceWaits
    requires forall k :: k in q.sources ==> r.sources[k].notBefore == q.sources[k].notBefore
    ensures Counts(q, r, now)
  {
    assert HeldOff(q, r, now) == {};
  }

  lemma CountsOne(q: Queue, key: string, until: nat, now: nat)
    requires key in q.sources && q.sources[key].notBefore <= now < until
    ensures Counts(q, Refuse(q, key, until), now)
  {
    assert HeldOff(q, Refuse(q, key, until), now) == {key};
  }

  lemma CountsChain(q: Queue, r: Queue, s: Queue, now: nat)
    requires Counts(q, r, now) && Counts(r, s, now)
    ensures Counts(q, s, now)
  {
    var a, b := HeldOff(q, r, now), HeldOff(r, s, now);
    assert HeldOff(q, s, now) == a + b && a !! b;
    assert |a + b| == |a| + |b|;
  }

  lemma {:induction false} ScanCounts(q: Queue, l: Limits, worker: nat, round: seq<string>, now: nat)
    requires worker < |q.running| && forall k :: k in round ==> k in q.sources
    ensures Counts(q, Scan(q, l, worker, round, now).queue, now)
    decreases |round|
  {
    hide Counts;
    hide Ask;
    CountsNone(q, q, now);
    if round != [] {
      var key := round[0];
      if !Ready(q.sources[key], now) {
        ScanCounts(q, l, worker, round[1..], now);
      } else {
        var (l', delay) := Ask(l, q.sources[key].waiting[0].source, now);
        if delay > 0 {
          var r := Refuse(q, key, now + delay);
          CountsOne(q, key, now + delay, now);
          ScanCounts(r, l', worker, round[1..], now);
          CountsChain(q, r, Scan(r, l', worker, round[1..], now).queue, now);
        } else {
          CountsNone(q, Start(q, worker, key, now), now);
        }
      }
    }
  }

  /** Scheduling counts a wait for exactly those sources that it holds back. */
  lemma {:induction false} ScheduleCounts(q: Queue, l: Limits, worker: nat, now: nat)
    requires worker <= |q.running|
    ensures Counts(q, Schedule(q, l, worker, now).0, now)
    decreases |q.running| - worker
  {
    hide Counts;
    hide Scan;
    hide RoundFrom;
    hide SortedKeys;
    CountsNone(q, q, now);
    if worker < |q.running| {
      if q.running[worker].Busy? {
        ScheduleCounts(q, l, worker + 1, now);
      } else {
        var round := RoundFrom(SortedKeys(q.sources.Keys), q.lastSource);
        DecideIs(q, l, worker, now);
        ScanCounts(q, l, worker, round, now);
        ScanShape(q, l, worker, round, now);
        var s, d := Scan(q, l, worker, round, now), Decide(q, l, worker, now);
        CountsNone(s.queue, d.queue, now);
        CountsChain(q, s.queue, d.queue, now);
        ScheduleCounts(d.queue, d.limits, worker + 1, now);
        CountsChain(q, d.queue, Schedule(d.queue, d.limits, worker + 1, now).0, now);
      }
    }
  }
}
